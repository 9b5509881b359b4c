/** The next occurrence of a schedule is strictly later than the time it is asked for. */
module RoutineSchedule {
  import opened Wrappers

  type Minutes = n: nat | n > 0 witness 1

  /** Daily and weekly schedules give, for each day from the reference on, the candidate of that day
      if the weekday is allowed; time zones are hidden in the candidates. */
  datatype Schedule = Once(at: int) | Every(anchor: int, everyMinutes: Minutes) | Calendar(candidate: (int, nat) -> Option<int>)

  const LAST_OFFSET: nat := 370

  function FirstLater(candidate: (int, nat) -> Option<int>, after: int, offset: nat): (r: Option<int>)
    requires offset <= LAST_OFFSET + 1
    ensures r.Some? ==> r.value > after
    decreases LAST_OFFSET + 1 - offset
  {
    if offset > LAST_OFFSET then None
    else if candidate(after, offset).Some? && candidate(after, offset).value > after then candidate(after, offset)
    else FirstLater(candidate, after, offset + 1)
  }

  function NextOccurrence(schedule: Schedule, after: int): Option<int> {
    match schedule
    case Once(at) => if at > after then Some(at) else None
    case Every(anchor, everyMinutes) =>
      var interval := everyMinutes * 60;
      if after < anchor then Some(anchor)
      else Some(anchor + ((after - anchor) / interval + 1) * interval)
    case Calendar(candidate) => FirstLater(candidate, after, 0)
  }

  /** Rounding down and adding one interval passes the number. */
  lemma NextMultipleIsLater(n: nat, interval: nat)
    requires interval > 0
    ensures n < (n / interval + 1) * interval <= n + interval
  {
    var q, r := n / interval, n % interval;
    assert n == q * interval + r && 0 <= r < interval;
    assert (q + 1) * interval == q * interval + interval;
  }

  lemma NextIsLater(schedule: Schedule, after: int)
    ensures NextOccurrence(schedule, after).Some? ==> NextOccurrence(schedule, after).value > after
  {
    match schedule
    case Every(anchor, everyMinutes) => if after >= anchor { NextMultipleIsLater(after - anchor, everyMinutes * 60); }
    case _ =>
  }

  /** An interval schedule skips no occurrence: nothing on its grid lies in between. */
  lemma NextIntervalIsFirst(anchor: int, everyMinutes: Minutes, after: int, k: nat)
    requires after < anchor + k * (everyMinutes * 60)
    ensures NextOccurrence(Every(anchor, everyMinutes), after).value <= anchor + k * (everyMinutes * 60)
  {
    var interval := everyMinutes * 60;
    if after >= anchor {
      var n := after - anchor;
      var q, r := n / interval, n % interval;
      assert n == q * interval + r && 0 <= r;
      if k <= q {
        assert k * interval <= q * interval by { MulMonotone(k, q, interval); }
      } else {
        MulMonotone(q + 1, k, interval);
      }
    } else {
      MulMonotone(0, k, interval);
    }
  }

  lemma MulMonotone(a: nat, b: nat, n: nat)
    requires a <= b
    ensures a * n <= b * n
  {
    assert b * n == a * n + (b - a) * n;
  }

  predicate OnGrid(anchor: int, interval: nat, t: int, k: nat) {
    t == anchor + k * interval
  }

  /** The first candidate, by days, that lies later. */
  ghost predicate IsFirstCandidate(candidate: (int, nat) -> Option<int>, after: int, from: nat, next: Option<int>) {
    match next
    case Some(t) =>
      exists day: nat :: from <= day <= 370 && candidate(after, day) == Some(t) && t > after
                    && forall earlier: nat :: from <= earlier < day ==> !IsLater(candidate, after, earlier)
    case None => forall day: nat :: from <= day <= 370 ==> !IsLater(candidate, after, day)
  }

  predicate IsLater(candidate: (int, nat) -> Option<int>, after: int, day: nat) {
    candidate(after, day).Some? && candidate(after, day).value > after
  }

  /** The next occurrence: a single one only while it lies ahead; the first time of the interval's grid that lies later;
      or the first later candidate within a year and five days. */
  ghost predicate IsNext(schedule: Schedule, after: int, next: Option<int>) {
    match schedule
    case Once(at) => next == if after < at then Some(at) else None
    case Every(anchor, everyMinutes) =>
      next.Some? && next.value > after
      && (exists k: nat :: OnGrid(anchor, everyMinutes * 60, next.value, k))
      && (forall k: nat, t :: OnGrid(anchor, everyMinutes * 60, t, k) && t > after ==> next.value <= t)
    case Calendar(candidate) => IsFirstCandidate(candidate, after, 0, next)
  }

  lemma {:induction false} FirstLaterIsFirst(candidate: (int, nat) -> Option<int>, after: int, offset: nat)
    requires offset <= LAST_OFFSET + 1
    ensures IsFirstCandidate(candidate, after, offset, FirstLater(candidate, after, offset))
    decreases LAST_OFFSET + 1 - offset
  {
    if offset <= LAST_OFFSET {
      if !IsLater(candidate, after, offset) { FirstLaterIsFirst(candidate, after, offset + 1); }
    }
  }

  /** What is computed is the next occurrence, and none exactly if there is none. */
  lemma NextIsExact(schedule: Schedule, after: int)
    ensures IsNext(schedule, after, NextOccurrence(schedule, after))
  {
    NextIsLater(schedule, after);
    match schedule
    case Once(_) =>
    case Every(anchor, everyMinutes) =>
      var next := NextOccurrence(schedule, after).value;
      assert OnGrid(anchor, everyMinutes * 60, next, if after < anchor then 0 else (after - anchor) / (everyMinutes * 60) + 1);
      forall k: nat, t | OnGrid(anchor, everyMinutes * 60, t, k) && t > after ensures next <= t { NextIntervalIsFirst(anchor, everyMinutes, after, k); }
    case Calendar(candidate) => FirstLaterIsFirst(candidate, after, 0);
  }
}
