/**
 Claiming due routine runs: the claims of a routine move forward in time, each occurrence has
 one run, and a routine without overlap is never claimed by schedule while it is active.
 */
module RoutineClaims {
  import opened Wrappers
  import opened RoutineSchedule

  datatype Routine = Routine(revision: nat, enabled: bool, archived: bool, nextRunAt: Option<int>, schedule: Schedule,
                             catchUpMinutes: nat, noOverlap: bool, createdAt: int)

  /** The authorization profile of a routine revision. */
  datatype Profile = Profile(revoked: bool, expiresAt: Option<int>)

  datatype Trigger = Scheduled | Manual

  datatype Status = Claimed | Running | SkippedOverlap | Missed | Interrupted | Finished(outcome: string)

  datatype RunRow = RunRow(routine: string, revision: nat, trigger: Trigger, scheduledFor: int, status: Status,
                           leaseOwner: Option<string>, leaseExpiresAt: Option<int>, finishedAt: Option<int>)

  /** A run's position is its id. */
  datatype State = State(routines: map<string, Routine>, profiles: map<(string, nat), Profile>, runs: seq<RunRow>)

  predicate Active(r: RunRow) {
    r.status == Claimed || r.status == Running
  }

  predicate HasActive(runs: seq<RunRow>, id: string) {
    exists i :: 0 <= i < |runs| && runs[i].routine == id && Active(runs[i])
  }

  /** The table's unique key. */
  predicate Taken(runs: seq<RunRow>, id: string, scheduledFor: int, trigger: Trigger) {
    exists i :: 0 <= i < |runs| && runs[i].routine == id && runs[i].scheduledFor == scheduledFor && runs[i].trigger == trigger
  }

  /** An insert that a taken key ignores. */
  function Insert(runs: seq<RunRow>, row: RunRow): seq<RunRow> {
    if Taken(runs, row.routine, row.scheduledFor, row.trigger) then runs else runs + [row]
  }

  datatype Lease = Lease(owner: string, seconds: nat)

  predicate Authorized(s: State, id: string, now: int)
    requires id in s.routines
  {
    var key := (id, s.routines[id].revision);
    && key in s.profiles && !s.profiles[key].revoked
    && (s.profiles[key].expiresAt.Some? ==> s.profiles[key].expiresAt.value > now)
  }

  function ClaimRow(s: State, id: string, trigger: Trigger, scheduledFor: int, lease: Lease, now: int): RunRow
    requires id in s.routines
  {
    RunRow(id, s.routines[id].revision, trigger, scheduledFor, Claimed, Some(lease.owner), Some(now + lease.seconds), None)
  }

  function InsertClaim(s: State, id: string, trigger: Trigger, scheduledFor: int, lease: Lease, now: int): seq<RunRow>
    requires id in s.routines
  {
    if Authorized(s, id, now) then Insert(s.runs, ClaimRow(s, id, trigger, scheduledFor, lease, now)) else s.runs
  }

  function Reported(s: State, id: string, scheduledFor: int, status: Status, now: int): RunRow
    requires id in s.routines
  {
    RunRow(id, s.routines[id].revision, Scheduled, scheduledFor, status, None, None, Some(now))
  }

  predicate IsDue(s: State, id: string, now: int) {
    && id in s.routines && s.routines[id].enabled && !s.routines[id].archived
    && s.routines[id].nextRunAt.Some? && s.routines[id].nextRunAt.value <= now
  }

  function ClaimOne(s: State, id: string, lease: Lease, now: int): State
    requires IsDue(s, id, now)
  {
    var r := s.routines[id];
    var at := r.nextRunAt.value;
    var next := NextOccurrence(r.schedule, now);
    if HasActive(s.runs, id) && r.noOverlap then
      s.(runs := Insert(s.runs, Reported(s, id, at, SkippedOverlap, now)), routines := s.routines[id := r.(nextRunAt := next)])
    else if now - at > r.catchUpMinutes * 60 then
      s.(runs := Insert(s.runs, Reported(s, id, at, Missed, now)), routines := s.routines[id := r.(nextRunAt := next)])
    else
      s.(runs := InsertClaim(s, id, Scheduled, at, lease, now),
         routines := s.routines[id := r.(nextRunAt := next, enabled := next.Some?)])
  }

  /** The due routines as they are read: each once, earliest first, up to the limit. */
  ghost predicate IsDueList(s: State, now: int, limit: nat, due: seq<string>) {
    && |due| <= limit
    && (forall i :: 0 <= i < |due| ==> IsDue(s, due[i], now))
    && (forall i, j :: 0 <= i < j < |due| ==> due[i] != due[j] && Earlier(s, due[i], due[j], now))
    && (forall id :: IsDue(s, id, now) && id !in due ==>
          |due| == limit && forall i :: 0 <= i < |due| ==> Earlier(s, due[i], id, now))
  }

  predicate Earlier(s: State, a: string, b: string, now: int) {
    IsDue(s, a, now) && IsDue(s, b, now) ==>
      var x, y := s.routines[a], s.routines[b];
      x.nextRunAt.value < y.nextRunAt.value || (x.nextRunAt == y.nextRunAt && x.createdAt <= y.createdAt)
  }

  ghost predicate AllDue(s: State, now: int, due: seq<string>) {
    && (forall i :: 0 <= i < |due| ==> IsDue(s, due[i], now))
    && (forall i, j :: 0 <= i < j < |due| ==> due[i] != due[j])
  }

  /** Claims of other routines leave a routine due. */
  function ClaimAll(s: State, due: seq<string>, lease: Lease, now: int): State {
    if due == [] then s
    else
      var rest := ClaimAll(s, due[..|due| - 1], lease, now);
      if IsDue(rest, due[|due| - 1], now) then ClaimOne(rest, due[|due| - 1], lease, now) else rest
  }

  // ----- the other writers --------------------------------------------------------------------

  datatype Op =
    | ClaimDue(due: seq<string>, lease: Lease)
    | ClaimManual(id: string, lease: Lease)
    | MarkRunning(run: nat)
    | Finish(run: nat, outcome: string)
    | Renew(run: nat, lease: Lease)
    | InterruptStale(cutoff: int)
    | Edit(id: string, routine: Routine)
    | SetProfile(id: string, revision: nat, profile: Profile)

  function Interrupt(r: RunRow, cutoff: int, now: int): RunRow {
    if Active(r) && (r.leaseExpiresAt.None? || r.leaseExpiresAt.value < cutoff)
    then r.(status := Interrupted, finishedAt := Some(now))
    else r
  }

  function StepRun(r: RunRow, op: Op, now: int): RunRow {
    match op
    case MarkRunning(_) => if r.status == Claimed then r.(status := Running) else r
    case Finish(_, outcome) => r.(status := Finished(outcome), finishedAt := Some(now), leaseExpiresAt := None)
    case Renew(_, lease) =>
      if r.leaseOwner == Some(lease.owner) && Active(r) then r.(leaseExpiresAt := Some(now + lease.seconds)) else r
    case _ => r
  }

  function Step(s: State, op: Op, now: int): State {
    match op
    case ClaimDue(due, lease) => ClaimAll(s, due, lease, now)
    case ClaimManual(id, lease) =>
      if id in s.routines && !s.routines[id].archived then s.(runs := InsertClaim(s, id, Manual, now, lease, now)) else s
    case InterruptStale(cutoff) => s.(runs := seq(|s.runs|, i requires 0 <= i < |s.runs| => Interrupt(s.runs[i], cutoff, now)))
    case Edit(id, routine) => s.(routines := s.routines[id := routine])
    case SetProfile(id, revision, profile) => s.(profiles := s.profiles[(id, revision) := profile])
    case _ => if op.run < |s.runs| then s.(runs := s.runs[op.run := StepRun(s.runs[op.run], op, now)]) else s
  }

  datatype Event = Event(op: Op, now: int)

  function Run(s: State, events: seq<Event>): State {
    if events == [] then s
    else Step(Run(s, events[..|events| - 1]), events[|events| - 1].op, events[|events| - 1].now)
  }

  // ----- what the rows keep ---------------------------------------------------------------------

  /** Rows are only appended, and keep their identity. */
  ghost predicate Appends(runs: seq<RunRow>, runs': seq<RunRow>) {
    && |runs| <= |runs'|
    && forall i :: 0 <= i < |runs| ==>
         runs'[i].routine == runs[i].routine && runs'[i].scheduledFor == runs[i].scheduledFor && runs'[i].trigger == runs[i].trigger
  }

  /** Each occurrence of a routine has at most one run row. */
  ghost predicate OneRunEach(runs: seq<RunRow>) {
    forall i, j :: 0 <= i < j < |runs| ==>
      !(runs[i].routine == runs[j].routine && runs[i].scheduledFor == runs[j].scheduledFor && runs[i].trigger == runs[j].trigger)
  }

  lemma InsertKeepsOne(runs: seq<RunRow>, row: RunRow)
    requires OneRunEach(runs)
    ensures OneRunEach(Insert(runs, row)) && Appends(runs, Insert(runs, row))
  {
  }

  lemma ClaimOneKeepsOne(s: State, id: string, lease: Lease, now: int)
    requires IsDue(s, id, now) && OneRunEach(s.runs)
    ensures OneRunEach(ClaimOne(s, id, lease, now).runs) && Appends(s.runs, ClaimOne(s, id, lease, now).runs)
  {
    var at := s.routines[id].nextRunAt.value;
    InsertKeepsOne(s.runs, Reported(s, id, at, SkippedOverlap, now));
    InsertKeepsOne(s.runs, Reported(s, id, at, Missed, now));
    InsertKeepsOne(s.runs, ClaimRow(s, id, Scheduled, at, lease, now));
  }

  lemma {:induction false} ClaimAllKeepsOne(s: State, due: seq<string>, lease: Lease, now: int)
    requires OneRunEach(s.runs)
    ensures OneRunEach(ClaimAll(s, due, lease, now).runs) && Appends(s.runs, ClaimAll(s, due, lease, now).runs)
  {
    if due != [] {
      ClaimAllKeepsOne(s, due[..|due| - 1], lease, now);
      var rest := ClaimAll(s, due[..|due| - 1], lease, now);
      if IsDue(rest, due[|due| - 1], now) { ClaimOneKeepsOne(rest, due[|due| - 1], lease, now); }
    }
  }

  predicate Marks(op: Op) {
    op.MarkRunning? || op.Finish? || op.Renew? || op.InterruptStale?
  }

  /** The writers that only mark rows leave their identity and the routines alone. */
  lemma MarksKeepRows(s: State, op: Op, now: int)
    requires Marks(op)
    ensures Appends(s.runs, Step(s, op, now).runs) && |Step(s, op, now).runs| == |s.runs|
    ensures Step(s, op, now).routines == s.routines
  {
  }

  lemma RelabeledKeepOne(runs: seq<RunRow>, runs': seq<RunRow>)
    requires OneRunEach(runs) && Appends(runs, runs') && |runs'| == |runs|
    ensures OneRunEach(runs')
  {
  }

  lemma StepKeepsOne(s: State, op: Op, now: int)
    requires OneRunEach(s.runs)
    ensures OneRunEach(Step(s, op, now).runs) && Appends(s.runs, Step(s, op, now).runs)
  {
    if Marks(op) {
      MarksKeepRows(s, op, now);
      RelabeledKeepOne(s.runs, Step(s, op, now).runs);
    } else if op.ClaimDue? {
      ClaimAllKeepsOne(s, op.due, op.lease, now);
    } else if op.ClaimManual? && op.id in s.routines {
      InsertKeepsOne(s.runs, ClaimRow(s, op.id, Manual, now, op.lease, now));
    }
  }

  /** Over all runs each occurrence gets at most one run row. */
  lemma {:induction false} OccurrencesRunOnce(s: State, events: seq<Event>)
    requires OneRunEach(s.runs)
    ensures OneRunEach(Run(s, events).runs) && Appends(s.runs, Run(s, events).runs)
  {
    if events != [] {
      var init, last := events[..|events| - 1], events[|events| - 1];
      OccurrencesRunOnce(s, init);
      StepKeepsOne(Run(s, init), last.op, last.now);
    }
  }

  // ----- forward in time ----------------------------------------------------------------------------

  /** The scheduled rows from `start` on increase strictly, and all lie before the next due time. */
  ghost predicate MovesForward(s: State, id: string, start: nat) {
    && (forall i, j :: start <= i < j < |s.runs| && ScheduledFor(s.runs[i], id) && ScheduledFor(s.runs[j], id) ==>
          s.runs[i].scheduledFor < s.runs[j].scheduledFor)
    && (id in s.routines && s.routines[id].nextRunAt.Some? ==>
          forall i :: start <= i < |s.runs| && ScheduledFor(s.runs[i], id) ==> s.runs[i].scheduledFor < s.routines[id].nextRunAt.value)
  }

  predicate ScheduledFor(r: RunRow, id: string) {
    r.routine == id && r.trigger == Scheduled
  }

  lemma ClaimMovesForward(s: State, claimed: string, lease: Lease, now: int, id: string, start: nat)
    requires IsDue(s, claimed, now) && MovesForward(s, id, start) && start <= |s.runs|
    ensures MovesForward(ClaimOne(s, claimed, lease, now), id, start) && |s.runs| <= |ClaimOne(s, claimed, lease, now).runs|
  {
    NextIsLater(s.routines[claimed].schedule, now);
    var r := s.routines[claimed];
    var at, next := r.nextRunAt.value, NextOccurrence(r.schedule, now);
    InsertMovesForward(s, Reported(s, claimed, at, SkippedOverlap, now), r.(nextRunAt := next), id, start);
    InsertMovesForward(s, Reported(s, claimed, at, Missed, now), r.(nextRunAt := next), id, start);
    InsertMovesForward(s, ClaimRow(s, claimed, Scheduled, at, lease, now), r.(nextRunAt := next, enabled := next.Some?), id, start);
    NoInsertMovesForward(s, claimed, r.(nextRunAt := next, enabled := next.Some?), id, start);
  }

  /** A row inserted for the time its routine is due at comes last, and before the next due time. */
  lemma InsertMovesForward(s: State, row: RunRow, next: Routine, id: string, start: nat)
    requires MovesForward(s, id, start) && start <= |s.runs|
    requires row.routine in s.routines && s.routines[row.routine].nextRunAt == Some(row.scheduledFor)
    requires next.nextRunAt.Some? ==> row.scheduledFor < next.nextRunAt.value
    ensures MovesForward(s.(runs := Insert(s.runs, row), routines := s.routines[row.routine := next]), id, start)
  {
  }

  lemma NoInsertMovesForward(s: State, claimed: string, next: Routine, id: string, start: nat)
    requires MovesForward(s, id, start) && claimed in s.routines && s.routines[claimed].nextRunAt.Some?
    requires next.nextRunAt.Some? ==> s.routines[claimed].nextRunAt.value < next.nextRunAt.value
    ensures MovesForward(s.(routines := s.routines[claimed := next]), id, start)
  {
  }

  lemma {:induction false} ClaimAllMovesForward(s: State, due: seq<string>, lease: Lease, now: int, id: string, start: nat)
    requires MovesForward(s, id, start) && start <= |s.runs|
    ensures MovesForward(ClaimAll(s, due, lease, now), id, start) && |s.runs| <= |ClaimAll(s, due, lease, now).runs|
  {
    if due != [] {
      ClaimAllMovesForward(s, due[..|due| - 1], lease, now, id, start);
      var rest := ClaimAll(s, due[..|due| - 1], lease, now);
      if IsDue(rest, due[|due| - 1], now) { ClaimMovesForward(rest, due[|due| - 1], lease, now, id, start); }
    }
  }

  predicate Edits(op: Op, id: string) {
    op.Edit? && op.id == id
  }

  lemma RelabeledMoveForward(s: State, s': State, id: string, start: nat)
    requires MovesForward(s, id, start) && Appends(s.runs, s'.runs) && |s'.runs| == |s.runs| && s'.routines == s.routines
    ensures MovesForward(s', id, start)
  {
    forall i | 0 <= i < |s.runs| ensures ScheduledFor(s'.runs[i], id) <==> ScheduledFor(s.runs[i], id) {}
  }

  lemma ManualClaimMovesForward(s: State, claimed: string, lease: Lease, now: int, id: string, start: nat)
    requires claimed in s.routines && MovesForward(s, id, start) && start <= |s.runs|
    ensures var runs := InsertClaim(s, claimed, Manual, now, lease, now);
            MovesForward(s.(runs := runs), id, start) && |s.runs| <= |runs|
  {
  }

  lemma StepMovesForward(s: State, op: Op, now: int, id: string, start: nat)
    requires MovesForward(s, id, start) && start <= |s.runs| && !Edits(op, id)
    ensures MovesForward(Step(s, op, now), id, start) && |s.runs| <= |Step(s, op, now).runs|
  {
    if Marks(op) {
      MarksKeepRows(s, op, now);
      RelabeledMoveForward(s, Step(s, op, now), id, start);
    } else if op.ClaimDue? {
      ClaimAllMovesForward(s, op.due, op.lease, now, id, start);
    } else if op.ClaimManual? && op.id in s.routines {
      ManualClaimMovesForward(s, op.id, op.lease, now, id, start);
    }
  }

  /** Between edits of a routine the times it is claimed for strictly increase, whatever the clock. */
  lemma {:induction false} ClaimsMoveForward(s: State, events: seq<Event>, id: string)
    requires forall i :: 0 <= i < |events| ==> !Edits(events[i].op, id)
    ensures MovesForward(Run(s, events), id, |s.runs|) && |s.runs| <= |Run(s, events).runs|
  {
    if events != [] {
      var init, last := events[..|events| - 1], events[|events| - 1];
      assert forall i :: 0 <= i < |init| ==> init[i] == events[i];
      ClaimsMoveForward(s, init, id);
      StepMovesForward(Run(s, init), last.op, last.now, id, |s.runs|);
    }
  }

  // ----- no overlap -----------------------------------------------------------------------------------

  /** At most one active run of the routine was claimed by schedule. */
  ghost predicate OneActive(s: State, id: string) {
    forall i, j :: 0 <= i < j < |s.runs| ==>
      !(ScheduledFor(s.runs[i], id) && Active(s.runs[i]) && ScheduledFor(s.runs[j], id) && Active(s.runs[j]))
  }

  /** Rows are appended, and an appended row of the routine that is active is its only active row. */
  ghost predicate AppendedAlone(runs: seq<RunRow>, runs': seq<RunRow>, id: string) {
    && runs <= runs'
    && forall k, i :: |runs| <= k < |runs'| && 0 <= i < |runs'| && i != k && ActiveOf(runs'[k], id) ==> !ActiveOf(runs'[i], id)
  }

  predicate ActiveOf(r: RunRow, id: string) {
    r.routine == id && Active(r)
  }

  predicate NoOverlap(s: State, id: string) {
    id in s.routines ==> s.routines[id].noOverlap
  }

  lemma ClaimIsAlone(s: State, claimed: string, lease: Lease, now: int, id: string)
    requires IsDue(s, claimed, now) && NoOverlap(s, id)
    ensures AppendedAlone(s.runs, ClaimOne(s, claimed, lease, now).runs, id) && NoOverlap(ClaimOne(s, claimed, lease, now), id)
  {
    if claimed == id && !HasActive(s.runs, id) {
      assert forall i :: 0 <= i < |s.runs| ==> !ActiveOf(s.runs[i], id);
    }
  }

  lemma AloneIsTransitive(a: seq<RunRow>, b: seq<RunRow>, c: seq<RunRow>, id: string)
    requires AppendedAlone(a, b, id) && AppendedAlone(b, c, id)
    ensures AppendedAlone(a, c, id)
  {
    forall k, i | |a| <= k < |c| && 0 <= i < |c| && i != k && ActiveOf(c[k], id) ensures !ActiveOf(c[i], id) {
      if k < |b| && i < |b| { assert c[k] == b[k] && c[i] == b[i]; }
    }
  }

  /** Claiming a due list never gives a routine without overlap a run beside another active one, manual or scheduled. */
  lemma {:induction false} ClaimsAreAlone(s: State, due: seq<string>, lease: Lease, now: int, id: string)
    requires NoOverlap(s, id)
    ensures AppendedAlone(s.runs, ClaimAll(s, due, lease, now).runs, id) && NoOverlap(ClaimAll(s, due, lease, now), id)
  {
    if due != [] {
      ClaimsAreAlone(s, due[..|due| - 1], lease, now, id);
      var rest := ClaimAll(s, due[..|due| - 1], lease, now);
      if IsDue(rest, due[|due| - 1], now) {
        ClaimIsAlone(rest, due[|due| - 1], lease, now, id);
        AloneIsTransitive(s.runs, rest.runs, ClaimOne(rest, due[|due| - 1], lease, now).runs, id);
      }
    }
  }

  lemma {:induction false} RunKeepsNoOverlap(s: State, events: seq<Event>, id: string)
    requires NoOverlap(s, id) && forall i :: 0 <= i < |events| ==> KeepsNoOverlap(events[i].op, id)
    ensures NoOverlap(Run(s, events), id)
  {
    if events != [] {
      var init, last := events[..|events| - 1], events[|events| - 1];
      assert forall i :: 0 <= i < |init| ==> init[i] == events[i];
      RunKeepsNoOverlap(s, init, id);
      if last.op.ClaimDue? { ClaimsAreAlone(Run(s, init), last.op.due, last.op.lease, last.now, id); }
    }
  }

  /** Whenever in a run a due list is claimed, each run it starts of a routine without overlap is the only
      active run of that routine, and there was none before. */
  lemma ScheduledClaimsAreAlone(s: State, events: seq<Event>, n: nat, id: string)
    requires NoOverlap(s, id) && forall i :: 0 <= i < |events| ==> KeepsNoOverlap(events[i].op, id)
    requires n < |events| && events[n].op.ClaimDue?
    ensures AppendedAlone(Run(s, events[..n]).runs, Run(s, events[..n + 1]).runs, id)
  {
    RunKeepsNoOverlap(s, events[..n], id);
    assert events[..n + 1][..n] == events[..n] && events[..n + 1][n] == events[n];
    ClaimsAreAlone(Run(s, events[..n]), events[n].op.due, events[n].op.lease, events[n].now, id);
  }

  ghost predicate StaysExclusive(s: State, id: string) {
    OneActive(s, id) && NoOverlap(s, id)
  }

  lemma ClaimStaysExclusive(s: State, claimed: string, lease: Lease, now: int, id: string)
    requires IsDue(s, claimed, now) && StaysExclusive(s, id)
    ensures StaysExclusive(ClaimOne(s, claimed, lease, now), id)
  {
  }

  lemma {:induction false} ClaimAllStaysExclusive(s: State, due: seq<string>, lease: Lease, now: int, id: string)
    requires StaysExclusive(s, id)
    ensures StaysExclusive(ClaimAll(s, due, lease, now), id)
  {
    if due != [] {
      ClaimAllStaysExclusive(s, due[..|due| - 1], lease, now, id);
      var rest := ClaimAll(s, due[..|due| - 1], lease, now);
      if IsDue(rest, due[|due| - 1], now) { ClaimStaysExclusive(rest, due[|due| - 1], lease, now, id); }
    }
  }

  /** The routine is never edited to allow overlap. */
  predicate KeepsNoOverlap(op: Op, id: string) {
    Edits(op, id) ==> op.routine.noOverlap
  }

  lemma MarksActivateNone(s: State, op: Op, now: int)
    requires Marks(op)
    ensures var runs := Step(s, op, now).runs;
            |runs| == |s.runs| && forall i :: 0 <= i < |runs| && Active(runs[i]) ==> Active(s.runs[i])
  {
  }

  lemma MarksStayExclusive(s: State, s': State, id: string)
    requires StaysExclusive(s, id) && Appends(s.runs, s'.runs) && |s'.runs| == |s.runs| && s'.routines == s.routines
    requires forall i :: 0 <= i < |s.runs| && Active(s'.runs[i]) ==> Active(s.runs[i])
    ensures StaysExclusive(s', id)
  {
  }

  lemma StepStaysExclusive(s: State, op: Op, now: int, id: string)
    requires StaysExclusive(s, id) && KeepsNoOverlap(op, id)
    ensures StaysExclusive(Step(s, op, now), id)
  {
    if Marks(op) {
      MarksKeepRows(s, op, now);
      MarksActivateNone(s, op, now);
      MarksStayExclusive(s, Step(s, op, now), id);
    } else if op.ClaimDue? {
      ClaimAllStaysExclusive(s, op.due, op.lease, now, id);
    }
  }

  /** Over all runs, manual claims included, a routine without overlap has at most one active run that
      was claimed by schedule. */
  lemma {:induction false} ScheduleNeverOverlaps(s: State, events: seq<Event>, id: string)
    requires StaysExclusive(s, id) && forall i :: 0 <= i < |events| ==> KeepsNoOverlap(events[i].op, id)
    ensures StaysExclusive(Run(s, events), id)
  {
    if events != [] {
      var init, last := events[..|events| - 1], events[|events| - 1];
      assert forall i :: 0 <= i < |init| ==> init[i] == events[i];
      ScheduleNeverOverlaps(s, init, id);
      StepStaysExclusive(Run(s, init), last.op, last.now, id);
    }
  }

  /** A due list is claimed whole: claims of other routines leave a routine due. */
  lemma {:induction false} DueStaysDue(s: State, due: seq<string>, n: nat, lease: Lease, now: int, id: string)
    requires AllDue(s, now, due) && n <= |due| && IsDue(s, id, now) && id !in due[..n]
    ensures IsDue(ClaimAll(s, due[..n], lease, now), id, now)
    ensures ClaimAll(s, due[..n], lease, now).routines[id] == s.routines[id]
  {
    if n > 0 {
      assert due[..n][..n - 1] == due[..n - 1];
      assert due[n - 1] in due[..n];
      DueStaysDue(s, due, n - 1, lease, now, id);
      assert due[n - 1] !in due[..n - 1];
      DueStaysDue(s, due, n - 1, lease, now, due[n - 1]);
    }
  }

  // ----- what becomes of a due routine ---------------------------------------------------------------

  /** The routine and its rows are the same in both states. */
  ghost predicate SameFor(s: State, t: State, id: string) {
    && id in s.routines && id in t.routines && t.routines[id] == s.routines[id]
    && t.profiles == s.profiles && s.runs <= t.runs
    && forall i :: |s.runs| <= i < |t.runs| ==> t.runs[i].routine != id
  }

  /** The routine is handled: its occurrence gets one new row, unless it has one already or is not authorized,
      and the routine moves on to its next time. Nothing else is written for it. */
  ghost predicate Handled(s: State, s': State, id: string, lease: Lease, now: int)
    requires id in s.routines && s.routines[id].nextRunAt.Some?
  {
    var r := s.routines[id];
    var at, next := r.nextRunAt.value, NextOccurrence(r.schedule, now);
    var blocked := r.noOverlap && exists i :: 0 <= i < |s.runs| && s.runs[i].routine == id && s.runs[i].status in {Claimed, Running};
    var late := now > at + r.catchUpMinutes * 60;
    var free := forall i :: 0 <= i < |s.runs| ==>
                  !(s.runs[i].routine == id && s.runs[i].trigger == Scheduled && s.runs[i].scheduledFor == at);
    var profile := (id, r.revision);
    var allowed := profile in s.profiles && !s.profiles[profile].revoked
                   && (s.profiles[profile].expiresAt.None? || now < s.profiles[profile].expiresAt.value);
    && id in s'.routines && s.runs <= s'.runs
    && s'.routines[id] == r.(nextRunAt := next, enabled := r.enabled && (blocked || late || next.Some?))
    && (if free && (blocked || late || allowed) then
          exists k :: |s.runs| <= k < |s'.runs| && OnlyNewRow(s.runs, s'.runs, id, k)
                 && s'.runs[k] == (if blocked then RunRow(id, r.revision, Scheduled, at, SkippedOverlap, None, None, Some(now))
                                   else if late then RunRow(id, r.revision, Scheduled, at, Missed, None, None, Some(now))
                                   else RunRow(id, r.revision, Scheduled, at, Claimed, Some(lease.owner), Some(now + lease.seconds), None))
        else forall i :: |s.runs| <= i < |s'.runs| ==> s'.runs[i].routine != id)
  }

  ghost predicate OnlyNewRow(runs: seq<RunRow>, runs': seq<RunRow>, id: string, k: int) {
    forall i :: |runs| <= i < |runs'| && i != k ==> runs'[i].routine != id
  }

  lemma ClaimHandles(s: State, id: string, lease: Lease, now: int)
    requires IsDue(s, id, now)
    ensures Handled(s, ClaimOne(s, id, lease, now), id, lease, now)
  {
    var s' := ClaimOne(s, id, lease, now);
    if s'.runs != s.runs { assert OnlyNewRow(s.runs, s'.runs, id, |s.runs|); }
  }

  lemma OthersAreLeft(s: State, claimed: string, lease: Lease, now: int, id: string)
    requires IsDue(s, claimed, now) && id in s.routines && id != claimed
    ensures SameFor(s, ClaimOne(s, claimed, lease, now), id)
  {
  }

  lemma SameForIsTransitive(a: State, b: State, c: State, id: string)
    requires SameFor(a, b, id) && SameFor(b, c, id)
    ensures SameFor(a, c, id)
  {
    forall i | |a.runs| <= i < |c.runs| ensures c.runs[i].routine != id {
      if i < |b.runs| { assert c.runs[i] == b.runs[i]; }
    }
  }

  lemma {:induction false} ClaimsLeaveOthers(s: State, due: seq<string>, lease: Lease, now: int, id: string)
    requires id in s.routines && id !in due
    ensures SameFor(s, ClaimAll(s, due, lease, now), id)
  {
    if due != [] {
      var init, last := due[..|due| - 1], due[|due| - 1];
      assert due == init + [last];
      ClaimsLeaveOthers(s, init, lease, now, id);
      var rest := ClaimAll(s, init, lease, now);
      if IsDue(rest, last, now) {
        OthersAreLeft(rest, last, lease, now, id);
        SameForIsTransitive(s, rest, ClaimOne(rest, last, lease, now), id);
      }
    }
  }

  lemma HandledLater(a: State, b: State, c: State, id: string, lease: Lease, now: int)
    requires SameFor(a, b, id) && b.routines[id].nextRunAt.Some? && Handled(b, c, id, lease, now)
    ensures Handled(a, c, id, lease, now)
  {
    assert forall i :: 0 <= i < |a.runs| ==> b.runs[i] == a.runs[i];
    assert forall i :: |a.runs| <= i < |b.runs| ==> c.runs[i] == b.runs[i];
    if k :| |b.runs| <= k < |c.runs| && OnlyNewRow(b.runs, c.runs, id, k) { assert OnlyNewRow(a.runs, c.runs, id, k); }
  }

  lemma HandledStays(a: State, b: State, c: State, id: string, lease: Lease, now: int)
    requires id in a.routines && a.routines[id].nextRunAt.Some? && Handled(a, b, id, lease, now) && SameFor(b, c, id)
    ensures Handled(a, c, id, lease, now)
  {
    assert forall i :: 0 <= i < |b.runs| ==> c.runs[i] == b.runs[i];
    if k :| |a.runs| <= k < |b.runs| && OnlyNewRow(a.runs, b.runs, id, k) { assert OnlyNewRow(a.runs, c.runs, id, k); }
  }

  /** Claiming a due list handles every routine on it, whatever else is on the list. */
  lemma {:induction false} DueRoutinesAreHandled(s: State, due: seq<string>, lease: Lease, now: int, id: string)
    requires AllDue(s, now, due) && id in due
    ensures Handled(s, ClaimAll(s, due, lease, now), id, lease, now)
    decreases |due|
  {
    var init, last := due[..|due| - 1], due[|due| - 1];
    assert due == init + [last];
    var rest := ClaimAll(s, init, lease, now);
    assert last !in init;
    DueStaysDue(s, due, |init|, lease, now, last);
    if id == last {
      ClaimsLeaveOthers(s, init, lease, now, id);
      ClaimHandles(rest, id, lease, now);
      HandledLater(s, rest, ClaimOne(rest, last, lease, now), id, lease, now);
    } else {
      DueRoutinesAreHandled(s, init, lease, now, id);
      OthersAreLeft(rest, last, lease, now, id);
      HandledStays(s, rest, ClaimOne(rest, last, lease, now), id, lease, now);
    }
  }

  // ----- leases ---------------------------------------------------------------------------------------

  /** The run is active under a lease that lasts until then. */
  predicate Leased(s: State, run: nat, until: int) {
    run < |s.runs| && s.runs[run].status in {Claimed, Running} && s.runs[run].leaseExpiresAt == Some(until)
  }

  predicate KeepsLease(op: Op, run: nat, until: int) {
    match op
    case Finish(r, _) => r != run
    case Renew(r, _) => r != run
    case InterruptStale(cutoff) => cutoff <= until
    case _ => true
  }

  lemma StepKeepsLease(s: State, op: Op, now: int, run: nat, until: int)
    requires Leased(s, run, until) && KeepsLease(op, run, until)
    ensures Leased(Step(s, op, now), run, until)
  {
    if op.ClaimDue? { ClaimsAppend(s, op.due, op.lease, now); }
  }

  lemma {:induction false} ClaimsAppend(s: State, due: seq<string>, lease: Lease, now: int)
    ensures s.runs <= ClaimAll(s, due, lease, now).runs
  {
    if due != [] { ClaimsAppend(s, due[..|due| - 1], lease, now); }
  }

  /** A run that its owner renews stays active under the new lease as long as no sweep reaches past it. */
  lemma {:induction false} RenewedRunIsKept(s: State, run: nat, lease: Lease, at: int, events: seq<Event>)
    requires run < |s.runs| && Active(s.runs[run]) && s.runs[run].leaseOwner == Some(lease.owner)
    requires forall i :: 0 <= i < |events| ==> KeepsLease(events[i].op, run, at + lease.seconds)
    ensures Leased(Run(Step(s, Renew(run, lease), at), events), run, at + lease.seconds)
  {
    var s' := Step(s, Renew(run, lease), at);
    if events != [] {
      var init, last := events[..|events| - 1], events[|events| - 1];
      assert forall i :: 0 <= i < |init| ==> init[i] == events[i];
      RenewedRunIsKept(s, run, lease, at, init);
      StepKeepsLease(Run(s', init), last.op, last.now, run, at + lease.seconds);
    }
  }

  /** Nobody but its owner extends a run's lease, and a sweep interrupts exactly the active runs whose lease ended
      before the cutoff. */
  lemma SweepInterruptsExactly(s: State, run: nat, renewal: Lease, at: int, cutoff: int, now: int)
    requires run < |s.runs|
    ensures s.runs[run].leaseOwner != Some(renewal.owner) ==> Step(s, Renew(run, renewal), at) == s
    ensures var r, r' := s.runs[run], Step(s, InterruptStale(cutoff), now).runs[run];
            var running := r.status == Claimed || r.status == Running;
            && (r'.status == Interrupted <==> r.status == Interrupted || (running && !exists t :: t >= cutoff && r.leaseExpiresAt == Some(t)))
            && (r' != r ==> running && r' == r.(status := Interrupted, finishedAt := Some(now)))
  {
    assert Step(s, Renew(run, renewal), at).runs == s.runs || s.runs[run].leaseOwner == Some(renewal.owner);
  }

  /** A finished run shows its outcome and holds no lease. */
  lemma FinishShowsOutcome(s: State, run: nat, outcome: string, now: int)
    requires run < |s.runs|
    ensures var r, r' := s.runs[run], Step(s, Finish(run, outcome), now).runs[run];
            r' == RunRow(r.routine, r.revision, r.trigger, r.scheduledFor, Finished(outcome), r.leaseOwner, None, Some(now))
    ensures forall i :: 0 <= i < |s.runs| && i != run ==> Step(s, Finish(run, outcome), now).runs[i] == s.runs[i]
  {
  }

  /** A manual claim starts a run at once exactly if the routine is not archived, is authorized, and was not claimed by
      hand at this very time; it changes no routine. */
  lemma ManualClaimRuns(s: State, id: string, lease: Lease, now: int)
    ensures var s' := Step(s, ClaimManual(id, lease), now);
            var profile := (id, if id in s.routines then s.routines[id].revision else 0);
            if id in s.routines && !s.routines[id].archived && profile in s.profiles && !s.profiles[profile].revoked
               && (s.profiles[profile].expiresAt.None? || now < s.profiles[profile].expiresAt.value)
               && forall i :: 0 <= i < |s.runs| ==> !(s.runs[i].routine == id && s.runs[i].scheduledFor == now && s.runs[i].trigger == Manual)
            then s' == s.(runs := s.runs + [RunRow(id, s.routines[id].revision, Manual, now, Claimed, Some(lease.owner), Some(now + lease.seconds), None)])
            else s' == s
  {
  }
}
