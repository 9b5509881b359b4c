/**
 One-shot notification policies: revisions that only grow whatever the clock does, deliveries
 that stay suppressed once cancelled, and consumption that never clears a later policy.
 */
module PushPolicies {
  import opened Wrappers

  /** The largest integer a stored revision is read back as. */
  const MAX_SAFE := 9007199254740991

  /** No clock reads later than this, in milliseconds. */
  const MAX_TIME := 8640000000000000

  datatype OneShotMode = NotifyOnce | NotifyCompletionOnce

  datatype Mode = Notify | Mute | OneShotMode(once: OneShotMode)

  datatype Policy = Policy(mode: Mode, revision: int)

  /** The one-shot a delivery was authorized by; the revision is absent for old callers. */
  datatype OneShot = OneShot(session: string, mode: OneShotMode, revision: Option<int>)

  datatype DeliveryStatus = Pending | Suppressed | Queued | Sent | Failed | Gone | Expired

  datatype Reason = NoReason | OneShotCancelled | ConsumedByOther | Other(text: string)

  datatype Delivery = Delivery(oneShot: Option<OneShot>, status: DeliveryStatus, reason: Reason, nextAttemptAt: Option<int>)

  datatype Key = Key(event: string, device: string)

  /** An accepted one-shot whose policy still has to be cleared. */
  datatype Marker = Marker(event: string, session: string, mode: OneShotMode, revision: int)

  datatype State = State(counter: int, policies: map<string, Policy>, deliveries: map<Key, Delivery>, markers: set<Marker>)

  // ----- revisions ------------------------------------------------------------------------

  predicate IsSafe(n: int) {
    -MAX_SAFE <= n <= MAX_SAFE
  }

  function Max(a: int, b: int): int {
    if a >= b then a else b
  }

  /** The next revision from the stored one and the clock. */
  function NextRevision(previous: int, now: int): int {
    Max(now, if IsSafe(previous) then previous + 1 else 1)
  }

  /** A revision is larger than the one before exactly if that one is still a safe integer or the
      clock has passed it. */
  lemma RevisionGrowsExactly(previous: int, now: int)
    requires previous >= 0
    ensures NextRevision(previous, now) > previous <==> previous <= MAX_SAFE || now > previous
  {
  }

  /** A stored revision beyond the safe integers is forgotten: with the clock behind it the next one is smaller. */
  lemma UnsafeRevisionIsForgotten()
    ensures NextRevision(MAX_SAFE + 1, MAX_TIME) == MAX_TIME < MAX_SAFE + 1
  {
  }

  // ----- authorization ----------------------------------------------------------------------

  function RevisionOf(o: OneShot): int {
    if o.revision.Some? then o.revision.value else 0
  }

  const MAX_SESSION_CHARS := 256

  /** A snapshot cuts the session id and keeps only a positive safe revision. */
  function Retain(o: OneShot): OneShot {
    OneShot(if |o.session| > MAX_SESSION_CHARS then o.session[..MAX_SESSION_CHARS] else o.session, o.mode,
            if o.revision.Some? && IsSafe(o.revision.value) && o.revision.value > 0 then o.revision else None)
  }

  /** What a receipt may name; anything else throws. */
  predicate Acceptable(o: OneShot) {
    && 1 <= |o.session| <= MAX_SESSION_CHARS
    && (o.revision.Some? ==> IsSafe(o.revision.value) && o.revision.value > 0)
  }

  predicate SameOneShot(a: OneShot, b: OneShot) {
    a.session == b.session && a.mode == b.mode && RevisionOf(a) == RevisionOf(b)
  }

  /** The session's policy still is the requested one-shot. */
  predicate LiveMatches(s: State, o: OneShot) {
    && o.session in s.policies && s.policies[o.session].mode == OneShotMode(o.mode)
    && (o.revision.None? || s.policies[o.session].revision == o.revision.value)
  }

  /** Neither the live policy nor the delivery's own snapshot authorizes the request any more. */
  predicate IsStale(s: State, k: Key, o: OneShot) {
    && !LiveMatches(s, o)
    && !(k in s.deliveries && s.deliveries[k].oneShot.Some? && SameOneShot(s.deliveries[k].oneShot.value, o))
  }

  predicate Closed(reason: Reason) {
    reason == OneShotCancelled || reason == ConsumedByOther
  }

  predicate StillOpen(d: Delivery) {
    d.status == Pending || d.status == Queued || (d.status == Failed && d.nextAttemptAt.Some?)
  }

  // ----- steps --------------------------------------------------------------------------------

  datatype Op =
    | SetPolicy(session: string, mode: Mode)
    | SetDefault(session: string)
    | InsertInitial(session: string, mode: Mode)
    | ClearOneShot(session: string, once: Option<OneShotMode>)
    | Decide(key: Key, oneShot: Option<OneShot>, status: DeliveryStatus, reason: Reason, nextAttemptAt: Option<int>)
    | Receipt(key: Key, status: DeliveryStatus, reason: Reason, nextAttemptAt: Option<int>, oneShot: Option<OneShot>)
    | Accept(key: Key)
    | Consume(session: string, clearing: OneShotMode, revision: Option<int>)
    | Cancel(session: string)
    | ExpireOpen(event: string)
    | DeleteEvents(events: set<string>)

  function SetSession(s: State, session: string, mode: Mode, now: int): State {
    var revision := NextRevision(s.counter, now);
    s.(counter := revision, policies := s.policies[session := Policy(mode, revision)])
  }

  function CancelDelivery(session: string, d: Delivery): Delivery {
    if StillOpen(d) && d.oneShot.Some? && d.oneShot.value.session == session
    then d.(status := Suppressed, reason := OneShotCancelled, nextAttemptAt := None)
    else d
  }

  function CancelAll(session: string, deliveries: map<Key, Delivery>): map<Key, Delivery> {
    map k | k in deliveries :: CancelDelivery(session, deliveries[k])
  }

  function Decided(s: State, op: Op): Delivery
    requires op.Decide?
  {
    var stale := op.oneShot.Some? && IsStale(s, op.key, op.oneShot.value);
    var status := if stale then Suppressed else op.status;
    var reason := if stale then OneShotCancelled else op.reason;
    var next := if stale then None else op.nextAttemptAt;
    var retained := if op.oneShot.Some? then Some(Retain(op.oneShot.value)) else None;
    if op.key !in s.deliveries then Delivery(retained, status, reason, next)
    else
      var d := s.deliveries[op.key];
      if Closed(d.reason) then d
      else Delivery(retained, if d.status == Sent then Sent else status, reason, next)
  }

  function Received(s: State, op: Op): State
    requires op.Receipt?
  {
    if op.oneShot.Some? && !Acceptable(op.oneShot.value) then s
    else if op.key !in s.deliveries || (op.status != Sent && Closed(s.deliveries[op.key].reason)) then s
    else
      var d := s.deliveries[op.key].(status := op.status, reason := op.reason, nextAttemptAt := op.nextAttemptAt);
      var markers :=
        if op.status == Sent && op.oneShot.Some?
        then s.markers + {Marker(op.key.event, op.oneShot.value.session, op.oneShot.value.mode, RevisionOf(op.oneShot.value))}
        else s.markers;
      s.(deliveries := s.deliveries[op.key := d], markers := markers)
  }

  /** A recorded provider acceptance found by recovery. */
  function Accepted(s: State, k: Key): State {
    if k !in s.deliveries then s
    else
      var d := s.deliveries[k];
      var markers :=
        if d.oneShot.Some?
        then s.markers + {Marker(k.event, d.oneShot.value.session, d.oneShot.value.mode, RevisionOf(d.oneShot.value))}
        else s.markers;
      s.(deliveries := s.deliveries[k := d.(status := Sent, reason := Other("accepted"), nextAttemptAt := None)], markers := markers)
  }

  function MarkerEvents(s: State, session: string, mode: OneShotMode, revision: int): set<string> {
    set m | m in s.markers && m.session == session && m.mode == mode && m.revision == revision :: m.event
  }

  function CloseOthers(events: set<string>, o: OneShot, k: Key, d: Delivery): Delivery {
    if events != {} && k.event !in events && StillOpen(d) && d.oneShot.Some? && SameOneShot(d.oneShot.value, o)
    then d.(status := Suppressed, reason := ConsumedByOther, nextAttemptAt := None)
    else d
  }

  /** A zero or absent revision clears whatever one-shot of the mode is set. */
  predicate Clears(p: Policy, mode: OneShotMode, revision: Option<int>) {
    p.mode == OneShotMode(mode) && (revision.Some? && revision.value != 0 ==> p.revision == revision.value)
  }

  function Consumed(s: State, op: Op): State
    requires op.Consume?
  {
    var o := OneShot(op.session, op.clearing, op.revision);
    var events := MarkerEvents(s, op.session, op.clearing, RevisionOf(o));
    s.(deliveries := map k | k in s.deliveries :: CloseOthers(events, o, k, s.deliveries[k]),
       policies := if op.session in s.policies && Clears(s.policies[op.session], op.clearing, op.revision) then s.policies - {op.session} else s.policies,
       markers := set m | m in s.markers
                          && !(m.session == op.session && m.mode == op.clearing
                               && (op.revision.Some? && op.revision.value != 0 ==> m.revision == op.revision.value)))
  }

  function ExpireDelivery(event: string, k: Key, d: Delivery): Delivery {
    if k.event == event && (d.status == Pending || d.status == Queued || d.status == Failed)
    then d.(status := Expired, reason := Other("expired"), nextAttemptAt := None)
    else d
  }

  function Step(s: State, op: Op, now: int): State {
    match op
    case SetPolicy(session, mode) => SetSession(s, session, mode, now)
    case SetDefault(session) => s.(policies := s.policies - {session}, deliveries := CancelAll(session, s.deliveries))
    case InsertInitial(session, mode) => if session in s.policies then s else SetSession(s, session, mode, now)
    case ClearOneShot(session, once) =>
      if session in s.policies && s.policies[session].mode.OneShotMode? && (once.Some? ==> s.policies[session].mode.once == once.value)
      then s.(policies := s.policies - {session}) else s
    case Decide(key, _, _, _, _) => s.(deliveries := s.deliveries[key := Decided(s, op)])
    case Receipt(_, _, _, _, _) => Received(s, op)
    case Accept(key) => Accepted(s, key)
    case Consume(_, _, _) => Consumed(s, op)
    case Cancel(session) => s.(deliveries := CancelAll(session, s.deliveries))
    case ExpireOpen(event) => s.(deliveries := map k | k in s.deliveries :: ExpireDelivery(event, k, s.deliveries[k]))
    case DeleteEvents(events) => s.(deliveries := map k | k in s.deliveries && k.event !in events :: s.deliveries[k],
                                    markers := set m | m in s.markers && m.event !in events)
  }

  datatype Event = Event(op: Op, now: int)

  function Run(s: State, events: seq<Event>): State {
    if events == [] then s
    else Step(Run(s, events[..|events| - 1]), events[|events| - 1].op, events[|events| - 1].now)
  }

  // ----- revisions over runs -----------------------------------------------------------------------

  /** Clocks may stand still or go back, but read no later than a date can. */
  ghost predicate ClocksRead(events: seq<Event>) {
    forall i :: 0 <= i < |events| ==> events[i].now <= MAX_TIME
  }

  /** Policies carry revisions that were given out. */
  ghost predicate RevisionsGiven(s: State) {
    0 <= s.counter && forall x :: x in s.policies ==> s.policies[x].revision <= s.counter
  }

  /** Fewer steps than would bring a revision out of the safe range. */
  predicate FewEnough(events: seq<Event>) {
    |events| <= MAX_SAFE - MAX_TIME
  }

  lemma {:induction false} CounterIsBounded(s: State, events: seq<Event>)
    requires 0 <= s.counter <= MAX_TIME && ClocksRead(events) && FewEnough(events)
    ensures s.counter <= Run(s, events).counter <= MAX_TIME + |events|
  {
    if events != [] {
      var init := events[..|events| - 1];
      assert forall i :: 0 <= i < |init| ==> init[i] == events[i];
      CounterIsBounded(s, init);
    }
  }

  /** Over a run a session keeps its policy, loses it, or has one of a strictly later revision. */
  ghost predicate KeptOrLater(s: State, s': State, session: string) {
    session in s'.policies ==>
      (session in s.policies && s'.policies[session] == s.policies[session]) || s'.policies[session].revision > s.counter
  }

  /** A step keeps a policy, drops it, or gives it a revision that was not given before. */
  lemma PoliciesAfterStep(s: State, op: Op, now: int)
    requires 0 <= s.counter <= MAX_SAFE
    ensures var s' := Step(s, op, now);
            && s'.counter >= s.counter
            && forall x :: x in s'.policies ==>
                 (x in s.policies && s'.policies[x] == s.policies[x]) || s'.policies[x].revision == s'.counter > s.counter
  {
  }

  lemma {:induction false} PoliciesKeptOrLater(s: State, events: seq<Event>, session: string)
    requires RevisionsGiven(s) && s.counter <= MAX_TIME && ClocksRead(events) && FewEnough(events)
    ensures RevisionsGiven(Run(s, events)) && KeptOrLater(s, Run(s, events), session)
  {
    if events != [] {
      var init, last := events[..|events| - 1], events[|events| - 1];
      assert forall i :: 0 <= i < |init| ==> init[i] == events[i];
      PoliciesKeptOrLater(s, init, session);
      CounterIsBounded(s, init);
      PoliciesAfterStep(Run(s, init), last.op, last.now);
    }
  }

  /** A policy set after a revision was observed outlives the consumption of that revision. */
  lemma LaterPolicySurvives(s: State, observed: int, events: seq<Event>, session: string, mode: OneShotMode, now: int)
    requires RevisionsGiven(s) && s.counter <= MAX_TIME && ClocksRead(events) && FewEnough(events)
    requires 0 < observed <= s.counter && session in Run(s, events).policies
    ensures var t := Run(s, events); var t' := Step(t, Consume(session, mode, Some(observed)), now);
            (session !in s.policies || t.policies[session] != s.policies[session]) ==>
              session in t'.policies && t'.policies[session] == t.policies[session]
  {
    PoliciesKeptOrLater(s, events, session);
  }

  /** Two revisions given out in one run differ: the later one is larger. */
  lemma RevisionsStrictlyIncrease(s: State, events: seq<Event>, session: string, mode: Mode, now: int)
    requires RevisionsGiven(s) && s.counter <= MAX_TIME && ClocksRead(events) && FewEnough(events)
    ensures var t := Run(s, events); var t' := Step(t, SetPolicy(session, mode), now);
            && t'.counter > t.counter >= s.counter
            && t'.policies == t.policies[session := Policy(mode, t'.counter)]
            && forall x :: x in t.policies ==> t.policies[x].revision < t'.policies[session].revision
  {
    CounterIsBounded(s, events);
    PoliciesKeptOrLater(s, events, session);
  }

  // ----- cancelled deliveries --------------------------------------------------------------------------

  /** A provider acceptance for the delivery, or the removal of its event. */
  predicate Reopens(op: Op, k: Key) {
    match op
    case Receipt(key, status, _, _, _) => key == k && status == Sent
    case Accept(key) => key == k
    case DeleteEvents(events) => k.event in events
    case _ => false
  }

  predicate ClosedFor(s: State, k: Key) {
    k in s.deliveries && s.deliveries[k].status == Suppressed && Closed(s.deliveries[k].reason)
  }

  lemma StepKeepsClosed(s: State, op: Op, now: int, k: Key)
    requires ClosedFor(s, k) && !Reopens(op, k)
    ensures k in Step(s, op, now).deliveries && Step(s, op, now).deliveries[k] == s.deliveries[k]
  {
  }

  /** A delivery closed by its one-shot stays suppressed until a provider acceptance is recorded. */
  lemma {:induction false} ClosedStaysSuppressed(s: State, events: seq<Event>, k: Key)
    requires ClosedFor(s, k) && forall i :: 0 <= i < |events| ==> !Reopens(events[i].op, k)
    ensures k in Run(s, events).deliveries && Run(s, events).deliveries[k] == s.deliveries[k]
  {
    if events != [] {
      var init, last := events[..|events| - 1], events[|events| - 1];
      assert forall i :: 0 <= i < |init| ==> init[i] == events[i];
      ClosedStaysSuppressed(s, init, k);
      StepKeepsClosed(Run(s, init), last.op, last.now, k);
    }
  }

  /** Leaving a one-shot closes every delivery it still authorizes, for the rest of the run. */
  lemma LeavingClosesForGood(s: State, session: string, at: int, events: seq<Event>, k: Key)
    requires k in s.deliveries && StillOpen(s.deliveries[k])
    requires s.deliveries[k].oneShot.Some? && s.deliveries[k].oneShot.value.session == session
    requires forall i :: 0 <= i < |events| ==> !Reopens(events[i].op, k)
    ensures var t := Run(Step(s, SetDefault(session), at), events);
            && k in t.deliveries && t.deliveries[k].status == Suppressed && t.deliveries[k].reason == OneShotCancelled
            && t.deliveries[k].nextAttemptAt.None?
    ensures Step(s, SetDefault(session), at).policies == s.policies - {session}
  {
    ClosedStaysSuppressed(Step(s, SetDefault(session), at), events, k);
  }

  /** Consuming an accepted one-shot closes the deliveries of all other events it authorized. */
  lemma ConsumingClosesOthers(s: State, op: Op, now: int, m: Marker, k: Key, events: seq<Event>)
    requires op.Consume? && m in s.markers && m.session == op.session && m.mode == op.clearing
    requires m.revision == RevisionOf(OneShot(op.session, op.clearing, op.revision))
    requires k in s.deliveries && StillOpen(s.deliveries[k]) && s.deliveries[k].oneShot.Some?
    requires SameOneShot(s.deliveries[k].oneShot.value, OneShot(op.session, op.clearing, op.revision))
    requires k.event !in MarkerEvents(s, op.session, op.clearing, m.revision)
    requires forall i :: 0 <= i < |events| ==> !Reopens(events[i].op, k)
    ensures ClosedFor(Run(Step(s, op, now), events), k)
  {
    assert m.event in MarkerEvents(s, op.session, op.clearing, m.revision);
    ClosedStaysSuppressed(Step(s, op, now), events, k);
  }

  /** A delivery that was closed stays as it is; otherwise a one-shot decision is taken as asked exactly if it was
      not sent before and the live policy or the delivery's own snapshot still authorizes it. Without authorization
      it is closed, but a sent delivery stays sent. */
  lemma DecisionIsAuthorizedExactly(s: State, k: Key, o: OneShot, reason: Reason, next: Option<int>, now: int)
    ensures var before := if k in s.deliveries then Some(s.deliveries[k]) else None;
            var after := Step(s, Decide(k, Some(o), Pending, reason, next), now).deliveries[k];
            if before.Some? && Closed(before.value.reason) then after == before.value
            else after == Delivery(Some(Retain(o)), Pending, reason, next) <==>
                   && (before.Some? ==> before.value.status != Sent)
                   && (LiveMatches(s, o)
                       || (before.Some? && before.value.oneShot.Some? && SameOneShot(before.value.oneShot.value, o)))
    ensures var before := if k in s.deliveries then Some(s.deliveries[k]) else None;
            var status := if before.Some? && before.value.status == Sent then Sent else Suppressed;
            (before.Some? ==> !Closed(before.value.reason)) && IsStale(s, k, o) ==>
              Step(s, Decide(k, Some(o), Pending, reason, next), now).deliveries[k] == Delivery(Some(Retain(o)), status, OneShotCancelled, None)
  {
  }

  // ----- a one-shot is spent once -----------------------------------------------------------------------

  /** Nothing authorizes a request for this one-shot of the session any more. */
  predicate Spent(s: State, session: string, mode: OneShotMode, revision: int) {
    session in s.policies ==> s.policies[session].mode != OneShotMode(mode) || s.policies[session].revision != revision
  }

  /** Consuming clears exactly the policy and the markers of the given one-shot, a zero or absent revision those of
      every revision, and touches no other session's policy. */
  lemma ConsumingClearsExactly(s: State, session: string, mode: OneShotMode, revision: Option<int>, now: int)
    ensures var t := Step(s, Consume(session, mode, revision), now); var any := revision == None || revision == Some(0);
            && t.counter == s.counter
            && (forall x :: x in t.policies <==>
                  x in s.policies && !(x == session && s.policies[x].mode == OneShotMode(mode) && (any || revision == Some(s.policies[x].revision))))
            && (forall x :: x in t.policies ==> t.policies[x] == s.policies[x])
            && (forall m :: m in t.markers <==>
                  m in s.markers && !(m.session == session && m.mode == mode && (any || revision == Some(m.revision))))
  {
  }

  /** Consuming touches a delivery exactly if it is open, was authorized by the same one-shot, and that one-shot was
      accepted for another event and not for its own; then only its status, reason and next attempt change. */
  lemma ConsumingClosesExactly(s: State, session: string, mode: OneShotMode, revision: Option<int>, now: int, k: Key)
    requires k in s.deliveries
    ensures var t, d := Step(s, Consume(session, mode, revision), now), s.deliveries[k];
            var asked := if revision.Some? then revision.value else 0;
            var matching := d.oneShot.Some? && d.oneShot.value.session == session && d.oneShot.value.mode == mode
                            && (if d.oneShot.value.revision.Some? then d.oneShot.value.revision.value else 0) == asked;
            var open := d.status in {Pending, Queued} || (d.status == Failed && d.nextAttemptAt != None);
            && k in t.deliveries
            && t.deliveries[k] ==
                 if open && matching && (exists e :: Marker(e, session, mode, asked) in s.markers) && Marker(k.event, session, mode, asked) !in s.markers
                 then Delivery(d.oneShot, Suppressed, ConsumedByOther, None) else d
  {
    var asked := if revision.Some? then revision.value else 0;
    var events := MarkerEvents(s, session, mode, asked);
    assert forall e :: e in events <==> Marker(e, session, mode, asked) in s.markers;
  }

  lemma ConsumedIsSpent(s: State, session: string, mode: OneShotMode, revision: int, now: int)
    ensures Spent(Step(s, Consume(session, mode, Some(revision)), now), session, mode, revision)
  {
  }

  /** A consumed one-shot never comes back: for the rest of the run a new delivery that asks for it is suppressed. */
  lemma ConsumedNeverReturns(s: State, session: string, mode: OneShotMode, revision: int, at: int, events: seq<Event>,
                             k: Key, status: DeliveryStatus, reason: Reason, next: Option<int>, now: int)
    requires RevisionsGiven(s) && s.counter <= MAX_TIME && ClocksRead(events) && FewEnough(events) && 0 < revision <= s.counter
    ensures var u := Run(Step(s, Consume(session, mode, Some(revision)), at), events);
            var asked := OneShot(session, mode, Some(revision));
            Spent(u, session, mode, revision)
            && (k !in u.deliveries ==>
                  var d := Step(u, Decide(k, Some(asked), status, reason, next), now).deliveries[k];
                  d.status == Suppressed && d.reason == OneShotCancelled && d.nextAttemptAt == None)
  {
    var t := Step(s, Consume(session, mode, Some(revision)), at);
    ConsumedIsSpent(s, session, mode, revision, at);
    PoliciesKeptOrLater(t, events, session);
  }

  // ----- receipts ---------------------------------------------------------------------------------------

  /** A receipt counts exactly if its delivery exists, names no malformed one-shot, and reports a sending or finds the
      delivery not closed; then the delivery shows it, and a sending leaves one marker for the one-shot it names. */
  lemma ReceiptIsRecordedExactly(s: State, k: Key, status: DeliveryStatus, reason: Reason, next: Option<int>, o: Option<OneShot>, now: int)
    ensures var t := Step(s, Receipt(k, status, reason, next, o), now);
            var wellFormed := o.None? || (0 < |o.value.session| <= 256 && forall r :: o.value.revision == Some(r) ==> 0 < r <= MAX_SAFE);
            if k in s.deliveries && wellFormed && (status == Sent || s.deliveries[k].reason !in {OneShotCancelled, ConsumedByOther}) then
              && t.policies == s.policies && t.counter == s.counter
              && t.deliveries == s.deliveries[k := Delivery(s.deliveries[k].oneShot, status, reason, next)]
              && (forall m :: m in t.markers <==>
                    m in s.markers
                    || (status == Sent && o.Some? && m.event == k.event && m.session == o.value.session && m.mode == o.value.mode
                        && m.revision == if o.value.revision.Some? then o.value.revision.value else 0))
            else t == s
  {
  }

  /** Cancelling a session's deliveries closes exactly its open ones. */
  lemma CancellingClosesExactly(s: State, session: string, now: int, k: Key)
    requires k in s.deliveries
    ensures var t, d := Step(s, Cancel(session), now), s.deliveries[k];
            var open := d.status in {Pending, Queued} || (d.status == Failed && d.nextAttemptAt != None);
            && t.policies == s.policies && t.markers == s.markers && t.deliveries.Keys == s.deliveries.Keys
            && t.deliveries[k] == if open && d.oneShot.Some? && d.oneShot.value.session == session
                                  then Delivery(d.oneShot, Suppressed, OneShotCancelled, None) else d
  {
  }

  /** A recovered acceptance marks its delivery sent and leaves the marker of the one-shot that authorized it. */
  lemma AcceptanceIsRecorded(s: State, k: Key, now: int)
    ensures var t := Step(s, Accept(k), now);
            if k !in s.deliveries then t == s
            else
              && t.policies == s.policies && t.counter == s.counter
              && t.deliveries == s.deliveries[k := Delivery(s.deliveries[k].oneShot, Sent, Other("accepted"), None)]
              && (forall m :: m in t.markers <==>
                    m in s.markers
                    || (s.deliveries[k].oneShot.Some? && m.event == k.event && m.session == s.deliveries[k].oneShot.value.session
                        && m.mode == s.deliveries[k].oneShot.value.mode && m.revision == s.deliveries[k].oneShot.value.revision.GetOr(0)))
  {
  }

  /** Clearing a one-shot leaves every other policy, an initial policy never replaces one, and expiry closes exactly the
      unsent deliveries of its event. */
  lemma PoliciesChangeOnlyAsAsked(s: State, session: string, once: Option<OneShotMode>, mode: Mode, event: string, now: int, k: Key)
    ensures var t := Step(s, ClearOneShot(session, once), now);
            t == s.(policies := t.policies) && forall x :: x in t.policies <==>
              x in s.policies && !(x == session && s.policies[x].mode.OneShotMode? && once in {None, Some(s.policies[x].mode.once)})
    ensures var t := Step(s, InsertInitial(session, mode), now);
            if session in s.policies then t == s else t == Step(s, SetPolicy(session, mode), now)
    ensures k in s.deliveries ==>
      var d, d' := s.deliveries[k], Step(s, ExpireOpen(event), now).deliveries[k];
      d' == if k.event == event && d.status in {Pending, Queued, Failed} then Delivery(d.oneShot, Expired, Other("expired"), None) else d
  {
  }
}
