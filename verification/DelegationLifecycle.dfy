/**
 The life of a delegation over all runs: final statuses are never left, attempts are bounded,
 usage never falls, and rolling a resume back restores the row.
 */
module DelegationLifecycle {
  import opened Wrappers
  import opened Delegations

  datatype Event = Event(op: Op, now: int)

  function Run(s: State, events: seq<Event>): State {
    if events == [] then s
    else
      var last := events[|events| - 1];
      Step(Run(s, events[..|events| - 1]), last.op, last.now)
  }

  /** Never resumed again; an interrupted delegation is over but not final. */
  predicate IsFinal(status: Status) {
    IsOver(status) && status != Interrupted
  }

  ghost predicate AllWellFormed(events: seq<Event>) {
    forall i :: 0 <= i < |events| ==> WellFormed(events[i].op)
  }

  ghost predicate AllChecked(s: State) {
    forall id :: id in s.rows ==> Checked(s.rows[id])
  }

  ghost predicate AllClean(s: State) {
    forall id :: id in s.rows ==> Clean(s.rows[id])
  }

  // ----- one step -----------------------------------------------------------------------------

  /** How a row may change: usage grows, and a final row keeps its outcome. */
  predicate Follows(r: Row, r': Row) {
    && r'.target == r.target && r'.startedAt == r.startedAt
    && r'.tokensUsed >= r.tokensUsed && r'.costUsed >= r.costUsed
    && (IsFinal(r.status) ==>
          && r'.status == r.status && r'.endedAt == r.endedAt && r'.error == r.error
          && r'.attempts == r.attempts && r'.handoff == r.handoff && r'.permissionMode == r.permissionMode
          && (r.resultText.Some? ==> r'.resultText == r.resultText))
  }

  lemma StepRowFollows(s: State, r: Row, op: Op, now: int)
    ensures Follows(r, StepRow(s, r, op, now))
  {
  }

  predicate Deletes(op: Op, id: string) {
    op.DeleteRows? && id in op.ids
  }

  lemma StepFollows(s: State, op: Op, now: int, id: string)
    requires id in s.rows && !Deletes(op, id)
    ensures id in Step(s, op, now).rows && Follows(s.rows[id], Step(s, op, now).rows[id])
  {
    StepRowFollows(s, s.rows[id], op, now);
  }

  lemma StepKeepsChecked(s: State, op: Op, now: int)
    requires AllChecked(s)
    ensures AllChecked(Step(s, op, now))
  {
  }

  lemma BoundedIsClean(text: Option<string>, max: nat)
    requires max > 0
    ensures CleanText(Bounded(text, max), max)
    ensures Bounded(text, max) == text <==> CleanText(text, max)
  {
    if text.Some? && |text.value| > max { assert |Bounded(text, max).value| == max; }
  }

  lemma ConstantsAreClean()
    ensures CleanText(Some(REMOVED), MAX_ERROR_CHARS) && CleanText(Some(RESTARTED), MAX_ERROR_CHARS)
  {
    assert |REMOVED| > 0 && |RESTARTED| > 0;
  }

  lemma StepRowKeepsClean(s: State, r: Row, op: Op, now: int)
    requires Clean(r) && WellFormed(op)
    ensures Clean(StepRow(s, r, op, now))
  {
    ConstantsAreClean();
    match op
    case UpdateProgress(_, text) => BoundedIsClean(text, MAX_PROGRESS_CHARS);
    case Finish(_, _, result, error) =>
      BoundedIsClean(result, MAX_RESULT_CHARS);
      BoundedIsClean(error, MAX_ERROR_CHARS);
    case Abandon(_, text) => BoundedIsClean(Some(text), MAX_ERROR_CHARS);
    case PartialResult(_, result) => BoundedIsClean(result, MAX_RESULT_CHARS);
    case _ =>
  }

  lemma StepKeepsClean(s: State, op: Op, now: int)
    requires AllClean(s) && WellFormed(op)
    ensures AllClean(Step(s, op, now))
  {
    forall id | id in Step(s, op, now).rows ensures Clean(Step(s, op, now).rows[id]) {
      if id in s.rows { StepRowKeepsClean(s, s.rows[id], op, now); }
    }
  }

  // ----- runs ------------------------------------------------------------------------------------

  lemma FollowsIsTransitive(a: Row, b: Row, c: Row)
    requires Follows(a, b) && Follows(b, c)
    ensures Follows(a, c)
  {
  }

  /** Over any run that does not delete it, a final delegation keeps its outcome, and tokens and cost
      never fall. */
  lemma {:induction false} RunFollows(s: State, events: seq<Event>, id: string)
    requires id in s.rows && forall i :: 0 <= i < |events| ==> !Deletes(events[i].op, id)
    ensures id in Run(s, events).rows && Follows(s.rows[id], Run(s, events).rows[id])
  {
    if events != [] {
      var last := events[|events| - 1];
      var init := events[..|events| - 1];
      assert forall i :: 0 <= i < |init| ==> init[i] == events[i];
      RunFollows(s, init, id);
      StepFollows(Run(s, init), last.op, last.now, id);
      FollowsIsTransitive(s.rows[id], Run(s, init).rows[id], Run(s, events).rows[id]);
    }
  }

  /** Every attempt count stays between one and the maximum. */
  lemma {:induction false} AttemptsAreBounded(s: State, events: seq<Event>, id: string)
    requires AllChecked(s)
    ensures AllChecked(Run(s, events))
    ensures id in Run(s, events).rows ==> 1 <= Run(s, events).rows[id].attempts <= MAX_ATTEMPTS
  {
    if events != [] {
      var last := events[|events| - 1];
      AttemptsAreBounded(s, events[..|events| - 1], id);
      StepKeepsChecked(Run(s, events[..|events| - 1]), last.op, last.now);
    }
  }

  lemma {:induction false} ReachableRowsAreClean(s: State, events: seq<Event>)
    requires AllClean(s) && AllWellFormed(events)
    ensures AllClean(Run(s, events))
  {
    if events != [] {
      var init, last := events[..|events| - 1], events[|events| - 1];
      assert forall i :: 0 <= i < |init| ==> init[i] == events[i];
      ReachableRowsAreClean(s, init);
      StepKeepsClean(Run(s, init), last.op, last.now);
    }
  }

  // ----- resume and rollback ------------------------------------------------------------------------

  /** Steps that leave the resumed attempt waiting. */
  predicate KeepsWaiting(op: Op, id: string) {
    match op
    case UpdateTokens(_, _) => true
    case UpdateCost(_, _) => true
    case UpdateProgress(_, _) => true
    case UpdateWorktree(_, _) => true
    case SetSessions(_) => true
    case Create(_, _, _, _, _, _) => true
    case InterruptActive => false
    case DeleteRows(ids) => id !in ids
    case _ => op.id != id
  }

  /** What is the same while an attempt waits. */
  predicate SameAttempt(r: Row, r': Row) {
    r' == r.(tokensUsed := r'.tokensUsed, costUsed := r'.costUsed, worktree := r'.worktree,
             progressText := r'.progressText, updatedAt := r'.updatedAt)
  }

  lemma {:induction false} WaitingAttemptKeeps(s: State, events: seq<Event>, id: string)
    requires id in s.rows && s.rows[id].status == Pending
    requires forall i :: 0 <= i < |events| ==> KeepsWaiting(events[i].op, id)
    ensures id in Run(s, events).rows && SameAttempt(s.rows[id], Run(s, events).rows[id])
  {
    if events != [] {
      var init, last := events[..|events| - 1], events[|events| - 1];
      assert forall i :: 0 <= i < |init| ==> init[i] == events[i];
      WaitingAttemptKeeps(s, init, id);
      assert KeepsWaiting(last.op, id);
    }
  }

  /** The row a rollback should restore, with what the attempt has used meanwhile. */
  function Restored(r: Row, current: Row, now: int): Row {
    r.(tokensUsed := current.tokensUsed, costUsed := current.costUsed, worktree := current.worktree, updatedAt := now)
  }

  lemma SnapshotIsFaithful(r: Row)
    ensures TakeSnapshot(r).resultText == r.resultText <==> CleanText(r.resultText, MAX_RESULT_CHARS)
    ensures TakeSnapshot(r).error == r.error <==> CleanText(r.error, MAX_ERROR_CHARS)
    ensures TakeSnapshot(r).progressText == r.progressText <==> CleanText(r.progressText, MAX_PROGRESS_CHARS)
    ensures Summary(TakeSnapshot(r).handoff) == r.handoff <==> r.handoff.Summary? && CleanHandoff(r.handoff.handoff)
  {
    BoundedIsClean(r.resultText, MAX_RESULT_CHARS);
    BoundedIsClean(r.error, MAX_ERROR_CHARS);
    BoundedIsClean(r.progressText, MAX_PROGRESS_CHARS);
  }

  /** Snapshots are what rollbacks are meant to be given. */
  lemma SnapshotsAreWellFormed(id: string, r: Row)
    ensures WellFormed(Rollback(id, TakeSnapshot(r)))
  {
    BoundedIsClean(r.resultText, MAX_RESULT_CHARS);
    BoundedIsClean(r.error, MAX_ERROR_CHARS);
    BoundedIsClean(r.progressText, MAX_PROGRESS_CHARS);
  }

  lemma RollbackRestores(r: Row, waiting: Row, now: int)
    requires Checked(r) && r.status == Interrupted
    requires waiting.status == Pending && waiting.attempts == r.attempts + 1 && waiting.target == r.target
    requires waiting.startedAt == r.startedAt && waiting.tokensUsed >= 0 && waiting.costUsed >= 0.0
    ensures Accept(waiting, RollbackRow(waiting, TakeSnapshot(r), now)) == Restored(r, waiting, now) <==> Clean(r)
  {
    SnapshotIsFaithful(r);
  }

  lemma ResumeWaits(s: State, op: Op, now: int)
    requires op.Resume? && op.id in s.rows && Checked(s.rows[op.id]) && Resumable(s, s.rows[op.id])
    ensures var r' := Step(s, op, now).rows[op.id];
            && r'.status == Pending && r'.attempts == s.rows[op.id].attempts + 1 && r'.target == s.rows[op.id].target
            && r'.startedAt == s.rows[op.id].startedAt
            && r'.tokensUsed == s.rows[op.id].tokensUsed && r'.costUsed == s.rows[op.id].costUsed
  {
  }

  lemma WaitingIsNotDeleted(events: seq<Event>, id: string)
    requires forall i :: 0 <= i < |events| ==> KeepsWaiting(events[i].op, id)
    ensures forall i :: 0 <= i < |events| ==> !Deletes(events[i].op, id)
  {
    forall i | 0 <= i < |events| ensures !Deletes(events[i].op, id) { assert KeepsWaiting(events[i].op, id); }
  }

  lemma WaitingStaysRestorable(s: State, resumed: State, meanwhile: seq<Event>, waiting: State, id: string)
    requires id in s.rows && id in resumed.rows && resumed.rows[id].status == Pending
    requires resumed.rows[id].attempts == s.rows[id].attempts + 1 && resumed.rows[id].target == s.rows[id].target
    requires resumed.rows[id].startedAt == s.rows[id].startedAt
    requires resumed.rows[id].tokensUsed >= 0 && resumed.rows[id].costUsed >= 0.0
    requires waiting == Run(resumed, meanwhile)
    requires forall i :: 0 <= i < |meanwhile| ==> KeepsWaiting(meanwhile[i].op, id)
    ensures id in waiting.rows && waiting.rows[id].status == Pending && waiting.rows[id].attempts == s.rows[id].attempts + 1
    ensures waiting.rows[id].target == s.rows[id].target && waiting.rows[id].startedAt == s.rows[id].startedAt
    ensures waiting.rows[id].tokensUsed >= 0 && waiting.rows[id].costUsed >= 0.0
  {
    WaitingAttemptKeeps(resumed, meanwhile, id);
    WaitingIsNotDeleted(meanwhile, id);
    RunFollows(resumed, meanwhile, id);
  }

  lemma RollbackStep(s: State, id: string, p: Snapshot, now: int)
    requires id in s.rows
    ensures Step(s, Rollback(id, p), now).rows == s.rows[id := Accept(s.rows[id], RollbackRow(s.rows[id], p, now))]
  {
  }

  lemma ResumeStaysRestorable(s: State, resume: Op, at: int, resumed: State, meanwhile: seq<Event>, waiting: State)
    requires AllChecked(s) && resume.Resume? && resume.id in s.rows && Resumable(s, s.rows[resume.id])
    requires forall i :: 0 <= i < |meanwhile| ==> KeepsWaiting(meanwhile[i].op, resume.id)
    requires resumed == Step(s, resume, at) && waiting == Run(resumed, meanwhile)
    ensures var id := resume.id;
            && id in waiting.rows && waiting.rows[id].status == Pending && waiting.rows[id].attempts == s.rows[id].attempts + 1
            && waiting.rows[id].target == s.rows[id].target && waiting.rows[id].startedAt == s.rows[id].startedAt
            && waiting.rows[id].tokensUsed >= 0 && waiting.rows[id].costUsed >= 0.0
  {
    ResumeWaits(s, resume, at);
    assert resume.id in resumed.rows;
    WaitingStaysRestorable(s, resumed, meanwhile, waiting, resume.id);
  }

  /** Resuming a delegation and rolling the resume back before the child launches, whatever else
      happens meanwhile, restores its row up to usage, worktree and update time; exactly for the rows
      that their snapshot shows unabridged. */
  lemma RollbackUndoesResume(s: State, resume: Op, at: int, resumed: State, meanwhile: seq<Event>, waiting: State, now: int, after: State)
    requires AllChecked(s) && resume.Resume? && resume.id in s.rows && Resumable(s, s.rows[resume.id])
    requires forall i :: 0 <= i < |meanwhile| ==> KeepsWaiting(meanwhile[i].op, resume.id)
    requires resumed == Step(s, resume, at) && waiting == Run(resumed, meanwhile)
    requires after == Step(waiting, Rollback(resume.id, TakeSnapshot(s.rows[resume.id])), now)
    ensures resume.id in waiting.rows && resume.id in after.rows
    ensures after.rows[resume.id] == Restored(s.rows[resume.id], waiting.rows[resume.id], now) <==> Clean(s.rows[resume.id])
  {
    ResumeStaysRestorable(s, resume, at, resumed, meanwhile, waiting);
    RollbackStep(waiting, resume.id, TakeSnapshot(s.rows[resume.id]), now);
    RollbackRestores(s.rows[resume.id], waiting.rows[resume.id], now);
  }

  /** A stored result that is empty is not restored: the snapshot turns it into none. */
  lemma EmptyResultIsNotRestored(s: State, resume: Op, at: int, now: int)
    requires AllChecked(s) && resume.Resume? && resume.id in s.rows && Resumable(s, s.rows[resume.id])
    requires s.rows[resume.id].resultText == Some("")
    ensures var after := Step(Step(s, resume, at), Rollback(resume.id, TakeSnapshot(s.rows[resume.id])), now);
            resume.id in after.rows && after.rows[resume.id].resultText == None
  {
    var waiting := Step(s, resume, at);
    ResumeStaysRestorable(s, resume, at, waiting, [], waiting);
    RollbackStep(waiting, resume.id, TakeSnapshot(s.rows[resume.id]), now);
  }

  /** From a clean database every reachable delegation is restored exactly, and with nothing
      happening meanwhile only its update time differs. */
  lemma ReachableRollbackIsExact(start: State, events: seq<Event>, resume: Op, at: int, now: int)
    requires AllChecked(start) && AllClean(start) && AllWellFormed(events)
    requires var s := Run(start, events); resume.Resume? && resume.id in s.rows && Resumable(s, s.rows[resume.id])
    ensures var s := Run(start, events);
            var after := Step(Step(s, resume, at), Rollback(resume.id, TakeSnapshot(s.rows[resume.id])), now);
            after.rows == s.rows[resume.id := s.rows[resume.id].(updatedAt := now)]
  {
    var s, id := Run(start, events), resume.id;
    AttemptsAreBounded(start, events, id);
    ReachableRowsAreClean(start, events);
    var waiting := Step(s, resume, at);
    assert Run(waiting, []) == waiting;
    var after := Step(waiting, Rollback(id, TakeSnapshot(s.rows[id])), now);
    RollbackUndoesResume(s, resume, at, waiting, [], waiting, now, after);
    RollbackStep(waiting, id, TakeSnapshot(s.rows[id]), now);
    ResumeOnlyTouches(s, resume, at);
  }

  lemma ResumeOnlyTouches(s: State, op: Op, now: int)
    requires op.Resume? && op.id in s.rows
    ensures var s' := Step(s, op, now);
            && s'.rows.Keys == s.rows.Keys && s'.rows - {op.id} == s.rows - {op.id}
            && s'.rows[op.id].worktree == s.rows[op.id].worktree
            && s'.rows[op.id].tokensUsed == s.rows[op.id].tokensUsed && s'.rows[op.id].costUsed == s.rows[op.id].costUsed
  {
  }

  // ----- what the parent reads ----------------------------------------------------------------------

  /** What is kept of a text: nothing of an empty one, a short one whole, and a long one up to an ellipsis. */
  ghost predicate IsKept(kept: Option<string>, text: Option<string>, max: nat)
    requires max > 0
  {
    match text
    case None => kept.None?
    case Some(t) =>
      if t == "" then kept.None?
      else kept.Some? && if |t| <= max then kept.value == t
                         else |kept.value| == max && kept.value[..max - 1] == t[..max - 1] && kept.value[max - 1] == '\U{2026}'
  }

  lemma BoundedIsKept(text: Option<string>, max: nat)
    requires max > 0
    ensures IsKept(Bounded(text, max), text, max)
  {
    if text.Some? && |text.value| > max {
      assert (text.value[..max - 1] + "\U{2026}")[..max - 1] == text.value[..max - 1];
    }
  }

  predicate Unfinished(r: Row) {
    r.status == Pending || r.status == Running
  }

  /** Finishing an unfinished delegation keeps its result and its error, each in its own column, and ends it. */
  lemma FinishKeepsOutcome(s: State, id: string, status: Status, result: Option<string>, error: Option<string>, now: int)
    requires id in s.rows && Checked(s.rows[id])
    ensures var r, r' := s.rows[id], Step(s, Finish(id, status, result, error), now).rows[id];
            if !Unfinished(r) then r' == r
            else
              && IsKept(r'.resultText, result, 12000) && IsKept(r'.error, error, 2000)
              && r' == r.(status := status, endedAt := Some(now), updatedAt := now, progressText := None,
                          resultText := r'.resultText, error := r'.error, worktree := if r.worktree == Active then Retained else r.worktree)
  {
    BoundedIsKept(result, MAX_RESULT_CHARS);
    BoundedIsKept(error, MAX_ERROR_CHARS);
  }

  /** The reported outcome is what any later run still shows, unless the row is deleted. */
  lemma OutcomeStays(s: State, id: string, status: Status, result: Option<string>, error: Option<string>, at: int, events: seq<Event>)
    requires id in s.rows && Checked(s.rows[id]) && Unfinished(s.rows[id]) && IsFinal(status)
    requires result.Some? && 0 < |result.value| <= 12000 && forall i :: 0 <= i < |events| ==> !Deletes(events[i].op, id)
    ensures var t := Run(Step(s, Finish(id, status, result, error), at), events);
            && id in t.rows && t.rows[id].status == status && t.rows[id].endedAt == Some(at)
            && t.rows[id].resultText == result && IsKept(t.rows[id].error, error, 2000)
  {
    var s' := Step(s, Finish(id, status, result, error), at);
    FinishKeepsOutcome(s, id, status, result, error, at);
    RunFollows(s', events, id);
  }

  // ----- usage --------------------------------------------------------------------------------------

  predicate ReportsTokens(op: Op, id: string, n: int) {
    op.UpdateTokens? && op.id == id && op.tokens == n
  }

  /** The tokens of a delegation are the highest count ever reported for it. */
  lemma {:induction false} TokensAreHighest(s: State, events: seq<Event>, id: string)
    requires AllChecked(s) && id in s.rows && forall i :: 0 <= i < |events| ==> !Deletes(events[i].op, id)
    ensures id in Run(s, events).rows
    ensures var n := Run(s, events).rows[id].tokensUsed;
            && n >= s.rows[id].tokensUsed && (forall i :: 0 <= i < |events| && events[i].op.UpdateTokens? && events[i].op.id == id ==> n >= events[i].op.tokens)
            && (n == s.rows[id].tokensUsed || exists i :: 0 <= i < |events| && ReportsTokens(events[i].op, id, n))
  {
    RunFollows(s, events, id);
    if events != [] {
      var init, last := events[..|events| - 1], events[|events| - 1];
      assert forall i :: 0 <= i < |init| ==> init[i] == events[i];
      TokensAreHighest(s, init, id);
      AttemptsAreBounded(s, init, id);
      var n, n' := Run(s, init).rows[id].tokensUsed, Run(s, events).rows[id].tokensUsed;
      TokensStep(Run(s, init), last.op, last.now, id);
      if n' != n {
        assert ReportsTokens(events[|events| - 1].op, id, n');
      } else if n != s.rows[id].tokensUsed {
        var i :| 0 <= i < |init| && ReportsTokens(init[i].op, id, n);
        assert ReportsTokens(events[i].op, id, n);
      }
    }
  }

  lemma TokensStep(s: State, op: Op, now: int, id: string)
    requires AllChecked(s) && id in s.rows && !Deletes(op, id)
    ensures id in Step(s, op, now).rows
    ensures var n, n' := s.rows[id].tokensUsed, Step(s, op, now).rows[id].tokensUsed;
            if op.UpdateTokens? && op.id == id && op.tokens > n then n' == op.tokens else n' == n
  {
  }

  predicate ReportsCost(op: Op, id: string, c: real) {
    op.UpdateCost? && op.id == id && op.cost == Some(c)
  }

  lemma CostStep(s: State, op: Op, now: int, id: string)
    requires AllChecked(s) && id in s.rows && !Deletes(op, id)
    ensures id in Step(s, op, now).rows
    ensures var c, c' := s.rows[id].costUsed, Step(s, op, now).rows[id].costUsed;
            if op.UpdateCost? && op.id == id && op.cost.Some? && op.cost.value > c then c' == op.cost.value else c' == c
  {
  }

  /** The cost of a delegation is the highest ever reported for it. */
  lemma {:induction false} CostIsHighest(s: State, events: seq<Event>, id: string)
    requires AllChecked(s) && id in s.rows && forall i :: 0 <= i < |events| ==> !Deletes(events[i].op, id)
    ensures id in Run(s, events).rows
    ensures var c := Run(s, events).rows[id].costUsed;
            && c >= s.rows[id].costUsed
            && (forall i :: 0 <= i < |events| && events[i].op.UpdateCost? && events[i].op.id == id && events[i].op.cost.Some? ==> c >= events[i].op.cost.value)
            && (c == s.rows[id].costUsed || exists i :: 0 <= i < |events| && ReportsCost(events[i].op, id, c))
  {
    RunFollows(s, events, id);
    if events != [] {
      var init, last := events[..|events| - 1], events[|events| - 1];
      assert forall i :: 0 <= i < |init| ==> init[i] == events[i];
      CostIsHighest(s, init, id);
      AttemptsAreBounded(s, init, id);
      var c, c' := Run(s, init).rows[id].costUsed, Run(s, events).rows[id].costUsed;
      CostStep(Run(s, init), last.op, last.now, id);
      if c' != c {
        assert ReportsCost(events[|events| - 1].op, id, c');
      } else if c != s.rows[id].costUsed {
        var i :| 0 <= i < |init| && ReportsCost(init[i].op, id, c);
        assert ReportsCost(events[i].op, id, c);
      }
    }
  }

  // ----- starting, resuming, restarting ---------------------------------------------------------------

  /** A delegation is created exactly under a free id, for a child session no other delegation has, at a depth of one to
      three; it waits for its first attempt with nothing used and nothing to show. */
  lemma CreateStartsWaiting(s: State, op: Op, now: int)
    requires op.Create?
    ensures var s' := Step(s, op, now);
            if op.id !in s.rows && 1 <= op.target.depth <= 3 && !exists x :: x in s.rows && s.rows[x].target.childSession == op.target.childSession
            then s'.rows == s.rows[op.id := Row(op.target, op.worktree, op.permissionMode, op.timeoutSeconds, None, None, 0, 0.0, 1, Initial,
                                                Summary(op.handoff), Pending, now, now, None, None, None, None)]
            else s' == s
  {
  }

  /** A waiting delegation starts running exactly if its child session is there and not archived; else it is cancelled. */
  lemma StartNeedsChild(s: State, id: string, now: int)
    requires id in s.rows && s.rows[id].status == Pending && Checked(s.rows[id])
    ensures var r, r' := s.rows[id], Step(s, MarkRunning(id), now).rows[id]; var child := r.target.childSession;
            if child in s.archived && s.archived[child] == false then r' == r.(status := Running, updatedAt := now)
            else r'.status == Cancelled && r'.endedAt == Some(now) && r'.error == Some(REMOVED) && r'.resultText == r.resultText
                 && r'.worktree != Active && (r.worktree != Active ==> r'.worktree == r.worktree)
  {
  }

  /** A resume is taken exactly for an interrupted delegation outside routines with an attempt left and its child there;
      it starts with an empty outcome, no budgets and what it was given, and keeps usage, target and worktree. */
  lemma ResumeStartsAnew(s: State, op: Op, now: int)
    requires op.Resume? && op.id in s.rows && Checked(s.rows[op.id])
    ensures var r, r' := s.rows[op.id], Step(s, op, now).rows[op.id]; var child := r.target.childSession;
            if r.status == Interrupted && r.target.routineRun == None && r.attempts <= 2 && child in s.archived && s.archived[child] == false then
              r' == Row(r.target, r.worktree, op.permissionMode, op.timeoutSeconds, None, None, r.tokensUsed, r.costUsed, r.attempts + 1,
                        ExplicitNewTurn, Summary(op.handoff), Pending, r.startedAt, now, None, None, None, None)
            else r' == r
  {
  }

  /** After a restart no delegation is unfinished; those that were are interrupted and say so, the rest is unchanged. */
  lemma RestartInterruptsExactly(s: State, now: int, id: string)
    requires id in s.rows
    ensures var s' := Step(s, InterruptActive, now);
            && s'.rows.Keys == s.rows.Keys && !Unfinished(s'.rows[id])
            && s'.rows[id] == if Unfinished(s.rows[id])
                              then s.rows[id].(status := Interrupted, endedAt := Some(now), updatedAt := now, error := Some(RESTARTED))
                              else s.rows[id]
  {
  }

  /** Abandoning cancels exactly what could still be resumed, and keeps the reason as its error. */
  lemma AbandonCancelsExactly(s: State, id: string, reason: string, now: int)
    requires id in s.rows && Checked(s.rows[id])
    ensures var r, r' := s.rows[id], Step(s, Abandon(id, reason), now).rows[id];
            if Resumable(s, r) then
              && r'.status == Cancelled && r'.endedAt == Some(now) && IsKept(r'.error, Some(reason), 2000) && r'.progressText == None
              && r'.resultText == r.resultText && r'.attempts == r.attempts && r'.handoff == r.handoff
            else r' == r
  {
    BoundedIsKept(Some(reason), MAX_ERROR_CHARS);
  }

  /** A late result fills an empty result column of a delegation that is over, and changes nothing else. */
  lemma PartialResultFillsExactly(s: State, id: string, result: Option<string>, now: int)
    requires id in s.rows && Checked(s.rows[id])
    ensures var r, r' := s.rows[id], Step(s, PartialResult(id, result), now).rows[id];
            if !Unfinished(r) && result.Some? && result.value != "" then
              && r' == r.(resultText := r'.resultText, updatedAt := now)
              && if r.resultText.Some? then r'.resultText == r.resultText else IsKept(r'.resultText, result, 12000)
            else r' == r
  {
    BoundedIsKept(result, MAX_RESULT_CHARS);
  }

  /** Progress shows while a delegation is unfinished; a worktree changes only for one that works in a worktree. */
  lemma ProgressShowsWhileUnfinished(s: State, id: string, text: Option<string>, worktree: Worktree, now: int)
    requires id in s.rows && Checked(s.rows[id])
    ensures var r, r' := s.rows[id], Step(s, UpdateProgress(id, text), now).rows[id];
            if Unfinished(r) then r' == r.(progressText := r'.progressText, updatedAt := now) && IsKept(r'.progressText, text, 500) else r' == r
    ensures var r, r' := s.rows[id], Step(s, UpdateWorktree(id, worktree), now).rows[id];
            r' == if r.target.inWorktree then r.(worktree := worktree, updatedAt := now) else r
  {
    BoundedIsKept(text, MAX_PROGRESS_CHARS);
  }

  /** A cleanup deletes the rows it names, and a step for one delegation leaves every other as it is. */
  lemma StepsTouchNamedRows(s: State, op: Op, now: int, id: string)
    ensures op.DeleteRows? ==> (id in Step(s, op, now).rows <==> id in s.rows && id !in op.ids)
    ensures id in s.rows && !Deletes(op, id) && !op.InterruptActive? && (op.SetSessions? || op.DeleteRows? || op.id != id) ==>
              id in Step(s, op, now).rows && Step(s, op, now).rows[id] == s.rows[id]
  {
  }
}
