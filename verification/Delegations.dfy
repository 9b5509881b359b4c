/**
 Delegation rows and the guarded steps that move them. The clock is a parameter of every step
 and promises nothing.
 */
module Delegations {
  import opened Wrappers

  const MAX_ATTEMPTS := 3
  const MAX_RESULT_CHARS := 12000
  const MAX_ERROR_CHARS := 2000
  const MAX_PROGRESS_CHARS := 500

  datatype Status = Pending | Running | Completed | Failed | TimedOut | Interrupted | Cancelled | BudgetExhausted

  datatype Continuation = Initial | ExplicitNewTurn

  datatype Worktree = NoWorktree | Active | Retained | Cleaned

  datatype Handoff = Handoff(transcriptChars: int, skills: int, relics: int, vaultRefs: int, workspaceRefs: int)

  const EMPTY_HANDOFF := Handoff(0, 0, 0, 0, 0)

  /** The stored hand-off text: a summary as it is written, or anything else that may be stored. */
  datatype HandoffText = Summary(handoff: Handoff) | OtherText(text: string)

  /** What was chosen when the delegation was created; no step changes it. */
  datatype Target = Target(parentSession: string, parentDelegation: Option<string>, routineRun: Option<string>,
                           childSession: string, depth: nat, task: string, provider: string, model: Option<string>,
                           effort: Option<string>, workspace: string, inWorktree: bool)

  datatype Row = Row(target: Target, worktree: Worktree, permissionMode: string, timeoutSeconds: int,
                     tokenBudget: Option<int>, costBudget: Option<real>, tokensUsed: int, costUsed: real,
                     attempts: int, continuation: Continuation, handoff: HandoffText, status: Status,
                     startedAt: int, updatedAt: int, endedAt: Option<int>,
                     resultText: Option<string>, error: Option<string>, progressText: Option<string>)

  /** Delegation rows by id, and for every session row whether it is archived. */
  datatype State = State(rows: map<string, Row>, archived: map<string, bool>)

  // ----- reading a row ----------------------------------------------------------------------

  function Bounded(value: Option<string>, max: nat): Option<string>
    requires max > 0
  {
    if value.None? || value.value == "" then None
    else if |value.value| <= max then value
    else Some(value.value[..max - 1] + "\U{2026}")
  }

  function NonNegative(n: int): int {
    if n >= 0 then n else 0
  }

  function ParseHandoff(text: HandoffText): Handoff {
    match text
    case OtherText(_) => EMPTY_HANDOFF
    case Summary(h) =>
      Handoff(NonNegative(h.transcriptChars), NonNegative(h.skills), NonNegative(h.relics),
              NonNegative(h.vaultRefs), NonNegative(h.workspaceRefs))
  }

  predicate ChildAvailable(s: State, r: Row) {
    r.target.childSession in s.archived && !s.archived[r.target.childSession]
  }

  predicate Resumable(s: State, r: Row) {
    && r.status == Interrupted && r.target.routineRun.None? && r.attempts < MAX_ATTEMPTS && ChildAvailable(s, r)
  }

  /** The fields of a snapshot that a rollback writes back. */
  datatype Snapshot = Snapshot(endedAt: Option<int>, resultText: Option<string>, error: Option<string>,
                               progressText: Option<string>, attempts: int, continuation: Continuation,
                               timeoutSeconds: int, tokenBudget: Option<int>, costBudget: Option<real>,
                               permissionMode: string, handoff: Handoff)

  function TakeSnapshot(r: Row): Snapshot {
    Snapshot(r.endedAt, Bounded(r.resultText, MAX_RESULT_CHARS), Bounded(r.error, MAX_ERROR_CHARS),
             Bounded(r.progressText, MAX_PROGRESS_CHARS), r.attempts, r.continuation, r.timeoutSeconds,
             r.tokenBudget, r.costBudget, r.permissionMode, ParseHandoff(r.handoff))
  }

  // ----- the steps -----------------------------------------------------------------------------

  const REMOVED := "The delegated child was removed or archived before it could start."
  const RESTARTED := "Hlid restarted before this delegated child finished."

  function Released(w: Worktree): Worktree {
    if w == Active then Retained else w
  }

  predicate IsOver(status: Status) {
    status != Pending && status != Running
  }

  datatype Op =
    | Create(id: string, target: Target, worktree: Worktree, permissionMode: string, timeoutSeconds: int, handoff: Handoff)
    | MarkRunning(id: string)
    | UpdateTokens(id: string, tokens: int)
    | UpdateCost(id: string, cost: Option<real>)
    | UpdateProgress(id: string, text: Option<string>)
    | UpdateWorktree(id: string, worktree: Worktree)
    | Resume(id: string, timeoutSeconds: int, permissionMode: string, handoff: Handoff)
    | Rollback(id: string, previous: Snapshot)
    | Finish(id: string, status: Status, result: Option<string>, error: Option<string>)
    | Abandon(id: string, reason: string)
    | PartialResult(id: string, result: Option<string>)
    | InterruptActive
    | DeleteRows(ids: set<string>)
    | SetSessions(archived: map<string, bool>)

  function NewRow(op: Op, now: int): Row
    requires op.Create?
  {
    Row(op.target, op.worktree, op.permissionMode, op.timeoutSeconds, None, None, 0, 0.0, 1, Initial,
        Summary(op.handoff), Pending, now, now, None, None, None, None)
  }

  /** The row constraints of the table. */
  predicate Checked(r: Row) {
    && 1 <= r.target.depth <= 3 && 1 <= r.attempts <= MAX_ATTEMPTS && r.tokensUsed >= 0 && r.costUsed >= 0.0
    && (r.tokenBudget.Some? ==> r.tokenBudget.value > 0) && (r.costBudget.Some? ==> r.costBudget.value > 0.0)
  }

  function MarkRunningRow(s: State, r: Row, now: int): Row {
    if r.status != Pending then r
    else if ChildAvailable(s, r) then r.(status := Running, updatedAt := now)
    else r.(status := Cancelled, endedAt := Some(now), updatedAt := now, error := Some(REMOVED), worktree := Released(r.worktree))
  }

  function ResumeRow(s: State, r: Row, op: Op, now: int): Row
    requires op.Resume?
  {
    if !Resumable(s, r) then r
    else
      r.(status := Pending, endedAt := None, resultText := None, error := None, progressText := None,
         attempts := r.attempts + 1, continuation := ExplicitNewTurn, timeoutSeconds := op.timeoutSeconds,
         tokenBudget := None, costBudget := None, permissionMode := op.permissionMode,
         handoff := Summary(op.handoff), updatedAt := now)
  }

  function RollbackRow(r: Row, p: Snapshot, now: int): Row {
    if r.status != Pending || r.attempts != p.attempts + 1 then r
    else
      r.(status := Interrupted, endedAt := p.endedAt, resultText := p.resultText, error := p.error,
         progressText := p.progressText, attempts := p.attempts, continuation := p.continuation,
         timeoutSeconds := p.timeoutSeconds, tokenBudget := p.tokenBudget, costBudget := p.costBudget,
         permissionMode := p.permissionMode, handoff := Summary(p.handoff), updatedAt := now)
  }

  function FinishRow(r: Row, op: Op, now: int): Row
    requires op.Finish?
  {
    if IsOver(r.status) then r
    else
      r.(status := op.status, endedAt := Some(now), updatedAt := now, resultText := Bounded(op.result, MAX_RESULT_CHARS),
         error := Bounded(op.error, MAX_ERROR_CHARS), progressText := None, worktree := Released(r.worktree))
  }

  function AbandonRow(s: State, r: Row, text: string, now: int): Row {
    if !Resumable(s, r) then r
    else
      r.(status := Cancelled, endedAt := Some(now), updatedAt := now, error := Bounded(Some(text), MAX_ERROR_CHARS),
         progressText := None, worktree := Released(r.worktree))
  }

  function PartialResultRow(r: Row, result: Option<string>, now: int): Row {
    var text := Bounded(result, MAX_RESULT_CHARS);
    if text.None? || !IsOver(r.status) then r
    else r.(resultText := if r.resultText.Some? then r.resultText else text, updatedAt := now)
  }

  function InterruptRow(r: Row, now: int): Row {
    if IsOver(r.status) then r
    else r.(status := Interrupted, endedAt := Some(now), updatedAt := now, error := Some(RESTARTED))
  }

  function InterruptSome(rows: map<string, Row>, done: set<string>, now: int): map<string, Row> {
    map id | id in rows :: if id in done then InterruptRow(rows[id], now) else rows[id]
  }

  function Max(a: int, b: int): int {
    if a >= b then a else b
  }

  function MaxReal(a: real, b: real): real {
    if a >= b then a else b
  }

  /** What the step makes of one row. */
  function StepRow(s: State, r: Row, op: Op, now: int): Row {
    match op
    case MarkRunning(_) => MarkRunningRow(s, r, now)
    case UpdateTokens(_, tokens) => r.(tokensUsed := Max(r.tokensUsed, Max(0, tokens)), updatedAt := now)
    case UpdateCost(_, cost) =>
      r.(costUsed := MaxReal(r.costUsed, if cost.Some? && cost.value >= 0.0 then cost.value else 0.0), updatedAt := now)
    case UpdateProgress(_, text) =>
      if IsOver(r.status) then r else r.(progressText := Bounded(text, MAX_PROGRESS_CHARS), updatedAt := now)
    case UpdateWorktree(_, worktree) => if r.target.inWorktree then r.(worktree := worktree, updatedAt := now) else r
    case Resume(_, _, _, _) => ResumeRow(s, r, op, now)
    case Rollback(_, previous) => RollbackRow(r, previous, now)
    case Finish(_, _, _, _) => FinishRow(r, op, now)
    case Abandon(_, text) => AbandonRow(s, r, text, now)
    case PartialResult(_, result) => PartialResultRow(r, result, now)
    case InterruptActive => InterruptRow(r, now)
    case Create(_, _, _, _, _, _) => r
    case DeleteRows(_) => r
    case SetSessions(_) => r
  }

  /** A row that would break a constraint is refused and the transaction rolled back. */
  function Accept(r: Row, r': Row): Row {
    if Checked(r') then r' else r
  }

  predicate CanCreate(s: State, op: Op, now: int)
    requires op.Create?
  {
    && op.id !in s.rows && Checked(NewRow(op, now))
    && forall id :: id in s.rows ==> s.rows[id].target.childSession != op.target.childSession
  }

  function Step(s: State, op: Op, now: int): State {
    match op
    case Create(id, _, _, _, _, _) => if CanCreate(s, op, now) then s.(rows := s.rows[id := NewRow(op, now)]) else s
    case SetSessions(archived) => s.(archived := archived)
    case DeleteRows(ids) => s.(rows := s.rows - ids)
    case InterruptActive => s.(rows := InterruptSome(s.rows, s.rows.Keys, now))
    case _ => if op.id in s.rows then s.(rows := s.rows[op.id := Accept(s.rows[op.id], StepRow(s, s.rows[op.id], op, now))]) else s
  }

  /** Callers finish with a final status, roll back to snapshots, and count what they hand off. */
  predicate WellFormed(op: Op) {
    match op
    case Create(_, _, _, _, _, h) => CleanHandoff(h)
    case Resume(_, _, _, h) => CleanHandoff(h)
    case Finish(_, status, _, _) => IsOver(status)
    case Rollback(_, p) =>
      && CleanText(p.resultText, MAX_RESULT_CHARS) && CleanText(p.error, MAX_ERROR_CHARS)
      && CleanText(p.progressText, MAX_PROGRESS_CHARS) && CleanHandoff(p.handoff)
    case UpdateWorktree(_, w) => w != NoWorktree
    case _ => true
  }

  /** Nothing for the bound to cut and nothing it would turn into null. */
  predicate CleanText(text: Option<string>, max: nat) {
    text.Some? ==> 0 < |text.value| <= max
  }

  predicate CleanHandoff(h: Handoff) {
    h.transcriptChars >= 0 && h.skills >= 0 && h.relics >= 0 && h.vaultRefs >= 0 && h.workspaceRefs >= 0
  }

  /** A row a snapshot shows unabridged. */
  predicate Clean(r: Row) {
    && CleanText(r.resultText, MAX_RESULT_CHARS) && CleanText(r.error, MAX_ERROR_CHARS)
    && CleanText(r.progressText, MAX_PROGRESS_CHARS)
    && r.handoff.Summary? && CleanHandoff(r.handoff.handoff)
  }
}
