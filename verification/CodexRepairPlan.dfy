/**
 Planning the repair of Codex usage: a stored query is matched with the one root turn that
 completed in its time window, and its usage is recomputed from that turn and its child turns.
 */
module CodexRepairPlan {
  import opened Wrappers
  import opened Rollouts
  import opened RolloutGraph
  import opened TurnClaims
  import opened RepairVerdicts
  import opened UsageRows

  datatype RepairSession = RepairSession(id: string, providerSessionId: Option<string>, startedAt: real, model: Option<string>,
                                         queries: seq<StoredQuery>, ledger: seq<StoredUsageQuery>, lostWorkers: set<nat>)

  datatype Confidence = LegacyRoot | LegacyRootAndChildren

  datatype Corrected = Corrected(usage: Usage, estimatedCost: Option<real>, unpriced: int)

  datatype RepairRow = RepairRow(sessionId: string, providerSessionId: string, query: StoredQuery, usageQuery: StoredUsageQuery,
                                 corrected: Corrected, confidence: Confidence, root: TurnRef, childKeys: seq<TurnRef>)

  datatype Reason =
    | MissingProviderThread | MissingRollout | LedgerRowCountMismatch | LedgerRowMismatch
    | NoTerminalCandidate | AmbiguousTerminalCandidate | LegacyFingerprintMismatch
    | UnrecoverableChild | UnrecoverableWindowsWorker

  type RowVerdict = Verdict<RepairRow, Reason>

  type Report = Unresolved<Reason>

  /** The price of the turns of one query, if every model in it has a price. */
  type Pricer = (Option<string>, seq<Evidence>) -> Option<real>

  // ----- one query ------------------------------------------------------------------------

  predicate RowsMirror(q: StoredQuery, u: StoredUsageQuery) {
    && u.session == Some(q.session) && u.timestamp == q.timestamp && u.cost == q.cost
    && NumberEqual(q.estimatedCost, u.estimatedCost) && u.costKnown == q.costKnown
    && u.turns == q.turns && u.usage == q.usage
  }

  predicate Mirrored(s: RepairSession)
    requires |s.queries| == |s.ledger|
  {
    forall i :: 0 <= i < |s.queries| ==> RowsMirror(s.queries[i], s.ledger[i])
  }

  function LowerBound(s: RepairSession, i: nat): real
    requires i <= |s.queries|
  {
    if i == 0 then s.startedAt - 2.0 else s.queries[i - 1].timestamp + 0.001
  }

  predicate InWindow(lower: real, upper: real, t: Turn) {
    && t.terminal == Completed && t.endedAtMs.Some?
    && var completed, started := t.endedAtMs.value / 1000, t.startedAtMs / 1000;
       lower <= completed as real <= upper && started as real >= lower - 2.0
  }

  function CandidatesIn(lower: real, upper: real, turns: seq<Turn>): (r: seq<Turn>)
    ensures forall t :: t in r <==> t in turns && InWindow(lower, upper, t)
  {
    if turns == [] then []
    else
      var last := turns[|turns| - 1];
      assert turns == turns[..|turns| - 1] + [last];
      CandidatesIn(lower, upper, turns[..|turns| - 1]) + if InWindow(lower, upper, last) then [last] else []
  }

  function FullUsage(turns: seq<Evidence>): Usage {
    if turns == [] then NO_USAGE else FullUsage(turns[..|turns| - 1]).Plus(turns[|turns| - 1].turn.usage)
  }

  function LegacyUsage(turns: seq<Evidence>): Usage {
    if turns == [] then NO_USAGE else LegacyUsage(turns[..|turns| - 1]).Plus(turns[|turns| - 1].turn.legacyUsage)
  }

  /** How the stored usage is explained by the turns, if at all. */
  function ConfidenceIn(stored: Usage, root: Evidence, children: seq<Evidence>): Option<Confidence> {
    if stored == FullUsage([root] + children) then Some(if children == [] then LegacyRoot else LegacyRootAndChildren)
    else if stored == root.turn.legacyUsage.Plus(LegacyUsage(children)) then Some(LegacyRootAndChildren)
    else if stored == root.turn.legacyUsage then Some(LegacyRoot)
    else None
  }

  function FingerprintUsageQuery(u: StoredUsageQuery): StoredUsageQuery {
    u.(session := Some(if u.session.Some? then u.session.value else ""))
  }

  function RowFor(price: Pricer, s: RepairSession, i: nat, root: Evidence, w: Work, confidence: Confidence): RepairRow
    requires i < |s.queries| == |s.ledger| && s.providerSessionId.Some?
  {
    var q := s.queries[i];
    var turns := [root] + w.turns;
    var estimate := price(s.model, turns);
    RepairRow(s.id, s.providerSessionId.value, q, FingerprintUsageQuery(s.ledger[i]),
              Corrected(FullUsage(turns), estimate, if estimate.None? && q.costKnown == 0 then 1 else 0),
              confidence, root.Key(), w.keys)
  }

  /** What becomes of a query whose only root candidate is this turn. */
  ghost function JudgeCandidate(rollouts: seq<Rollout>, price: Pricer, s: RepairSession, i: nat, root: Evidence): RowVerdict
    requires i < |s.queries| == |s.ledger| && s.providerSessionId.Some? && root.turn.endedAtMs.Some?
  {
    var w := Expand(rollouts, RepairSelector, root);
    if !w.exact then Rejected(UnrecoverableChild)
    else
      match ConfidenceIn(s.queries[i].usage, root, w.turns)
      case None => Rejected(LegacyFingerprintMismatch)
      case Some(c) => Planned(RowFor(price, s, i, root, w, c))
  }

  ghost function JudgeInSession(rollouts: seq<Rollout>, price: Pricer, s: RepairSession, i: nat, r: Rollout): RowVerdict
    requires i < |s.queries| == |s.ledger| && s.providerSessionId.Some?
  {
    if s.queries[i].id in s.lostWorkers then Rejected(UnrecoverableWindowsWorker)
    else
      var candidates := CandidatesIn(LowerBound(s, i), s.queries[i].timestamp, r.turns);
      if |candidates| == 0 then Rejected(NoTerminalCandidate)
      else if |candidates| > 1 then Rejected(AmbiguousTerminalCandidate)
      else
        assert candidates[0] in candidates;
        JudgeCandidate(rollouts, price, s, i, Evidence(r, candidates[0]))
  }

  /** A reason that rejects every query of the session. */
  function SessionReason(rollouts: seq<Rollout>, s: RepairSession): Option<Reason> {
    if s.providerSessionId.None? || s.providerSessionId.value == "" then Some(MissingProviderThread)
    else if Lookup(rollouts, s.providerSessionId.value).None? then Some(MissingRollout)
    else if |s.queries| != |s.ledger| then Some(LedgerRowCountMismatch)
    else if !Mirrored(s) then Some(LedgerRowMismatch)
    else None
  }

  ghost function Judge(rollouts: seq<Rollout>, price: Pricer, s: RepairSession, i: nat): RowVerdict
    requires i < |s.queries|
  {
    match SessionReason(rollouts, s)
    case Some(reason) => Rejected(reason)
    case None => JudgeInSession(rollouts, price, s, i, Lookup(rollouts, s.providerSessionId.value).value)
  }

  // ----- the whole plan --------------------------------------------------------------------

  /** The verdicts on the queries of a session, in their order. */
  ghost function JudgedSession(rollouts: seq<Rollout>, price: Pricer, s: RepairSession): (js: seq<Judged<RepairRow, Reason>>)
    ensures |js| == |s.queries|
  {
    seq(|s.queries|, i requires 0 <= i < |s.queries| => Judged(s.queries[i].id, Judge(rollouts, price, s, i)))
  }

  ghost function AllJudged(rollouts: seq<Rollout>, price: Pricer, sessions: seq<RepairSession>): seq<Judged<RepairRow, Reason>> {
    if sessions == [] then []
    else AllJudged(rollouts, price, sessions[..|sessions| - 1]) + JudgedSession(rollouts, price, sessions[|sessions| - 1])
  }

  function KidsOf(rows: seq<RepairRow>): Kids {
    seq(|rows|, i requires 0 <= i < |rows| => rows[i].childKeys)
  }

  ghost function Safe(rows: seq<RepairRow>, n: nat): seq<RepairRow>
    requires n <= |rows|
  {
    if n == 0 then [] else Safe(rows, n - 1) + if Contested(KidsOf(rows), n - 1) then [] else [rows[n - 1]]
  }

  ghost function Collided(rows: seq<RepairRow>, n: nat): seq<Report>
    requires n <= |rows|
  {
    if n == 0 then []
    else Collided(rows, n - 1) + if Contested(KidsOf(rows), n - 1) then [Unresolved(rows[n - 1].query.id, UnrecoverableChild)] else []
  }

  ghost function PlanRows(rollouts: seq<Rollout>, price: Pricer, sessions: seq<RepairSession>): seq<RepairRow> {
    var rows := RowsIn(AllJudged(rollouts, price, sessions));
    Safe(rows, |rows|)
  }

  ghost function PlanReports(rollouts: seq<Rollout>, price: Pricer, sessions: seq<RepairSession>): seq<Report> {
    var js := AllJudged(rollouts, price, sessions);
    ReportsIn(js) + Collided(RowsIn(js), |RowsIn(js)|)
  }

  // ----- the planner as it runs ---------------------------------------------------------------

  ghost predicate ChildIndex(rollouts: seq<Rollout>, children: map<string, seq<string>>) {
    forall parent :: (if parent in children then children[parent] else []) == ChildrenOf(rollouts, parent)
  }

  method CandidateForQuery(rollouts: seq<Rollout>, children: map<string, seq<string>>, price: Pricer, s: RepairSession, i: nat,
                           root: Evidence) returns (v: RowVerdict)
    requires ChildIndex(rollouts, children)
    requires i < |s.queries| == |s.ledger| && s.providerSessionId.Some? && root.turn.endedAtMs.Some?
    ensures v == JudgeCandidate(rollouts, price, s, i, root)
  {
    var w := ExpandCodexChildTurns(rollouts, children, RepairSelector, root);
    if !w.exact { return Rejected(UnrecoverableChild); }
    match ConfidenceIn(s.queries[i].usage, root, w.turns)
    case None => return Rejected(LegacyFingerprintMismatch);
    case Some(c) => return Planned(RowFor(price, s, i, root, w, c));
  }

  lemma JudgedAt(rollouts: seq<Rollout>, price: Pricer, s: RepairSession, i: nat)
    requires i < |s.queries|
    ensures JudgedSession(rollouts, price, s)[i] == Judged(s.queries[i].id, Judge(rollouts, price, s, i))
  {
  }

  method RejectAll(rollouts: seq<Rollout>, price: Pricer, s: RepairSession, reason: Reason) returns (unresolved: seq<Report>)
    requires SessionReason(rollouts, s) == Some(reason)
    ensures RowsIn(JudgedSession(rollouts, price, s)) == [] && unresolved == ReportsIn(JudgedSession(rollouts, price, s))
  {
    ghost var js := JudgedSession(rollouts, price, s);
    unresolved := [];
    for i := 0 to |s.queries|
      invariant RowsIn(js[..i]) == [] && unresolved == ReportsIn(js[..i])
    {
      Next(js, i);
      JudgedAt(rollouts, price, s, i);
      unresolved := unresolved + [Unresolved(s.queries[i].id, reason)];
    }
    assert js[..|s.queries|] == js;
  }

  /** The window, the candidates and the verdict of one query. */
  method JudgeQuery(rollouts: seq<Rollout>, children: map<string, seq<string>>, price: Pricer, s: RepairSession, root: Rollout,
                    i: nat, lower: real) returns (v: RowVerdict)
    requires ChildIndex(rollouts, children)
    requires i < |s.queries| == |s.ledger| && s.providerSessionId.Some? && lower == LowerBound(s, i)
    ensures v == JudgeInSession(rollouts, price, s, i, root)
  {
    if s.queries[i].id in s.lostWorkers { return Rejected(UnrecoverableWindowsWorker); }
    var candidates := CandidatesIn(lower, s.queries[i].timestamp, root.turns);
    if |candidates| != 1 { return Rejected(if |candidates| == 0 then NoTerminalCandidate else AmbiguousTerminalCandidate); }
    assert candidates[0] in candidates;
    v := CandidateForQuery(rollouts, children, price, s, i, Evidence(root, candidates[0]));
  }

  method PlanQueries(rollouts: seq<Rollout>, children: map<string, seq<string>>, price: Pricer, s: RepairSession, root: Rollout)
    returns (rows: seq<RepairRow>, unresolved: seq<Report>)
    requires ChildIndex(rollouts, children) && |s.queries| == |s.ledger| && s.providerSessionId.Some?
    requires forall i :: 0 <= i < |s.queries| ==> Judge(rollouts, price, s, i) == JudgeInSession(rollouts, price, s, i, root)
    ensures rows == RowsIn(JudgedSession(rollouts, price, s))
    ensures unresolved == ReportsIn(JudgedSession(rollouts, price, s))
  {
    ghost var js := JudgedSession(rollouts, price, s);
    rows, unresolved := [], [];
    var lower := s.startedAt - 2.0;
    for i := 0 to |s.queries|
      invariant rows == RowsIn(js[..i]) && unresolved == ReportsIn(js[..i])
      invariant lower == LowerBound(s, i)
    {
      Next(js, i);
      JudgedAt(rollouts, price, s, i);
      var v := JudgeQuery(rollouts, children, price, s, root, i, lower);
      lower := s.queries[i].timestamp + 0.001;
      rows, unresolved := rows + PlannedBy(v), unresolved + ReportedBy(Judged(s.queries[i].id, v));
    }
    assert js[..|s.queries|] == js;
  }

  method PlanSession(rollouts: seq<Rollout>, children: map<string, seq<string>>, price: Pricer, s: RepairSession)
    returns (rows: seq<RepairRow>, unresolved: seq<Report>)
    requires ChildIndex(rollouts, children)
    ensures rows == RowsIn(JudgedSession(rollouts, price, s))
    ensures unresolved == ReportsIn(JudgedSession(rollouts, price, s))
  {
    var reason := SessionReason(rollouts, s);
    if reason.Some? {
      rows := [];
      unresolved := RejectAll(rollouts, price, s, reason.value);
      return;
    }
    var root := Lookup(rollouts, s.providerSessionId.value).value;
    rows, unresolved := PlanQueries(rollouts, children, price, s, root);
  }

  method PlanSessions(rollouts: seq<Rollout>, price: Pricer, sessions: seq<RepairSession>)
    returns (rows: seq<RepairRow>, unresolved: seq<Report>)
    ensures rows == RowsIn(AllJudged(rollouts, price, sessions))
    ensures unresolved == ReportsIn(AllJudged(rollouts, price, sessions))
  {
    var children := CodexChildrenByParent(rollouts);
    rows, unresolved := [], [];
    for n := 0 to |sessions|
      invariant rows == RowsIn(AllJudged(rollouts, price, sessions[..n]))
      invariant unresolved == ReportsIn(AllJudged(rollouts, price, sessions[..n]))
    {
      assert sessions[..n + 1][..n] == sessions[..n];
      RowsAppended(AllJudged(rollouts, price, sessions[..n]), JudgedSession(rollouts, price, sessions[n]));
      ReportsAppended(AllJudged(rollouts, price, sessions[..n]), JudgedSession(rollouts, price, sessions[n]));
      var more, rejected := PlanSession(rollouts, children, price, sessions[n]);
      rows, unresolved := rows + more, unresolved + rejected;
    }
    assert sessions[..|sessions|] == sessions;
  }

  /** Rows whose child turns are contested are dropped and reported. */
  method DropContested(rows: seq<RepairRow>) returns (safe: seq<RepairRow>, dropped: seq<Report>)
    requires EachOnce(KidsOf(rows))
    ensures safe == Safe(rows, |rows|) && dropped == Collided(rows, |rows|)
  {
    var collided := CollidedOwners(KidsOf(rows));
    safe, dropped := [], [];
    for i := 0 to |rows|
      invariant safe == Safe(rows, i) && dropped == Collided(rows, i)
    {
      if i in collided {
        dropped := dropped + [Unresolved(rows[i].query.id, UnrecoverableChild)];
      } else {
        safe := safe + [rows[i]];
      }
    }
  }

  method PlanCodexUsageRepair(rollouts: seq<Rollout>, price: Pricer, sessions: seq<RepairSession>)
    returns (safe: seq<RepairRow>, unresolved: seq<Report>)
    ensures safe == PlanRows(rollouts, price, sessions)
    ensures unresolved == PlanReports(rollouts, price, sessions)
  {
    var rows, rejected := PlanSessions(rollouts, price, sessions);
    AllRowsListEachOnce(rollouts, price, sessions);
    var dropped;
    safe, dropped := DropContested(rows);
    unresolved := rejected + dropped;
  }

  // ----- where rows come from ---------------------------------------------------------------------

  ghost predicate RowFrom(rollouts: seq<Rollout>, price: Pricer, s: RepairSession, i: nat, row: RepairRow) {
    i < |s.queries| && Judge(rollouts, price, s, i) == Planned(row)
  }

  /** Each verdict of the list is the verdict on one query of one session. */
  lemma {:induction false} JudgedHasOrigin(rollouts: seq<Rollout>, price: Pricer, sessions: seq<RepairSession>, k: nat)
    returns (s: RepairSession, i: nat)
    requires k < |AllJudged(rollouts, price, sessions)|
    ensures s in sessions && i < |s.queries|
    ensures AllJudged(rollouts, price, sessions)[k] == Judged(s.queries[i].id, Judge(rollouts, price, s, i))
  {
    var init, last := sessions[..|sessions| - 1], sessions[|sessions| - 1];
    var before := AllJudged(rollouts, price, init);
    if k < |before| {
      s, i := JudgedHasOrigin(rollouts, price, init, k);
    } else {
      s, i := last, k - |before|;
      JudgedAt(rollouts, price, s, i);
    }
  }

  /** And every query of every session has its verdict in the list. */
  lemma {:induction false} QueryIsJudged(rollouts: seq<Rollout>, price: Pricer, sessions: seq<RepairSession>, s: RepairSession, i: nat)
    returns (k: nat)
    requires s in sessions && i < |s.queries|
    ensures k < |AllJudged(rollouts, price, sessions)|
    ensures AllJudged(rollouts, price, sessions)[k] == Judged(s.queries[i].id, Judge(rollouts, price, s, i))
  {
    var init, last := sessions[..|sessions| - 1], sessions[|sessions| - 1];
    var before := AllJudged(rollouts, price, init);
    if s == last {
      k := |before| + i;
      JudgedAt(rollouts, price, s, i);
    } else {
      assert sessions == init + [last];
      k := QueryIsJudged(rollouts, price, init, s, i);
    }
  }

  lemma RowHasOrigin(rollouts: seq<Rollout>, price: Pricer, sessions: seq<RepairSession>, row: RepairRow)
    returns (s: RepairSession, i: nat)
    requires row in RowsIn(AllJudged(rollouts, price, sessions))
    ensures s in sessions && RowFrom(rollouts, price, s, i, row)
  {
    var js := AllJudged(rollouts, price, sessions);
    RowsAre(js, row);
    var k :| 0 <= k < |js| && js[k].verdict == Planned(row);
    s, i := JudgedHasOrigin(rollouts, price, sessions, k);
  }

  lemma RowListsEachOnce(rollouts: seq<Rollout>, price: Pricer, s: RepairSession, i: nat, row: RepairRow)
    requires RowFrom(rollouts, price, s, i, row)
    ensures forall a, b :: 0 <= a < b < |row.childKeys| ==> row.childKeys[a] != row.childKeys[b]
  {
    var r := Lookup(rollouts, s.providerSessionId.value).value;
    var candidates := CandidatesIn(LowerBound(s, i), s.queries[i].timestamp, r.turns);
    assert candidates[0] in candidates;
    ExpandIsSound(rollouts, RepairSelector, Evidence(r, candidates[0]));
  }

  lemma AllRowsListEachOnce(rollouts: seq<Rollout>, price: Pricer, sessions: seq<RepairSession>)
    ensures EachOnce(KidsOf(RowsIn(AllJudged(rollouts, price, sessions))))
  {
    var rows := RowsIn(AllJudged(rollouts, price, sessions));
    forall i | 0 <= i < |rows| ensures forall a, b :: 0 <= a < b < |rows[i].childKeys| ==> rows[i].childKeys[a] != rows[i].childKeys[b] {
      assert rows[i] in rows;
      var s, j := RowHasOrigin(rollouts, price, sessions, rows[i]);
      RowListsEachOnce(rollouts, price, s, j, rows[i]);
    }
  }
}
