/**
 Applying a usage repair manifest: every row is checked against its fingerprint, corrected,
 the touched aggregates are rebuilt, and the outcome verified; on any error nothing changes.
 */
module RepairApply {
  import opened Wrappers
  import opened Rollouts
  import opened UsageRows

  // ----- tables ---------------------------------------------------------------------------

  /** The columns of a session row that a repair rebuilds. */
  datatype SessionTotals = SessionTotals(usage: Usage, estimated: real, unpriced: nat) {
    function Plus(t: SessionTotals): SessionTotals {
      SessionTotals(usage.Plus(t.usage), estimated + t.estimated, unpriced + t.unpriced)
    }
  }

  datatype DailyTotals = DailyTotals(cost: real, estimated: real, unpriced: int, queries: nat, usage: Usage, turns: nat) {
    function Plus(t: DailyTotals): DailyTotals {
      DailyTotals(cost + t.cost, estimated + t.estimated, unpriced + t.unpriced, queries + t.queries,
                  usage.Plus(t.usage), turns + t.turns)
    }
  }

  const NO_SESSION_TOTALS := SessionTotals(NO_USAGE, 0.0, 0)
  const NO_DAILY_TOTALS := DailyTotals(0.0, 0.0, 0, 0, NO_USAGE, 0)

  /** A row's position is its id; deleted rows leave a gap. */
  datatype Tables = Tables(queries: seq<Option<StoredQuery>>, usageQueries: seq<Option<StoredUsageQuery>>,
                           sessions: map<string, SessionTotals>, daily: map<string, DailyTotals>)

  type Calendar = real -> Option<string>

  function Amount(r: Option<real>): real {
    if r.Some? then r.value else 0.0
  }

  function SessionPart(q: StoredQuery): SessionTotals {
    SessionTotals(q.usage, Amount(q.estimatedCost), if q.estimatedCost.None? && q.costKnown == 0 then 1 else 0)
  }

  function DailyPart(u: StoredUsageQuery): DailyTotals {
    DailyTotals(u.cost, Amount(u.estimatedCost), u.unpriced, 1, u.usage, u.turns)
  }

  function SessionSum(rows: seq<Option<StoredQuery>>, session: string): SessionTotals {
    if rows == [] then NO_SESSION_TOTALS
    else
      var rest, last := SessionSum(rows[..|rows| - 1], session), rows[|rows| - 1];
      if last.Some? && last.value.session == session then rest.Plus(SessionPart(last.value)) else rest
  }

  function DailySum(cal: Calendar, rows: seq<Option<StoredUsageQuery>>, date: string): DailyTotals {
    if rows == [] then NO_DAILY_TOTALS
    else
      var rest, last := DailySum(cal, rows[..|rows| - 1], date), rows[|rows| - 1];
      if last.Some? && cal(last.value.timestamp) == Some(date) then rest.Plus(DailyPart(last.value)) else rest
  }

  function QueryAt(t: Tables, id: nat): Option<StoredQuery> {
    if id < |t.queries| then t.queries[id] else None
  }

  function UsageQueryAt(t: Tables, id: nat): Option<StoredUsageQuery> {
    if id < |t.usageQueries| then t.usageQueries[id] else None
  }

  // ----- manifests ------------------------------------------------------------------------

  /** What a row is corrected to: Codex repairs also the estimated cost and the provider. */
  datatype Fix =
    | CodexFix(usage: Usage, estimatedCost: Option<real>, unpriced: int)
    | ClaudeFix(usage: Usage)

  /** A manifest row: the fingerprints taken when the repair was planned, and the correction. */
  datatype Patch = Patch(sessionId: string, query: StoredQuery, usageQuery: StoredUsageQuery, fix: Fix)

  datatype Correction = Correction(sessionId: string, usageQuery: StoredUsageQuery, provider: string)

  datatype Manifest = Manifest(rows: seq<Patch>, corrections: seq<Correction>)

  datatype RepairError =
    | TargetDisappeared | FingerprintChanged | ProviderTargetDisappeared | ProviderFingerprintChanged
    | VerificationFailed | ProviderVerificationFailed

  function CorrectedCostKnown(p: Patch): int
    requires p.fix.CodexFix?
  {
    if p.query.costKnown == 1 || p.query.cost != 0.0 || p.fix.estimatedCost.Some? then 1 else 0
  }

  predicate AlreadyCorrect(p: Patch, q: StoredQuery, u: StoredUsageQuery) {
    && q.usage == p.fix.usage && u.usage == p.fix.usage
    && match p.fix
       case ClaudeFix(_) => true
       case CodexFix(_, estimatedCost, unpriced) =>
         && q.session == p.sessionId && u.session == Some(p.sessionId)
         && NumberEqual(q.estimatedCost, estimatedCost) && NumberEqual(u.estimatedCost, estimatedCost)
         && q.costKnown == CorrectedCostKnown(p) && u.costKnown == CorrectedCostKnown(p)
         && u.unpriced == unpriced && u.provider == "codex"
  }

  predicate CostEqual(fix: Fix, a: Option<real>, b: Option<real>) {
    if fix.CodexFix? then NumberEqual(a, b) else a == b
  }

  predicate QueryMatches(p: Patch, q: StoredQuery) {
    q.(estimatedCost := None) == p.query.(estimatedCost := None) && CostEqual(p.fix, q.estimatedCost, p.query.estimatedCost)
  }

  predicate UsageQueryMatches(fix: Fix, fingerprint: StoredUsageQuery, u: StoredUsageQuery) {
    u.(estimatedCost := None) == fingerprint.(estimatedCost := None) && CostEqual(fix, u.estimatedCost, fingerprint.estimatedCost)
  }

  function FixQuery(p: Patch, q: StoredQuery): StoredQuery {
    match p.fix
    case ClaudeFix(usage) => q.(usage := usage)
    case CodexFix(usage, estimatedCost, _) => q.(usage := usage, estimatedCost := estimatedCost, costKnown := CorrectedCostKnown(p))
  }

  function FixUsageQuery(p: Patch, u: StoredUsageQuery): StoredUsageQuery {
    match p.fix
    case ClaudeFix(usage) => u.(usage := usage)
    case CodexFix(usage, estimatedCost, unpriced) =>
      u.(usage := usage, estimatedCost := estimatedCost, costKnown := CorrectedCostKnown(p), unpriced := unpriced, provider := "codex")
  }

  // ----- the transaction --------------------------------------------------------------------

  datatype Pending = Pending(tables: Tables, sessions: set<string>, dates: set<string>)

  function WriteRow(t: Tables, p: Patch): Tables
    requires QueryAt(t, p.query.id).Some? && UsageQueryAt(t, p.usageQuery.id).Some?
  {
    t.(queries := t.queries[p.query.id := Some(FixQuery(p, t.queries[p.query.id].value))],
       usageQueries := t.usageQueries[p.usageQuery.id := Some(FixUsageQuery(p, t.usageQueries[p.usageQuery.id].value))])
  }

  function DateOf(cal: Calendar, timestamp: real): set<string> {
    if cal(timestamp).Some? then {cal(timestamp).value} else {}
  }

  function ApplyRow(cal: Calendar, s: Pending, p: Patch): Result<Pending, RepairError> {
    var q, u := QueryAt(s.tables, p.query.id), UsageQueryAt(s.tables, p.usageQuery.id);
    if q.None? || u.None? then Err(TargetDisappeared)
    else if AlreadyCorrect(p, q.value, u.value) then Ok(s)
    else if !QueryMatches(p, q.value) || !UsageQueryMatches(p.fix, p.usageQuery, u.value) then Err(FingerprintChanged)
    else Ok(Pending(WriteRow(s.tables, p), s.sessions + {p.sessionId}, s.dates + DateOf(cal, p.query.timestamp)))
  }

  function ApplyRows(cal: Calendar, s: Pending, rows: seq<Patch>): Result<Pending, RepairError> {
    if rows == [] then Ok(s)
    else
      match ApplyRows(cal, s, rows[..|rows| - 1])
      case Err(e) => Err(e)
      case Ok(s') => ApplyRow(cal, s', rows[|rows| - 1])
  }

  function ApplyCorrection(t: Tables, c: Correction): Result<Tables, RepairError> {
    var u := UsageQueryAt(t, c.usageQuery.id);
    if u.None? || u.value.session != Some(c.sessionId) then Err(ProviderTargetDisappeared)
    else if u.value.provider == c.provider then Ok(t)
    else if !UsageQueryMatches(CodexFix(NO_USAGE, None, 0), c.usageQuery, u.value) then Err(ProviderFingerprintChanged)
    else Ok(t.(usageQueries := t.usageQueries[c.usageQuery.id := Some(u.value.(provider := c.provider))]))
  }

  function ApplyCorrections(t: Tables, cs: seq<Correction>): Result<Tables, RepairError> {
    if cs == [] then Ok(t)
    else
      match ApplyCorrections(t, cs[..|cs| - 1])
      case Err(e) => Err(e)
      case Ok(t') => ApplyCorrection(t', cs[|cs| - 1])
  }

  /** Codex rebuilds all repaired columns; Claude repairs tokens only and rebuilds only those. */
  function RebuiltSession(codex: bool, before: SessionTotals, sum: SessionTotals): SessionTotals {
    if codex then sum else before.(usage := sum.usage)
  }

  function RebuildSessions(codex: bool, t: Tables, ids: set<string>): map<string, SessionTotals> {
    map id | id in t.sessions ::
      if id in ids then RebuiltSession(codex, t.sessions[id], SessionSum(t.queries, id)) else t.sessions[id]
  }

  predicate HasDate(cal: Calendar, rows: seq<Option<StoredUsageQuery>>, date: string) {
    exists i :: 0 <= i < |rows| && rows[i].Some? && cal(rows[i].value.timestamp) == Some(date)
  }

  /** A rebuilt date without rows loses its daily row. */
  function RebuildDates(cal: Calendar, t: Tables, dates: set<string>): map<string, DailyTotals> {
    map d | d in t.daily.Keys + dates && (d in dates ==> HasDate(cal, t.usageQueries, d)) ::
      if d in dates then DailySum(cal, t.usageQueries, d) else t.daily[d]
  }

  predicate RowVerified(t: Tables, p: Patch) {
    var q, u := QueryAt(t, p.query.id), UsageQueryAt(t, p.usageQuery.id);
    q.Some? && u.Some? && AlreadyCorrect(p, q.value, u.value)
  }

  predicate CorrectionVerified(t: Tables, c: Correction) {
    var u := UsageQueryAt(t, c.usageQuery.id);
    u.Some? && u.value.provider == c.provider
  }

  function Verify(t: Tables, m: Manifest): Result<Tables, RepairError> {
    if exists p :: p in m.rows && !RowVerified(t, p) then Err(VerificationFailed)
    else if exists c :: c in m.corrections && !CorrectionVerified(t, c) then Err(ProviderVerificationFailed)
    else Ok(t)
  }

  function Rebuild(cal: Calendar, codex: bool, t: Tables, sessions: set<string>, dates: set<string>): Tables {
    t.(sessions := RebuildSessions(codex, t, sessions), daily := RebuildDates(cal, t, dates))
  }

  function Apply(cal: Calendar, codex: bool, t: Tables, m: Manifest): Result<Tables, RepairError> {
    match ApplyRows(cal, Pending(t, {}, {}), m.rows)
    case Err(e) => Err(e)
    case Ok(s) =>
      match ApplyCorrections(s.tables, m.corrections)
      case Err(e) => Err(e)
      case Ok(t') => Verify(Rebuild(cal, codex, t', s.sessions, s.dates), m)
  }

  /** Rolled back on an error. */
  function Commit(cal: Calendar, codex: bool, t: Tables, m: Manifest): Tables {
    match Apply(cal, codex, t, m) case Ok(t') => t' case Err(_) => t
  }

  /** A Codex manifest holds Codex fixes; a Claude manifest holds Claude fixes and no corrections. */
  predicate ManifestFor(codex: bool, m: Manifest) {
    && (forall p :: p in m.rows ==> p.fix.CodexFix? == codex)
    && (!codex ==> m.corrections == [])
  }

  // ----- idempotence ----------------------------------------------------------------------------

  lemma {:induction false} VerifiedRowsAreSkipped(cal: Calendar, s: Pending, rows: seq<Patch>)
    requires forall p :: p in rows ==> RowVerified(s.tables, p)
    ensures ApplyRows(cal, s, rows) == Ok(s)
  {
    if rows != [] {
      assert rows == rows[..|rows| - 1] + [rows[|rows| - 1]];
      VerifiedRowsAreSkipped(cal, s, rows[..|rows| - 1]);
      assert RowVerified(s.tables, rows[|rows| - 1]);
    }
  }

  lemma {:induction false} VerifiedCorrectionsAreSkipped(t: Tables, cs: seq<Correction>)
    requires forall c :: c in cs ==> CorrectionVerified(t, c) && UsageQueryAt(t, c.usageQuery.id).value.session == Some(c.sessionId)
    ensures ApplyCorrections(t, cs) == Ok(t)
  {
    if cs != [] {
      assert cs == cs[..|cs| - 1] + [cs[|cs| - 1]];
      VerifiedCorrectionsAreSkipped(t, cs[..|cs| - 1]);
      assert CorrectionVerified(t, cs[|cs| - 1]);
    }
  }
}
