/**
 What a repair manifest does to the rows it names, said without the code that applies it: when it commits,
 what it leaves in each named row, and what the rebuilt totals add up to.
 */
module RepairOutcome {
  import opened Wrappers
  import opened Rollouts
  import opened Sums
  import opened UsageRows
  import opened RepairApply
  import opened RepairSafety

  // ----- one row ------------------------------------------------------------------------------

  /** Both absent, or within a billionth of each other. */
  predicate SameAmount(a: Option<real>, b: Option<real>) {
    && (a.None? <==> b.None?)
    && (a.Some? ==> a.value < b.value + 0.000000001 && b.value < a.value + 0.000000001)
  }

  /** The query's cost was known when the repair was planned, or is estimated by it. */
  function CostKnown(p: Patch, estimate: Option<real>): int {
    if p.query.costKnown != 1 && p.query.cost == 0.0 && estimate == None then 0 else 1
  }

  /** Both stored rows show the correction. */
  predicate Corrected(p: Patch, q: StoredQuery, u: StoredUsageQuery) {
    match p.fix
    case ClaudeFix(usage) => q.usage == usage && u.usage == usage
    case CodexFix(usage, estimate, unpriced) =>
      && q.usage == usage && SameAmount(q.estimatedCost, estimate) && q.costKnown == CostKnown(p, estimate)
      && u.usage == usage && SameAmount(u.estimatedCost, estimate) && u.costKnown == CostKnown(p, estimate)
      && u.unpriced == unpriced && u.provider == "codex"
      && q.session == p.sessionId && u.session == Some(p.sessionId)
  }

  /** Nothing was written to the row since the repair was planned. */
  predicate Intact(p: Patch, q: StoredQuery, u: StoredUsageQuery) {
    && q == p.query.(estimatedCost := q.estimatedCost)
    && u == p.usageQuery.(estimatedCost := u.estimatedCost)
    && if p.fix.ClaudeFix? then q == p.query && u == p.usageQuery
       else SameAmount(q.estimatedCost, p.query.estimatedCost) && SameAmount(u.estimatedCost, p.usageQuery.estimatedCost)
  }

  /** What the row holds afterwards. */
  predicate LeavesQuery(p: Patch, q: StoredQuery, q': StoredQuery) {
    match p.fix
    case ClaudeFix(usage) => q' == q.(usage := usage)
    case CodexFix(usage, estimate, _) => q' == q.(usage := usage, estimatedCost := estimate, costKnown := CostKnown(p, estimate))
  }

  predicate LeavesUsageQuery(p: Patch, u: StoredUsageQuery, u': StoredUsageQuery) {
    match p.fix
    case ClaudeFix(usage) => u' == u.(usage := usage)
    case CodexFix(usage, estimate, unpriced) =>
      u' == u.(usage := usage, estimatedCost := estimate, costKnown := CostKnown(p, estimate), unpriced := unpriced, provider := "codex")
  }

  lemma CorrectedIs(p: Patch, q: StoredQuery, u: StoredUsageQuery)
    ensures AlreadyCorrect(p, q, u) <==> Corrected(p, q, u)
  {
  }

  lemma IntactIs(p: Patch, q: StoredQuery, u: StoredUsageQuery)
    ensures QueryMatches(p, q) && UsageQueryMatches(p.fix, p.usageQuery, u) <==> Intact(p, q, u)
  {
    assert q == q.(estimatedCost := None).(estimatedCost := q.estimatedCost);
    assert u == u.(estimatedCost := None).(estimatedCost := u.estimatedCost);
  }

  /** The row is there, and already shows the correction or is intact and in the session the repair names. */
  predicate RowCommits(t: Tables, p: Patch) {
    && p.query.id < |t.queries| && t.queries[p.query.id].Some? && p.usageQuery.id < |t.usageQueries| && t.usageQueries[p.usageQuery.id].Some?
    && var q, u := t.queries[p.query.id].value, t.usageQueries[p.usageQuery.id].value;
       Corrected(p, q, u) || (Intact(p, q, u) && (p.fix.CodexFix? ==> p.query.session == p.sessionId && p.usageQuery.session == Some(p.sessionId)))
  }

  predicate CorrectionCommits(t: Tables, c: Correction) {
    && c.usageQuery.id < |t.usageQueries| && t.usageQueries[c.usageQuery.id].Some?
    && var u := t.usageQueries[c.usageQuery.id].value;
       && u.session == Some(c.sessionId)
       && (u.provider == c.provider
           || (u == c.usageQuery.(estimatedCost := u.estimatedCost) && SameAmount(u.estimatedCost, c.usageQuery.estimatedCost)))
  }

  /** The manifest names every row once. */
  ghost predicate NamesOnce(m: Manifest) {
    && (forall i, j :: 0 <= i < j < |m.rows| ==> m.rows[i].query.id != m.rows[j].query.id && m.rows[i].usageQuery.id != m.rows[j].usageQuery.id)
    && (forall i, j :: 0 <= i < j < |m.corrections| ==> m.corrections[i].usageQuery.id != m.corrections[j].usageQuery.id)
    && (forall p, c :: p in m.rows && c in m.corrections ==> p.usageQuery.id != c.usageQuery.id)
  }

  // ----- the rows in turn ---------------------------------------------------------------------

  predicate RowApplies(t: Tables, p: Patch) {
    var q, u := QueryAt(t, p.query.id), UsageQueryAt(t, p.usageQuery.id);
    q.Some? && u.Some? && (Corrected(p, q.value, u.value) || Intact(p, q.value, u.value))
  }

  /** A corrected row is left alone, any other gets its correction. */
  predicate RowOutcome(t: Tables, t': Tables, p: Patch) {
    var q, u, q', u' := QueryAt(t, p.query.id), UsageQueryAt(t, p.usageQuery.id), QueryAt(t', p.query.id), UsageQueryAt(t', p.usageQuery.id);
    && q.Some? && u.Some? && q'.Some? && u'.Some?
    && if Corrected(p, q.value, u.value) then q' == q && u' == u
       else LeavesQuery(p, q.value, q'.value) && LeavesUsageQuery(p, u.value, u'.value)
  }

  ghost predicate RowsOnce(rows: seq<Patch>) {
    forall i, j :: 0 <= i < j < |rows| ==> rows[i].query.id != rows[j].query.id && rows[i].usageQuery.id != rows[j].usageQuery.id
  }

  lemma ApplyRowOutcome(cal: Calendar, s: Pending, p: Patch)
    ensures ApplyRow(cal, s, p).Ok? <==> RowApplies(s.tables, p)
    ensures ApplyRow(cal, s, p).Ok? ==> RowOutcome(s.tables, ApplyRow(cal, s, p).value.tables, p)
  {
    var q, u := QueryAt(s.tables, p.query.id), UsageQueryAt(s.tables, p.usageQuery.id);
    if q.Some? && u.Some? {
      CorrectedIs(p, q.value, u.value);
      IntactIs(p, q.value, u.value);
    }
  }

  lemma OtherRowsKeepOutcome(t: Tables, t1: Tables, t': Tables, p: Patch, last: Patch)
    requires RowOutcome(t, t1, p) && TouchesOnly(t1, t', [last], [])
    requires p.query.id != last.query.id && p.usageQuery.id != last.usageQuery.id
    ensures RowOutcome(t, t', p)
  {
    assert !NamesQuery([last], p.query.id) && !NamesUsageQuery([last], [], p.usageQuery.id);
  }

  ghost predicate AllApply(t: Tables, rows: seq<Patch>) {
    forall p :: p in rows ==> RowApplies(t, p)
  }

  ghost predicate RowsDone(t: Tables, t': Tables, rows: seq<Patch>) {
    forall p :: p in rows ==> RowOutcome(t, t', p)
  }

  lemma LastRowOutcome(cal: Calendar, t: Tables, s1: Pending, init: seq<Patch>, last: Patch)
    requires RowsOnce(init + [last]) && RowsDone(t, s1.tables, init) && TouchesOnly(t, s1.tables, init, [])
    ensures ApplyRow(cal, s1, last).Ok? <==> RowApplies(t, last)
    ensures ApplyRow(cal, s1, last).Ok? ==> RowsDone(t, ApplyRow(cal, s1, last).value.tables, init + [last])
  {
    var rows := init + [last];
    forall p | p in init ensures p.query.id != last.query.id && p.usageQuery.id != last.usageQuery.id {
      var i :| 0 <= i < |init| && init[i] == p;
      assert rows[i] == p && rows[|init|] == last;
    }
    assert !NamesQuery(init, last.query.id) && !NamesUsageQuery(init, [], last.usageQuery.id);
    ApplyRowOutcome(cal, s1, last);
    if ApplyRow(cal, s1, last).Ok? {
      ApplyRowKeeps(cal, s1, last);
      forall p | p in init ensures RowOutcome(t, ApplyRow(cal, s1, last).value.tables, p) {
        OtherRowsKeepOutcome(t, s1.tables, ApplyRow(cal, s1, last).value.tables, p, last);
      }
    }
  }

  lemma AllApplySplits(t: Tables, init: seq<Patch>, last: Patch)
    ensures AllApply(t, init + [last]) <==> AllApply(t, init) && RowApplies(t, last)
  {
    assert last in init + [last];
    assert forall p :: p in init ==> p in init + [last];
  }

  lemma {:induction false} ApplyRowsOutcome(cal: Calendar, s: Pending, rows: seq<Patch>)
    requires RowsOnce(rows)
    ensures ApplyRows(cal, s, rows).Ok? <==> AllApply(s.tables, rows)
    ensures ApplyRows(cal, s, rows).Ok? ==> RowsDone(s.tables, ApplyRows(cal, s, rows).value.tables, rows)
  {
    if rows != [] {
      var init, last := rows[..|rows| - 1], rows[|rows| - 1];
      assert rows == init + [last];
      ApplyRowsOutcome(cal, s, init);
      AllApplySplits(s.tables, init, last);
      if ApplyRows(cal, s, init).Ok? {
        ApplyRowsKeeps(cal, s, init);
        LastRowOutcome(cal, s.tables, ApplyRows(cal, s, init).value, init, last);
      }
    }
  }

  predicate CorrectionOutcome(t: Tables, t': Tables, c: Correction) {
    var u, u' := UsageQueryAt(t, c.usageQuery.id), UsageQueryAt(t', c.usageQuery.id);
    u.Some? && u' == Some(u.value.(provider := c.provider))
  }

  ghost predicate CorrectionsOnce(cs: seq<Correction>) {
    forall i, j :: 0 <= i < j < |cs| ==> cs[i].usageQuery.id != cs[j].usageQuery.id
  }

  lemma ApplyCorrectionOutcome(t: Tables, c: Correction)
    ensures ApplyCorrection(t, c).Ok? <==> CorrectionCommits(t, c)
    ensures ApplyCorrection(t, c).Ok? ==> CorrectionOutcome(t, ApplyCorrection(t, c).value, c)
  {
    var u := UsageQueryAt(t, c.usageQuery.id);
    if u.Some? {
      assert u.value == u.value.(estimatedCost := None).(estimatedCost := u.value.estimatedCost);
      assert u.value.(provider := u.value.provider) == u.value;
    }
  }

  ghost predicate AllCorrect(t: Tables, cs: seq<Correction>) {
    forall c :: c in cs ==> CorrectionCommits(t, c)
  }

  ghost predicate CorrectionsDone(t: Tables, t': Tables, cs: seq<Correction>) {
    forall c :: c in cs ==> CorrectionOutcome(t, t', c)
  }

  lemma LastCorrectionOutcome(t: Tables, t1: Tables, init: seq<Correction>, last: Correction)
    requires CorrectionsOnce(init + [last]) && CorrectionsDone(t, t1, init)
    requires forall id: nat :: !NamesUsageQuery([], init, id) ==> UsageQueryAt(t1, id) == UsageQueryAt(t, id)
    ensures ApplyCorrection(t1, last).Ok? <==> CorrectionCommits(t, last)
    ensures ApplyCorrection(t1, last).Ok? ==> CorrectionsDone(t, ApplyCorrection(t1, last).value, init + [last])
  {
    var cs := init + [last];
    forall c | c in init ensures c.usageQuery.id != last.usageQuery.id {
      var i :| 0 <= i < |init| && init[i] == c;
      assert cs[i] == c && cs[|init|] == last;
    }
    assert !NamesUsageQuery([], init, last.usageQuery.id);
    ApplyCorrectionOutcome(t1, last);
    if ApplyCorrection(t1, last).Ok? { ApplyCorrectionKeeps(t1, last); }
  }

  lemma AllCorrectSplits(t: Tables, init: seq<Correction>, last: Correction)
    ensures AllCorrect(t, init + [last]) <==> AllCorrect(t, init) && CorrectionCommits(t, last)
  {
    assert last in init + [last];
    assert forall c :: c in init ==> c in init + [last];
  }

  lemma {:induction false} ApplyCorrectionsOutcome(t: Tables, cs: seq<Correction>)
    requires CorrectionsOnce(cs)
    ensures ApplyCorrections(t, cs).Ok? <==> AllCorrect(t, cs)
    ensures ApplyCorrections(t, cs).Ok? ==> CorrectionsDone(t, ApplyCorrections(t, cs).value, cs)
  {
    if cs != [] {
      var init, last := cs[..|cs| - 1], cs[|cs| - 1];
      assert cs == init + [last];
      ApplyCorrectionsOutcome(t, init);
      AllCorrectSplits(t, init, last);
      if ApplyCorrections(t, init).Ok? {
        ApplyCorrectionsKeeps(t, init);
        LastCorrectionOutcome(t, ApplyCorrections(t, init).value, init, last);
      }
    }
  }

  // ----- the whole repair -----------------------------------------------------------------------

  /** A row that was applied passes the verification exactly if it was corrected before or is in the named session. */
  lemma OutcomeIsVerified(t: Tables, t': Tables, p: Patch)
    requires RowApplies(t, p) && RowOutcome(t, t', p)
    ensures RowVerified(t', p) <==> RowCommits(t, p)
  {
    CorrectedIs(p, QueryAt(t', p.query.id).value, UsageQueryAt(t', p.usageQuery.id).value);
  }

  lemma CorrectionsKeepRows(m: Manifest, t1: Tables, t2: Tables, p: Patch)
    requires NamesOnce(m) && p in m.rows && ApplyCorrections(t1, m.corrections) == Ok(t2)
    ensures QueryAt(t2, p.query.id) == QueryAt(t1, p.query.id) && UsageQueryAt(t2, p.usageQuery.id) == UsageQueryAt(t1, p.usageQuery.id)
  {
    ApplyCorrectionsKeeps(t1, m.corrections);
    assert !NamesUsageQuery([], m.corrections, p.usageQuery.id);
  }

  lemma RowsKeepCorrections(cal: Calendar, m: Manifest, s: Pending, s1: Pending, c: Correction)
    requires NamesOnce(m) && c in m.corrections && ApplyRows(cal, s, m.rows) == Ok(s1)
    ensures UsageQueryAt(s1.tables, c.usageQuery.id) == UsageQueryAt(s.tables, c.usageQuery.id)
    ensures CorrectionCommits(s1.tables, c) <==> CorrectionCommits(s.tables, c)
  {
    ApplyRowsKeeps(cal, s, m.rows);
    assert !NamesUsageQuery(m.rows, [], c.usageQuery.id);
  }

  ghost predicate AllCommit(t: Tables, m: Manifest) {
    (forall p :: p in m.rows ==> RowCommits(t, p)) && AllCorrect(t, m.corrections)
  }

  /** Every named row ends with its outcome. */
  ghost predicate AllDone(t: Tables, t': Tables, m: Manifest) {
    RowsDone(t, t', m.rows) && CorrectionsDone(t, t', m.corrections)
  }

  lemma ChecksHold(cal: Calendar, t: Tables, m: Manifest, s1: Pending, t2: Tables, t': Tables)
    requires NamesOnce(m) && ApplyRows(cal, Pending(t, {}, {}), m.rows) == Ok(s1) && ApplyCorrections(s1.tables, m.corrections) == Ok(t2)
    requires t'.queries == t2.queries && t'.usageQueries == t2.usageQueries
    ensures AllDone(t, t', m) && (forall p :: p in m.rows ==> (RowVerified(t', p) <==> RowCommits(t, p)))
    ensures (forall c :: c in m.corrections ==> CorrectionVerified(t', c) && CorrectionCommits(t, c))
  {
    ApplyRowsOutcome(cal, Pending(t, {}, {}), m.rows);
    ApplyCorrectionsOutcome(s1.tables, m.corrections);
    forall p | p in m.rows ensures RowOutcome(t, t', p) && (RowVerified(t', p) <==> RowCommits(t, p)) {
      CorrectionsKeepRows(m, s1.tables, t2, p);
      OutcomeIsVerified(t, t', p);
    }
    forall c | c in m.corrections ensures CorrectionOutcome(t, t', c) && CorrectionVerified(t', c) && CorrectionCommits(t, c) {
      RowsKeepCorrections(cal, m, Pending(t, {}, {}), s1, c);
    }
  }

  lemma VerifiedExactly(t: Tables, m: Manifest)
    ensures Verify(t, m).Ok? <==> (forall p :: p in m.rows ==> RowVerified(t, p)) && (forall c :: c in m.corrections ==> CorrectionVerified(t, c))
    ensures Verify(t, m).Ok? ==> Verify(t, m).value == t
  {
  }

  /** A repair commits exactly if each row it names is there and either shows its correction already or is intact and
      in the session it names; then each of these rows holds exactly its correction. */
  lemma RepairCommitsExactly(cal: Calendar, codex: bool, t: Tables, m: Manifest)
    requires NamesOnce(m)
    ensures Apply(cal, codex, t, m).Ok? <==> AllCommit(t, m)
    ensures Apply(cal, codex, t, m).Ok? ==> AllDone(t, Apply(cal, codex, t, m).value, m)
  {
    var start := Pending(t, {}, {});
    ApplyRowsOutcome(cal, start, m.rows);
    if ApplyRows(cal, start, m.rows).Ok? {
      var s1 := ApplyRows(cal, start, m.rows).value;
      ApplyCorrectionsOutcome(s1.tables, m.corrections);
      forall c | c in m.corrections ensures CorrectionCommits(s1.tables, c) <==> CorrectionCommits(t, c) {
        RowsKeepCorrections(cal, m, start, s1, c);
      }
      if ApplyCorrections(s1.tables, m.corrections).Ok? {
        var t2 := ApplyCorrections(s1.tables, m.corrections).value;
        var t' := Rebuild(cal, codex, t2, s1.sessions, s1.dates);
        ChecksHold(cal, t, m, s1, t2, t');
        VerifiedExactly(t', m);
      }
    }
  }

  /** However often the manifest names a row, every row it names shows the correction after a commit. */
  lemma CommittedRowsAreCorrected(cal: Calendar, codex: bool, t: Tables, m: Manifest, t': Tables, p: Patch)
    requires Apply(cal, codex, t, m) == Ok(t') && p in m.rows
    ensures p.query.id < |t'.queries| && t'.queries[p.query.id].Some? && p.usageQuery.id < |t'.usageQueries| && t'.usageQueries[p.usageQuery.id].Some?
    ensures Corrected(p, t'.queries[p.query.id].value, t'.usageQueries[p.usageQuery.id].value)
  {
    RepairIsExact(cal, codex, t, m, t');
    assert RowVerified(t', p);
    CorrectedIs(p, t'.queries[p.query.id].value, t'.usageQueries[p.usageQuery.id].value);
  }

  // ----- what the totals add up to ----------------------------------------------------------------

  predicate OfSession(row: Option<StoredQuery>, id: string) {
    row.Some? && row.value.session == id
  }

  predicate OfDate(cal: Calendar, row: Option<StoredUsageQuery>, d: string) {
    row.Some? && cal(row.value.timestamp) == Some(d)
  }

  predicate IsUnpriced(row: Option<StoredQuery>, id: string) {
    OfSession(row, id) && row.value.estimatedCost == None && row.value.costKnown == 0
  }

  predicate HasEstimate(row: Option<StoredQuery>, id: string) {
    OfSession(row, id) && row.value.estimatedCost.Some?
  }

  predicate HasDailyEstimate(cal: Calendar, row: Option<StoredUsageQuery>, d: string) {
    OfDate(cal, row, d) && row.value.estimatedCost.Some?
  }

  function QueryTokens(row: Option<StoredQuery>, b: Bucket): nat {
    if row.Some? then row.value.usage.In(b) else 0
  }

  function LedgerTokens(row: Option<StoredUsageQuery>, b: Bucket): nat {
    if row.Some? then row.value.usage.In(b) else 0
  }

  function LedgerTurns(row: Option<StoredUsageQuery>): nat {
    if row.Some? then row.value.turns else 0
  }

  function LedgerCost(row: Option<StoredUsageQuery>): real {
    if row.Some? then row.value.cost else 0.0
  }

  function QueryEstimate(row: Option<StoredQuery>): real {
    if row.Some? then row.value.estimatedCost.GetOr(0.0) else 0.0
  }

  function LedgerEstimate(row: Option<StoredUsageQuery>): real {
    if row.Some? then row.value.estimatedCost.GetOr(0.0) else 0.0
  }

  /** A session's tokens are the sum over its queries; unpriced are those without estimate and known cost. */
  lemma {:induction false} SessionSumAddsUp(rows: seq<Option<StoredQuery>>, id: string, b: Bucket)
    ensures SessionSum(rows, id).usage.In(b) == Total(Picked(rows, r => OfSession(r, id), r => QueryTokens(r, b)))
    ensures SessionSum(rows, id).unpriced == Total(Picked(rows, r => IsUnpriced(r, id), _ => 1))
  {
    if rows != [] {
      SessionSumAddsUp(rows[..|rows| - 1], id, b);
      PickedLast(rows, r => OfSession(r, id), r => QueryTokens(r, b));
      PickedLast(rows, r => IsUnpriced(r, id), _ => 1);
    }
  }

  /** A session's estimate is the sum over its queries that have one. */
  lemma {:induction false} SessionEstimatesAddUp(rows: seq<Option<StoredQuery>>, id: string)
    ensures SessionSum(rows, id).estimated == RealTotal(PickedAmounts(rows, r => HasEstimate(r, id), r => QueryEstimate(r)))
  {
    if rows != [] {
      SessionEstimatesAddUp(rows[..|rows| - 1], id);
      PickedAmountsLast(rows, r => HasEstimate(r, id), r => QueryEstimate(r));
    }
  }

  /** A day's tokens, queries and turns are the sums over its ledger rows. */
  lemma {:induction false} DailySumAddsUp(cal: Calendar, rows: seq<Option<StoredUsageQuery>>, d: string, b: Bucket)
    ensures DailySum(cal, rows, d).usage.In(b) == Total(Picked(rows, r => OfDate(cal, r, d), r => LedgerTokens(r, b)))
    ensures DailySum(cal, rows, d).turns == Total(Picked(rows, r => OfDate(cal, r, d), r => LedgerTurns(r)))
    ensures DailySum(cal, rows, d).queries == Total(Picked(rows, r => OfDate(cal, r, d), _ => 1))
  {
    if rows != [] {
      DailySumAddsUp(cal, rows[..|rows| - 1], d, b);
      PickedLast(rows, r => OfDate(cal, r, d), r => LedgerTokens(r, b));
      PickedLast(rows, r => OfDate(cal, r, d), r => LedgerTurns(r));
      PickedLast(rows, r => OfDate(cal, r, d), _ => 1);
    }
  }

  /** A day's cost and estimate are the sums over its ledger rows. */
  lemma {:induction false} DailyCostsAddUp(cal: Calendar, rows: seq<Option<StoredUsageQuery>>, d: string)
    ensures DailySum(cal, rows, d).cost == RealTotal(PickedAmounts(rows, r => OfDate(cal, r, d), r => LedgerCost(r)))
    ensures DailySum(cal, rows, d).estimated == RealTotal(PickedAmounts(rows, r => HasDailyEstimate(cal, r, d), r => LedgerEstimate(r)))
  {
    if rows != [] {
      DailyCostsAddUp(cal, rows[..|rows| - 1], d);
      PickedAmountsLast(rows, r => OfDate(cal, r, d), r => LedgerCost(r));
      PickedAmountsLast(rows, r => HasDailyEstimate(cal, r, d), r => LedgerEstimate(r));
    }
  }
}
