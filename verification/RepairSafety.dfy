/**
 What a usage repair guarantees: planned rows end corrected and nothing else changes, a second
 apply changes nothing, and session totals and daily rows stay the sums they cache.
 */
module RepairSafety {
  import opened Wrappers
  import opened Rollouts
  import opened UsageRows
  import opened RepairApply

  // ----- what the rows keep -----------------------------------------------------------------

  /** A repaired query keeps everything but its usage and its estimate. */
  predicate SameQuery(a: Option<StoredQuery>, b: Option<StoredQuery>) {
    a == b || (a.Some? && b.Some?
               && b.value == a.value.(usage := b.value.usage, estimatedCost := b.value.estimatedCost, costKnown := b.value.costKnown))
  }

  predicate SameUsageQuery(a: Option<StoredUsageQuery>, b: Option<StoredUsageQuery>) {
    a == b || (a.Some? && b.Some?
               && b.value == a.value.(usage := b.value.usage, estimatedCost := b.value.estimatedCost,
                                      costKnown := b.value.costKnown, unpriced := b.value.unpriced, provider := b.value.provider))
  }

  ghost predicate SameRows(t: Tables, t': Tables) {
    && |t.queries| == |t'.queries| && |t.usageQueries| == |t'.usageQueries|
    && (forall i :: 0 <= i < |t.queries| ==> SameQuery(t.queries[i], t'.queries[i]))
    && (forall i :: 0 <= i < |t.usageQueries| ==> SameUsageQuery(t.usageQueries[i], t'.usageQueries[i]))
  }

  ghost predicate NamesQuery(rows: seq<Patch>, id: nat) {
    exists p :: p in rows && p.query.id == id
  }

  ghost predicate NamesUsageQuery(rows: seq<Patch>, cs: seq<Correction>, id: nat) {
    (exists p :: p in rows && p.usageQuery.id == id) || (exists c :: c in cs && c.usageQuery.id == id)
  }

  /** Only rows the manifest names differ. */
  ghost predicate TouchesOnly(t: Tables, t': Tables, rows: seq<Patch>, cs: seq<Correction>) {
    && (forall id: nat :: !NamesQuery(rows, id) ==> QueryAt(t', id) == QueryAt(t, id))
    && (forall id: nat :: !NamesUsageQuery(rows, cs, id) ==> UsageQueryAt(t', id) == UsageQueryAt(t, id))
  }

  lemma SameRowsIsTransitive(a: Tables, b: Tables, c: Tables)
    requires SameRows(a, b) && SameRows(b, c)
    ensures SameRows(a, c)
  {
  }

  lemma WriteRowKeeps(t: Tables, p: Patch)
    requires QueryAt(t, p.query.id).Some? && UsageQueryAt(t, p.usageQuery.id).Some?
    ensures SameRows(t, WriteRow(t, p)) && TouchesOnly(t, WriteRow(t, p), [p], [])
  {
    assert p in [p];
  }

  lemma ApplyRowKeeps(cal: Calendar, s: Pending, p: Patch)
    requires ApplyRow(cal, s, p).Ok?
    ensures var t' := ApplyRow(cal, s, p).value.tables;
            && SameRows(s.tables, t') && TouchesOnly(s.tables, t', [p], [])
            && t'.sessions == s.tables.sessions && t'.daily == s.tables.daily
  {
    if ApplyRow(cal, s, p).value != s { WriteRowKeeps(s.tables, p); }
  }

  lemma {:induction false} ApplyRowsKeeps(cal: Calendar, s: Pending, rows: seq<Patch>)
    requires ApplyRows(cal, s, rows).Ok?
    ensures var t' := ApplyRows(cal, s, rows).value.tables;
            && SameRows(s.tables, t') && TouchesOnly(s.tables, t', rows, [])
            && t'.sessions == s.tables.sessions && t'.daily == s.tables.daily
  {
    if rows != [] {
      var init, last := rows[..|rows| - 1], rows[|rows| - 1];
      assert rows == init + [last];
      ApplyRowsKeeps(cal, s, init);
      var s1 := ApplyRows(cal, s, init).value;
      ApplyRowKeeps(cal, s1, last);
      var t' := ApplyRow(cal, s1, last).value.tables;
      SameRowsIsTransitive(s.tables, s1.tables, t');
      forall id: nat | !NamesQuery(rows, id) ensures !NamesQuery(init, id) && !NamesQuery([last], id) {}
      forall id: nat | !NamesUsageQuery(rows, [], id) ensures !NamesUsageQuery(init, [], id) && !NamesUsageQuery([last], [], id) {}
    }
  }

  lemma ApplyCorrectionKeeps(t: Tables, c: Correction)
    requires ApplyCorrection(t, c).Ok?
    ensures var t' := ApplyCorrection(t, c).value;
            && SameRows(t, t') && t'.queries == t.queries && t'.sessions == t.sessions && t'.daily == t.daily
            && (forall id: nat :: id != c.usageQuery.id ==> UsageQueryAt(t', id) == UsageQueryAt(t, id))
            && UsageQueryAt(t', c.usageQuery.id).Some? && UsageQueryAt(t', c.usageQuery.id).value.session == Some(c.sessionId)
  {
  }

  lemma {:induction false} ApplyCorrectionsKeeps(t: Tables, cs: seq<Correction>)
    requires ApplyCorrections(t, cs).Ok?
    ensures var t' := ApplyCorrections(t, cs).value;
            && SameRows(t, t') && t'.queries == t.queries && t'.sessions == t.sessions && t'.daily == t.daily
            && (forall id: nat :: !NamesUsageQuery([], cs, id) ==> UsageQueryAt(t', id) == UsageQueryAt(t, id))
            && (forall c :: c in cs ==> UsageQueryAt(t', c.usageQuery.id).Some?
                                        && UsageQueryAt(t', c.usageQuery.id).value.session == Some(c.sessionId))
  {
    if cs != [] {
      var init, last := cs[..|cs| - 1], cs[|cs| - 1];
      assert cs == init + [last];
      ApplyCorrectionsKeeps(t, init);
      var t1 := ApplyCorrections(t, init).value;
      ApplyCorrectionKeeps(t1, last);
      var t' := ApplyCorrection(t1, last).value;
      SameRowsIsTransitive(t, t1, t');
      assert last in cs;
      forall id: nat | !NamesUsageQuery([], cs, id) ensures !NamesUsageQuery([], init, id) && id != last.usageQuery.id {}
    }
  }

  // ----- the main results ---------------------------------------------------------------------

  /** A repair that commits leaves every planned row at its correction and every other row alone. */
  lemma RepairIsExact(cal: Calendar, codex: bool, t: Tables, m: Manifest, t': Tables)
    requires Apply(cal, codex, t, m) == Ok(t')
    ensures forall p :: p in m.rows ==> RowVerified(t', p)
    ensures forall c :: c in m.corrections ==> CorrectionVerified(t', c)
    ensures SameRows(t, t') && TouchesOnly(t, t', m.rows, m.corrections)
    ensures t'.sessions.Keys == t.sessions.Keys
  {
    ApplyRowsKeeps(cal, Pending(t, {}, {}), m.rows);
    var s := ApplyRows(cal, Pending(t, {}, {}), m.rows).value;
    ApplyCorrectionsKeeps(s.tables, m.corrections);
    var t1 := ApplyCorrections(s.tables, m.corrections).value;
    SameRowsIsTransitive(t, s.tables, t1);
    forall id: nat | !NamesUsageQuery(m.rows, m.corrections, id)
      ensures !NamesUsageQuery(m.rows, [], id) && !NamesUsageQuery([], m.corrections, id) {}
  }

  lemma SecondRebuildIsIdle(cal: Calendar, codex: bool, t: Tables)
    ensures Rebuild(cal, codex, t, {}, {}) == t
  {
    assert RebuildSessions(codex, t, {}) == t.sessions;
    assert RebuildDates(cal, t, {}) == t.daily;
  }

  /** Applying a manifest again changes nothing at all. */
  lemma SecondRepairIsIdle(cal: Calendar, codex: bool, t: Tables, m: Manifest, t': Tables)
    requires Apply(cal, codex, t, m) == Ok(t')
    ensures Apply(cal, codex, t', m) == Ok(t')
  {
    RepairIsExact(cal, codex, t, m, t');
    var s := ApplyRows(cal, Pending(t, {}, {}), m.rows).value;
    ApplyCorrectionsKeeps(s.tables, m.corrections);
    VerifiedRowsAreSkipped(cal, Pending(t', {}, {}), m.rows);
    forall c | c in m.corrections ensures UsageQueryAt(t', c.usageQuery.id).value.session == Some(c.sessionId) {
      assert CorrectionVerified(t', c);
    }
    VerifiedCorrectionsAreSkipped(t', m.corrections);
    SecondRebuildIsIdle(cal, codex, t');
  }

  // ----- aggregates -----------------------------------------------------------------------------

  function DailyOf(t: Tables, d: string): DailyTotals {
    if d in t.daily then t.daily[d] else NO_DAILY_TOTALS
  }

  /** Session totals and daily rows are the sums they cache. */
  ghost predicate Agree(cal: Calendar, t: Tables) {
    && (forall id :: id in t.sessions ==> t.sessions[id] == SessionSum(t.queries, id))
    && (forall d :: DailyOf(t, d) == DailySum(cal, t.usageQueries, d))
  }

  ghost predicate SessionsAgree(codex: bool, queries: seq<Option<StoredQuery>>, sessions: map<string, SessionTotals>, touched: set<string>) {
    forall id :: id in sessions ==>
      if id in touched then RebuiltSession(codex, sessions[id], SessionSum(queries, id)) == SessionSum(queries, id)
      else sessions[id] == SessionSum(queries, id)
  }

  ghost predicate DaysAgree(cal: Calendar, rows: seq<Option<StoredUsageQuery>>, t: Tables, touched: set<string>) {
    forall d :: d !in touched ==> DailyOf(t, d) == DailySum(cal, rows, d)
  }

  lemma {:induction false} OtherSessionsKeep(rows: seq<Option<StoredQuery>>, i: nat, q: StoredQuery, id: string)
    requires i < |rows| && rows[i].Some? && q.session == rows[i].value.session && id != q.session
    ensures SessionSum(rows[i := Some(q)], id) == SessionSum(rows, id)
  {
    var rows' := rows[i := Some(q)];
    if i < |rows| - 1 {
      assert rows'[..|rows| - 1] == rows[..|rows| - 1][i := Some(q)];
      OtherSessionsKeep(rows[..|rows| - 1], i, q, id);
    } else {
      assert rows'[..|rows| - 1] == rows[..|rows| - 1];
    }
  }

  /** A fix of the tokens leaves the other totals of every session alone. */
  lemma {:induction false} TokensOnly(rows: seq<Option<StoredQuery>>, i: nat, usage: Usage, id: string)
    requires i < |rows| && rows[i].Some?
    ensures SessionSum(rows[i := Some(rows[i].value.(usage := usage))], id).(usage := NO_USAGE) == SessionSum(rows, id).(usage := NO_USAGE)
  {
    var q := rows[i].value.(usage := usage);
    var rows' := rows[i := Some(q)];
    if i < |rows| - 1 {
      assert rows'[..|rows| - 1] == rows[..|rows| - 1][i := Some(q)];
      TokensOnly(rows[..|rows| - 1], i, usage, id);
    } else {
      assert rows'[..|rows| - 1] == rows[..|rows| - 1];
    }
  }

  lemma {:induction false} OtherDaysKeep(cal: Calendar, rows: seq<Option<StoredUsageQuery>>, i: nat, u: StoredUsageQuery, d: string)
    requires i < |rows| && rows[i].Some? && u.timestamp == rows[i].value.timestamp
    requires cal(u.timestamp) != Some(d) || DailyPart(u) == DailyPart(rows[i].value)
    ensures DailySum(cal, rows[i := Some(u)], d) == DailySum(cal, rows, d)
  {
    var rows' := rows[i := Some(u)];
    if i < |rows| - 1 {
      assert rows'[..|rows| - 1] == rows[..|rows| - 1][i := Some(u)];
      OtherDaysKeep(cal, rows[..|rows| - 1], i, u, d);
    } else {
      assert rows'[..|rows| - 1] == rows[..|rows| - 1];
    }
  }

  lemma WriteKeepsSessions(codex: bool, t: Tables, sessions: map<string, SessionTotals>, touched: set<string>, p: Patch)
    requires QueryAt(t, p.query.id).Some? && p.fix.CodexFix? == codex
    requires SessionsAgree(codex, t.queries, sessions, touched)
    requires t.queries[p.query.id].value.session == p.sessionId
    ensures SessionsAgree(codex, t.queries[p.query.id := Some(FixQuery(p, t.queries[p.query.id].value))], sessions, touched + {p.sessionId})
  {
    var q := FixQuery(p, t.queries[p.query.id].value);
    var rows' := t.queries[p.query.id := Some(q)];
    forall id | id in sessions
      ensures if id in touched + {p.sessionId} then RebuiltSession(codex, sessions[id], SessionSum(rows', id)) == SessionSum(rows', id)
              else sessions[id] == SessionSum(rows', id)
    {
      if id != p.sessionId {
        OtherSessionsKeep(t.queries, p.query.id, q, id);
      } else if !codex {
        TokensOnly(t.queries, p.query.id, p.fix.usage, id);
      }
    }
  }

  lemma WriteKeepsDays(cal: Calendar, t: Tables, touched: set<string>, p: Patch)
    requires QueryAt(t, p.query.id).Some? && UsageQueryAt(t, p.usageQuery.id).Some?
    requires DaysAgree(cal, t.usageQueries, t, touched)
    requires cal(t.usageQueries[p.usageQuery.id].value.timestamp) == cal(p.query.timestamp)
    ensures DaysAgree(cal, WriteRow(t, p).usageQueries, t, touched + DateOf(cal, p.query.timestamp))
  {
    var u := FixUsageQuery(p, t.usageQueries[p.usageQuery.id].value);
    forall d | d !in touched + DateOf(cal, p.query.timestamp)
      ensures DailySum(cal, WriteRow(t, p).usageQueries, d) == DailySum(cal, t.usageQueries, d)
    {
      OtherDaysKeep(cal, t.usageQueries, p.usageQuery.id, u, d);
    }
  }

  /** The manifest row speaks of one session and one date. Planned rows do. */
  predicate Coherent(cal: Calendar, p: Patch) {
    && cal(p.query.timestamp) == cal(p.usageQuery.timestamp)
    && (p.fix.ClaudeFix? ==> p.query.session == p.sessionId)
  }

  /** The stored query is in the session the row names: Claude checks the fingerprint, Codex the outcome. */
  predicate Names(t: Tables, p: Patch) {
    p.fix.CodexFix? ==> QueryAt(t, p.query.id).Some? && QueryAt(t, p.query.id).value.session == p.sessionId
  }

  lemma ApplyRowKeepsAggregates(cal: Calendar, codex: bool, s: Pending, p: Patch)
    requires ApplyRow(cal, s, p).Ok? && p.fix.CodexFix? == codex && Coherent(cal, p) && Names(s.tables, p)
    requires SessionsAgree(codex, s.tables.queries, s.tables.sessions, s.sessions)
    requires DaysAgree(cal, s.tables.usageQueries, s.tables, s.dates)
    ensures var s' := ApplyRow(cal, s, p).value;
            && SessionsAgree(codex, s'.tables.queries, s'.tables.sessions, s'.sessions)
            && DaysAgree(cal, s'.tables.usageQueries, s'.tables, s'.dates)
  {
    var s' := ApplyRow(cal, s, p).value;
    if s' != s {
      WriteKeepsSessions(codex, s.tables, s.tables.sessions, s.sessions, p);
      WriteKeepsDays(cal, s.tables, s.dates, p);
    }
  }

  lemma {:induction false} ApplyRowsKeepsAggregates(cal: Calendar, codex: bool, s: Pending, rows: seq<Patch>)
    requires ApplyRows(cal, s, rows).Ok?
    requires forall p :: p in rows ==> p.fix.CodexFix? == codex && Coherent(cal, p) && Names(s.tables, p)
    requires SessionsAgree(codex, s.tables.queries, s.tables.sessions, s.sessions)
    requires DaysAgree(cal, s.tables.usageQueries, s.tables, s.dates)
    ensures var s' := ApplyRows(cal, s, rows).value;
            && SessionsAgree(codex, s'.tables.queries, s'.tables.sessions, s'.sessions)
            && DaysAgree(cal, s'.tables.usageQueries, s'.tables, s'.dates)
  {
    if rows != [] {
      var init, last := rows[..|rows| - 1], rows[|rows| - 1];
      assert rows == init + [last];
      ApplyRowsKeepsAggregates(cal, codex, s, init);
      ApplyRowsKeeps(cal, s, init);
      assert last in rows;
      ApplyRowKeepsAggregates(cal, codex, ApplyRows(cal, s, init).value, last);
    }
  }

  lemma ApplyCorrectionKeepsDays(cal: Calendar, t: Tables, c: Correction, d: string)
    requires ApplyCorrection(t, c).Ok?
    ensures DailySum(cal, ApplyCorrection(t, c).value.usageQueries, d) == DailySum(cal, t.usageQueries, d)
  {
    if ApplyCorrection(t, c).value != t {
      var u := UsageQueryAt(t, c.usageQuery.id).value;
      OtherDaysKeep(cal, t.usageQueries, c.usageQuery.id, u.(provider := c.provider), d);
    }
  }

  lemma {:induction false} ApplyCorrectionsKeepsDays(cal: Calendar, t: Tables, cs: seq<Correction>, d: string)
    requires ApplyCorrections(t, cs).Ok?
    ensures DailySum(cal, ApplyCorrections(t, cs).value.usageQueries, d) == DailySum(cal, t.usageQueries, d)
  {
    if cs != [] {
      ApplyCorrectionsKeepsDays(cal, t, cs[..|cs| - 1], d);
      ApplyCorrectionKeepsDays(cal, ApplyCorrections(t, cs[..|cs| - 1]).value, cs[|cs| - 1], d);
    }
  }

  lemma {:induction false} NoRowsNoSum(cal: Calendar, rows: seq<Option<StoredUsageQuery>>, d: string)
    requires !HasDate(cal, rows, d)
    ensures DailySum(cal, rows, d) == NO_DAILY_TOTALS
  {
    if rows != [] {
      assert !HasDate(cal, rows[..|rows| - 1], d) by {
        forall i | 0 <= i < |rows| - 1 && rows[i].Some? ensures cal(rows[..|rows| - 1][i].value.timestamp) != Some(d) {
          assert rows[i] == rows[..|rows| - 1][i];
        }
      }
      NoRowsNoSum(cal, rows[..|rows| - 1], d);
    }
  }

  lemma RebuildAgrees(cal: Calendar, codex: bool, t: Tables, sessions: set<string>, dates: set<string>)
    requires SessionsAgree(codex, t.queries, t.sessions, sessions) && DaysAgree(cal, t.usageQueries, t, dates)
    ensures Agree(cal, Rebuild(cal, codex, t, sessions, dates))
  {
    forall d | d in dates && !HasDate(cal, t.usageQueries, d) ensures DailySum(cal, t.usageQueries, d) == NO_DAILY_TOTALS {
      NoRowsNoSum(cal, t.usageQueries, d);
    }
  }

  /** A repair keeps session totals and daily rows equal to the sums they cache, provided each
      manifest row speaks of one date, and for Claude of one session. */
  lemma RepairKeepsAggregates(cal: Calendar, codex: bool, t: Tables, m: Manifest)
    requires Agree(cal, t) && ManifestFor(codex, m)
    requires forall p :: p in m.rows ==> Coherent(cal, p)
    ensures Agree(cal, Commit(cal, codex, t, m))
  {
    if Apply(cal, codex, t, m).Ok? {
      var t' := Apply(cal, codex, t, m).value;
      RepairIsExact(cal, codex, t, m, t');
      forall p | p in m.rows ensures Names(t, p) {
        assert RowVerified(t', p);
        assert SameQuery(t.queries[p.query.id], t'.queries[p.query.id]);
      }
      var start := Pending(t, {}, {});
      ApplyRowsKeepsAggregates(cal, codex, start, m.rows);
      var s := ApplyRows(cal, start, m.rows).value;
      ApplyCorrectionsKeeps(s.tables, m.corrections);
      var t1 := ApplyCorrections(s.tables, m.corrections).value;
      forall d ensures DailySum(cal, t1.usageQueries, d) == DailySum(cal, s.tables.usageQueries, d) {
        ApplyCorrectionsKeepsDays(cal, s.tables, m.corrections, d);
      }
      RebuildAgrees(cal, codex, t1, s.sessions, s.dates);
    }
  }
}
