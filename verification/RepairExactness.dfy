/**
 Which repair rows keep the cached aggregates whatever the database holds: exactly those whose
 correction reaches only the session and the date that the repair rebuilds.
 */
module RepairExactness {
  import opened Wrappers
  import opened Rollouts
  import opened UsageRows
  import opened RepairApply
  import opened RepairSafety

  function OneRow(p: Patch): Manifest {
    Manifest([p], [])
  }

  /** The row passes its fingerprint check, is corrected, and passes the verification. */
  predicate Writes(p: Patch, q: StoredQuery, u: StoredUsageQuery) {
    && QueryMatches(p, q) && UsageQueryMatches(p.fix, p.usageQuery, u)
    && !AlreadyCorrect(p, q, u) && AlreadyCorrect(p, FixQuery(p, q), FixUsageQuery(p, u))
  }

  /** The query's session is the one the row rebuilds, and the ledger row's date is the one it rebuilds;
      unless what is summed there stays the same. */
  predicate Settled(cal: Calendar, p: Patch, q: StoredQuery, u: StoredUsageQuery) {
    && (q.session == p.sessionId || SessionPart(FixQuery(p, q)) == SessionPart(q))
    && (cal(u.timestamp) == cal(q.timestamp) || cal(u.timestamp).None? || DailyPart(FixUsageQuery(p, u)) == DailyPart(u))
  }

  /** For every pair of stored rows that the repair row would correct. */
  ghost predicate AlwaysSettled(cal: Calendar, p: Patch) {
    forall q, u :: Writes(p, q, u) ==> Settled(cal, p, q, u)
  }

  ghost predicate KeepsAggregates(cal: Calendar, p: Patch) {
    forall t :: Agree(cal, t) ==> Agree(cal, Commit(cal, p.fix.CodexFix?, t, OneRow(p)))
  }

  // ----- one row applied --------------------------------------------------------------------

  /** The tables after the row was written and the aggregates rebuilt. */
  function Written(cal: Calendar, t: Tables, p: Patch): Tables
    requires QueryAt(t, p.query.id).Some? && UsageQueryAt(t, p.usageQuery.id).Some?
  {
    Rebuild(cal, p.fix.CodexFix?, WriteRow(t, p), {p.sessionId}, DateOf(cal, p.query.timestamp))
  }

  lemma OneRowApplies(cal: Calendar, s: Pending, p: Patch)
    ensures ApplyRows(cal, s, [p]) == ApplyRow(cal, s, p)
  {
    assert [p][..0] == [];
  }

  lemma UnwrittenRowCommits(cal: Calendar, t: Tables, p: Patch)
    requires var q, u := QueryAt(t, p.query.id), UsageQueryAt(t, p.usageQuery.id);
             q.None? || u.None? || !Writes(p, q.value, u.value)
    ensures Commit(cal, p.fix.CodexFix?, t, OneRow(p)) == t
  {
    var start := Pending(t, {}, {});
    OneRowApplies(cal, start, p);
    SecondRebuildIsIdle(cal, p.fix.CodexFix?, t);
    if ApplyRow(cal, start, p).Ok? && ApplyRow(cal, start, p).value != start {
      var t' := Written(cal, t, p);
      assert ApplyRow(cal, start, p).value == Pending(WriteRow(t, p), {} + {p.sessionId}, {} + DateOf(cal, p.query.timestamp));
      assert {} + {p.sessionId} == {p.sessionId} && {} + DateOf(cal, p.query.timestamp) == DateOf(cal, p.query.timestamp);
      assert !RowVerified(t', p);
      assert p in OneRow(p).rows;
    }
  }

  lemma WrittenRowCommits(cal: Calendar, t: Tables, p: Patch)
    requires QueryAt(t, p.query.id).Some? && UsageQueryAt(t, p.usageQuery.id).Some?
    requires Writes(p, QueryAt(t, p.query.id).value, UsageQueryAt(t, p.usageQuery.id).value)
    ensures Commit(cal, p.fix.CodexFix?, t, OneRow(p)) == Written(cal, t, p)
  {
    var start := Pending(t, {}, {});
    OneRowApplies(cal, start, p);
    assert ApplyRow(cal, start, p).value == Pending(WriteRow(t, p), {} + {p.sessionId}, {} + DateOf(cal, p.query.timestamp));
    assert {} + {p.sessionId} == {p.sessionId} && {} + DateOf(cal, p.query.timestamp) == DateOf(cal, p.query.timestamp);
    assert RowVerified(Written(cal, t, p), p);
  }

  // ----- settled rows are safe ----------------------------------------------------------------

  lemma {:induction false} SamePartKeepsSums(rows: seq<Option<StoredQuery>>, i: nat, q: StoredQuery, id: string)
    requires i < |rows| && rows[i].Some? && q.session == rows[i].value.session && SessionPart(q) == SessionPart(rows[i].value)
    ensures SessionSum(rows[i := Some(q)], id) == SessionSum(rows, id)
  {
    var rows' := rows[i := Some(q)];
    if i < |rows| - 1 {
      assert rows'[..|rows| - 1] == rows[..|rows| - 1][i := Some(q)];
      SamePartKeepsSums(rows[..|rows| - 1], i, q, id);
    } else {
      assert rows'[..|rows| - 1] == rows[..|rows| - 1];
    }
  }

  lemma SettledSession(t: Tables, p: Patch, q: StoredQuery, id: string)
    requires QueryAt(t, p.query.id) == Some(q) && (q.session == p.sessionId || SessionPart(FixQuery(p, q)) == SessionPart(q))
    requires id in t.sessions && t.sessions[id] == SessionSum(t.queries, id)
    ensures var sum := SessionSum(t.queries[p.query.id := Some(FixQuery(p, q))], id);
            if id == p.sessionId then RebuiltSession(p.fix.CodexFix?, t.sessions[id], sum) == sum else t.sessions[id] == sum
  {
    if SessionPart(FixQuery(p, q)) == SessionPart(q) {
      SamePartKeepsSums(t.queries, p.query.id, FixQuery(p, q), id);
    } else if id != p.sessionId {
      OtherSessionsKeep(t.queries, p.query.id, FixQuery(p, q), id);
    } else if p.fix.ClaudeFix? {
      TokensOnly(t.queries, p.query.id, p.fix.usage, id);
    }
  }

  lemma SettledRowKeepsAggregates(cal: Calendar, t: Tables, p: Patch, q: StoredQuery, u: StoredUsageQuery)
    requires Agree(cal, t) && QueryAt(t, p.query.id) == Some(q) && UsageQueryAt(t, p.usageQuery.id) == Some(u)
    requires Writes(p, q, u) && Settled(cal, p, q, u)
    ensures Agree(cal, Written(cal, t, p))
  {
    var t1 := WriteRow(t, p);
    forall id | id in t.sessions
      ensures if id in {p.sessionId} then RebuiltSession(p.fix.CodexFix?, t.sessions[id], SessionSum(t1.queries, id)) == SessionSum(t1.queries, id)
              else t.sessions[id] == SessionSum(t1.queries, id)
    {
      SettledSession(t, p, q, id);
    }
    forall d | d !in DateOf(cal, p.query.timestamp) ensures DailySum(cal, t1.usageQueries, d) == DailySum(cal, t.usageQueries, d) {
      OtherDaysKeep(cal, t.usageQueries, p.usageQuery.id, FixUsageQuery(p, u), d);
    }
    RebuildAgrees(cal, p.fix.CodexFix?, t1, {p.sessionId}, DateOf(cal, p.query.timestamp));
  }

  // ----- unsettled rows are not ---------------------------------------------------------------

  function Alone<T>(id: nat, row: T): seq<Option<T>> {
    seq(id, _ => None) + [Some(row)]
  }

  /** A database of one query and one ledger row, with the aggregates they make up. */
  function Pair(cal: Calendar, q: StoredQuery, u: StoredUsageQuery): Tables {
    Tables(Alone(q.id, q), Alone(u.id, u), map[q.session := SessionPart(q)],
           if cal(u.timestamp).Some? then map[cal(u.timestamp).value := DailyPart(u)] else map[])
  }

  lemma {:induction false} NoneSumToNothing(cal: Calendar, n: nat, id: string)
    ensures SessionSum(seq(n, _ => None), id) == NO_SESSION_TOTALS
    ensures DailySum(cal, seq(n, _ => None), id) == NO_DAILY_TOTALS
  {
    if n > 0 {
      var queries: seq<Option<StoredQuery>> := seq(n, _ => None);
      var rows: seq<Option<StoredUsageQuery>> := seq(n, _ => None);
      assert queries[..n - 1] == seq(n - 1, _ => None);
      assert rows[..n - 1] == seq(n - 1, _ => None);
      NoneSumToNothing(cal, n - 1, id);
    }
  }

  lemma SessionSumAlone(cal: Calendar, n: nat, q: StoredQuery, id: string)
    ensures SessionSum(Alone(n, q), id) == if q.session == id then SessionPart(q) else NO_SESSION_TOTALS
  {
    NoneSumToNothing(cal, n, id);
    assert Alone(n, q)[..n] == seq(n, _ => None);
    assert NO_SESSION_TOTALS.Plus(SessionPart(q)) == SessionPart(q);
  }

  lemma DailySumAlone(cal: Calendar, n: nat, u: StoredUsageQuery, d: string)
    ensures DailySum(cal, Alone(n, u), d) == if cal(u.timestamp) == Some(d) then DailyPart(u) else NO_DAILY_TOTALS
  {
    NoneSumToNothing(cal, n, d);
    assert Alone(n, u)[..n] == seq(n, _ => None);
    assert NO_DAILY_TOTALS.Plus(DailyPart(u)) == DailyPart(u);
  }

  lemma PairAgrees(cal: Calendar, q: StoredQuery, u: StoredUsageQuery)
    ensures Agree(cal, Pair(cal, q, u))
  {
    SessionSumAlone(cal, q.id, q, q.session);
    forall d ensures DailyOf(Pair(cal, q, u), d) == DailySum(cal, Alone(u.id, u), d) { DailySumAlone(cal, u.id, u, d); }
  }

  /** Otherwise the pair alone is a database whose aggregates go stale. */
  lemma UnsettledPairGoesStale(cal: Calendar, p: Patch, q: StoredQuery, u: StoredUsageQuery)
    requires Writes(p, q, u) && !Settled(cal, p, q, u)
    ensures Agree(cal, Pair(cal, q, u)) && !Agree(cal, Commit(cal, p.fix.CodexFix?, Pair(cal, q, u), OneRow(p)))
  {
    var t := Pair(cal, q, u);
    PairAgrees(cal, q, u);
    WrittenRowCommits(cal, t, p);
    var t' := Written(cal, t, p);
    assert t'.queries == Alone(q.id, FixQuery(p, q)) && t'.usageQueries == Alone(u.id, FixUsageQuery(p, u));
    SessionSumAlone(cal, q.id, FixQuery(p, q), q.session);
    if cal(u.timestamp).Some? { DailySumAlone(cal, u.id, FixUsageQuery(p, u), cal(u.timestamp).value); }
    if q.session != p.sessionId && SessionPart(FixQuery(p, q)) != SessionPart(q) {
      assert t'.sessions[q.session] == SessionPart(q);
    } else {
      assert DailyOf(t', cal(u.timestamp).value) == DailyPart(u);
    }
  }

  /** A repair row keeps the aggregates of every database exactly if it is settled for every pair of
      stored rows it would correct. */
  lemma RowKeepsAggregatesExactly(cal: Calendar, p: Patch)
    ensures KeepsAggregates(cal, p) <==> AlwaysSettled(cal, p)
  {
    if AlwaysSettled(cal, p) {
      forall t | Agree(cal, t) ensures Agree(cal, Commit(cal, p.fix.CodexFix?, t, OneRow(p))) {
        var q, u := QueryAt(t, p.query.id), UsageQueryAt(t, p.usageQuery.id);
        if q.Some? && u.Some? && Writes(p, q.value, u.value) {
          SettledRowKeepsAggregates(cal, t, p, q.value, u.value);
          WrittenRowCommits(cal, t, p);
        } else {
          UnwrittenRowCommits(cal, t, p);
        }
      }
    } else {
      var q, u :| Writes(p, q, u) && !Settled(cal, p, q, u);
      UnsettledPairGoesStale(cal, p, q, u);
    }
  }

  // ----- concrete rows ------------------------------------------------------------------------

  const BROKEN := Usage(1, 0, 0, 0)
  const RIGHT := Usage(5, 0, 0, 0)

  function OneQuery(usage: Usage): StoredQuery {
    StoredQuery(0, "s", 1.0, 0.0, None, 1, usage, 1, None, None)
  }

  function OneUsageQuery(timestamp: real, usage: Usage): StoredUsageQuery {
    StoredUsageQuery(0, Some("s"), timestamp, 0.0, None, 1, 0, usage, 1, "claude")
  }

  /** Timestamps below ten seconds have one date, later ones another. */
  function TwoDates(timestamp: real): Option<string> {
    if timestamp < 10.0 then Some("early") else Some("late")
  }

  /** A Claude row whose session id is not the one of its query repairs the query and leaves the
      totals of the query's session as they were. */
  lemma MisnamedSessionGoesStale()
    ensures !KeepsAggregates(TwoDates, Patch("other", OneQuery(BROKEN), OneUsageQuery(1.0, BROKEN), ClaudeFix(RIGHT)))
  {
    var p := Patch("other", OneQuery(BROKEN), OneUsageQuery(1.0, BROKEN), ClaudeFix(RIGHT));
    UnsettledPairGoesStale(TwoDates, p, p.query, p.usageQuery);
  }

  /** A row whose query and ledger row lie on different dates rebuilds only the query's date. */
  lemma SplitDatesGoStale()
    ensures !KeepsAggregates(TwoDates, Patch("s", OneQuery(BROKEN), OneUsageQuery(20.0, BROKEN), ClaudeFix(RIGHT)))
  {
    var p := Patch("s", OneQuery(BROKEN), OneUsageQuery(20.0, BROKEN), ClaudeFix(RIGHT));
    UnsettledPairGoesStale(TwoDates, p, p.query, p.usageQuery);
  }
}
