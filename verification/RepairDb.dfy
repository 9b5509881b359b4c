/** The repair transaction on its tables, row by row, rolled back on the first error. */
module RepairDb {
  import opened Wrappers
  import opened Rollouts
  import opened UsageRows
  import opened RepairApply

  lemma NextRow(cal: Calendar, s: Pending, rows: seq<Patch>, i: nat)
    requires i < |rows| && ApplyRows(cal, s, rows[..i]).Ok?
    ensures ApplyRows(cal, s, rows[..i + 1]) == ApplyRow(cal, ApplyRows(cal, s, rows[..i]).value, rows[i])
  {
    assert rows[..i + 1][..i] == rows[..i];
  }

  lemma {:induction false} FailedRowsStayFailed(cal: Calendar, s: Pending, rows: seq<Patch>, n: nat)
    requires n <= |rows| && ApplyRows(cal, s, rows[..n]).Err?
    ensures ApplyRows(cal, s, rows).Err?
  {
    if n < |rows| {
      assert rows[..|rows| - 1][..n] == rows[..n];
      FailedRowsStayFailed(cal, s, rows[..|rows| - 1], n);
    } else {
      assert rows[..n] == rows;
    }
  }

  lemma NextCorrection(t: Tables, cs: seq<Correction>, i: nat)
    requires i < |cs| && ApplyCorrections(t, cs[..i]).Ok?
    ensures ApplyCorrections(t, cs[..i + 1]) == ApplyCorrection(ApplyCorrections(t, cs[..i]).value, cs[i])
  {
    assert cs[..i + 1][..i] == cs[..i];
  }

  lemma {:induction false} FailedCorrectionsStayFailed(t: Tables, cs: seq<Correction>, n: nat)
    requires n <= |cs| && ApplyCorrections(t, cs[..n]).Err?
    ensures ApplyCorrections(t, cs).Err?
  {
    if n < |cs| {
      assert cs[..|cs| - 1][..n] == cs[..n];
      FailedCorrectionsStayFailed(t, cs[..|cs| - 1], n);
    } else {
      assert cs[..n] == cs;
    }
  }

  class Db {
    var queries: seq<Option<StoredQuery>>
    var usageQueries: seq<Option<StoredUsageQuery>>
    var sessions: map<string, SessionTotals>
    var daily: map<string, DailyTotals>

    ghost function State(): Tables
      reads this
    {
      Tables(queries, usageQueries, sessions, daily)
    }

    constructor (t: Tables)
      ensures State() == t
    {
      queries, usageQueries, sessions, daily := t.queries, t.usageQueries, t.sessions, t.daily;
    }

    method RepairRow(cal: Calendar, p: Patch, affectedSessions: set<string>, affectedDates: set<string>)
      returns (ok: bool, sessions': set<string>, dates': set<string>)
      modifies this`queries, this`usageQueries
      ensures ok == ApplyRow(cal, Pending(old(State()), affectedSessions, affectedDates), p).Ok?
      ensures ok ==> ApplyRow(cal, Pending(old(State()), affectedSessions, affectedDates), p) == Ok(Pending(State(), sessions', dates'))
    {
      sessions', dates' := affectedSessions, affectedDates;
      if p.query.id >= |queries| || p.usageQuery.id >= |usageQueries| { return false, sessions', dates'; }
      var q, u := queries[p.query.id], usageQueries[p.usageQuery.id];
      if q.None? || u.None? { return false, sessions', dates'; }
      if AlreadyCorrect(p, q.value, u.value) { return true, sessions', dates'; }
      if !QueryMatches(p, q.value) || !UsageQueryMatches(p.fix, p.usageQuery, u.value) { return false, sessions', dates'; }
      queries := queries[p.query.id := Some(FixQuery(p, q.value))];
      usageQueries := usageQueries[p.usageQuery.id := Some(FixUsageQuery(p, u.value))];
      sessions' := sessions' + {p.sessionId};
      var date := cal(p.query.timestamp);
      if date.Some? { dates' := dates' + {date.value}; }
      assert dates' == affectedDates + DateOf(cal, p.query.timestamp);
      ok := true;
    }

    method CorrectProvider(c: Correction) returns (ok: bool)
      modifies this`usageQueries
      ensures ok == ApplyCorrection(old(State()), c).Ok?
      ensures ok ==> ApplyCorrection(old(State()), c) == Ok(State())
    {
      if c.usageQuery.id >= |usageQueries| { return false; }
      var u := usageQueries[c.usageQuery.id];
      if u.None? || u.value.session != Some(c.sessionId) { return false; }
      if u.value.provider == c.provider { return true; }
      if !UsageQueryMatches(CodexFix(NO_USAGE, None, 0), c.usageQuery, u.value) { return false; }
      usageQueries := usageQueries[c.usageQuery.id := Some(u.value.(provider := c.provider))];
      return true;
    }

    method RepairRows(cal: Calendar, rows: seq<Patch>) returns (ok: bool, affectedSessions: set<string>, affectedDates: set<string>)
      modifies this`queries, this`usageQueries
      ensures ok == ApplyRows(cal, Pending(old(State()), {}, {}), rows).Ok?
      ensures ok ==> ApplyRows(cal, Pending(old(State()), {}, {}), rows) == Ok(Pending(State(), affectedSessions, affectedDates))
    {
      ghost var start := Pending(State(), {}, {});
      affectedSessions, affectedDates := {}, {};
      assert rows[..0] == [];
      for i := 0 to |rows|
        invariant ApplyRows(cal, start, rows[..i]) == Ok(Pending(State(), affectedSessions, affectedDates))
      {
        NextRow(cal, start, rows, i);
        ok, affectedSessions, affectedDates := RepairRow(cal, rows[i], affectedSessions, affectedDates);
        if !ok {
          FailedRowsStayFailed(cal, start, rows, i + 1);
          return;
        }
      }
      assert rows[..|rows|] == rows;
      ok := true;
    }

    method CorrectProviders(cs: seq<Correction>) returns (ok: bool)
      modifies this`usageQueries
      ensures ok == ApplyCorrections(old(State()), cs).Ok?
      ensures ok ==> ApplyCorrections(old(State()), cs) == Ok(State())
    {
      ghost var start := State();
      assert cs[..0] == [];
      for i := 0 to |cs|
        invariant ApplyCorrections(start, cs[..i]) == Ok(State())
      {
        NextCorrection(start, cs, i);
        ok := CorrectProvider(cs[i]);
        if !ok {
          FailedCorrectionsStayFailed(start, cs, i + 1);
          return;
        }
      }
      assert cs[..|cs|] == cs;
      ok := true;
    }

    method RebuildTotals(codex: bool, ids: set<string>)
      modifies this`sessions
      ensures sessions == RebuildSessions(codex, old(State()), ids)
    {
      var todo := ids;
      while todo != {}
        invariant todo <= ids && sessions.Keys == old(sessions).Keys
        invariant forall id :: id in sessions ==>
          sessions[id] == (if id in ids - todo then RebuiltSession(codex, old(sessions)[id], SessionSum(queries, id)) else old(sessions)[id])
        decreases todo
      {
        var id :| id in todo;
        if id in sessions { sessions := sessions[id := RebuiltSession(codex, sessions[id], SessionSum(queries, id))]; }
        todo := todo - {id};
      }
    }

    method RebuildDays(cal: Calendar, dates: set<string>)
      modifies this`daily
      ensures daily == RebuildDates(cal, old(State()), dates)
    {
      var todo := dates;
      while todo != {}
        invariant todo <= dates
        invariant forall d :: d in daily <==>
          (d in dates - todo && HasDate(cal, usageQueries, d)) || (d !in dates - todo && d in old(daily))
        invariant forall d :: d in daily ==> daily[d] == (if d in dates - todo then DailySum(cal, usageQueries, d) else old(daily)[d])
        decreases todo
      {
        var d :| d in todo;
        daily := daily - {d};
        if HasDate(cal, usageQueries, d) { daily := daily[d := DailySum(cal, usageQueries, d)]; }
        todo := todo - {d};
      }
    }

    method VerifyAll(m: Manifest) returns (ok: bool)
      ensures ok == Verify(State(), m).Ok?
    {
      for i := 0 to |m.rows|
        invariant forall p :: p in m.rows[..i] ==> RowVerified(State(), p)
      {
        assert m.rows[i] in m.rows;
        var p := m.rows[i];
        if p.query.id >= |queries| || p.usageQuery.id >= |usageQueries| { return false; }
        var q, u := queries[p.query.id], usageQueries[p.usageQuery.id];
        if q.None? || u.None? || !AlreadyCorrect(p, q.value, u.value) { return false; }
      }
      assert m.rows[..|m.rows|] == m.rows;
      for i := 0 to |m.corrections|
        invariant forall c :: c in m.corrections[..i] ==> CorrectionVerified(State(), c)
      {
        assert m.corrections[i] in m.corrections;
        var c := m.corrections[i];
        if c.usageQuery.id >= |usageQueries| { return false; }
        var u := usageQueries[c.usageQuery.id];
        if u.None? || u.value.provider != c.provider { return false; }
      }
      assert m.corrections[..|m.corrections|] == m.corrections;
      return true;
    }

    method ApplyInTransaction(cal: Calendar, codex: bool, m: Manifest) returns (ok: bool)
      modifies this
      ensures ok == Apply(cal, codex, old(State()), m).Ok?
      ensures ok ==> Apply(cal, codex, old(State()), m) == Ok(State())
    {
      var affectedSessions, affectedDates;
      ok, affectedSessions, affectedDates := RepairRows(cal, m.rows);
      if !ok { return; }
      ok := CorrectProviders(m.corrections);
      if !ok { return; }
      ghost var written := State();
      RebuildTotals(codex, affectedSessions);
      RebuildDays(cal, affectedDates);
      assert State() == Rebuild(cal, codex, written, affectedSessions, affectedDates);
      ok := VerifyAll(m);
    }

    method ApplyRepair(cal: Calendar, codex: bool, m: Manifest) returns (ok: bool)
      modifies this
      ensures State() == Commit(cal, codex, old(State()), m)
      ensures ok == Apply(cal, codex, old(State()), m).Ok?
    {
      var q, u, s, d := queries, usageQueries, sessions, daily;
      ok := ApplyInTransaction(cal, codex, m);
      if !ok { queries, usageQueries, sessions, daily := q, u, s, d; }
    }
  }
}
