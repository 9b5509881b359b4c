/**
 The import transaction on its tables: sessions, queries and calls are written row by row,
 aggregates rebuilt and verified, and everything rolled back on the first error.
 */
module ImportDb {
  import opened Wrappers
  import opened Rollouts
  import opened ImportPlan
  import opened ImportLedger

  /** Once a prefix fails the whole list fails. */
  lemma {:induction false} FailedCallsStayFailed(l: Ledger, calls: seq<CallSource>, owner: Owner, n: nat)
    requires n <= |calls| && RecordCalls(l, calls[..n], owner).Err?
    ensures RecordCalls(l, calls, owner).Err?
  {
    if n < |calls| {
      assert calls[..|calls| - 1][..n] == calls[..n];
      FailedCallsStayFailed(l, calls[..|calls| - 1], owner, n);
    } else {
      assert calls[..n] == calls;
    }
  }

  lemma {:induction false} FailedQueriesStayFailed(cal: Calendar, p: Pending, s: ImportSession, queries: seq<ImportQuery>, n: nat)
    requires n <= |queries| && ApplyQueries(cal, p, s, queries[..n]).Err?
    ensures ApplyQueries(cal, p, s, queries).Err?
  {
    if n < |queries| {
      assert queries[..|queries| - 1][..n] == queries[..n];
      FailedQueriesStayFailed(cal, p, s, queries[..|queries| - 1], n);
    } else {
      assert queries[..n] == queries;
    }
  }

  lemma {:induction false} FailedSessionsStayFailed(cal: Calendar, p: Pending, sessions: seq<ImportSession>, n: nat)
    requires n <= |sessions| && ApplySessions(cal, p, sessions[..n]).Err?
    ensures ApplySessions(cal, p, sessions).Err?
  {
    if n < |sessions| {
      assert sessions[..|sessions| - 1][..n] == sessions[..n];
      FailedSessionsStayFailed(cal, p, sessions[..|sessions| - 1], n);
    } else {
      assert sessions[..n] == sessions;
    }
  }

  lemma NextCall(l: Ledger, calls: seq<CallSource>, owner: Owner, i: nat)
    requires i < |calls| && RecordCalls(l, calls[..i], owner).Ok?
    ensures var l' := RecordCalls(l, calls[..i], owner).value;
            RecordCalls(l, calls[..i + 1], owner) == RecordCall(l', calls[i], owner)
  {
    assert calls[..i + 1][..i] == calls[..i];
  }

  lemma NextQuery(cal: Calendar, p: Pending, s: ImportSession, queries: seq<ImportQuery>, i: nat)
    requires i < |queries| && ApplyQueries(cal, p, s, queries[..i]).Ok?
    ensures ApplyQueries(cal, p, s, queries[..i + 1]) == ApplyQuery(cal, ApplyQueries(cal, p, s, queries[..i]).value, s, queries[i])
  {
    assert queries[..i + 1][..i] == queries[..i];
  }

  lemma NextSession(cal: Calendar, p: Pending, sessions: seq<ImportSession>, i: nat)
    requires i < |sessions| && ApplySessions(cal, p, sessions[..i]).Ok?
    ensures ApplySessions(cal, p, sessions[..i + 1]) == ApplySession(cal, ApplySessions(cal, p, sessions[..i]).value, sessions[i])
  {
    assert sessions[..i + 1][..i] == sessions[..i];
  }

  class Db {
    var sessions: map<string, SessionRow>
    var sessionSources: map<SessionKey, SessionSource>
    var querySources: map<QuerySource, (QueryHash, Owner)>
    var callSources: map<CallSource, Owner>
    var queries: seq<UsageRow>
    var usageRows: seq<UsageRow>
    var daily: map<string, Totals>

    ghost function State(): Ledger
      reads this
    {
      Ledger(sessions, sessionSources, querySources, callSources, queries, usageRows, daily)
    }

    constructor ()
      ensures State() == Ledger(map[], map[], map[], map[], [], [], map[])
    {
      sessions, sessionSources, querySources, callSources := map[], map[], map[], map[];
      queries, usageRows, daily := [], [], map[];
    }

    method EnsureCallProvenance(calls: seq<CallSource>, owner: Owner) returns (ok: bool)
      modifies this`callSources
      ensures ok == RecordCalls(old(State()), calls, owner).Ok?
      ensures ok ==> RecordCalls(old(State()), calls, owner) == Ok(State())
    {
      ghost var before := State();
      assert calls[..0] == [];
      for i := 0 to |calls|
        invariant State() == before.(callSources := callSources)
        invariant RecordCalls(before, calls[..i], owner) == Ok(State())
      {
        NextCall(before, calls, owner, i);
        if calls[i] in callSources {
          if callSources[calls[i]] != owner {
            FailedCallsStayFailed(before, calls, owner, i + 1);
            return false;
          }
        } else {
          callSources := callSources[calls[i] := owner];
        }
      }
      assert calls[..|calls|] == calls;
      return true;
    }

    method ImportOneQuery(cal: Calendar, s: ImportSession, q: ImportQuery, affectedSessions: set<string>, affectedDates: set<string>)
      returns (ok: bool, sessions': set<string>, dates': set<string>)
      modifies this
      ensures ok == ApplyQuery(cal, Pending(old(State()), affectedSessions, affectedDates), s, q).Ok?
      ensures ok ==> ApplyQuery(cal, Pending(old(State()), affectedSessions, affectedDates), s, q) == Ok(Pending(State(), sessions', dates'))
    {
      sessions', dates' := affectedSessions, affectedDates;
      if q.sourceId in querySources {
        var (hash, owner) := querySources[q.sourceId];
        if hash != q.hash || owner.session != s.importedId { return false, sessions', dates'; }
        ok := EnsureCallProvenance(q.callIds, owner);
      } else {
        var owner := Owner(s.importedId, |queries|, |usageRows|);
        var row := UsageRow(s.importedId, q.timestamp, q.usage, q.turns);
        queries := queries + [row];
        usageRows := usageRows + [row];
        querySources := querySources[q.sourceId := (q.hash, owner)];
        assert State() == InsertQuery(old(State()), s, q).0;
        ok := EnsureCallProvenance(q.callIds, owner);
        sessions' := sessions' + {s.importedId};
        if cal(q.timestamp).Some? { dates' := dates' + {cal(q.timestamp).value}; }
        assert dates' == affectedDates + if cal(q.timestamp).Some? then {cal(q.timestamp).value} else {};
      }
    }

    /** The session row, created if it is new; none for a session deleted after its import. */
    method EnsureSession(s: ImportSession) returns (ok: bool, present: bool)
      modifies this
      ensures ok == OpenSession(old(State()), s).Ok?
      ensures ok && present ==> OpenSession(old(State()), s) == Ok(Some(State()))
      ensures ok && !present ==> OpenSession(old(State()), s) == Ok(None) && State() == old(State())
    {
      if s.Key() in sessionSources {
        if sessionSources[s.Key()] != SessionSource(s.hash, s.importedId) { return false, false; }
        if s.importedId !in sessions { return true, false; }
      } else if s.importedId in sessions {
        return false, false;
      } else if exists id :: id in sessions && sessions[id].provider == Some(s.provider) && sessions[id].nativeId == Some(s.nativeId) {
        return false, false;
      } else {
        sessions := sessions[s.importedId := SessionRow(Some(s.provider), Some(s.nativeId), ZERO)];
        sessionSources := sessionSources[s.Key() := SessionSource(s.hash, s.importedId)];
        assert State() == CreateSession(old(State()), s);
      }
      sessions := sessions[s.importedId := sessions[s.importedId].(nativeId := Some(s.nativeId))];
      return true, true;
    }

    method ImportOneSession(cal: Calendar, s: ImportSession, affectedSessions: set<string>, affectedDates: set<string>)
      returns (ok: bool, sessions': set<string>, dates': set<string>)
      modifies this
      ensures ok == ApplySession(cal, Pending(old(State()), affectedSessions, affectedDates), s).Ok?
      ensures ok ==> ApplySession(cal, Pending(old(State()), affectedSessions, affectedDates), s) == Ok(Pending(State(), sessions', dates'))
    {
      sessions', dates' := affectedSessions, affectedDates;
      var present;
      ok, present := EnsureSession(s);
      if !ok || !present { return; }
      ghost var start := Pending(State(), affectedSessions, affectedDates);
      assert s.queries[..0] == [];
      for i := 0 to |s.queries|
        invariant ApplyQueries(cal, start, s, s.queries[..i]) == Ok(Pending(State(), sessions', dates'))
      {
        NextQuery(cal, start, s, s.queries, i);
        ok, sessions', dates' := ImportOneQuery(cal, s, s.queries[i], sessions', dates');
        if !ok {
          FailedQueriesStayFailed(cal, start, s, s.queries, i + 1);
          return;
        }
      }
      assert s.queries[..|s.queries|] == s.queries;
      ok := true;
    }

    method RebuildSession(id: string)
      modifies this`sessions
      ensures State() == old(State()).(sessions := sessions)
      ensures sessions == (if id in old(sessions) then old(sessions)[id := old(sessions)[id].(totals := SessionTotals(queries, id))] else old(sessions))
    {
      if id in sessions { sessions := sessions[id := sessions[id].(totals := SessionTotals(queries, id))]; }
    }

    method RebuildSessions(ids: set<string>)
      modifies this`sessions
      ensures State() == old(State()).(sessions := sessions)
      ensures sessions == map id | id in old(sessions) ::
        if id in ids then old(sessions)[id].(totals := SessionTotals(queries, id)) else old(sessions)[id]
    {
      var todo := ids;
      while todo != {}
        invariant todo <= ids && sessions.Keys == old(sessions).Keys
        invariant forall id :: id in sessions ==>
          sessions[id] == (if id in ids - todo then old(sessions)[id].(totals := SessionTotals(queries, id)) else old(sessions)[id])
        decreases todo
      {
        var id :| id in todo;
        RebuildSession(id);
        todo := todo - {id};
      }
    }

    method RebuildDates(cal: Calendar, dates: set<string>)
      modifies this`daily
      ensures State() == old(State()).(daily := daily)
      ensures daily == map d | d in old(daily).Keys + dates :: if d in dates then DateTotals(cal, usageRows, d) else old(daily)[d]
    {
      var todo := dates;
      while todo != {}
        invariant todo <= dates && daily.Keys == old(daily).Keys + (dates - todo)
        invariant forall d :: d in daily ==>
          daily[d] == (if d in dates - todo then DateTotals(cal, usageRows, d) else old(daily)[d])
        decreases todo
      {
        var d :| d in todo;
        daily := daily[d := DateTotals(cal, usageRows, d)];
        todo := todo - {d};
      }
    }

    method VerifyAll(cal: Calendar, ids: set<string>, dates: set<string>) returns (ok: bool)
      ensures ok == Verify(cal, State(), ids, dates).Ok?
    {
      var todo := ids;
      while todo != {}
        invariant todo <= ids
        invariant forall id :: id in ids - todo ==> SessionVerified(State(), id)
        decreases todo
      {
        var id :| id in todo;
        if SessionTotals(queries, id) != SessionTotals(usageRows, id) || id !in sessions || sessions[id].totals != SessionTotals(queries, id) {
          assert !SessionVerified(State(), id);
          return false;
        }
        todo := todo - {id};
      }
      todo := dates;
      while todo != {}
        invariant todo <= dates
        invariant forall d :: d in dates - todo ==> DateVerified(cal, State(), d)
        decreases todo
      {
        var d :| d in todo;
        if d !in daily || daily[d] != DateTotals(cal, usageRows, d) {
          assert !DateVerified(cal, State(), d);
          return false;
        }
        todo := todo - {d};
      }
      assert forall id :: id in ids ==> SessionVerified(State(), id);
      assert forall d :: d in dates ==> DateVerified(cal, State(), d);
      return true;
    }

    method ApplyInTransaction(cal: Calendar, manifest: seq<ImportSession>) returns (ok: bool)
      modifies this
      ensures ok == Apply(cal, old(State()), manifest).Ok?
      ensures ok ==> Apply(cal, old(State()), manifest) == Ok(State())
    {
      ghost var start := Pending(State(), {}, {});
      var affectedSessions: set<string>, affectedDates: set<string> := {}, {};
      assert manifest[..0] == [];
      for i := 0 to |manifest|
        invariant ApplySessions(cal, start, manifest[..i]) == Ok(Pending(State(), affectedSessions, affectedDates))
      {
        NextSession(cal, start, manifest, i);
        ok, affectedSessions, affectedDates := ImportOneSession(cal, manifest[i], affectedSessions, affectedDates);
        if !ok {
          FailedSessionsStayFailed(cal, start, manifest, i + 1);
          return;
        }
      }
      assert manifest[..|manifest|] == manifest;
      ghost var applied := Pending(State(), affectedSessions, affectedDates);
      RebuildSessions(affectedSessions);
      RebuildDates(cal, affectedDates);
      assert State() == Rebuild(cal, applied);
      ok := VerifyAll(cal, affectedSessions, affectedDates);
    }

    method ApplyProviderHistoryImport(cal: Calendar, manifest: seq<ImportSession>) returns (ok: bool)
      modifies this
      ensures State() == Commit(cal, old(State()), manifest)
      ensures ok == Apply(cal, old(State()), manifest).Ok?
    {
      var s, ss, qs, cs := sessions, sessionSources, querySources, callSources;
      var q, u, d := queries, usageRows, daily;
      ok := ApplyInTransaction(cal, manifest);
      if !ok {
        sessions, sessionSources, querySources, callSources := s, ss, qs, cs;
        queries, usageRows, daily := q, u, d;
      }
    }
  }
}
