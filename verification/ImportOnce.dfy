/**
 Imports are exactly-once: over any sequence of applied manifests a native call belongs to
 one imported query, and applying a manifest again writes no usage row.
 */
module ImportOnce {
  import opened Wrappers
  import opened Rollouts
  import opened ImportPlan
  import opened ImportReplan
  import opened ImportLedger

  type QuerySources = map<QuerySource, (QueryHash, Owner)>
  type CallSources = map<CallSource, Owner>

  /** Every call of an imported query is recorded for that query's rows. */
  ghost predicate SourceOwned(queries: QuerySources, calls: CallSources, src: QuerySource)
    requires src in queries
  {
    forall c :: c in CallsOf(queries[src].0) ==> c in calls && calls[c] == queries[src].1
  }

  ghost predicate CallHasSource(queries: QuerySources, calls: CallSources, c: CallSource)
    requires c in calls
  {
    exists src :: src in queries && queries[src].1 == calls[c] && c in CallsOf(queries[src].0)
  }

  ghost predicate RowsNamed(queries: QuerySources, rows: nat) {
    && (forall src :: src in queries ==> queries[src].1.queryId < rows)
    && (forall a, b :: a in queries && b in queries && a != b ==> queries[a].1.queryId != queries[b].1.queryId)
  }

  ghost predicate Owned(queries: QuerySources, calls: CallSources) {
    && (forall src :: src in queries ==> SourceOwned(queries, calls, src))
    && (forall c :: c in calls ==> CallHasSource(queries, calls, c))
  }

  ghost predicate CallsOwned(l: Ledger) {
    Owned(l.querySources, l.callSources) && RowsNamed(l.querySources, |l.queries|)
  }

  /** Provenance only grows, and a deleted imported session stays deleted. */
  ghost predicate Extends(l: Ledger, l': Ledger) {
    && (forall key :: key in l.sessionSources ==> key in l'.sessionSources && l'.sessionSources[key] == l.sessionSources[key])
    && (forall src :: src in l.querySources ==> src in l'.querySources && l'.querySources[src] == l.querySources[src])
    && (forall c :: c in l.callSources ==> c in l'.callSources && l'.callSources[c] == l.callSources[c])
    && (forall key :: key in l.sessionSources && l.sessionSources[key].importedId in l'.sessions ==>
          l.sessionSources[key].importedId in l.sessions)
  }

  // ----- recording calls ------------------------------------------------------------------

  ghost predicate Records(calls: CallSources, more: seq<CallSource>, owner: Owner, calls': CallSources) {
    && (forall c :: c in more ==> c in calls' && calls'[c] == owner)
    && (forall c :: c in calls ==> c in calls' && calls'[c] == calls[c])
    && (forall c :: c in calls' <==> c in calls || c in more)
  }

  lemma RecordsOneMore(calls: CallSources, init: seq<CallSource>, last: CallSource, owner: Owner, l1: Ledger)
    requires Records(calls, init, owner, l1.callSources) && RecordCall(l1, last, owner).Ok?
    ensures var l2 := RecordCall(l1, last, owner).value;
            l2 == l1.(callSources := l2.callSources) && Records(calls, init + [last], owner, l2.callSources)
  {
  }

  lemma {:induction false} RecordCallsRecords(l: Ledger, calls: seq<CallSource>, owner: Owner)
    requires RecordCalls(l, calls, owner).Ok?
    ensures var l' := RecordCalls(l, calls, owner).value;
            l' == l.(callSources := l'.callSources) && Records(l.callSources, calls, owner, l'.callSources)
  {
    if calls != [] {
      var init, last := calls[..|calls| - 1], calls[|calls| - 1];
      assert calls == init + [last];
      RecordCallsRecords(l, init, owner);
      RecordsOneMore(l.callSources, init, last, owner, RecordCalls(l, init, owner).value);
    }
  }

  /** Calls that are all recorded for the owner already are recorded again without a change. */
  lemma {:induction false} RecordCallsAgain(l: Ledger, calls: seq<CallSource>, owner: Owner)
    requires forall c :: c in calls ==> c in l.callSources && l.callSources[c] == owner
    ensures RecordCalls(l, calls, owner) == Ok(l)
  {
    if calls != [] {
      assert forall c :: c in calls[..|calls| - 1] ==> c in calls;
      assert calls[|calls| - 1] in calls;
      RecordCallsAgain(l, calls[..|calls| - 1], owner);
    }
  }

  // ----- one query -------------------------------------------------------------------------

  lemma SourceStaysOwned(queries: QuerySources, calls: CallSources, calls': CallSources, src: QuerySource,
                         id: QuerySource, hash: QueryHash, owner: Owner)
    requires src in queries && SourceOwned(queries, calls, src) && src != id
    requires Records(calls, CallsOf(hash), owner, calls')
    ensures SourceOwned(queries[id := (hash, owner)], calls', src)
  {
  }

  lemma CallKeepsSource(queries: QuerySources, calls: CallSources, calls': CallSources, c: CallSource,
                        id: QuerySource, hash: QueryHash, owner: Owner)
    requires id !in queries && c in calls' && (c in calls ==> CallHasSource(queries, calls, c))
    requires Records(calls, CallsOf(hash), owner, calls')
    ensures CallHasSource(queries[id := (hash, owner)], calls', c)
  {
    var queries' := queries[id := (hash, owner)];
    if c in CallsOf(hash) {
      assert queries'[id] == (hash, owner);
    } else {
      var src :| src in queries && queries[src].1 == calls[c] && c in CallsOf(queries[src].0);
      assert queries'[src] == queries[src];
    }
  }

  lemma NewSourceOwnsCalls(queries: QuerySources, calls: CallSources, calls': CallSources, id: QuerySource,
                           hash: QueryHash, owner: Owner)
    requires Owned(queries, calls) && id !in queries
    requires Records(calls, CallsOf(hash), owner, calls')
    ensures Owned(queries[id := (hash, owner)], calls')
  {
    var queries' := queries[id := (hash, owner)];
    forall src | src in queries' ensures SourceOwned(queries', calls', src) {
      if src != id { SourceStaysOwned(queries, calls, calls', src, id, hash, owner); }
    }
    forall c | c in calls' ensures CallHasSource(queries', calls', c) {
      CallKeepsSource(queries, calls, calls', c, id, hash, owner);
    }
  }

  lemma NewRowIsNamed(queries: QuerySources, rows: nat, id: QuerySource, hash: QueryHash, owner: Owner)
    requires RowsNamed(queries, rows) && id !in queries && owner.queryId == rows
    ensures RowsNamed(queries[id := (hash, owner)], rows + 1)
  {
  }

  lemma NewQueryOwnsCalls(l: Ledger, s: ImportSession, q: ImportQuery, inserted: Ledger, owner: Owner, l': Ledger)
    requires CallsOwned(l) && q.sourceId !in l.querySources
    requires CallsOf(q.hash) == q.callIds
    requires (inserted, owner) == InsertQuery(l, s, q)
    requires RecordCalls(inserted, q.callIds, owner) == Ok(l')
    ensures CallsOwned(l') && Extends(l, l') && l'.sessions == l.sessions && l'.sessionSources == l.sessionSources
    ensures q.sourceId in l'.querySources && l'.querySources[q.sourceId] == (q.hash, owner)
  {
    RecordCallsRecords(inserted, q.callIds, owner);
    var id, h := q.sourceId, q.hash;
    assert l'.querySources == l.querySources[id := (h, owner)];
    NewSourceOwnsCalls(l.querySources, l.callSources, l'.callSources, id, h, owner);
    NewRowIsNamed(l.querySources, |l.queries|, id, h, owner);
  }

  lemma ApplyQueryOwns(cal: Calendar, p: Pending, s: ImportSession, q: ImportQuery)
    requires CallsOwned(p.ledger) && ApplyQuery(cal, p, s, q).Ok?
    requires CallsOf(q.hash) == q.callIds
    ensures var l' := ApplyQuery(cal, p, s, q).value.ledger;
            && CallsOwned(l') && Extends(p.ledger, l') && l'.sessions == p.ledger.sessions
            && l'.sessionSources == p.ledger.sessionSources
            && q.sourceId in l'.querySources
            && l'.querySources[q.sourceId].0 == q.hash
            && l'.querySources[q.sourceId].1.session == s.importedId
  {
    var l := p.ledger;
    if q.sourceId in l.querySources {
      assert SourceOwned(l.querySources, l.callSources, q.sourceId);
      RecordCallsAgain(l, q.callIds, l.querySources[q.sourceId].1);
    } else {
      var (inserted, owner) := InsertQuery(l, s, q);
      NewQueryOwnsCalls(l, s, q, inserted, owner, RecordCalls(inserted, q.callIds, owner).value);
    }
  }

  /** All queries of the session are recorded in its name. */
  ghost predicate QueriesRecorded(l: Ledger, s: ImportSession, queries: seq<ImportQuery>) {
    forall q :: q in queries ==>
      && q.sourceId in l.querySources
      && l.querySources[q.sourceId].0 == q.hash
      && l.querySources[q.sourceId].1.session == s.importedId
  }

  ghost predicate QueriesFormed(queries: seq<ImportQuery>) {
    forall q :: q in queries ==> CallsOf(q.hash) == q.callIds
  }

  lemma QueriesStayRecorded(l: Ledger, l': Ledger, s: ImportSession, init: seq<ImportQuery>, last: ImportQuery)
    requires QueriesRecorded(l, s, init) && Extends(l, l') && QueriesRecorded(l', s, [last])
    ensures QueriesRecorded(l', s, init + [last])
  {
    assert last in [last];
  }

  lemma {:induction false} ApplyQueriesOwns(cal: Calendar, p: Pending, s: ImportSession, queries: seq<ImportQuery>)
    requires CallsOwned(p.ledger) && ApplyQueries(cal, p, s, queries).Ok? && QueriesFormed(queries)
    ensures var l' := ApplyQueries(cal, p, s, queries).value.ledger;
            && CallsOwned(l') && Extends(p.ledger, l') && l'.sessions == p.ledger.sessions
            && l'.sessionSources == p.ledger.sessionSources && QueriesRecorded(l', s, queries)
  {
    if queries != [] {
      var init, last := queries[..|queries| - 1], queries[|queries| - 1];
      assert queries == init + [last];
      ApplyQueriesOwns(cal, p, s, init);
      var p1 := ApplyQueries(cal, p, s, init).value;
      assert last in queries;
      ApplyQueryOwns(cal, p1, s, last);
      var l' := ApplyQuery(cal, p1, s, last).value.ledger;
      ExtendsIsTransitive(p.ledger, p1.ledger, l');
      QueriesStayRecorded(p1.ledger, l', s, init, last);
    }
  }

  /** A session whose queries are recorded already is applied without writing a row. */
  lemma {:induction false} ApplyQueriesAgain(cal: Calendar, p: Pending, s: ImportSession, queries: seq<ImportQuery>)
    requires CallsOwned(p.ledger) && QueriesFormed(queries) && QueriesRecorded(p.ledger, s, queries)
    ensures ApplyQueries(cal, p, s, queries) == Ok(p)
  {
    if queries != [] {
      var init, last := queries[..|queries| - 1], queries[|queries| - 1];
      assert queries == init + [last];
      ApplyQueriesAgain(cal, p, s, init);
      assert SourceOwned(p.ledger.querySources, p.ledger.callSources, last.sourceId);
      RecordCallsAgain(p.ledger, last.callIds, p.ledger.querySources[last.sourceId].1);
    }
  }

  // ----- one session -------------------------------------------------------------------------

  /** The session is known, and unless it was deleted all its queries are recorded. */
  ghost predicate SessionRecorded(l: Ledger, s: ImportSession) {
    && s.Key() in l.sessionSources && l.sessionSources[s.Key()] == SessionSource(s.hash, s.importedId)
    && (s.importedId in l.sessions ==> QueriesRecorded(l, s, s.queries))
  }

  lemma ExtendsIsTransitive(a: Ledger, b: Ledger, c: Ledger)
    requires Extends(a, b) && Extends(b, c)
    ensures Extends(a, c)
  {
  }

  lemma RecordedStays(l: Ledger, l': Ledger, s: ImportSession)
    requires Extends(l, l') && SessionRecorded(l, s)
    ensures SessionRecorded(l', s)
  {
  }

  lemma AttachExtends(l: Ledger, s: ImportSession)
    requires s.importedId in l.sessions
    ensures Extends(l, Attach(l, s))
  {
  }

  lemma CreateExtends(l: Ledger, s: ImportSession)
    requires SourcesNamed(l) && s.importedId == ImportedId(s.Key()) && s.Key() !in l.sessionSources
    ensures Extends(l, CreateSession(l, s)) && SourcesNamed(CreateSession(l, s))
  {
    forall key | key in l.sessionSources ensures l.sessionSources[key].importedId != s.importedId {
      if l.sessionSources[key].importedId == s.importedId { ImportedIdIsInjective(key, s.Key()); }
    }
  }

  lemma OpenOwns(l: Ledger, s: ImportSession)
    requires CallsOwned(l) && s.importedId == ImportedId(s.Key())
    requires OpenSession(l, s).Ok? && OpenSession(l, s).value.Some?
    requires SourcesNamed(l)
    ensures var l' := OpenSession(l, s).value.value;
            && CallsOwned(l') && Extends(l, l') && SourcesNamed(l')
            && s.Key() in l'.sessionSources && l'.sessionSources[s.Key()] == SessionSource(s.hash, s.importedId)
  {
    if s.Key() in l.sessionSources {
      AttachExtends(l, s);
    } else {
      CreateExtends(l, s);
      AttachExtends(CreateSession(l, s), s);
      ExtendsIsTransitive(l, CreateSession(l, s), Attach(CreateSession(l, s), s));
    }
  }

  /** Every imported session got the id of its source. */
  ghost predicate SourcesNamed(l: Ledger) {
    forall key :: key in l.sessionSources ==> l.sessionSources[key].importedId == ImportedId(key)
  }

  lemma ApplySessionOwns(cal: Calendar, p: Pending, s: ImportSession)
    requires CallsOwned(p.ledger) && SourcesNamed(p.ledger) && ApplySession(cal, p, s).Ok?
    requires QueriesFormed(s.queries) && s.importedId == ImportedId(s.Key())
    ensures var l' := ApplySession(cal, p, s).value.ledger;
            CallsOwned(l') && SourcesNamed(l') && Extends(p.ledger, l') && SessionRecorded(l', s)
  {
    var found := OpenSession(p.ledger, s).value;
    if found.Some? {
      OpenOwns(p.ledger, s);
      var p1 := p.(ledger := found.value);
      ApplyQueriesOwns(cal, p1, s, s.queries);
      ExtendsIsTransitive(p.ledger, p1.ledger, ApplySession(cal, p, s).value.ledger);
    }
  }

  ghost predicate ManifestFormed(manifest: seq<ImportSession>) {
    WellNamed(manifest) && forall s :: s in manifest ==> QueriesFormed(s.queries)
  }

  lemma {:induction false} ApplySessionsOwns(cal: Calendar, p: Pending, sessions: seq<ImportSession>)
    requires CallsOwned(p.ledger) && SourcesNamed(p.ledger) && ManifestFormed(sessions) && ApplySessions(cal, p, sessions).Ok?
    ensures var l' := ApplySessions(cal, p, sessions).value.ledger;
            && CallsOwned(l') && SourcesNamed(l') && Extends(p.ledger, l')
            && forall s :: s in sessions ==> SessionRecorded(l', s)
  {
    if sessions != [] {
      var init, last := sessions[..|sessions| - 1], sessions[|sessions| - 1];
      assert sessions == init + [last];
      ApplySessionsOwns(cal, p, init);
      var p1 := ApplySessions(cal, p, init).value;
      ApplySessionOwns(cal, p1, last);
      var l' := ApplySessions(cal, p, sessions).value.ledger;
      ExtendsIsTransitive(p.ledger, p1.ledger, l');
      forall s | s in init ensures SessionRecorded(l', s) { RecordedStays(p1.ledger, l', s); }
    }
  }

  // ----- whole manifests ---------------------------------------------------------------------

  /** The rebuilt aggregates leave rows and provenance alone. */
  lemma RebuildKeepsRecords(cal: Calendar, p: Pending)
    ensures var l := Rebuild(cal, p);
            l == p.ledger.(sessions := l.sessions, daily := l.daily) && l.sessions.Keys == p.ledger.sessions.Keys
  {
  }

  lemma ImportOwns(cal: Calendar, l: Ledger, manifest: seq<ImportSession>)
    requires CallsOwned(l) && SourcesNamed(l) && ManifestFormed(manifest)
    ensures var l' := Commit(cal, l, manifest); CallsOwned(l') && SourcesNamed(l') && Extends(l, l')
    ensures Apply(cal, l, manifest).Ok? ==> forall s :: s in manifest ==> SessionRecorded(Commit(cal, l, manifest), s)
  {
    var applied := ApplySessions(cal, Pending(l, {}, {}), manifest);
    if Apply(cal, l, manifest).Ok? {
      ApplySessionsOwns(cal, Pending(l, {}, {}), manifest);
      var a, b := applied.value.ledger, Rebuild(cal, applied.value);
      RebuildKeepsRecords(cal, applied.value);
      forall s | s in manifest ensures SessionRecorded(b, s) { assert SessionRecorded(a, s); }
    }
  }

  function Imports(cal: Calendar, l: Ledger, manifests: seq<seq<ImportSession>>): Ledger {
    if manifests == [] then l
    else Commit(cal, Imports(cal, l, manifests[..|manifests| - 1]), manifests[|manifests| - 1])
  }

  lemma {:induction false} ImportsOwn(cal: Calendar, l: Ledger, manifests: seq<seq<ImportSession>>)
    requires CallsOwned(l) && SourcesNamed(l) && Mirrors(cal, l)
    requires forall m :: m in manifests ==> ManifestFormed(m)
    ensures var l' := Imports(cal, l, manifests); CallsOwned(l') && SourcesNamed(l') && Mirrors(cal, l')
  {
    if manifests != [] {
      var init, last := manifests[..|manifests| - 1], manifests[|manifests| - 1];
      assert manifests == init + [last];
      ImportsOwn(cal, l, init);
      ImportOwns(cal, Imports(cal, l, init), last);
      ImportKeepsMirrors(cal, Imports(cal, l, init), last);
    }
  }

  /** Over any sequence of manifests, committed or rolled back, no native call ends up in two imported queries. */
  lemma CallIsImportedOnce(cal: Calendar, l: Ledger, manifests: seq<seq<ImportSession>>, a: QuerySource, b: QuerySource, c: CallSource)
    requires CallsOwned(l) && SourcesNamed(l) && Mirrors(cal, l)
    requires forall m :: m in manifests ==> ManifestFormed(m)
    requires var l' := Imports(cal, l, manifests);
             && a in l'.querySources && b in l'.querySources
             && c in CallsOf(l'.querySources[a].0) && c in CallsOf(l'.querySources[b].0)
    ensures a == b
  {
    ImportsOwn(cal, l, manifests);
    var l' := Imports(cal, l, manifests);
    assert SourceOwned(l'.querySources, l'.callSources, a) && SourceOwned(l'.querySources, l'.callSources, b);
  }

  lemma {:induction false} ApplySessionsAgain(cal: Calendar, p: Pending, sessions: seq<ImportSession>)
    requires CallsOwned(p.ledger) && ManifestFormed(sessions)
    requires forall s :: s in sessions ==> SessionRecorded(p.ledger, s)
    ensures ApplySessions(cal, p, sessions).Ok?
    ensures var p' := ApplySessions(cal, p, sessions).value;
            && p'.sessions == p.sessions && p'.dates == p.dates
            && p'.ledger == p.ledger.(sessions := p'.ledger.sessions)
            && p'.ledger.sessions.Keys == p.ledger.sessions.Keys
            && forall id :: id in p.ledger.sessions ==> p'.ledger.sessions[id].totals == p.ledger.sessions[id].totals
  {
    if sessions != [] {
      var init, last := sessions[..|sessions| - 1], sessions[|sessions| - 1];
      assert sessions == init + [last];
      ApplySessionsAgain(cal, p, init);
      var p1 := ApplySessions(cal, p, init).value;
      assert SessionRecorded(p.ledger, last);
      if last.importedId in p1.ledger.sessions {
        var p2 := p1.(ledger := Attach(p1.ledger, last));
        ApplyQueriesAgain(cal, p2, last, last.queries);
      }
    }
  }

  lemma NothingToRebuild(cal: Calendar, p: Pending)
    requires p.sessions == {} && p.dates == {}
    ensures Verify(cal, Rebuild(cal, p), p.sessions, p.dates) == Ok(p.ledger)
  {
    assert Rebuild(cal, p).sessions == p.ledger.sessions;
    assert Rebuild(cal, p).daily == p.ledger.daily;
  }

  /** Applying a manifest again, at once or after other imports and session deletions, succeeds and
      writes no query row, no ledger row and no aggregate. */
  lemma ReapplyWritesNothing(cal: Calendar, l: Ledger, manifest: seq<ImportSession>, later: Ledger)
    requires CallsOwned(l) && SourcesNamed(l) && ManifestFormed(manifest) && Apply(cal, l, manifest).Ok?
    requires CallsOwned(later) && Extends(Commit(cal, l, manifest), later)
    ensures Apply(cal, later, manifest).Ok?
    ensures var again := Commit(cal, later, manifest);
            && again == later.(sessions := again.sessions)
            && again.sessions.Keys == later.sessions.Keys
            && forall id :: id in later.sessions ==> again.sessions[id].totals == later.sessions[id].totals
  {
    ImportOwns(cal, l, manifest);
    forall s | s in manifest ensures SessionRecorded(later, s) {
      RecordedStays(Commit(cal, l, manifest), later, s);
    }
    ApplySessionsAgain(cal, Pending(later, {}, {}), manifest);
    NothingToRebuild(cal, ApplySessions(cal, Pending(later, {}, {}), manifest).value);
  }
}
