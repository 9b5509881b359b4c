/**
 When an import commits: exactly if what the ledger recorded before agrees with every session, query and call of the
 manifest. Nothing else makes the transaction fail.
 */
module ImportCommits {
  import opened Wrappers
  import opened Rollouts
  import opened ImportPlan
  import opened ImportLedger
  import opened ImportOnce

  // ----- what has to agree --------------------------------------------------------------------

  /** The query was imported before with the same content for the same session, or none of its calls was imported. */
  ghost predicate QueryFits(l: Ledger, s: ImportSession, q: ImportQuery) {
    if q.sourceId in l.querySources then l.querySources[q.sourceId].0 == q.hash && l.querySources[q.sourceId].1.session == s.importedId
    else forall c :: c in q.callIds ==> c !in l.callSources
  }

  /** The native id of a session row once the sessions in front were imported: the one of the last that names the row. */
  ghost predicate IsNativeAfter(l: Ledger, done: seq<ImportSession>, id: string, native: Option<string>)
    requires id in l.sessions
  {
    && (forall s :: s in done && s.importedId == id ==> native == Some(s.nativeId))
    && ((forall s :: s in done ==> s.importedId != id) ==> native == l.sessions[id].nativeId)
  }

  /** The session was imported before with the same content, or it is new: neither its id nor its native session is taken. */
  ghost predicate SessionFits(l: Ledger, done: seq<ImportSession>, s: ImportSession) {
    if s.Key() in l.sessionSources then l.sessionSources[s.Key()] == SessionSource(s.hash, s.importedId)
    else
      && s.importedId !in l.sessions
      && forall id :: id in l.sessions && l.sessions[id].provider == Some(s.provider) ==> !IsNativeAfter(l, done, id, Some(s.nativeId))
  }

  /** The session was imported and its row deleted since. */
  predicate IsDeleted(l: Ledger, s: ImportSession) {
    s.Key() in l.sessionSources && s.importedId !in l.sessions
  }

  ghost predicate Fits(l: Ledger, done: seq<ImportSession>, s: ImportSession) {
    SessionFits(l, done, s) && (!IsDeleted(l, s) ==> forall q :: q in s.queries ==> QueryFits(l, s, q))
  }

  ghost predicate ManifestFits(l: Ledger, manifest: seq<ImportSession>) {
    forall n :: 0 <= n < |manifest| ==> Fits(l, manifest[..n], manifest[n])
  }

  predicate Apart(q: ImportQuery, q': ImportQuery) {
    q.sourceId != q'.sourceId && forall c :: c in q.callIds ==> c !in q'.callIds
  }

  ghost predicate QueriesApart(queries: seq<ImportQuery>) {
    forall i, j :: 0 <= i < j < |queries| ==> Apart(queries[i], queries[j])
  }

  ghost predicate SessionApart(s: ImportSession, s': ImportSession) {
    s.Key() != s'.Key() && forall q, q' :: q in s.queries && q' in s'.queries ==> Apart(q, q')
  }

  /** The manifest names every session, query and call once. */
  ghost predicate NamesOnce(manifest: seq<ImportSession>) {
    && (forall i, j :: 0 <= i < j < |manifest| ==> SessionApart(manifest[i], manifest[j]))
    && (forall s :: s in manifest ==> QueriesApart(s.queries))
  }

  // ----- calls and queries ----------------------------------------------------------------------

  lemma {:induction false} RecordsExactly(l: Ledger, calls: seq<CallSource>, owner: Owner)
    ensures RecordCalls(l, calls, owner).Ok? <==> forall c :: c in calls && c in l.callSources ==> l.callSources[c] == owner
  {
    if calls != [] {
      var init, last := calls[..|calls| - 1], calls[|calls| - 1];
      assert calls == init + [last];
      RecordsExactly(l, init, owner);
      if RecordCalls(l, init, owner).Ok? { RecordCallsRecords(l, init, owner); }
    }
  }

  /** No call is recorded for rows that do not exist yet. */
  lemma NextRowsOwnNothing(l: Ledger, c: CallSource)
    requires CallsOwned(l) && c in l.callSources
    ensures l.callSources[c].queryId != |l.queries|
  {
    assert CallHasSource(l.querySources, l.callSources, c);
    var src :| src in l.querySources && l.querySources[src].1 == l.callSources[c] && c in CallsOf(l.querySources[src].0);
  }

  lemma QueryAppliesExactly(cal: Calendar, p: ImportLedger.Pending, s: ImportSession, q: ImportQuery)
    requires CallsOwned(p.ledger) && CallsOf(q.hash) == q.callIds
    ensures ApplyQuery(cal, p, s, q).Ok? <==> QueryFits(p.ledger, s, q)
  {
    var l := p.ledger;
    if q.sourceId in l.querySources {
      RecordsExactly(l, q.callIds, l.querySources[q.sourceId].1);
      assert SourceOwned(l.querySources, l.callSources, q.sourceId);
    } else {
      var (inserted, owner) := InsertQuery(l, s, q);
      RecordsExactly(inserted, q.callIds, owner);
      forall c | c in l.callSources ensures l.callSources[c] != owner { NextRowsOwnNothing(l, c); }
    }
  }

  /** The provenance of queries and calls that stand apart from a query is not touched by it. */
  ghost predicate LeavesApart(l: Ledger, l': Ledger, q: ImportQuery) {
    && (forall src :: src != q.sourceId ==> (src in l'.querySources <==> src in l.querySources))
    && (forall src :: src != q.sourceId && src in l.querySources ==> l'.querySources[src] == l.querySources[src])
    && (forall c :: c !in q.callIds ==> (c in l'.callSources <==> c in l.callSources))
  }

  lemma QueryLeavesApart(cal: Calendar, p: ImportLedger.Pending, s: ImportSession, q: ImportQuery)
    requires ApplyQuery(cal, p, s, q).Ok?
    ensures LeavesApart(p.ledger, ApplyQuery(cal, p, s, q).value.ledger, q)
  {
    var l := p.ledger;
    if q.sourceId in l.querySources {
      RecordCallsRecords(l, q.callIds, l.querySources[q.sourceId].1);
    } else {
      RecordCallsRecords(InsertQuery(l, s, q).0, q.callIds, InsertQuery(l, s, q).1);
    }
  }

  lemma FitsApart(l: Ledger, l': Ledger, q: ImportQuery, s: ImportSession, q': ImportQuery)
    requires LeavesApart(l, l', q) && Apart(q, q')
    ensures QueryFits(l', s, q') <==> QueryFits(l, s, q')
  {
    forall c | c in q'.callIds ensures c !in q.callIds {}
  }

  ghost predicate AllFit(l: Ledger, s: ImportSession, queries: seq<ImportQuery>) {
    forall q :: q in queries ==> QueryFits(l, s, q)
  }

  /** What stands apart from all of the queries fits afterwards exactly if it did before. */
  ghost predicate FitsAlike(l: Ledger, l': Ledger, queries: seq<ImportQuery>) {
    forall s, q :: (forall q' :: q' in queries ==> Apart(q', q)) ==> (QueryFits(l', s, q) <==> QueryFits(l, s, q))
  }

  lemma FitsAlikeGrows(l: Ledger, l1: Ledger, l2: Ledger, init: seq<ImportQuery>, last: ImportQuery)
    requires FitsAlike(l, l1, init) && LeavesApart(l1, l2, last)
    ensures FitsAlike(l, l2, init + [last])
  {
    forall s, q | forall q' :: q' in init + [last] ==> Apart(q', q) ensures QueryFits(l2, s, q) <==> QueryFits(l, s, q) {
      assert last in init + [last] && forall q' :: q' in init ==> q' in init + [last];
      FitsApart(l1, l2, last, s, q);
    }
  }

  lemma LastIsApart(init: seq<ImportQuery>, last: ImportQuery)
    requires QueriesApart(init + [last])
    ensures QueriesApart(init) && forall q :: q in init ==> Apart(q, last)
  {
    var queries := init + [last];
    forall q | q in init ensures Apart(q, last) {
      var i :| 0 <= i < |init| && init[i] == q;
      assert Apart(queries[i], queries[|init|]);
    }
    forall i, j | 0 <= i < j < |init| ensures Apart(init[i], init[j]) { assert Apart(queries[i], queries[j]); }
  }

  lemma AllFitSplits(l: Ledger, s: ImportSession, init: seq<ImportQuery>, last: ImportQuery)
    ensures AllFit(l, s, init + [last]) <==> AllFit(l, s, init) && QueryFits(l, s, last)
  {
    assert last in init + [last] && forall q :: q in init ==> q in init + [last];
  }

  lemma {:induction false} QueriesApplyExactly(cal: Calendar, p: ImportLedger.Pending, s: ImportSession, queries: seq<ImportQuery>)
    requires CallsOwned(p.ledger) && QueriesFormed(queries) && QueriesApart(queries)
    ensures ApplyQueries(cal, p, s, queries).Ok? <==> AllFit(p.ledger, s, queries)
    ensures ApplyQueries(cal, p, s, queries).Ok? ==> FitsAlike(p.ledger, ApplyQueries(cal, p, s, queries).value.ledger, queries)
  {
    if queries != [] {
      var init, last := queries[..|queries| - 1], queries[|queries| - 1];
      assert queries == init + [last];
      LastIsApart(init, last);
      QueriesApplyExactly(cal, p, s, init);
      AllFitSplits(p.ledger, s, init, last);
      if ApplyQueries(cal, p, s, init).Ok? {
        var p1 := ApplyQueries(cal, p, s, init).value;
        ApplyQueriesOwns(cal, p, s, init);
        QueryAppliesExactly(cal, p1, s, last);
        assert QueryFits(p1.ledger, s, last) <==> QueryFits(p.ledger, s, last);
        if ApplyQuery(cal, p1, s, last).Ok? {
          QueryLeavesApart(cal, p1, s, last);
          FitsAlikeGrows(p.ledger, p1.ledger, ApplyQuery(cal, p1, s, last).value.ledger, init, last);
        }
      }
    }
  }

  // ----- sessions -------------------------------------------------------------------------------

  /** None of the sessions in front has the key, or the id that goes with it. */
  ghost predicate IsApartFrom(done: seq<ImportSession>, s: ImportSession) {
    forall s' :: s' in done ==> s'.Key() != s.Key() && s'.importedId != s.importedId
  }

  /** The session rows and sources after some sessions of a manifest. */
  ghost predicate RowsAfter(l: Ledger, l': Ledger, done: seq<ImportSession>) {
    && (forall key :: (forall s :: s in done ==> s.Key() != key) ==> (key in l'.sessionSources <==> key in l.sessionSources))
    && (forall key :: key in l.sessionSources ==> key in l'.sessionSources && l'.sessionSources[key] == l.sessionSources[key])
    && (forall id :: id in l.sessions ==>
          id in l'.sessions && l'.sessions[id].provider == l.sessions[id].provider && IsNativeAfter(l, done, id, l'.sessions[id].nativeId))
    && (forall id :: id in l'.sessions && id !in l.sessions ==> IsCreated(l', done, id))
  }

  ghost predicate IsCreated(l': Ledger, done: seq<ImportSession>, id: string)
    requires id in l'.sessions
  {
    exists s :: s in done && s.importedId == id && l'.sessions[id].provider == Some(s.provider) && l'.sessions[id].nativeId == Some(s.nativeId)
  }

  /** Queries that stand apart from those of the sessions in front fit as they did at the start. */
  ghost predicate FitsAfter(l: Ledger, l': Ledger, done: seq<ImportSession>) {
    forall s, q :: StandsApart(done, q) ==> (QueryFits(l', s, q) <==> QueryFits(l, s, q))
  }

  ghost predicate StandsApart(done: seq<ImportSession>, q: ImportQuery) {
    forall s', q' :: s' in done && q' in s'.queries ==> Apart(q', q)
  }

  lemma NativeAfterOnce(l: Ledger, done: seq<ImportSession>, id: string, v: Option<string>, w: Option<string>)
    requires id in l.sessions && IsNativeAfter(l, done, id, v) && IsNativeAfter(l, done, id, w)
    ensures v == w
  {
  }

  lemma NativeTakenExactly(l: Ledger, l': Ledger, done: seq<ImportSession>, s: ImportSession, id: string)
    requires RowsAfter(l, l', done) && IsApartFrom(done, s)
    ensures id in l'.sessions && HasNative(l', id, s.Key()) <==>
              id in l.sessions && l.sessions[id].provider == Some(s.provider) && IsNativeAfter(l, done, id, Some(s.nativeId))
  {
    if id in l.sessions {
      if IsNativeAfter(l, done, id, Some(s.nativeId)) { NativeAfterOnce(l, done, id, Some(s.nativeId), l'.sessions[id].nativeId); }
    } else if id in l'.sessions {
      assert IsCreated(l', done, id);
    }
  }

  lemma OldIdIsTaken(l: Ledger, l': Ledger, done: seq<ImportSession>, s: ImportSession)
    requires RowsAfter(l, l', done) && IsApartFrom(done, s)
    ensures s.importedId in l'.sessions <==> s.importedId in l.sessions
  {
  }

  /** Whether the session opens depends on the ledger the import began with and on the sessions in front. */
  lemma OpensExactly(l: Ledger, l': Ledger, done: seq<ImportSession>, s: ImportSession)
    requires RowsAfter(l, l', done) && IsApartFrom(done, s)
    ensures OpenSession(l', s).Ok? <==> SessionFits(l, done, s)
    ensures OpenSession(l', s).Ok? ==> (OpenSession(l', s).value.None? <==> IsDeleted(l, s))
  {
    assert s.Key() in l'.sessionSources <==> s.Key() in l.sessionSources;
    OldIdIsTaken(l, l', done, s);
    forall id ensures id in l'.sessions && HasNative(l', id, s.Key()) <==>
                        id in l.sessions && l.sessions[id].provider == Some(s.provider) && IsNativeAfter(l, done, id, Some(s.nativeId))
    {
      NativeTakenExactly(l, l', done, s, id);
    }
  }

  lemma NativeAfterOther(l: Ledger, done: seq<ImportSession>, s: ImportSession, id: string, native: Option<string>)
    requires id in l.sessions && IsNativeAfter(l, done, id, native) && s.importedId != id
    ensures IsNativeAfter(l, done + [s], id, native)
  {
    assert forall s' :: s' in done ==> s' in done + [s];
  }

  lemma NativeAfterOwn(l: Ledger, done: seq<ImportSession>, s: ImportSession)
    requires s.importedId in l.sessions && IsApartFrom(done, s)
    ensures IsNativeAfter(l, done + [s], s.importedId, Some(s.nativeId))
  {
    assert s in done + [s];
  }

  /** How the session table changes when a session opens. */
  ghost predicate Opened(l: Ledger, s: ImportSession, l': Ledger) {
    && l'.sessions == l.sessions[s.importedId := SessionRow(if s.importedId in l.sessions then l.sessions[s.importedId].provider else Some(s.provider),
                                                            Some(s.nativeId),
                                                            if s.importedId in l.sessions then l.sessions[s.importedId].totals else ZERO)]
    && l'.sessionSources == l.sessionSources[s.Key() := SessionSource(s.hash, s.importedId)]
    && l'.querySources == l.querySources && l'.callSources == l.callSources
  }

  lemma OpenIsOpened(l: Ledger, s: ImportSession)
    requires OpenSession(l, s).Ok? && OpenSession(l, s).value.Some?
    ensures Opened(l, s, OpenSession(l, s).value.value)
  {
    if s.Key() in l.sessionSources { assert l.sessionSources[s.Key() := l.sessionSources[s.Key()]] == l.sessionSources; }
  }

  lemma SourcesAfterOpened(l: Ledger, l1: Ledger, l2: Ledger, done: seq<ImportSession>, s: ImportSession)
    requires RowsAfter(l, l1, done) && l2.sessionSources == l1.sessionSources[s.Key() := SessionSource(s.hash, s.importedId)]
    requires s.Key() in l.sessionSources ==> l.sessionSources[s.Key()] == SessionSource(s.hash, s.importedId)
    ensures forall key :: (forall s' :: s' in done + [s] ==> s'.Key() != key) ==> (key in l2.sessionSources <==> key in l.sessionSources)
    ensures forall key :: key in l.sessionSources ==> key in l2.sessionSources && l2.sessionSources[key] == l.sessionSources[key]
  {
    assert s in done + [s] && forall s' :: s' in done ==> s' in done + [s];
  }

  lemma CreatedAfter(l1: Ledger, l2: Ledger, done: seq<ImportSession>, s: ImportSession, id: string)
    requires id in l1.sessions && id in l2.sessions && l2.sessions[id] == l1.sessions[id] && IsCreated(l1, done, id)
    ensures IsCreated(l2, done + [s], id)
  {
    var s' :| s' in done && s'.importedId == id && l1.sessions[id].provider == Some(s'.provider) && l1.sessions[id].nativeId == Some(s'.nativeId);
    assert s' in done + [s];
  }

  lemma RowsAfterOpened(l: Ledger, l1: Ledger, l2: Ledger, done: seq<ImportSession>, s: ImportSession)
    requires RowsAfter(l, l1, done) && IsApartFrom(done, s) && Opened(l1, s, l2) && SessionFits(l, done, s)
    requires s.importedId in l1.sessions ==> s.importedId in l.sessions
    ensures RowsAfter(l, l2, done + [s])
  {
    SourcesAfterOpened(l, l1, l2, done, s);
    forall id | id in l.sessions ensures IsNativeAfter(l, done + [s], id, l2.sessions[id].nativeId) {
      if id == s.importedId { NativeAfterOwn(l, done, s); } else { NativeAfterOther(l, done, s, id, l1.sessions[id].nativeId); }
    }
    forall id | id in l2.sessions && id !in l.sessions ensures IsCreated(l2, done + [s], id) {
      if id == s.importedId { assert s in done + [s]; } else { CreatedAfter(l1, l2, done, s, id); }
    }
  }

  lemma RowsAfterDeleted(l: Ledger, l1: Ledger, done: seq<ImportSession>, s: ImportSession)
    requires RowsAfter(l, l1, done) && IsDeleted(l, s)
    ensures RowsAfter(l, l1, done + [s])
  {
    assert s in done + [s] && forall s' :: s' in done ==> s' in done + [s];
    forall id | id in l.sessions ensures IsNativeAfter(l, done + [s], id, l1.sessions[id].nativeId) {
      NativeAfterOther(l, done, s, id, l1.sessions[id].nativeId);
    }
    forall id | id in l1.sessions && id !in l.sessions ensures IsCreated(l1, done + [s], id) { CreatedAfter(l1, l1, done, s, id); }
  }

  lemma FitsAfterOne(l: Ledger, l1: Ledger, l2: Ledger, done: seq<ImportSession>, s: ImportSession)
    requires FitsAfter(l, l1, done) && FitsAlike(l1, l2, s.queries)
    ensures FitsAfter(l, l2, done + [s])
  {
    forall x, q | StandsApart(done + [s], q) ensures QueryFits(l2, x, q) <==> QueryFits(l, x, q) {
      assert s in done + [s] && forall s' :: s' in done ==> s' in done + [s];
      assert StandsApart(done, q);
    }
  }

  lemma NothingIsAlike(l: Ledger, queries: seq<ImportQuery>)
    ensures FitsAlike(l, l, queries)
  {
  }

  /** What the import has done after some sessions. */
  ghost predicate IsAfter(l: Ledger, p: ImportLedger.Pending, done: seq<ImportSession>) {
    CallsOwned(p.ledger) && SourcesNamed(p.ledger) && RowsAfter(l, p.ledger, done) && FitsAfter(l, p.ledger, done)
  }

  ghost predicate MayFollow(done: seq<ImportSession>, s: ImportSession) {
    && IsApartFrom(done, s) && s.importedId == ImportedId(s.Key()) && QueriesFormed(s.queries) && QueriesApart(s.queries)
    && forall q :: q in s.queries ==> StandsApart(done, q)
  }

  /** Opening a session leaves the provenance of queries and calls alone. */
  lemma OpenedFits(l: Ledger, s: ImportSession, l1: Ledger)
    requires Opened(l, s, l1)
    ensures forall x, q :: QueryFits(l1, x, q) <==> QueryFits(l, x, q)
  {
  }

  lemma AllFitAlike(l: Ledger, p: Ledger, l1: Ledger, done: seq<ImportSession>, s: ImportSession)
    requires FitsAfter(l, p, done) && Opened(p, s, l1) && forall q :: q in s.queries ==> StandsApart(done, q)
    ensures AllFit(l1, s, s.queries) <==> AllFit(l, s, s.queries)
  {
    OpenedFits(p, s, l1);
  }

  lemma AfterQueries(l: Ledger, p: Ledger, done: seq<ImportSession>, s: ImportSession, l1: Ledger, l2: Ledger)
    requires FitsAfter(l, p, done) && Opened(p, s, l1) && RowsAfter(l, l1, done + [s]) && FitsAlike(l1, l2, s.queries)
    requires l2.sessions == l1.sessions && l2.sessionSources == l1.sessionSources
    ensures RowsAfter(l, l2, done + [s]) && FitsAfter(l, l2, done + [s])
  {
    OpenedFits(p, s, l1);
    assert FitsAlike(p, l2, s.queries);
    FitsAfterOne(l, p, l2, done, s);
    forall id | id in l2.sessions && id !in l.sessions ensures IsCreated(l2, done + [s], id) { assert IsCreated(l1, done + [s], id); }
  }

  lemma OpenedQueriesApply(cal: Calendar, l: Ledger, p: ImportLedger.Pending, done: seq<ImportSession>, s: ImportSession, l1: Ledger)
    requires IsAfter(l, p, done) && MayFollow(done, s) && RowsAfter(l, l1, done + [s]) && Opened(p.ledger, s, l1)
    requires CallsOwned(l1) && SourcesNamed(l1)
    ensures var p1 := p.(ledger := l1);
            && (ApplyQueries(cal, p1, s, s.queries).Ok? <==> AllFit(l, s, s.queries))
            && (ApplyQueries(cal, p1, s, s.queries).Ok? ==> IsAfter(l, ApplyQueries(cal, p1, s, s.queries).value, done + [s]))
  {
    var p1 := p.(ledger := l1);
    QueriesApplyExactly(cal, p1, s, s.queries);
    AllFitAlike(l, p.ledger, l1, done, s);
    if ApplyQueries(cal, p1, s, s.queries).Ok? {
      ApplyQueriesOwns(cal, p1, s, s.queries);
      AfterQueries(l, p.ledger, done, s, l1, ApplyQueries(cal, p1, s, s.queries).value.ledger);
    }
  }

  lemma OpenSessionApplies(cal: Calendar, l: Ledger, p: ImportLedger.Pending, done: seq<ImportSession>, s: ImportSession)
    requires IsAfter(l, p, done) && MayFollow(done, s) && SessionFits(l, done, s) && !IsDeleted(l, s)
    requires OpenSession(p.ledger, s).Ok? && OpenSession(p.ledger, s).value.Some?
    ensures ApplySession(cal, p, s).Ok? <==> AllFit(l, s, s.queries)
    ensures ApplySession(cal, p, s).Ok? ==> IsAfter(l, ApplySession(cal, p, s).value, done + [s])
  {
    var l1 := OpenSession(p.ledger, s).value.value;
    OldIdIsTaken(l, p.ledger, done, s);
    OpenOwns(p.ledger, s);
    OpenIsOpened(p.ledger, s);
    RowsAfterOpened(l, p.ledger, l1, done, s);
    OpenedQueriesApply(cal, l, p, done, s, l1);
  }

  lemma SessionAppliesExactly(cal: Calendar, l: Ledger, p: ImportLedger.Pending, done: seq<ImportSession>, s: ImportSession)
    requires IsAfter(l, p, done) && MayFollow(done, s)
    ensures ApplySession(cal, p, s).Ok? <==> Fits(l, done, s)
    ensures ApplySession(cal, p, s).Ok? ==> IsAfter(l, ApplySession(cal, p, s).value, done + [s])
  {
    OpensExactly(l, p.ledger, done, s);
    if SessionFits(l, done, s) {
      if IsDeleted(l, s) {
        RowsAfterDeleted(l, p.ledger, done, s);
        NothingIsAlike(p.ledger, s.queries);
        FitsAfterOne(l, p.ledger, p.ledger, done, s);
      } else {
        OpenSessionApplies(cal, l, p, done, s);
      }
    }
  }

  lemma LastMayFollow(init: seq<ImportSession>, last: ImportSession)
    requires NamesOnce(init + [last]) && ManifestFormed(init + [last])
    ensures NamesOnce(init) && ManifestFormed(init) && MayFollow(init, last)
  {
    var manifest := init + [last];
    assert last in manifest && forall s :: s in init ==> s in manifest;
    forall s | s in init ensures SessionApart(s, last) && s.importedId != last.importedId {
      var i :| 0 <= i < |init| && init[i] == s;
      assert SessionApart(manifest[i], manifest[|init|]);
      if s.importedId == last.importedId { ImportedIdIsInjective(s.Key(), last.Key()); }
    }
    forall i, j | 0 <= i < j < |init| ensures SessionApart(init[i], init[j]) { assert SessionApart(manifest[i], manifest[j]); }
  }

  lemma FitsSplits(l: Ledger, init: seq<ImportSession>, last: ImportSession)
    ensures ManifestFits(l, init + [last]) <==> ManifestFits(l, init) && Fits(l, init, last)
  {
    var manifest := init + [last];
    forall n | 0 <= n < |init| ensures manifest[..n] == init[..n] && manifest[n] == init[n] {}
    assert manifest[..|init|] == init && manifest[|init|] == last;
    if ManifestFits(l, manifest) {
      assert Fits(l, manifest[..|init|], manifest[|init|]);
      forall n | 0 <= n < |init| ensures Fits(l, init[..n], init[n]) { assert Fits(l, manifest[..n], manifest[n]); }
    }
  }

  lemma {:induction false} SessionsApplyExactly(cal: Calendar, l: Ledger, manifest: seq<ImportSession>)
    requires CallsOwned(l) && SourcesNamed(l) && ManifestFormed(manifest) && NamesOnce(manifest)
    ensures ApplySessions(cal, ImportLedger.Pending(l, {}, {}), manifest).Ok? <==> ManifestFits(l, manifest)
    ensures ApplySessions(cal, ImportLedger.Pending(l, {}, {}), manifest).Ok? ==>
              IsAfter(l, ApplySessions(cal, ImportLedger.Pending(l, {}, {}), manifest).value, manifest)
  {
    var start := ImportLedger.Pending(l, {}, {});
    if manifest != [] {
      var init, last := manifest[..|manifest| - 1], manifest[|manifest| - 1];
      assert manifest == init + [last];
      LastMayFollow(init, last);
      SessionsApplyExactly(cal, l, init);
      FitsSplits(l, init, last);
      if ApplySessions(cal, start, init).Ok? {
        SessionAppliesExactly(cal, l, ApplySessions(cal, start, init).value, init, last);
      }
    }
  }

  /** An import of a manifest that names everything once commits exactly if each session was imported before with the same
      content or is new, and each query of a session that is not deleted was imported before with the same content or
      with none of its calls. */
  lemma ImportCommitsExactly(cal: Calendar, l: Ledger, manifest: seq<ImportSession>)
    requires CallsOwned(l) && SourcesNamed(l) && Mirrors(cal, l) && ManifestFormed(manifest) && NamesOnce(manifest)
    ensures Apply(cal, l, manifest).Ok? <==> ManifestFits(l, manifest)
  {
    var start := ImportLedger.Pending(l, {}, {});
    SessionsApplyExactly(cal, l, manifest);
    if ApplySessions(cal, start, manifest).Ok? {
      ApplySessionsKeepsMirrors(cal, start, manifest);
      RebuildRestoresMirrors(cal, ApplySessions(cal, start, manifest).value);
    }
  }
}
