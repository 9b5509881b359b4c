/**
 What an import writes: one row in each usage table for every query it imports, with that query's
 session, time, usage and turns, so that totals grow by exactly what was imported.
 */
module ImportRows {
  import opened Wrappers
  import opened Rollouts
  import opened Sums
  import opened ImportPlan
  import opened ImportLedger
  import opened ImportOnce
  import opened ImportRounds

  /** A query with the session it is imported for. */
  datatype Entry = Entry(session: ImportSession, query: ImportQuery)

  predicate IsRowOf(r: UsageRow, e: Entry) {
    r.session == e.session.importedId && r.timestamp == e.query.timestamp && r.usage == e.query.usage && r.turns == e.query.turns
  }

  predicate IsNew(news: seq<Entry>, src: QuerySource) {
    exists k :: 0 <= k < |news| && news[k].query.sourceId == src
  }

  /** The two tables grow by the same entries. */
  ghost predicate RowsWritten(l: Ledger, news: seq<Entry>, l': Ledger) {
    && |l'.queries| == |l.queries| + |news| && |l'.usageRows| == |l.usageRows| + |news|
    && l.queries <= l'.queries && l.usageRows <= l'.usageRows
    && forall k :: 0 <= k < |news| ==> IsRowOf(l'.queries[|l.queries| + k], news[k]) && IsRowOf(l'.usageRows[|l.usageRows| + k], news[k])
  }

  /** Each entry's source is recorded with its hash for its own two rows, and no other source is. */
  ghost predicate SourcesWritten(sources: QuerySources, queryId: nat, usageId: nat, news: seq<Entry>, sources': QuerySources) {
    && (forall k :: 0 <= k < |news| ==> SourceWritten(sources, queryId + k, usageId + k, news[k], sources'))
    && (forall src :: src in sources' ==> src in sources || IsNew(news, src))
    && (forall src :: src in sources ==> src in sources' && sources'[src] == sources[src])
  }

  predicate SourceWritten(sources: QuerySources, queryId: nat, usageId: nat, e: Entry, sources': QuerySources) {
    && e.query.sourceId !in sources && e.query.sourceId in sources'
    && sources'[e.query.sourceId] == (e.query.hash, Owner(e.session.importedId, queryId, usageId))
  }

  ghost predicate Writes(l: Ledger, news: seq<Entry>, l': Ledger) {
    RowsWritten(l, news, l') && SourcesWritten(l.querySources, |l.queries|, |l.usageRows|, news, l'.querySources)
  }

  lemma InsertWritesRows(l: Ledger, news: seq<Entry>, l1: Ledger, s: ImportSession, q: ImportQuery, l2: Ledger)
    requires RowsWritten(l, news, l1)
    requires l2.queries == InsertQuery(l1, s, q).0.queries && l2.usageRows == InsertQuery(l1, s, q).0.usageRows
    ensures RowsWritten(l, news + [Entry(s, q)], l2)
  {
  }

  lemma NextSourceWritten(sources: QuerySources, queryId: nat, usageId: nat, news: seq<Entry>, sources1: QuerySources, e: Entry, sources2: QuerySources)
    requires SourcesWritten(sources, queryId, usageId, news, sources1) && e.query.sourceId !in sources1
    requires sources2 == sources1[e.query.sourceId := (e.query.hash, Owner(e.session.importedId, queryId + |news|, usageId + |news|))]
    ensures SourcesWritten(sources, queryId, usageId, news + [e], sources2)
  {
    var news' := news + [e];
    forall k | 0 <= k < |news'| ensures SourceWritten(sources, queryId + k, usageId + k, news'[k], sources2) {
      if k < |news| { assert SourceWritten(sources, queryId + k, usageId + k, news[k], sources1); }
    }
    forall src | src in sources2 && src !in sources ensures IsNew(news', src) {
      if src == e.query.sourceId {
        assert news'[|news|] == e;
      } else {
        var k :| 0 <= k < |news| && news[k].query.sourceId == src;
        assert news'[k] == news[k];
      }
    }
  }

  lemma QueryWrites(cal: Calendar, l: Ledger, news: seq<Entry>, p: Pending, s: ImportSession, q: ImportQuery)
    returns (news': seq<Entry>)
    requires Writes(l, news, p.ledger) && ApplyQuery(cal, p, s, q).Ok?
    ensures Writes(l, news', ApplyQuery(cal, p, s, q).value.ledger)
    ensures news' == news || news' == news + [Entry(s, q)]
  {
    var l' := ApplyQuery(cal, p, s, q).value.ledger;
    if q.sourceId in p.ledger.querySources {
      RecordCallsRecords(p.ledger, q.callIds, p.ledger.querySources[q.sourceId].1);
      news' := news;
    } else {
      var (inserted, owner) := InsertQuery(p.ledger, s, q);
      RecordCallsRecords(inserted, q.callIds, owner);
      InsertWritesRows(l, news, p.ledger, s, q, l');
      NextSourceWritten(l.querySources, |l.queries|, |l.usageRows|, news, p.ledger.querySources, Entry(s, q), l'.querySources);
      news' := news + [Entry(s, q)];
    }
  }

  /** The entries are queries of the manifest. */
  ghost predicate FromManifest(manifest: seq<ImportSession>, news: seq<Entry>) {
    forall k :: 0 <= k < |news| ==> news[k].session in manifest && news[k].query in news[k].session.queries
  }

  lemma {:induction false} QueriesWrite(cal: Calendar, l: Ledger, news: seq<Entry>, p: Pending, s: ImportSession, queries: seq<ImportQuery>)
    returns (news': seq<Entry>)
    requires Writes(l, news, p.ledger) && ApplyQueries(cal, p, s, queries).Ok?
    ensures Writes(l, news', ApplyQueries(cal, p, s, queries).value.ledger) && news <= news'
    ensures forall k :: |news| <= k < |news'| ==> news'[k].session == s && news'[k].query in queries
  {
    news' := news;
    if queries != [] {
      var init, last := queries[..|queries| - 1], queries[|queries| - 1];
      assert queries == init + [last];
      var news1 := QueriesWrite(cal, l, news, p, s, init);
      news' := QueryWrites(cal, l, news1, ApplyQueries(cal, p, s, init).value, s, last);
    }
  }

  lemma {:induction false} SessionsWrite(cal: Calendar, l: Ledger, sessions: seq<ImportSession>) returns (news: seq<Entry>)
    requires ApplySessions(cal, Pending(l, {}, {}), sessions).Ok?
    ensures Writes(l, news, ApplySessions(cal, Pending(l, {}, {}), sessions).value.ledger) && FromManifest(sessions, news)
  {
    news := [];
    if sessions != [] {
      var init, last := sessions[..|sessions| - 1], sessions[|sessions| - 1];
      assert sessions == init + [last];
      news := SessionsWrite(cal, l, init);
      var p1 := ApplySessions(cal, Pending(l, {}, {}), init).value;
      var found := OpenSession(p1.ledger, last).value;
      if found.Some? {
        news := QueriesWrite(cal, l, news, p1.(ledger := found.value), last, last.queries);
      }
    }
  }

  /** A committed import writes rows for queries of its manifest, and every query it leaves recorded that was
      not before is one of them. */
  lemma ImportWrites(cal: Calendar, l: Ledger, manifest: seq<ImportSession>, l': Ledger) returns (news: seq<Entry>)
    requires Apply(cal, l, manifest) == Ok(l')
    ensures Writes(l, news, l') && FromManifest(manifest, news)
  {
    news := SessionsWrite(cal, l, manifest);
    RebuildKeepsRecords(cal, ApplySessions(cal, Pending(l, {}, {}), manifest).value);
  }

  /** No two queries of the manifest have one source. */
  ghost predicate DistinctSources(manifest: seq<ImportSession>) {
    forall s, q, s', q' :: s in manifest && q in s.queries && s' in manifest && q' in s'.queries && q.sourceId == q'.sourceId ==>
      s == s' && q == q'
  }

  /** Every query of a session that is there after the import, and whose source was not recorded before, is
      written as an entry of its own; with one query per source that is the query itself. */
  lemma ImportedQueryIsWritten(cal: Calendar, l: Ledger, manifest: seq<ImportSession>, l': Ledger, news: seq<Entry>,
                               s: ImportSession, q: ImportQuery) returns (k: nat)
    requires CallsOwned(l) && SourcesNamed(l) && ManifestFormed(manifest) && Apply(cal, l, manifest) == Ok(l')
    requires Writes(l, news, l') && FromManifest(manifest, news)
    requires s in manifest && q in s.queries && s.importedId in l'.sessions && q.sourceId !in l.querySources
    ensures k < |news| && news[k].query.sourceId == q.sourceId && news[k].query.hash == q.hash
    ensures news[k].session.importedId == s.importedId
    ensures DistinctSources(manifest) ==> news[k] == Entry(s, q)
  {
    ImportOwns(cal, l, manifest);
    assert SessionRecorded(l', s);
    assert IsNew(news, q.sourceId);
    k :| 0 <= k < |news| && news[k].query.sourceId == q.sourceId;
    assert SourceWritten(l.querySources, |l.queries| + k, |l.usageRows| + k, news[k], l'.querySources);
  }

  // ----- totals -------------------------------------------------------------------------------

  /** What totals count. */
  datatype Measure = QueryCount | TurnCount | Tokens(bucket: Bucket)

  function OfTotals(t: Totals, m: Measure): nat {
    match m
    case QueryCount => t.queries
    case TurnCount => t.turns
    case Tokens(b) => t.usage.In(b)
  }

  function OfRow(r: UsageRow, m: Measure): nat {
    match m
    case QueryCount => 1
    case TurnCount => r.turns
    case Tokens(b) => r.usage.In(b)
  }

  function OfEntry(e: Entry, m: Measure): nat {
    match m
    case QueryCount => 1
    case TurnCount => e.query.turns
    case Tokens(b) => e.query.usage.In(b)
  }

  /** A session's totals are the sums over its rows. */
  lemma {:induction false} SessionTotalsAddUp(rows: seq<UsageRow>, id: string, m: Measure)
    ensures OfTotals(SessionTotals(rows, id), m) == Total(Picked(rows, (r: UsageRow) => r.session == id, (r: UsageRow) => OfRow(r, m)))
  {
    if rows != [] {
      SessionTotalsAddUp(rows[..|rows| - 1], id, m);
      PickedLast(rows, (r: UsageRow) => r.session == id, (r: UsageRow) => OfRow(r, m));
    }
  }

  /** A date's totals are the sums over the rows of that date. */
  lemma {:induction false} DateTotalsAddUp(cal: Calendar, rows: seq<UsageRow>, d: string, m: Measure)
    ensures OfTotals(DateTotals(cal, rows, d), m)
         == Total(Picked(rows, (r: UsageRow) => cal(r.timestamp) == Some(d), (r: UsageRow) => OfRow(r, m)))
  {
    if rows != [] {
      DateTotalsAddUp(cal, rows[..|rows| - 1], d, m);
      PickedLast(rows, (r: UsageRow) => cal(r.timestamp) == Some(d), (r: UsageRow) => OfRow(r, m));
    }
  }

  /** Rows written for entries weigh what the entries weigh. */
  lemma RowsWeighAsEntries(rows: seq<UsageRow>, news: seq<Entry>, whenRow: UsageRow -> bool, whenEntry: Entry -> bool, m: Measure)
    requires |rows| == |news|
    requires forall k :: 0 <= k < |news| ==> IsRowOf(rows[k], news[k]) && (whenRow(rows[k]) <==> whenEntry(news[k]))
    ensures Picked(rows, whenRow, (r: UsageRow) => OfRow(r, m)) == Picked(news, whenEntry, (e: Entry) => OfEntry(e, m))
  {
    forall k | 0 <= k < |news| ensures OfRow(rows[k], m) == OfEntry(news[k], m) { assert IsRowOf(rows[k], news[k]); }
  }

  /** What the entries of one session weigh. */
  function SessionWeight(news: seq<Entry>, id: string, m: Measure): nat {
    Total(Picked(news, (e: Entry) => e.session.importedId == id, (e: Entry) => OfEntry(e, m)))
  }

  /** What the entries of one date weigh. */
  function DateWeight(cal: Calendar, news: seq<Entry>, d: string, m: Measure): nat {
    Total(Picked(news, (e: Entry) => cal(e.query.timestamp) == Some(d), (e: Entry) => OfEntry(e, m)))
  }

  lemma SessionSumGrows(l: Ledger, news: seq<Entry>, l': Ledger, id: string, m: Measure)
    requires RowsWritten(l, news, l')
    ensures OfTotals(SessionTotals(l'.queries, id), m) == OfTotals(SessionTotals(l.queries, id), m) + SessionWeight(news, id, m)
  {
    var more := l'.queries[|l.queries|..];
    assert l'.queries == l.queries + more;
    SessionTotalsAddUp(l.queries, id, m);
    SessionTotalsAddUp(l'.queries, id, m);
    PickedSplits(l.queries, more, (r: UsageRow) => r.session == id, (r: UsageRow) => OfRow(r, m));
    RowsWeighAsEntries(more, news, (r: UsageRow) => r.session == id, (e: Entry) => e.session.importedId == id, m);
  }

  lemma DateSumGrows(cal: Calendar, l: Ledger, news: seq<Entry>, l': Ledger, d: string, m: Measure)
    requires RowsWritten(l, news, l')
    ensures OfTotals(DateTotals(cal, l'.usageRows, d), m) == OfTotals(DateTotals(cal, l.usageRows, d), m) + DateWeight(cal, news, d, m)
  {
    var more := l'.usageRows[|l.usageRows|..];
    assert l'.usageRows == l.usageRows + more;
    DateTotalsAddUp(cal, l.usageRows, d, m);
    DateTotalsAddUp(cal, l'.usageRows, d, m);
    PickedSplits(l.usageRows, more, (r: UsageRow) => cal(r.timestamp) == Some(d), (r: UsageRow) => OfRow(r, m));
    RowsWeighAsEntries(more, news, (r: UsageRow) => cal(r.timestamp) == Some(d), (e: Entry) => cal(e.query.timestamp) == Some(d), m);
  }

  lemma DeletedStaysDeleted(l: Ledger, l': Ledger, key: SessionKey)
    requires SourcesNamed(l) && Extends(l, l')
    ensures key in l.sessionSources && ImportedId(key) in l'.sessions ==> ImportedId(key) in l.sessions
  {
    if key in l.sessionSources { assert l.sessionSources[key].importedId == ImportedId(key); }
  }

  /** A session the import creates had no rows before. */
  lemma CreatedSessionWasVacant(cal: Calendar, l: Ledger, manifest: seq<ImportSession>, l': Ledger, id: string)
    requires Mirrors(cal, l) && CallsOwned(l) && SourcesNamed(l) && ManifestFormed(manifest) && Apply(cal, l, manifest) == Ok(l')
    requires id in l'.sessions && id !in l.sessions
    ensures SessionTotals(l.queries, id) == ZERO
  {
    ImportFollows(cal, l, manifest, l');
    ImportOwns(cal, l, manifest);
    var s :| s in manifest && s.importedId == id;
    DeletedStaysDeleted(l, l', s.Key());
    assert Vacant(l, ImportedId(s.Key()));
  }

  /** The totals of every session and date grow by exactly what was imported for them. */
  lemma TotalsGrowByImported(cal: Calendar, l: Ledger, manifest: seq<ImportSession>, l': Ledger, news: seq<Entry>, m: Measure)
    requires Mirrors(cal, l) && CallsOwned(l) && SourcesNamed(l) && ManifestFormed(manifest) && Apply(cal, l, manifest) == Ok(l')
    requires Writes(l, news, l')
    ensures forall id :: id in l'.sessions ==>
      OfTotals(l'.sessions[id].totals, m) == (if id in l.sessions then OfTotals(l.sessions[id].totals, m) else 0) + SessionWeight(news, id, m)
    ensures forall d :: OfTotals(DailyOf(l', d), m) == OfTotals(DailyOf(l, d), m) + DateWeight(cal, news, d, m)
  {
    ImportKeepsMirrors(cal, l, manifest);
    forall id | id in l'.sessions
      ensures OfTotals(l'.sessions[id].totals, m) == (if id in l.sessions then OfTotals(l.sessions[id].totals, m) else 0) + SessionWeight(news, id, m)
    {
      SessionSumGrows(l, news, l', id, m);
      if id !in l.sessions { CreatedSessionWasVacant(cal, l, manifest, l', id); }
    }
    forall d ensures OfTotals(DailyOf(l', d), m) == OfTotals(DailyOf(l, d), m) + DateWeight(cal, news, d, m) {
      DateSumGrows(cal, l, news, l', d, m);
    }
  }
}
