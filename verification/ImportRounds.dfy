/**
 From a plan to the ledger and back to the next plan: a committed import records exactly the
 planned calls and keeps the planned roots, and planning again over unchanged transcripts plans
 nothing unless the import gave up a native id that kept another root from being imported.
 */
module ImportRounds {
  import opened Wrappers
  import opened Rollouts
  import opened RolloutGraph
  import opened ImportPlan
  import opened ImportReplan
  import opened ImportLedger
  import opened ImportOnce

  /** What the Codex planner reads of the ledger's provenance. */
  function ProvenanceOf(l: Ledger): Provenance {
    Provenance(set c | c in l.callSources && c.CodexCall? :: c.turn,
               map src | src in l.querySources && src.CodexTurn? && l.querySources[src].0.CodexHash? ::
                 src.turn := l.querySources[src].0.fingerprint)
  }

  lemma CodexCallsHold(turns: seq<TurnRef>, t: TurnRef)
    ensures CodexCall(t) in CodexCalls(turns) <==> t in turns
  {
    if t in turns {
      var i :| 0 <= i < |turns| && turns[i] == t;
      assert CodexCalls(turns)[i] == CodexCall(t);
    }
  }

  /** Codex queries are hashed over Codex calls, their own turn among them. */
  ghost predicate CodexSourced(queries: QuerySources) {
    forall t :: CodexTurn(t) in queries ==>
      queries[CodexTurn(t)].0.CodexHash? && t in queries[CodexTurn(t)].0.fingerprint.callIds
  }

  ghost predicate CodexFormed(manifest: seq<ImportSession>) {
    forall s, q :: s in manifest && q in s.queries && q.sourceId.CodexTurn? ==>
      q.hash.CodexHash? && q.sourceId.turn in q.hash.fingerprint.callIds
  }

  lemma {:induction false} QueriesKeepSourced(cal: Calendar, p: ImportLedger.Pending, s: ImportSession, queries: seq<ImportQuery>)
    requires CodexSourced(p.ledger.querySources) && ApplyQueries(cal, p, s, queries).Ok?
    requires forall q :: q in queries && q.sourceId.CodexTurn? ==> q.hash.CodexHash? && q.sourceId.turn in q.hash.fingerprint.callIds
    ensures CodexSourced(ApplyQueries(cal, p, s, queries).value.ledger.querySources)
  {
    if queries != [] {
      var init, last := queries[..|queries| - 1], queries[|queries| - 1];
      assert queries == init + [last];
      QueriesKeepSourced(cal, p, s, init);
      var l := ApplyQueries(cal, p, s, init).value.ledger;
      if last.sourceId in l.querySources {
        RecordCallsRecords(l, last.callIds, l.querySources[last.sourceId].1);
      } else {
        var (inserted, owner) := InsertQuery(l, s, last);
        RecordCallsRecords(inserted, last.callIds, owner);
      }
    }
  }

  lemma {:induction false} SessionsKeepSourced(cal: Calendar, p: ImportLedger.Pending, sessions: seq<ImportSession>)
    requires CodexSourced(p.ledger.querySources) && CodexFormed(sessions) && ApplySessions(cal, p, sessions).Ok?
    ensures CodexSourced(ApplySessions(cal, p, sessions).value.ledger.querySources)
  {
    if sessions != [] {
      var init, last := sessions[..|sessions| - 1], sessions[|sessions| - 1];
      assert sessions == init + [last];
      SessionsKeepSourced(cal, p, init);
      var p1 := ApplySessions(cal, p, init).value;
      var found := OpenSession(p1.ledger, last).value;
      if found.Some? { QueriesKeepSourced(cal, p1.(ledger := found.value), last, last.queries); }
    }
  }

  lemma {:induction false} ImportsKeepSourced(cal: Calendar, l: Ledger, manifests: seq<seq<ImportSession>>)
    requires CodexSourced(l.querySources) && forall m :: m in manifests ==> CodexFormed(m)
    ensures CodexSourced(Imports(cal, l, manifests).querySources)
  {
    if manifests != [] {
      var init, last := manifests[..|manifests| - 1], manifests[|manifests| - 1];
      assert manifests == init + [last];
      ImportsKeepSourced(cal, l, init);
      var l1 := Imports(cal, l, init);
      if Apply(cal, l1, last).Ok? {
        SessionsKeepSourced(cal, ImportLedger.Pending(l1, {}, {}), last);
        RebuildKeepsRecords(cal, ApplySessions(cal, ImportLedger.Pending(l1, {}, {}), last).value);
      }
    }
  }

  /** The planner's assumption about earlier imports holds of every ledger that imports built. */
  lemma LedgerRecordsCalls(cal: Calendar, l: Ledger, manifests: seq<seq<ImportSession>>)
    requires CallsOwned(l) && SourcesNamed(l) && Mirrors(cal, l) && CodexSourced(l.querySources)
    requires forall m :: m in manifests ==> ManifestFormed(m) && CodexFormed(m)
    ensures CallsRecorded(ProvenanceOf(Imports(cal, l, manifests)))
  {
    ImportsOwn(cal, l, manifests);
    ImportsKeepSourced(cal, l, manifests);
    SourcedCallsAreRecorded(Imports(cal, l, manifests));
  }

  lemma SourcedCallIsRecorded(l: Ledger, t: TurnRef, k: TurnRef)
    requires CallsOwned(l) && CodexSourced(l.querySources) && CodexTurn(t) in l.querySources
    requires k in l.querySources[CodexTurn(t)].0.fingerprint.callIds
    ensures CodexCall(k) in l.callSources
  {
    assert SourceOwned(l.querySources, l.callSources, CodexTurn(t));
    CodexCallsHold(l.querySources[CodexTurn(t)].0.fingerprint.callIds, k);
  }

  lemma ProvenanceQuery(l: Ledger, t: TurnRef)
    ensures t in ProvenanceOf(l).queries <==> CodexTurn(t) in l.querySources && l.querySources[CodexTurn(t)].0.CodexHash?
    ensures t in ProvenanceOf(l).queries ==> ProvenanceOf(l).queries[t] == l.querySources[CodexTurn(t)].0.fingerprint
  {
  }

  lemma SourcedCallsAreRecorded(l: Ledger)
    requires CallsOwned(l) && CodexSourced(l.querySources)
    ensures CallsRecorded(ProvenanceOf(l))
  {
    var prov := ProvenanceOf(l);
    forall t | t in prov.queries ensures t in prov.queries[t].callIds && forall k :: k in prov.queries[t].callIds ==> k in prov.calls {
      ProvenanceQuery(l, t);
      forall k | k in prov.queries[t].callIds ensures CodexCall(k) in l.callSources { SourcedCallIsRecorded(l, t, k); }
    }
  }

  // ----- what an import writes ----------------------------------------------------------------

  /** The entry of a planned query in a manifest. */
  ghost predicate IsImportOf(iq: ImportQuery, q: Query) {
    && iq.sourceId == CodexTurn(q.sourceId) && iq.hash == CodexHash(q.fingerprint)
    && iq.callIds == CodexCalls(q.callIds) && iq.usage == q.usage
  }

  ghost predicate IsClaudeQuery(iq: ImportQuery) {
    iq.sourceId.ClaudePrompt? && forall c :: c in iq.callIds ==> c.ClaudeMessage?
  }

  ghost predicate Accounted(plan: seq<Query>, iq: ImportQuery) {
    IsClaudeQuery(iq) || exists q :: q in plan && IsImportOf(iq, q)
  }

  ghost predicate InSession(s: ImportSession, q: Query) {
    s.provider == Codex && s.nativeId == q.session && exists iq :: iq in s.queries && IsImportOf(iq, q)
  }

  /** The manifest's Codex queries are the plan, each in its session; the rest is Claude's. */
  ghost predicate ManifestOf(manifest: seq<ImportSession>, plan: seq<Query>) {
    && (forall q :: q in plan ==> exists s :: s in manifest && InSession(s, q))
    && (forall s, iq :: s in manifest && iq in s.queries ==> Accounted(plan, iq))
  }

  ghost predicate AddsOnly(l: Ledger, l': Ledger, plan: seq<Query>) {
    && (forall t :: CodexCall(t) in l'.callSources ==> CodexCall(t) in l.callSources || exists q :: PlannedIn(plan, t, q))
    && (forall t :: CodexTurn(t) in l'.querySources ==>
          || (CodexTurn(t) in l.querySources && l'.querySources[CodexTurn(t)] == l.querySources[CodexTurn(t)])
          || (l'.querySources[CodexTurn(t)].0.CodexHash? && exists q :: q in plan && q.sourceId == t))
  }

  lemma AccountedCallIsPlanned(plan: seq<Query>, iq: ImportQuery, t: TurnRef)
    requires Accounted(plan, iq) && CodexCall(t) in iq.callIds
    ensures exists q :: PlannedIn(plan, t, q)
  {
    var q :| q in plan && IsImportOf(iq, q);
    CodexCallsHold(q.callIds, t);
    assert PlannedIn(plan, t, q);
  }

  lemma QueryAddsOnly(cal: Calendar, p: ImportLedger.Pending, s: ImportSession, iq: ImportQuery, plan: seq<Query>)
    requires ApplyQuery(cal, p, s, iq).Ok? && Accounted(plan, iq)
    ensures AddsOnly(p.ledger, ApplyQuery(cal, p, s, iq).value.ledger, plan)
  {
    var l := p.ledger;
    var inserted, owner := l, Owner("", 0, 0);
    if iq.sourceId in l.querySources {
      owner := l.querySources[iq.sourceId].1;
    } else {
      inserted, owner := InsertQuery(l, s, iq).0, InsertQuery(l, s, iq).1;
    }
    RecordCallsRecords(inserted, iq.callIds, owner);
    forall t | CodexCall(t) in iq.callIds ensures exists q :: PlannedIn(plan, t, q) { AccountedCallIsPlanned(plan, iq, t); }
  }

  lemma AddsOnlyIsTransitive(a: Ledger, b: Ledger, c: Ledger, plan: seq<Query>)
    requires AddsOnly(a, b, plan) && AddsOnly(b, c, plan)
    ensures AddsOnly(a, c, plan)
  {
  }

  lemma {:induction false} QueriesAddOnly(cal: Calendar, p: ImportLedger.Pending, s: ImportSession, queries: seq<ImportQuery>, plan: seq<Query>)
    requires ApplyQueries(cal, p, s, queries).Ok?
    requires forall iq :: iq in queries ==> Accounted(plan, iq)
    ensures AddsOnly(p.ledger, ApplyQueries(cal, p, s, queries).value.ledger, plan)
  {
    if queries != [] {
      var init, last := queries[..|queries| - 1], queries[|queries| - 1];
      assert last in queries;
      QueriesAddOnly(cal, p, s, init, plan);
      var p1 := ApplyQueries(cal, p, s, init).value;
      QueryAddsOnly(cal, p1, s, last, plan);
      AddsOnlyIsTransitive(p.ledger, p1.ledger, ApplyQuery(cal, p1, s, last).value.ledger, plan);
    }
  }

  lemma {:induction false} SessionsAddOnly(cal: Calendar, p: ImportLedger.Pending, sessions: seq<ImportSession>, plan: seq<Query>)
    requires ApplySessions(cal, p, sessions).Ok?
    requires forall s, iq :: s in sessions && iq in s.queries ==> Accounted(plan, iq)
    ensures AddsOnly(p.ledger, ApplySessions(cal, p, sessions).value.ledger, plan)
  {
    if sessions != [] {
      var init, last := sessions[..|sessions| - 1], sessions[|sessions| - 1];
      assert sessions == init + [last];
      SessionsAddOnly(cal, p, init, plan);
      var p1 := ApplySessions(cal, p, init).value;
      var found := OpenSession(p1.ledger, last).value;
      if found.Some? {
        QueriesAddOnly(cal, p1.(ledger := found.value), last, last.queries, plan);
        var l' := ApplySessions(cal, p, sessions).value.ledger;
        assert AddsOnly(p1.ledger, l', plan);
        AddsOnlyIsTransitive(p.ledger, p1.ledger, l', plan);
      }
    }
  }

  lemma ImportAddsOnly(cal: Calendar, l: Ledger, manifest: seq<ImportSession>, plan: seq<Query>, l': Ledger)
    requires ManifestOf(manifest, plan) && Apply(cal, l, manifest) == Ok(l')
    ensures AddsOnly(l, l', plan)
  {
    SessionsAddOnly(cal, ImportLedger.Pending(l, {}, {}), manifest, plan);
    RebuildKeepsRecords(cal, ApplySessions(cal, ImportLedger.Pending(l, {}, {}), manifest).value);
  }

  ghost predicate QueryRecorded(l: Ledger, q: Query) {
    && CodexTurn(q.sourceId) in l.querySources && l.querySources[CodexTurn(q.sourceId)].0.CodexHash?
    && forall c :: c in q.callIds ==> CodexCall(c) in l.callSources
  }

  lemma RecordedPlanIsApplied(l: Ledger, l': Ledger, plan: seq<Query>)
    requires AddsOnly(l, l', plan) && Extends(l, l')
    requires forall q :: q in plan ==> QueryRecorded(l', q)
    ensures AppliedTo(ProvenanceOf(l), plan, ProvenanceOf(l'))
  {
    var prov, prov' := ProvenanceOf(l), ProvenanceOf(l');
    forall t ensures t in prov'.calls <==> t in prov.calls || exists q :: PlannedIn(plan, t, q) {
      assert t in prov.calls <==> CodexCall(t) in l.callSources;
      assert t in prov'.calls <==> CodexCall(t) in l'.callSources;
    }
    forall t ensures t in prov'.queries <==> t in prov.queries || exists q :: q in plan && q.sourceId == t {
      assert t in prov.queries <==> CodexTurn(t) in l.querySources && l.querySources[CodexTurn(t)].0.CodexHash?;
      assert t in prov'.queries <==> CodexTurn(t) in l'.querySources && l'.querySources[CodexTurn(t)].0.CodexHash?;
    }
  }

  lemma PlannedQueryIsRecorded(l: Ledger, manifest: seq<ImportSession>, s: ImportSession, q: Query)
    requires CallsOwned(l) && ManifestFormed(manifest) && s in manifest && InSession(s, q)
    requires SessionRecorded(l, s) && s.importedId in l.sessions
    ensures QueryRecorded(l, q)
  {
    var iq :| iq in s.queries && IsImportOf(iq, q);
    assert SourceOwned(l.querySources, l.callSources, iq.sourceId);
    forall c | c in q.callIds ensures CodexCall(c) in l.callSources { CodexCallsHold(q.callIds, c); }
  }

  /** Committing the manifest of a plan records exactly the plan's queries and calls, provided no
      Codex session of the manifest had been deleted after an earlier import. */
  lemma ImportRecordsPlan(cal: Calendar, l: Ledger, manifest: seq<ImportSession>, plan: seq<Query>, l': Ledger)
    requires CallsOwned(l) && SourcesNamed(l) && ManifestFormed(manifest) && ManifestOf(manifest, plan)
    requires Apply(cal, l, manifest) == Ok(l')
    requires forall s :: s in manifest && s.provider == Codex ==> s.importedId in l'.sessions
    ensures AppliedTo(ProvenanceOf(l), plan, ProvenanceOf(l'))
  {
    ImportOwns(cal, l, manifest);
    ImportAddsOnly(cal, l, manifest, plan, l');
    forall q | q in plan ensures QueryRecorded(l', q) {
      var s :| s in manifest && InSession(s, q);
      PlannedQueryIsRecorded(l', manifest, s, q);
    }
    RecordedPlanIsApplied(l, l', plan);
  }

  // ----- the next plan ------------------------------------------------------------------------

  lemma TopIsStored(rollouts: seq<Rollout>, current: Rollout, seen: set<string>)
    requires current in rollouts && seen <= Threads(rollouts)
    ensures TopOf(rollouts, current, seen) in rollouts
    decreases |Threads(rollouts) - seen|
  {
    if current.parentThreadId.Some? && current.threadId !in seen {
      var parent := Lookup(rollouts, current.parentThreadId.value);
      if parent.Some? {
        assert Threads(rollouts) - (seen + {current.threadId}) < Threads(rollouts) - seen;
        SmallerSet(Threads(rollouts) - (seen + {current.threadId}), Threads(rollouts) - seen);
        TopIsStored(rollouts, parent.value, seen + {current.threadId});
      }
    }
  }

  ghost predicate SameRoots(rollouts: seq<Rollout>, known: Known, known': Known) {
    forall r :: r in rollouts ==> (AcceptedRoot(known, r) <==> AcceptedRoot(known', r))
  }

  lemma SameOwners(rollouts: seq<Rollout>, known: Known, known': Known, o: Evidence)
    requires SameRoots(rollouts, known, known')
    ensures IsOwner(rollouts, known, o) <==> IsOwner(rollouts, known', o)
  {
  }

  lemma SameFolds(rollouts: seq<Rollout>, known: Known, known': Known, prov: Provenance, o: Evidence)
    requires SameRoots(rollouts, known, known')
    ensures Folded(rollouts, known, prov, o) <==> Folded(rollouts, known', prov, o)
  {
    SameOwners(rollouts, known, known', o);
    forall o' ensures Collide(rollouts, known, prov, o, o') <==> Collide(rollouts, known', prov, o, o') {
      SameOwners(rollouts, known, known', o');
    }
  }

  lemma SameImportable(rollouts: seq<Rollout>, known: Known, known': Known, e: Evidence)
    requires SameRoots(rollouts, known, known')
    ensures Importable(rollouts, known, e) <==> Importable(rollouts, known', e)
  {
    if e.rollout in rollouts { TopIsStored(rollouts, e.rollout, {}); }
  }

  /** The plan depends on the database only through the roots it accepts and the calls it recorded. */
  lemma PlanDependsOnRoots(rollouts: seq<Rollout>, known: Known, known': Known, prov: Provenance, plan: seq<Query>)
    requires SameRoots(rollouts, known, known') && IsPlan(rollouts, known, prov, plan)
    ensures IsPlan(rollouts, known', prov, plan)
  {
    forall o ensures Folded(rollouts, known, prov, o) <==> Folded(rollouts, known', prov, o) {
      SameFolds(rollouts, known, known', prov, o);
    }
    forall e ensures Loose(rollouts, known, prov, e) <==> Loose(rollouts, known', prov, e) {
      SameImportable(rollouts, known, known', e);
    }
  }

  // ----- the roots after an import --------------------------------------------------------------

  /** Where each session's row stands in its table. */
  type RowOrder = string -> int

  ghost predicate IsOrder(order: RowOrder) {
    forall a, b :: order(a) == order(b) ==> a == b
  }

  /** What the Codex planner reads of the ledger's sessions: of several rows with one native id it keeps the last. */
  ghost predicate Knows(l: Ledger, order: RowOrder, known: Known) {
    && known.sessionIds == l.sessions.Keys
    && (forall n :: n in known.imported <==> SessionKey(Codex, n) in l.sessionSources)
    && (forall n :: n in known.imported ==> known.imported[n] == l.sessionSources[SessionKey(Codex, n)].importedId)
    && (forall n :: n in known.native ==> HasNative(l, known.native[n], SessionKey(Codex, n)))
    && (forall n, id :: HasNative(l, id, SessionKey(Codex, n)) ==> n in known.native && order(id) <= order(known.native[n]))
  }

  function RootKey(r: Rollout): SessionKey {
    SessionKey(Codex, r.threadId)
  }

  /** A root that is imported unless some session has its thread: an importable one that was not deleted after an import. */
  predicate LiveRoot(l: Ledger, r: Rollout) {
    && r.parentThreadId.None? && ImportableOriginator(r.originator)
    && (RootKey(r) in l.sessionSources ==> ImportedId(RootKey(r)) in l.sessions)
  }

  /** The session has the root's thread, and it is neither the root's own import nor a row that one hides. */
  ghost predicate Blocks(l: Ledger, order: RowOrder, r: Rollout, id: string) {
    && HasNative(l, id, RootKey(r))
    && (RootKey(r) in l.sessionSources ==>
          && id != ImportedId(RootKey(r))
          && (HasNative(l, ImportedId(RootKey(r)), RootKey(r)) ==> order(ImportedId(RootKey(r))) < order(id)))
  }

  lemma AcceptedExactly(l: Ledger, order: RowOrder, known: Known, r: Rollout)
    requires SourcesNamed(l) && IsOrder(order) && Knows(l, order, known)
    ensures AcceptedRoot(known, r) <==> LiveRoot(l, r) && forall id :: !Blocks(l, order, r, id)
  {
    var n, own := r.threadId, ImportedId(RootKey(r));
    if n in known.native {
      var last := known.native[n];
      assert HasNative(l, last, RootKey(r));
      assert last != own ==> order(last) != order(own);
      assert HasNative(l, own, RootKey(r)) ==> order(own) <= order(last);
      assert Blocks(l, order, r, last) <==> !(RootKey(r) in l.sessionSources && last == own);
      assert forall id :: Blocks(l, order, r, id) ==> Blocks(l, order, r, last);
    } else {
      assert forall id :: !HasNative(l, id, RootKey(r));
    }
  }

  ghost predicate TakenOver(manifest: seq<ImportSession>, id: string) {
    exists s :: s in manifest && s.importedId == id
  }

  /** The manifest imports accepted Codex roots, and no Claude session carries a Codex thread id. */
  ghost predicate RootsOf(rollouts: seq<Rollout>, known: Known, manifest: seq<ImportSession>) {
    forall s :: s in manifest ==>
      if s.provider == Codex then exists r :: r in rollouts && r.threadId == s.nativeId && AcceptedRoot(known, r)
      else forall r :: r in rollouts ==> r.threadId != s.nativeId
  }

  /** How the session rows follow from the manifest. */
  ghost predicate RowsFollow(rows: map<string, SessionRow>, manifest: seq<ImportSession>, rows': map<string, SessionRow>) {
    && (forall id :: id in rows ==> id in rows' && rows'[id].provider == rows[id].provider)
    && (forall id :: id in rows && !TakenOver(manifest, id) ==> rows'[id].nativeId == rows[id].nativeId)
    && (forall id :: id in rows' && id !in rows ==>
          exists s :: s in manifest && s.importedId == id && rows'[id].provider == Some(s.provider))
    && (forall s :: s in manifest && s.importedId in rows' ==> rows'[s.importedId].nativeId == Some(s.nativeId))
  }

  /** How the session provenance does. */
  ghost predicate SourcesFollow(l: Ledger, manifest: seq<ImportSession>, l': Ledger) {
    && (forall s :: s in manifest ==> s.Key() in l'.sessionSources && (s.importedId in l.sessions ==> s.Key() in l.sessionSources))
    && (forall key :: key in l'.sessionSources && key !in l.sessionSources ==>
          exists s :: s in manifest && s.Key() == key && s.importedId in l'.sessions && s.importedId !in l.sessions)
  }

  lemma OneMore(init: seq<ImportSession>, s: ImportSession)
    ensures forall x :: x in init + [s] <==> x in init || x == s
    ensures forall id :: TakenOver(init + [s], id) <==> TakenOver(init, id) || s.importedId == id
  {
    assert forall x :: x in init + [s] <==> x in init || x == s;
    forall id ensures TakenOver(init + [s], id) <==> TakenOver(init, id) || s.importedId == id {
      if s.importedId == id { assert s in init + [s]; }
      if x :| x in init && x.importedId == id { assert x in init + [s]; }
    }
  }

  lemma RowFollows(rows: map<string, SessionRow>, init: seq<ImportSession>, s: ImportSession, rows1: map<string, SessionRow>, row: SessionRow)
    requires RowsFollow(rows, init, rows1) && s.importedId == ImportedId(s.Key()) && WellNamed(init)
    requires row.nativeId == Some(s.nativeId)
    requires if s.importedId in rows1 then row.provider == rows1[s.importedId].provider else row.provider == Some(s.provider)
    ensures RowsFollow(rows, init + [s], rows1[s.importedId := row])
  {
    OneMore(init, s);
    var rows2 := rows1[s.importedId := row];
    forall id | id in rows2 && id !in rows
      ensures exists x :: x in init + [s] && x.importedId == id && rows2[id].provider == Some(x.provider)
    {
      if id in rows1 {
        var x :| x in init && x.importedId == id && rows1[id].provider == Some(x.provider);
        assert x in init + [s];
      } else {
        assert s in init + [s];
      }
    }
    forall x | x in init && x.importedId == s.importedId ensures x.nativeId == s.nativeId {
      ImportedIdIsInjective(x.Key(), s.Key());
    }
  }

  lemma TombstoneFollows(rows: map<string, SessionRow>, init: seq<ImportSession>, s: ImportSession, rows1: map<string, SessionRow>)
    requires RowsFollow(rows, init, rows1) && s.importedId !in rows1
    ensures RowsFollow(rows, init + [s], rows1)
  {
    OneMore(init, s);
    forall id | id in rows1 && id !in rows
      ensures exists x :: x in init + [s] && x.importedId == id && rows1[id].provider == Some(x.provider)
    {
      var x :| x in init && x.importedId == id && rows1[id].provider == Some(x.provider);
      assert x in init + [s];
    }
  }

  lemma SourceFollows(l: Ledger, init: seq<ImportSession>, s: ImportSession, l1: Ledger, l2: Ledger)
    requires SourcesFollow(l, init, l1) && RowsFollow(l.sessions, init, l1.sessions)
    requires s.importedId == ImportedId(s.Key()) && WellNamed(init)
    requires s.Key() in l2.sessionSources && l1.sessions.Keys <= l2.sessions.Keys
    requires if s.Key() in l1.sessionSources then l2.sessionSources == l1.sessionSources
             else s.importedId !in l1.sessions && s.importedId in l2.sessions && l2.sessionSources.Keys == l1.sessionSources.Keys + {s.Key()}
    ensures SourcesFollow(l, init + [s], l2)
  {
    OneMore(init, s);
    if s.Key() in l1.sessionSources && s.Key() !in l.sessionSources {
      var x :| x in init && x.Key() == s.Key() && x.importedId !in l.sessions;
    }
    forall key | key in l2.sessionSources && key !in l.sessionSources
      ensures exists x :: x in init + [s] && x.Key() == key && x.importedId in l2.sessions && x.importedId !in l.sessions
    {
      if key in l1.sessionSources {
        var x :| x in init && x.Key() == key && x.importedId in l1.sessions && x.importedId !in l.sessions;
        assert x in init + [s];
      } else {
        assert s in init + [s];
      }
    }
  }

  lemma OpenedRow(l: Ledger, s: ImportSession, l': Ledger)
    requires OpenSession(l, s) == Ok(Some(l'))
    ensures s.importedId in l'.sessions
    ensures var row := l'.sessions[s.importedId];
            && l'.sessions == l.sessions[s.importedId := row] && row.nativeId == Some(s.nativeId)
            && if s.importedId in l.sessions then row.provider == l.sessions[s.importedId].provider else row.provider == Some(s.provider)
    ensures s.Key() in l'.sessionSources
    ensures if s.Key() in l.sessionSources then l'.sessionSources == l.sessionSources
            else s.importedId !in l.sessions && l'.sessionSources.Keys == l.sessionSources.Keys + {s.Key()}
  {
    assert l'.sessions == l.sessions[s.importedId := l'.sessions[s.importedId]];
  }

  lemma OpenFollows(l: Ledger, init: seq<ImportSession>, s: ImportSession, l1: Ledger, l2: Ledger)
    requires SourcesFollow(l, init, l1) && RowsFollow(l.sessions, init, l1.sessions)
    requires s.importedId == ImportedId(s.Key()) && WellNamed(init)
    requires OpenSession(l1, s) == Ok(Some(l2))
    ensures RowsFollow(l.sessions, init + [s], l2.sessions) && SourcesFollow(l, init + [s], l2)
  {
    OpenedRow(l1, s, l2);
    SourceFollows(l, init, s, l1, l2);
    RowFollows(l.sessions, init, s, l1.sessions, l2.sessions[s.importedId]);
  }

  lemma {:induction false} QueriesKeepSessions(cal: Calendar, p: ImportLedger.Pending, s: ImportSession, queries: seq<ImportQuery>)
    requires ApplyQueries(cal, p, s, queries).Ok?
    ensures var l' := ApplyQueries(cal, p, s, queries).value.ledger;
            l'.sessions == p.ledger.sessions && l'.sessionSources == p.ledger.sessionSources
  {
    if queries != [] {
      var init, last := queries[..|queries| - 1], queries[|queries| - 1];
      QueriesKeepSessions(cal, p, s, init);
      var l := ApplyQueries(cal, p, s, init).value.ledger;
      if last.sourceId in l.querySources {
        RecordCallsRecords(l, last.callIds, l.querySources[last.sourceId].1);
      } else {
        var (inserted, owner) := InsertQuery(l, s, last);
        RecordCallsRecords(inserted, last.callIds, owner);
      }
    }
  }

  lemma {:induction false} SessionsAreFollowed(cal: Calendar, l: Ledger, sessions: seq<ImportSession>)
    requires WellNamed(sessions) && ApplySessions(cal, ImportLedger.Pending(l, {}, {}), sessions).Ok?
    ensures var l' := ApplySessions(cal, ImportLedger.Pending(l, {}, {}), sessions).value.ledger;
            RowsFollow(l.sessions, sessions, l'.sessions) && SourcesFollow(l, sessions, l')
  {
    if sessions != [] {
      var init, last := sessions[..|sessions| - 1], sessions[|sessions| - 1];
      assert sessions == init + [last];
      SessionsAreFollowed(cal, l, init);
      var p1 := ApplySessions(cal, ImportLedger.Pending(l, {}, {}), init).value;
      match OpenSession(p1.ledger, last).value
      case None =>
        TombstoneFollows(l.sessions, init, last, p1.ledger.sessions);
        SourceFollows(l, init, last, p1.ledger, p1.ledger);
      case Some(l2) =>
        OpenFollows(l, init, last, p1.ledger, l2);
        QueriesKeepSessions(cal, p1.(ledger := l2), last, last.queries);
    }
  }

  lemma RebuiltRowsFollow(l: Ledger, manifest: seq<ImportSession>, l1: Ledger, l2: Ledger)
    requires RowsFollow(l.sessions, manifest, l1.sessions) && SourcesFollow(l, manifest, l1)
    requires l2.sessions.Keys == l1.sessions.Keys && l2.sessionSources == l1.sessionSources
    requires forall id :: id in l1.sessions ==>
      l2.sessions[id].provider == l1.sessions[id].provider && l2.sessions[id].nativeId == l1.sessions[id].nativeId
    ensures RowsFollow(l.sessions, manifest, l2.sessions) && SourcesFollow(l, manifest, l2)
  {
    assert forall id :: id in l1.sessions <==> id in l2.sessions;
  }

  lemma ImportedNatives(cal: Calendar, l: Ledger, manifest: seq<ImportSession>, l': Ledger) returns (l1: Ledger)
    requires Apply(cal, l, manifest) == Ok(l')
    ensures ApplySessions(cal, ImportLedger.Pending(l, {}, {}), manifest).Ok?
    ensures l1 == ApplySessions(cal, ImportLedger.Pending(l, {}, {}), manifest).value.ledger
    ensures l'.sessions.Keys == l1.sessions.Keys && l'.sessionSources == l1.sessionSources
    ensures forall id :: id in l1.sessions ==>
      l'.sessions[id].provider == l1.sessions[id].provider && l'.sessions[id].nativeId == l1.sessions[id].nativeId
  {
    l1 := ApplySessions(cal, ImportLedger.Pending(l, {}, {}), manifest).value.ledger;
  }

  lemma ImportFollows(cal: Calendar, l: Ledger, manifest: seq<ImportSession>, l': Ledger)
    requires WellNamed(manifest) && Apply(cal, l, manifest) == Ok(l')
    ensures RowsFollow(l.sessions, manifest, l'.sessions) && SourcesFollow(l, manifest, l')
  {
    var l1 := ImportedNatives(cal, l, manifest, l');
    SessionsAreFollowed(cal, l, manifest);
    RebuiltRowsFollow(l, manifest, l1, l');
  }

  ghost predicate Lists(manifest: seq<ImportSession>, key: SessionKey) {
    exists s :: s in manifest && s.Key() == key
  }

  /** Which sessions have a root's thread after the import. */
  lemma NativeAfter(l: Ledger, manifest: seq<ImportSession>, l': Ledger, rollouts: seq<Rollout>, known: Known, r: Rollout, id: string)
    requires RowsFollow(l.sessions, manifest, l'.sessions) && WellNamed(manifest) && RootsOf(rollouts, known, manifest) && r in rollouts
    ensures !TakenOver(manifest, id) ==> (HasNative(l', id, RootKey(r)) <==> HasNative(l, id, RootKey(r)))
    ensures TakenOver(manifest, id) && HasNative(l', id, RootKey(r)) ==> id == ImportedId(RootKey(r)) && Lists(manifest, RootKey(r))
    ensures HasNative(l, id, RootKey(r)) && id == ImportedId(RootKey(r)) && Lists(manifest, RootKey(r)) ==> HasNative(l', id, RootKey(r))
  {
    if s :| s in manifest && s.importedId == id && HasNative(l', id, RootKey(r)) {
      assert s.nativeId == r.threadId;
      assert s.Key() == RootKey(r);
    }
  }

  lemma TakenOwnIsListed(manifest: seq<ImportSession>, key: SessionKey)
    requires WellNamed(manifest) && TakenOver(manifest, ImportedId(key))
    ensures Lists(manifest, key)
  {
    var s :| s in manifest && s.importedId == ImportedId(key);
    ImportedIdIsInjective(s.Key(), key);
  }

  lemma ListedIsAccepted(rollouts: seq<Rollout>, known: Known, manifest: seq<ImportSession>, r: Rollout)
    requires DistinctThreads(rollouts) && RootsOf(rollouts, known, manifest) && r in rollouts && Lists(manifest, RootKey(r))
    ensures AcceptedRoot(known, r)
  {
    var s :| s in manifest && s.Key() == RootKey(r);
    var x :| x in rollouts && x.threadId == s.nativeId && AcceptedRoot(known, x);
    LookupIsUnique(rollouts, x);
    LookupIsUnique(rollouts, r);
  }

  /** An import neither deletes a root's session nor brings one back. */
  lemma LiveRootsStay(l: Ledger, manifest: seq<ImportSession>, l': Ledger, r: Rollout)
    requires RowsFollow(l.sessions, manifest, l'.sessions) && SourcesFollow(l, manifest, l')
    requires Extends(l, l') && SourcesNamed(l) && WellNamed(manifest)
    ensures LiveRoot(l', r) <==> LiveRoot(l, r)
  {
    var key := RootKey(r);
    if key in l'.sessionSources && key !in l.sessionSources {
      var s :| s in manifest && s.Key() == key && s.importedId in l'.sessions;
    }
    if key in l.sessionSources {
      assert l.sessionSources[key].importedId == ImportedId(key);
    }
  }

  /** Every accepted root stays accepted. */
  lemma AcceptedStaysUnblocked(l: Ledger, order: RowOrder, manifest: seq<ImportSession>, l': Ledger, rollouts: seq<Rollout>, known: Known,
                               r: Rollout, id: string)
    requires RowsFollow(l.sessions, manifest, l'.sessions) && SourcesFollow(l, manifest, l') && Extends(l, l')
    requires WellNamed(manifest) && RootsOf(rollouts, known, manifest) && r in rollouts
    requires forall x :: !Blocks(l, order, r, x)
    ensures !Blocks(l', order, r, id)
  {
    var key, own := RootKey(r), ImportedId(RootKey(r));
    NativeAfter(l, manifest, l', rollouts, known, r, id);
    NativeAfter(l, manifest, l', rollouts, known, r, own);
    assert !Blocks(l, order, r, id);
    if TakenOver(manifest, own) { TakenOwnIsListed(manifest, key); }
  }

  /** Of the sessions that block a root the import removes those it takes over. */
  lemma BlockersAfter(l: Ledger, order: RowOrder, manifest: seq<ImportSession>, l': Ledger, rollouts: seq<Rollout>, known: Known,
                      r: Rollout, id: string)
    requires RowsFollow(l.sessions, manifest, l'.sessions) && SourcesFollow(l, manifest, l') && Extends(l, l')
    requires WellNamed(manifest) && RootsOf(rollouts, known, manifest) && r in rollouts && !Lists(manifest, RootKey(r))
    ensures Blocks(l', order, r, id) <==> Blocks(l, order, r, id) && !TakenOver(manifest, id)
  {
    var key, own := RootKey(r), ImportedId(RootKey(r));
    NativeAfter(l, manifest, l', rollouts, known, r, id);
    NativeAfter(l, manifest, l', rollouts, known, r, own);
    if TakenOver(manifest, own) { TakenOwnIsListed(manifest, key); }
    assert key in l'.sessionSources <==> key in l.sessionSources;
  }

  /** Every session that keeps the planner off this live root is one the manifest takes over for another root. */
  ghost predicate Freed(l: Ledger, order: RowOrder, manifest: seq<ImportSession>, r: Rollout) {
    && LiveRoot(l, r) && (exists id :: Blocks(l, order, r, id))
    && forall id :: Blocks(l, order, r, id) ==> TakenOver(manifest, id)
  }

  lemma BlockedAfter(l: Ledger, order: RowOrder, manifest: seq<ImportSession>, l': Ledger, rollouts: seq<Rollout>, known: Known, r: Rollout)
    requires RowsFollow(l.sessions, manifest, l'.sessions) && SourcesFollow(l, manifest, l') && Extends(l, l')
    requires WellNamed(manifest) && RootsOf(rollouts, known, manifest) && r in rollouts
    requires (exists x :: Blocks(l, order, r, x)) ==> !Lists(manifest, RootKey(r))
    ensures (exists id :: Blocks(l', order, r, id)) <==> exists id :: Blocks(l, order, r, id) && !TakenOver(manifest, id)
  {
    if x :| Blocks(l, order, r, x) {
      forall id ensures Blocks(l', order, r, id) <==> Blocks(l, order, r, id) && !TakenOver(manifest, id) {
        BlockersAfter(l, order, manifest, l', rollouts, known, r, id);
      }
    } else {
      forall id ensures !Blocks(l', order, r, id) {
        AcceptedStaysUnblocked(l, order, manifest, l', rollouts, known, r, id);
      }
    }
  }

  lemma RootAfterwards(rollouts: seq<Rollout>, l: Ledger, order: RowOrder, known: Known, manifest: seq<ImportSession>,
                       l': Ledger, known': Known, r: Rollout)
    requires RowsFollow(l.sessions, manifest, l'.sessions) && SourcesFollow(l, manifest, l') && Extends(l, l')
    requires DistinctThreads(rollouts) && WellNamed(manifest) && RootsOf(rollouts, known, manifest) && r in rollouts
    requires LiveRoot(l', r) <==> LiveRoot(l, r)
    requires AcceptedRoot(known, r) <==> LiveRoot(l, r) && forall id :: !Blocks(l, order, r, id)
    requires AcceptedRoot(known', r) <==> LiveRoot(l', r) && forall id :: !Blocks(l', order, r, id)
    ensures AcceptedRoot(known', r) <==> AcceptedRoot(known, r) || Freed(l, order, manifest, r)
  {
    if Lists(manifest, RootKey(r)) { ListedIsAccepted(rollouts, known, manifest, r); }
    BlockedAfter(l, order, manifest, l', rollouts, known, r);
  }

  lemma RootAfterImport(cal: Calendar, rollouts: seq<Rollout>, l: Ledger, order: RowOrder, known: Known, manifest: seq<ImportSession>,
                        l': Ledger, known': Known, r: Rollout)
    requires DistinctThreads(rollouts) && CallsOwned(l) && SourcesNamed(l) && IsOrder(order)
    requires ManifestFormed(manifest) && RootsOf(rollouts, known, manifest) && Apply(cal, l, manifest) == Ok(l')
    requires Knows(l, order, known) && Knows(l', order, known') && r in rollouts
    ensures AcceptedRoot(known', r) <==> AcceptedRoot(known, r) || Freed(l, order, manifest, r)
  {
    ImportFollows(cal, l, manifest, l');
    ImportOwns(cal, l, manifest);
    LiveRootsStay(l, manifest, l', r);
    AcceptedExactly(l, order, known, r);
    AcceptedExactly(l', order, known', r);
    RootAfterwards(rollouts, l, order, known, manifest, l', known', r);
  }

  /** An import changes which roots are accepted exactly if it frees one. */
  lemma ImportKeepsRootsExactly(cal: Calendar, rollouts: seq<Rollout>, l: Ledger, order: RowOrder, known: Known,
                                manifest: seq<ImportSession>, l': Ledger, known': Known)
    requires DistinctThreads(rollouts) && CallsOwned(l) && SourcesNamed(l) && IsOrder(order)
    requires ManifestFormed(manifest) && RootsOf(rollouts, known, manifest) && Apply(cal, l, manifest) == Ok(l')
    requires Knows(l, order, known) && Knows(l', order, known')
    ensures forall r :: r in rollouts ==> (AcceptedRoot(known', r) <==> AcceptedRoot(known, r) || Freed(l, order, manifest, r))
    ensures forall r :: r in rollouts && Freed(l, order, manifest, r) ==> !AcceptedRoot(known, r)
    ensures SameRoots(rollouts, known, known') <==> forall r :: r in rollouts ==> !Freed(l, order, manifest, r)
  {
    forall r | r in rollouts
      ensures AcceptedRoot(known', r) <==> AcceptedRoot(known, r) || Freed(l, order, manifest, r)
      ensures Freed(l, order, manifest, r) ==> !AcceptedRoot(known, r)
    {
      RootAfterImport(cal, rollouts, l, order, known, manifest, l', known', r);
      AcceptedExactly(l, order, known, r);
    }
  }

  /** The Codex sessions of the manifest are present after the import. */
  lemma CodexSessionsArePresent(rollouts: seq<Rollout>, l: Ledger, order: RowOrder, known: Known, manifest: seq<ImportSession>, l': Ledger)
    requires SourcesNamed(l) && IsOrder(order) && Knows(l, order, known) && WellNamed(manifest) && RootsOf(rollouts, known, manifest)
    requires RowsFollow(l.sessions, manifest, l'.sessions) && SourcesFollow(l, manifest, l')
    ensures forall s :: s in manifest && s.provider == Codex ==> s.importedId in l'.sessions
  {
    forall s | s in manifest && s.provider == Codex ensures s.importedId in l'.sessions {
      var r :| r in rollouts && r.threadId == s.nativeId && AcceptedRoot(known, r);
      AcceptedExactly(l, order, known, r);
      assert RootKey(r) == s.Key();
      if s.Key() !in l.sessionSources {
        var x :| x in manifest && x.Key() == s.Key() && x.importedId in l'.sessions;
      }
    }
  }

  /** A turn with usage that no earlier import recorded, under a root that this import frees. */
  ghost predicate Uncovered(rollouts: seq<Rollout>, l: Ledger, order: RowOrder, manifest: seq<ImportSession>, e: Evidence) {
    && e.rollout in rollouts && e.turn in e.rollout.turns && IsTerminal(e.turn) && e.turn.usage.Positive()
    && CodexCall(e.Key()) !in l.callSources && Freed(l, order, manifest, TopOf(rollouts, e.rollout, {}))
  }

  /** Under children named by their parents, a turn is carried only by plans that accept its root. */
  lemma PlannedTurnIsImportable(rollouts: seq<Rollout>, known: Known, prov: Provenance, plan: seq<Query>, e: Evidence, q: Query)
    requires WellKeyed(rollouts) && NamedByParents(rollouts) && IsPlan(rollouts, known, prov, plan)
    requires e.rollout in rollouts && e.turn in e.rollout.turns && e.turn.usage.Positive() && PlannedIn(plan, e.Key(), q)
    ensures Importable(rollouts, known, e)
  {
    var e' := CallIsCarried(rollouts, known, prov, plan, q, e.Key());
    KeyNamesTurn(rollouts, e, e');
    if o :| FoldCarriesTurn(rollouts, known, prov, o, q, e) {
      TreeIsUnderItsRoot(rollouts, known, o, e);
    }
  }

  lemma PlannedQueryHoldsUnrecorded(rollouts: seq<Rollout>, known: Known, prov: Provenance, plan: seq<Query>, q: Query) returns (e: Evidence)
    requires DistinctThreads(rollouts) && NamedByParents(rollouts) && IsPlan(rollouts, known, prov, plan) && q in plan
    ensures Importable(rollouts, known, e) && e.Key() !in prov.calls
  {
    if o :| Folded(rollouts, known, prov, o) && IsFold(rollouts, o, q) {
      e :| InTree(rollouts, o, e) && e.turn.usage.Positive();
      TreeIsUnderItsRoot(rollouts, known, o, e);
    } else {
      e :| Loose(rollouts, known, prov, e) && IsSingle(rollouts, e, q);
    }
  }

  /** With children named by their parents a plan is empty exactly if every importable turn is recorded. */
  lemma PlanIsEmptyExactly(rollouts: seq<Rollout>, known: Known, prov: Provenance, plan: seq<Query>)
    requires DistinctThreads(rollouts) && NamedByParents(rollouts) && IsPlan(rollouts, known, prov, plan)
    ensures plan == [] <==> forall e :: Importable(rollouts, known, e) ==> e.Key() in prov.calls
  {
    if plan != [] {
      var _ := PlannedQueryHoldsUnrecorded(rollouts, known, prov, plan, plan[0]);
    } else {
      forall e | Importable(rollouts, known, e) ensures e.Key() in prov.calls {
        if e.Key() !in prov.calls { var _ := UnimportedTurnIsPlanned(rollouts, known, prov, plan, e); }
      }
    }
  }

  lemma UncoveredExactly(rollouts: seq<Rollout>, l: Ledger, order: RowOrder, known: Known, plan: seq<Query>,
                         manifest: seq<ImportSession>, l': Ledger, known': Known, e: Evidence)
    requires DistinctThreads(rollouts) && NamedByParents(rollouts) && IsPlan(rollouts, known, ProvenanceOf(l), plan)
    requires AppliedTo(ProvenanceOf(l), plan, ProvenanceOf(l'))
    requires forall r :: r in rollouts ==> (AcceptedRoot(known', r) <==> AcceptedRoot(known, r) || Freed(l, order, manifest, r))
    requires forall r :: r in rollouts && Freed(l, order, manifest, r) ==> !AcceptedRoot(known, r)
    ensures Importable(rollouts, known', e) && e.Key() !in ProvenanceOf(l').calls ==> Uncovered(rollouts, l, order, manifest, e)
    ensures WellKeyed(rollouts) && Uncovered(rollouts, l, order, manifest, e) ==>
              Importable(rollouts, known', e) && e.Key() !in ProvenanceOf(l').calls
  {
    var prov, prov' := ProvenanceOf(l), ProvenanceOf(l');
    assert e.Key() in prov.calls <==> CodexCall(e.Key()) in l.callSources;
    if e.rollout in rollouts {
      TopIsStored(rollouts, e.rollout, {});
      if WellKeyed(rollouts) && Uncovered(rollouts, l, order, manifest, e) && e.Key() in prov'.calls {
        var q :| PlannedIn(plan, e.Key(), q);
        PlannedTurnIsImportable(rollouts, known, prov, plan, e, q);
      }
      if Importable(rollouts, known, e) {
        ImportableTurnIsRecorded(rollouts, known, prov, plan, prov', e);
      }
    }
  }

  lemma NextPlanIsEmptyExactly(rollouts: seq<Rollout>, l: Ledger, order: RowOrder, known: Known, plan: seq<Query>,
                               manifest: seq<ImportSession>, l': Ledger, known': Known, plan': seq<Query>)
    requires DistinctThreads(rollouts) && NamedByParents(rollouts) && IsPlan(rollouts, known, ProvenanceOf(l), plan)
    requires AppliedTo(ProvenanceOf(l), plan, ProvenanceOf(l'))
    requires forall r :: r in rollouts ==> (AcceptedRoot(known', r) <==> AcceptedRoot(known, r) || Freed(l, order, manifest, r))
    requires forall r :: r in rollouts && Freed(l, order, manifest, r) ==> !AcceptedRoot(known, r)
    requires IsPlan(rollouts, known', ProvenanceOf(l'), plan')
    ensures (forall e :: !Uncovered(rollouts, l, order, manifest, e)) ==> plan' == []
    ensures WellKeyed(rollouts) && plan' == [] ==> forall e :: !Uncovered(rollouts, l, order, manifest, e)
  {
    forall e
      ensures Importable(rollouts, known', e) && e.Key() !in ProvenanceOf(l').calls ==> Uncovered(rollouts, l, order, manifest, e)
      ensures WellKeyed(rollouts) && Uncovered(rollouts, l, order, manifest, e) ==>
                Importable(rollouts, known', e) && e.Key() !in ProvenanceOf(l').calls
    {
      UncoveredExactly(rollouts, l, order, known, plan, manifest, l', known', e);
    }
    PlanIsEmptyExactly(rollouts, known', ProvenanceOf(l'), plan');
  }

  lemma ImportAppliesPlan(cal: Calendar, rollouts: seq<Rollout>, l: Ledger, order: RowOrder, known: Known, plan: seq<Query>,
                          manifest: seq<ImportSession>, l': Ledger)
    requires CallsOwned(l) && SourcesNamed(l) && IsOrder(order) && Knows(l, order, known)
    requires ManifestFormed(manifest) && ManifestOf(manifest, plan) && RootsOf(rollouts, known, manifest)
    requires Apply(cal, l, manifest) == Ok(l')
    ensures AppliedTo(ProvenanceOf(l), plan, ProvenanceOf(l'))
  {
    ImportFollows(cal, l, manifest, l');
    CodexSessionsArePresent(rollouts, l, order, known, manifest, l');
    ImportRecordsPlan(cal, l, manifest, plan, l');
  }

  /** Plan, import, plan again over the same transcripts: the second plan is empty exactly if the import
      left no turn uncovered, a matter of the ledger and the manifest before the import. */
  lemma PlanImportPlan(cal: Calendar, rollouts: seq<Rollout>, l: Ledger, order: RowOrder, known: Known, plan: seq<Query>,
                       manifest: seq<ImportSession>, l': Ledger, known': Known, plan': seq<Query>)
    requires DistinctThreads(rollouts) && NamedByParents(rollouts)
    requires CallsOwned(l) && SourcesNamed(l) && IsOrder(order) && Knows(l, order, known)
    requires IsPlan(rollouts, known, ProvenanceOf(l), plan)
    requires ManifestFormed(manifest) && ManifestOf(manifest, plan) && RootsOf(rollouts, known, manifest)
    requires Apply(cal, l, manifest) == Ok(l') && Knows(l', order, known')
    requires IsPlan(rollouts, known', ProvenanceOf(l'), plan')
    ensures (forall e :: !Uncovered(rollouts, l, order, manifest, e)) ==> plan' == []
    ensures WellKeyed(rollouts) && plan' == [] ==> forall e :: !Uncovered(rollouts, l, order, manifest, e)
  {
    ImportAppliesPlan(cal, rollouts, l, order, known, plan, manifest, l');
    ImportKeepsRootsExactly(cal, rollouts, l, order, known, manifest, l', known');
    NextPlanIsEmptyExactly(rollouts, l, order, known, plan, manifest, l', known', plan');
  }

  /** No session imported for one source has the thread of another. */
  ghost predicate OwnThreads(l: Ledger) {
    forall key, n :: key in l.sessionSources && HasNative(l, l.sessionSources[key].importedId, SessionKey(Codex, n)) ==>
      key == SessionKey(Codex, n)
  }

  lemma TakenIsOwn(l: Ledger, manifest: seq<ImportSession>, l': Ledger, r: Rollout, id: string)
    requires OwnThreads(l) && SourcesNamed(l) && WellNamed(manifest) && SourcesFollow(l, manifest, l')
    ensures TakenOver(manifest, id) && HasNative(l, id, RootKey(r)) ==> RootKey(r) in l.sessionSources && id == ImportedId(RootKey(r))
  {
    if s :| s in manifest && s.importedId == id && HasNative(l, id, RootKey(r)) {
      assert s.Key() in l.sessionSources && l.sessionSources[s.Key()].importedId == id;
    }
  }

  /** Then an import frees no root. */
  lemma OwnThreadsFreeNoRoot(l: Ledger, order: RowOrder, manifest: seq<ImportSession>, l': Ledger, r: Rollout)
    requires OwnThreads(l) && SourcesNamed(l) && WellNamed(manifest) && SourcesFollow(l, manifest, l')
    ensures !Freed(l, order, manifest, r)
  {
    forall id ensures Blocks(l, order, r, id) ==> !TakenOver(manifest, id) { TakenIsOwn(l, manifest, l', r, id); }
  }

  const WORKED_TURN := Turn("n1", 2000, Some(3000), Completed, [], Usage(1, 0, 0, 0), NO_USAGE)
  const RESUMED_ROOT := Rollout("m", None, Some("codex-tui"), 0, [])
  const OTHER_ROOT := Rollout("n", None, Some("codex-tui"), 1000, [WORKED_TURN])

  /** The session imported for one root came to carry the thread of another root. */
  const DRIFTED := Ledger(map["history:codex:m" := SessionRow(Some(Codex), Some("n"), ZERO)],
                          map[SessionKey(Codex, "m") := SessionSource("h", "history:codex:m")], map[], map[], [], [], map[])
  const RESUMED := ImportSession(Codex, "m", "h", "history:codex:m", [])

  lemma OnlyDriftedBlocks(order: RowOrder, id: string)
    ensures Blocks(DRIFTED, order, OTHER_ROOT, id) <==> id == "history:codex:m"
  {
    assert "m"[0] != "n"[0];
  }

  /** Importing that session again frees the other root: its turn was not in the first plan and is in the second. */
  lemma DriftedSessionFreesRoot(order: RowOrder)
    ensures SourcesNamed(DRIFTED) && CallsOwned(DRIFTED) && ManifestFormed([RESUMED])
    ensures OpenSession(DRIFTED, RESUMED).Ok?
    ensures Uncovered([RESUMED_ROOT, OTHER_ROOT], DRIFTED, order, [RESUMED], Evidence(OTHER_ROOT, WORKED_TURN))
  {
    assert "history:codex:m" == ImportedId(SessionKey(Codex, "m"));
    forall id ensures Blocks(DRIFTED, order, OTHER_ROOT, id) <==> id == "history:codex:m" { OnlyDriftedBlocks(order, id); }
    assert SessionKey(Codex, "n") !in DRIFTED.sessionSources by { assert "m"[0] != "n"[0]; }
    assert LiveRoot(DRIFTED, OTHER_ROOT);
    assert RESUMED in [RESUMED] && TakenOver([RESUMED], "history:codex:m");
    assert Blocks(DRIFTED, order, OTHER_ROOT, "history:codex:m");
    assert Freed(DRIFTED, order, [RESUMED], OTHER_ROOT);
    assert [RESUMED_ROOT, OTHER_ROOT][1] == OTHER_ROOT && OTHER_ROOT.turns[0] == WORKED_TURN;
    assert TopOf([RESUMED_ROOT, OTHER_ROOT], OTHER_ROOT, {}) == OTHER_ROOT;
  }
}
