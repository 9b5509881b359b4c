/**
 Planning the import of Codex history: terminal turns of accepted root threads are folded
 together with the child turns they reach, colliding folds are dropped, and what is left
 over under an accepted root is planned turn by turn.
 */
module ImportPlan {
  import opened Wrappers
  import opened Rollouts
  import opened RolloutGraph

  // ----- which roots are imported ---------------------------------------------------------

  /** What the database already knows: sessions by native id, session ids, imported sessions by native id. */
  datatype Known = Known(native: map<string, string>, sessionIds: set<string>, imported: map<string, string>)

  datatype Disposition = NewSession | ExistingImport(importedSessionId: string) | ExistingNative | Tombstone

  function SessionDisposition(known: Known, nativeId: string): Disposition {
    if nativeId in known.imported then
      var imported := known.imported[nativeId];
      if imported !in known.sessionIds then Tombstone
      else if nativeId !in known.native || known.native[nativeId] == imported then ExistingImport(imported)
      else ExistingNative
    else if nativeId in known.native then ExistingNative
    else NewSession
  }

  predicate ImportableOriginator(originator: Option<string>) {
    originator.Some? && originator.value in {"Codex Desktop", "codex_vscode", "t3code_desktop", "codex-tui", "codex_cli_rs"}
  }

  predicate AcceptedRoot(known: Known, r: Rollout) {
    && r.parentThreadId.None?
    && ImportableOriginator(r.originator)
    && var d := SessionDisposition(known, r.threadId); (d.NewSession? || d.ExistingImport?)
  }

  function Threads(rollouts: seq<Rollout>): set<string> {
    set r | r in rollouts :: r.threadId
  }

  /** Follow parent links to the top, stopping at a missing parent or a repeated thread. */
  function TopOf(rollouts: seq<Rollout>, current: Rollout, seen: set<string>): Rollout
    requires current in rollouts && seen <= Threads(rollouts)
    decreases |Threads(rollouts) - seen|
  {
    if current.parentThreadId.None? || current.threadId in seen then current
    else
      var parent := Lookup(rollouts, current.parentThreadId.value);
      if parent.None? then current
      else
        assert Threads(rollouts) - (seen + {current.threadId}) < Threads(rollouts) - seen;
        SmallerSet(Threads(rollouts) - (seen + {current.threadId}), Threads(rollouts) - seen);
        TopOf(rollouts, parent.value, seen + {current.threadId})
  }

  lemma SmallerSet(a: set<string>, b: set<string>)
    requires a < b
    ensures |a| < |b|
  {
    var x :| x in b && x !in a;
    var rest := b - a;
    assert b == a + rest;
    assert |b| == |a| + |rest|;
  }

  predicate UnderAcceptedRoot(rollouts: seq<Rollout>, known: Known, r: Rollout)
    requires r in rollouts
  {
    AcceptedRoot(known, TopOf(rollouts, r, {}))
  }

  // ----- earlier imports --------------------------------------------------------------------

  /** The canonical fields a query fingerprint is taken over; equal fingerprints mean equal fields. */
  datatype Fingerprint = Fingerprint(sourceId: TurnRef, terminal: Terminal, usage: Usage, callIds: seq<TurnRef>)

  datatype Provenance = Provenance(calls: set<TurnRef>, queries: map<TurnRef, Fingerprint>)

  /** Every imported query recorded each of its calls, its own turn among them. */
  ghost predicate CallsRecorded(prov: Provenance) {
    forall id :: id in prov.queries ==>
      id in prov.queries[id].callIds && forall k :: k in prov.queries[id].callIds ==> k in prov.calls
  }

  datatype Query = Query(sourceId: TurnRef, session: string, fingerprint: Fingerprint, usage: Usage, callIds: seq<TurnRef>)

  // ----- what a plan is ---------------------------------------------------------------------

  function SumUsage(turns: seq<Evidence>): Usage {
    if turns == [] then NO_USAGE else SumUsage(turns[..|turns| - 1]).Plus(turns[|turns| - 1].turn.usage)
  }

  function KeysOf(turns: seq<Evidence>): seq<TurnRef> {
    seq(|turns|, i requires 0 <= i < |turns| => turns[i].Key())
  }

  ghost predicate InTree(rollouts: seq<Rollout>, owner: Evidence, e: Evidence) {
    e == owner || Reachable(rollouts, ImportSelector, owner, e)
  }

  ghost predicate IsOwner(rollouts: seq<Rollout>, known: Known, o: Evidence) {
    o.rollout in rollouts && AcceptedRoot(known, o.rollout) && o.turn in o.rollout.turns && IsTerminal(o.turn)
  }

  /** The turn and everything it reaches can be imported as one query. */
  ghost predicate Foldable(rollouts: seq<Rollout>, prov: Provenance, o: Evidence) {
    && ExpansionExact(rollouts, ImportSelector, o)
    && (exists e :: InTree(rollouts, o, e) && e.turn.usage.Positive())
    && (forall e :: InTree(rollouts, o, e) ==> e.Key() !in prov.calls)
  }

  /** Two foldable turns reach the same child turn. */
  ghost predicate Collide(rollouts: seq<Rollout>, known: Known, prov: Provenance, o: Evidence, o': Evidence) {
    && o != o' && IsOwner(rollouts, known, o') && Foldable(rollouts, prov, o')
    && exists e :: Reachable(rollouts, ImportSelector, o, e) && Reachable(rollouts, ImportSelector, o', e)
  }

  ghost predicate Folded(rollouts: seq<Rollout>, known: Known, prov: Provenance, o: Evidence) {
    && IsOwner(rollouts, known, o) && Foldable(rollouts, prov, o)
    && forall o' :: !Collide(rollouts, known, prov, o, o')
  }

  /** A turn under an accepted root that still has to be imported. */
  ghost predicate Importable(rollouts: seq<Rollout>, known: Known, e: Evidence) {
    && e.rollout in rollouts && UnderAcceptedRoot(rollouts, known, e.rollout)
    && e.turn in e.rollout.turns && IsTerminal(e.turn) && e.turn.usage.Positive()
  }

  /** Importable, not imported before, and not part of a fold. */
  ghost predicate Loose(rollouts: seq<Rollout>, known: Known, prov: Provenance, e: Evidence) {
    && Importable(rollouts, known, e) && e.Key() !in prov.calls
    && forall o :: Folded(rollouts, known, prov, o) ==> !InTree(rollouts, o, e)
  }

  ghost predicate CarriesTurns(q: Query, o: Evidence, turns: seq<Evidence>) {
    && q.sourceId == o.Key() && q.callIds == KeysOf(turns) && q.usage == SumUsage(turns)
    && q.fingerprint == Fingerprint(q.sourceId, o.turn.terminal, q.usage, q.callIds)
  }

  ghost predicate Distinct<T>(xs: seq<T>) {
    forall i, j :: 0 <= i < j < |xs| ==> xs[i] != xs[j]
  }

  /** The turns the owner reaches, each once. */
  ghost predicate IsTree(rollouts: seq<Rollout>, o: Evidence, kids: seq<Evidence>) {
    Distinct(kids) && forall e :: e in kids <==> Reachable(rollouts, ImportSelector, o, e)
  }

  /** One query for the turn and the turns it reaches, the turn first, in the root's session. */
  ghost predicate IsFold(rollouts: seq<Rollout>, o: Evidence, q: Query) {
    q.session == o.rollout.threadId && exists kids :: IsTree(rollouts, o, kids) && CarriesTurns(q, o, [o] + kids)
  }

  /** A query for one turn, in the session of the root above it. */
  ghost predicate IsSingle(rollouts: seq<Rollout>, e: Evidence, q: Query) {
    e.rollout in rollouts && q.session == TopOf(rollouts, e.rollout, {}).threadId && CarriesTurns(q, e, [e])
  }

  /** The planned queries, up to their order: one fold per folded turn, one single per loose turn. */
  ghost predicate IsPlan(rollouts: seq<Rollout>, known: Known, prov: Provenance, plan: seq<Query>) {
    && (forall q :: q in plan ==>
          || (exists o :: Folded(rollouts, known, prov, o) && IsFold(rollouts, o, q))
          || (exists e :: Loose(rollouts, known, prov, e) && IsSingle(rollouts, e, q)))
    && (forall o :: Folded(rollouts, known, prov, o) ==> exists q :: q in plan && IsFold(rollouts, o, q))
    && (forall e :: Loose(rollouts, known, prov, e) ==> exists q :: q in plan && IsSingle(rollouts, e, q))
    && (forall i, j :: 0 <= i < j < |plan| ==> plan[i].sourceId != plan[j].sourceId)
  }

  // ----- conservation -------------------------------------------------------------------------

  /** No root thread is named as a child by any turn. */
  ghost predicate RootsUnnamed(rollouts: seq<Rollout>) {
    forall r, a, t :: r in rollouts && r.parentThreadId.None? && a in rollouts && t in a.turns ==> r.threadId !in t.childIds
  }

  lemma ReachableIsStored(rollouts: seq<Rollout>, o: Evidence, e: Evidence)
    requires Reachable(rollouts, ImportSelector, o, e)
    ensures e.rollout in rollouts && e.turn in e.rollout.turns && IsTerminal(e.turn)
  {
    var path: seq<Evidence> :| |path| >= 2 && path[0] == o && path[|path| - 1] == e && IsPath(rollouts, ImportSelector, path);
    assert Edge(rollouts, ImportSelector, path[|path| - 2], path[|path| - 2 + 1]);
  }

  lemma RootsUnreachable(rollouts: seq<Rollout>, o: Evidence, e: Evidence)
    requires WellKeyed(rollouts) && RootsUnnamed(rollouts)
    requires o.rollout in rollouts && o.turn in o.rollout.turns
    requires Reachable(rollouts, ImportSelector, o, e)
    ensures e.rollout.parentThreadId.Some?
  {
    var path: seq<Evidence> :| |path| >= 2 && path[0] == o && path[|path| - 1] == e && IsPath(rollouts, ImportSelector, path);
    var a := path[|path| - 2];
    assert Edge(rollouts, ImportSelector, path[|path| - 2], path[|path| - 2 + 1]);
    if |path| > 2 {
      assert Edge(rollouts, ImportSelector, path[|path| - 3], path[|path| - 3 + 1]);
    }
    assert a.rollout in rollouts && a.turn in a.rollout.turns;
    forall x | x in rollouts && x.threadId == e.rollout.threadId ensures x == e.rollout {
      LookupIsUnique(rollouts, x);
    }
  }

  lemma InTreeIsStored(rollouts: seq<Rollout>, known: Known, o: Evidence, e: Evidence)
    requires IsOwner(rollouts, known, o) && InTree(rollouts, o, e)
    ensures e.rollout in rollouts && e.turn in e.rollout.turns
  {
    if e != o { ReachableIsStored(rollouts, o, e); }
  }

  lemma FoldCarries(rollouts: seq<Rollout>, o: Evidence, q: Query, k: TurnRef) returns (e: Evidence)
    requires IsFold(rollouts, o, q) && k in q.callIds
    ensures InTree(rollouts, o, e) && e.Key() == k
  {
    var kids :| IsTree(rollouts, o, kids) && CarriesTurns(q, o, [o] + kids);
    var i :| 0 <= i < |KeysOf([o] + kids)| && KeysOf([o] + kids)[i] == k;
    e := ([o] + kids)[i];
    assert i > 0 ==> e == kids[i - 1];
  }

  lemma FoldHolds(rollouts: seq<Rollout>, o: Evidence, q: Query, e: Evidence)
    requires IsFold(rollouts, o, q) && InTree(rollouts, o, e)
    ensures e.Key() in q.callIds
  {
    var kids :| IsTree(rollouts, o, kids) && CarriesTurns(q, o, [o] + kids);
    assert e in [o] + kids;
    var i :| 0 <= i < |[o] + kids| && ([o] + kids)[i] == e;
    assert KeysOf([o] + kids)[i] == e.Key();
  }

  /** No folded turn reaches another folded turn. */
  ghost predicate FoldsApart(rollouts: seq<Rollout>, known: Known, prov: Provenance) {
    forall o, o' {:trigger Reachable(rollouts, ImportSelector, o, o')} ::
      Folded(rollouts, known, prov, o) && Folded(rollouts, known, prov, o') && Reachable(rollouts, ImportSelector, o, o') ==> o == o'
  }

  lemma UnnamedRootsKeepFoldsApart(rollouts: seq<Rollout>, known: Known, prov: Provenance)
    requires WellKeyed(rollouts) && RootsUnnamed(rollouts)
    ensures FoldsApart(rollouts, known, prov)
  {
    forall o, o' | Folded(rollouts, known, prov, o) && Folded(rollouts, known, prov, o') ensures !Reachable(rollouts, ImportSelector, o, o') {
      if Reachable(rollouts, ImportSelector, o, o') { RootsUnreachable(rollouts, o, o'); }
    }
  }

  /** Trees of different folds share no call. */
  lemma FoldsAreDisjoint(rollouts: seq<Rollout>, known: Known, prov: Provenance, o: Evidence, o': Evidence, e: Evidence)
    requires WellKeyed(rollouts) && FoldsApart(rollouts, known, prov)
    requires Folded(rollouts, known, prov, o) && Folded(rollouts, known, prov, o')
    requires InTree(rollouts, o, e) && InTree(rollouts, o', e)
    ensures o == o'
  {
    assert o != o' && e != o && e != o' ==> Collide(rollouts, known, prov, o, o');
  }

  ghost predicate FoldCarriesTurn(rollouts: seq<Rollout>, known: Known, prov: Provenance, o: Evidence, q: Query, e: Evidence) {
    Folded(rollouts, known, prov, o) && IsFold(rollouts, o, q) && InTree(rollouts, o, e)
  }

  /** What one planned query carries: calls of the tree it folds, or of its single turn. */
  ghost predicate Carries(rollouts: seq<Rollout>, known: Known, prov: Provenance, q: Query, e: Evidence) {
    || (exists o :: FoldCarriesTurn(rollouts, known, prov, o, q, e))
    || (Loose(rollouts, known, prov, e) && IsSingle(rollouts, e, q))
  }

  lemma FoldCallIsCarried(rollouts: seq<Rollout>, known: Known, prov: Provenance, o: Evidence, q: Query, k: TurnRef)
    returns (e: Evidence)
    requires Folded(rollouts, known, prov, o) && IsFold(rollouts, o, q) && k in q.callIds
    ensures e.Key() == k && Carries(rollouts, known, prov, q, e)
    ensures e.rollout in rollouts && e.turn in e.rollout.turns && k !in prov.calls
  {
    e := FoldCarries(rollouts, o, q, k);
    assert FoldCarriesTurn(rollouts, known, prov, o, q, e);
    InTreeIsStored(rollouts, known, o, e);
  }

  lemma SingleCall(rollouts: seq<Rollout>, e: Evidence, q: Query)
    requires IsSingle(rollouts, e, q)
    ensures q.callIds == [e.Key()]
  {
  }

  lemma CallIsCarried(rollouts: seq<Rollout>, known: Known, prov: Provenance, plan: seq<Query>, q: Query, k: TurnRef)
    returns (e: Evidence)
    requires IsPlan(rollouts, known, prov, plan) && q in plan && k in q.callIds
    ensures e.Key() == k && Carries(rollouts, known, prov, q, e)
    ensures e.rollout in rollouts && e.turn in e.rollout.turns && k !in prov.calls
  {
    if o :| Folded(rollouts, known, prov, o) && IsFold(rollouts, o, q) {
      e := FoldCallIsCarried(rollouts, known, prov, o, q, k);
    } else {
      e :| Loose(rollouts, known, prov, e) && IsSingle(rollouts, e, q);
      SingleCall(rollouts, e, q);
    }
  }

  lemma SameSourceSameQuery(plan: seq<Query>, q: Query, q': Query)
    requires forall i, j :: 0 <= i < j < |plan| ==> plan[i].sourceId != plan[j].sourceId
    requires q in plan && q' in plan && q.sourceId == q'.sourceId
    ensures q == q'
  {
    var i :| 0 <= i < |plan| && plan[i] == q;
    var j :| 0 <= j < |plan| && plan[j] == q';
  }

  lemma FoldSource(rollouts: seq<Rollout>, o: Evidence, q: Query)
    requires IsFold(rollouts, o, q)
    ensures q.sourceId == o.Key()
  {
  }

  lemma CarriersAgree(rollouts: seq<Rollout>, known: Known, prov: Provenance, q: Query, q': Query, e: Evidence)
    requires WellKeyed(rollouts) && FoldsApart(rollouts, known, prov)
    requires Carries(rollouts, known, prov, q, e) && Carries(rollouts, known, prov, q', e)
    ensures q.sourceId == q'.sourceId
  {
    if o, o' :| FoldCarriesTurn(rollouts, known, prov, o, q, e) && FoldCarriesTurn(rollouts, known, prov, o', q', e) {
      FoldsAreDisjoint(rollouts, known, prov, o, o', e);
      FoldSource(rollouts, o, q);
      FoldSource(rollouts, o', q');
    } else {
      assert IsSingle(rollouts, e, q) && IsSingle(rollouts, e, q');
    }
  }

  /** No call is planned twice. */
  lemma PlannedCallsAreDisjoint(rollouts: seq<Rollout>, known: Known, prov: Provenance, plan: seq<Query>, q: Query, q': Query, k: TurnRef)
    requires WellKeyed(rollouts) && FoldsApart(rollouts, known, prov) && IsPlan(rollouts, known, prov, plan)
    requires q in plan && q' in plan && k in q.callIds && k in q'.callIds
    ensures q == q'
  {
    var e := CallIsCarried(rollouts, known, prov, plan, q, k);
    var e' := CallIsCarried(rollouts, known, prov, plan, q', k);
    KeyNamesTurn(rollouts, e, e');
    CarriersAgree(rollouts, known, prov, q, q', e);
    SameSourceSameQuery(plan, q, q');
  }

  lemma NamedFoldIsPlannedTwice(rollouts: seq<Rollout>, known: Known, prov: Provenance, plan: seq<Query>, o: Evidence, o': Evidence)
    returns (q: Query, q': Query)
    requires WellKeyed(rollouts) && IsPlan(rollouts, known, prov, plan)
    requires Folded(rollouts, known, prov, o) && Folded(rollouts, known, prov, o')
    requires Reachable(rollouts, ImportSelector, o, o') && o != o'
    ensures PlannedIn(plan, o'.Key(), q) && PlannedIn(plan, o'.Key(), q') && q != q'
  {
    q :| q in plan && IsFold(rollouts, o, q);
    q' :| q' in plan && IsFold(rollouts, o', q');
    FoldHolds(rollouts, o, q, o');
    FoldHolds(rollouts, o', q', o');
    if o.Key() == o'.Key() { KeyNamesTurn(rollouts, o, o'); }
    assert q.sourceId == o.Key() && q'.sourceId == o'.Key();
  }

  /** The plan holds every call at most once exactly if no folded turn reaches another one. */
  lemma CallsAreDisjointExactly(rollouts: seq<Rollout>, known: Known, prov: Provenance, plan: seq<Query>)
    requires WellKeyed(rollouts) && IsPlan(rollouts, known, prov, plan)
    ensures FoldsApart(rollouts, known, prov)
      <==> forall q, q', k :: PlannedIn(plan, k, q) && PlannedIn(plan, k, q') ==> q == q'
  {
    if FoldsApart(rollouts, known, prov) {
      forall q, q', k | PlannedIn(plan, k, q) && PlannedIn(plan, k, q') ensures q == q' {
        PlannedCallsAreDisjoint(rollouts, known, prov, plan, q, q', k);
      }
    } else {
      var o, o' :| Folded(rollouts, known, prov, o) && Folded(rollouts, known, prov, o') && Reachable(rollouts, ImportSelector, o, o') && o != o';
      var _, _ := NamedFoldIsPlannedTwice(rollouts, known, prov, plan, o, o');
    }
  }

  lemma UnimportedTurnIsPlanned(rollouts: seq<Rollout>, known: Known, prov: Provenance, plan: seq<Query>, e: Evidence)
    returns (q: Query)
    requires IsPlan(rollouts, known, prov, plan)
    requires Importable(rollouts, known, e) && e.Key() !in prov.calls
    ensures q in plan && e.Key() in q.callIds
  {
    if o :| Folded(rollouts, known, prov, o) && InTree(rollouts, o, e) {
      q :| q in plan && IsFold(rollouts, o, q);
      FoldHolds(rollouts, o, q, e);
    } else {
      assert Loose(rollouts, known, prov, e);
      q :| q in plan && IsSingle(rollouts, e, q);
      SingleCall(rollouts, e, q);
    }
  }

  ghost predicate PlannedIn(plan: seq<Query>, k: TurnRef, q: Query) {
    q in plan && k in q.callIds
  }

  /** Every importable turn was imported before or is planned in exactly one query, never both. */
  lemma ImportableTurnsAreConserved(rollouts: seq<Rollout>, known: Known, prov: Provenance, plan: seq<Query>, e: Evidence)
    requires WellKeyed(rollouts) && FoldsApart(rollouts, known, prov) && IsPlan(rollouts, known, prov, plan)
    requires Importable(rollouts, known, e)
    ensures e.Key() in prov.calls <==> !exists q :: PlannedIn(plan, e.Key(), q)
    ensures forall q, q' :: PlannedIn(plan, e.Key(), q) && PlannedIn(plan, e.Key(), q') ==> q == q'
  {
    if q :| PlannedIn(plan, e.Key(), q) {
      var _ := CallIsCarried(rollouts, known, prov, plan, q, e.Key());
    }
    if e.Key() !in prov.calls {
      var q := UnimportedTurnIsPlanned(rollouts, known, prov, plan, e);
      assert PlannedIn(plan, e.Key(), q);
    }
    forall q, q' | PlannedIn(plan, e.Key(), q) && PlannedIn(plan, e.Key(), q') ensures q == q' {
      PlannedCallsAreDisjoint(rollouts, known, prov, plan, q, q', e.Key());
    }
  }

  // ----- each call of a fold once -------------------------------------------------------------

  lemma KeysDistinguishTurns(rollouts: seq<Rollout>, turns: seq<Evidence>)
    requires WellKeyed(rollouts) && forall e :: e in turns ==> e.rollout in rollouts && e.turn in e.rollout.turns
    ensures Distinct(KeysOf(turns)) <==> Distinct(turns)
  {
    forall i, j | 0 <= i < j < |turns| ensures KeysOf(turns)[i] == KeysOf(turns)[j] <==> turns[i] == turns[j] {
      assert turns[i] in turns && turns[j] in turns;
      if KeysOf(turns)[i] == KeysOf(turns)[j] { KeyNamesTurn(rollouts, turns[i], turns[j]); }
    }
  }

  lemma DistinctWithFirst<T>(x: T, xs: seq<T>)
    requires Distinct(xs)
    ensures Distinct([x] + xs) <==> x !in xs
  {
    var all := [x] + xs;
    if i :| 0 <= i < |xs| && xs[i] == x { assert all[0] == all[i + 1]; }
  }

  /** A fold lists each call once exactly if its owner does not reach itself. */
  lemma FoldListsCallsOnceExactly(rollouts: seq<Rollout>, known: Known, o: Evidence, q: Query)
    requires WellKeyed(rollouts) && IsOwner(rollouts, known, o) && IsFold(rollouts, o, q)
    ensures Distinct(q.callIds) <==> !Reachable(rollouts, ImportSelector, o, o)
  {
    var kids :| IsTree(rollouts, o, kids) && CarriesTurns(q, o, [o] + kids);
    forall e | e in [o] + kids ensures e.rollout in rollouts && e.turn in e.rollout.turns {
      InTreeIsStored(rollouts, known, o, e);
    }
    KeysDistinguishTurns(rollouts, [o] + kids);
    DistinctWithFirst(o, kids);
  }

  /** So it does whenever no root is named as a child. */
  lemma UnnamedRootsListCallsOnce(rollouts: seq<Rollout>, known: Known, o: Evidence, q: Query)
    requires WellKeyed(rollouts) && RootsUnnamed(rollouts) && IsOwner(rollouts, known, o) && IsFold(rollouts, o, q)
    ensures Distinct(q.callIds)
  {
    if Reachable(rollouts, ImportSelector, o, o) { RootsUnreachable(rollouts, o, o); }
    FoldListsCallsOnceExactly(rollouts, known, o, q);
  }
}
