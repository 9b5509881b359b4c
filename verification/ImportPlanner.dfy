/**
 The two planning passes as they run: fold each terminal turn of an accepted root, drop
 every fold that shares a child turn with another, then plan the turns that are left.
 */
module ImportPlanner {
  import opened Wrappers
  import opened Rollouts
  import opened RolloutGraph
  import opened ImportPlan
  import opened TurnClaims

  ghost predicate ChildIndex(rollouts: seq<Rollout>, children: map<string, seq<string>>) {
    forall parent :: (if parent in children then children[parent] else []) == ChildrenOf(rollouts, parent)
  }

  method UsageForTurns(turns: seq<Evidence>) returns (usage: Usage)
    ensures usage == SumUsage(turns)
    ensures usage.Positive() <==> exists e :: e in turns && e.turn.usage.Positive()
  {
    usage := NO_USAGE;
    for i := 0 to |turns|
      invariant usage == SumUsage(turns[..i])
      invariant usage.Positive() <==> exists e :: e in turns[..i] && e.turn.usage.Positive()
    {
      assert turns[..i + 1][..i] == turns[..i];
      assert turns[..i + 1] == turns[..i] + [turns[i]];
      usage := usage.Plus(turns[i].turn.usage);
      assert turns[i] in turns[..i + 1];
    }
    assert turns[..|turns|] == turns;
  }

  ghost predicate IsKids(rollouts: seq<Rollout>, o: Evidence, kids: seq<TurnRef>) {
    && (forall k :: k in kids <==> exists e :: Reachable(rollouts, ImportSelector, o, e) && e.Key() == k)
    && (forall i, j :: 0 <= i < j < |kids| ==> kids[i] != kids[j])
  }

  /** The turns an owner turn reaches, and their keys. */
  method ExpandTree(rollouts: seq<Rollout>, children: map<string, seq<string>>, o: Evidence)
    returns (turns: seq<Evidence>, kids: seq<TurnRef>, exact: bool)
    requires WellKeyed(rollouts) && ChildIndex(rollouts, children) && o.turn.endedAtMs.Some?
    ensures IsTree(rollouts, o, turns) && IsKids(rollouts, o, kids)
    ensures exact <==> ExpansionExact(rollouts, ImportSelector, o)
  {
    var w := ExpandCodexChildTurns(rollouts, children, ImportSelector, o);
    TakenKeys(rollouts, o, w);
    TakenAreDistinct(rollouts, o, w);
    turns, kids, exact := w.turns, w.keys, w.exact;
  }

  lemma TakenAreDistinct(rollouts: seq<Rollout>, o: Evidence, w: Work)
    requires ExpandsTo(rollouts, ImportSelector, o, w)
    ensures Distinct(w.turns)
  {
    forall i, j | 0 <= i < j < |w.turns| ensures w.turns[i] != w.turns[j] {
      assert w.keys[i] != w.keys[j];
    }
  }

  /** The checks on a tree decide exactly whether its owner is foldable: a recorded query would have
      recorded its own turn. */
  lemma ChecksDecideFoldable(rollouts: seq<Rollout>, prov: Provenance, o: Evidence, kids: seq<Evidence>)
    requires CallsRecorded(prov) && IsTree(rollouts, o, kids)
    requires ExpansionExact(rollouts, ImportSelector, o)
    ensures Foldable(rollouts, prov, o)
       <==> && (exists e :: e in [o] + kids && e.turn.usage.Positive())
            && (forall k :: k in KeysOf([o] + kids) ==> k !in prov.calls)
            && o.Key() !in prov.queries
  {
    var turns := [o] + kids;
    forall e ensures e in turns <==> InTree(rollouts, o, e) {}
    TreeKeys(rollouts, o, turns);
    assert KeysOf(turns)[0] == o.Key();
    if forall k :: k in KeysOf(turns) ==> k !in prov.calls {
      forall e | InTree(rollouts, o, e) ensures e.Key() !in prov.calls { assert e.Key() in KeysOf(turns); }
    }
    if Foldable(rollouts, prov, o) {
      forall k | k in KeysOf(turns) ensures k !in prov.calls {
        var e :| InTree(rollouts, o, e) && e.Key() == k;
      }
    }
  }

  /** The tree of one owner turn as a query, unless it is inexact, empty, or touches recorded calls. */
  method PlanOwner(rollouts: seq<Rollout>, children: map<string, seq<string>>, prov: Provenance, o: Evidence)
    returns (q: Option<Query>, kids: seq<TurnRef>)
    requires WellKeyed(rollouts) && ChildIndex(rollouts, children) && CallsRecorded(prov)
    requires o.turn.endedAtMs.Some?
    ensures q.Some? <==> Foldable(rollouts, prov, o)
    ensures q.Some? ==> IsFold(rollouts, o, q.value)
    ensures IsKids(rollouts, o, kids)
  {
    var below, exact;
    below, kids, exact := ExpandTree(rollouts, children, o);
    if !exact { return None, kids; }
    ChecksDecideFoldable(rollouts, prov, o, below);
    var turns := [o] + below;
    var usage := UsageForTurns(turns);
    if !usage.Positive() { return None, kids; }
    var callIds := KeysOf(turns);
    if exists k :: k in callIds && k in prov.calls { return None, kids; }
    if o.Key() in prov.queries { return None, kids; }
    var query := Query(o.Key(), o.rollout.threadId, Fingerprint(o.Key(), o.turn.terminal, usage, callIds), usage, callIds);
    assert IsTree(rollouts, o, below) && CarriesTurns(query, o, [o] + below);
    return Some(query), kids;
  }

  lemma TakenKeys(rollouts: seq<Rollout>, o: Evidence, w: Work)
    requires ExpandsTo(rollouts, ImportSelector, o, w)
    ensures forall k :: k in w.keys <==> exists e :: Reachable(rollouts, ImportSelector, o, e) && e.Key() == k
  {
    forall k ensures k in w.keys <==> exists e :: Reachable(rollouts, ImportSelector, o, e) && e.Key() == k {
      if k in w.keys {
        var i :| 0 <= i < |w.keys| && w.keys[i] == k;
        assert w.turns[i] in w.turns;
      }
      if e :| Reachable(rollouts, ImportSelector, o, e) && e.Key() == k {
        var i :| 0 <= i < |w.turns| && w.turns[i] == e;
        assert w.keys[i] == k;
      }
    }
  }

  lemma TreeKeys(rollouts: seq<Rollout>, o: Evidence, turns: seq<Evidence>)
    requires forall e :: e in turns <==> InTree(rollouts, o, e)
    ensures forall k :: k in KeysOf(turns) <==> exists e :: InTree(rollouts, o, e) && e.Key() == k
  {
    forall k ensures k in KeysOf(turns) <==> exists e :: InTree(rollouts, o, e) && e.Key() == k {
      if k in KeysOf(turns) {
        var i :| 0 <= i < |KeysOf(turns)| && KeysOf(turns)[i] == k;
        assert turns[i] in turns;
      }
      if e :| InTree(rollouts, o, e) && e.Key() == k {
        var i :| 0 <= i < |turns| && turns[i] == e;
        assert KeysOf(turns)[i] == k;
      }
    }
  }

  /** A fold candidate with the keys of its child turns. */
  datatype Candidate = Candidate(query: Query, kids: seq<TurnRef>, owner: Evidence)

  ghost predicate CandidateSound(rollouts: seq<Rollout>, known: Known, prov: Provenance, c: Candidate) {
    && IsOwner(rollouts, known, c.owner) && Foldable(rollouts, prov, c.owner)
    && IsFold(rollouts, c.owner, c.query) && IsKids(rollouts, c.owner, c.kids)
  }

  ghost predicate CandidatesSound(rollouts: seq<Rollout>, known: Known, prov: Provenance, cs: seq<Candidate>) {
    forall c :: c in cs ==> CandidateSound(rollouts, known, prov, c)
  }

  function Owners(cs: seq<Candidate>): seq<Evidence> {
    seq(|cs|, i requires 0 <= i < |cs| => cs[i].owner)
  }

  lemma OwnersAppend(cs: seq<Candidate>, ds: seq<Candidate>)
    ensures Owners(cs + ds) == Owners(cs) + Owners(ds)
  {
  }

  lemma OwnersPush(cs: seq<Candidate>, c: Candidate)
    ensures Owners(cs + [c]) == Owners(cs) + [c.owner]
  {
  }

  /** The foldable turns among the first `n` of a root. */
  ghost predicate FoldedUpTo(rollouts: seq<Rollout>, prov: Provenance, root: Rollout, n: nat, owners: seq<Evidence>)
    requires n <= |root.turns|
  {
    && Distinct(owners)
    && forall o :: o in owners <==> o.rollout == root && o.turn in root.turns[..n] && IsTerminal(o.turn) && Foldable(rollouts, prov, o)
  }

  lemma FoldedNext(rollouts: seq<Rollout>, prov: Provenance, root: Rollout, n: nat, owners: seq<Evidence>, folded: bool)
    requires n < |root.turns| && FoldedUpTo(rollouts, prov, root, n, owners)
    requires root.turns[n] !in root.turns[..n]
    requires folded <==> IsTerminal(root.turns[n]) && Foldable(rollouts, prov, Evidence(root, root.turns[n]))
    ensures FoldedUpTo(rollouts, prov, root, n + 1, if folded then owners + [Evidence(root, root.turns[n])] else owners)
  {
    assert root.turns[..n + 1] == root.turns[..n] + [root.turns[n]];
  }

  method PlanRoot(rollouts: seq<Rollout>, children: map<string, seq<string>>, known: Known, prov: Provenance, root: Rollout)
    returns (cs: seq<Candidate>)
    requires WellKeyed(rollouts) && ChildIndex(rollouts, children) && CallsRecorded(prov)
    requires root in rollouts && AcceptedRoot(known, root)
    ensures CandidatesSound(rollouts, known, prov, cs) && Distinct(Owners(cs))
    ensures forall o :: o in Owners(cs) <==> IsOwner(rollouts, known, o) && o.rollout == root && Foldable(rollouts, prov, o)
  {
    cs := [];
    for j := 0 to |root.turns|
      invariant CandidatesSound(rollouts, known, prov, cs)
      invariant FoldedUpTo(rollouts, prov, root, j, Owners(cs))
    {
      var t := root.turns[j];
      var o := Evidence(root, t);
      ghost var owners, folded := Owners(cs), false;
      if IsTerminal(t) {
        var q, kids := PlanOwner(rollouts, children, prov, o);
        if q.Some? {
          var c := Candidate(q.value, kids, o);
          OwnersPush(cs, c);
          cs := cs + [c];
          folded := true;
        }
      }
      FoldedNext(rollouts, prov, root, j, owners, folded);
    }
    assert root.turns[..|root.turns|] == root.turns;
  }

  /** The first pass: every foldable turn of every accepted root, once. */
  method PlanFolds(rollouts: seq<Rollout>, children: map<string, seq<string>>, known: Known, prov: Provenance)
    returns (cs: seq<Candidate>)
    requires WellKeyed(rollouts) && ChildIndex(rollouts, children) && CallsRecorded(prov)
    ensures CandidatesSound(rollouts, known, prov, cs) && Distinct(Owners(cs))
    ensures forall o :: o in Owners(cs) <==> IsOwner(rollouts, known, o) && Foldable(rollouts, prov, o)
  {
    cs := [];
    for n := 0 to |rollouts|
      invariant CandidatesSound(rollouts, known, prov, cs) && Distinct(Owners(cs))
      invariant forall o :: o in Owners(cs) <==>
                  IsOwner(rollouts, known, o) && o.rollout in rollouts[..n] && Foldable(rollouts, prov, o)
    {
      var root := rollouts[n];
      assert rollouts[..n + 1] == rollouts[..n] + [root];
      assert root !in rollouts[..n];
      if AcceptedRoot(known, root) {
        var more := PlanRoot(rollouts, children, known, prov, root);
        DisjointAppend(Owners(cs), Owners(more));
        OwnersAppend(cs, more);
        cs := cs + more;
      }
    }
    assert rollouts[..|rollouts|] == rollouts;
  }

  lemma DisjointAppend<T>(xs: seq<T>, ys: seq<T>)
    requires Distinct(xs) && Distinct(ys) && forall x :: x in xs ==> x !in ys
    ensures Distinct(xs + ys)
  {
    var all := xs + ys;
    forall i, j | 0 <= i < j < |all| ensures all[i] != all[j] {
      if i < |xs| <= j { assert xs[i] in xs && ys[j - |xs|] in ys; }
    }
  }

  function KidsOf(cs: seq<Candidate>): Kids {
    seq(|cs|, i requires 0 <= i < |cs| => cs[i].kids)
  }

  /** Every candidate that shares a child turn with another is dropped. */
  method DropCollisions(cs: seq<Candidate>) returns (kept: seq<Candidate>)
    requires EachOnce(KidsOf(cs)) && Distinct(Owners(cs))
    ensures forall c :: c in kept <==> exists i :: 0 <= i < |cs| && cs[i] == c && !Contested(KidsOf(cs), i)
    ensures Distinct(Owners(kept))
  {
    var collided := CollidedOwners(KidsOf(cs));
    kept := [];
    for i := 0 to |cs|
      invariant forall c :: c in kept <==> exists x :: 0 <= x < i && cs[x] == c && x !in collided
      invariant Distinct(Owners(kept))
    {
      if i !in collided {
        forall a | 0 <= a < |kept| ensures kept[a].owner != cs[i].owner {
          assert kept[a] in kept;
          var x :| 0 <= x < i && cs[x] == kept[a];
          assert Owners(cs)[x] != Owners(cs)[i];
        }
        OwnersPush(kept, cs[i]);
        kept := kept + [cs[i]];
      }
    }
  }

  /** Sharing a child key is sharing a child turn. */
  lemma SharedKeyIsCollision(rollouts: seq<Rollout>, known: Known, prov: Provenance, c: Candidate, d: Candidate)
    requires WellKeyed(rollouts)
    requires CandidateSound(rollouts, known, prov, c) && CandidateSound(rollouts, known, prov, d)
    requires c.owner != d.owner
    ensures Collide(rollouts, known, prov, c.owner, d.owner) <==> exists k :: k in c.kids && k in d.kids
  {
    if k :| k in c.kids && k in d.kids {
      var e :| Reachable(rollouts, ImportSelector, c.owner, e) && e.Key() == k;
      var e' :| Reachable(rollouts, ImportSelector, d.owner, e') && e'.Key() == k;
      ReachableIsStored(rollouts, c.owner, e);
      ReachableIsStored(rollouts, d.owner, e');
      KeyNamesTurn(rollouts, e, e');
    }
    if Collide(rollouts, known, prov, c.owner, d.owner) {
      var e :| Reachable(rollouts, ImportSelector, c.owner, e) && Reachable(rollouts, ImportSelector, d.owner, e);
      assert e.Key() in c.kids && e.Key() in d.kids;
    }
  }

  /** What the collision filter keeps of all foldable turns are the folded ones. */
  lemma UnsharedIsFolded(rollouts: seq<Rollout>, known: Known, prov: Provenance, cs: seq<Candidate>, i: nat)
    requires WellKeyed(rollouts) && CandidatesSound(rollouts, known, prov, cs) && Distinct(Owners(cs)) && i < |cs|
    requires forall o :: o in Owners(cs) <==> IsOwner(rollouts, known, o) && Foldable(rollouts, prov, o)
    ensures Folded(rollouts, known, prov, cs[i].owner) <==> !Contested(KidsOf(cs), i)
  {
    assert cs[i] in cs;
    assert CandidateSound(rollouts, known, prov, cs[i]);
    forall j: nat | j < |cs| && j != i
      ensures ShareTurn(KidsOf(cs), i, j) <==> Collide(rollouts, known, prov, cs[i].owner, cs[j].owner)
    {
      assert cs[j] in cs;
      assert CandidateSound(rollouts, known, prov, cs[j]);
      assert Owners(cs)[i] != Owners(cs)[j];
      SharedKeyIsCollision(rollouts, known, prov, cs[i], cs[j]);
    }
    if o' :| Collide(rollouts, known, prov, cs[i].owner, o') {
      assert o' in Owners(cs);
      var j :| 0 <= j < |Owners(cs)| && Owners(cs)[j] == o';
      assert ShareTurn(KidsOf(cs), i, j);
    }
  }

  ghost predicate KeptSound(rollouts: seq<Rollout>, known: Known, prov: Provenance, kept: seq<Candidate>) {
    && CandidatesSound(rollouts, known, prov, kept) && Distinct(Owners(kept))
    && forall o :: o in Owners(kept) <==> Folded(rollouts, known, prov, o)
  }

  lemma FilterKeepsFolded(rollouts: seq<Rollout>, known: Known, prov: Provenance, cs: seq<Candidate>, kept: seq<Candidate>)
    requires WellKeyed(rollouts) && CandidatesSound(rollouts, known, prov, cs) && Distinct(Owners(cs)) && Distinct(Owners(kept))
    requires forall o :: o in Owners(cs) <==> IsOwner(rollouts, known, o) && Foldable(rollouts, prov, o)
    requires forall c :: c in kept <==> exists i :: 0 <= i < |cs| && cs[i] == c && !Contested(KidsOf(cs), i)
    ensures KeptSound(rollouts, known, prov, kept)
  {
    forall c | c in kept ensures c in cs && Folded(rollouts, known, prov, c.owner) {
      var i :| 0 <= i < |cs| && cs[i] == c && !Contested(KidsOf(cs), i);
      UnsharedIsFolded(rollouts, known, prov, cs, i);
    }
    forall o | o in Owners(kept) ensures Folded(rollouts, known, prov, o) {
      var a :| 0 <= a < |kept| && Owners(kept)[a] == o;
      assert kept[a] in kept;
    }
    forall o | Folded(rollouts, known, prov, o) ensures o in Owners(kept) {
      FoldedIsKept(rollouts, known, prov, cs, kept, o);
    }
  }

  lemma FoldedIsKept(rollouts: seq<Rollout>, known: Known, prov: Provenance, cs: seq<Candidate>, kept: seq<Candidate>, o: Evidence)
    requires WellKeyed(rollouts) && CandidatesSound(rollouts, known, prov, cs) && Distinct(Owners(cs))
    requires forall o :: o in Owners(cs) <==> IsOwner(rollouts, known, o) && Foldable(rollouts, prov, o)
    requires forall c :: c in kept <==> exists i :: 0 <= i < |cs| && cs[i] == c && !Contested(KidsOf(cs), i)
    requires Folded(rollouts, known, prov, o)
    ensures o in Owners(kept)
  {
    assert o in Owners(cs);
    var i :| 0 <= i < |Owners(cs)| && Owners(cs)[i] == o;
    UnsharedIsFolded(rollouts, known, prov, cs, i);
    assert cs[i] in kept;
    var a :| 0 <= a < |kept| && kept[a] == cs[i];
    assert Owners(kept)[a] == o;
  }

  function QueriesOf(kept: seq<Candidate>): seq<Query> {
    seq(|kept|, i requires 0 <= i < |kept| => kept[i].query)
  }

  function CallsIn(plan: seq<Query>): set<TurnRef> {
    set q, k | q in plan && k in q.callIds :: k
  }

  /** A call is in one of the kept folds exactly when its turn lies in a folded tree. */
  lemma KeptCallsAreTrees(rollouts: seq<Rollout>, known: Known, prov: Provenance, kept: seq<Candidate>, e: Evidence)
    requires WellKeyed(rollouts) && KeptSound(rollouts, known, prov, kept)
    requires e.rollout in rollouts && e.turn in e.rollout.turns
    ensures e.Key() in CallsIn(QueriesOf(kept)) <==> exists o :: Folded(rollouts, known, prov, o) && InTree(rollouts, o, e)
  {
    if e.Key() in CallsIn(QueriesOf(kept)) {
      var q :| q in QueriesOf(kept) && e.Key() in q.callIds;
      var i :| 0 <= i < |QueriesOf(kept)| && QueriesOf(kept)[i] == q;
      assert kept[i] in kept && Owners(kept)[i] == kept[i].owner;
      assert kept[i].owner in Owners(kept);
      var o := kept[i].owner;
      var e' := FoldCarries(rollouts, o, q, e.Key());
      InTreeIsStored(rollouts, known, o, e');
      KeyNamesTurn(rollouts, e, e');
    }
    if o :| Folded(rollouts, known, prov, o) && InTree(rollouts, o, e) {
      var i :| 0 <= i < |Owners(kept)| && Owners(kept)[i] == o;
      assert kept[i] in kept && QueriesOf(kept)[i] in QueriesOf(kept);
      FoldHolds(rollouts, o, kept[i].query, e);
    }
  }

  /** The single queries of the second pass, with the turns they stand for. */
  ghost predicate SinglesFor(rollouts: seq<Rollout>, singles: seq<Query>, turns: seq<Evidence>) {
    |singles| == |turns| && forall i :: 0 <= i < |turns| ==> IsSingle(rollouts, turns[i], singles[i])
  }

  /** The second pass has come to rollout `n`. */
  ghost predicate RestPlanned(rollouts: seq<Rollout>, known: Known, taken0: set<TurnRef>, n: nat,
                              taken: set<TurnRef>, singles: seq<Query>, turns: seq<Evidence>)
    requires n <= |rollouts|
  {
    && SinglesFor(rollouts, singles, turns) && Distinct(KeysOf(turns))
    && (forall k :: k in taken <==> k in taken0 || k in KeysOf(turns))
    && (forall e :: e in turns <==> Importable(rollouts, known, e) && e.rollout in rollouts[..n] && e.Key() !in taken0)
  }

  method PlanOneRest(rollouts: seq<Rollout>, known: Known, prov: Provenance, ghost taken0: set<TurnRef>, n: nat,
                     taken: set<TurnRef>, singles: seq<Query>, ghost turns: seq<Evidence>)
    returns (taken': set<TurnRef>, singles': seq<Query>, ghost turns': seq<Evidence>)
    requires WellKeyed(rollouts) && CallsRecorded(prov) && prov.calls <= taken0 && n < |rollouts|
    requires RestPlanned(rollouts, known, taken0, n, taken, singles, turns)
    ensures RestPlanned(rollouts, known, taken0, n + 1, taken', singles', turns')
  {
    var rollout := rollouts[n];
    if !UnderAcceptedRoot(rollouts, known, rollout) {
      RestSkips(rollouts, known, taken0, n, taken, singles, turns);
      return taken, singles, turns;
    }
    var more, now, found := PlanRolloutRest(rollouts, rollout, prov, taken);
    RestGrows(rollouts, known, taken0, n, taken, singles, turns, now, more, found);
    return now, singles + more, turns + found;
  }

  lemma RestSkips(rollouts: seq<Rollout>, known: Known, taken0: set<TurnRef>, n: nat,
                  taken: set<TurnRef>, singles: seq<Query>, turns: seq<Evidence>)
    requires n < |rollouts| && RestPlanned(rollouts, known, taken0, n, taken, singles, turns)
    requires !UnderAcceptedRoot(rollouts, known, rollouts[n])
    ensures RestPlanned(rollouts, known, taken0, n + 1, taken, singles, turns)
  {
    assert rollouts[..n + 1] == rollouts[..n] + [rollouts[n]];
  }

  lemma RestGrows(rollouts: seq<Rollout>, known: Known, taken0: set<TurnRef>, n: nat, taken: set<TurnRef>,
                  singles: seq<Query>, turns: seq<Evidence>, now: set<TurnRef>, more: seq<Query>, found: seq<Evidence>)
    requires WellKeyed(rollouts) && n < |rollouts| && UnderAcceptedRoot(rollouts, known, rollouts[n])
    requires RestPlanned(rollouts, known, taken0, n, taken, singles, turns)
    requires SinglesFor(rollouts, more, found) && Distinct(KeysOf(found))
    requires forall k :: k in now <==> k in taken || k in KeysOf(found)
    requires forall e :: e in found <==> LeftOver(rollouts[n], rollouts[n].turns, e) && e.Key() !in taken
    ensures RestPlanned(rollouts, known, taken0, n + 1, now, singles + more, turns + found)
  {
    FoundIsNew(rollouts, known, rollouts[n], n, taken0, turns, found);
    FoundIsUntaken(taken, found);
    KeysOfAppend(turns, found);
    DisjointAppend(KeysOf(turns), KeysOf(found));
  }

  lemma FoundIsUntaken(taken: set<TurnRef>, found: seq<Evidence>)
    requires forall e :: e in found ==> e.Key() !in taken
    ensures forall k :: k in KeysOf(found) ==> k !in taken
  {
    forall i | 0 <= i < |found| ensures KeysOf(found)[i] !in taken { assert found[i] in found; }
  }

  /** The second pass: every importable turn whose call is not assigned yet, in rollout order. */
  method PlanRest(rollouts: seq<Rollout>, known: Known, prov: Provenance, taken0: set<TurnRef>)
    returns (singles: seq<Query>, ghost turns: seq<Evidence>)
    requires WellKeyed(rollouts) && CallsRecorded(prov) && prov.calls <= taken0
    ensures SinglesFor(rollouts, singles, turns) && Distinct(KeysOf(turns))
    ensures forall e :: e in turns <==> Importable(rollouts, known, e) && e.Key() !in taken0
  {
    singles, turns := [], [];
    var taken := taken0;
    for n := 0 to |rollouts|
      invariant RestPlanned(rollouts, known, taken0, n, taken, singles, turns)
    {
      taken, singles, turns := PlanOneRest(rollouts, known, prov, taken0, n, taken, singles, turns);
    }
    assert rollouts[..|rollouts|] == rollouts;
  }

  lemma KeysOfAppend(xs: seq<Evidence>, ys: seq<Evidence>)
    ensures KeysOf(xs + ys) == KeysOf(xs) + KeysOf(ys)
  {
  }

  lemma KeysDiffer(rollouts: seq<Rollout>, e: Evidence, e': Evidence)
    requires WellKeyed(rollouts) && e != e'
    requires e.rollout in rollouts && e.turn in e.rollout.turns
    requires e'.rollout in rollouts && e'.turn in e'.rollout.turns
    ensures e.Key() != e'.Key()
  {
    if e.Key() == e'.Key() { KeyNamesTurn(rollouts, e, e'); }
  }

  /** The turns one rollout adds are its importable ones: keys of other rollouts cannot block them. */
  lemma FoundIsNew(rollouts: seq<Rollout>, known: Known, rollout: Rollout, n: nat, taken0: set<TurnRef>,
                   turns: seq<Evidence>, found: seq<Evidence>)
    requires WellKeyed(rollouts) && n < |rollouts| && rollouts[n] == rollout && UnderAcceptedRoot(rollouts, known, rollout)
    requires forall e :: e in turns <==> Importable(rollouts, known, e) && e.rollout in rollouts[..n] && e.Key() !in taken0
    requires forall e :: e in found <==> LeftOver(rollout, rollout.turns, e) && e.Key() !in taken0 && e.Key() !in KeysOf(turns)
    ensures forall e :: e in turns + found <==>
              Importable(rollouts, known, e) && e.rollout in rollouts[..n + 1] && e.Key() !in taken0
  {
    forall e: Evidence | e.rollout == rollout && e.turn in rollout.turns ensures e.Key() !in KeysOf(turns) {
      forall i | 0 <= i < |turns| ensures KeysOf(turns)[i] != e.Key() {
        assert turns[i] in turns;
        KeysDiffer(rollouts, turns[i], e);
      }
    }
    assert rollouts[..n + 1] == rollouts[..n] + [rollout];
  }

  predicate LeftOver(rollout: Rollout, turns: seq<Turn>, e: Evidence) {
    e.rollout == rollout && e.turn in turns && IsTerminal(e.turn) && e.turn.usage.Positive()
  }

  method PlanRolloutRest(rollouts: seq<Rollout>, rollout: Rollout, prov: Provenance, taken0: set<TurnRef>)
    returns (singles: seq<Query>, taken: set<TurnRef>, ghost found: seq<Evidence>)
    requires rollout in rollouts && DistinctTurnIds(rollout) && CallsRecorded(prov) && prov.calls <= taken0
    ensures SinglesFor(rollouts, singles, found) && Distinct(KeysOf(found))
    ensures forall k :: k in taken <==> k in taken0 || k in KeysOf(found)
    ensures forall e :: e in found <==> LeftOver(rollout, rollout.turns, e) && e.Key() !in taken0
  {
    singles, taken, found := [], taken0, [];
    var root := TopOf(rollouts, rollout, {});
    for j := 0 to |rollout.turns|
      invariant SinglesFor(rollouts, singles, found) && Distinct(KeysOf(found))
      invariant forall k :: k in taken <==> k in taken0 || k in KeysOf(found)
      invariant forall e :: e in found <==> LeftOver(rollout, rollout.turns[..j], e) && e.Key() !in taken0
    {
      var turn := rollout.turns[j];
      assert rollout.turns[..j + 1] == rollout.turns[..j] + [turn];
      var e := Evidence(rollout, turn);
      if IsTerminal(turn) && turn.usage.Positive() {
        forall i | 0 <= i < |found| ensures KeysOf(found)[i] != e.Key() {
          assert found[i] in found;
        }
        if e.Key() !in taken && e.Key() !in prov.queries {
          var callIds := KeysOf([e]);
          var usage := UsageForTurns([e]);
          singles := singles + [Query(e.Key(), root.threadId, Fingerprint(e.Key(), turn.terminal, usage, callIds), usage, callIds)];
          KeysOfAppend(found, [e]);
          assert KeysOf([e]) == [e.Key()];
          found := found + [e];
          taken := taken + {e.Key()};
        }
      }
    }
    assert rollout.turns[..|rollout.turns|] == rollout.turns;
  }

  lemma KeptQueriesAreFolds(rollouts: seq<Rollout>, known: Known, prov: Provenance, kept: seq<Candidate>)
    requires KeptSound(rollouts, known, prov, kept)
    ensures forall q :: q in QueriesOf(kept) ==> exists o :: Folded(rollouts, known, prov, o) && IsFold(rollouts, o, q)
    ensures forall o :: Folded(rollouts, known, prov, o) ==> exists q :: q in QueriesOf(kept) && IsFold(rollouts, o, q)
  {
    forall q | q in QueriesOf(kept) ensures exists o :: Folded(rollouts, known, prov, o) && IsFold(rollouts, o, q) {
      var i :| 0 <= i < |QueriesOf(kept)| && QueriesOf(kept)[i] == q;
      assert kept[i] in kept && Owners(kept)[i] in Owners(kept);
    }
    forall o | Folded(rollouts, known, prov, o) ensures exists q :: q in QueriesOf(kept) && IsFold(rollouts, o, q) {
      var i :| 0 <= i < |Owners(kept)| && Owners(kept)[i] == o;
      assert kept[i] in kept && QueriesOf(kept)[i] in QueriesOf(kept);
    }
  }

  /** Folds and singles together form the plan. */
  lemma PassesFormPlan(rollouts: seq<Rollout>, known: Known, prov: Provenance, kept: seq<Candidate>,
                       singles: seq<Query>, turns: seq<Evidence>)
    requires WellKeyed(rollouts) && KeptSound(rollouts, known, prov, kept)
    requires SinglesFor(rollouts, singles, turns) && Distinct(KeysOf(turns))
    requires forall e :: e in turns <==> Loose(rollouts, known, prov, e)
    ensures IsPlan(rollouts, known, prov, QueriesOf(kept) + singles)
  {
    KeptQueriesAreFolds(rollouts, known, prov, kept);
    SinglesAreLoose(rollouts, known, prov, singles, turns);
    SourcesAreDistinct(rollouts, known, prov, kept, singles, turns);
  }

  lemma SinglesAreLoose(rollouts: seq<Rollout>, known: Known, prov: Provenance, singles: seq<Query>, turns: seq<Evidence>)
    requires SinglesFor(rollouts, singles, turns)
    requires forall e :: e in turns <==> Loose(rollouts, known, prov, e)
    ensures forall q :: q in singles ==> exists e :: Loose(rollouts, known, prov, e) && IsSingle(rollouts, e, q)
    ensures forall e :: Loose(rollouts, known, prov, e) ==> exists q :: q in singles && IsSingle(rollouts, e, q)
  {
    forall q | q in singles ensures exists e :: Loose(rollouts, known, prov, e) && IsSingle(rollouts, e, q) {
      var i :| 0 <= i < |singles| && singles[i] == q;
      assert turns[i] in turns;
    }
    forall e | Loose(rollouts, known, prov, e) ensures exists q :: q in singles && IsSingle(rollouts, e, q) {
      var i :| 0 <= i < |turns| && turns[i] == e;
      assert singles[i] in singles;
    }
  }

  lemma FoldSourcesDiffer(rollouts: seq<Rollout>, known: Known, prov: Provenance, kept: seq<Candidate>, i: nat, j: nat)
    requires WellKeyed(rollouts) && KeptSound(rollouts, known, prov, kept) && i < j < |kept|
    ensures kept[i].query.sourceId != kept[j].query.sourceId
  {
    assert kept[i] in kept && kept[j] in kept && Owners(kept)[i] != Owners(kept)[j];
    assert CandidateSound(rollouts, known, prov, kept[i]) && CandidateSound(rollouts, known, prov, kept[j]);
    KeysDiffer(rollouts, kept[i].owner, kept[j].owner);
  }

  lemma FoldAndSingleDiffer(rollouts: seq<Rollout>, known: Known, prov: Provenance, kept: seq<Candidate>, i: nat, e: Evidence)
    requires WellKeyed(rollouts) && KeptSound(rollouts, known, prov, kept) && i < |kept|
    requires Loose(rollouts, known, prov, e)
    ensures kept[i].query.sourceId != e.Key()
  {
    var o := kept[i].owner;
    assert kept[i] in kept && Owners(kept)[i] in Owners(kept);
    assert CandidateSound(rollouts, known, prov, kept[i]);
    assert InTree(rollouts, o, o) && !InTree(rollouts, o, e);
    KeysDiffer(rollouts, o, e);
  }

  lemma SourcesAreDistinct(rollouts: seq<Rollout>, known: Known, prov: Provenance, kept: seq<Candidate>,
                           singles: seq<Query>, turns: seq<Evidence>)
    requires WellKeyed(rollouts) && KeptSound(rollouts, known, prov, kept)
    requires SinglesFor(rollouts, singles, turns) && Distinct(KeysOf(turns))
    requires forall e :: e in turns <==> Loose(rollouts, known, prov, e)
    ensures var plan := QueriesOf(kept) + singles;
            forall i, j :: 0 <= i < j < |plan| ==> plan[i].sourceId != plan[j].sourceId
  {
    var plan := QueriesOf(kept) + singles;
    forall i, j | 0 <= i < j < |plan| ensures plan[i].sourceId != plan[j].sourceId {
      if j < |kept| {
        FoldSourcesDiffer(rollouts, known, prov, kept, i, j);
      } else if i < |kept| {
        assert turns[j - |kept|] in turns;
        FoldAndSingleDiffer(rollouts, known, prov, kept, i, turns[j - |kept|]);
      } else {
        assert KeysOf(turns)[i - |kept|] != KeysOf(turns)[j - |kept|];
      }
    }
  }

  /** Both passes. The result is the plan: what is folded, what is left over, and nothing else. */
  method PlanCodexSessions(rollouts: seq<Rollout>, known: Known, prov: Provenance) returns (plan: seq<Query>)
    requires WellKeyed(rollouts) && CallsRecorded(prov)
    ensures IsPlan(rollouts, known, prov, plan)
  {
    var children := CodexChildrenByParent(rollouts);
    var cs := PlanFolds(rollouts, children, known, prov);
    CandidateKids(rollouts, known, prov, cs);
    var kept := DropCollisions(cs);
    FilterKeepsFolded(rollouts, known, prov, cs, kept);
    var taken := prov.calls + CallsIn(QueriesOf(kept));
    var singles, turns := PlanRest(rollouts, known, prov, taken);
    forall e ensures e in turns <==> Loose(rollouts, known, prov, e) {
      if Importable(rollouts, known, e) { KeptCallsAreTrees(rollouts, known, prov, kept, e); }
    }
    PassesFormPlan(rollouts, known, prov, kept, singles, turns);
    plan := QueriesOf(kept) + singles;
  }

  lemma CandidateKids(rollouts: seq<Rollout>, known: Known, prov: Provenance, cs: seq<Candidate>)
    requires CandidatesSound(rollouts, known, prov, cs)
    ensures EachOnce(KidsOf(cs))
  {
    forall i | 0 <= i < |cs| ensures IsKids(rollouts, cs[i].owner, cs[i].kids) {
      assert cs[i] in cs;
    }
  }
}
