/**
 Planning again after an import: which queries a second plan over unchanged transcripts can
 still hold, when it holds none, and where a call is planned twice.
 */
module ImportReplan {
  import opened Wrappers
  import opened Rollouts
  import opened RolloutGraph
  import opened ImportPlan

  /** After the plan was applied its queries and their calls are recorded. */
  ghost predicate AppliedTo(prov: Provenance, plan: seq<Query>, prov': Provenance) {
    && (forall k :: k in prov'.calls <==> k in prov.calls || exists q :: PlannedIn(plan, k, q))
    && (forall id :: id in prov'.queries <==> id in prov.queries || exists q :: q in plan && q.sourceId == id)
  }

  /** After an import every importable turn is recorded. */
  lemma ImportableTurnIsRecorded(rollouts: seq<Rollout>, known: Known, prov: Provenance, plan: seq<Query>, prov': Provenance, e: Evidence)
    requires IsPlan(rollouts, known, prov, plan) && AppliedTo(prov, plan, prov')
    requires Importable(rollouts, known, e)
    ensures e.Key() in prov'.calls
  {
    if e.Key() !in prov.calls {
      var q := UnimportedTurnIsPlanned(rollouts, known, prov, plan, e);
      assert PlannedIn(plan, e.Key(), q);
    }
  }

  lemma FoldedIsPlanned(rollouts: seq<Rollout>, known: Known, prov: Provenance, plan: seq<Query>, o: Evidence) returns (q: Query)
    requires IsPlan(rollouts, known, prov, plan) && Folded(rollouts, known, prov, o)
    ensures q in plan && IsFold(rollouts, o, q)
  {
    q :| q in plan && IsFold(rollouts, o, q);
  }

  /** A fold all of whose usage lies in threads that do not descend from an accepted root. */
  ghost predicate Stranded(rollouts: seq<Rollout>, known: Known, o: Evidence) {
    forall e :: InTree(rollouts, o, e) && e.turn.usage.Positive() ==> !Importable(rollouts, known, e)
  }

  /** A second plan can only hold folds of stranded turns. */
  lemma ReplanHoldsOnlyStranded(rollouts: seq<Rollout>, known: Known, prov: Provenance, plan: seq<Query>,
                                prov': Provenance, plan': seq<Query>, q: Query) returns (o: Evidence)
    requires IsPlan(rollouts, known, prov, plan) && AppliedTo(prov, plan, prov')
    requires IsPlan(rollouts, known, prov', plan') && q in plan'
    ensures Folded(rollouts, known, prov', o) && IsFold(rollouts, o, q) && Stranded(rollouts, known, o)
  {
    if e :| Loose(rollouts, known, prov', e) && IsSingle(rollouts, e, q) {
      ImportableTurnIsRecorded(rollouts, known, prov, plan, prov', e);
      assert false;
    } else {
      o :| Folded(rollouts, known, prov', o) && IsFold(rollouts, o, q);
      forall e | InTree(rollouts, o, e) && Importable(rollouts, known, e) ensures false {
        ImportableTurnIsRecorded(rollouts, known, prov, plan, prov', e);
      }
    }
  }

  /** A foldable tree that an import of the plan leaves alone: it shares no turn with a fold, and none of
      its turns can be imported on its own. */
  ghost predicate Dormant(rollouts: seq<Rollout>, known: Known, prov: Provenance, o: Evidence) {
    && IsOwner(rollouts, known, o) && Foldable(rollouts, prov, o)
    && (forall e :: InTree(rollouts, o, e) ==> !Importable(rollouts, known, e))
    && (forall o', e :: Folded(rollouts, known, prov, o') && InTree(rollouts, o', e) ==> !InTree(rollouts, o, e))
  }

  /** It was dropped only for collisions with trees that the import does take turns from. */
  ghost predicate Waking(rollouts: seq<Rollout>, known: Known, prov: Provenance, o: Evidence) {
    && Dormant(rollouts, known, prov, o)
    && forall o', e :: o' != o && Dormant(rollouts, known, prov, o') && Reachable(rollouts, ImportSelector, o, e) ==>
         !Reachable(rollouts, ImportSelector, o', e)
  }

  lemma CarriedTurnIsFoldedOrImportable(rollouts: seq<Rollout>, known: Known, prov: Provenance, q: Query, e: Evidence)
    requires Carries(rollouts, known, prov, q, e)
    ensures Importable(rollouts, known, e) || exists o :: Folded(rollouts, known, prov, o) && InTree(rollouts, o, e)
  {
    if o :| FoldCarriesTurn(rollouts, known, prov, o, q, e) {
      assert Folded(rollouts, known, prov, o) && InTree(rollouts, o, e);
    }
  }

  /** No call of a dormant tree is planned. */
  lemma DormantCallIsUnplanned(rollouts: seq<Rollout>, known: Known, prov: Provenance, plan: seq<Query>, o: Evidence, e: Evidence, q: Query)
    requires WellKeyed(rollouts) && IsPlan(rollouts, known, prov, plan)
    requires Dormant(rollouts, known, prov, o) && InTree(rollouts, o, e)
    ensures !PlannedIn(plan, e.Key(), q)
  {
    if PlannedIn(plan, e.Key(), q) {
      var e' := CallIsCarried(rollouts, known, prov, plan, q, e.Key());
      CarriedTurnIsFoldedOrImportable(rollouts, known, prov, q, e');
      InTreeIsStored(rollouts, known, o, e);
      KeyNamesTurn(rollouts, e, e');
    }
  }

  /** What a plan leaves whole: exactly the dormant trees are still foldable after it was applied. */
  lemma DormantStaysFoldable(rollouts: seq<Rollout>, known: Known, prov: Provenance, plan: seq<Query>, prov': Provenance, o: Evidence)
    requires WellKeyed(rollouts) && IsPlan(rollouts, known, prov, plan) && AppliedTo(prov, plan, prov')
    requires IsOwner(rollouts, known, o)
    ensures Dormant(rollouts, known, prov, o) <==> Foldable(rollouts, prov', o)
  {
    if Dormant(rollouts, known, prov, o) {
      forall e | InTree(rollouts, o, e) ensures e.Key() !in prov'.calls {
        forall q ensures !PlannedIn(plan, e.Key(), q) { DormantCallIsUnplanned(rollouts, known, prov, plan, o, e, q); }
      }
    }
    if Foldable(rollouts, prov', o) {
      forall e | InTree(rollouts, o, e) && Importable(rollouts, known, e) ensures false {
        ImportableTurnIsRecorded(rollouts, known, prov, plan, prov', e);
      }
      forall o', e | Folded(rollouts, known, prov, o') && InTree(rollouts, o', e) ensures !InTree(rollouts, o, e) {
        FoldedTurnIsRecorded(rollouts, known, prov, plan, prov', o', e);
      }
    }
  }

  lemma FoldedTurnIsRecorded(rollouts: seq<Rollout>, known: Known, prov: Provenance, plan: seq<Query>, prov': Provenance, o: Evidence, e: Evidence)
    requires IsPlan(rollouts, known, prov, plan) && AppliedTo(prov, plan, prov')
    requires Folded(rollouts, known, prov, o) && InTree(rollouts, o, e)
    ensures e.Key() in prov'.calls
  {
    var q := FoldedIsPlanned(rollouts, known, prov, plan, o);
    FoldHolds(rollouts, o, q, e);
    assert PlannedIn(plan, e.Key(), q);
  }

  lemma WakingIsFolded(rollouts: seq<Rollout>, known: Known, prov: Provenance, plan: seq<Query>, prov': Provenance, o: Evidence)
    requires WellKeyed(rollouts) && IsPlan(rollouts, known, prov, plan) && AppliedTo(prov, plan, prov')
    ensures Waking(rollouts, known, prov, o) <==> Folded(rollouts, known, prov', o)
  {
    forall o' | IsOwner(rollouts, known, o') ensures Dormant(rollouts, known, prov, o') <==> Foldable(rollouts, prov', o') {
      DormantStaysFoldable(rollouts, known, prov, plan, prov', o');
    }
    if Folded(rollouts, known, prov', o) {
      forall o', e | o' != o && Dormant(rollouts, known, prov, o') && Reachable(rollouts, ImportSelector, o, e)
        ensures !Reachable(rollouts, ImportSelector, o', e)
      {
        assert !Collide(rollouts, known, prov', o, o');
      }
    }
  }

  /** Planning again after an import plans nothing exactly if no tree wakes up: a property of the
      transcripts and of what was known and recorded before the first plan. */
  lemma ReplanIsEmptyExactly(rollouts: seq<Rollout>, known: Known, prov: Provenance, plan: seq<Query>, prov': Provenance, plan': seq<Query>)
    requires WellKeyed(rollouts) && IsPlan(rollouts, known, prov, plan) && AppliedTo(prov, plan, prov')
    requires IsPlan(rollouts, known, prov', plan')
    ensures plan' == [] <==> forall o :: !Waking(rollouts, known, prov, o)
  {
    if plan' != [] {
      var o := ReplanHoldsOnlyStranded(rollouts, known, prov, plan, prov', plan', plan'[0]);
      WakingIsFolded(rollouts, known, prov, plan, prov', o);
    }
    if o :| Waking(rollouts, known, prov, o) {
      WakingIsFolded(rollouts, known, prov, plan, prov', o);
      var _ := FoldedIsPlanned(rollouts, known, prov', plan', o);
    }
  }

  /** Whoever names a child is the child's parent. */
  ghost predicate NamedByParents(rollouts: seq<Rollout>) {
    forall a, t, id :: a in rollouts && t in a.turns && id in t.childIds && Lookup(rollouts, id).Some? ==>
      Lookup(rollouts, id).value.parentThreadId == Some(a.threadId)
  }

  lemma EdgeFollowsParent(rollouts: seq<Rollout>, a: Evidence, b: Evidence)
    requires DistinctThreads(rollouts) && NamedByParents(rollouts)
    requires a.rollout in rollouts && a.turn in a.rollout.turns
    requires Edge(rollouts, ImportSelector, a, b)
    ensures b.rollout in rollouts && b.turn in b.rollout.turns
    ensures b.rollout.parentThreadId == Some(a.rollout.threadId)
  {
    forall x | x in rollouts && x.threadId == b.rollout.threadId ensures x == b.rollout {
      LookupIsUnique(rollouts, x);
    }
  }

  /** A path of turns in which each thread is the child of the one before. */
  ghost predicate IsDescent(rollouts: seq<Rollout>, path: seq<Evidence>) {
    && |path| > 0
    && (forall i :: 0 <= i < |path| ==> path[i].rollout in rollouts)
    && path[0].rollout.parentThreadId.None?
    && (forall i :: 0 < i < |path| ==> path[i].rollout.parentThreadId == Some(path[i - 1].rollout.threadId))
  }

  ghost predicate Stored(rollouts: seq<Rollout>, path: seq<Evidence>) {
    forall i :: 0 <= i < |path| ==> path[i].turn in path[i].rollout.turns
  }

  lemma ExtendDescent(rollouts: seq<Rollout>, init: seq<Evidence>, b: Evidence)
    requires IsDescent(rollouts, init) && Stored(rollouts, init)
    requires b.rollout in rollouts && b.turn in b.rollout.turns
    requires b.rollout.parentThreadId == Some(init[|init| - 1].rollout.threadId)
    ensures IsDescent(rollouts, init + [b]) && Stored(rollouts, init + [b])
  {
  }

  lemma {:induction false} PathIsDescent(rollouts: seq<Rollout>, known: Known, o: Evidence, path: seq<Evidence>)
    requires DistinctThreads(rollouts) && NamedByParents(rollouts) && IsOwner(rollouts, known, o)
    requires |path| > 0 && path[0] == o && IsPath(rollouts, ImportSelector, path)
    ensures IsDescent(rollouts, path) && Stored(rollouts, path)
  {
    if |path| > 1 {
      var init, last := path[..|path| - 1], path[|path| - 1];
      assert IsPath(rollouts, ImportSelector, init);
      PathIsDescent(rollouts, known, o, init);
      var k := |path| - 2;
      assert Edge(rollouts, ImportSelector, path[k], path[k + 1]);
      assert init[|init| - 1] == path[k];
      EdgeFollowsParent(rollouts, path[k], last);
      ExtendDescent(rollouts, init, last);
      assert path == init + [last];
    }
  }

  lemma {:induction false} DescentHasDistinctThreads(rollouts: seq<Rollout>, path: seq<Evidence>, i: nat, j: nat)
    requires DistinctThreads(rollouts) && IsDescent(rollouts, path) && i < j < |path|
    ensures path[i].rollout.threadId != path[j].rollout.threadId
  {
    if path[i].rollout.threadId == path[j].rollout.threadId {
      LookupIsUnique(rollouts, path[i].rollout);
      LookupIsUnique(rollouts, path[j].rollout);
      assert path[i].rollout == path[j].rollout;
      assert path[j].rollout.parentThreadId == Some(path[j - 1].rollout.threadId);
      if i > 0 {
        assert path[i].rollout.parentThreadId == Some(path[i - 1].rollout.threadId);
        DescentHasDistinctThreads(rollouts, path, i - 1, j - 1);
      }
    }
  }

  lemma {:induction false} TopOfDescent(rollouts: seq<Rollout>, path: seq<Evidence>, k: nat, seen: set<string>)
    requires DistinctThreads(rollouts) && IsDescent(rollouts, path) && k < |path|
    requires seen <= Threads(rollouts)
    requires forall i :: 0 <= i <= k ==> path[i].rollout.threadId !in seen
    ensures TopOf(rollouts, path[k].rollout, seen) == path[0].rollout
  {
    if k > 0 {
      LookupIsUnique(rollouts, path[k - 1].rollout);
      forall i | 0 <= i < k ensures path[i].rollout.threadId != path[k].rollout.threadId {
        DescentHasDistinctThreads(rollouts, path, i, k);
      }
      TopOfDescent(rollouts, path, k - 1, seen + {path[k].rollout.threadId});
    }
  }

  lemma TreeIsUnderItsRoot(rollouts: seq<Rollout>, known: Known, o: Evidence, e: Evidence)
    requires DistinctThreads(rollouts) && NamedByParents(rollouts) && IsOwner(rollouts, known, o)
    requires InTree(rollouts, o, e) && e.turn.usage.Positive()
    ensures Importable(rollouts, known, e)
  {
    var path := [o];
    if e != o {
      path :| |path| >= 2 && path[0] == o && path[|path| - 1] == e && IsPath(rollouts, ImportSelector, path);
      ReachableIsStored(rollouts, o, e);
    }
    PathIsDescent(rollouts, known, o, path);
    TopOfDescent(rollouts, path, |path| - 1, {});
  }

  /** In particular, if children are named by their parents, planning again after an import plans nothing. */
  lemma ReplanIsEmpty(rollouts: seq<Rollout>, known: Known, prov: Provenance, plan: seq<Query>, prov': Provenance, plan': seq<Query>)
    requires DistinctThreads(rollouts) && NamedByParents(rollouts)
    requires IsPlan(rollouts, known, prov, plan) && AppliedTo(prov, plan, prov')
    requires IsPlan(rollouts, known, prov', plan')
    ensures plan' == []
  {
    if plan' != [] {
      var o := ReplanHoldsOnlyStranded(rollouts, known, prov, plan, prov', plan', plan'[0]);
      var e :| InTree(rollouts, o, e) && e.turn.usage.Positive();
      TreeIsUnderItsRoot(rollouts, known, o, e);
    }
  }

  // ----- where the conditions bite --------------------------------------------------------------

  lemma OneStepReach(rollouts: seq<Rollout>, o: Evidence, c: Evidence)
    requires forall b :: Edge(rollouts, ImportSelector, o, b) <==> b == c
    requires forall b :: !Edge(rollouts, ImportSelector, c, b)
    ensures forall e :: Reachable(rollouts, ImportSelector, o, e) <==> e == c
  {
    forall e ensures Reachable(rollouts, ImportSelector, o, e) <==> e == c {
      if Reachable(rollouts, ImportSelector, o, e) {
        var path: seq<Evidence> :| |path| >= 2 && path[0] == o && path[|path| - 1] == e && IsPath(rollouts, ImportSelector, path);
        ClosedContainsReachable(rollouts, ImportSelector, o, [c], path);
      }
      if e == c { EdgeReaches(rollouts, ImportSelector, o, o, c); }
    }
  }

  lemma ChildIdsAre(rollouts: seq<Rollout>, thread: string, turn: Turn, id: string)
    requires turn.endedAtMs.Some?
    requires forall x :: x in rollouts ==> x.parentThreadId != Some(thread)
    ensures id in DirectChildIds(rollouts, thread, turn) <==> id in turn.childIds
  {
  }

  const CHILD_TURN := Turn("c1", 5000, Some(6000), Completed, [], Usage(1, 0, 0, 0), NO_USAGE)
  const CHILD := Rollout("c", Some("gone"), Some("codex-tui"), 4000, [CHILD_TURN])
  const QUIET_TURN := Turn("a", 0, Some(10000), Completed, ["c"], NO_USAGE, NO_USAGE)
  const BUSY_TURN := Turn("b", 0, Some(10000), Completed, ["c"], Usage(2, 0, 0, 0), NO_USAGE)
  const ROOT := Rollout("r", None, Some("codex-tui"), 0, [QUIET_TURN, BUSY_TURN])
  const ROLLOUTS := [ROOT, CHILD]
  const NOTHING_KNOWN := Known(map[], {}, map[])
  const NOTHING_IMPORTED := Provenance({}, map[])

  lemma SampleOwners(o: Evidence)
    ensures IsOwner(ROLLOUTS, NOTHING_KNOWN, o) <==> o == Evidence(ROOT, QUIET_TURN) || o == Evidence(ROOT, BUSY_TURN)
  {
    assert SessionDisposition(NOTHING_KNOWN, "r") == NewSession;
    assert ROOT.turns[0] == QUIET_TURN && ROOT.turns[1] == BUSY_TURN;
  }

  /** Both turns of the root reach exactly the one child turn, and lose no child. */
  lemma SampleReach(o: Evidence)
    requires o == Evidence(ROOT, QUIET_TURN) || o == Evidence(ROOT, BUSY_TURN)
    ensures forall e :: Reachable(ROLLOUTS, ImportSelector, o, e) <==> e == Evidence(CHILD, CHILD_TURN)
    ensures ExpansionExact(ROLLOUTS, ImportSelector, o)
  {
    var c := Evidence(CHILD, CHILD_TURN);
    assert Lookup(ROLLOUTS, "c") == Some(CHILD);
    assert CHILD.turns[0] == CHILD_TURN;
    forall b ensures Edge(ROLLOUTS, ImportSelector, o, b) <==> b == c {
      ChildIdsAre(ROLLOUTS, "r", o.turn, b.rollout.threadId);
    }
    forall b ensures !Edge(ROLLOUTS, ImportSelector, c, b) {
      ChildIdsAre(ROLLOUTS, "c", c.turn, b.rollout.threadId);
    }
    OneStepReach(ROLLOUTS, o, c);
    forall p | p in PendingsOf(ROLLOUTS, o) ensures !Unrecoverable(ROLLOUTS, ImportSelector, p) {
      ChildIdsAre(ROLLOUTS, "r", o.turn, p.id);
      assert IsTerminal(CHILD_TURN);
    }
    forall p | p in PendingsOf(ROLLOUTS, c) ensures false {
      ChildIdsAre(ROLLOUTS, "c", c.turn, p.id);
    }
  }

  /** At first the quiet and the busy turn collide. */
  lemma NothingFoldsAtFirst(o: Evidence)
    ensures !Folded(ROLLOUTS, NOTHING_KNOWN, NOTHING_IMPORTED, o)
  {
    var quiet, busy, c := Evidence(ROOT, QUIET_TURN), Evidence(ROOT, BUSY_TURN), Evidence(CHILD, CHILD_TURN);
    SampleOwners(quiet);
    SampleOwners(busy);
    SampleReach(quiet);
    SampleReach(busy);
    assert InTree(ROLLOUTS, quiet, c) && InTree(ROLLOUTS, busy, c) && c.turn.usage.Positive();
    assert Foldable(ROLLOUTS, NOTHING_IMPORTED, quiet) && Foldable(ROLLOUTS, NOTHING_IMPORTED, busy);
    assert Collide(ROLLOUTS, NOTHING_KNOWN, NOTHING_IMPORTED, quiet, busy);
    assert Collide(ROLLOUTS, NOTHING_KNOWN, NOTHING_IMPORTED, busy, quiet);
    SampleOwners(o);
  }

  /** The first plan of the sample: the busy turn on its own. */
  lemma FirstPlanKeepsBusy(plan: seq<Query>, q: Query, k: TurnRef)
    requires IsPlan(ROLLOUTS, NOTHING_KNOWN, NOTHING_IMPORTED, plan) && PlannedIn(plan, k, q)
    ensures k == TurnRef("r", "b")
  {
    forall o ensures !Folded(ROLLOUTS, NOTHING_KNOWN, NOTHING_IMPORTED, o) { NothingFoldsAtFirst(o); }
    var e :| Loose(ROLLOUTS, NOTHING_KNOWN, NOTHING_IMPORTED, e) && IsSingle(ROLLOUTS, e, q);
    SingleCall(ROLLOUTS, e, q);
    SampleImportable(e);
  }

  lemma SampleImportable(e: Evidence)
    ensures Importable(ROLLOUTS, NOTHING_KNOWN, e) <==> e == Evidence(ROOT, BUSY_TURN)
  {
    SampleOwners(Evidence(ROOT, BUSY_TURN));
    assert ROLLOUTS[0] == ROOT && ROLLOUTS[1] == CHILD;
    assert TopOf(ROLLOUTS, ROOT, {}) == ROOT;
    assert Lookup(ROLLOUTS, "gone") == None;
    assert TopOf(ROLLOUTS, CHILD, {}) == CHILD;
    assert ROOT.turns[0] == QUIET_TURN && ROOT.turns[1] == BUSY_TURN;
  }

  lemma OnlyBusyIsRecorded(plan: seq<Query>, prov': Provenance)
    requires IsPlan(ROLLOUTS, NOTHING_KNOWN, NOTHING_IMPORTED, plan) && AppliedTo(NOTHING_IMPORTED, plan, prov')
    ensures forall k :: k in prov'.calls ==> k == TurnRef("r", "b")
  {
    forall q, k | PlannedIn(plan, k, q) ensures k == TurnRef("r", "b") { FirstPlanKeepsBusy(plan, q, k); }
  }

  /** Once the busy turn is recorded, nothing blocks the quiet turn any more. */
  lemma QuietTurnFolds(prov': Provenance)
    requires Evidence(ROOT, BUSY_TURN).Key() in prov'.calls
    requires Evidence(ROOT, QUIET_TURN).Key() !in prov'.calls && Evidence(CHILD, CHILD_TURN).Key() !in prov'.calls
    ensures Folded(ROLLOUTS, NOTHING_KNOWN, prov', Evidence(ROOT, QUIET_TURN))
  {
    var quiet, busy, c := Evidence(ROOT, QUIET_TURN), Evidence(ROOT, BUSY_TURN), Evidence(CHILD, CHILD_TURN);
    SampleReach(quiet);
    SampleOwners(quiet);
    assert InTree(ROLLOUTS, quiet, c) && c.turn.usage.Positive();
    assert Foldable(ROLLOUTS, prov', quiet);
    assert !Foldable(ROLLOUTS, prov', busy) by { assert InTree(ROLLOUTS, busy, busy); }
    forall o' ensures !Collide(ROLLOUTS, NOTHING_KNOWN, prov', quiet, o') {
      SampleOwners(o');
    }
  }

  /** A child thread that hangs under no accepted root, named by a quiet and by a busy turn: the first
      plan drops both colliding folds and keeps the busy turn alone, so after applying it a second
      plan folds the child into the quiet turn. */
  lemma ReplanCanHoldMore(plan: seq<Query>, prov': Provenance, plan': seq<Query>)
    requires IsPlan(ROLLOUTS, NOTHING_KNOWN, NOTHING_IMPORTED, plan) && AppliedTo(NOTHING_IMPORTED, plan, prov')
    requires IsPlan(ROLLOUTS, NOTHING_KNOWN, prov', plan')
    ensures plan' != []
  {
    SampleImportable(Evidence(ROOT, BUSY_TURN));
    ImportableTurnIsRecorded(ROLLOUTS, NOTHING_KNOWN, NOTHING_IMPORTED, plan, prov', Evidence(ROOT, BUSY_TURN));
    OnlyBusyIsRecorded(plan, prov');
    QuietTurnFolds(prov');
    var _ := FoldedIsPlanned(ROLLOUTS, NOTHING_KNOWN, prov', plan', Evidence(ROOT, QUIET_TURN));
  }

  const NAMED_TURN := Turn("n1", 2000, Some(3000), Completed, [], Usage(1, 0, 0, 0), NO_USAGE)
  const NAMED_ROOT := Rollout("n", None, Some("codex-tui"), 1000, [NAMED_TURN])
  const NAMING_TURN := Turn("m1", 0, Some(10000), Completed, ["n"], Usage(2, 0, 0, 0), NO_USAGE)
  const NAMING_ROOT := Rollout("m", None, Some("codex-tui"), 0, [NAMING_TURN])
  const TWO_ROOTS := [NAMING_ROOT, NAMED_ROOT]

  lemma TwoRootsReach(o: Evidence)
    requires o == Evidence(NAMING_ROOT, NAMING_TURN) || o == Evidence(NAMED_ROOT, NAMED_TURN)
    ensures forall e :: Reachable(TWO_ROOTS, ImportSelector, o, e) <==> o.rollout == NAMING_ROOT && e == Evidence(NAMED_ROOT, NAMED_TURN)
    ensures ExpansionExact(TWO_ROOTS, ImportSelector, o)
  {
    var a, c := Evidence(NAMING_ROOT, NAMING_TURN), Evidence(NAMED_ROOT, NAMED_TURN);
    assert Lookup(TWO_ROOTS, "n") == Some(NAMED_ROOT);
    assert NAMED_ROOT.turns[0] == NAMED_TURN;
    forall b ensures Edge(TWO_ROOTS, ImportSelector, a, b) <==> b == c {
      ChildIdsAre(TWO_ROOTS, "m", NAMING_TURN, b.rollout.threadId);
    }
    forall b ensures !Edge(TWO_ROOTS, ImportSelector, c, b) {
      ChildIdsAre(TWO_ROOTS, "n", NAMED_TURN, b.rollout.threadId);
    }
    OneStepReach(TWO_ROOTS, a, c);
    forall path: seq<Evidence> | |path| >= 2 && path[0] == c ensures !IsPath(TWO_ROOTS, ImportSelector, path) {
      assert !Edge(TWO_ROOTS, ImportSelector, path[0], path[0 + 1]);
    }
    forall p | p in PendingsOf(TWO_ROOTS, a) ensures !Unrecoverable(TWO_ROOTS, ImportSelector, p) {
      ChildIdsAre(TWO_ROOTS, "m", NAMING_TURN, p.id);
      assert IsTerminal(NAMED_TURN);
    }
    forall p | p in PendingsOf(TWO_ROOTS, c) ensures false {
      ChildIdsAre(TWO_ROOTS, "n", NAMED_TURN, p.id);
    }
  }

  /** A root named as another root's child is planned with it and on its own. */
  lemma NamedRootIsPlannedTwice(plan: seq<Query>) returns (q: Query, q': Query)
    requires IsPlan(TWO_ROOTS, NOTHING_KNOWN, NOTHING_IMPORTED, plan)
    ensures WellKeyed(TWO_ROOTS)
    ensures PlannedIn(plan, TurnRef("n", "n1"), q) && PlannedIn(plan, TurnRef("n", "n1"), q') && q != q'
  {
    var a, c := Evidence(NAMING_ROOT, NAMING_TURN), Evidence(NAMED_ROOT, NAMED_TURN);
    TwoRootsReach(a);
    TwoRootsReach(c);
    assert NAMED_ROOT.turns[0] == NAMED_TURN && NAMING_ROOT.turns[0] == NAMING_TURN;
    assert TWO_ROOTS[0] == NAMING_ROOT && TWO_ROOTS[1] == NAMED_ROOT;
    assert SessionDisposition(NOTHING_KNOWN, "m") == NewSession && SessionDisposition(NOTHING_KNOWN, "n") == NewSession;
    assert InTree(TWO_ROOTS, a, a) && a.turn.usage.Positive() && InTree(TWO_ROOTS, c, c) && c.turn.usage.Positive();
    assert Foldable(TWO_ROOTS, NOTHING_IMPORTED, a) && Foldable(TWO_ROOTS, NOTHING_IMPORTED, c);
    forall o' ensures !Collide(TWO_ROOTS, NOTHING_KNOWN, NOTHING_IMPORTED, a, o') && !Collide(TWO_ROOTS, NOTHING_KNOWN, NOTHING_IMPORTED, c, o') {
      if IsOwner(TWO_ROOTS, NOTHING_KNOWN, o') && o' != a { assert o' == c; }
    }
    q, q' := NamedFoldIsPlannedTwice(TWO_ROOTS, NOTHING_KNOWN, NOTHING_IMPORTED, plan, a, c);
  }

  /** A root thread of one finished turn that names the thread itself as its child. */
  ghost predicate NamesItself(r: Rollout, t: Turn) {
    && r.parentThreadId.None? && ImportableOriginator(r.originator) && r.turns == [t]
    && t.terminal == Completed && t.endedAtMs.Some? && t.startedAtMs <= t.endedAtMs.value
    && t.childIds == [r.threadId] && t.usage.Positive()
  }

  lemma LoopReachesItself(r: Rollout, t: Turn)
    requires NamesItself(r, t)
    ensures forall e :: Reachable([r], ImportSelector, Evidence(r, t), e) <==> e == Evidence(r, t)
  {
    var o := Evidence(r, t);
    forall b ensures Edge([r], ImportSelector, o, b) <==> b == o {
      ChildIdsAre([r], r.threadId, t, b.rollout.threadId);
      assert t in r.turns && r in [r];
    }
    EdgeReaches([r], ImportSelector, o, o, o);
    forall e | Reachable([r], ImportSelector, o, e) ensures e == o {
      var path: seq<Evidence> :| |path| >= 2 && path[0] == o && path[|path| - 1] == e && IsPath([r], ImportSelector, path);
      ClosedContainsReachable([r], ImportSelector, o, [o], path);
    }
  }

  lemma LoopIsFolded(r: Rollout, t: Turn)
    requires NamesItself(r, t)
    ensures Folded([r], NOTHING_KNOWN, NOTHING_IMPORTED, Evidence(r, t))
  {
    var o := Evidence(r, t);
    LoopReachesItself(r, t);
    assert SessionDisposition(NOTHING_KNOWN, r.threadId) == NewSession;
    assert t in r.turns && r in [r] && InTree([r], o, o);
    forall p | p in PendingsOf([r], o) ensures !Unrecoverable([r], ImportSelector, p) {
      ChildIdsAre([r], r.threadId, t, p.id);
      assert IsTerminal(t) && Lookup([r], r.threadId) == Some(r);
    }
    forall o' ensures !Collide([r], NOTHING_KNOWN, NOTHING_IMPORTED, o, o') {
      assert IsOwner([r], NOTHING_KNOWN, o') ==> o' == o;
    }
  }

  lemma FirstTwoDiffer<T>(xs: seq<T>)
    requires Distinct(xs) && |xs| > 1
    ensures xs[0] in xs && xs[1] in xs && xs[0] != xs[1]
  {
  }

  lemma OnlyMember<T>(x: T, xs: seq<T>)
    requires Distinct(xs) && forall y :: y in xs <==> y == x
    ensures xs == [x]
  {
    assert x in xs && xs[0] in xs;
    if |xs| > 1 { FirstTwoDiffer(xs); }
  }

  lemma SelfReachingFoldCountsTwice(rollouts: seq<Rollout>, o: Evidence, q: Query)
    requires forall e :: Reachable(rollouts, ImportSelector, o, e) <==> e == o
    requires IsFold(rollouts, o, q)
    ensures q.usage == o.turn.usage.Plus(o.turn.usage) && q.callIds == [o.Key(), o.Key()]
  {
    var kids :| IsTree(rollouts, o, kids) && CarriesTurns(q, o, [o] + kids);
    OnlyMember(o, kids);
    assert [o] + kids == [o, o] && [o, o][..1] == [o];
    assert SumUsage([o]) == NO_USAGE.Plus(o.turn.usage);
  }

  /** Such a root reaches itself: its fold counts its usage and lists its call twice. */
  lemma SelfNamedRootCountsTwice(r: Rollout, t: Turn, plan: seq<Query>) returns (q: Query)
    requires NamesItself(r, t) && IsPlan([r], NOTHING_KNOWN, NOTHING_IMPORTED, plan)
    ensures q in plan && q.usage == t.usage.Plus(t.usage)
    ensures q.callIds == [TurnRef(r.threadId, t.id), TurnRef(r.threadId, t.id)]
  {
    LoopIsFolded(r, t);
    LoopReachesItself(r, t);
    q := FoldedIsPlanned([r], NOTHING_KNOWN, NOTHING_IMPORTED, plan, Evidence(r, t));
    SelfReachingFoldCountsTwice([r], Evidence(r, t), q);
  }
}
