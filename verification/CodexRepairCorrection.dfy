/**
 Which stored Codex queries are repaired, and to what: a query is planned exactly if one root turn
 completed in its window whose whole tree is recoverable and explains the stored usage, and its
 correction is the usage of that turn and of the child turns it reaches.
 */
module CodexRepairCorrection {
  import opened Wrappers
  import opened Rollouts
  import opened RolloutGraph
  import opened Sums
  import opened TurnClaims
  import opened RepairVerdicts
  import opened UsageRows
  import opened CodexRepairPlan
  import opened CodexRepairEvidence

  /** The recorded increments of the turns, in one bucket. */
  function Recorded(turns: seq<Evidence>, b: Bucket): nat {
    Total(Mapped(turns, (e: Evidence) => e.turn.usage.In(b)))
  }

  /** What the turns last reported, in one bucket. */
  function Reported(turns: seq<Evidence>, b: Bucket): nat {
    Total(Mapped(turns, (e: Evidence) => e.turn.legacyUsage.In(b)))
  }

  /** The child turns a root turn reaches, each once. */
  ghost predicate AreChildren(rollouts: seq<Rollout>, root: Evidence, kids: seq<Evidence>) {
    Sums.EachOnce(kids) && (forall e :: e in kids <==> Reachable(rollouts, RepairSelector, root, e))
  }

  /** The one turn of the session's thread that completed in the query's window. */
  ghost predicate IsSoleRoot(rollouts: seq<Rollout>, s: RepairSession, i: nat, root: Evidence)
    requires i < |s.queries|
  {
    && s.providerSessionId.Some? && Lookup(rollouts, s.providerSessionId.value) == Some(root.rollout)
    && root.turn in root.rollout.turns && InWindow(LowerBound(s, i), s.queries[i].timestamp, root.turn)
    && forall t :: t in root.rollout.turns && InWindow(LowerBound(s, i), s.queries[i].timestamp, t) ==> t == root.turn
  }

  /** The turn completed, to the second, between the query before and this one, and started at most two seconds earlier. */
  lemma WindowExactly(s: RepairSession, i: nat, t: Turn)
    requires i < |s.queries|
    ensures var from := if i == 0 then s.startedAt - 2.0 else s.queries[i - 1].timestamp + 0.001;
            InWindow(LowerBound(s, i), s.queries[i].timestamp, t) <==>
              && t.terminal == Completed && t.endedAtMs.Some?
              && from <= (t.endedAtMs.value / 1000) as real && (t.endedAtMs.value / 1000) as real <= s.queries[i].timestamp
              && from <= (t.startedAtMs / 1000) as real + 2.0
  {
  }

  /** The stored usage is the whole tree's, or what the tree's turns last reported, or what the root turn did. */
  ghost predicate Explains(root: Evidence, kids: seq<Evidence>, stored: Usage) {
    || (forall b: Bucket :: stored.In(b) == root.turn.usage.In(b) + Recorded(kids, b))
    || (forall b: Bucket :: stored.In(b) == root.turn.legacyUsage.In(b) + Reported(kids, b))
    || stored == root.turn.legacyUsage
  }

  ghost predicate Repairable(rollouts: seq<Rollout>, s: RepairSession, i: nat, root: Evidence, kids: seq<Evidence>)
    requires i < |s.queries|
  {
    && s.providerSessionId != Some("") && |s.queries| == |s.ledger| && Mirrored(s) && s.queries[i].id !in s.lostWorkers
    && IsSoleRoot(rollouts, s, i, root) && AreChildren(rollouts, root, kids)
    && ExpansionExact(rollouts, RepairSelector, root) && Explains(root, kids, s.queries[i].usage)
  }

  // ----- sums -----------------------------------------------------------------------------------

  lemma SameUsage(u: Usage, v: Usage)
    ensures u == v <==> forall b: Bucket :: u.In(b) == v.In(b)
  {
    if forall b: Bucket :: u.In(b) == v.In(b) {
      assert u.In(Input) == v.In(Input) && u.In(Output) == v.In(Output);
      assert u.In(CacheRead) == v.In(CacheRead) && u.In(CacheCreation) == v.In(CacheCreation);
    }
  }

  lemma {:induction false} FullUsageAddsUp(turns: seq<Evidence>, b: Bucket)
    ensures FullUsage(turns).In(b) == Recorded(turns, b)
  {
    if turns != [] {
      var init, last := turns[..|turns| - 1], turns[|turns| - 1];
      FullUsageAddsUp(init, b);
      assert turns == init + [last];
      MappedSplits(init, [last], (e: Evidence) => e.turn.usage.In(b));
      MappedOne(last, (e: Evidence) => e.turn.usage.In(b));
    }
  }

  lemma {:induction false} LegacyUsageAddsUp(turns: seq<Evidence>, b: Bucket)
    ensures LegacyUsage(turns).In(b) == Reported(turns, b)
  {
    if turns != [] {
      var init, last := turns[..|turns| - 1], turns[|turns| - 1];
      LegacyUsageAddsUp(init, b);
      assert turns == init + [last];
      MappedSplits(init, [last], (e: Evidence) => e.turn.legacyUsage.In(b));
      MappedOne(last, (e: Evidence) => e.turn.legacyUsage.In(b));
    }
  }

  lemma TreeUsageAddsUp(root: Evidence, kids: seq<Evidence>, b: Bucket)
    ensures FullUsage([root] + kids).In(b) == root.turn.usage.In(b) + Recorded(kids, b)
    ensures root.turn.legacyUsage.Plus(LegacyUsage(kids)).In(b) == root.turn.legacyUsage.In(b) + Reported(kids, b)
  {
    FullUsageAddsUp([root] + kids, b);
    MappedSplits([root], kids, (e: Evidence) => e.turn.usage.In(b));
    MappedOne(root, (e: Evidence) => e.turn.usage.In(b));
    LegacyUsageAddsUp(kids, b);
  }

  lemma ExplainedExactly(root: Evidence, kids: seq<Evidence>, stored: Usage)
    ensures ConfidenceIn(stored, root, kids).Some? <==> Explains(root, kids, stored)
  {
    SameUsage(stored, FullUsage([root] + kids));
    SameUsage(stored, root.turn.legacyUsage.Plus(LegacyUsage(kids)));
    forall b: Bucket
      ensures FullUsage([root] + kids).In(b) == root.turn.usage.In(b) + Recorded(kids, b)
      ensures root.turn.legacyUsage.Plus(LegacyUsage(kids)).In(b) == root.turn.legacyUsage.In(b) + Reported(kids, b)
    {
      TreeUsageAddsUp(root, kids, b);
    }
  }

  // ----- which queries are planned ------------------------------------------------------------------

  lemma ExpandedAreChildren(rollouts: seq<Rollout>, root: Evidence)
    requires WellKeyed(rollouts) && root.turn.endedAtMs.Some?
    ensures var w := Expand(rollouts, RepairSelector, root);
            && AreChildren(rollouts, root, w.turns) && (w.exact <==> ExpansionExact(rollouts, RepairSelector, root))
            && |w.keys| == |w.turns| && forall k :: 0 <= k < |w.keys| ==> w.keys[k] == w.turns[k].Key()
  {
    ExpandIsSound(rollouts, RepairSelector, root);
    var w := Expand(rollouts, RepairSelector, root);
    forall a, b | 0 <= a < b < |w.turns| ensures w.turns[a] != w.turns[b] { assert w.keys[a] != w.keys[b]; }
  }

  /** Whichever way the children are listed, they explain the same usage. */
  lemma ListingDoesNotMatter(rollouts: seq<Rollout>, root: Evidence, kids: seq<Evidence>, kids': seq<Evidence>, stored: Usage)
    requires AreChildren(rollouts, root, kids) && AreChildren(rollouts, root, kids')
    ensures Explains(root, kids, stored) <==> Explains(root, kids', stored)
    ensures forall b: Bucket :: Recorded(kids, b) == Recorded(kids', b)
  {
    forall b: Bucket ensures Recorded(kids, b) == Recorded(kids', b) && Reported(kids, b) == Reported(kids', b) {
      SameItemsSameSum(kids, kids', (e: Evidence) => e.turn.usage.In(b));
      SameItemsSameSum(kids, kids', (e: Evidence) => e.turn.legacyUsage.In(b));
    }
  }

  lemma {:induction false} OneCandidate(lower: real, upper: real, turns: seq<Turn>, t: Turn)
    requires forall i, j :: 0 <= i < j < |turns| ==> turns[i].id != turns[j].id
    requires t in turns && InWindow(lower, upper, t) && forall t' :: t' in turns && InWindow(lower, upper, t') ==> t' == t
    ensures CandidatesIn(lower, upper, turns) == [t]
  {
    var init, last := turns[..|turns| - 1], turns[|turns| - 1];
    assert turns == init + [last];
    if last == t {
      forall x | x in init ensures !InWindow(lower, upper, x) {
        var i :| 0 <= i < |init| && init[i] == x;
        assert turns[i].id != last.id && x in turns;
      }
      assert forall x :: x in CandidatesIn(lower, upper, init) ==> x in init && InWindow(lower, upper, x);
      if CandidatesIn(lower, upper, init) != [] { HasMember(CandidatesIn(lower, upper, init)); }
    } else {
      assert last in turns;
      forall x | x in init ensures x in turns {}
      OneCandidate(lower, upper, init, t);
    }
  }

  lemma HasMember<T>(xs: seq<T>)
    requires xs != []
    ensures exists x :: x in xs
  {
    assert xs[0] in xs;
  }

  lemma SoleRootIsCandidate(rollouts: seq<Rollout>, s: RepairSession, i: nat, root: Evidence)
    requires WellKeyed(rollouts) && i < |s.queries|
    ensures IsSoleRoot(rollouts, s, i, root) <==>
              && s.providerSessionId.Some? && Lookup(rollouts, s.providerSessionId.value) == Some(root.rollout)
              && CandidatesIn(LowerBound(s, i), s.queries[i].timestamp, root.rollout.turns) == [root.turn]
  {
    if IsSoleRoot(rollouts, s, i, root) {
      OneCandidate(LowerBound(s, i), s.queries[i].timestamp, root.rollout.turns, root.turn);
    }
    if CandidatesIn(LowerBound(s, i), s.queries[i].timestamp, root.rollout.turns) == [root.turn] {
      assert root.turn in CandidatesIn(LowerBound(s, i), s.queries[i].timestamp, root.rollout.turns);
      assert forall t :: t in CandidatesIn(LowerBound(s, i), s.queries[i].timestamp, root.rollout.turns) ==> t == root.turn;
    }
  }

  /** The verdict on a query whose window holds one candidate. */
  lemma SoleRootIsJudged(rollouts: seq<Rollout>, price: Pricer, s: RepairSession, i: nat, root: Evidence)
    requires WellKeyed(rollouts) && i < |s.queries| && IsSoleRoot(rollouts, s, i, root) && SessionReason(rollouts, s).None?
    ensures root.turn.endedAtMs.Some?
    ensures Judge(rollouts, price, s, i)
         == if s.queries[i].id in s.lostWorkers then Rejected(UnrecoverableWindowsWorker) else JudgeCandidate(rollouts, price, s, i, root)
  {
    SoleRootIsCandidate(rollouts, s, i, root);
  }

  lemma RepairableIsPlanned(rollouts: seq<Rollout>, price: Pricer, s: RepairSession, i: nat, root: Evidence, kids: seq<Evidence>)
    requires WellKeyed(rollouts) && i < |s.queries| && Repairable(rollouts, s, i, root, kids)
    ensures Judge(rollouts, price, s, i).Planned?
  {
    SoleRootIsJudged(rollouts, price, s, i, root);
    ExpandedAreChildren(rollouts, root);
    var w := Expand(rollouts, RepairSelector, root);
    ListingDoesNotMatter(rollouts, root, kids, w.turns, s.queries[i].usage);
    ExplainedExactly(root, w.turns, s.queries[i].usage);
  }

  /** What a planned row says, in terms of the transcripts alone. */
  ghost predicate IsCorrection(rollouts: seq<Rollout>, price: Pricer, s: RepairSession, i: nat, root: Evidence, kids: seq<Evidence>, row: RepairRow)
    requires i < |s.queries| == |s.ledger|
  {
    && row.sessionId == s.id && s.providerSessionId == Some(row.providerSessionId) && row.query == s.queries[i]
    && row.usageQuery == s.ledger[i].(session := row.usageQuery.session) && row.usageQuery.session == Some(s.ledger[i].session.GetOr(""))
    && (forall b: Bucket :: row.corrected.usage.In(b) == root.turn.usage.In(b) + Recorded(kids, b))
    && row.corrected.estimatedCost == price(s.model, [root] + kids)
    && (row.corrected.unpriced == 1 <==> row.corrected.estimatedCost.None? && s.queries[i].costKnown == 0)
    && row.corrected.unpriced in {0, 1}
    && (row.confidence == LegacyRoot <==> RestsOnRoot(root, kids, s.queries[i].usage))
    && row.root == root.Key() && row.childKeys == seq(|kids|, k requires 0 <= k < |kids| => kids[k].Key())
  }

  /** The root turn alone explains the stored usage, and no more of its tree does. */
  ghost predicate RestsOnRoot(root: Evidence, kids: seq<Evidence>, stored: Usage) {
    if forall b: Bucket :: stored.In(b) == root.turn.usage.In(b) + Recorded(kids, b) then kids == []
    else stored == root.turn.legacyUsage && exists b: Bucket :: stored.In(b) != root.turn.legacyUsage.In(b) + Reported(kids, b)
  }

  lemma ConfidenceIs(root: Evidence, kids: seq<Evidence>, stored: Usage)
    ensures ConfidenceIn(stored, root, kids) == Some(LegacyRoot) <==> RestsOnRoot(root, kids, stored)
  {
    SameUsage(stored, FullUsage([root] + kids));
    SameUsage(stored, root.turn.legacyUsage.Plus(LegacyUsage(kids)));
    forall b: Bucket
      ensures FullUsage([root] + kids).In(b) == root.turn.usage.In(b) + Recorded(kids, b)
      ensures root.turn.legacyUsage.Plus(LegacyUsage(kids)).In(b) == root.turn.legacyUsage.In(b) + Reported(kids, b)
    {
      TreeUsageAddsUp(root, kids, b);
    }
  }

  lemma RowForIsCorrection(rollouts: seq<Rollout>, price: Pricer, s: RepairSession, i: nat, root: Evidence, w: Work, c: Confidence)
    requires i < |s.queries| == |s.ledger| && s.providerSessionId.Some?
    requires |w.keys| == |w.turns| && forall k :: 0 <= k < |w.keys| ==> w.keys[k] == w.turns[k].Key()
    requires ConfidenceIn(s.queries[i].usage, root, w.turns) == Some(c)
    ensures IsCorrection(rollouts, price, s, i, root, w.turns, RowFor(price, s, i, root, w, c))
    ensures RowFor(price, s, i, root, w, c).childKeys == [] ==> RowFor(price, s, i, root, w, c).corrected.usage == root.turn.usage
  {
    var row := RowFor(price, s, i, root, w, c);
    ConfidenceIs(root, w.turns, s.queries[i].usage);
    forall b: Bucket ensures row.corrected.usage.In(b) == root.turn.usage.In(b) + Recorded(w.turns, b) { TreeUsageAddsUp(root, w.turns, b); }
    if w.turns == [] { SameUsage(row.corrected.usage, root.turn.usage); }
  }

  lemma RowIsCorrection(rollouts: seq<Rollout>, price: Pricer, s: RepairSession, i: nat, row: RepairRow)
    returns (root: Evidence, kids: seq<Evidence>)
    requires WellKeyed(rollouts) && RowFrom(rollouts, price, s, i, row)
    ensures Repairable(rollouts, s, i, root, kids) && IsCorrection(rollouts, price, s, i, root, kids, row)
    ensures row.childKeys == [] ==> row.corrected.usage == root.turn.usage
  {
    var r := Lookup(rollouts, s.providerSessionId.value).value;
    var candidates := CandidatesIn(LowerBound(s, i), s.queries[i].timestamp, r.turns);
    assert candidates[0] in candidates;
    root := Evidence(r, candidates[0]);
    assert candidates == [root.turn];
    SoleRootIsCandidate(rollouts, s, i, root);
    ExpandedAreChildren(rollouts, root);
    var w := Expand(rollouts, RepairSelector, root);
    kids := w.turns;
    ExplainedExactly(root, kids, s.queries[i].usage);
    RowForIsCorrection(rollouts, price, s, i, root, w, ConfidenceIn(s.queries[i].usage, root, kids).value);
  }

  /** A query is judged repairable exactly if one root turn completed in its window, no child of its tree is lost,
      and the tree explains what is stored. */
  lemma QueryIsPlannedExactly(rollouts: seq<Rollout>, price: Pricer, s: RepairSession, i: nat)
    requires WellKeyed(rollouts) && i < |s.queries|
    ensures Judge(rollouts, price, s, i).Planned? <==> exists root, kids :: Repairable(rollouts, s, i, root, kids)
  {
    if Judge(rollouts, price, s, i).Planned? {
      var root, kids := RowIsCorrection(rollouts, price, s, i, Judge(rollouts, price, s, i).row);
    }
    if root, kids :| Repairable(rollouts, s, i, root, kids) {
      RepairableIsPlanned(rollouts, price, s, i, root, kids);
    }
  }

  /** Every row of the manifest corrects its query to the usage of its root turn and the child turns that one
      reaches; without child turns to exactly the root turn's usage. */
  lemma PlannedRowIsCorrected(rollouts: seq<Rollout>, price: Pricer, sessions: seq<RepairSession>, row: RepairRow)
    returns (s: RepairSession, i: nat, root: Evidence, kids: seq<Evidence>)
    requires WellKeyed(rollouts) && row in PlanRows(rollouts, price, sessions)
    ensures s in sessions && i < |s.queries| && Repairable(rollouts, s, i, root, kids)
    ensures IsCorrection(rollouts, price, s, i, root, kids, row)
    ensures row.childKeys == [] ==> row.corrected.usage == root.turn.usage
  {
    s, i := PlannedRowHasOrigin(rollouts, price, sessions, row);
    root, kids := RowIsCorrection(rollouts, price, s, i, row);
  }

  // ----- which queries the manifest repairs ----------------------------------------------------------

  /** The query could be repaired from a tree that holds the child turn. */
  ghost predicate ClaimsChild(rollouts: seq<Rollout>, s: RepairSession, i: nat, e: Evidence)
    requires i < |s.queries|
  {
    exists root, kids :: Repairable(rollouts, s, i, root, kids) && e in kids
  }

  /** Another query could be repaired from a tree that shares a child turn with this one's. */
  ghost predicate HasRival(rollouts: seq<Rollout>, sessions: seq<RepairSession>, s: RepairSession, i: nat)
    requires i < |s.queries|
  {
    exists s', j: nat, e :: s' in sessions && j < |s'.queries| && (s' != s || j != i)
                         && ClaimsChild(rollouts, s, i, e) && ClaimsChild(rollouts, s', j, e)
  }

  lemma SoleRootOnce(rollouts: seq<Rollout>, s: RepairSession, i: nat, root: Evidence, root': Evidence)
    requires i < |s.queries| && IsSoleRoot(rollouts, s, i, root) && IsSoleRoot(rollouts, s, i, root')
    ensures root == root'
  {
  }

  /** A planned row lists the keys of exactly the child turns its query claims. */
  lemma ClaimIsListed(rollouts: seq<Rollout>, price: Pricer, s: RepairSession, i: nat, row: RepairRow, e: Evidence)
    requires WellKeyed(rollouts) && RowFrom(rollouts, price, s, i, row) && ClaimsChild(rollouts, s, i, e)
    ensures e.Key() in row.childKeys && IsStored(rollouts, e)
  {
    var root, kids := RowIsCorrection(rollouts, price, s, i, row);
    var root', kids' :| Repairable(rollouts, s, i, root', kids') && e in kids';
    SoleRootOnce(rollouts, s, i, root, root');
    ReachedIsStored(rollouts, root, e);
    KeyListed(kids, e);
  }

  lemma KeyListed(kids: seq<Evidence>, e: Evidence)
    requires e in kids
    ensures e.Key() in seq(|kids|, k requires 0 <= k < |kids| => kids[k].Key())
  {
    var k :| 0 <= k < |kids| && kids[k] == e;
    assert seq(|kids|, k requires 0 <= k < |kids| => kids[k].Key())[k] == e.Key();
  }

  lemma ListedKeyIsClaimed(rollouts: seq<Rollout>, price: Pricer, s: RepairSession, i: nat, row: RepairRow, k: TurnRef) returns (e: Evidence)
    requires WellKeyed(rollouts) && RowFrom(rollouts, price, s, i, row) && k in row.childKeys
    ensures e.Key() == k && IsStored(rollouts, e) && ClaimsChild(rollouts, s, i, e)
  {
    var root, kids := RowIsCorrection(rollouts, price, s, i, row);
    var a :| 0 <= a < |kids| && kids[a].Key() == k;
    e := kids[a];
    ReachedIsStored(rollouts, root, e);
  }

  /** The place of a query's row among all rows. */
  lemma PlaceOfRow(rollouts: seq<Rollout>, price: Pricer, sessions: seq<RepairSession>, s: RepairSession, i: nat, row: RepairRow)
    returns (a: nat)
    requires WellStored(sessions) && s in sessions && RowFrom(rollouts, price, s, i, row)
    ensures var rows := RowsIn(AllJudged(rollouts, price, sessions));
            && a < |rows| && rows[a] == row && row.query.id == s.queries[i].id
            && forall b :: 0 <= b < |rows| && rows[b].query.id == s.queries[i].id ==> b == a
  {
    var js := AllJudged(rollouts, price, sessions);
    JudgedNamesQueries(rollouts, price, sessions);
    JudgedQueriesDiffer(rollouts, price, sessions);
    var k := QueryIsJudged(rollouts, price, sessions, s, i);
    RowsAre(js, row);
    assert QueryIdOf(row) == js[k].queryId;
    a := PlaceIsUnique(js, row);
  }

  lemma ContestedIsRivalled(rollouts: seq<Rollout>, price: Pricer, sessions: seq<RepairSession>, s: RepairSession, i: nat, row: RepairRow, a: nat)
    requires WellKeyed(rollouts) && WellStored(sessions) && s in sessions && RowFrom(rollouts, price, s, i, row)
    requires var rows := RowsIn(AllJudged(rollouts, price, sessions));
             && a < |rows| && rows[a] == row && Contested(KidsOf(rows), a)
             && forall b :: 0 <= b < |rows| && rows[b].query.id == s.queries[i].id ==> b == a
    ensures HasRival(rollouts, sessions, s, i)
  {
    var rows := RowsIn(AllJudged(rollouts, price, sessions));
    var b: nat :| b < |rows| && b != a && ShareTurn(KidsOf(rows), a, b);
    var k :| k in rows[a].childKeys && k in rows[b].childKeys;
    assert rows[b] in rows;
    var s', j := RowHasOrigin(rollouts, price, sessions, rows[b]);
    var _ := RowHasRoot(rollouts, price, s', j, rows[b]);
    var e := ListedKeyIsClaimed(rollouts, price, s, i, row, k);
    var e' := ListedKeyIsClaimed(rollouts, price, s', j, rows[b], k);
    KeyNamesTurn(rollouts, e, e');
  }

  lemma TwoListersContest(rows: seq<RepairRow>, a: nat, b: nat, k: TurnRef)
    requires a < |rows| && b < |rows| && rows[a].query.id != rows[b].query.id
    requires k in rows[a].childKeys && k in rows[b].childKeys
    ensures Contested(KidsOf(rows), a)
  {
    assert k in KidsOf(rows)[a] && k in KidsOf(rows)[b];
    assert ShareTurn(KidsOf(rows), a, b);
  }

  /** A query that claims a child turn has a row that lists it. */
  lemma ClaimHasRow(rollouts: seq<Rollout>, price: Pricer, sessions: seq<RepairSession>, s: RepairSession, i: nat, e: Evidence)
    returns (a: nat)
    requires WellKeyed(rollouts) && WellStored(sessions) && s in sessions && i < |s.queries| && ClaimsChild(rollouts, s, i, e)
    ensures var rows := RowsIn(AllJudged(rollouts, price, sessions));
            && a < |rows| && rows[a].query.id == s.queries[i].id && e.Key() in rows[a].childKeys
            && forall b :: 0 <= b < |rows| && rows[b].query.id == s.queries[i].id ==> b == a
  {
    var root, kids :| Repairable(rollouts, s, i, root, kids) && e in kids;
    RepairableIsPlanned(rollouts, price, s, i, root, kids);
    var row := Judge(rollouts, price, s, i).row;
    a := PlaceOfRow(rollouts, price, sessions, s, i, row);
    ClaimIsListed(rollouts, price, s, i, row, e);
  }

  lemma RivalledIsContested(rollouts: seq<Rollout>, price: Pricer, sessions: seq<RepairSession>, s: RepairSession, i: nat, a: nat)
    requires WellKeyed(rollouts) && WellStored(sessions) && s in sessions && i < |s.queries|
    requires var rows := RowsIn(AllJudged(rollouts, price, sessions)); a < |rows| && rows[a].query.id == s.queries[i].id
    requires HasRival(rollouts, sessions, s, i)
    ensures Contested(KidsOf(RowsIn(AllJudged(rollouts, price, sessions))), a)
  {
    var s', j: nat, e :| s' in sessions && j < |s'.queries| && (s' != s || j != i)
                      && ClaimsChild(rollouts, s, i, e) && ClaimsChild(rollouts, s', j, e);
    var a' := ClaimHasRow(rollouts, price, sessions, s, i, e);
    var b := ClaimHasRow(rollouts, price, sessions, s', j, e);
    assert s'.queries[j].id != s.queries[i].id;
    TwoListersContest(RowsIn(AllJudged(rollouts, price, sessions)), a, b, e.Key());
  }

  /** The manifest repairs a query exactly if it could be repaired and no other query claims one of its child turns. */
  lemma QueryIsRepairedExactly(rollouts: seq<Rollout>, price: Pricer, sessions: seq<RepairSession>, s: RepairSession, i: nat)
    requires WellKeyed(rollouts) && WellStored(sessions) && s in sessions && i < |s.queries|
    ensures IsRepaired(PlanRows(rollouts, price, sessions), s.queries[i].id)
       <==> (exists root, kids :: Repairable(rollouts, s, i, root, kids)) && !HasRival(rollouts, sessions, s, i)
  {
    var js := AllJudged(rollouts, price, sessions);
    QueryIsPlannedExactly(rollouts, price, s, i);
    NoQueryIsClean(rollouts, price, s, i);
    if Judge(rollouts, price, s, i).Planned? {
      var row := Judge(rollouts, price, s, i).row;
      var a := PlaceOfRow(rollouts, price, sessions, s, i, row);
      PlannedIsKeptOrReported(RowsIn(js), a);
      if Contested(KidsOf(RowsIn(js)), a) { ContestedIsRivalled(rollouts, price, sessions, s, i, row, a); }
      if HasRival(rollouts, sessions, s, i) { RivalledIsContested(rollouts, price, sessions, s, i, a); }
    } else {
      JudgedNamesQueries(rollouts, price, sessions);
      JudgedQueriesDiffer(rollouts, price, sessions);
      var k := QueryIsJudged(rollouts, price, sessions, s, i);
      RejectedIsReported(js, k);
      NotCollided(RowsIn(js), s.queries[i].id);
    }
  }

  // ----- why a query is not repaired ------------------------------------------------------------------

  /** The turns of the session's thread that completed in the query's window. */
  ghost predicate InQueryWindow(s: RepairSession, i: nat, r: Rollout, t: Turn)
    requires i < |s.queries|
  {
    t in r.turns && InWindow(LowerBound(s, i), s.queries[i].timestamp, t)
  }

  lemma {:induction false} CandidatesAreDistinct(lower: real, upper: real, turns: seq<Turn>, a: nat, b: nat)
    requires forall i, j :: 0 <= i < j < |turns| ==> turns[i].id != turns[j].id
    requires a < b < |CandidatesIn(lower, upper, turns)|
    ensures CandidatesIn(lower, upper, turns)[a] != CandidatesIn(lower, upper, turns)[b]
  {
    var init, last := turns[..|turns| - 1], turns[|turns| - 1];
    var before := CandidatesIn(lower, upper, init);
    if b < |before| {
      CandidatesAreDistinct(lower, upper, init, a, b);
    } else {
      assert before[a] in before && before[a] in init;
      var i :| 0 <= i < |init| && init[i] == before[a];
      assert turns[i].id != last.id;
    }
  }

  lemma CandidateCount(s: RepairSession, i: nat, r: Rollout)
    requires i < |s.queries| && DistinctTurnIds(r)
    ensures var candidates := CandidatesIn(LowerBound(s, i), s.queries[i].timestamp, r.turns);
            && (|candidates| == 0 <==> forall t :: !InQueryWindow(s, i, r, t))
            && (|candidates| > 1 <==> exists t, t' :: t != t' && InQueryWindow(s, i, r, t) && InQueryWindow(s, i, r, t'))
  {
    var candidates := CandidatesIn(LowerBound(s, i), s.queries[i].timestamp, r.turns);
    assert forall t :: t in candidates <==> InQueryWindow(s, i, r, t);
    if |candidates| > 0 { assert candidates[0] in candidates; }
    if |candidates| > 1 {
      CandidatesAreDistinct(LowerBound(s, i), s.queries[i].timestamp, r.turns, 0, 1);
      assert candidates[1] in candidates;
    }
  }

  /** A query of a session with usable rows and transcript is rejected for want of a turn, for several turns, for a lost
      child or for usage its tree does not explain, exactly if that is so. */
  lemma ReasonIsExact(rollouts: seq<Rollout>, price: Pricer, s: RepairSession, i: nat, r: Rollout)
    requires WellKeyed(rollouts) && i < |s.queries| && SessionReason(rollouts, s).None? && s.queries[i].id !in s.lostWorkers
    requires Lookup(rollouts, s.providerSessionId.value) == Some(r)
    ensures Judge(rollouts, price, s, i) == Rejected(NoTerminalCandidate) <==> forall t :: !InQueryWindow(s, i, r, t)
    ensures Judge(rollouts, price, s, i) == Rejected(AmbiguousTerminalCandidate)
       <==> exists t, t' :: t != t' && InQueryWindow(s, i, r, t) && InQueryWindow(s, i, r, t')
    ensures Judge(rollouts, price, s, i) == Rejected(UnrecoverableChild)
       <==> exists root :: IsSoleRoot(rollouts, s, i, root) && !ExpansionExact(rollouts, RepairSelector, root)
    ensures Judge(rollouts, price, s, i) == Rejected(LegacyFingerprintMismatch)
       <==> exists root, kids :: IsSoleRoot(rollouts, s, i, root) && AreChildren(rollouts, root, kids)
                            && ExpansionExact(rollouts, RepairSelector, root) && !Explains(root, kids, s.queries[i].usage)
  {
    CandidateCount(s, i, r);
    var candidates := CandidatesIn(LowerBound(s, i), s.queries[i].timestamp, r.turns);
    if |candidates| == 1 {
      assert candidates == [candidates[0]];
      SoleRootReasons(rollouts, price, s, i, Evidence(r, candidates[0]));
    } else {
      forall root ensures !IsSoleRoot(rollouts, s, i, root) { SoleRootIsCandidate(rollouts, s, i, root); }
    }
  }

  lemma SoleRootReasons(rollouts: seq<Rollout>, price: Pricer, s: RepairSession, i: nat, root: Evidence)
    requires WellKeyed(rollouts) && i < |s.queries| && SessionReason(rollouts, s).None? && s.queries[i].id !in s.lostWorkers
    requires Lookup(rollouts, s.providerSessionId.value) == Some(root.rollout)
    requires CandidatesIn(LowerBound(s, i), s.queries[i].timestamp, root.rollout.turns) == [root.turn]
    ensures Judge(rollouts, price, s, i) != Rejected(NoTerminalCandidate) && Judge(rollouts, price, s, i) != Rejected(AmbiguousTerminalCandidate)
    ensures Judge(rollouts, price, s, i) == Rejected(UnrecoverableChild)
       <==> exists root :: IsSoleRoot(rollouts, s, i, root) && !ExpansionExact(rollouts, RepairSelector, root)
    ensures Judge(rollouts, price, s, i) == Rejected(LegacyFingerprintMismatch)
       <==> exists root, kids :: IsSoleRoot(rollouts, s, i, root) && AreChildren(rollouts, root, kids)
                            && ExpansionExact(rollouts, RepairSelector, root) && !Explains(root, kids, s.queries[i].usage)
  {
    SoleRootIsCandidate(rollouts, s, i, root);
    SoleRootIsJudged(rollouts, price, s, i, root);
    ExpandedAreChildren(rollouts, root);
    var kids := Expand(rollouts, RepairSelector, root).turns;
    ExplainedExactly(root, kids, s.queries[i].usage);
    forall root' | IsSoleRoot(rollouts, s, i, root') ensures root' == root { SoleRootOnce(rollouts, s, i, root, root'); }
    forall kids' | AreChildren(rollouts, root, kids')
      ensures Explains(root, kids', s.queries[i].usage) <==> Explains(root, kids, s.queries[i].usage)
    {
      ListingDoesNotMatter(rollouts, root, kids, kids', s.queries[i].usage);
    }
  }
}
