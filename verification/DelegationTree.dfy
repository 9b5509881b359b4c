/**
 Recursive queries over the parent-delegation tree: which rows a restart removes as orphans,
 and the lifecycle counts of everything below a session. Both end on cyclic data too.
 */
module DelegationTree {
  import opened Wrappers
  import opened Delegations

  type Rows = map<string, Row>

  predicate IsChildOf(rows: Rows, c: string, p: string) {
    c in rows && p in rows && rows[c].target.parentDelegation == Some(p)
  }

  /** Each row is the parent delegation of the next. */
  ghost predicate IsChain(rows: Rows, chain: seq<string>) {
    && |chain| > 0 && chain[0] in rows
    && forall i :: 0 < i < |chain| ==> IsChildOf(rows, chain[i], chain[i - 1])
  }

  // ----- orphans ---------------------------------------------------------------------------

  predicate LacksChild(s: State, id: string) {
    id in s.rows && s.rows[id].target.childSession !in s.archived
  }

  /** It or some ancestor on its parent-delegation chain lacks its child session. */
  ghost predicate Orphaned(s: State, id: string) {
    exists chain :: IsChain(s.rows, chain) && LacksChild(s, chain[0]) && chain[|chain| - 1] == id
  }

  ghost function Orphans(s: State): set<string> {
    set id | id in s.rows && Orphaned(s, id)
  }

  lemma ChainExtends(rows: Rows, chain: seq<string>, c: string)
    requires IsChain(rows, chain) && IsChildOf(rows, c, chain[|chain| - 1])
    ensures IsChain(rows, chain + [c])
  {
    var longer := chain + [c];
    forall i | 0 < i < |longer| ensures IsChildOf(rows, longer[i], longer[i - 1]) {
      if i < |chain| { assert IsChildOf(rows, chain[i], chain[i - 1]); }
    }
  }

  lemma ChildOfOrphan(s: State, p: string, c: string)
    requires Orphaned(s, p) && IsChildOf(s.rows, c, p)
    ensures Orphaned(s, c)
  {
    var chain :| IsChain(s.rows, chain) && LacksChild(s, chain[0]) && chain[|chain| - 1] == p;
    ChainExtends(s.rows, chain, c);
    assert (chain + [c])[|chain + [c]| - 1] == c;
  }

  /** A set that holds the rows without a child session and is closed under children holds all orphans. */
  lemma {:induction false} ClosedHoldsChain(s: State, closed: set<string>, chain: seq<string>)
    requires forall id :: LacksChild(s, id) ==> id in closed
    requires forall p, c :: p in closed && IsChildOf(s.rows, c, p) ==> c in closed
    requires IsChain(s.rows, chain) && LacksChild(s, chain[0])
    ensures chain[|chain| - 1] in closed
  {
    if |chain| > 1 {
      ClosedHoldsChain(s, closed, chain[..|chain| - 1]);
      assert IsChildOf(s.rows, chain[|chain| - 1], chain[|chain| - 2]);
    }
  }

  /** Collected so far: orphans only, all rows without a child session, and all children of what was
      collected before the last round. */
  ghost predicate Collecting(s: State, orphaned: set<string>, added: set<string>) {
    && added <= orphaned <= s.rows.Keys
    && (forall id :: id in orphaned ==> Orphaned(s, id))
    && (forall id :: LacksChild(s, id) ==> id in orphaned)
    && (forall p, c :: p in orphaned && p !in added && IsChildOf(s.rows, c, p) ==> c in orphaned)
  }

  lemma LackingIsOrphaned(s: State, id: string)
    requires LacksChild(s, id)
    ensures Orphaned(s, id)
  {
    assert IsChain(s.rows, [id]) && LacksChild(s, [id][0]) && [id][|[id]| - 1] == id;
  }

  method NewChildren(s: State, orphaned: set<string>, added: set<string>) returns (next: set<string>)
    requires Collecting(s, orphaned, added)
    ensures next !! orphaned && Collecting(s, orphaned + next, next)
  {
    next := set c | c in s.rows && c !in orphaned && s.rows[c].target.parentDelegation.Some?
                    && s.rows[c].target.parentDelegation.value in added;
    forall c | c in next ensures Orphaned(s, c) {
      ChildOfOrphan(s, s.rows[c].target.parentDelegation.value, c);
    }
    forall p, c | p in orphaned && IsChildOf(s.rows, c, p) ensures c in orphaned + next {}
  }

  lemma CollectedAll(s: State, orphaned: set<string>)
    requires Collecting(s, orphaned, {})
    ensures orphaned == Orphans(s)
  {
    forall id | id in s.rows && Orphaned(s, id) ensures id in orphaned {
      var chain :| IsChain(s.rows, chain) && LacksChild(s, chain[0]) && chain[|chain| - 1] == id;
      ClosedHoldsChain(s, orphaned, chain);
    }
  }

  lemma FewerLeft(keys: set<string>, orphaned: set<string>, next: set<string>)
    requires next !! orphaned && next <= keys && next != {}
    ensures keys - (orphaned + next) < keys - orphaned
  {
    var c :| c in next;
    assert c in keys - orphaned && c !in keys - (orphaned + next);
  }

  /** The recursive part of the query, until it adds nothing. */
  method CollectOrphans(s: State) returns (orphaned: set<string>)
    ensures orphaned == Orphans(s)
  {
    orphaned := set id | id in s.rows && s.rows[id].target.childSession !in s.archived;
    forall id | id in orphaned ensures Orphaned(s, id) { LackingIsOrphaned(s, id); }
    var added := orphaned;
    while added != {}
      invariant Collecting(s, orphaned, added)
      decreases s.rows.Keys - orphaned, added != {}
    {
      var next := NewChildren(s, orphaned, added);
      if next != {} { FewerLeft(s.rows.Keys, orphaned, next); }
      assert next == {} ==> orphaned + next == orphaned;
      orphaned, added := orphaned + next, next;
    }
    CollectedAll(s, orphaned);
  }

  /** Afterwards every delegation has its child session, and none lost its parent to the cleanup. */
  lemma CleanupLeavesWholeLineages(s: State, id: string)
    requires id in s.rows - Orphans(s)
    ensures s.rows[id].target.childSession in s.archived
    ensures forall p :: IsChildOf(s.rows, id, p) ==> p in s.rows - Orphans(s)
  {
    if LacksChild(s, id) { LackingIsOrphaned(s, id); }
    forall p | IsChildOf(s.rows, id, p) ensures p in s.rows - Orphans(s) {
      if Orphaned(s, p) { ChildOfOrphan(s, p, id); }
    }
  }

  // ----- descendants of a session -----------------------------------------------------------

  predicate IsDirect(rows: Rows, root: string, id: string) {
    id in rows && rows[id].target.parentSession == root
  }

  /** One row of the recursive query: a path down from a direct delegation that repeats no id. */
  ghost predicate IsWalk(rows: Rows, root: string, path: seq<string>) {
    && IsChain(rows, path) && IsDirect(rows, root, path[0])
    && forall i, j :: 0 <= i < j < |path| ==> path[i] != path[j]
  }

  lemma WalkExtends(rows: Rows, root: string, path: seq<string>, c: string)
    requires IsWalk(rows, root, path) && IsChildOf(rows, c, path[|path| - 1]) && c !in path
    ensures IsWalk(rows, root, path + [c])
  {
    ChainExtends(rows, path, c);
  }

  lemma WalkShortens(rows: Rows, root: string, path: seq<string>)
    requires IsWalk(rows, root, path) && |path| > 1
    ensures IsWalk(rows, root, path[..|path| - 1])
    ensures IsChildOf(rows, path[|path| - 1], path[|path| - 2]) && path[|path| - 1] !in path[..|path| - 1]
  {
    var init := path[..|path| - 1];
    forall i | 0 < i < |init| ensures IsChildOf(rows, init[i], init[i - 1]) { assert IsChildOf(rows, path[i], path[i - 1]); }
  }

  lemma {:induction false} DistinctPathIsBounded(path: seq<string>, ids: set<string>)
    requires forall i, j :: 0 <= i < j < |path| ==> path[i] != path[j]
    requires forall i :: 0 <= i < |path| ==> path[i] in ids
    ensures |path| <= |ids|
  {
    if path != [] {
      var last := path[|path| - 1];
      DistinctPathIsBounded(path[..|path| - 1], ids - {last});
      assert |ids - {last}| == |ids| - 1;
    }
  }

  lemma {:induction false} ChainIsStored(rows: Rows, chain: seq<string>, i: nat)
    requires IsChain(rows, chain) && i < |chain|
    ensures chain[i] in rows
  {
    if i > 0 { assert IsChildOf(rows, chain[i], chain[i - 1]); }
  }

  lemma WalkIsBounded(rows: Rows, root: string, path: seq<string>)
    requires IsWalk(rows, root, path)
    ensures |path| <= |rows|
  {
    forall i | 0 <= i < |path| ensures path[i] in rows.Keys { ChainIsStored(rows, path, i); }
    DistinctPathIsBounded(path, rows.Keys);
    assert |rows.Keys| == |rows|;
  }

  /** Paths one longer, as the recursive part of the query makes them. */
  function Extend(rows: Rows, level: set<seq<string>>): set<seq<string>> {
    set p, c | p in level && c in rows && p != [] && rows[c].target.parentDelegation == Some(p[|p| - 1]) && c !in p :: p + [c]
  }

  ghost predicate IsLevel(rows: Rows, root: string, k: nat, level: set<seq<string>>) {
    forall p :: p in level <==> IsWalk(rows, root, p) && |p| == k
  }

  lemma NextLevel(rows: Rows, root: string, k: nat, level: set<seq<string>>)
    requires IsLevel(rows, root, k, level) && k > 0
    ensures IsLevel(rows, root, k + 1, Extend(rows, level))
  {
    forall p ensures p in Extend(rows, level) <==> IsWalk(rows, root, p) && |p| == k + 1 {
      if p in Extend(rows, level) {
        var q, c :| q in level && c in rows && q != [] && rows[c].target.parentDelegation == Some(q[|q| - 1]) && c !in q && p == q + [c];
        ChainIsStored(rows, q, |q| - 1);
        WalkExtends(rows, root, q, c);
      }
      if IsWalk(rows, root, p) && |p| == k + 1 {
        WalkShortens(rows, root, p);
        assert p == p[..k] + [p[k]];
      }
    }
  }

  /** All paths of the recursive query, level by level. */
  method Descend(rows: Rows, root: string) returns (walks: set<seq<string>>)
    ensures forall p :: p in walks <==> IsWalk(rows, root, p)
  {
    var level := set id | id in rows && rows[id].target.parentSession == root :: [id];
    walks := level;
    ghost var k := 1;
    forall p ensures p in level <==> IsWalk(rows, root, p) && |p| == 1 {
      if IsWalk(rows, root, p) && |p| == 1 { assert p == [p[0]]; }
    }
    while level != {}
      invariant k > 0 && IsLevel(rows, root, k, level)
      invariant forall p :: p in walks <==> IsWalk(rows, root, p) && |p| <= k
      decreases |rows| + 1 - k
    {
      var p :| p in level;
      WalkIsBounded(rows, root, p);
      NextLevel(rows, root, k, level);
      level := Extend(rows, level);
      walks := walks + level;
      k := k + 1;
    }
    forall p | IsWalk(rows, root, p) ensures |p| <= k { WalkWithinLevels(rows, root, k, level, p); }
  }

  /** Once a level is empty no longer path exists. */
  lemma {:induction false} WalkWithinLevels(rows: Rows, root: string, k: nat, level: set<seq<string>>, p: seq<string>)
    requires k > 0 && level == {} && IsLevel(rows, root, k, level) && IsWalk(rows, root, p)
    ensures |p| < k
    decreases |p|
  {
    assert p in level <==> |p| == k;
    if |p| > k {
      WalkShortens(rows, root, p);
      WalkWithinLevels(rows, root, k, level, p[..|p| - 1]);
    }
  }

  // ----- the rollup ----------------------------------------------------------------------------

  function Last(p: seq<string>): string {
    if p == [] then "" else p[|p| - 1]
  }

  function WaitingIds(s: State): set<string> {
    set id | id in s.rows && (s.rows[id].status == Pending || Resumable(s, s.rows[id]))
  }

  function CompletedIds(s: State): set<string> {
    set id | id in s.rows && s.rows[id].status == Completed
  }

  predicate IsFailed(s: State, r: Row) {
    || r.status in {Failed, TimedOut, BudgetExhausted}
    || (r.status == Interrupted && (r.target.routineRun.Some? || r.attempts >= MAX_ATTEMPTS || !ChildAvailable(s, r)))
  }

  function FailedIds(s: State): set<string> {
    set id | id in s.rows && IsFailed(s, s.rows[id])
  }

  datatype Rollup = Rollup(direct: nat, descendants: nat, waiting: nat, completed: nat, failed: nat)

  /** Every path is one row that is counted. */
  function WalksTo(walks: set<seq<string>>, ids: set<string>): set<seq<string>> {
    set p | p in walks && Last(p) in ids
  }

  method ListHlidDelegationLifecycleRollup(s: State, root: string) returns (r: Rollup, ghost walks: set<seq<string>>)
    ensures forall p :: p in walks <==> IsWalk(s.rows, root, p)
    ensures r.direct == |set p | p in walks && |p| == 1| && r.descendants == |walks|
    ensures r.waiting == |WalksTo(walks, WaitingIds(s))|
    ensures r.completed == |WalksTo(walks, CompletedIds(s))|
    ensures r.failed == |WalksTo(walks, FailedIds(s))|
  {
    var found := Descend(s.rows, root);
    walks := found;
    r := Rollup(|set p | p in found && |p| == 1|, |found|, |WalksTo(found, WaitingIds(s))|,
                |WalksTo(found, CompletedIds(s))|, |WalksTo(found, FailedIds(s))|);
  }

  // ----- well-formed forests ----------------------------------------------------------------------

  /** A delegation hangs under the delegation whose child session started it, one level deeper. */
  ghost predicate IsForest(rows: Rows) {
    && (forall c, p :: c in rows && rows[c].target.parentDelegation == Some(p) ==>
          && p in rows && rows[c].target.parentSession == rows[p].target.childSession
          && rows[c].target.depth == rows[p].target.depth + 1)
    && (forall c, p :: c in rows && p in rows && rows[c].target.parentSession == rows[p].target.childSession ==>
          rows[c].target.parentDelegation == Some(p))
  }

  /** What a plain traversal of the tree below the session visits. */
  ghost predicate IsDescendant(rows: Rows, root: string, d: string) {
    exists chain :: IsChain(rows, chain) && IsDirect(rows, root, chain[0]) && chain[|chain| - 1] == d
  }

  ghost function Descendants(rows: Rows, root: string): set<string> {
    set d | d in rows && IsDescendant(rows, root, d)
  }

  lemma {:induction false} DepthGrows(rows: Rows, chain: seq<string>, i: nat, j: nat)
    requires IsForest(rows) && IsChain(rows, chain) && i < j < |chain|
    ensures chain[i] in rows && chain[j] in rows && rows[chain[i]].target.depth < rows[chain[j]].target.depth
    decreases j
  {
    assert IsChildOf(rows, chain[j], chain[j - 1]);
    if i < j - 1 { DepthGrows(rows, chain, i, j - 1); }
  }

  lemma ForestChainIsWalk(rows: Rows, root: string, chain: seq<string>)
    requires IsForest(rows) && IsChain(rows, chain) && IsDirect(rows, root, chain[0])
    ensures IsWalk(rows, root, chain)
  {
    forall i, j | 0 <= i < j < |chain| ensures chain[i] != chain[j] { DepthGrows(rows, chain, i, j); }
  }

  /** A direct delegation of the session is not reached through another one as well. */
  lemma DirectIsTop(rows: Rows, root: string, chain: seq<string>)
    requires IsForest(rows) && IsChain(rows, chain) && IsDirect(rows, root, chain[0]) && |chain| > 1
    ensures !IsDirect(rows, root, chain[|chain| - 1])
  {
    var p := chain[|chain| - 2];
    assert IsChildOf(rows, chain[|chain| - 1], p);
    if |chain| > 2 { DepthGrows(rows, chain, 0, |chain| - 2); }
  }

  lemma {:induction false} OnePathEach(rows: Rows, root: string, a: seq<string>, b: seq<string>)
    requires IsForest(rows) && IsWalk(rows, root, a) && IsWalk(rows, root, b) && Last(a) == Last(b)
    ensures a == b
    decreases |a|
  {
    if |a| > 1 && |b| > 1 {
      WalkShortens(rows, root, a);
      WalkShortens(rows, root, b);
      assert Last(a[..|a| - 1]) == Last(b[..|b| - 1]);
      OnePathEach(rows, root, a[..|a| - 1], b[..|b| - 1]);
      assert a == a[..|a| - 1] + [Last(a)] && b == b[..|b| - 1] + [Last(b)];
    } else if |a| > 1 {
      DirectIsTop(rows, root, a);
    } else if |b| > 1 {
      DirectIsTop(rows, root, b);
    }
  }

  lemma {:induction false} InjectionKeepsCount(walks: set<seq<string>>, ids: set<string>)
    requires forall p, q :: p in walks && q in walks && Last(p) == Last(q) ==> p == q
    requires ids == set p | p in walks :: Last(p)
    ensures |ids| == |walks|
    decreases |walks|
  {
    if walks != {} {
      var p :| p in walks;
      var rest := walks - {p};
      forall id ensures id in ids - {Last(p)} <==> exists q :: q in rest && Last(q) == id {
        if id in ids - {Last(p)} {
          var q :| q in walks && Last(q) == id;
          assert q in rest;
        }
      }
      assert ids - {Last(p)} == set q | q in rest :: Last(q);
      InjectionKeepsCount(rest, ids - {Last(p)});
      assert Last(p) in ids;
    }
  }

  /** On a well-formed forest chosen rows are counted once per descendant among them. */
  lemma CountsDescendants(rows: Rows, root: string, walks: set<seq<string>>, chosen: set<string>)
    requires IsForest(rows) && forall p :: p in walks <==> IsWalk(rows, root, p)
    ensures |WalksTo(walks, chosen)| == |Descendants(rows, root) * chosen|
  {
    var counted, ids := WalksTo(walks, chosen), Descendants(rows, root) * chosen;
    forall p, q | p in counted && q in counted && Last(p) == Last(q) ensures p == q { OnePathEach(rows, root, p, q); }
    forall d ensures d in ids <==> exists p :: p in counted && Last(p) == d {
      if p :| p in counted && Last(p) == d {
        ChainIsStored(rows, p, |p| - 1);
        assert IsDescendant(rows, root, d);
      }
      if d in ids {
        var chain :| IsChain(rows, chain) && IsDirect(rows, root, chain[0]) && chain[|chain| - 1] == d;
        ForestChainIsWalk(rows, root, chain);
        assert chain in counted && Last(chain) == d;
      }
    }
    assert ids == set p | p in counted :: Last(p);
    InjectionKeepsCount(counted, ids);
  }

  function DirectIds(rows: Rows, root: string): set<string> {
    set id | id in rows && rows[id].target.parentSession == root
  }

  /** The paths of length one are the direct delegations, on any data. */
  lemma CountsDirect(rows: Rows, root: string, walks: set<seq<string>>)
    requires forall p :: p in walks <==> IsWalk(rows, root, p)
    ensures |set p | p in walks && |p| == 1| == |DirectIds(rows, root)|
  {
    var direct := set p | p in walks && |p| == 1;
    forall p | p in direct ensures p == [Last(p)] {}
    forall id ensures id in DirectIds(rows, root) <==> [id] in direct {
      if id in DirectIds(rows, root) { assert IsWalk(rows, root, [id]); }
      if [id] in direct { assert IsWalk(rows, root, [id]) && [id][0] == id; }
    }
    forall id ensures id in DirectIds(rows, root) <==> exists p :: p in direct && Last(p) == id {
      if id in DirectIds(rows, root) { assert [id] in direct && Last([id]) == id; }
    }
    assert DirectIds(rows, root) == set p | p in direct :: Last(p);
    InjectionKeepsCount(direct, DirectIds(rows, root));
  }

  /** What the rollup of a well-formed forest says, in terms of the descendants themselves. */
  ghost predicate RollupIsPlain(s: State, root: string, r: Rollup) {
    var ds := Descendants(s.rows, root);
    && r.descendants == |ds| && r.direct == |DirectIds(s.rows, root)|
    && r.waiting == |ds * WaitingIds(s)| && r.completed == |ds * CompletedIds(s)| && r.failed == |ds * FailedIds(s)|
  }

  lemma RollupCountsEachOnce(s: State, root: string, r: Rollup, walks: set<seq<string>>)
    requires IsForest(s.rows) && forall p :: p in walks <==> IsWalk(s.rows, root, p)
    requires r.descendants == |walks| && r.direct == |set p | p in walks && |p| == 1|
    requires r.waiting == |WalksTo(walks, WaitingIds(s))|
    requires r.completed == |WalksTo(walks, CompletedIds(s))| && r.failed == |WalksTo(walks, FailedIds(s))|
    ensures RollupIsPlain(s, root, r)
  {
    var rows, ds := s.rows, Descendants(s.rows, root);
    CountsDirect(rows, root, walks);
    CountsDescendants(rows, root, walks, ds);
    assert ds * ds == ds;
    assert WalksTo(walks, ds) == walks by {
      forall p | p in walks ensures Last(p) in ds {
        ChainIsStored(rows, p, |p| - 1);
        assert IsDescendant(rows, root, Last(p));
      }
    }
    CountsDescendants(rows, root, walks, WaitingIds(s));
    CountsDescendants(rows, root, walks, CompletedIds(s));
    CountsDescendants(rows, root, walks, FailedIds(s));
  }

  function UncountedIds(s: State): set<string> {
    set id | id in s.rows && s.rows[id].status in {Running, Cancelled}
  }

  lemma ClassesPartition(s: State)
    ensures WaitingIds(s) !! CompletedIds(s) !! FailedIds(s) !! UncountedIds(s)
    ensures s.rows.Keys == WaitingIds(s) + CompletedIds(s) + FailedIds(s) + UncountedIds(s)
  {
  }

  lemma SplitCount(ds: set<string>, a: set<string>, b: set<string>, c: set<string>, d: set<string>)
    requires a !! b !! c !! d && ds <= a + b + c + d
    ensures |ds| == |ds * a| + |ds * b| + |ds * c| + |ds * d|
  {
    assert ds == ds * a + (ds * b + (ds * c + ds * d));
    assert ds * a !! ds * b + (ds * c + ds * d);
    assert ds * b !! ds * c + ds * d;
  }

  /** The three counts never overlap; what is in none of them is running or cancelled. */
  lemma CountsAreDisjoint(s: State, root: string, r: Rollup)
    requires RollupIsPlain(s, root, r)
    ensures r.waiting + r.completed + r.failed == r.descendants - |Descendants(s.rows, root) * UncountedIds(s)|
  {
    ClassesPartition(s);
    SplitCount(Descendants(s.rows, root), WaitingIds(s), CompletedIds(s), FailedIds(s), UncountedIds(s));
  }
}
