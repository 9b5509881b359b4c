/**
 Evidence is used once: time windows of a session do not overlap, no child turn backs two
 repaired rows, and every stored query is either repaired or reported.
 */
module CodexRepairEvidence {
  import opened Wrappers
  import opened Rollouts
  import opened RolloutGraph
  import opened TurnClaims
  import opened RepairVerdicts
  import opened UsageRows
  import opened CodexRepairPlan

  /** Sessions as the database holds them: unique ids, each session's queries in timestamp order. */
  ghost predicate WellStored(sessions: seq<RepairSession>) {
    && (forall s, t :: s in sessions && t in sessions && s.id == t.id ==> s == t)
    && (forall a, b :: 0 <= a < b < |sessions| ==> sessions[a] != sessions[b])
    && (forall s :: s in sessions ==> InTimeOrder(s.queries))
    && (forall s, i :: s in sessions && 0 <= i < |s.queries| ==> s.queries[i].session == s.id)
    && (forall s, i, t, j :: s in sessions && t in sessions && 0 <= i < |s.queries| && 0 <= j < |t.queries| ==>
          s.queries[i].id == t.queries[j].id ==> s == t && i == j)
  }

  // ----- windows ----------------------------------------------------------------------------

  /** No turn completes in the windows of two queries of one session. */
  lemma WindowsAreDisjoint(s: RepairSession, i: nat, j: nat, t: Turn)
    requires InTimeOrder(s.queries) && i < j < |s.queries|
    ensures !(InWindow(LowerBound(s, i), s.queries[i].timestamp, t) && InWindow(LowerBound(s, j), s.queries[j].timestamp, t))
  {
    assert i < j - 1 ==> s.queries[i].timestamp <= s.queries[j - 1].timestamp;
  }

  /** The root turn behind a planned row. */
  lemma RowHasRoot(rollouts: seq<Rollout>, price: Pricer, s: RepairSession, i: nat, row: RepairRow) returns (root: Evidence)
    requires RowFrom(rollouts, price, s, i, row)
    ensures row.sessionId == s.id && Some(row.providerSessionId) == s.providerSessionId && row.query == s.queries[i]
    ensures root.Key() == row.root && Lookup(rollouts, row.providerSessionId) == Some(root.rollout)
    ensures root.turn in root.rollout.turns && InWindow(LowerBound(s, i), s.queries[i].timestamp, root.turn)
    ensures root.turn.endedAtMs.Some? && row.childKeys == Expand(rollouts, RepairSelector, root).keys
  {
    var r := Lookup(rollouts, s.providerSessionId.value).value;
    var candidates := CandidatesIn(LowerBound(s, i), s.queries[i].timestamp, r.turns);
    assert candidates[0] in candidates;
    root := Evidence(r, candidates[0]);
  }

  lemma SoleCandidate(lower: real, upper: real, turns: seq<Turn>, t: Turn, t': Turn)
    requires |CandidatesIn(lower, upper, turns)| == 1
    requires t in turns && t' in turns && InWindow(lower, upper, t) && InWindow(lower, upper, t')
    ensures t == t'
  {
    var candidates := CandidatesIn(lower, upper, turns);
    assert t in candidates && t' in candidates;
  }

  /** A planned row had one candidate. */
  lemma RootIsSole(rollouts: seq<Rollout>, price: Pricer, s: RepairSession, i: nat, row: RepairRow, r: Rollout)
    requires RowFrom(rollouts, price, s, i, row) && Lookup(rollouts, row.providerSessionId) == Some(r)
    ensures |CandidatesIn(LowerBound(s, i), s.queries[i].timestamp, r.turns)| == 1
  {
  }

  /** The two queries claim the same native thread, and one of its turns completed in both windows. */
  ghost predicate ClaimOneTurn(rollouts: seq<Rollout>, s: RepairSession, i: nat, s': RepairSession, j: nat)
    requires i < |s.queries| && j < |s'.queries|
  {
    && s.providerSessionId == s'.providerSessionId && s.providerSessionId.Some?
    && exists r, t :: Lookup(rollouts, s.providerSessionId.value) == Some(r) && t in r.turns
                   && InWindow(LowerBound(s, i), s.queries[i].timestamp, t)
                   && InWindow(LowerBound(s', j), s'.queries[j].timestamp, t)
  }

  /** Exactly when two planned rows rest on the same root turn. */
  lemma RootIsSharedExactly(rollouts: seq<Rollout>, price: Pricer, s: RepairSession, i: nat, row: RepairRow,
                            s': RepairSession, j: nat, row': RepairRow)
    requires WellKeyed(rollouts) && RowFrom(rollouts, price, s, i, row) && RowFrom(rollouts, price, s', j, row')
    ensures row.root == row'.root <==> ClaimOneTurn(rollouts, s, i, s', j)
  {
    var root := RowHasRoot(rollouts, price, s, i, row);
    var root' := RowHasRoot(rollouts, price, s', j, row');
    if row.root == row'.root { KeyNamesTurn(rollouts, root, root'); }
    if ClaimOneTurn(rollouts, s, i, s', j) {
      var r, t :| Lookup(rollouts, s.providerSessionId.value) == Some(r) && t in r.turns
                  && InWindow(LowerBound(s, i), s.queries[i].timestamp, t)
                  && InWindow(LowerBound(s', j), s'.queries[j].timestamp, t);
      RootIsSole(rollouts, price, s, i, row, r);
      RootIsSole(rollouts, price, s', j, row', r);
      SoleCandidate(LowerBound(s, i), s.queries[i].timestamp, r.turns, t, root.turn);
      SoleCandidate(LowerBound(s', j), s'.queries[j].timestamp, r.turns, t, root'.turn);
    }
  }

  lemma {:induction false} SafeRows(rows: seq<RepairRow>, n: nat, row: RepairRow)
    requires n <= |rows|
    ensures row in Safe(rows, n) <==> exists i :: 0 <= i < n && rows[i] == row && !Contested(KidsOf(rows), i)
  {
    if n > 0 { SafeRows(rows, n - 1, row); }
  }

  lemma PlannedRowHasOrigin(rollouts: seq<Rollout>, price: Pricer, sessions: seq<RepairSession>, row: RepairRow)
    returns (s: RepairSession, i: nat)
    requires row in PlanRows(rollouts, price, sessions)
    ensures s in sessions && RowFrom(rollouts, price, s, i, row)
  {
    var rows := RowsIn(AllJudged(rollouts, price, sessions));
    SafeRows(rows, |rows|, row);
    s, i := RowHasOrigin(rollouts, price, sessions, row);
  }

  /** A root turn backs one planned row, unless two sessions claim the same native thread. */
  lemma RootTurnBacksOneRow(rollouts: seq<Rollout>, price: Pricer, sessions: seq<RepairSession>, row: RepairRow, row': RepairRow)
    requires WellKeyed(rollouts) && WellStored(sessions)
    requires row in PlanRows(rollouts, price, sessions) && row' in PlanRows(rollouts, price, sessions)
    requires row.root == row'.root
    ensures row == row' || (row.sessionId != row'.sessionId && row.providerSessionId == row'.providerSessionId)
  {
    var s, i := PlannedRowHasOrigin(rollouts, price, sessions, row);
    var s', i' := PlannedRowHasOrigin(rollouts, price, sessions, row');
    var root := RowHasRoot(rollouts, price, s, i, row);
    var root' := RowHasRoot(rollouts, price, s', i', row');
    KeyNamesTurn(rollouts, root, root');
    if s == s' && i < i' { WindowsAreDisjoint(s, i, i', root.turn); }
    if s == s' && i' < i { WindowsAreDisjoint(s, i', i, root.turn); }
  }

  /** If every session has its own native thread, root turns are never shared. */
  lemma DistinctThreadsShareNoRoot(rollouts: seq<Rollout>, price: Pricer, sessions: seq<RepairSession>, row: RepairRow, row': RepairRow)
    requires WellKeyed(rollouts) && WellStored(sessions)
    requires forall s, t :: s in sessions && t in sessions && s.providerSessionId.Some? && s.providerSessionId == t.providerSessionId ==> s == t
    requires row in PlanRows(rollouts, price, sessions) && row' in PlanRows(rollouts, price, sessions)
    requires row.root == row'.root
    ensures row == row'
  {
    var s, i := PlannedRowHasOrigin(rollouts, price, sessions, row);
    var s', i' := PlannedRowHasOrigin(rollouts, price, sessions, row');
    var root := RowHasRoot(rollouts, price, s, i, row);
    var root' := RowHasRoot(rollouts, price, s', i', row');
    RootTurnBacksOneRow(rollouts, price, sessions, row, row');
  }

  /** After collision removal no child turn backs two rows of the manifest. */
  lemma ChildTurnBacksOneRow(rollouts: seq<Rollout>, price: Pricer, sessions: seq<RepairSession>, row: RepairRow, row': RepairRow, k: TurnRef)
    requires row in PlanRows(rollouts, price, sessions) && row' in PlanRows(rollouts, price, sessions)
    requires k in row.childKeys && k in row'.childKeys
    ensures row == row'
  {
    var rows := RowsIn(AllJudged(rollouts, price, sessions));
    SafeRows(rows, |rows|, row);
    SafeRows(rows, |rows|, row');
    var i :| 0 <= i < |rows| && rows[i] == row && !Contested(KidsOf(rows), i);
    var j :| 0 <= j < |rows| && rows[j] == row' && !Contested(KidsOf(rows), j);
    assert k in KidsOf(rows)[i] && k in KidsOf(rows)[j];
    assert ShareTurn(KidsOf(rows), i, j);
  }

  /** The root turn of one planned row is a child turn of another exactly if the other's root turn reaches it. */
  lemma RootIsChildExactly(rollouts: seq<Rollout>, price: Pricer, s: RepairSession, i: nat, row: RepairRow,
                           s': RepairSession, j: nat, row': RepairRow) returns (root: Evidence, root': Evidence)
    requires WellKeyed(rollouts) && RowFrom(rollouts, price, s, i, row) && RowFrom(rollouts, price, s', j, row')
    ensures root.Key() == row.root && IsStored(rollouts, root) && root.rollout.threadId == row.providerSessionId
    ensures root'.Key() == row'.root && IsStored(rollouts, root')
    ensures row.root in row'.childKeys <==> Reachable(rollouts, RepairSelector, root', root)
  {
    root := RowHasRoot(rollouts, price, s, i, row);
    root' := RowHasRoot(rollouts, price, s', j, row');
    ExpandIsSound(rollouts, RepairSelector, root');
    var w := Expand(rollouts, RepairSelector, root');
    if row.root in w.keys {
      var k :| 0 <= k < |w.keys| && w.keys[k] == row.root;
      assert w.turns[k] in w.turns;
      ReachedIsStored(rollouts, root', w.turns[k]);
      KeyNamesTurn(rollouts, root, w.turns[k]);
    }
    if Reachable(rollouts, RepairSelector, root', root) {
      var k :| 0 <= k < |w.turns| && w.turns[k] == root;
      assert w.keys[k] == row.root;
    }
  }

  ghost predicate IsStored(rollouts: seq<Rollout>, e: Evidence) {
    e.rollout in rollouts && e.turn in e.rollout.turns
  }

  lemma ReachedIsStored(rollouts: seq<Rollout>, o: Evidence, e: Evidence)
    requires Reachable(rollouts, RepairSelector, o, e) && IsStored(rollouts, o)
    ensures IsStored(rollouts, e) && exists a :: IsStored(rollouts, a) && Edge(rollouts, RepairSelector, a, e)
  {
    var path: seq<Evidence> :| |path| >= 2 && path[0] == o && path[|path| - 1] == e && IsPath(rollouts, RepairSelector, path);
    var a := path[|path| - 2];
    assert Edge(rollouts, RepairSelector, path[|path| - 2], path[|path| - 2 + 1]);
    if |path| > 2 { assert Edge(rollouts, RepairSelector, path[|path| - 3], path[|path| - 3 + 1]); }
    assert IsStored(rollouts, a);
  }

  /** The thread is a root, and no turn names it as its child. */
  ghost predicate NeverChild(rollouts: seq<Rollout>, thread: string) {
    && (forall r :: r in rollouts && r.threadId == thread ==> r.parentThreadId.None?)
    && (forall e :: IsStored(rollouts, e) ==> thread !in e.turn.childIds)
  }

  lemma EdgeNamesChild(rollouts: seq<Rollout>, a: Evidence, b: Evidence)
    requires DistinctThreads(rollouts) && IsStored(rollouts, a) && Edge(rollouts, RepairSelector, a, b)
    ensures !NeverChild(rollouts, b.rollout.threadId)
  {
    assert b.rollout in rollouts && IsStored(rollouts, a);
    if b.rollout.threadId !in a.turn.childIds {
      var x :| x in rollouts && x.threadId == b.rollout.threadId && x.parentThreadId == Some(a.rollout.threadId);
    }
  }

  lemma ReachedIsNamed(rollouts: seq<Rollout>, o: Evidence, e: Evidence)
    requires DistinctThreads(rollouts) && Reachable(rollouts, RepairSelector, o, e) && IsStored(rollouts, o)
    ensures !NeverChild(rollouts, e.rollout.threadId)
  {
    ReachedIsStored(rollouts, o, e);
    var a :| IsStored(rollouts, a) && Edge(rollouts, RepairSelector, a, e);
    EdgeNamesChild(rollouts, a, e);
  }

  /** So a row whose native thread is never a child shares its root turn with no other row's child turns. */
  lemma NeverChildIsNoEvidence(rollouts: seq<Rollout>, price: Pricer, sessions: seq<RepairSession>, row: RepairRow, row': RepairRow)
    requires WellKeyed(rollouts) && row in PlanRows(rollouts, price, sessions) && row' in PlanRows(rollouts, price, sessions)
    requires NeverChild(rollouts, row.providerSessionId)
    ensures row.root !in row'.childKeys
  {
    var s, i := PlannedRowHasOrigin(rollouts, price, sessions, row);
    var s', j := PlannedRowHasOrigin(rollouts, price, sessions, row');
    var root, root' := RootIsChildExactly(rollouts, price, s, i, row, s', j, row');
    if Reachable(rollouts, RepairSelector, root', root) {
      ReachedIsNamed(rollouts, root', root);
    }
  }

  // ----- accounting ---------------------------------------------------------------------------

  function QueryIdOf(row: RepairRow): nat {
    row.query.id
  }

  lemma JudgedNamesQueries(rollouts: seq<Rollout>, price: Pricer, sessions: seq<RepairSession>)
    ensures NamesQueries(AllJudged(rollouts, price, sessions), QueryIdOf)
  {
    var js := AllJudged(rollouts, price, sessions);
    forall k | 0 <= k < |js| && js[k].verdict.Planned? ensures QueryIdOf(js[k].verdict.row) == js[k].queryId {
      var s, i := JudgedHasOrigin(rollouts, price, sessions, k);
      var _ := RowHasRoot(rollouts, price, s, i, js[k].verdict.row);
    }
  }

  /** The ids of queries judged before and in a session. */
  lemma {:induction false} JudgedQueriesDiffer(rollouts: seq<Rollout>, price: Pricer, sessions: seq<RepairSession>)
    requires WellStored(sessions)
    ensures DistinctQueries(AllJudged(rollouts, price, sessions))
  {
    if sessions != [] {
      var init, last := sessions[..|sessions| - 1], sessions[|sessions| - 1];
      assert sessions == init + [last];
      assert last in sessions && last !in init;
      JudgedQueriesDiffer(rollouts, price, init);
      var before, more := AllJudged(rollouts, price, init), JudgedSession(rollouts, price, last);
      forall b | 0 <= b < |more| ensures more[b].queryId == last.queries[b].id { JudgedAt(rollouts, price, last, b); }
      forall a, b | 0 <= a < |before| && 0 <= b < |more| ensures before[a].queryId != more[b].queryId {
        var s, i := JudgedHasOrigin(rollouts, price, init, a);
      }
      DistinctAppend(before, more);
    }
  }

  lemma DistinctAppend(before: seq<Judged<RepairRow, Reason>>, more: seq<Judged<RepairRow, Reason>>)
    requires DistinctQueries(before) && DistinctQueries(more)
    requires forall a, b :: 0 <= a < |before| && 0 <= b < |more| ==> before[a].queryId != more[b].queryId
    ensures DistinctQueries(before + more)
  {
  }

  lemma {:induction false} CollidedRows(rows: seq<RepairRow>, n: nat, u: Report)
    requires n <= |rows|
    ensures u in Collided(rows, n)
       <==> exists i :: 0 <= i < n && Contested(KidsOf(rows), i) && u == Unresolved(rows[i].query.id, UnrecoverableChild)
  {
    if n > 0 { CollidedRows(rows, n - 1, u); }
  }

  ghost predicate IsRepaired(safe: seq<RepairRow>, id: nat) {
    exists row :: row in safe && row.query.id == id
  }

  ghost predicate IsReported(reports: seq<Report>, id: nat) {
    exists u :: u in reports && u.queryId == id
  }

  lemma RejectedIsReported(js: seq<Judged<RepairRow, Reason>>, k: nat)
    requires DistinctQueries(js) && NamesQueries(js, QueryIdOf) && k < |js| && js[k].verdict.Rejected?
    ensures IsReported(ReportsIn(js), js[k].queryId)
    ensures forall row :: row in RowsIn(js) ==> row.query.id != js[k].queryId
  {
    var u := Unresolved(js[k].queryId, js[k].verdict.reason);
    ReportsAre(js, u);
    assert u in ReportsIn(js);
    forall row | row in RowsIn(js) ensures row.query.id != js[k].queryId {
      RowsAre(js, row);
      var i :| 0 <= i < |js| && js[i].verdict == Planned(row);
      assert QueryIdOf(row) == js[i].queryId;
    }
  }

  lemma PlannedIsNotRejected(js: seq<Judged<RepairRow, Reason>>, k: nat)
    requires DistinctQueries(js) && k < |js| && js[k].verdict.Planned?
    ensures !IsReported(ReportsIn(js), js[k].queryId)
  {
    forall u | u in ReportsIn(js) ensures u.queryId != js[k].queryId {
      ReportsAre(js, u);
    }
  }

  /** A planned row stands at one place of the list: it is kept if it is uncontested there, and
      reported if not. */
  lemma PlannedIsKeptOrReported(rows: seq<RepairRow>, a: nat)
    requires a < |rows| && forall b :: 0 <= b < |rows| && rows[b].query.id == rows[a].query.id ==> b == a
    ensures IsRepaired(Safe(rows, |rows|), rows[a].query.id) <==> !Contested(KidsOf(rows), a)
    ensures IsReported(Collided(rows, |rows|), rows[a].query.id) <==> Contested(KidsOf(rows), a)
  {
    var id := rows[a].query.id;
    SafeRows(rows, |rows|, rows[a]);
    forall row | row in Safe(rows, |rows|) && row.query.id == id ensures !Contested(KidsOf(rows), a) { SafeRows(rows, |rows|, row); }
    CollidedRows(rows, |rows|, Unresolved(id, UnrecoverableChild));
    forall u | u in Collided(rows, |rows|) && u.queryId == id ensures Contested(KidsOf(rows), a) { CollidedRows(rows, |rows|, u); }
  }

  lemma PlaceIsUnique(js: seq<Judged<RepairRow, Reason>>, row: RepairRow) returns (a: nat)
    requires DistinctQueries(js) && NamesQueries(js, QueryIdOf) && row in RowsIn(js)
    ensures a < |RowsIn(js)| && RowsIn(js)[a] == row
    ensures forall b :: 0 <= b < |RowsIn(js)| && RowsIn(js)[b].query.id == row.query.id ==> b == a
  {
    var rows := RowsIn(js);
    a :| 0 <= a < |rows| && rows[a] == row;
    forall b | 0 <= b < |rows| && rows[b].query.id == row.query.id ensures b == a {
      if a < b { RowsDiffer(js, QueryIdOf, a, b); }
      if b < a { RowsDiffer(js, QueryIdOf, b, a); }
    }
  }

  lemma ReportedInEither(xs: seq<Report>, ys: seq<Report>, id: nat)
    ensures IsReported(xs + ys, id) <==> IsReported(xs, id) || IsReported(ys, id)
  {
  }

  lemma NotCollided(rows: seq<RepairRow>, id: nat)
    requires forall row :: row in rows ==> row.query.id != id
    ensures !IsReported(Collided(rows, |rows|), id) && !IsRepaired(Safe(rows, |rows|), id)
  {
    forall u | u in Collided(rows, |rows|) ensures u.queryId != id {
      CollidedRows(rows, |rows|, u);
    }
    forall row | row in Safe(rows, |rows|) ensures row.query.id != id {
      SafeRows(rows, |rows|, row);
    }
  }

  /** What the list of verdicts makes of one query: a kept row or a report. */
  lemma VerdictIsAccounted(js: seq<Judged<RepairRow, Reason>>, k: nat)
    requires DistinctQueries(js) && NamesQueries(js, QueryIdOf) && k < |js| && !js[k].verdict.Clean?
    ensures var rows := RowsIn(js);
            IsReported(ReportsIn(js) + Collided(rows, |rows|), js[k].queryId) <==> !IsRepaired(Safe(rows, |rows|), js[k].queryId)
  {
    var rows, id := RowsIn(js), js[k].queryId;
    ReportedInEither(ReportsIn(js), Collided(rows, |rows|), id);
    if js[k].verdict.Rejected? {
      RejectedIsReported(js, k);
      NotCollided(rows, id);
    } else {
      PlannedIsNotRejected(js, k);
      RowsAre(js, js[k].verdict.row);
      var a := PlaceIsUnique(js, js[k].verdict.row);
      assert QueryIdOf(js[k].verdict.row) == id;
      PlannedIsKeptOrReported(rows, a);
    }
  }

  lemma NoQueryIsClean(rollouts: seq<Rollout>, price: Pricer, s: RepairSession, i: nat)
    requires i < |s.queries|
    ensures !Judge(rollouts, price, s, i).Clean?
  {
  }

  /** Every stored query is either repaired by the plan or reported as unresolved, never both. */
  lemma QueriesAreAccounted(rollouts: seq<Rollout>, price: Pricer, sessions: seq<RepairSession>, s: RepairSession, i: nat)
    requires WellStored(sessions) && s in sessions && i < |s.queries|
    ensures IsReported(PlanReports(rollouts, price, sessions), s.queries[i].id)
       <==> !IsRepaired(PlanRows(rollouts, price, sessions), s.queries[i].id)
  {
    JudgedNamesQueries(rollouts, price, sessions);
    JudgedQueriesDiffer(rollouts, price, sessions);
    NoQueryIsClean(rollouts, price, s, i);
    var k := QueryIsJudged(rollouts, price, sessions, s, i);
    VerdictIsAccounted(AllJudged(rollouts, price, sessions), k);
  }

  /** Planned rows name a query and the ledger row that mirrors it, in the session they repair. */
  lemma PlannedRowsMirror(rollouts: seq<Rollout>, price: Pricer, sessions: seq<RepairSession>, row: RepairRow)
    requires WellStored(sessions) && row in PlanRows(rollouts, price, sessions)
    ensures row.query.session == row.sessionId && row.usageQuery.session == Some(row.sessionId)
    ensures row.usageQuery.timestamp == row.query.timestamp && row.usageQuery.usage == row.query.usage
    ensures row.usageQuery.cost == row.query.cost && row.usageQuery.costKnown == row.query.costKnown && row.usageQuery.turns == row.query.turns
    ensures NumberEqual(row.query.estimatedCost, row.usageQuery.estimatedCost)
  {
    var s, i := PlannedRowHasOrigin(rollouts, price, sessions, row);
    var _ := RowHasRoot(rollouts, price, s, i, row);
    assert RowsMirror(s.queries[i], s.ledger[i]);
  }

  // ----- two sessions on one thread ---------------------------------------------------------------

  const SHARED_TURN := Turn("t", 10000, Some(20000), Completed, [], Usage(1, 0, 0, 0), NO_USAGE)
  const SHARED := Rollout("thread", None, None, 10000, [SHARED_TURN])

  function SharedQuery(id: nat, session: string): StoredQuery {
    StoredQuery(id, session, 20.0, 0.0, None, 0, Usage(1, 0, 0, 0), 1, None, None)
  }

  function SharedSession(id: nat, session: string): RepairSession {
    var q := SharedQuery(id, session);
    RepairSession(session, Some("thread"), 10.0, None, [q],
                  [StoredUsageQuery(id, Some(session), 20.0, 0.0, None, 0, 1, Usage(1, 0, 0, 0), 1, "codex")], {})
  }

  lemma SomeElement(ids: seq<string>)
    requires ids != []
    ensures exists id :: id in ids
  {
    assert ids[0] in ids;
  }

  lemma SharedTurnIsAlone()
    ensures Expand([SHARED], RepairSelector, Evidence(SHARED, SHARED_TURN)) == Work([], [], [], [], true)
  {
    var ids := DirectChildIds([SHARED], "thread", SHARED_TURN);
    if ids != [] { SomeElement(ids); }
    assert PendingsOf([SHARED], Evidence(SHARED, SHARED_TURN)) == [];
  }

  lemma SharedCandidate()
    ensures CandidatesIn(8.0, 20.0, SHARED.turns) == [SHARED_TURN]
  {
    assert InWindow(8.0, 20.0, SHARED_TURN);
    assert SHARED.turns[..0] == [];
  }

  /** A childless turn explains exactly its own usage. */
  lemma ChildlessConfidence(root: Evidence)
    ensures ConfidenceIn(root.turn.usage, root, []) == Some(LegacyRoot)
  {
    assert [root] + [] == [root];
    assert [root][..0] == [];
    assert FullUsage([root]) == FullUsage([root][..0]).Plus(root.turn.usage);
  }

  lemma SharedSessionPlans(price: Pricer, id: nat, session: string) returns (row: RepairRow)
    ensures RowFrom([SHARED], price, SharedSession(id, session), 0, row)
    ensures row.root == TurnRef("thread", "t") && row.query.id == id && row.childKeys == []
  {
    var s, root := SharedSession(id, session), Evidence(SHARED, SHARED_TURN);
    SharedTurnIsAlone();
    SharedCandidate();
    ChildlessConfidence(root);
    assert Lookup([SHARED], "thread") == Some(SHARED);
    assert SessionReason([SHARED], s) == None;
    row := RowFor(price, s, 0, root, Work([], [], [], [], true), LegacyRoot);
    assert JudgeCandidate([SHARED], price, s, 0, root) == Planned(row);
  }

  lemma OneQueryEachIsStored(a: RepairSession, b: RepairSession)
    requires a.id != b.id && |a.queries| == 1 && |b.queries| == 1 && a.queries[0].id != b.queries[0].id
    requires a.queries[0].session == a.id && b.queries[0].session == b.id
    ensures WellStored([a, b])
  {
  }

  lemma UncontestedRowsAreSafe(row: RepairRow, row': RepairRow)
    requires row.childKeys == [] && row'.childKeys == []
    ensures row in Safe([row, row'], 2) && row' in Safe([row, row'], 2)
  {
    var rows := [row, row'];
    assert rows[0] == row && rows[1] == row';
    assert !Contested(KidsOf(rows), 0) && !Contested(KidsOf(rows), 1);
    SafeRows(rows, 2, row);
    SafeRows(rows, 2, row');
  }

  lemma OneQueryEachMakesTwoRows(rollouts: seq<Rollout>, price: Pricer, a: RepairSession, b: RepairSession, row: RepairRow, row': RepairRow)
    requires |a.queries| == 1 && |b.queries| == 1
    requires RowFrom(rollouts, price, a, 0, row) && RowFrom(rollouts, price, b, 0, row')
    ensures RowsIn(AllJudged(rollouts, price, [a, b])) == [row, row']
  {
    assert [a, b][..1] == [a];
    assert [a][..0] == [];
    JudgedAt(rollouts, price, a, 0);
    JudgedAt(rollouts, price, b, 0);
    assert AllJudged(rollouts, price, [a]) == [] + JudgedSession(rollouts, price, a);
    TwoRows(AllJudged(rollouts, price, [a, b]), row, row');
  }

  /** Two sessions that claim the same native thread can each be repaired from its one turn. */
  lemma SharedThreadBacksTwoRows(price: Pricer) returns (row: RepairRow, row': RepairRow)
    ensures var sessions := [SharedSession(1, "a"), SharedSession(2, "b")];
            && WellKeyed([SHARED]) && WellStored(sessions)
            && row in PlanRows([SHARED], price, sessions) && row' in PlanRows([SHARED], price, sessions)
    ensures row.root == row'.root && row != row'
  {
    row := SharedSessionPlans(price, 1, "a");
    row' := SharedSessionPlans(price, 2, "b");
    OneQueryEachIsStored(SharedSession(1, "a"), SharedSession(2, "b"));
    UncontestedRowsAreSafe(row, row');
    OneQueryEachMakesTwoRows([SHARED], price, SharedSession(1, "a"), SharedSession(2, "b"), row, row');
  }
}
