/**
 The child turns of one owner turn: a worklist over a graph of rollouts that may contain
 cycles. Whatever pending child is taken next, the walk ends with the reachable turns.
 */
module RolloutGraph {
  import opened Wrappers
  import opened Rollouts

  /** The two selections the callers use: usage repair and history import. */
  datatype Selector = RepairSelector | ImportSelector

  datatype Pending = Pending(id: string, startMs: int, endMs: int)

  predicate IsTerminal(t: Turn) {
    t.terminal != Open && t.endedAtMs.Some?
  }

  predicate Selects(s: Selector, t: Turn, p: Pending) {
    && t.endedAtMs.Some?
    && p.startMs - 1000 <= t.startedAtMs <= p.endMs + 1000
    && match s
       case RepairSelector => t.terminal == Completed
       case ImportSelector => t.terminal != Open && t.endedAtMs.value <= p.endMs
  }

  function SelectFrom(s: Selector, turns: seq<Turn>, p: Pending): (r: seq<Turn>)
    ensures forall t :: t in r <==> t in turns && Selects(s, t, p)
  {
    if turns == [] then []
    else
      var last := turns[|turns| - 1];
      assert turns == turns[..|turns| - 1] + [last];
      SelectFrom(s, turns[..|turns| - 1], p) + if Selects(s, last, p) then [last] else []
  }

  /** An empty selection is still exact for the import when the child has some terminal turn. */
  predicate SelectionExact(s: Selector, r: Rollout) {
    s == ImportSelector && exists t :: t in r.turns && IsTerminal(t)
  }

  // ----- direct children ----------------------------------------------------------------

  function ChildrenOf(rollouts: seq<Rollout>, parent: string): (r: seq<string>)
    ensures forall id :: id in r <==> exists x :: x in rollouts && x.threadId == id && x.parentThreadId == Some(parent)
  {
    if rollouts == [] then []
    else
      var last := rollouts[|rollouts| - 1];
      assert rollouts == rollouts[..|rollouts| - 1] + [last];
      ChildrenOf(rollouts[..|rollouts| - 1], parent) + if last.parentThreadId == Some(parent) then [last.threadId] else []
  }

  method CodexChildrenByParent(rollouts: seq<Rollout>) returns (children: map<string, seq<string>>)
    ensures forall parent :: (if parent in children then children[parent] else []) == ChildrenOf(rollouts, parent)
  {
    children := map[];
    for i := 0 to |rollouts|
      invariant forall parent ::
                  (if parent in children then children[parent] else []) == ChildrenOf(rollouts[..i], parent)
    {
      ghost var before := children;
      assert rollouts[..i + 1][..i] == rollouts[..i];
      match rollouts[i].parentThreadId
      case None =>
      case Some(parent) =>
        var ids := if parent in children then children[parent] else [];
        children := children[parent := ids + [rollouts[i].threadId]];
    }
    assert rollouts[..|rollouts|] == rollouts;
  }

  predicate CreatedDuring(rollouts: seq<Rollout>, id: string, turn: Turn)
    requires turn.endedAtMs.Some?
  {
    var child := Lookup(rollouts, id);
    && child.Some?
    && turn.startedAtMs - 1000 <= child.value.createdAtMs <= turn.endedAtMs.value + 1000
  }

  /** A set of ids in insertion order. */
  function AddNew(ids: seq<string>, id: string): seq<string> {
    if id in ids then ids else ids + [id]
  }

  function AddCreated(ids: seq<string>, rollouts: seq<Rollout>, candidates: seq<string>, turn: Turn): (r: seq<string>)
    requires turn.endedAtMs.Some?
    ensures forall id :: id in r <==> id in ids || (id in candidates && CreatedDuring(rollouts, id, turn))
  {
    if candidates == [] then ids
    else
      var last := candidates[|candidates| - 1];
      assert candidates == candidates[..|candidates| - 1] + [last];
      var rest := AddCreated(ids, rollouts, candidates[..|candidates| - 1], turn);
      if CreatedDuring(rollouts, last, turn) then AddNew(rest, last) else rest
  }

  function DirectChildIds(rollouts: seq<Rollout>, thread: string, turn: Turn): seq<string>
    requires turn.endedAtMs.Some?
  {
    AddCreated(turn.childIds, rollouts, ChildrenOf(rollouts, thread), turn)
  }

  method CodexDirectChildIds(rollouts: seq<Rollout>, children: map<string, seq<string>>, thread: string, turn: Turn)
    returns (ids: seq<string>)
    requires turn.endedAtMs.Some?
    requires (if thread in children then children[thread] else []) == ChildrenOf(rollouts, thread)
    ensures ids == DirectChildIds(rollouts, thread, turn)
  {
    ids := turn.childIds;
    var candidates := if thread in children then children[thread] else [];
    for i := 0 to |candidates|
      invariant ids == AddCreated(turn.childIds, rollouts, candidates[..i], turn)
    {
      assert candidates[..i + 1][..i] == candidates[..i];
      var child := Lookup(rollouts, candidates[i]);
      if child.Some? && turn.startedAtMs - 1000 <= child.value.createdAtMs <= turn.endedAtMs.value + 1000 {
        ids := AddNew(ids, candidates[i]);
      }
    }
    assert candidates[..|candidates|] == candidates;
  }

  function PendingsFor(ids: seq<string>, turn: Turn): seq<Pending>
    requires turn.endedAtMs.Some?
  {
    seq(|ids|, i requires 0 <= i < |ids| => Pending(ids[i], turn.startedAtMs, turn.endedAtMs.value))
  }

  function PendingsOf(rollouts: seq<Rollout>, e: Evidence): seq<Pending>
    requires e.turn.endedAtMs.Some?
  {
    PendingsFor(DirectChildIds(rollouts, e.rollout.threadId, e.turn), e.turn)
  }

  // ----- reachability -------------------------------------------------------------------

  /** One turn starts another: the child thread was named or created during the turn, and the
      selection picks the child's turn for the parent's time window. */
  ghost predicate Edge(rollouts: seq<Rollout>, s: Selector, a: Evidence, b: Evidence) {
    && a.turn.endedAtMs.Some?
    && b.rollout.threadId in DirectChildIds(rollouts, a.rollout.threadId, a.turn)
    && Lookup(rollouts, b.rollout.threadId) == Some(b.rollout)
    && b.turn in b.rollout.turns
    && Selects(s, b.turn, Pending(b.rollout.threadId, a.turn.startedAtMs, a.turn.endedAtMs.value))
  }

  ghost predicate IsPath(rollouts: seq<Rollout>, s: Selector, path: seq<Evidence>) {
    forall i :: 0 <= i < |path| - 1 ==> Edge(rollouts, s, path[i], path[i + 1])
  }

  ghost predicate Reachable(rollouts: seq<Rollout>, s: Selector, owner: Evidence, e: Evidence) {
    exists path :: |path| >= 2 && path[0] == owner && path[|path| - 1] == e && IsPath(rollouts, s, path)
  }

  /** A direct child of this turn has no rollout, or an empty selection that is not exact. */
  ghost predicate LosesChild(rollouts: seq<Rollout>, s: Selector, a: Evidence) {
    && a.turn.endedAtMs.Some?
    && exists p :: p in PendingsOf(rollouts, a) && Unrecoverable(rollouts, s, p)
  }

  predicate Unrecoverable(rollouts: seq<Rollout>, s: Selector, p: Pending) {
    match Lookup(rollouts, p.id)
    case None => true
    case Some(r) => SelectFrom(s, r.turns, p) == [] && !SelectionExact(s, r)
  }

  /** The expansion is exact when neither the owner nor a reached turn loses a child. */
  ghost predicate ExpansionExact(rollouts: seq<Rollout>, s: Selector, owner: Evidence) {
    && !LosesChild(rollouts, s, owner)
    && forall e :: Reachable(rollouts, s, owner, e) ==> !LosesChild(rollouts, s, e)
  }

  lemma EdgeReaches(rollouts: seq<Rollout>, s: Selector, owner: Evidence, a: Evidence, b: Evidence)
    requires a == owner || Reachable(rollouts, s, owner, a)
    requires Edge(rollouts, s, a, b)
    ensures Reachable(rollouts, s, owner, b)
  {
    if a == owner {
      var path := [owner, b];
      assert IsPath(rollouts, s, path);
    } else {
      var path :| |path| >= 2 && path[0] == owner && path[|path| - 1] == a && IsPath(rollouts, s, path);
      var longer := path + [b];
      assert IsPath(rollouts, s, longer);
      assert longer[|longer| - 1] == b;
    }
  }

  /** A set of turns that contains every edge target of the owner and of its own members contains
      everything reachable. */
  lemma {:induction false} ClosedContainsReachable(rollouts: seq<Rollout>, s: Selector, owner: Evidence,
                                                   turns: seq<Evidence>, path: seq<Evidence>)
    requires |path| >= 2 && path[0] == owner && IsPath(rollouts, s, path)
    requires forall a, b :: (a == owner || a in turns) && Edge(rollouts, s, a, b) ==> b in turns
    ensures path[|path| - 1] in turns
  {
    var a, b := path[|path| - 2], path[|path| - 1];
    assert Edge(rollouts, s, path[|path| - 2], path[|path| - 2 + 1]);
    if |path| > 2 {
      assert IsPath(rollouts, s, path[..|path| - 1]);
      ClosedContainsReachable(rollouts, s, owner, turns, path[..|path| - 1]);
    }
  }

  // ----- the worklist -------------------------------------------------------------------

  datatype Work = Work(queue: seq<Pending>, turns: seq<Evidence>, threads: seq<string>, keys: seq<TurnRef>, exact: bool)

  function TakeTurn(rollouts: seq<Rollout>, w: Work, e: Evidence): Work
    requires e.turn.endedAtMs.Some?
  {
    if e.Key() in w.keys then w
    else w.(keys := w.keys + [e.Key()], turns := w.turns + [e], queue := w.queue + PendingsOf(rollouts, e))
  }

  function TakeTurns(rollouts: seq<Rollout>, w: Work, r: Rollout, turns: seq<Turn>): Work
    requires forall t :: t in turns ==> t.endedAtMs.Some?
  {
    if turns == [] then w
    else TakeTurn(rollouts, TakeTurns(rollouts, w, r, turns[..|turns| - 1]), Evidence(r, turns[|turns| - 1]))
  }

  /** Process a pending child that was taken off the queue. */
  function Process(rollouts: seq<Rollout>, s: Selector, w: Work, p: Pending): Work {
    match Lookup(rollouts, p.id)
    case None => w.(exact := false)
    case Some(r) =>
      var selection := SelectFrom(s, r.turns, p);
      if selection == [] then
        if SelectionExact(s, r) then w else w.(exact := false)
      else TakeTurns(rollouts, w.(threads := AddNew(w.threads, r.threadId)), r, selection)
  }

  function Without(queue: seq<Pending>, i: nat): seq<Pending>
    requires i < |queue|
  {
    queue[..i] + queue[i + 1..]
  }

  function StepAt(rollouts: seq<Rollout>, s: Selector, w: Work, i: nat): Work
    requires i < |w.queue|
  {
    Process(rollouts, s, w.(queue := Without(w.queue, i)), w.queue[i])
  }

  function Start(rollouts: seq<Rollout>, owner: Evidence): Work
    requires owner.turn.endedAtMs.Some?
  {
    Work(PendingsOf(rollouts, owner), [], [], [], true)
  }

  // ----- what every step keeps ------------------------------------------------------------

  ghost predicate IsSource(owner: Evidence, w: Work, a: Evidence) {
    (a == owner || a in w.turns) && a.turn.endedAtMs.Some?
  }

  /** The owner or a taken turn asked for this child. */
  ghost predicate Raised(rollouts: seq<Rollout>, owner: Evidence, w: Work, p: Pending) {
    exists a :: IsSource(owner, w, a) && p in PendingsOf(rollouts, a)
  }

  /** A processed child left its trace: its turns are taken, or the result is no longer exact. */
  ghost predicate Handled(rollouts: seq<Rollout>, s: Selector, w: Work, p: Pending) {
    match Lookup(rollouts, p.id)
    case None => !w.exact
    case Some(r) =>
      && (Unrecoverable(rollouts, s, p) ==> !w.exact)
      && forall t :: t in r.turns && Selects(s, t, p) ==> Evidence(r, t).Key() in w.keys
  }

  ghost predicate TurnsSound(rollouts: seq<Rollout>, s: Selector, owner: Evidence, w: Work) {
    && |w.keys| == |w.turns|
    && (forall i :: 0 <= i < |w.turns| ==> w.keys[i] == w.turns[i].Key())
    && (forall i, j :: 0 <= i < j < |w.keys| ==> w.keys[i] != w.keys[j])
    && (forall i :: 0 <= i < |w.turns| ==>
          w.turns[i].turn.endedAtMs.Some? && w.turns[i].rollout in rollouts
          && w.turns[i].turn in w.turns[i].rollout.turns
          && Reachable(rollouts, s, owner, w.turns[i]))
  }

  ghost predicate ThreadsSound(w: Work) {
    && (forall i, j :: 0 <= i < j < |w.threads| ==> w.threads[i] != w.threads[j])
    && (forall id :: id in w.threads <==> exists k :: k in w.keys && k.thread == id)
  }

  ghost predicate QueueSound(rollouts: seq<Rollout>, owner: Evidence, w: Work) {
    forall p :: p in w.queue ==> Raised(rollouts, owner, w, p)
  }

  /** Every child asked for is still queued or was handled; `taken` may be in progress. */
  ghost predicate Complete(rollouts: seq<Rollout>, s: Selector, owner: Evidence, w: Work, taken: Option<Pending>) {
    forall p :: Raised(rollouts, owner, w, p) ==> Some(p) == taken || p in w.queue || Handled(rollouts, s, w, p)
  }

  ghost predicate InexactForCause(rollouts: seq<Rollout>, s: Selector, owner: Evidence, w: Work) {
    !w.exact ==> exists a :: IsSource(owner, w, a) && LosesChild(rollouts, s, a)
  }

  ghost predicate WorkSound(rollouts: seq<Rollout>, s: Selector, owner: Evidence, w: Work, taken: Option<Pending>) {
    && owner.turn.endedAtMs.Some?
    && TurnsSound(rollouts, s, owner, w)
    && QueueSound(rollouts, owner, w)
    && Complete(rollouts, s, owner, w, taken)
    && InexactForCause(rollouts, s, owner, w)
  }

  lemma StartIsSound(rollouts: seq<Rollout>, s: Selector, owner: Evidence)
    requires owner.turn.endedAtMs.Some?
    ensures WorkSound(rollouts, s, owner, Start(rollouts, owner), None)
    ensures ThreadsSound(Start(rollouts, owner))
  {
    var w := Start(rollouts, owner);
    forall p | p in w.queue ensures Raised(rollouts, owner, w, p) {
      assert IsSource(owner, w, owner);
    }
  }

  /** The turns selected for a child that was asked for are reachable. */
  lemma SelectedIsReachable(rollouts: seq<Rollout>, s: Selector, owner: Evidence, w: Work, p: Pending, r: Rollout, t: Turn)
    requires TurnsSound(rollouts, s, owner, w) && Raised(rollouts, owner, w, p)
    requires Lookup(rollouts, p.id) == Some(r) && t in r.turns && Selects(s, t, p)
    ensures Reachable(rollouts, s, owner, Evidence(r, t))
  {
    var a :| IsSource(owner, w, a) && p in PendingsOf(rollouts, a);
    var ids := DirectChildIds(rollouts, a.rollout.threadId, a.turn);
    var i :| 0 <= i < |ids| && PendingsOf(rollouts, a)[i] == p;
    assert ids[i] in ids;
    assert Edge(rollouts, s, a, Evidence(r, t));
    EdgeReaches(rollouts, s, owner, a, Evidence(r, t));
  }

  lemma RaisedGrows(rollouts: seq<Rollout>, owner: Evidence, w: Work, w': Work, p: Pending)
    requires Raised(rollouts, owner, w, p)
    requires forall e :: e in w.turns ==> e in w'.turns
    ensures Raised(rollouts, owner, w', p)
  {
    var a :| IsSource(owner, w, a) && p in PendingsOf(rollouts, a);
    assert IsSource(owner, w', a);
  }

  lemma TakeTurnKeepsComplete(rollouts: seq<Rollout>, s: Selector, owner: Evidence, w: Work, p: Pending, e: Evidence)
    requires Complete(rollouts, s, owner, w, Some(p)) && e.turn.endedAtMs.Some?
    ensures Complete(rollouts, s, owner, TakeTurn(rollouts, w, e), Some(p))
  {
    var w' := TakeTurn(rollouts, w, e);
    forall q | Raised(rollouts, owner, w', q)
      ensures Some(q) == Some(p) || q in w'.queue || Handled(rollouts, s, w', q)
    {
      var a :| IsSource(owner, w', a) && q in PendingsOf(rollouts, a);
      if IsSource(owner, w, a) {
        assert Raised(rollouts, owner, w, q);
      }
    }
  }

  lemma TakeTurnKeepsTurns(rollouts: seq<Rollout>, s: Selector, owner: Evidence, w: Work, e: Evidence)
    requires TurnsSound(rollouts, s, owner, w)
    requires e.turn.endedAtMs.Some? && e.rollout in rollouts && e.turn in e.rollout.turns
    requires Reachable(rollouts, s, owner, e)
    ensures TurnsSound(rollouts, s, owner, TakeTurn(rollouts, w, e))
  {
  }

  lemma TakeTurnKeepsQueue(rollouts: seq<Rollout>, owner: Evidence, w: Work, e: Evidence)
    requires QueueSound(rollouts, owner, w) && e.turn.endedAtMs.Some?
    ensures QueueSound(rollouts, owner, TakeTurn(rollouts, w, e))
  {
    var w' := TakeTurn(rollouts, w, e);
    forall q | q in w'.queue ensures Raised(rollouts, owner, w', q) {
      if q in w.queue {
        RaisedGrows(rollouts, owner, w, w', q);
      } else {
        assert IsSource(owner, w', e);
      }
    }
  }

  lemma TakeTurnKeepsCause(rollouts: seq<Rollout>, s: Selector, owner: Evidence, w: Work, e: Evidence)
    requires InexactForCause(rollouts, s, owner, w) && e.turn.endedAtMs.Some?
    ensures InexactForCause(rollouts, s, owner, TakeTurn(rollouts, w, e))
  {
    if !w.exact {
      var a :| IsSource(owner, w, a) && LosesChild(rollouts, s, a);
      assert IsSource(owner, TakeTurn(rollouts, w, e), a);
    }
  }

  lemma TakeTurnKeepsSound(rollouts: seq<Rollout>, s: Selector, owner: Evidence, w: Work, p: Pending, r: Rollout, t: Turn)
    requires WorkSound(rollouts, s, owner, w, Some(p)) && Raised(rollouts, owner, w, p)
    requires Lookup(rollouts, p.id) == Some(r) && t in r.turns && Selects(s, t, p)
    ensures WorkSound(rollouts, s, owner, TakeTurn(rollouts, w, Evidence(r, t)), Some(p))
    ensures Raised(rollouts, owner, TakeTurn(rollouts, w, Evidence(r, t)), p)
  {
    var e := Evidence(r, t);
    SelectedIsReachable(rollouts, s, owner, w, p, r, t);
    TakeTurnKeepsTurns(rollouts, s, owner, w, e);
    TakeTurnKeepsQueue(rollouts, owner, w, e);
    TakeTurnKeepsComplete(rollouts, s, owner, w, p, e);
    TakeTurnKeepsCause(rollouts, s, owner, w, e);
    RaisedGrows(rollouts, owner, w, TakeTurn(rollouts, w, e), p);
  }

  lemma {:induction false} TakeTurnsKeepsSound(rollouts: seq<Rollout>, s: Selector, owner: Evidence, w: Work, p: Pending,
                                               r: Rollout, turns: seq<Turn>)
    requires WorkSound(rollouts, s, owner, w, Some(p)) && Raised(rollouts, owner, w, p)
    requires Lookup(rollouts, p.id) == Some(r)
    requires forall t :: t in turns ==> t in r.turns && Selects(s, t, p) && t.endedAtMs.Some?
    ensures WorkSound(rollouts, s, owner, TakeTurns(rollouts, w, r, turns), Some(p))
    ensures Raised(rollouts, owner, TakeTurns(rollouts, w, r, turns), p)
  {
    if turns != [] {
      var init, last := turns[..|turns| - 1], turns[|turns| - 1];
      assert forall t :: t in init ==> t in turns;
      assert last in turns;
      TakeTurnsKeepsSound(rollouts, s, owner, w, p, r, init);
      TakeTurnKeepsSound(rollouts, s, owner, TakeTurns(rollouts, w, r, init), p, r, last);
    }
  }

  lemma {:induction false} TakeTurnsTakes(rollouts: seq<Rollout>, w: Work, r: Rollout, turns: seq<Turn>)
    requires forall t :: t in turns ==> t.endedAtMs.Some?
    ensures forall t :: t in turns ==> Evidence(r, t).Key() in TakeTurns(rollouts, w, r, turns).keys
    ensures w.keys <= TakeTurns(rollouts, w, r, turns).keys
    ensures w.exact == TakeTurns(rollouts, w, r, turns).exact
    ensures w.threads == TakeTurns(rollouts, w, r, turns).threads
  {
    if turns != [] {
      var init, last := turns[..|turns| - 1], turns[|turns| - 1];
      assert turns == init + [last];
      TakeTurnsTakes(rollouts, w, r, init);
    }
  }

  /** A child whose trace is left stays handled and nothing else is in progress. */
  lemma FinishChild(rollouts: seq<Rollout>, s: Selector, owner: Evidence, w: Work, p: Pending)
    requires WorkSound(rollouts, s, owner, w, Some(p)) && Handled(rollouts, s, w, p)
    ensures WorkSound(rollouts, s, owner, w, None)
  {
  }

  lemma LostChildIsCause(rollouts: seq<Rollout>, s: Selector, owner: Evidence, w: Work, p: Pending)
    requires Raised(rollouts, owner, w, p) && Unrecoverable(rollouts, s, p)
    ensures InexactForCause(rollouts, s, owner, w.(exact := false))
  {
    var a :| IsSource(owner, w, a) && p in PendingsOf(rollouts, a);
    assert IsSource(owner, w.(exact := false), a) && LosesChild(rollouts, s, a);
  }

  /** Dropping the exact flag, or noting a thread, disturbs nothing. */
  lemma FlagKeepsSound(rollouts: seq<Rollout>, s: Selector, owner: Evidence, w: Work, w': Work, p: Pending)
    requires WorkSound(rollouts, s, owner, w, Some(p))
    requires w' == w.(exact := w'.exact, threads := w'.threads) && (w'.exact ==> w.exact)
    requires InexactForCause(rollouts, s, owner, w')
    ensures WorkSound(rollouts, s, owner, w', Some(p))
    ensures forall q :: Raised(rollouts, owner, w, q) <==> Raised(rollouts, owner, w', q)
  {
    forall q ensures Raised(rollouts, owner, w, q) <==> Raised(rollouts, owner, w', q) {
      if Raised(rollouts, owner, w', q) {
        var a :| IsSource(owner, w', a) && q in PendingsOf(rollouts, a);
        assert IsSource(owner, w, a);
      }
      if Raised(rollouts, owner, w, q) {
        RaisedGrows(rollouts, owner, w, w', q);
      }
    }
    forall q | Raised(rollouts, owner, w', q)
      ensures Some(q) == Some(p) || q in w'.queue || Handled(rollouts, s, w', q)
    {
      assert Raised(rollouts, owner, w, q);
    }
  }

  lemma ProcessKeepsSound(rollouts: seq<Rollout>, s: Selector, owner: Evidence, w: Work, p: Pending)
    requires WorkSound(rollouts, s, owner, w, Some(p)) && Raised(rollouts, owner, w, p)
    ensures WorkSound(rollouts, s, owner, Process(rollouts, s, w, p), None)
  {
    var w' := Process(rollouts, s, w, p);
    if Unrecoverable(rollouts, s, p) {
      LostChildIsCause(rollouts, s, owner, w, p);
      FlagKeepsSound(rollouts, s, owner, w, w.(exact := false), p);
      var empty := SelectNone(rollouts, s, p);
    } else {
      var r := Lookup(rollouts, p.id).value;
      var selection := SelectFrom(s, r.turns, p);
      if selection != [] {
        var noted := w.(threads := AddNew(w.threads, r.threadId));
        NotedKeepsCause(rollouts, s, owner, w, noted.threads);
        FlagKeepsSound(rollouts, s, owner, w, noted, p);
        TakeTurnsKeepsSound(rollouts, s, owner, noted, p, r, selection);
        TakeTurnsTakes(rollouts, noted, r, selection);
      }
    }
    assert Handled(rollouts, s, w', p);
    FinishChild(rollouts, s, owner, w', p);
  }

  lemma NotedKeepsCause(rollouts: seq<Rollout>, s: Selector, owner: Evidence, w: Work, threads: seq<string>)
    requires InexactForCause(rollouts, s, owner, w)
    ensures InexactForCause(rollouts, s, owner, w.(threads := threads))
  {
    if !w.exact {
      var a :| IsSource(owner, w, a) && LosesChild(rollouts, s, a);
      assert IsSource(owner, w.(threads := threads), a);
    }
  }

  /** An unrecoverable child selects nothing. */
  lemma SelectNone(rollouts: seq<Rollout>, s: Selector, p: Pending) returns (ok: bool)
    requires Unrecoverable(rollouts, s, p)
    ensures Lookup(rollouts, p.id).Some? ==>
              forall t :: t in Lookup(rollouts, p.id).value.turns ==> !Selects(s, t, p)
  {
    ok := true;
    if Lookup(rollouts, p.id).Some? {
      var r := Lookup(rollouts, p.id).value;
      forall t | t in r.turns ensures !Selects(s, t, p) {
        assert t !in SelectFrom(s, r.turns, p);
      }
    }
  }

  lemma WithoutKeepsOthers(queue: seq<Pending>, i: nat)
    requires i < |queue|
    ensures forall q :: q in Without(queue, i) ==> q in queue
    ensures forall q :: q in queue ==> q == queue[i] || q in Without(queue, i)
  {
    var rest := Without(queue, i);
    forall q | q in queue ensures q == queue[i] || q in rest {
      var j :| 0 <= j < |queue| && queue[j] == q;
      if j < i { assert rest[j] == q; } else if j > i { assert rest[j - 1] == q; }
    }
  }

  lemma DequeueKeepsSound(rollouts: seq<Rollout>, s: Selector, owner: Evidence, w: Work, i: nat)
    requires WorkSound(rollouts, s, owner, w, None) && i < |w.queue|
    ensures WorkSound(rollouts, s, owner, w.(queue := Without(w.queue, i)), Some(w.queue[i]))
    ensures Raised(rollouts, owner, w.(queue := Without(w.queue, i)), w.queue[i])
  {
    var p := w.queue[i];
    var rest := w.(queue := Without(w.queue, i));
    WithoutKeepsOthers(w.queue, i);
    forall q ensures Raised(rollouts, owner, w, q) <==> Raised(rollouts, owner, rest, q) {
      if Raised(rollouts, owner, w, q) { RaisedGrows(rollouts, owner, w, rest, q); }
      if Raised(rollouts, owner, rest, q) { RaisedGrows(rollouts, owner, rest, w, q); }
    }
    forall q | Raised(rollouts, owner, rest, q)
      ensures Some(q) == Some(p) || q in rest.queue || Handled(rollouts, s, rest, q)
    {
      assert Raised(rollouts, owner, w, q);
    }
    if !rest.exact {
      var a :| IsSource(owner, w, a) && LosesChild(rollouts, s, a);
      assert IsSource(owner, rest, a);
    }
  }

  /** Taking any queued child, not just the first, keeps the worklist sound. */
  lemma StepKeepsSound(rollouts: seq<Rollout>, s: Selector, owner: Evidence, w: Work, i: nat)
    requires WorkSound(rollouts, s, owner, w, None) && i < |w.queue|
    ensures WorkSound(rollouts, s, owner, StepAt(rollouts, s, w, i), None)
  {
    DequeueKeepsSound(rollouts, s, owner, w, i);
    ProcessKeepsSound(rollouts, s, owner, w.(queue := Without(w.queue, i)), w.queue[i]);
  }

  lemma {:induction false} TakeTurnsAddsThread(rollouts: seq<Rollout>, w: Work, r: Rollout, turns: seq<Turn>)
    requires forall t :: t in turns ==> t.endedAtMs.Some?
    ensures forall k :: k in TakeTurns(rollouts, w, r, turns).keys ==> k in w.keys || k.thread == r.threadId
  {
    if turns != [] {
      TakeTurnsAddsThread(rollouts, w, r, turns[..|turns| - 1]);
    }
  }

  /** The listed threads are those of the taken turns, each once. */
  lemma StepKeepsThreads(rollouts: seq<Rollout>, s: Selector, w: Work, i: nat)
    requires ThreadsSound(w) && i < |w.queue|
    ensures ThreadsSound(StepAt(rollouts, s, w, i))
  {
    var rest := w.(queue := Without(w.queue, i));
    var p := w.queue[i];
    var found := Lookup(rollouts, p.id);
    if found.Some? {
      var r := found.value;
      var selection := SelectFrom(s, r.turns, p);
      if selection != [] {
        var noted := rest.(threads := AddNew(rest.threads, r.threadId));
        TakeTurnsTakes(rollouts, noted, r, selection);
        TakeTurnsAddsThread(rollouts, noted, r, selection);
        assert selection[0] in selection;
        assert Evidence(r, selection[0]).Key() in StepAt(rollouts, s, w, i).keys;
        forall k | k in w.keys ensures k in StepAt(rollouts, s, w, i).keys {}
      }
    }
  }

  // ----- termination and the final result -------------------------------------------------

  ghost function KeySet(w: Work): set<TurnRef> {
    set k | k in w.keys
  }

  /** Untaken turns first, queue length second: every step goes down. */
  ghost function Untaken(rollouts: seq<Rollout>, w: Work): nat {
    |TurnRefs(rollouts) - KeySet(w)|
  }

  lemma {:induction false} TakeTurnsProgress(rollouts: seq<Rollout>, w: Work, r: Rollout, turns: seq<Turn>)
    requires r in rollouts
    requires forall t :: t in turns ==> t in r.turns && t.endedAtMs.Some?
    ensures var w' := TakeTurns(rollouts, w, r, turns);
            Untaken(rollouts, w') < Untaken(rollouts, w)
            || (Untaken(rollouts, w') == Untaken(rollouts, w) && w'.queue == w.queue && KeySet(w') == KeySet(w))
  {
    if turns != [] {
      var init, last := turns[..|turns| - 1], turns[|turns| - 1];
      TakeTurnsProgress(rollouts, w, r, init);
      var w1 := TakeTurns(rollouts, w, r, init);
      var k := Evidence(r, last).Key();
      if k !in w1.keys {
        var w2 := TakeTurn(rollouts, w1, Evidence(r, last));
        assert KeySet(w2) == KeySet(w1) + {k};
        assert k in TurnRefs(rollouts);
        assert TurnRefs(rollouts) - KeySet(w2) == TurnRefs(rollouts) - KeySet(w1) - {k};
      }
    }
  }

  /** Whichever child is taken, the walk gets closer to its end. */
  lemma StepTerminates(rollouts: seq<Rollout>, s: Selector, w: Work, i: nat)
    requires i < |w.queue|
    ensures var w' := StepAt(rollouts, s, w, i);
            Untaken(rollouts, w') < Untaken(rollouts, w)
            || (Untaken(rollouts, w') == Untaken(rollouts, w) && |w'.queue| < |w.queue|)
  {
    var rest := w.(queue := Without(w.queue, i));
    var p := w.queue[i];
    assert KeySet(rest) == KeySet(w);
    match Lookup(rollouts, p.id)
    case None => assert KeySet(StepAt(rollouts, s, w, i)) == KeySet(w);
    case Some(r) =>
      var selection := SelectFrom(s, r.turns, p);
      if selection == [] {
        assert KeySet(StepAt(rollouts, s, w, i)) == KeySet(w);
      } else {
        var noted := rest.(threads := AddNew(rest.threads, r.threadId));
        assert KeySet(noted) == KeySet(w);
        TakeTurnsProgress(rollouts, noted, r, selection);
      }
  }

  /** The result the callers rely on: the reachable turns, each once, and the exact flag. */
  ghost predicate ExpandsTo(rollouts: seq<Rollout>, s: Selector, owner: Evidence, w: Work) {
    && (forall e :: e in w.turns <==> Reachable(rollouts, s, owner, e))
    && |w.keys| == |w.turns|
    && (forall i :: 0 <= i < |w.turns| ==> w.keys[i] == w.turns[i].Key())
    && (forall i, j :: 0 <= i < j < |w.keys| ==> w.keys[i] != w.keys[j])
    && (w.exact <==> ExpansionExact(rollouts, s, owner))
  }

  /** The walk that takes queued children first in, first out. */
  ghost function Drain(rollouts: seq<Rollout>, s: Selector, w: Work): Work
    decreases Untaken(rollouts, w), |w.queue|
  {
    if w.queue == [] then w
    else
      StepTerminates(rollouts, s, w, 0);
      Drain(rollouts, s, StepAt(rollouts, s, w, 0))
  }

  ghost function Expand(rollouts: seq<Rollout>, s: Selector, owner: Evidence): Work
    requires owner.turn.endedAtMs.Some?
  {
    Drain(rollouts, s, Start(rollouts, owner))
  }

  ghost predicate WellKeyed(rollouts: seq<Rollout>) {
    DistinctThreads(rollouts) && forall r :: r in rollouts ==> DistinctTurnIds(r)
  }

  lemma EdgeIsRaised(rollouts: seq<Rollout>, s: Selector, owner: Evidence, w: Work, a: Evidence, b: Evidence)
    requires IsSource(owner, w, a) && Edge(rollouts, s, a, b)
    ensures Raised(rollouts, owner, w, Pending(b.rollout.threadId, a.turn.startedAtMs, a.turn.endedAtMs.value))
  {
    var ids := DirectChildIds(rollouts, a.rollout.threadId, a.turn);
    var i :| 0 <= i < |ids| && ids[i] == b.rollout.threadId;
    assert PendingsOf(rollouts, a)[i] == Pending(b.rollout.threadId, a.turn.startedAtMs, a.turn.endedAtMs.value);
  }

  lemma DrainedIsClosed(rollouts: seq<Rollout>, s: Selector, owner: Evidence, w: Work, a: Evidence, b: Evidence)
    requires WellKeyed(rollouts) && WorkSound(rollouts, s, owner, w, None) && w.queue == []
    requires IsSource(owner, w, a) && Edge(rollouts, s, a, b)
    ensures b in w.turns
  {
    var p := Pending(b.rollout.threadId, a.turn.startedAtMs, a.turn.endedAtMs.value);
    EdgeIsRaised(rollouts, s, owner, w, a, b);
    assert Handled(rollouts, s, w, p);
    var i :| 0 <= i < |w.keys| && w.keys[i] == b.Key();
    KeyNamesTurn(rollouts, w.turns[i], b);
  }

  lemma DrainedExpands(rollouts: seq<Rollout>, s: Selector, owner: Evidence, w: Work)
    requires WellKeyed(rollouts) && WorkSound(rollouts, s, owner, w, None) && w.queue == []
    ensures ExpandsTo(rollouts, s, owner, w)
  {
    forall a, b | (a == owner || a in w.turns) && Edge(rollouts, s, a, b) ensures b in w.turns {
      DrainedIsClosed(rollouts, s, owner, w, a, b);
    }
    forall e ensures e in w.turns <==> Reachable(rollouts, s, owner, e) {
      if Reachable(rollouts, s, owner, e) {
        var path :| |path| >= 2 && path[0] == owner && path[|path| - 1] == e && IsPath(rollouts, s, path);
        ClosedContainsReachable(rollouts, s, owner, w.turns, path);
      }
    }
    if w.exact {
      forall a | IsSource(owner, w, a) ensures !LosesChild(rollouts, s, a) {
        forall p | p in PendingsOf(rollouts, a) ensures !Unrecoverable(rollouts, s, p) {
          assert Raised(rollouts, owner, w, p);
          assert Handled(rollouts, s, w, p);
        }
      }
      assert IsSource(owner, w, owner);
    }
  }

  lemma {:induction false} DrainIsSound(rollouts: seq<Rollout>, s: Selector, owner: Evidence, w: Work)
    requires WorkSound(rollouts, s, owner, w, None) && ThreadsSound(w)
    ensures var r := Drain(rollouts, s, w); WorkSound(rollouts, s, owner, r, None) && ThreadsSound(r) && r.queue == []
    decreases Untaken(rollouts, w), |w.queue|
  {
    if w.queue != [] {
      StepTerminates(rollouts, s, w, 0);
      StepKeepsSound(rollouts, s, owner, w, 0);
      StepKeepsThreads(rollouts, s, w, 0);
      DrainIsSound(rollouts, s, owner, StepAt(rollouts, s, w, 0));
    }
  }

  lemma ExpandIsSound(rollouts: seq<Rollout>, s: Selector, owner: Evidence)
    requires owner.turn.endedAtMs.Some?
    ensures var w := Expand(rollouts, s, owner);
            && TurnsSound(rollouts, s, owner, w) && ThreadsSound(w)
            && (WellKeyed(rollouts) ==> ExpandsTo(rollouts, s, owner, w))
  {
    StartIsSound(rollouts, s, owner);
    DrainIsSound(rollouts, s, owner, Start(rollouts, owner));
    if WellKeyed(rollouts) { DrainedExpands(rollouts, s, owner, Expand(rollouts, s, owner)); }
  }

  // ----- any order ------------------------------------------------------------------------

  ghost predicate Steps(rollouts: seq<Rollout>, s: Selector, w: Work, w': Work) {
    exists i :: 0 <= i < |w.queue| && w' == StepAt(rollouts, s, w, i)
  }

  /** A walk that takes queued children in any order. */
  ghost predicate IsWalk(rollouts: seq<Rollout>, s: Selector, owner: Evidence, walk: seq<Work>) {
    && owner.turn.endedAtMs.Some? && |walk| > 0 && walk[0] == Start(rollouts, owner)
    && forall k :: 0 <= k < |walk| - 1 ==> Steps(rollouts, s, walk[k], walk[k + 1])
  }

  function Last(walk: seq<Work>): Work
    requires |walk| > 0
  {
    walk[|walk| - 1]
  }

  lemma {:induction false} WalkKeepsSound(rollouts: seq<Rollout>, s: Selector, owner: Evidence, walk: seq<Work>)
    requires IsWalk(rollouts, s, owner, walk)
    ensures WorkSound(rollouts, s, owner, Last(walk), None)
  {
    if |walk| == 1 {
      StartIsSound(rollouts, s, owner);
    } else {
      var k := |walk| - 2;
      assert Steps(rollouts, s, walk[k], walk[k + 1]);
      WalkKeepsSound(rollouts, s, owner, walk[..k + 1]);
      var i :| 0 <= i < |walk[k].queue| && walk[k + 1] == StepAt(rollouts, s, walk[k], i);
      StepKeepsSound(rollouts, s, owner, walk[k], i);
    }
  }

  function TurnSet(w: Work): set<Evidence> {
    set e | e in w.turns
  }

  /** Two walks that drain the queue in different orders take the same turns and agree on exactness. */
  lemma OrderDoesNotMatter(rollouts: seq<Rollout>, s: Selector, owner: Evidence, walk: seq<Work>, walk': seq<Work>)
    requires WellKeyed(rollouts)
    requires IsWalk(rollouts, s, owner, walk) && IsWalk(rollouts, s, owner, walk')
    requires Last(walk).queue == [] && Last(walk').queue == []
    ensures ExpandsTo(rollouts, s, owner, Last(walk)) && ExpandsTo(rollouts, s, owner, Last(walk'))
    ensures TurnSet(Last(walk)) == TurnSet(Last(walk'))
    ensures Last(walk).exact == Last(walk').exact
  {
    WalkKeepsSound(rollouts, s, owner, walk);
    WalkKeepsSound(rollouts, s, owner, walk');
    DrainedExpands(rollouts, s, owner, Last(walk));
    DrainedExpands(rollouts, s, owner, Last(walk'));
  }

  // ----- the walk as it runs ----------------------------------------------------------------

  /** First in, first out, over whatever the rollouts hold; keys are only assumed distinct for the
      completeness half. */
  method ExpandCodexChildTurns(rollouts: seq<Rollout>, children: map<string, seq<string>>, s: Selector, owner: Evidence)
    returns (w: Work)
    requires owner.turn.endedAtMs.Some?
    requires forall parent :: (if parent in children then children[parent] else []) == ChildrenOf(rollouts, parent)
    ensures w == Expand(rollouts, s, owner) && w.queue == []
    ensures TurnsSound(rollouts, s, owner, w) && ThreadsSound(w)
    ensures WellKeyed(rollouts) ==> ExpandsTo(rollouts, s, owner, w)
  {
    var ids := CodexDirectChildIds(rollouts, children, owner.rollout.threadId, owner.turn);
    w := Work(PendingsFor(ids, owner.turn), [], [], [], true);
    StartIsSound(rollouts, s, owner);
    while w.queue != []
      invariant WorkSound(rollouts, s, owner, w, None) && ThreadsSound(w)
      invariant Drain(rollouts, s, w) == Expand(rollouts, s, owner)
      decreases Untaken(rollouts, w), |w.queue|
    {
      StepKeepsSound(rollouts, s, owner, w, 0);
      StepKeepsThreads(rollouts, s, w, 0);
      StepTerminates(rollouts, s, w, 0);
      w := Shift(rollouts, children, s, w);
    }
    if WellKeyed(rollouts) { DrainedExpands(rollouts, s, owner, w); }
  }

  /** The inner loop over the selected turns of one child. */
  method TakeSelection(rollouts: seq<Rollout>, children: map<string, seq<string>>, w: Work, rollout: Rollout,
                       selection: seq<Turn>) returns (w': Work)
    requires forall parent :: (if parent in children then children[parent] else []) == ChildrenOf(rollouts, parent)
    requires forall t :: t in selection ==> t.endedAtMs.Some?
    ensures w' == TakeTurns(rollouts, w, rollout, selection)
  {
    w' := w;
    for i := 0 to |selection|
      invariant forall t :: t in selection[..i] ==> t.endedAtMs.Some?
      invariant w' == TakeTurns(rollouts, w, rollout, selection[..i])
    {
      assert selection[..i + 1][..i] == selection[..i];
      assert selection[i] in selection;
      var e := Evidence(rollout, selection[i]);
      if e.Key() !in w'.keys {
        var ids := CodexDirectChildIds(rollouts, children, rollout.threadId, e.turn);
        w' := w'.(keys := w'.keys + [e.Key()], turns := w'.turns + [e], queue := w'.queue + PendingsFor(ids, e.turn));
      }
    }
    assert selection[..|selection|] == selection;
  }

  /** One turn of the loop. */
  method Shift(rollouts: seq<Rollout>, children: map<string, seq<string>>, s: Selector, w: Work) returns (w': Work)
    requires w.queue != []
    requires forall parent :: (if parent in children then children[parent] else []) == ChildrenOf(rollouts, parent)
    ensures w' == StepAt(rollouts, s, w, 0)
  {
    var pending := w.queue[0];
    w' := w.(queue := w.queue[1..]);
    assert Without(w.queue, 0) == w.queue[1..];
    match Lookup(rollouts, pending.id) {
      case None => w' := w'.(exact := false);
      case Some(rollout) =>
        var selection := SelectFrom(s, rollout.turns, pending);
        if selection == [] {
          if !SelectionExact(s, rollout) { w' := w'.(exact := false); }
          return;
        }
        w' := w'.(threads := AddNew(w'.threads, rollout.threadId));
        w' := TakeSelection(rollouts, children, w', rollout, selection);
    }
  }

  // ----- what the edges mean ------------------------------------------------------------------------

  /** A child of a turn: named by it, or a rollout that names the turn's thread as its parent and was created while the
      turn ran, give or take a second. */
  ghost predicate IsChildOf(rollouts: seq<Rollout>, a: Evidence, id: string)
    requires a.turn.endedAtMs.Some?
  {
    || id in a.turn.childIds
    || (&& (exists x :: x in rollouts && x.threadId == id && x.parentThreadId == Some(a.rollout.threadId))
        && exists x :: Lookup(rollouts, id) == Some(x) && a.turn.startedAtMs <= x.createdAtMs + 1000 && x.createdAtMs <= a.turn.endedAtMs.value + 1000)
  }

  /** A turn of the child that belongs to the parent's turn: it ended and started while that one ran, give or take a
      second; a repair takes the completed ones, an import those that ended no later than the parent's turn. */
  predicate BelongsTo(s: Selector, parent: Turn, t: Turn) {
    && t.endedAtMs.Some? && parent.endedAtMs.Some?
    && parent.startedAtMs <= t.startedAtMs + 1000 && t.startedAtMs <= parent.endedAtMs.value + 1000
    && if s == RepairSelector then t.terminal == Completed
       else t.terminal in {Completed, Aborted} && t.endedAtMs.value <= parent.endedAtMs.value
  }

  lemma ChildIdsAre(rollouts: seq<Rollout>, a: Evidence, id: string)
    requires a.turn.endedAtMs.Some?
    ensures id in DirectChildIds(rollouts, a.rollout.threadId, a.turn) <==> IsChildOf(rollouts, a, id)
  {
    if CreatedDuring(rollouts, id, a.turn) { assert Lookup(rollouts, id) == Some(Lookup(rollouts, id).value); }
  }

  /** One turn leads to another exactly if the other's thread is its child and the other belongs to it. */
  lemma EdgeExactly(rollouts: seq<Rollout>, s: Selector, a: Evidence, b: Evidence)
    ensures Edge(rollouts, s, a, b) <==>
              && a.turn.endedAtMs.Some? && IsChildOf(rollouts, a, b.rollout.threadId)
              && Lookup(rollouts, b.rollout.threadId) == Some(b.rollout) && b.turn in b.rollout.turns && BelongsTo(s, a.turn, b.turn)
  {
    if a.turn.endedAtMs.Some? { ChildIdsAre(rollouts, a, b.rollout.threadId); }
  }

  lemma SelectedIs(s: Selector, t: Turn, id: string, parent: Turn)
    requires parent.endedAtMs.Some?
    ensures Selects(s, t, Pending(id, parent.startedAtMs, parent.endedAtMs.value)) <==> BelongsTo(s, parent, t)
  {
  }

  /** The child is lost: its transcript is missing, or none of its turns belongs, unless for an import some turn of it ended. */
  ghost predicate IsLost(rollouts: seq<Rollout>, s: Selector, parent: Turn, id: string) {
    match Lookup(rollouts, id)
    case None => true
    case Some(r) =>
      && (forall t :: t in r.turns ==> !BelongsTo(s, parent, t))
      && (s == ImportSelector ==> forall t :: t in r.turns ==> t.terminal == Open || t.endedAtMs.None?)
  }

  lemma EmptySelection(s: Selector, r: Rollout, id: string, parent: Turn)
    requires parent.endedAtMs.Some?
    ensures SelectFrom(s, r.turns, Pending(id, parent.startedAtMs, parent.endedAtMs.value)) == [] <==> forall t :: t in r.turns ==> !BelongsTo(s, parent, t)
  {
    var picked := SelectFrom(s, r.turns, Pending(id, parent.startedAtMs, parent.endedAtMs.value));
    forall t ensures t in picked <==> t in r.turns && BelongsTo(s, parent, t) { SelectedIs(s, t, id, parent); }
    assert |picked| > 0 ==> picked[0] in picked;
  }

  lemma LostExactly(rollouts: seq<Rollout>, s: Selector, parent: Turn, id: string)
    requires parent.endedAtMs.Some?
    ensures Unrecoverable(rollouts, s, Pending(id, parent.startedAtMs, parent.endedAtMs.value)) <==> IsLost(rollouts, s, parent, id)
  {
    match Lookup(rollouts, id)
    case None =>
    case Some(r) => EmptySelection(s, r, id, parent);
  }

  /** A turn loses a child exactly if one of its children is lost. */
  lemma LosesChildExactly(rollouts: seq<Rollout>, s: Selector, a: Evidence)
    ensures LosesChild(rollouts, s, a) <==> a.turn.endedAtMs.Some? && exists id :: IsChildOf(rollouts, a, id) && IsLost(rollouts, s, a.turn, id)
  {
    if a.turn.endedAtMs.Some? {
      var ids := DirectChildIds(rollouts, a.rollout.threadId, a.turn);
      if p :| p in PendingsOf(rollouts, a) && Unrecoverable(rollouts, s, p) {
        var k :| 0 <= k < |ids| && PendingsOf(rollouts, a)[k] == p;
        assert ids[k] in ids;
        ChildIdsAre(rollouts, a, p.id);
        LostExactly(rollouts, s, a.turn, p.id);
      }
      if id :| IsChildOf(rollouts, a, id) && IsLost(rollouts, s, a.turn, id) {
        ChildIdsAre(rollouts, a, id);
        LostExactly(rollouts, s, a.turn, id);
        var k :| 0 <= k < |ids| && ids[k] == id;
        assert PendingsOf(rollouts, a)[k] in PendingsOf(rollouts, a);
      }
    }
  }
}
