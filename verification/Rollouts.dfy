/** Parsed Codex rollouts and the usage buckets of their turns. */
module Rollouts {
  import opened Wrappers

  datatype Bucket = Input | Output | CacheRead | CacheCreation

  /** Token buckets are naturals and add componentwise. */
  datatype Usage = Usage(input: nat, output: nat, cacheRead: nat, cacheCreation: nat) {
    function Plus(u: Usage): Usage {
      Usage(input + u.input, output + u.output, cacheRead + u.cacheRead, cacheCreation + u.cacheCreation)
    }

    predicate Covers(u: Usage) {
      input >= u.input && output >= u.output && cacheRead >= u.cacheRead && cacheCreation >= u.cacheCreation
    }

    function Minus(u: Usage): Usage
      requires Covers(u)
    {
      Usage(input - u.input, output - u.output, cacheRead - u.cacheRead, cacheCreation - u.cacheCreation)
    }

    /** The tokens of one bucket. */
    function In(b: Bucket): nat {
      match b
      case Input => input
      case Output => output
      case CacheRead => cacheRead
      case CacheCreation => cacheCreation
    }

    predicate Positive() {
      input > 0 || output > 0 || cacheRead > 0 || cacheCreation > 0
    }
  }

  const NO_USAGE := Usage(0, 0, 0, 0)

  datatype Terminal = Open | Completed | Aborted

  /** A turn with the sum of its recorded increments and its last reported usage. */
  datatype Turn = Turn(id: string, startedAtMs: int, endedAtMs: Option<int>, terminal: Terminal,
                       childIds: seq<string>, usage: Usage, legacyUsage: Usage)

  datatype Rollout = Rollout(threadId: string, parentThreadId: Option<string>, originator: Option<string>,
                             createdAtMs: int, turns: seq<Turn>)

  /** Rollouts are keyed by thread. */
  ghost predicate DistinctThreads(rollouts: seq<Rollout>) {
    forall i, j :: 0 <= i < j < |rollouts| ==> rollouts[i].threadId != rollouts[j].threadId
  }

  ghost predicate DistinctTurnIds(r: Rollout) {
    forall i, j :: 0 <= i < j < |r.turns| ==> r.turns[i].id != r.turns[j].id
  }

  function Lookup(rollouts: seq<Rollout>, id: string): (r: Option<Rollout>)
    ensures r.Some? ==> r.value in rollouts && r.value.threadId == id
    ensures r.None? <==> forall x :: x in rollouts ==> x.threadId != id
  {
    if rollouts == [] then None
    else if rollouts[0].threadId == id then Some(rollouts[0])
    else
      assert rollouts == [rollouts[0]] + rollouts[1..];
      Lookup(rollouts[1..], id)
  }

  lemma LookupIsUnique(rollouts: seq<Rollout>, r: Rollout)
    requires DistinctThreads(rollouts) && r in rollouts
    ensures Lookup(rollouts, r.threadId) == Some(r)
  {
    var found := Lookup(rollouts, r.threadId);
    assert found.Some?;
    var i :| 0 <= i < |rollouts| && rollouts[i] == r;
    var j :| 0 <= j < |rollouts| && rollouts[j] == found.value;
  }

  datatype TurnRef = TurnRef(thread: string, turn: string)

  datatype Evidence = Evidence(rollout: Rollout, turn: Turn) {
    function Key(): TurnRef { TurnRef(rollout.threadId, turn.id) }
  }

  function TurnRefs(rollouts: seq<Rollout>): set<TurnRef> {
    set r, t | r in rollouts && t in r.turns :: TurnRef(r.threadId, t.id)
  }

  /** With distinct threads and turn ids a key names one turn. */
  lemma KeyNamesTurn(rollouts: seq<Rollout>, e: Evidence, e': Evidence)
    requires DistinctThreads(rollouts) && (forall r :: r in rollouts ==> DistinctTurnIds(r))
    requires e.rollout in rollouts && e.turn in e.rollout.turns
    requires e'.rollout in rollouts && e'.turn in e'.rollout.turns
    requires e.Key() == e'.Key()
    ensures e == e'
  {
    LookupIsUnique(rollouts, e.rollout);
    LookupIsUnique(rollouts, e'.rollout);
    var i :| 0 <= i < |e.rollout.turns| && e.rollout.turns[i] == e.turn;
    var j :| 0 <= j < |e.rollout.turns| && e.rollout.turns[j] == e'.turn;
  }
}
