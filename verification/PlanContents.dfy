/** What each query of a plan says, in terms of the turns it stands for. */
module PlanContents {
  import opened Wrappers
  import opened Rollouts
  import opened RolloutGraph
  import opened Sums
  import opened ImportPlan

  /** The recorded increments of the turns, in one bucket. */
  function Recorded(turns: seq<Evidence>, b: Bucket): nat {
    Total(Mapped(turns, (e: Evidence) => e.turn.usage.In(b)))
  }

  /** The query stands for these turns, the first of which is its own: it has that turn's id and end, their calls and
      their summed usage. */
  ghost predicate StandsFor(q: Query, turns: seq<Evidence>) {
    && turns != []
    && q.sourceId == TurnRef(turns[0].rollout.threadId, turns[0].turn.id)
    && |q.callIds| == |turns| && (forall k :: 0 <= k < |turns| ==> q.callIds[k] == TurnRef(turns[k].rollout.threadId, turns[k].turn.id))
    && (forall b: Bucket :: q.usage.In(b) == Recorded(turns, b))
    && q.fingerprint.sourceId == q.sourceId && q.fingerprint.terminal == turns[0].turn.terminal
    && q.fingerprint.usage == q.usage && q.fingerprint.callIds == q.callIds
  }

  lemma {:induction false} SumAddsUp(turns: seq<Evidence>, b: Bucket)
    ensures SumUsage(turns).In(b) == Recorded(turns, b)
  {
    if turns != [] {
      var init, last := turns[..|turns| - 1], turns[|turns| - 1];
      SumAddsUp(init, b);
      assert turns == init + [last];
      MappedSplits(init, [last], (e: Evidence) => e.turn.usage.In(b));
      MappedOne(last, (e: Evidence) => e.turn.usage.In(b));
    }
  }

  lemma CarriedIsStoodFor(q: Query, o: Evidence, turns: seq<Evidence>)
    requires turns != [] && turns[0] == o && CarriesTurns(q, o, turns)
    ensures StandsFor(q, turns)
  {
    forall b: Bucket ensures q.usage.In(b) == Recorded(turns, b) { SumAddsUp(turns, b); }
  }

  /** A fold or a single, whichever the query is. */
  ghost predicate IsFoldOf(rollouts: seq<Rollout>, q: Query, turns: seq<Evidence>) {
    turns != [] && q.session == turns[0].rollout.threadId && IsTree(rollouts, turns[0], turns[1..])
  }

  ghost predicate IsSingleOf(rollouts: seq<Rollout>, q: Query, turns: seq<Evidence>) {
    |turns| == 1 && turns[0].rollout in rollouts && q.session == TopOf(rollouts, turns[0].rollout, {}).threadId
  }

  /** Every planned query stands for a turn and the turns that one reaches, each once, in the session of its thread; or for
      one left-over turn, in the session of the root above it. Its usage is the sum over these turns. */
  lemma PlannedQueryStandsFor(rollouts: seq<Rollout>, known: Known, prov: Provenance, plan: seq<Query>, q: Query) returns (turns: seq<Evidence>)
    requires IsPlan(rollouts, known, prov, plan) && q in plan
    ensures StandsFor(q, turns)
    ensures (IsFoldOf(rollouts, q, turns) && Folded(rollouts, known, prov, turns[0]))
         || (IsSingleOf(rollouts, q, turns) && Loose(rollouts, known, prov, turns[0]))
  {
    if o :| Folded(rollouts, known, prov, o) && IsFold(rollouts, o, q) {
      var kids :| IsTree(rollouts, o, kids) && CarriesTurns(q, o, [o] + kids);
      turns := [o] + kids;
      CarriedIsStoodFor(q, o, turns);
      assert turns[1..] == kids;
    } else {
      var e :| Loose(rollouts, known, prov, e) && IsSingle(rollouts, e, q);
      turns := [e];
      CarriedIsStoodFor(q, e, turns);
    }
  }
}
