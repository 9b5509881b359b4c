/** The routine tables under their writers: the claim loop and the guarded updates of runs. */
module RoutineDb {
  import opened Wrappers
  import opened RoutineSchedule
  import opened RoutineClaims

  /** The runs from row `n` on that were claimed. */
  function ClaimedFrom(runs: seq<RunRow>, n: nat): seq<nat> {
    if |runs| <= n then []
    else
      var last := |runs| - 1;
      ClaimedFrom(runs[..last], n) + if runs[last].status == Claimed then [last] else []
  }

  lemma ClaimedFromAppended(runs: seq<RunRow>, row: RunRow, n: nat)
    requires n <= |runs|
    ensures ClaimedFrom(runs + [row], n) == ClaimedFrom(runs, n) + if row.status == Claimed then [|runs|] else []
  {
    assert (runs + [row])[..|runs|] == runs;
  }

  predicate Stale(r: RunRow, cutoff: int) {
    Active(r) && (r.leaseExpiresAt.None? || r.leaseExpiresAt.value < cutoff)
  }

  function CountStale(runs: seq<RunRow>, cutoff: int): nat {
    if runs == [] then 0
    else CountStale(runs[..|runs| - 1], cutoff) + if Stale(runs[|runs| - 1], cutoff) then 1 else 0
  }

  class Db {
    var routines: map<string, Routine>
    var profiles: map<(string, nat), Profile>
    var runs: seq<RunRow>

    ghost function State(): State
      reads this
    {
      RoutineClaims.State(routines, profiles, runs)
    }

    constructor ()
      ensures State() == RoutineClaims.State(map[], map[], [])
    {
      routines, profiles, runs := map[], map[], [];
    }

    method InsertOrIgnore(row: RunRow) returns (inserted: bool)
      modifies this`runs
      ensures runs == Insert(old(runs), row)
      ensures inserted <==> !Taken(old(runs), row.routine, row.scheduledFor, row.trigger)
    {
      inserted := !exists i :: 0 <= i < |runs| && runs[i].routine == row.routine && runs[i].scheduledFor == row.scheduledFor
                               && runs[i].trigger == row.trigger;
      if inserted { runs := runs + [row]; }
    }

    /** A claim needs an unrevoked, unexpired profile and a free occurrence. */
    method ClaimRun(id: string, trigger: Trigger, scheduledFor: int, lease: Lease, now: int) returns (claimed: bool)
      requires id in routines
      modifies this`runs
      ensures runs == InsertClaim(old(State()), id, trigger, scheduledFor, lease, now)
      ensures claimed <==> Authorized(old(State()), id, now) && !Taken(old(runs), id, scheduledFor, trigger)
    {
      var key := (id, routines[id].revision);
      if key !in profiles || profiles[key].revoked { return false; }
      if profiles[key].expiresAt.Some? && profiles[key].expiresAt.value <= now { return false; }
      claimed := InsertOrIgnore(RunRow(id, routines[id].revision, trigger, scheduledFor, Claimed, Some(lease.owner),
                                       Some(now + lease.seconds), None));
    }

    method ClaimDueRoutine(id: string, lease: Lease, now: int) returns (claimed: bool)
      requires IsDue(State(), id, now)
      modifies this
      ensures State() == ClaimOne(old(State()), id, lease, now)
      ensures runs == old(runs) || (|runs| == |old(runs)| + 1 && runs == old(runs) + [runs[|old(runs)|]])
      ensures claimed <==> runs != old(runs) && runs[|old(runs)|].status == Claimed
    {
      var r := routines[id];
      var scheduledFor := r.nextRunAt.value;
      var next := NextOccurrence(r.schedule, now);
      var active := exists i :: 0 <= i < |runs| && runs[i].routine == id && Active(runs[i]);
      if active && r.noOverlap {
        var _ := InsertOrIgnore(RunRow(id, r.revision, Scheduled, scheduledFor, SkippedOverlap, None, None, Some(now)));
        routines := routines[id := r.(nextRunAt := next)];
        claimed := false;
      } else if now - scheduledFor > r.catchUpMinutes * 60 {
        var _ := InsertOrIgnore(RunRow(id, r.revision, Scheduled, scheduledFor, Missed, None, None, Some(now)));
        routines := routines[id := r.(nextRunAt := next)];
        claimed := false;
      } else {
        claimed := ClaimRun(id, Scheduled, scheduledFor, lease, now);
        routines := routines[id := r.(nextRunAt := next, enabled := next.Some?)];
      }
    }

    /** Returns the claimed runs in the order of the due list. */
    method ClaimDueRoutineRuns(due: seq<string>, limit: nat, lease: Lease, now: int) returns (claimed: seq<nat>)
      requires IsDueList(State(), now, limit, due)
      modifies this
      ensures State() == Step(old(State()), ClaimDue(due, lease), now)
      ensures old(runs) <= runs && claimed == ClaimedFrom(runs, |old(runs)|)
      ensures forall id :: id in due ==> Handled(old(State()), State(), id, lease, now)
    {
      ghost var start := State();
      claimed := [];
      assert due[..0] == [];
      for n := 0 to |due|
        invariant State() == ClaimAll(start, due[..n], lease, now)
        invariant start.runs <= runs && claimed == ClaimedFrom(runs, |start.runs|)
      {
        assert due[..n + 1][..n] == due[..n];
        assert due[n] !in due[..n];
        DueStaysDue(start, due, n, lease, now, due[n]);
        var run := |runs|;
        ghost var before := runs;
        var ok := ClaimDueRoutine(due[n], lease, now);
        if runs != before { ClaimedFromAppended(before, runs[run], |start.runs|); }
        if ok { claimed := claimed + [run]; }
      }
      assert due[..|due|] == due;
      forall id | id in due ensures Handled(start, State(), id, lease, now) { DueRoutinesAreHandled(start, due, lease, now, id); }
    }

    method ClaimManualRoutineRun(id: string, lease: Lease, now: int) returns (claimed: bool)
      modifies this`runs
      ensures State() == Step(old(State()), ClaimManual(id, lease), now)
    {
      if id !in routines || routines[id].archived { return false; }
      claimed := ClaimRun(id, Manual, now, lease, now);
    }

    method MarkRoutineRunRunning(run: nat, now: int)
      modifies this`runs
      ensures State() == Step(old(State()), MarkRunning(run), now)
    {
      if run >= |runs| { return; }
      assert runs == runs[run := runs[run]];
      if runs[run].status == Claimed { runs := runs[run := runs[run].(status := Running)]; }
    }

    method FinishRoutineRun(run: nat, outcome: string, now: int)
      modifies this`runs
      ensures State() == Step(old(State()), Finish(run, outcome), now)
    {
      if run >= |runs| { return; }
      runs := runs[run := runs[run].(status := Finished(outcome), finishedAt := Some(now), leaseExpiresAt := None)];
    }

    method RenewRoutineRunLease(run: nat, lease: Lease, now: int) returns (renewed: bool)
      modifies this`runs
      ensures State() == Step(old(State()), Renew(run, lease), now)
      ensures renewed ==> run < |runs| && Active(runs[run])
    {
      if run >= |runs| { return false; }
      assert runs == runs[run := runs[run]];
      renewed := runs[run].leaseOwner == Some(lease.owner) && (runs[run].status == Claimed || runs[run].status == Running);
      if renewed { runs := runs[run := runs[run].(leaseExpiresAt := Some(now + lease.seconds))]; }
    }

    method InterruptStaleRoutineRuns(now: int, cutoff: int) returns (changes: nat)
      modifies this`runs
      ensures State() == Step(old(State()), InterruptStale(cutoff), now)
      ensures changes == CountStale(old(runs), cutoff)
    {
      changes := 0;
      for i := 0 to |runs|
        invariant |runs| == |old(runs)|
        invariant forall j :: 0 <= j < i ==> runs[j] == Interrupt(old(runs)[j], cutoff, now)
        invariant forall j :: i <= j < |runs| ==> runs[j] == old(runs)[j]
        invariant changes == CountStale(old(runs)[..i], cutoff)
      {
        assert old(runs)[..i + 1][..i] == old(runs)[..i];
        var r := runs[i];
        if (r.status == Claimed || r.status == Running) && (r.leaseExpiresAt.None? || r.leaseExpiresAt.value < cutoff) {
          runs := runs[i := r.(status := Interrupted, finishedAt := Some(now))];
          changes := changes + 1;
        }
      }
      assert old(runs)[..|old(runs)|] == old(runs);
    }
  }
}
