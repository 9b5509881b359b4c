/** The delegation table under its guarded updates, each one step of the lifecycle. */
module DelegationDb {
  import opened Wrappers
  import opened Delegations
  import DelegationTree

  class Db {
    var rows: map<string, Row>
    var archived: map<string, bool>

    ghost function State(): State
      reads this
    {
      Delegations.State(rows, archived)
    }

    constructor ()
      ensures State() == Delegations.State(map[], map[])
    {
      rows, archived := map[], map[];
    }

    function Available(r: Row): bool
      reads this
    {
      r.target.childSession in archived && !archived[r.target.childSession]
    }

    method Write(id: string, r: Row)
      requires id in rows
      modifies this`rows
      ensures rows == old(rows)[id := Accept(old(rows)[id], r)]
    {
      if Checked(r) { rows := rows[id := r]; }
    }

    method CreateHlidDelegation(id: string, target: Target, worktree: Worktree, permissionMode: string, timeoutSeconds: int,
                                handoff: Handoff, now: int) returns (created: bool)
      modifies this`rows
      ensures State() == Step(old(State()), Create(id, target, worktree, permissionMode, timeoutSeconds, handoff), now)
      ensures created <==> id !in old(rows) && id in rows
    {
      var r := Row(target, worktree, permissionMode, timeoutSeconds, None, None, 0, 0.0, 1, Initial,
                   Summary(handoff), Pending, now, now, None, None, None, None);
      var taken := exists other :: other in rows && rows[other].target.childSession == target.childSession;
      created := id !in rows && Checked(r) && !taken;
      if created { rows := rows[id := r]; }
    }

    method MarkHlidDelegationRunning(id: string, now: int) returns (claimed: bool)
      modifies this`rows
      ensures State() == Step(old(State()), MarkRunning(id), now)
      ensures claimed ==> id in rows && rows[id].status == Running
    {
      claimed := false;
      if id !in rows { return; }
      var r := rows[id];
      if r.status == Pending && Available(r) {
        Write(id, r.(status := Running, updatedAt := now));
        claimed := rows[id].status == Running;
      } else if r.status == Pending {
        Write(id, r.(status := Cancelled, endedAt := Some(now), updatedAt := now, error := Some(REMOVED),
                     worktree := if r.worktree == Active then Retained else r.worktree));
      } else {
        assert rows == rows[id := r];
      }
    }

    method UpdateHlidDelegationTokens(id: string, tokens: int, now: int)
      modifies this`rows
      ensures State() == Step(old(State()), UpdateTokens(id, tokens), now)
    {
      if id !in rows { return; }
      var safe := if tokens < 0 then 0 else tokens;
      Write(id, rows[id].(tokensUsed := if rows[id].tokensUsed >= safe then rows[id].tokensUsed else safe, updatedAt := now));
    }

    method UpdateHlidDelegationCost(id: string, cost: Option<real>, now: int)
      modifies this`rows
      ensures State() == Step(old(State()), UpdateCost(id, cost), now)
    {
      if id !in rows { return; }
      var safe := if cost.Some? && cost.value >= 0.0 then cost.value else 0.0;
      Write(id, rows[id].(costUsed := if rows[id].costUsed >= safe then rows[id].costUsed else safe, updatedAt := now));
    }

    method UpdateHlidDelegationProgress(id: string, text: Option<string>, now: int)
      modifies this`rows
      ensures State() == Step(old(State()), UpdateProgress(id, text), now)
    {
      if id !in rows { return; }
      var r := rows[id];
      if r.status == Pending || r.status == Running {
        Write(id, r.(progressText := Bounded(text, MAX_PROGRESS_CHARS), updatedAt := now));
      } else {
        assert rows == rows[id := r];
      }
    }

    method UpdateHlidDelegationWorktreeState(id: string, worktree: Worktree, now: int)
      modifies this`rows
      ensures State() == Step(old(State()), UpdateWorktree(id, worktree), now)
    {
      if id !in rows { return; }
      var r := rows[id];
      if r.target.inWorktree {
        Write(id, r.(worktree := worktree, updatedAt := now));
      } else {
        assert rows == rows[id := r];
      }
    }

    method ResumeHlidDelegation(id: string, timeoutSeconds: int, permissionMode: string, handoff: Handoff, now: int)
      returns (resumed: bool)
      modifies this`rows
      ensures State() == Step(old(State()), Resume(id, timeoutSeconds, permissionMode, handoff), now)
      ensures resumed ==> id in rows && rows[id].status == Pending
    {
      resumed := false;
      if id !in rows { return; }
      var r := rows[id];
      if r.status == Interrupted && r.target.routineRun.None? && r.attempts < MAX_ATTEMPTS && Available(r) {
        Write(id, r.(status := Pending, endedAt := None, resultText := None, error := None, progressText := None,
                     attempts := r.attempts + 1, continuation := ExplicitNewTurn, timeoutSeconds := timeoutSeconds,
                     tokenBudget := None, costBudget := None, permissionMode := permissionMode,
                     handoff := Summary(handoff), updatedAt := now));
        resumed := rows[id].status == Pending;
      } else {
        assert rows == rows[id := r];
      }
    }

    method RollbackHlidDelegationResume(id: string, previous: Snapshot, now: int) returns (restored: bool)
      modifies this`rows
      ensures State() == Step(old(State()), Rollback(id, previous), now)
      ensures restored ==> id in rows && rows[id].status == Interrupted
    {
      restored := false;
      if id !in rows { return; }
      var r := rows[id];
      if r.status == Pending && r.attempts == previous.attempts + 1 {
        Write(id, r.(status := Interrupted, endedAt := previous.endedAt, resultText := previous.resultText,
                     error := previous.error, progressText := previous.progressText, attempts := previous.attempts,
                     continuation := previous.continuation, timeoutSeconds := previous.timeoutSeconds,
                     tokenBudget := previous.tokenBudget, costBudget := previous.costBudget,
                     permissionMode := previous.permissionMode, handoff := Summary(previous.handoff), updatedAt := now));
        restored := rows[id].status == Interrupted;
      } else {
        assert rows == rows[id := r];
      }
    }

    method FinishHlidDelegation(id: string, status: Status, result: Option<string>, error: Option<string>, now: int)
      modifies this`rows
      ensures State() == Step(old(State()), Finish(id, status, result, error), now)
    {
      if id !in rows { return; }
      var r := rows[id];
      if r.status == Pending || r.status == Running {
        Write(id, r.(status := status, endedAt := Some(now), updatedAt := now, resultText := Bounded(result, MAX_RESULT_CHARS),
                     error := Bounded(error, MAX_ERROR_CHARS), progressText := None,
                     worktree := if r.worktree == Active then Retained else r.worktree));
      } else {
        assert rows == rows[id := r];
      }
    }

    method AbandonInterruptedHlidDelegation(id: string, reason: string, now: int)
      modifies this`rows
      ensures State() == Step(old(State()), Abandon(id, reason), now)
    {
      if id !in rows { return; }
      var r := rows[id];
      if r.status == Interrupted && r.target.routineRun.None? && r.attempts < MAX_ATTEMPTS && Available(r) {
        Write(id, r.(status := Cancelled, endedAt := Some(now), updatedAt := now,
                     error := Bounded(Some(reason), MAX_ERROR_CHARS), progressText := None,
                     worktree := if r.worktree == Active then Retained else r.worktree));
      } else {
        assert rows == rows[id := r];
      }
    }

    method RecordHlidDelegationPartialResult(id: string, result: Option<string>, now: int)
      modifies this`rows
      ensures State() == Step(old(State()), PartialResult(id, result), now)
    {
      if id !in rows { return; }
      var r := rows[id];
      assert rows == rows[id := r];
      var text := Bounded(result, MAX_RESULT_CHARS);
      if text.None? { return; }
      if r.status == Pending || r.status == Running { return; }
      Write(id, r.(resultText := if r.resultText.Some? then r.resultText else text, updatedAt := now));
    }

    /** Startup cleanup removes exactly the orphans. */
    method ReconcileOrphanedHlidDelegationsAfterRestart() returns (changes: nat)
      modifies this`rows
      ensures State() == Step(old(State()), DeleteRows(DelegationTree.Orphans(old(State()))), 0)
      ensures changes == |DelegationTree.Orphans(old(State()))|
    {
      var orphaned := DelegationTree.CollectOrphans(Delegations.State(rows, archived));
      rows := rows - orphaned;
      changes := |orphaned|;
    }

    method InterruptIfActive(id: string, now: int) returns (changed: bool)
      requires id in rows
      modifies this`rows
      ensures rows == old(rows)[id := InterruptRow(old(rows)[id], now)]
      ensures changed <==> !IsOver(old(rows)[id].status)
    {
      var r := rows[id];
      changed := r.status == Pending || r.status == Running;
      if changed {
        rows := rows[id := r.(status := Interrupted, endedAt := Some(now), updatedAt := now, error := Some(RESTARTED))];
      } else {
        assert rows == rows[id := r];
      }
    }

    method InterruptActiveHlidDelegationsAfterRestart(now: int) returns (changes: nat)
      modifies this`rows
      ensures State() == Step(old(State()), InterruptActive, now)
      ensures changes == |ActiveIds(old(rows))|
    {
      ghost var before := rows;
      var todo := rows.Keys;
      changes := 0;
      NoneInterrupted(before, now);
      while todo != {}
        invariant todo <= before.Keys
        invariant rows == InterruptSome(before, before.Keys - todo, now)
        invariant changes == |ActiveIds(before) - todo|
        decreases todo
      {
        todo, changes := InterruptNext(before, todo, changes, now);
      }
      assert ActiveIds(before) - {} == ActiveIds(before);
      assert before.Keys - {} == before.Keys;
    }

    method InterruptNext(ghost before: map<string, Row>, todo: set<string>, changes: nat, now: int)
      returns (rest: set<string>, changes': nat)
      requires todo != {} && todo <= before.Keys && rows == InterruptSome(before, before.Keys - todo, now)
      requires changes == |ActiveIds(before) - todo|
      modifies this`rows
      ensures rest < todo && rows == InterruptSome(before, before.Keys - rest, now)
      ensures changes' == |ActiveIds(before) - rest|
    {
      var id :| id in todo;
      NextInterrupted(before, todo, id, now);
      NextActive(before, todo, id);
      var changed := InterruptIfActive(id, now);
      changes' := if changed then changes + 1 else changes;
      rest := todo - {id};
    }
  }

  lemma NoneInterrupted(rows: map<string, Row>, now: int)
    ensures InterruptSome(rows, rows.Keys - rows.Keys, now) == rows
  {
  }

  lemma NextInterrupted(rows: map<string, Row>, todo: set<string>, id: string, now: int)
    requires id in todo && todo <= rows.Keys
    ensures var now' := InterruptSome(rows, rows.Keys - todo, now);
            id in now' && now'[id] == rows[id]
            && InterruptSome(rows, rows.Keys - (todo - {id}), now) == now'[id := InterruptRow(rows[id], now)]
  {
  }

  ghost function ActiveIds(rows: map<string, Row>): set<string> {
    set id | id in rows && !IsOver(rows[id].status)
  }

  lemma NextActive(rows: map<string, Row>, todo: set<string>, id: string)
    requires id in todo && id in rows
    ensures |ActiveIds(rows) - (todo - {id})| == |ActiveIds(rows) - todo| + if IsOver(rows[id].status) then 0 else 1
  {
    if IsOver(rows[id].status) {
      assert ActiveIds(rows) - (todo - {id}) == ActiveIds(rows) - todo;
    } else {
      assert ActiveIds(rows) - (todo - {id}) == (ActiveIds(rows) - todo) + {id};
    }
  }
}
