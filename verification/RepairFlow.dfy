/** From a repair plan to its transaction: planned manifests keep every aggregate. */
module RepairFlow {
  import opened Wrappers
  import opened Rollouts
  import opened UsageRows
  import opened RepairApply
  import opened RepairSafety
  import CodexRepairPlan
  import CodexRepairEvidence
  import ClaudeRepairPlan

  function CodexPatch(row: CodexRepairPlan.RepairRow): Patch {
    Patch(row.sessionId, row.query, row.usageQuery, CodexFix(row.corrected.usage, row.corrected.estimatedCost, row.corrected.unpriced))
  }

  function ClaudePatch(row: ClaudeRepairPlan.ClaudeRow): Patch {
    Patch(row.sessionId, row.query, row.usageQuery, ClaudeFix(row.corrected))
  }

  function CodexManifest(rows: seq<CodexRepairPlan.RepairRow>, corrections: seq<Correction>): Manifest {
    Manifest(seq(|rows|, i requires 0 <= i < |rows| => CodexPatch(rows[i])), corrections)
  }

  function ClaudeManifest(rows: seq<ClaudeRepairPlan.ClaudeRow>): Manifest {
    Manifest(seq(|rows|, i requires 0 <= i < |rows| => ClaudePatch(rows[i])), [])
  }

  /** Planning and applying a Codex repair keeps the aggregates, whatever happened in between. */
  lemma CodexRepairKeepsAggregates(cal: Calendar, rollouts: seq<Rollout>, price: CodexRepairPlan.Pricer,
                                   sessions: seq<CodexRepairPlan.RepairSession>, corrections: seq<Correction>, t: Tables)
    requires CodexRepairEvidence.WellStored(sessions) && Agree(cal, t)
    ensures Agree(cal, Commit(cal, true, t, CodexManifest(CodexRepairPlan.PlanRows(rollouts, price, sessions), corrections)))
  {
    var rows := CodexRepairPlan.PlanRows(rollouts, price, sessions);
    var m := CodexManifest(rows, corrections);
    forall p | p in m.rows ensures Coherent(cal, p) && p.fix.CodexFix? {
      var i :| 0 <= i < |m.rows| && m.rows[i] == p;
      assert rows[i] in rows;
      CodexRepairEvidence.PlannedRowsMirror(rollouts, price, sessions, rows[i]);
    }
    RepairKeepsAggregates(cal, true, t, m);
  }

  lemma ClaudeRepairKeepsAggregates(cal: Calendar, transcripts: ClaudeRepairPlan.Transcripts,
                                    sessions: seq<ClaudeRepairPlan.ClaudeSession>, t: Tables)
    requires ClaudeRepairPlan.WellStored(sessions) && Agree(cal, t)
    ensures Agree(cal, Commit(cal, false, t, ClaudeManifest(ClaudeRepairPlan.PlanRows(transcripts, sessions))))
  {
    var rows := ClaudeRepairPlan.PlanRows(transcripts, sessions);
    var m := ClaudeManifest(rows);
    forall p | p in m.rows ensures Coherent(cal, p) && p.fix.ClaudeFix? {
      var i :| 0 <= i < |m.rows| && m.rows[i] == p;
      assert rows[i] in rows;
      ClaudeRepairPlan.PlannedRowsMirror(transcripts, sessions, rows[i]);
    }
    RepairKeepsAggregates(cal, false, t, m);
  }
}
