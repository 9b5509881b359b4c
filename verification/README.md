# Verified models of Hlid's durable state

Hlid keeps its state in SQLite and derives a good deal of it from other state: message text from a
log of provider frames, usage totals from query rows, a restart cleanup from a tree of delegations.
This project models the places where that derivation is intricate as state machines over tables, one
committed transaction at a time, and proves what the repository relies on. `dafny verify
dfyconfig.toml` checks everything.

- **Provider frame log** (`src/db/messages.ts`): `FrameText` and `ProviderFrames` are the text join
  and its order, `FrameLayout` what a joined text looks like; `Transcript` is the transition function of
  every transaction; `TranscriptInvariants` shows that tool state always follows the log, `ToolRows` what
  becomes of one tool row over a run, `TranscriptConvergence` that assistant text converges under any
  interleaving, replay and retraction, `TranscriptRetraction` that retractions compose and steer positions
  survive them. `TranscriptDb` is a class whose methods run the statements and loops of the source and are
  proved equal to the transition function. `ToolPaging` is the backward paging of a response's tool rows.
- **History import** (`src/db/providerHistoryImport.ts`, `src/db/codexRolloutGraph.ts`): `Rollouts`,
  `RolloutGraph` (the worklist over a possibly cyclic graph), `TurnClaims` (collision removal, shared
  with the repair), `ImportPlan` (what a plan is, and conservation), `PlanContents` (what each planned query
  says), `ImportPlanner` (the two passes as they run), `ImportReplan` (planning again), `ImportLedger`,
  `ImportOnce`, `ImportCommits` (when an import commits), `ImportRows` (what it writes), `ImportRounds` and
  `ImportDb` (the apply transaction), `ClaudeCalls` (who owns a Claude message).
- **Usage repair** (`src/db/codexUsageRepair.ts`, `src/db/claudeUsageRepair.ts`): `CodexCounters`
  (cumulative counters become increments) and `CodexTurns` (what a parsed turn shows), `CodexRepairPlan`,
  `CodexRepairEvidence`, `ClaudeChildEvidence`, `ClaudeRepairPlan` (evidence is used once),
  `CodexRepairCorrection` and `ClaudeRepairCorrection` (which queries are repaired, and to what), `UsageRows`,
  `RepairVerdicts`, `RepairApply`, `RepairSafety`, `RepairOutcome`, `RepairExactness`, `RepairFlow` and
  `RepairDb` (the fingerprint-checked apply). `Sums` are sums of numbers, for saying what totals add up.
- **Delegations** (`src/db/delegations.ts`): `Delegations` are the guarded steps,
  `DelegationLifecycle` what all runs keep, `DelegationTree` the two recursive queries,
  `DelegationDb` the class.
- **LaTeX scanner** (`src/components/MarkdownBody.tsx`): `LatexSegment` and `LatexScanner` follow the code;
  `LatexRewriting` and `LatexNormalization` say what the output of a segment and of a whole text is.
- **Push policies and routine claims** (`src/db/pushNotifications.ts`, `src/db/routines.ts`,
  `src/lib/routineSchedule.ts`): `PushPolicies`, `PushDb`, `RoutineSchedule`, `RoutineClaims`,
  `RoutineDb`.

Every module that ends in `Db` holds a class with the tables as fields; each of its methods follows
the source's control flow and ensures that the new state is the transition function applied to the
old one. Properties of runs are lemmas about the transition function, and what a step, a plan or an output
holds is stated in terms of its input: by the records, rows and turns it comes from, by reachability and by
sums, not by the function that computes it.

## Where a property needs a condition

Some properties hold only under a condition. Each is stated with the condition and, where it can
fail, with what happens otherwise.

- A retraction leaves a row's text canonical except when it touches a tool row lying on another
  provider's row; then the row is reconciled under the wrong provider and loses its text
  (`RetractedRowAgreesExactly`, `ForeignRowIsWiped`, `SwitchedProviderLosesText`).
- A result write does not check that its frame is still active (`AnswerAttributesExactly`).
- Planned calls are disjoint exactly if no folded turn reaches another (`CallsAreDisjointExactly`);
  a root named as a child breaks it (`NamedRootIsPlannedTwice`). A fold lists a call twice exactly if
  its root turn reaches itself (`FoldListsCallsOnceExactly`, `SelfNamedRootCountsTwice`).
- Planning again after an import is empty exactly if no tree wakes up (`ReplanIsEmptyExactly`,
  `ReplanCanHoldMore`); it always is when children are named by their parents. That is over an
  unchanged session table. The import itself writes native ids: it keeps every accepted root, but it
  can free a root whose thread was stored with a session it imports into
  (`ImportKeepsRootsExactly`, `DriftedSessionFreesRoot`), and with children named by their parents the
  next plan is empty exactly if no turn with usage lies under such a root (`PlanImportPlan`).
- Two sessions that claim one native Codex thread can both be repaired from one turn
  (`RootIsSharedExactly`, `SharedThreadBacksTwoRows`). One row's root turn is another row's child turn
  exactly if the graph leads there (`RootIsChildExactly`, `NeverChildIsNoEvidence`).
- A repair row keeps the cached aggregates exactly if its correction reaches only the session and the
  date that are rebuilt (`RowKeepsAggregatesExactly`); planned rows always do.
- Rolling back a resume restores the delegation row exactly if its snapshot shows it unabridged
  (`RollbackUndoesResume`, `EmptyResultIsNotRestored`); rows reached from a clean database always are.
- Push policy revisions grow exactly while the previous one is a safe integer or the clock has passed
  it (`RevisionGrowsExactly`, `UnsafeRevisionIsForgotten`). Dates end at 8.64e15 milliseconds, so this takes about 3.7e14 policy
  changes to leave; `RevisionsStrictlyIncrease` states the bound.
- The comment at `src/db/providerHistoryImport.ts:1451-1453` promises the latest complete snapshot of
  a message when its parent has no copy; the code compares times only between copies from one file, and
  the model follows the code. Without a parent copy the kept one is the latest exactly if no other file
  holds a newer copy than the file seen first (`LatestIsKeptExactly`, `OlderChildCopyCanBeKept`).

## Assumptions

- Table keys are unique, row ids are given out in increasing order, and there is one message row per
  session and sequence number. Tool metadata and lineage go when their tool row is deleted.
- Rows of a session come back in timestamp order, and each session's rows carry its id.
- Token buckets are naturals and are added and subtracted componentwise; costs are reals.
- Hashes identify what they are taken over, and keys built by joining strings are pairs or tuples.
- Threads and the turns of a thread have distinct ids where a lemma says `WellKeyed`.
- Session rows are read in a fixed order, and of several with one native id the planner keeps the last;
  no Claude session carries the id of a Codex thread.
- Clocks are arbitrary; only policy revisions use that they read no later than a date can.
- Prices are an uninterpreted function; how strings collate is an uninterpreted rank.
- For daily and weekly schedules the candidate of each day is an uninterpreted function of the day.

## Model

| member | source | states |
|---|---|---|
| FrameText.JoinSeparatesFragments | src/db/messages.ts:642-648 | A join keeps both fragments whole, only adds newlines at the seam, and leaves at least a blank line there |
| FrameText.JoinAssociativeExactly | src/db/messages.ts:642-648 | Regrouping two joins changes the text exactly for a lone `\n` fragment whose neighbours bring a newline on one side only, so the fold must run from the left |
| FrameText.JoinNotAssociative | src/db/messages.ts:642-648 | The concrete failure `"x\n", "\n", "y"` |
| ProviderFrames.CanonicalTextIsOrderFree | src/db/messages.ts:650-677 | Two logs with the same active text frames of a row, in any arrival order and with distinct frame orders, read the same text |
| ProviderFrames.OrderFramesSorts | src/db/messages.ts:650-663 | The frames a text is joined from are in frame order |
| FrameLayout.JoinAllIsLayout | src/db/messages.ts:642-677 | A text is the join of a row's frames exactly if it is laid out from them: the frames' non-empty fragments whole, in frame order and none other, with nothing but line breaks in front of, between and behind two fragments, and at least a blank line at every seam; it is empty exactly if no frame has text |
| FrameLayout.LaidOutOnce | src/db/messages.ts:642-677 | Fragments can be laid out in one way only |
| FrameLayout.TextlessFrameChangesNothing | src/db/messages.ts:664-670 | A frame with null or empty text, wherever it stands among the others, changes nothing |
| TranscriptInvariants.StepKeepsSound | src/db/messages.ts:827-1516 | Every transaction (record, retract, append, metadata, result) keeps the frame log, start lineage, contributions and tool columns consistent |
| TranscriptInvariants.ToolStateFollowsLog | src/db/messages.ts:558-640 | In every reachable state no tool row has a retracted frame in its start lineage, and its subagent and activity columns equal the newest contribution whose frame is not retracted |
| TranscriptInvariants.AddedContributionFits | src/db/messages.ts:591-616 | A contribution written for an addressed tool row names a stored frame of that row's session and provider |
| TranscriptInvariants.LatestOfConcat | src/db/messages.ts:618-640 | The newest surviving contribution is taken from the newer ones if they have any, else from the older ones |
| TranscriptInvariants.AnswerAttributesExactly | src/db/messages.ts:1482-1516 | A result write does not check its frame: results keep naming active frames exactly if the frame is active for every row the result is written to |
| TranscriptInvariants.StepKeepsResults | src/db/messages.ts:1135-1144 | Every other transaction keeps results attributed to active frames; a retraction clears those it orphans |
| TranscriptConvergence.TextFollowsLog | src/db/messages.ts:650-677 | In every reachable state each assistant row reads the ordered join of its active frames |
| TranscriptConvergence.TextIsJoinOfLive | src/db/messages.ts:827-892 | After any run a row reads the ordered join of exactly the frames delivered on it and never retracted, before or after they arrived |
| TranscriptConvergence.TextShowsLiveFragments | src/db/messages.ts:642-677 | After any run a row's text is laid out from the non-empty fragments of exactly the live frames on it, in frame order; it is empty exactly if none of them has text |
| TranscriptConvergence.TextConverges | src/db/messages.ts:942-991 | Two runs with the same frame records and the same retractions, in any order, with replays and any tool traffic in between, end with the same text in every assistant row |
| TranscriptConvergence.RetractedRowAgreesExactly | src/db/messages.ts:1189-1195 | A retraction leaves an assistant row canonical, except exactly when it touches a tool row lying on a row of another provider whose text is not empty |
| TranscriptConvergence.ForeignRowIsWiped | src/db/messages.ts:1189-1195 | What happens in that exception: the row's text becomes empty although none of its frames was retracted |
| TranscriptConvergence.SwitchedProviderLosesText | src/db/messages.ts:1189-1195 | Concrete tables: a Codex response with a tool row that a Claude frame started loses its text when the Claude frame is retracted |
| TranscriptConvergence.AffectedRowsAreOwned | src/db/messages.ts:1095-1100 | With one provider per row, every row a retraction revises belongs to the retracting provider, so the exception cannot occur |
| TranscriptConvergence.SharedOrderDiverges | src/db/messages.ts:661 | Two frames of one row with the same frame order join in arrival order, so convergence needs distinct orders |
| TranscriptConvergence.RecordIsLoggedExactly | src/db/messages.ts:827-892 | A frame enters the log exactly if it was not retracted, no stored frame has its identity and its session has the assistant row |
| TranscriptConvergence.ReplayIsDuplicateExactly | src/db/messages.ts:753-775 | A replay is a duplicate exactly if kind, text, tool starts and tool results are those of the stored frame; anything else under its identity is refused and changes nothing |
| ToolRows.RowLivesUntilUprooted | src/db/messages.ts:942-1188 | In every run a tool row lives exactly until a frame of its start lineage is retracted, whatever else happens, and keeps its session, response, tool id and provider |
| ToolRows.StepContinues | src/db/messages.ts:1006-1188 | One transaction deletes a tool row exactly if it takes back a frame of its lineage, and changes its result exactly if it answers the tool or takes back the active frame the result came from |
| ToolRows.AnswerIsShown | src/db/messages.ts:1482-1516 | After an answer every row of its tool shows the answer's text and error flag until the tool is answered again or the frame the answer names is retracted |
| ToolRows.AnswerNeedsRow | src/db/messages.ts:1482-1516 | An answer for a tool no row has changes nothing, and no answer changes anything but tool rows |
| ToolRows.RetractionNames | src/db/messages.ts:942-975 | A retraction names the frames of its session, provider and provider session with the given non-empty ids, and no others |
| ToolRows.StartShowsRow | src/db/messages.ts:1307-1386 | A tool start is refused exactly if its session is missing or a frame it names is not active; otherwise one row is added that shows what was delivered, with the named frames as its lineage |
| ToolRows.DescribeShows | src/db/messages.ts:1388-1432 | A metadata update puts its text in the named column of exactly the rows it is for: those of its tool, with the frame it names active on their response |
| TranscriptRetraction.RemapSplitsSurvivors | src/db/messages.ts:1238-1250 | The remapped steer index splits the surviving tool rows exactly where the old index split all rows, and the clamp at zero acts only on an index that was negative already |
| TranscriptRetraction.SteerSplitSurvives | src/db/messages.ts:1230-1257 | Over a whole retraction each steer keeps splitting its response at the same place: the rows in front of it are the survivors of the rows in front of it before |
| TranscriptRetraction.ResteeredTwice | src/db/messages.ts:1101-1124 | Remapping an index for A and then for B gives the index of remapping for both at once |
| TranscriptRetraction.RetractionsCompose | src/db/messages.ts:942-1303 | Retracting A then B leaves all tables exactly as retracting A and B in one call |
| TranscriptRetraction.RetractionsCommute | src/db/messages.ts:942-1303 | Two retractions of one provider session commute, and repeating one changes nothing |
| TranscriptRetraction.ReachableRetractionsCompose | src/db/messages.ts:942-1303 | The same in every state reachable from an empty log |
| TranscriptDb.FoldFrameText | src/db/messages.ts:664-670 | The reduce over ordered fragments leaves the text that is laid out from them |
| TranscriptDb.AffectedByIds | src/db/messages.ts:1006-1100 | The id sets collected by the three tool-row queries name exactly the responses the retraction affects |
| TranscriptDb.OneResponseRevised | src/db/messages.ts:1189-1257 | Revising one response moves exactly the messages that waited for it, whatever responses are still to be revised |
| TranscriptDb.ReviseRows | src/db/messages.ts:1135-1188 | The restore loop clears results of retracted frames and re-reads affected columns from the surviving contributions |
| TranscriptDb.Db.ReconcileProviderAssistantText | src/db/messages.ts:650-677 | Sets one assistant row to the text laid out from its active frames in frame order and changes nothing else |
| TranscriptDb.Db.RecordProviderMessageFrame | src/db/messages.ts:827-892 | One atomic step of the frame log: tombstoned, duplicate, collision, missing row and recorded, with the state unchanged on every error |
| TranscriptDb.Db.AppendToolEvent | src/db/messages.ts:1307-1386 | Adds a tool row with its start lineage and first contribution, or changes nothing if a lineage frame is not active |
| TranscriptDb.Db.SetToolEventMetadata | src/db/messages.ts:1388-1432 | One contribution and one column update per addressed row, an error if no row is addressed |
| TranscriptDb.Db.SetToolEventResult | src/db/messages.ts:1482-1516 | Writes the result to every row with the tool id, its frame unchecked |
| TranscriptDb.Db.RetractProviderMessageFrames | src/db/messages.ts:942-1303 | Tombstones, marking, deletion, result clearing, metadata restore, text and steers, statement by statement, equal one retraction step |
| ToolPaging.PageIgnoresAppended | src/db/messages.ts:2088-2138 | Rows appended since do not change the items, the cursor or the has-earlier flag of a page before an old row, only its total |
| ToolPaging.ChainIsLossless | src/db/messages.ts:2088-2138 | Pages chained through nextBeforeId, with any limits, deliver exactly the rows before the first cursor, in order |
| ToolPaging.ChainStopsAsExpected | src/db/messages.ts:2088-2138 | With one limit the chain stops after the rounded-up quotient of rows by limit |
| ToolPaging.WindowAndPagesAreLossless | src/db/messages.ts:1939-2138 | For each page entry of the window, the events the window shows of that response and the pages chained from the entry's cursor deliver its tool events exactly once, in order, in the expected number of pages, whatever is appended meanwhile |
| ToolPaging.WindowShowsResponse | src/db/messages.ts:1939-2085 | The window holds of each response in range all events, or its last page of events and one page entry with its total, its errors and the cursor when it is paged; and nothing of any other response |
| ToolPaging.PagedExactly | src/db/messages.ts:1939-2085 | A response is paged exactly if it is settled, untargeted by a steer, larger than a page of one to a hundred events, and all its events are plain and resolved |
| ToolPaging.ErrorsAreCounted | src/db/messages.ts:1939-2085 | The error number of a page entry is the number of the response's failed events |
| RolloutGraph.ExpandCodexChildTurns | src/db/codexRolloutGraph.ts:62-124 | The worklist terminates on cyclic graphs and returns exactly the turns reachable from the owner turn, each once, with an exact flag that is true iff no reached turn loses a child |
| RolloutGraph.ExpandIsSound | src/db/codexRolloutGraph.ts:89-117 | The same for the drained worklist as a function, also without distinct keys for the soundness half |
| RolloutGraph.StepKeepsSound | src/db/codexRolloutGraph.ts:89-117 | Taking any queued child, not just the first, keeps the worklist sound |
| RolloutGraph.StepTerminates | src/db/codexRolloutGraph.ts:89-117 | Whichever child is taken, untaken turns or the queue shrink |
| RolloutGraph.OrderDoesNotMatter | src/db/codexRolloutGraph.ts:89-117 | Two walks that drain the queue in different orders take the same turns and agree on exactness |
| RolloutGraph.EdgeExactly | src/db/codexRolloutGraph.ts:42-60 | One turn leads to another exactly if the other's thread is named by it or was created under it while it ran, give or take a second, and the other turn started in that time and ended as the caller's selection asks |
| RolloutGraph.LosesChildExactly | src/db/codexRolloutGraph.ts:89-117 | A turn loses a child exactly if some child has no transcript, or none of its turns belongs to the turn and, for an import, none of them ended |
| RolloutGraph.StepKeepsThreads | src/db/codexRolloutGraph.ts:102-113 | The listed child threads are those of the taken turns, each once |
| RolloutGraph.CodexChildrenByParent | src/db/codexRolloutGraph.ts:29-40 | The index lists for every thread the rollouts that name it as parent |
| RolloutGraph.CodexDirectChildIds | src/db/codexRolloutGraph.ts:42-60 | Named children and children created during the turn, each once |
| TurnClaims.CollidedOwners | src/db/providerHistoryImport.ts:930-943 | The collided candidates are exactly those that share a child turn with another one |
| ImportPlan.PlannedCallsAreDisjoint | src/db/providerHistoryImport.ts:930-955 | After both passes and collision removal no call id is in two planned queries |
| ImportPlan.CallsAreDisjointExactly | src/db/providerHistoryImport.ts:930-955 | The planned call ids are disjoint exactly if no folded turn reaches another folded turn |
| ImportPlan.UnnamedRootsKeepFoldsApart | src/db/providerHistoryImport.ts:730-800 | That condition holds whenever no root rollout is named as a child |
| ImportPlan.ImportableTurnsAreConserved | src/db/providerHistoryImport.ts:788-1041 | Every terminal positive-usage turn under an accepted root is in exactly one planned query or in earlier provenance, never both |
| PlanContents.PlannedQueryStandsFor | src/db/providerHistoryImport.ts:532-540 | Every planned query stands for a turn and the turns it reaches, each once, or for one left-over turn: it has that turn's id and end, their calls in order, and in every token bucket the sum of their increments |
| ImportPlan.FoldListsCallsOnceExactly | src/db/codexRolloutGraph.ts:85-117 | A fold lists no call twice exactly if its root turn does not reach itself |
| ImportPlan.UnnamedRootsListCallsOnce | src/db/providerHistoryImport.ts:800-806 | No fold lists a call twice when no root rollout is named as a child |
| ImportPlanner.PlanCodexSessions | src/db/providerHistoryImport.ts:702-1041 | The two passes with collision removal produce exactly the plan: one fold per foldable, uncontested root turn that carries the turn and each reached turn once, and one single query per turn left over, each in its root's session |
| ImportPlanner.PlanFolds | src/db/providerHistoryImport.ts:788-884 | The first pass finds every foldable turn of every accepted root, once |
| ImportPlanner.DropCollisions | src/db/providerHistoryImport.ts:930-943 | Every candidate that shares a child turn with another is dropped and every other one kept |
| ImportPlanner.PlanRest | src/db/providerHistoryImport.ts:969-1041 | The second pass plans every importable turn whose call is not assigned yet |
| ImportReplan.ReplanIsEmptyExactly | src/db/providerHistoryImport.ts:827-853 | Planning again over unchanged transcripts after the import plans nothing exactly if no tree wakes up: a foldable tree that shares no turn with a fold, holds no importable turn, and collided only with trees that do; a condition on the transcripts and on what was recorded before the first plan |
| ImportReplan.ReplanIsEmpty | src/db/providerHistoryImport.ts:678-700 | In particular the second plan is empty whenever children are named only by their own parent |
| ImportReplan.ReplanHoldsOnlyStranded | src/db/providerHistoryImport.ts:827-853 | A second plan can only hold folds all of whose usage lies outside accepted root lineages |
| ImportReplan.ReplanCanHoldMore | src/db/providerHistoryImport.ts:930-943 | A concrete database and transcripts whose second plan is not empty |
| ImportReplan.NamedRootIsPlannedTwice | src/db/providerHistoryImport.ts:788-884 | A concrete root named as another root's child, planned twice |
| ImportReplan.SelfNamedRootCountsTwice | src/db/providerHistoryImport.ts:803-812 | A root of one finished turn that names its own thread as a child is planned with its usage and its call counted twice |
| ImportLedger.ImportKeepsMirrors | src/db/providerHistoryImport.ts:2354-2493 | A committed import leaves every session and date mirrored: queries and usage_queries totals match, session totals and daily rows are sums, touched or not; and the checks before the commit then never fail |
| ImportLedger.RebuildRestoresMirrors | src/db/providerHistoryImport.ts:2354-2493 | The rebuild repairs exactly what the transaction still owed and the verification accepts it |
| ImportOnce.CallIsImportedOnce | src/db/providerHistoryImport.ts:2317-2352 | Over any sequence of manifests of both providers, committed or rolled back, no native call belongs to two imported queries |
| ImportOnce.ImportsOwn | src/db/providerHistoryImport.ts:2604-2650 | Every recorded call of either provider keeps one owner, whose query holds it, over any sequence of manifests |
| ImportOnce.ReapplyWritesNothing | src/db/providerHistoryImport.ts:2604-2650 | Applying a manifest again, at once or after other imports and deletions, succeeds and writes no query row, no ledger row and no aggregate |
| ImportCommits.ImportCommitsExactly | src/db/providerHistoryImport.ts:2495-2684 | An import of a manifest that names everything once commits exactly if each session was imported before with the same content or is new, its native id not taken by a row that no session in front has given up, and each query of a session that was not deleted was imported before with the same content or with none of its calls |
| ImportRows.ImportWrites | src/db/providerHistoryImport.ts:2221-2297 | A committed import appends one row to each usage table for every query it imports, with that query's session, time, usage and turns, records the query's source for these two rows, and leaves all earlier rows and sources as they are |
| ImportRows.ImportedQueryIsWritten | src/db/providerHistoryImport.ts:2604-2650 | Every manifest query of a session that is there afterwards, and whose source was not recorded before, is one of the queries written |
| ImportRows.TotalsGrowByImported | src/db/providerHistoryImport.ts:2354-2382 | The totals of every session and of every date grow by exactly what the imported queries add up to, in query count, turns and every token bucket |
| ImportRows.SessionTotalsAddUp | src/db/providerHistoryImport.ts:2354-2382 | A session's totals are the sums over its rows |
| ImportRows.DateTotalsAddUp | src/db/providerHistoryImport.ts:2458-2493 | A date's totals are the sums over the rows of that date |
| ImportRounds.LedgerRecordsCalls | src/db/providerHistoryImport.ts:2317-2352 | Every ledger built by imports of both providers records the calls of its Codex queries, as the planner assumes |
| ImportRounds.ImportRecordsPlan | src/db/providerHistoryImport.ts:2515-2684 | Committing the manifest of a plan, with any Claude sessions beside it, records exactly the plan's Codex queries and calls |
| ImportRounds.PlanDependsOnRoots | src/db/providerHistoryImport.ts:439-472 | The plan depends on the database only through the roots it accepts and the calls it recorded |
| ImportRounds.ImportKeepsRootsExactly | src/db/providerHistoryImport.ts:2583-2603 | An import keeps every accepted root accepted, and accepts a new one exactly if the manifest takes over every session row that kept the planner off that root |
| ImportRounds.AcceptedExactly | src/db/providerHistoryImport.ts:439-472 | An importable root is accepted exactly if its import was not deleted and no session has its thread, apart from its own import and rows that one hides |
| ImportRounds.OwnThreadsFreeNoRoot | src/db/providerHistoryImport.ts:2583-2603 | No root is freed when no session imported for one source carries the thread of another |
| ImportRounds.DriftedSessionFreesRoot | src/db/providerHistoryImport.ts:2583-2603 | A concrete ledger and manifest that free a root and leave its turn uncovered |
| ImportRounds.PlanImportPlan | src/db/providerHistoryImport.ts:678-700 | Plan, import, plan again over the same transcripts: the second plan is empty exactly if no unrecorded turn lies under a root that the import frees, a condition on the ledger and the manifest before the import |
| ImportDb.Db.EnsureCallProvenance | src/db/providerHistoryImport.ts:2317-2352 | Records each call for its owner and fails on a call recorded for another one |
| ImportDb.Db.ApplyProviderHistoryImport | src/db/providerHistoryImport.ts:2495-2684 | The loops over sessions, queries and calls of either provider with rebuild and verification equal one atomic commit, whose rows and totals ImportRows states; on any error the ledger is unchanged |
| ClaudeCalls.ParentCopyIsKept | src/db/providerHistoryImport.ts:1451-1472 | Within a session every message is kept once, from one of its copies; a parent copy beats every child copy, and no copy of the kept copy's file is newer |
| ClaudeCalls.KeptFile | src/db/providerHistoryImport.ts:1453-1466 | The kept copy is a parent copy exactly if there is one; otherwise it lies in the file of the copy seen first |
| ClaudeCalls.LatestIsKeptExactly | src/db/providerHistoryImport.ts:1451-1466 | The kept copy is the newest parent copy, or without one the newest copy of all, exactly if the parent has a copy or no copy is newer than all copies in the file seen first |
| ClaudeCalls.OlderChildCopyCanBeKept | src/db/providerHistoryImport.ts:1461-1464 | The concrete failure: of two child files the first one's copy stays, though it is older |
| ClaudeCalls.MessagesArePartitioned | src/db/providerHistoryImport.ts:1617-1645 | A scanned message has an owner exactly unless it was imported from a source outside the scan, and an imported one stays with its source |
| ClaudeCalls.MessageIsAssigned | src/db/providerHistoryImport.ts:1598-1646 | A scanned message is assigned to some candidate exactly unless an earlier import outside the scan owns it |
| ClaudeCalls.AssignmentIsPartition | src/db/providerHistoryImport.ts:1598-1646 | No message is assigned to two candidates, and each candidate gets only calls it has |
| ClaudeCalls.OwnerIsOrderFree | src/db/providerHistoryImport.ts:1270-1285 | With distinct ownership keys the owner of a message and the copy it gets do not depend on the scan order |
| ClaudeCalls.LeastIsLeast | src/db/providerHistoryImport.ts:1633-1640 | The occurrence picked compares no later than every other one |
| ClaudeCalls.WinnerOwnsFirst | src/db/providerHistoryImport.ts:1261-1285 | The winner may claim the message; of all candidates that may, none started earlier, of those none ended earlier, of those none has fewer calls, then none ranks lower by session, prompt and path; among one owner's copies a parent copy comes before a child copy and then the newest first |
| ClaudeCalls.EndIsLast | src/db/providerHistoryImport.ts:1261-1268 | A candidate ends with its measured duration or with one of its calls, whichever is last |
| ClaudeCalls.AssignedToOwner | src/db/providerHistoryImport.ts:1598-1650 | A candidate is given each message it owns first in that sense, once, and no other |
| ClaudeCalls.DedupeSession | src/db/providerHistoryImport.ts:1454-1472 | The loop over the session's copies computes the kept copies |
| ClaudeCalls.ReconcileClaudeCallsGlobally | src/db/providerHistoryImport.ts:1598-1650 | The loop over messages gives every candidate exactly the messages it owns first by start, end, number of calls and ranks, each once |
| CodexCounters.ParseCodexRollout | src/db/codexUsageRepair.ts:257-446 | Reading a rollout record by record yields the turns and increments of the fold over its owned records |
| CodexCounters.TurnReader.Read | src/db/codexUsageRepair.ts:320-445 | One record of the loop moves the current turn, the previous total and the turn array by one step of the fold |
| CodexCounters.OwnedStartIndex | src/db/codexUsageRepair.ts:242-255 | The owned records begin at the first task the thread started itself, or at the first record when there is none |
| CodexCounters.GainsBelongToTheirTurn | src/db/codexUsageRepair.ts:320-446 | Each counter increment is recorded in exactly the turn it was seen in, and nothing else is recorded |
| CodexCounters.IncrementsTelescope | src/db/codexUsageRepair.ts:320-446 | All recorded increments sum, run by run, to final counter minus first counter plus the first event's own value; a counter reset starts a new run and counters outside turns play no part |
| CodexCounters.SteadyCounterIsExact | src/db/codexUsageRepair.ts:163-173 | A counter that never falls makes the whole usage the final counter |
| CodexTurns.TurnsShowRecords | src/db/codexUsageRepair.ts:320-446 | There is one turn for each opener; it has its opener's id and start, lists the child threads and searches of exactly the records read in it, shows what was last reported in it with the context that filled, and each of its increments was taken at one of its counter records under the model set then |
| CodexTurns.TurnsEndWithRecords | src/db/codexUsageRepair.ts:305-446 | A turn ends exactly if a task end was read in it, completed or aborted as that says; in a rollout without task records exactly if the agent answered in it, with its last response evidence |
| CodexRepairPlan.CandidateForQuery | src/db/codexUsageRepair.ts:696-736 | The verdict on a sole candidate: rejected for a lost child or an unexplained stored usage, else planned; what it is planned with, CodexRepairCorrection states |
| CodexRepairPlan.PlanCodexUsageRepair | src/db/codexUsageRepair.ts:789-994 | Planned rows and reports are the verdicts on all queries, with every row that shares a child turn turned into a report |
| CodexRepairCorrection.PlannedRowIsCorrected | src/db/codexUsageRepair.ts:586-596 | Every planned row corrects its query, in every token bucket, to the sum of the increments of its root turn and of the child turns that turn reaches, each once; without child turns to exactly the root turn's usage |
| CodexRepairCorrection.QueryIsPlannedExactly | src/db/codexUsageRepair.ts:696-736 | A query is judged repairable exactly if one turn of its thread completed in its window, no child of that turn's tree is lost, and the tree's increments, what its turns last reported, or what the root turn last reported equals the stored usage |
| CodexRepairCorrection.QueryIsRepairedExactly | src/db/codexUsageRepair.ts:959-982 | The manifest repairs a query exactly if it is repairable and no other repairable query's tree shares a child turn with its own |
| CodexRepairCorrection.ReasonIsExact | src/db/codexUsageRepair.ts:896-958 | A query is rejected for want of a turn, for several turns, for a lost child or for usage its tree does not explain, exactly if that is so |
| CodexRepairCorrection.WindowExactly | src/db/codexUsageRepair.ts:860-897 | A turn is a candidate exactly if it completed, to the second, between the query before and this one, and started at most two seconds earlier |
| CodexRepairEvidence.WindowsAreDisjoint | src/db/codexUsageRepair.ts:860-896 | No turn completes in the windows of two queries of one session |
| CodexRepairEvidence.RootTurnBacksOneRow | src/db/codexUsageRepair.ts:860-958 | A root turn backs one planned row, unless two sessions claim the same native thread |
| CodexRepairEvidence.RootIsSharedExactly | src/db/codexUsageRepair.ts:874-897 | Two planned rows rest on the same root turn exactly if their sessions claim the same native thread and one of its turns completed in both windows |
| CodexRepairEvidence.DistinctThreadsShareNoRoot | src/db/codexUsageRepair.ts:860-958 | If every session has its own native thread, root turns are never shared |
| CodexRepairEvidence.SharedThreadBacksTwoRows | src/db/codexUsageRepair.ts:860-958 | Two concrete sessions that claim one native thread and are both repaired from its one turn |
| CodexRepairEvidence.ChildTurnBacksOneRow | src/db/codexUsageRepair.ts:959-982 | After collision removal no child turn backs two rows of the whole manifest |
| CodexRepairEvidence.RootIsChildExactly | src/db/codexUsageRepair.ts:905-958 | The root turn of one planned row is among another row's child turns exactly if the other's root turn reaches it |
| CodexRepairEvidence.NeverChildIsNoEvidence | src/db/codexUsageRepair.ts:905-958 | That never happens to a row whose native thread has no parent and is named by no turn |
| CodexRepairEvidence.QueriesAreAccounted | src/db/codexUsageRepair.ts:805-982 | Every query is either planned or reported with a reason, never both and never dropped |
| CodexRepairEvidence.PlannedRowsMirror | src/db/codexUsageRepair.ts:639-652 | A planned row names a query and the ledger row that mirrors it in time, cost, estimate up to a billionth, cost flag, turns and usage |
| ClaudeChildEvidence.ChildEvidence | src/db/claudeUsageRepair.ts:386-431 | The two loops compute, per prompt, the messages that count for it, their usage, and whether the prompt is ambiguous |
| ClaudeChildEvidence.ChildMessageCountsOnce | src/db/claudeUsageRepair.ts:386-431 | Each child message counts for exactly one prompt or makes every prompt it is offered for ambiguous; root messages never count |
| ClaudeChildEvidence.CountedIdsAreDistinct | src/db/claudeUsageRepair.ts:405-428 | No message counts twice for its prompt |
| ClaudeChildEvidence.CountedUsageIsNewest | src/db/claudeUsageRepair.ts:405-428 | A counted message counts with its newest usage |
| ClaudeRepairPlan.PlanClaudeUsageRepair | src/db/claudeUsageRepair.ts:446-618 | Planned rows and reports are the verdicts on all queries |
| ClaudeRepairCorrection.PlannedRowIsCorrected | src/db/claudeUsageRepair.ts:554-600 | Every planned row corrects its query, in every token bucket, to the sum over its prompt's own calls and over the child messages that only this prompt owns, each once with its newest usage |
| ClaudeRepairCorrection.QueryIsRepairedExactly | src/db/claudeUsageRepair.ts:446-618 | A query is repaired exactly if no other session claims its native session, one prompt of its one root transcript started in its window, the stored usage is that of the prompt's own calls, no message of the prompt is offered for another one, and the messages it owns add something |
| ClaudeRepairPlan.WindowsAreDisjoint | src/db/claudeUsageRepair.ts:531-553 | No prompt starts in the windows of two queries of one session |
| ClaudeRepairPlan.PromptBacksOneRow | src/db/claudeUsageRepair.ts:531-600 | No prompt backs two rows of the manifest |
| ClaudeRepairPlan.ChildMessageBacksOneRow | src/db/claudeUsageRepair.ts:554-600 | Within one native session no child message is added to two rows |
| ClaudeRepairPlan.PlannedRowsMirror | src/db/claudeUsageRepair.ts:360-371 | A planned row names a query and a Claude ledger row that mirrors it in time, cost, estimate, cost flag, turns and usage, in the session it repairs |
| ClaudeRepairPlan.RepairedRowIsClean | src/db/claudeUsageRepair.ts:562-600 | Once a planned row is repaired, planning again finds its query clean and judges every other query of the session as before |
| RepairSafety.RepairIsExact | src/db/codexUsageRepair.ts:1099-1226 | A repair that commits leaves every planned query and ledger row at its correction, every correction applied, and every row the manifest does not name unchanged |
| RepairOutcome.RepairCommitsExactly | src/db/codexUsageRepair.ts:1078-1235 | A repair that names every row once commits exactly if each named row is there and shows its correction already or still equals its fingerprint in the session it names; then each row that did not show it holds exactly its correction, field by field, and every provider correction is in place |
| RepairOutcome.CommittedRowsAreCorrected | src/db/codexUsageRepair.ts:1018-1041 | After any commit both stored rows of every manifest row show the corrected usage, and for Codex the estimate up to a billionth, the cost flag, the unpriced flag, the provider and the session |
| RepairOutcome.SessionSumAddsUp | src/db/codexUsageRepair.ts:1043-1066 | The totals a repair rebuilds for a session are the sums over its queries; unpriced are those with neither estimate nor known cost |
| RepairOutcome.DailySumAddsUp | src/db/usageRepairShared.ts:255-272 | The daily row a repair rebuilds holds the sums over the ledger rows of that date |
| RepairOutcome.SessionEstimatesAddUp | src/db/codexUsageRepair.ts:1043-1066 | A session's rebuilt estimate is the sum over its queries that have one |
| RepairOutcome.DailyCostsAddUp | src/db/usageRepairShared.ts:255-272 | A day's rebuilt cost and estimate are the sums over the ledger rows of that date |
| RepairSafety.SecondRepairIsIdle | src/db/codexUsageRepair.ts:1018-1041 | A second apply of a committed manifest succeeds and changes nothing at all |
| RepairSafety.RepairKeepsAggregates | src/db/codexUsageRepair.ts:1043-1066 | A repair keeps session totals and daily rows equal to their sums when each manifest row speaks of one date and, for Claude, one session |
| RepairFlow.CodexRepairKeepsAggregates | src/db/codexUsageRepair.ts:1078-1235 | So every planned Codex manifest keeps the aggregates of every database, whatever happened since it was planned |
| RepairFlow.ClaudeRepairKeepsAggregates | src/db/claudeUsageRepair.ts:664-750 | So does every planned Claude manifest |
| RepairExactness.RowKeepsAggregatesExactly | src/db/claudeUsageRepair.ts:642-652 | A manifest row keeps the aggregates of every database exactly if its correction reaches only the session and the date that are rebuilt, for all stored rows it would correct |
| RepairExactness.MisnamedSessionGoesStale | src/db/claudeUsageRepair.ts:717-724 | A concrete row whose session id is not its query's leaves that session's totals stale |
| RepairExactness.SplitDatesGoStale | src/db/claudeUsageRepair.ts:717-725 | A concrete row whose query and ledger row lie on different dates leaves the ledger row's date stale |
| RepairDb.Db.ApplyRepair | src/db/codexUsageRepair.ts:1078-1235 | The row, correction, rebuild and verification loops equal one atomic commit: corrected, or thrown with the tables unchanged |
| DelegationLifecycle.RunFollows | src/db/delegations.ts:472-850 | Over any run that does not delete it, a completed, failed, timed out, cancelled or exhausted delegation keeps its outcome, and tokens and cost never fall |
| DelegationLifecycle.OutcomeStays | src/db/delegations.ts:747-786 | A finished delegation shows the reported result, error, status and end in every later run that does not delete it |
| DelegationLifecycle.FinishKeepsOutcome | src/db/delegations.ts:747-786 | Finishing ends an unfinished row once, with result and error each in its own column: none if empty, whole up to 12000 and 2000 characters, else cut to end with an ellipsis; an active worktree is retained and nothing else changes |
| DelegationLifecycle.TokensAreHighest | src/db/delegations.ts:517-529 | Over any run a delegation's tokens are the highest count ever reported for it |
| DelegationLifecycle.CostIsHighest | src/db/delegations.ts:531-544 | Over any run a delegation's cost is the highest ever reported for it |
| DelegationLifecycle.ResumeStartsAnew | src/db/delegations.ts:587-664 | A resume is taken exactly for an interrupted delegation outside routines with an attempt left and its child session there, and starts with an empty outcome and no budgets |
| DelegationLifecycle.CreateStartsWaiting | src/db/delegations.ts:112-177 | A delegation is created exactly under a free id, for a child session of its own, at a depth of one to three, and waits for its first attempt with nothing used |
| DelegationLifecycle.StartNeedsChild | src/db/delegations.ts:472-515 | A waiting delegation runs exactly if its child session is there and not archived, and is cancelled otherwise |
| DelegationLifecycle.RestartInterruptsExactly | src/db/delegations.ts:840-850 | After a restart no delegation is unfinished; those that were say so, all others are unchanged |
| DelegationLifecycle.AbandonCancelsExactly | src/db/delegations.ts:788-818 | Abandoning cancels exactly what could still be resumed and keeps the reason as its error |
| DelegationLifecycle.PartialResultFillsExactly | src/db/delegations.ts:820-838 | A late result fills an empty result column of a delegation that is over, and never replaces one |
| DelegationLifecycle.ProgressShowsWhileUnfinished | src/db/delegations.ts:546-558 | Progress shows while a delegation is unfinished, and the worktree state changes only for one that works in a worktree |
| DelegationLifecycle.StepsTouchNamedRows | src/db/delegations.ts:517-558 | A step for one delegation leaves every other as it is, and a cleanup deletes exactly what it names |
| DelegationLifecycle.AttemptsAreBounded | src/db/delegations.ts:587-664 | Every attempt count stays between one and the maximum over all runs |
| DelegationLifecycle.SnapshotIsFaithful | src/db/delegations.ts:56-110 | A snapshot shows a field unabridged exactly if the field is within its bound and not empty, or the hand-off counts are not negative |
| DelegationLifecycle.SnapshotsAreWellFormed | src/db/delegations.ts:56-110 | Every snapshot the code takes is one that a rollback in a run may carry |
| DelegationLifecycle.RollbackUndoesResume | src/db/delegations.ts:666-717 | Resuming and rolling back before the child launches, whatever else happens meanwhile, restores the row up to usage, worktree and update time exactly if its snapshot shows it unabridged |
| DelegationLifecycle.EmptyResultIsNotRestored | src/db/delegations.ts:666-717 | The failure: a stored result that is the empty text comes back as none |
| DelegationLifecycle.ReachableRollbackIsExact | src/db/delegations.ts:587-717 | From a clean database every reachable delegation is restored exactly, apart from its update time |
| DelegationLifecycle.ReachableRowsAreClean | src/db/delegations.ts:747-850 | Every reachable row satisfies that condition |
| DelegationDb.Db.CreateHlidDelegation | src/db/delegations.ts:112-177 | Inserts a pending row with one attempt unless a constraint or the unique child session refuses it |
| DelegationDb.Db.MarkHlidDelegationRunning | src/db/delegations.ts:472-515 | Claims a pending row whose child is available and cancels one whose child is gone |
| DelegationDb.Db.ResumeHlidDelegation | src/db/delegations.ts:587-664 | Starts the next attempt of an interrupted, resumable row and clears what the last attempt left |
| DelegationDb.Db.RollbackHlidDelegationResume | src/db/delegations.ts:666-717 | Writes the snapshot back only while the resumed attempt is pending |
| DelegationDb.Db.FinishHlidDelegation | src/db/delegations.ts:747-786 | Ends a pending or running row once |
| DelegationDb.Db.AbandonInterruptedHlidDelegation | src/db/delegations.ts:788-818 | Cancels a row that could still be resumed |
| DelegationDb.Db.InterruptActiveHlidDelegationsAfterRestart | src/db/delegations.ts:840-850 | Interrupts every active row and counts them |
| DelegationDb.Db.ReconcileOrphanedHlidDelegationsAfterRestart | src/db/delegations.ts:724-745 | Deletes exactly the orphans and returns their number |
| DelegationTree.CollectOrphans | src/db/delegations.ts:724-745 | The recursive query ends, on cycles too, with exactly the rows that, or whose ancestors, lack their child session |
| DelegationTree.CleanupLeavesWholeLineages | src/db/delegations.ts:724-745 | Afterwards every delegation has its child session and none lost its parent |
| DelegationTree.Descend | src/db/delegations.ts:284-320 | The recursive part of the rollup query ends, on cycles too, with exactly the repetition-free paths below the session |
| DelegationTree.ListHlidDelegationLifecycleRollup | src/db/delegations.ts:278-368 | The counts are the numbers of those paths, by the class of their last row |
| DelegationTree.RollupCountsEachOnce | src/db/delegations.ts:278-368 | On a well-formed forest each count is the number of descendants of its class in a plain traversal |
| DelegationTree.CountsDirect | src/db/delegations.ts:298-328 | The direct count is the number of delegations whose parent session is the root, on any data |
| DelegationTree.CountsAreDisjoint | src/db/delegations.ts:322-350 | Waiting, completed and failed never overlap, and what is in none of them is running or cancelled |
| LatexSegment.IsEscaped | src/components/MarkdownBody.tsx:82-88 | The backward loop decides the parity of the maximal run of backslashes |
| LatexSegment.SlashesAreMaximal | src/components/MarkdownBody.tsx:82-88 | The counted run consists of backslashes and none stands before it |
| LatexSegment.FindClosingDelimiter | src/components/MarkdownBody.tsx:90-101 | Skipping two characters behind an escaped closer still finds the first unescaped closer |
| LatexRewriting.NormalizeLatexSegment | src/components/MarkdownBody.tsx:103-161 | The loop puts out what reading the text step by step puts out: an equation as dollar math or as a block, a currency dollar escaped, every other character itself |
| LatexRewriting.NormalizedIsRewriting | src/components/MarkdownBody.tsx:103-161 | The output of the segment pass is the one text that reading the input in steps gives: at each position a dollar that marks money, an equation up to its first unescaped closer, or one character |
| LatexRewriting.OutputAtCut | src/components/MarkdownBody.tsx:103-161 | At every cut the output is what came out before, then the step taken there, then what comes out behind |
| LatexRewriting.InlineEquation | src/components/MarkdownBody.tsx:144-145 | An inline equation without an unescaped closer inside becomes the same equation between dollars |
| LatexRewriting.DisplayEquation | src/components/MarkdownBody.tsx:146-150 | A display equation becomes a block of its own with exactly the missing line breaks around the same equation |
| LatexSegment.PiecesCoverText | src/components/MarkdownBody.tsx:103-161 | The pieces' sources concatenate to the text: nothing is lost or invented |
| LatexSegment.EquationClosesFirst | src/components/MarkdownBody.tsx:138-154 | An equation is copied unchanged up to its first unescaped closer |
| LatexSegment.OpenerIsRewrittenExactly | src/components/MarkdownBody.tsx:138-154 | An opener is rewritten exactly if it is unescaped and an unescaped closer follows |
| LatexSegment.OrdinaryTextIsUnchanged | src/components/MarkdownBody.tsx:103-161 | Text without dollars and backslashes passes through unchanged |
| LatexScanner.FindInlineCodeEnd | src/components/MarkdownBody.tsx:169-181 | None exactly if no run of that many backticks begins from there on, else the end of the first one that does |
| LatexScanner.FencedCodeEnd | src/components/MarkdownBody.tsx:183-209 | None exactly if the line opens no fence, else the end of the first later line that closes it, or the end of the text if no line does |
| LatexScanner.FenceClosesFirst | src/components/MarkdownBody.tsx:193-206 | No line inside a fenced block closes it before its last line |
| LatexScanner.SpanShape | src/components/MarkdownBody.tsx:244-254 | A code span opens and closes with equally long backtick runs and no run of that length lies between (section 6.1 of CommonMark 0.31.2) |
| LatexScanner.FencedSliceShape | src/components/MarkdownBody.tsx:223-231 | A fenced slice starts a line with an opening fence and ends behind the first line that closes it, or with the text if none does (section 4.5 of CommonMark 0.31.2) |
| LatexScanner.CodeSlicesAreCode | src/components/MarkdownBody.tsx:221-254 | Every code slice is code that starts where the slice starts |
| LatexScanner.PlainSlicesHoldNoBlocks | src/components/MarkdownBody.tsx:221-243 | No line start inside a plain slice opens a fence or is indented code |
| LatexScanner.PlainBackticksAreUnpaired | src/components/MarkdownBody.tsx:244-257 | After a backtick run inside a plain slice no run of the same length begins anywhere in the text |
| LatexScanner.TilesCoverText | src/components/MarkdownBody.tsx:216-263 | Plain and code slices follow one another without gap or overlap and cover the text |
| LatexScanner.NormalizationKeepsCode | src/components/MarkdownBody.tsx:216-263 | The slices concatenate to the input, code slices are code and reach the output unchanged, and plain slices, the only ones that are rewritten, hold no fence opener, no indented line and no paired backtick run |
| LatexNormalization.NormalizeLatexMath | src/components/MarkdownBody.tsx:216-263 | The cursor loop terminates and outputs the one normalization of the text |
| LatexNormalization.NormalizedIsNormalization | src/components/MarkdownBody.tsx:216-263 | The output is the one text made of slices in turn: a plain slice that holds no fence opener, indented line or paired backtick run, rewritten in steps, and a code slice that is exactly a fenced block, an indented line or a code span, kept as it is |
| LatexScanner.FenceOpensExactly | src/components/MarkdownBody.tsx:183-190 | A line opens a fence exactly if three backticks or tildes stand behind at most three spaces |
| LatexScanner.FenceClosesExactly | src/components/MarkdownBody.tsx:193-206 | A line closes a fence exactly if behind at most three spaces it holds at least as many of its markers and then only blanks |
| LatexScanner.IndentedExactly | src/components/MarkdownBody.tsx:233-243 | A line is indented code exactly if it begins with a tab or four spaces |
| PushPolicies.RevisionGrowsExactly | src/db/pushNotifications.ts:761-778 | A revision is larger than the one before exactly if that one is still a safe integer or the clock has passed it |
| PushPolicies.UnsafeRevisionIsForgotten | src/db/pushNotifications.ts:761-778 | The concrete failure: one past the safe integers, at the last date a clock can read |
| PushPolicies.RevisionsStrictlyIncrease | src/db/pushNotifications.ts:761-778 | Over any run, whatever the clocks do, a new policy's revision is larger than every revision given out before |
| PushPolicies.LaterPolicySurvives | src/db/pushNotifications.ts:2330-2340 | Consuming an observed revision never deletes a policy set after it was observed |
| PushPolicies.ClosedStaysSuppressed | src/db/pushNotifications.ts:2125-2166 | A delivery closed by its one-shot stays suppressed until a provider acceptance is recorded |
| PushPolicies.LeavingClosesForGood | src/db/pushNotifications.ts:2359-2414 | Leaving a one-shot closes every delivery it still authorizes, for the rest of the run |
| PushPolicies.ConsumingClosesOthers | src/db/pushNotifications.ts:2269-2319 | Consuming an accepted one-shot closes the open deliveries of all other events it authorized |
| PushPolicies.ConsumedNeverReturns | src/db/pushNotifications.ts:2261-2356 | A consumed one-shot never comes back: its policy is gone, and for the rest of the run, whatever the clocks do, a new delivery that asks for it is suppressed |
| PushPolicies.ConsumingClosesExactly | src/db/pushNotifications.ts:2269-2319 | Consuming closes a delivery exactly if it is open, was authorized by the same one-shot, and that one-shot was accepted for another event and not for its own |
| PushPolicies.ConsumingClearsExactly | src/db/pushNotifications.ts:2320-2356 | Consuming clears exactly the policy and the markers of the given mode and revision, those of every revision if none is given, and no other session's |
| PushPolicies.ReceiptIsRecordedExactly | src/db/pushNotifications.ts:2179-2258 | A receipt counts exactly if its delivery exists, names no malformed one-shot, and reports a sending or finds the delivery not closed; a sending leaves one marker for the one-shot it names |
| PushPolicies.AcceptanceIsRecorded | src/db/pushNotifications.ts:1852-1996 | A recovered acceptance marks its delivery sent and leaves one marker for the one-shot that authorized it |
| PushPolicies.CancellingClosesExactly | src/db/pushNotifications.ts:2359-2414 | Cancelling a session's deliveries closes exactly its open ones |
| PushPolicies.PoliciesChangeOnlyAsAsked | src/db/pushNotifications.ts:1018-1036 | Clearing a one-shot leaves every other policy, an initial policy never replaces one, and expiry closes exactly the unsent deliveries of its event |
| PushPolicies.DecisionIsAuthorizedExactly | src/db/pushNotifications.ts:2089-2166 | For any delivery, pending ones included: a closed one stays as it is, and otherwise a one-shot decision is stored as asked exactly if the delivery was not sent and the live policy or its own snapshot authorizes it, and closed as cancelled if neither does |
| PushDb.Db.NextPushPolicyRevision | src/db/pushNotifications.ts:761-778 | Stores and returns the next revision |
| PushDb.Db.SetPushSessionPolicy | src/db/pushNotifications.ts:869-917 | Sets a policy with a new revision, or leaves the override and cancels what it still authorizes |
| PushDb.Db.RecordPushNotificationDecision | src/db/pushNotifications.ts:2042-2177 | One decision step, closed and sent deliveries kept |
| PushDb.Db.RecordPushNotificationReceipt | src/db/pushNotifications.ts:2179-2258 | One receipt step with its one-shot marker |
| PushDb.Db.ConsumePushNotificationOneShot | src/db/pushNotifications.ts:2261-2356 | Closes the other deliveries, clears the policy of the consumed revision and drops its markers |
| PushDb.Db.CancelPushNotificationOneShotDeliveries | src/db/pushNotifications.ts:2359-2414 | Suppresses every open delivery of the session's one-shot |
| RoutineSchedule.NextIsLater | src/lib/routineSchedule.ts:31-68 | The next occurrence is strictly later than the time it is asked for, for every kind of schedule |
| RoutineSchedule.NextIntervalIsFirst | src/lib/routineSchedule.ts:42-51 | An interval schedule skips no point of its grid |
| RoutineSchedule.NextIsExact | src/lib/routineSchedule.ts:31-68 | The next occurrence is the single one while it lies ahead, the first later point of the interval's grid, or the first later candidate of the days up to 370, and none exactly if there is none |
| RoutineClaims.OccurrencesRunOnce | src/db/routines.ts:437-478 | Over all runs each occurrence of a routine gets at most one run row |
| RoutineClaims.DueRoutinesAreHandled | src/db/routines.ts:480-570 | Claiming a due list handles every routine on it, whatever else is on the list: its occurrence, if it has no run yet, gets exactly one, claimed under the lease when the routine is idle or may overlap, in time and authorized, else reported as skipped or missed; and the routine moves on to its next time |
| RoutineClaims.RenewedRunIsKept | src/db/routines.ts:739-767 | A run that its owner renews stays active under the new lease, whatever else happens, until it is finished or a sweep reaches past the lease |
| RoutineClaims.SweepInterruptsExactly | src/db/routines.ts:755-767 | Nobody but its owner extends a lease, and a sweep interrupts exactly the active runs whose lease ended before the cutoff |
| RoutineClaims.FinishShowsOutcome | src/db/routines.ts:716-737 | A finished run shows its outcome, holds no lease, and no other run changes |
| RoutineClaims.ManualClaimRuns | src/db/routines.ts:572-596 | A manual claim starts a run at once exactly if the routine is not archived, is authorized, and was not claimed by hand at this very time |
| RoutineClaims.ClaimsMoveForward | src/db/routines.ts:480-570 | Between edits of a routine the times it is claimed for strictly increase, whatever the clock does |
| RoutineClaims.ScheduledClaimsAreAlone | src/db/routines.ts:480-570 | Whenever in a run a due list is claimed, each run it starts of a no-overlap routine is that routine's only active run, manual ones included, and there was none before |
| RoutineClaims.ClaimsAreAlone | src/db/routines.ts:505-531 | The same for the claims of one due list from any state |
| RoutineClaims.ScheduleNeverOverlaps | src/db/routines.ts:480-570 | Over all runs, manual claims included, a no-overlap routine has at most one active run claimed by schedule |
| RoutineClaims.DueStaysDue | src/db/routines.ts:489-510 | Claims of other routines in the same call leave a due routine due and unchanged |
| RoutineDb.Db.ClaimDueRoutineRuns | src/db/routines.ts:480-570 | The loop over the due list equals one claim step that handles every routine on the list, and returns exactly the runs it claimed, in order |
| RoutineDb.Db.ClaimRun | src/db/routines.ts:437-478 | A claim needs an unrevoked, unexpired profile and a free occurrence |
| RoutineDb.Db.InterruptStaleRoutineRuns | src/db/routines.ts:755-767 | Interrupts exactly the active runs without a live lease and returns their number |
| RoutineDb.Db.FinishRoutineRun | src/db/routines.ts:716-737 | Ends a run with an outcome and gives up its lease |

## Left out

- `linkProviderFrameToolStart`, the returned revision payloads, `sdk_uuid` and copied tool rows of forks: they are not read by the state that is modelled.
- `getProviderMessageFrameDisposition` and `getProviderToolAssistantSeq`: would only add easy members.
- Tool names, inputs, model and workspace columns, result previews and lengths: stored as given.
- Model, cost, price, working directory and surface of imported queries, and the transcripts and start and end times of imported sessions.
- Of an import plan the session records around the queries: the plan is modelled as its queries with the session each belongs to, and how the Claude half of a plan accepts sessions is not modelled.
- Reading and parsing of JSONL transcripts, causal prompt search for Claude child files, path discovery and hashing: their results are parameters.
- The `usage_repair_runs` table, manifest totals and manifest versions.
- The sessions table in delegation resume and rollback: the rollback writes the delegation's selection there, not what the session had before.
- Token, cost and duration sums of the delegation rollup, the hundred-root limit, and the ancestor lineage query.
- Delivery attempts, batches, event statuses and the push policy lookup along delegated sessions; the one-pass reconciliation of delivered attempts is not a fixpoint.
- Routine definitions, grants and notification recovery; time zone arithmetic of daily and weekly schedules.
- Idempotence of `normalizeLatexMath`: it does not hold, since `\(5\)` becomes `$5$`, whose dollar a second pass escapes.
- Text is a sequence of characters; JavaScript's UTF-16 units and Unicode digits outside ASCII are not modelled.
- Each SQL statement is one step; the due list of routines is given by what it returns, and how SQLite finds rows is not modelled.
- RepairSafety.RepairKeepsAggregates: states one direction for manifests of many rows, because the exact condition of a row is stated by RepairExactness.RowKeepsAggregatesExactly and rows that repair the same session can hide each other's effect.
