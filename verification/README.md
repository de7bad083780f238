# HopClaw, modelled and proved in Dafny

HopClaw is an agent runtime in which many runs, user messages and parallel tasks share one session. This
project models the machinery that makes the sharing safe and proves what it promises, for every input and
every interleaving. Concurrent protocols are state machines: a pure step function, an invariant that every
step keeps, and results about whole runs. Code that works in place is a class or a loop whose contract
equates it with that step function. `dafny verify dfyconfig.toml` checks the project; nothing of the
original program was executed.

| file | what it models |
|---|---|
| `Lease.dfy`, `SessionStore.dfy` | the session lease and optimistic commit protocol, and the store and client code that perform its steps |
| `Coordinator.dfy`, `Admission.dfy` | the per-session run queue, and admission of runs through queue, compare-and-set, execution claim and cancellation |
| `Batch.dfy`, `Serializability.dfy`, `ScheduleOrder.dfy` | choosing a conflict-free batch of ready tasks, why its order does not matter, and when a whole schedule keeps task order |
| `Plan.dfy`, `Graph.dfy`, `GraphHistory.dfy`, `PlanConflicts.dfy`, `PlanExecutor.dfy` | plans, the execution graph rebuilt from them, its memory over any history, which plan tasks are kept apart, and the parallel fan-out with merge and rollback |
| `Compaction.dfy` | folding empty final tasks into their predecessor |
| `MemoryHistory.dfy`, `EmbeddingCache.dfy`, `Mmr.dfy` | bounded value history, embedding cache, merge and re-ranking of search results |
| `Retry.dfy` | model calls with retry, degradation and fail-over |
| `Clarification.dfy` | preflight reports and the cap on clarification rounds |
| `Capabilities.dfy` | capability negotiation |
| `Support.dfy` | options, subsequences, sorting, trimming and string order |

## Where the code does less than one might expect

Each point is proved, together with a condition under which the expectation holds; the condition is exact where it says "if and only if".

- Claims are not exclusive by queue, compare-and-set and execution claim alone. If the component's methods are called
  concurrently, finalizing a *queued* run as failed is refused by the transition table but still finishes the run's
  slot, and two runs of one session can be claimed (`Admission.RefusedFinalizationClaimsTwice`). While a run holds its
  slot another claim succeeds if and only if a displaced executor's run is stored as queued
  (`Admission.OnlyDisplacedExecutorsReachTheClaim`). That never happens if slots are finished only under a stored
  terminal status or without an executor of that run (`Admission.NoOtherRunIsClaimed`); the runtime keeps to the latter
  for background failures, because the dispatcher marks them after the run's executor returned
  (runtime/service.go:841-885).
- Work is exclusive all the same, because a finalization cancels the executor's context before it finishes the slot
  and a cancelled executor cannot load the session (`Admission.OneLiveExecutor`), unless the executor registers its
  context between the two (`Admission.LateExecutorGetsInside`).
- Batches are serializable, schedules need not be: a later task can overtake an earlier ready task it conflicts with
  (`ScheduleOrder.SomeScheduleReorders`). The order is kept if and only if no round passes the later of two conflicting
  tasks while skipping the earlier (`ScheduleOrder.OrderKeptIff`), and then the whole schedule is serializable
  (`ScheduleOrder.ScheduleIsSerializable`).
- The rollback of a dispatched batch restores the statuses if and only if all its tasks were queued before
  (`PlanExecutor.RollbackRestoresFreshBatches`, `PlanExecutor.RollbackRequeuesARunningTask`); attempt counts are not
  taken back.
- A final task that depends on itself, and only such a one, is lost by a compaction pass
  (`Compaction.PassKeepsFinalTask`, `Compaction.SelfDependentFinalTaskIsLost`).
- A fail-over on the last attempt leaves a model in the request that was never called
  (`Retry.FailedRunCanNameAnUntriedModel`, `Retry.RequestNamesTheLastModel`).
- The clarification cap follows parent links: follow-ups that name another parent can be asked without end
  (`Clarification.AskedAnyNumberOfTimes`). The cap holds over a conversation if and only if no follow-up asks while the
  chain above the parent it names is below the maximum and its own thread is not (`Clarification.CapHoldsIff`);
  follow-ups that name no other parent never do (`Clarification.ThreadsNeverBreakTheCap`).
- A memory write that names no source counts as a manual one, and takes a key over even from a user; only agents' writes
  are refused (`MemoryHistory.SourceOfUpsert`, `MemoryHistory.AgentWriteIff`).
- A dot in a requested capability key is read as a step into an object (`Capabilities.DottedKeyIsReadAsPath`,
  `Capabilities.NegotiationOfAnyKeys`).
- Compaction can take a user's message out of the transcript (`Lease.CompactionCanDropAUserMessage`). Nothing is ever
  lost if and only if every clone saved extends what is stored (`Lease.NoLostUpdateIff`), which holds if holders only
  append (`Lease.AppendingHoldersKeep`).
- Tool calls whose results lose a race stay in the transcript without results (`Lease.ResultsFollowTheirCalls`).

Code and comments disagree in agent/retry.go: the comments on the configuration give 3 attempts and a maximum delay
of 30 seconds as defaults (lines 19 and 21), the constants are 4 and 20 seconds (lines 39 and 41). The model follows
the constants.

## Assumptions

Sessions are not deleted and recreated under one id. Clients save only while they hold the lock; the store itself does
not check that. Goroutine scheduling, the model's replies, the router's choices,
random draws, the clock, cancellation and the embedder are arbitrary parameters. A step that would block on a lock
is one that is not taken yet; in the store's methods it is reported as `Busy`. Durations are integers and scores are
reals; similarity is an arbitrary function. JSON encoding of a memory record is lossless. Trimming covers ASCII white
space. Plans have distinct, trimmed, non-empty task ids; results about dependency paths also take them acyclic and
without dangling dependencies; the planner's own validation does not look for cycles.

## Model

| member | source | states |
|---|---|---|
| `Lease.ActKeepsTurn` | agent/component_turns.go:230-245 | a critical section of any kind writes at most once, a write raises the revision by exactly one, and the client's own snapshot stays consistent with the store |
| `Lease.OthersKeepTurn` | agent/component_turns.go:85-109 | a client that does not hold the lock is not disturbed by another client's write: its snapshot is older, or equal to what is stored |
| `Lease.StepKeepsInv` | agent/component_turns.go:398-446 | every step of every client keeps the invariant: one lock holder, snapshots never newer than the store and equal to it at equal revisions |
| `Lease.RunKeepsInv` | agent/component_turns.go:398-446 | the invariant holds in every state of every interleaving |
| `Lease.EqualRevisionsEqualSessions` | agent/memory.go:223-243 | over a whole run the revision never goes back, and two moments with one revision have one transcript |
| `Lease.CommitsOnItsSnapshot` | agent/component_turns.go:505-524 | a turn commits text or tool calls on exactly the transcript its prompt was built from; one that lost a race or was cancelled writes nothing and holds the lease on the current session |
| `Lease.SeedPersists` | agent/component_turns.go:398-446 | until a client begins another turn its snapshot is the one taken when it last let the lock go |
| `Lease.SameRevisionMeansUndisturbed` | agent/component_turns.go:505-524 | the revision check is exact: equal revisions if and only if nobody wrote in between |
| `Lease.CommitsIffUndisturbed` | agent/staged_turn_runner.go:147-164 | a turn begun at one step and answered at a later one commits if and only if it was not cancelled and nobody wrote between them |
| `Lease.BatchLandsIffUndisturbed` | agent/plan_executor.go:206-277 | a parallel batch appends its messages to the transcript it was dispatched on if nobody wrote meanwhile; otherwise it appends nothing and is retried |
| `Lease.CallsModelIffUndisturbed` | agent/component_turns.go:373-446 | between snapshot and model call: the call is made if and only if the run was not cancelled, nobody wrote and compaction changes nothing; a compaction that changes something is what is then stored, and otherwise nothing is written |
| `Lease.HoldersStep` | agent/component_turns.go:85-109 | over every run: acquiring hands out the stored session, an edit stays in the clone, saving stores the clone one revision on and only saving writes, giving up frees the lock, parked tools keep the calls they answer |
| `Lease.PendingPersists` | agent/run_turn_execution.go:87-100 | committed tool calls stay owed, with the revision they were saved at, until the client answers again |
| `Lease.ResultsFollowTheirCalls` | agent/staged_turn_runner.go:390-475 | for every interleaving, also across an approval pause: results land if and only if nobody wrote since their calls, and then directly after the message that made those calls |
| `Lease.ToolsResumeIffUndisturbed` | agent/staged_turn_runner.go:592-669 | over every run: tools that waited for approval are run if and only if the approval came and nobody wrote since their calls; otherwise the turn is retried on the current session |
| `Lease.StepAppends` | agent/memory.go:96-124 | holders that only append keep clones that extend the store, and save nothing that loses a message |
| `Lease.NoLostUpdate` | agent/memory.go:198-243 | while every clone saved extends the store, the transcript at one moment is a prefix of it later |
| `Lease.UserMessagesStay` | agent/memory.go:96-124 | while every clone saved extends the store, an accepted user message keeps its place |
| `Lease.SteeringIsAppended` | agent/component_recovery.go:24-60 | over every run: beginning a turn appends exactly the drained steering messages to the stored transcript, the store is unchanged if and only if there are none, and the snapshot is what is then stored |
| `Lease.SteeringStays` | agent/component_recovery.go:29-47 | while every clone saved extends the store, each steering message keeps its place |
| `Lease.StepKeepsTranscriptIff` | agent/memory.go:223-243 | a step keeps the transcript if and only if the clone it saves, by a save or a compaction, extends what is stored |
| `Lease.NoLostUpdateIff` | agent/memory.go:198-243 | over every run nothing is ever lost if and only if every clone saved extends what is stored |
| `Lease.AppendingHoldersKeep` | agent/component_turns.go:85-109 | holders that change their clone only by appending never lose anything |
| `Lease.CompactionCanDropAUserMessage` | agent/component_turns.go:338-355 | a run in which compaction takes a user's message out of the transcript |
| `SessionStore.InMemorySessionStore.AppendUserMessage` | agent/memory.go:96-124 | appends under the session's lock and raises the revision; an unknown session is an error |
| `SessionStore.InMemorySessionStore.LoadForExecution` | agent/memory.go:198-221 | gives a clone of the stored session and takes the lock, exactly when the session exists, is free and the caller was not cancelled |
| `SessionStore.InMemorySessionStore.Save` | agent/memory.go:223-243 | stores the clone one revision above the stored one, whatever revision the clone carried, and hands that revision back |
| `SessionStore.StagedTurn.Close` | agent/component_turns.go:85-95 | lets the lock go once and forgets the turn |
| `SessionStore.StagedTurn.Load` | agent/component_turns.go:97-109 | takes the lease exactly as the protocol's acquire step, or changes nothing |
| `SessionStore.StagedTurn.Reload` | agent/component_turns.go:97-109 | takes the lease again with a new clone, as the protocol's reload step, or changes nothing |
| `SessionStore.StagedTurn.PrepareTurnSeed` | agent/component_turns.go:230-245 | the stored transcript gains exactly the drained steering messages, nothing is written if and only if there are none, and the turn holds a snapshot of what is stored, with the lock let go |
| `SessionStore.StagedTurn.CommitCandidate` | agent/component_turns.go:373-446 | rechecks the revision after the prompt is built, saves a compaction that changed anything of the context session, or goes on, as the protocol's recheck step |
| `SessionStore.StagedTurn.FinishTurn` | agent/staged_turn_runner.go:147-183 | retries if and only if the run was cancelled or somebody wrote, with the store unchanged; otherwise the stored transcript gains exactly the reply |
| `SessionStore.StagedTurn.CommitToolResults` | agent/run_turn_execution.go:315-374 | retries if and only if the run was cancelled or somebody wrote, with the store unchanged; otherwise the stored transcript gains exactly the results, appended one by one |
| `SessionStore.StagedTurn.MergeBatchMessages` | agent/plan_executor.go:206-277 | retries if and only if somebody wrote, with the store unchanged; otherwise the stored transcript gains exactly what the batch produced |
| `SessionStore.StagedTurn.ResumePendingTools` | agent/staged_turn_runner.go:592-669 | a run that waited for approval goes on with its tools only if the revision is the one it stored |
| `Coordinator.QueueKeepsArrivalOrder` | agent/memory.go:757-839 | over any sequence of operations the waiting runs stand in arrival order |
| `Coordinator.LeavesOnlyFor` | agent/memory.go:757-839 | a waiting run leaves only by starting at the head, by its own finish, as the newest under coalesce, or by an interrupt |
| `Coordinator.EnqueueEffect` | agent/memory.go:757-782 | each mode: a run is rejected if and only if the mode is Reject and the session is not idle; an accepted run is last, behind all that waited (Enqueue, Reject), all but the newest (Coalesce) or none (Interrupt), and the active run is untouched |
| `Coordinator.StartEffect` | agent/memory.go:795-818 | a start is refused if and only if another run is active; a started run is active, and leaves the queue if and only if it was at its head and not active |
| `Coordinator.EveryArrivalIsAccountedFor` | agent/memory.go:757-839 | over any sequence of operations an accepted run waits in the queue, or a later operation started it at the head, finished it, coalesced onto it as the newest or interrupted |
| `Coordinator.FinishedIsGone` | agent/memory.go:820-839 | after FinishRun the run is neither active nor queued, also if it started from mid-queue; exactly the other runs stay, in their order |
| `Coordinator.RepeatedStartThenFinishFreesTheSession` | agent/memory.go:795-818 | starting the active run again succeeds, and undoing that start would free the session: the queue alone is not exclusive |
| `Coordinator.FilterInPlace` | agent/memory.go:820-839 | the in-place filter of the backing array leaves exactly the other runs, in order |
| `Coordinator.SessionQueue.EnqueueSessionRun` | agent/memory.go:757-782 | the four queue modes on the slice: who is rejected, where an accepted run waits and behind whom; rejection leaves the queue unchanged |
| `Coordinator.SessionQueue.NextQueuedRun` | agent/memory.go:784-793 | the head of the queue, if there is one |
| `Coordinator.SessionQueue.StartRun` | agent/memory.go:795-818 | makes the run active and takes it from the head, or refuses if and only if another one is active |
| `Coordinator.SessionQueue.FinishRun` | agent/memory.go:820-839 | clears the run from the slot and, in place, from the queue |
| `Admission.StepKeepsInv` | agent/run_execution.go:32-73 | every step keeps: no two claims of one run, an undisplaced executor's run is the active one, and a displaced executor is cancelled or registered late |
| `Admission.RunKeepsInv` | agent/run_execution.go:32-73 | the admission invariant holds in every state of every interleaving |
| `Admission.AtMostOneExecutes` | agent/component.go:1032-1043 | whatever is written to the run store, the same run never executes twice at once and at most one undisplaced executor holds the session |
| `Admission.OneLiveExecutor` | agent/run_finalizer.go:79-86 | in every interleaving and for every content of the run store: of two executors that hold the session one has a cancelled context, or registered it while a finalization of its own run was under way |
| `Admission.OnlyDisplacedExecutorsReachTheClaim` | agent/memory.go:659-678 | while a run holds its slot, another claim succeeds if and only if its run is stored as queued, only a displaced executor gets that far, and if its context is live it registered late |
| `Admission.DisplacedStayTerminal` | agent/run_finalizer.go:40-87 | in a disciplined run a displaced executor's run is terminal for good |
| `Admission.NoOtherRunIsClaimed` | agent/run_execution.go:32-73 | exclusivity of claims over all disciplined runs: from a successful claim until its own finish, or a finalization of that run, no other run of the session is claimed |
| `Admission.UndoKeepsTheHolder` | agent/run_execution.go:48-71 | undoing a failed claim never takes the slot from the run that holds it |
| `Admission.OwnFinishFreesTheSlot` | agent/run_execution.go:48-71 | an executor that ends its own work frees the session: no run is active, its run waits nowhere, the others wait in their order, and any of them can start |
| `Admission.RunHoldsClaims` | agent/component.go:1032-1043 | in every state of every interleaving a claimed run has an executor that holds the claim: none is left behind |
| `Admission.TurnedAwayIff` | agent/component.go:1032-1043 | an executor is turned away if and only if another executor is at work on the same run |
| `Admission.ReachableFrom` | internal/domain/runstate/runstate.go:65-89 | the table of status changes read by target: who can be queued, run, wait, stream, complete, fail or be cancelled |
| `Admission.CancellingIsTerminal` | internal/domain/runstate/runstate.go:65-89 | cancelling ends in a terminal status from every status; failing does so exactly if the run was not queued or waiting for input |
| `Admission.RefusedFinalizationClaimsTwice` | agent/run_finalizer.go:127-152 | the discipline is needed for claims: a refused finalization of a queued run finishes its slot, two runs are claimed, and the cancelled one is kept from loading the session |
| `Admission.LateExecutorGetsInside` | agent/run_execution.go:22-30 | registering in time is needed for work: an executor that registers between the cancelling and the finishing of such a finalization loads the session beside the other run |
| `Admission.Component.ClaimRunExecution` | agent/component.go:1032-1043 | claims a run exactly if no executor of it is registered |
| `Admission.Component.ClaimQueuedRun` | agent/memory.go:659-678 | the compare-and-set from queued to running |
| `Admission.Component.ClaimQueuedExecution` | agent/run_execution.go:32-73 | starts the slot, claims the run, and undoes the start if the claim fails |
| `Admission.Component.FinalizeRun` | agent/run_finalizer.go:40-87 | stores the final status if the table allows it, cancels a registered context, then clears the run from slot and queue; a terminal run is left alone |
| `Batch.TasksShareKey` | agent/execution_graph.go:263-277 | true exactly if some key, trimmed, is on both lists |
| `Batch.TasksConflict` | agent/execution_graph.go:240-261 | the conflict relation between two tasks |
| `Batch.SelectExecutionBatch` | agent/execution_graph.go:113-151 | the greedy choice, equal to its recursive definition, for which the next rows hold |
| `Batch.ConflictSymmetric` | agent/execution_graph.go:240-261 | conflict does not depend on the order of the two tasks |
| `Batch.BatchIsMaximalConflictFree` | agent/execution_graph.go:113-151 | the batch is in task order, conflict-free, starts with the first ready task, leaves out only tasks that conflict with a chosen one, and a serial-only or session-exclusive task runs alone |
| `Batch.ScheduleRunsEveryTask` | agent/execution_graph.go:113-151 | repeated selection runs every ready task exactly once, in at most as many conflict-free batches as there are tasks |
| `Batch.ScheduleCanReorderConflictingTasks` | agent/execution_graph.go:113-151 | three ready tasks of which the third is chosen with the first although it conflicts with the second |
| `ScheduleOrder.ChosenIff` | agent/execution_graph.go:128-149 | a task is chosen exactly if it conflicts with nothing chosen from the tasks before it |
| `ScheduleOrder.OvertakesIff` | agent/execution_graph.go:128-149 | a batch takes the later of two conflicting tasks without the earlier if and only if the guard skips the earlier and passes the later |
| `ScheduleOrder.OrderKeptIff` | agent/execution_graph.go:113-151 | a schedule runs all conflicting ready tasks in task order if and only if no round overtakes |
| `ScheduleOrder.SomeScheduleReorders` | agent/execution_graph.go:113-151 | the failing side occurs |
| `ScheduleOrder.ScheduleIsSerializable` | agent/execution_graph.go:113-151 | if no round overtakes, the whole schedule ends in the same resources as running the ready tasks one after another in task order |
| `Serializability.KeyAfter` | agent/execution_graph.go:240-277 | after any order of a conflict-free batch each resource holds what its only writer makes of the initial state |
| `Serializability.OrdersAgree` | agent/execution_graph.go:240-277 | any two orders of a conflict-free set of tasks end in the same resources |
| `Serializability.BatchIsSerializable` | agent/execution_graph.go:113-151 | every permutation of a chosen batch ends in the same resource state as running it in task order |
| `Plan.MarkEachEffect` | planner/state.go:171-182 | marking runs exactly the queued tasks named, clears their errors and changes nothing else of the plan |
| `Plan.MarkRunningRecords` | planner/state.go:171-186 | marking adds to the record of running tasks exactly the queued tasks named, and makes the first of them active if none was |
| `Plan.NormalizeEffect` | planner/state.go:39-74 | normalizing queues the tasks without a status and changes no other, and keeps of the record of running tasks exactly those that run, in order |
| `Graph.NormalStringsAreNormal` | agent/execution_graph.go:371-393 | normalized keys are trimmed, non-blank, distinct and sorted |
| `Graph.NormalStringsIdempotent` | agent/execution_graph.go:371-393 | normalizing a normal list changes nothing |
| `Graph.NormalStringsMembers` | agent/execution_graph.go:371-393 | normalizing keeps exactly the non-blank entries, trimmed |
| `Graph.RebuiltIsGood` | agent/execution_graph.go:279-369 | a rebuilt graph has normal tasks with distinct ids, whatever graph was there before |
| `Graph.RebuildIdempotent` | agent/execution_graph.go:279-327 | rebuilding twice is rebuilding once, for every earlier graph |
| `GraphHistory.MarkEffect` | agent/execution_graph.go:153-165 | a dispatch raises a task's attempt count by the number of times it is named, and sets it running |
| `GraphHistory.EnsureFollows` | agent/execution_graph.go:279-327 | a rebuild follows the plan and loses no attempt count, metadata, idempotency key or last outcome |
| `GraphHistory.ApplyKeepsHistory` | agent/execution_graph.go:153-238 | rebuild, dispatch, requeue, apply and sync each keep the graph's memory |
| `GraphHistory.GraphRemembersEverything` | agent/execution_graph.go:153-369 | over any sequence of operations on one plan each attempt count is the number of dispatches, and conflict metadata and idempotency key are those of the first build |
| `GraphHistory.SyncEffect` | agent/execution_graph.go:208-238 | a sync gives each graph task its own plan task's status and, when skipped or cancelled, its error |
| `GraphHistory.SyncedStatuses` | agent/execution_graph.go:208-238 | after a sync, at the end of any history, every graph status is the plan's status |
| `GraphHistory.OutcomeHistory` | agent/execution_graph.go:153-238 | after any history a task's last outcome changes only when its own result is applied, and is then that result's, or by a sync, and is then the plan's word on a task it skipped or cancelled |
| `GraphHistory.ResultEffect` | agent/execution_graph.go:180-206 | a result sets its task's status and last outcome, with the error unless it completed, and touches no other task |
| `PlanConflicts.MetadataOfTask` | agent/execution_graph.go:395-435 | from the plan task alone: read-only if and only if it is research, review or translation, workspace if and only if it transforms, writes or executes, serial only if and only if it delivers; its resource keys are exactly its trimmed non-blank outputs, or the session's state if it has none and may write |
| `PlanConflicts.ConflictIffKeptApart` | agent/execution_graph.go:395-435 | two plan tasks conflict if and only if one delivers or has no kind, or they share an output that one of them may write, or both may write and neither says what |
| `PlanConflicts.PlanBatchesAreSafe` | agent/execution_graph.go:113-151 | after any history, a batch chosen from a plan's graph never holds two tasks with a common output of which one may write, a Deliver task runs alone, and a ready task is left out only if it must be kept apart from a chosen one |
| `PlanExecutor.Collect` | agent/plan_executor.go:173-204 | the loop that fills the result slots as goroutines arrive |
| `PlanExecutor.ArrivalOrderIsInvisible` | agent/plan_executor.go:173-204 | the result slots after the fan-out are the same for every order in which goroutines arrive |
| `PlanExecutor.MergeInTaskOrder` | agent/plan_executor.go:206-277 | on a revision conflict nothing is appended; otherwise the session gains the contributions in task order |
| `PlanExecutor.MergeIsInTaskOrder` | agent/plan_executor.go:177-277 | if detached turns only append, the batch adds each task's messages, marked with the task, in task order, but for the tasks that need a serial retry |
| `PlanExecutor.RollbackEffect` | agent/plan_executor.go:437-468 | what dispatch followed by rollback does to each plan and graph task: status, attempts and error |
| `PlanExecutor.RollbackRestoresFreshBatches` | agent/plan_executor.go:437-468 | the rollback restores all statuses if and only if every task of the batch was queued before |
| `PlanExecutor.RollbackRestoresThePlan` | agent/plan_executor.go:437-468 | for a fresh batch the whole plan, with its record of running tasks, is as before the dispatch |
| `PlanExecutor.RollbackRequeuesARunningTask` | agent/plan_executor.go:437-468 | the failing side occurs: a batch with an already running task is not restored |
| `PlanExecutor.BatchMergesOrRollsBack` | agent/plan_executor.go:154-277 | for every arrival order and interleaving: the dispatched transcript and each task's messages in task order if nobody wrote meanwhile, otherwise the store untouched and a fresh batch's statuses restored |
| `PlanExecutor.BuildExecutionGraph` | agent/execution_graph.go:279-327 | the rebuild loop, equal to the definition that the graph results and the metadata of `PlanConflicts.MetadataOfTask` are about |
| `PlanExecutor.ExecutionRun.EnsureExecutionGraph` | agent/execution_graph.go:70-75 | normalizes the plan and rebuilds the graph, as one step of the histories that `PlanConflicts.PlanBatchesAreSafe` and `GraphHistory.GraphRemembersEverything` are about |
| `PlanExecutor.ExecutionRun.MarkExecutionTasksRunning` | agent/execution_graph.go:153-165 | the marking loop |
| `PlanExecutor.ExecutionRun.Dispatch` | agent/plan_executor.go:105-125 | marks the batch running in plan and graph, as one step of a history |
| `PlanExecutor.ExecutionRun.RequeueExecutionTasks` | agent/execution_graph.go:167-178 | puts running tasks of the batch back to queued in the graph |
| `PlanExecutor.ExecutionRun.RequeueBatchTasksForRetry` | agent/plan_executor.go:437-468 | the rollback loop over plan and graph, as one step of a history |
| `PlanExecutor.ExecutionRun.ApplyTaskResult` | agent/execution_graph.go:180-206 | stores a result's status and outcome in the graph as it is, as one step of a history |
| `PlanExecutor.ExecutionRun.SyncExecutionGraphWithPlan` | agent/execution_graph.go:208-238 | the sync loop, as one step of a history |
| `Compaction.AppendUniqueLabels` | agent/planning_compaction.go:115-127 | appending uniquely yields the union of the two lists' trimmed, non-blank entries |
| `Compaction.ReplaceDepsMembers` | agent/planning_compaction.go:75-99 | the rewritten list has every other dependency, and the new one exactly if the old one was there |
| `Compaction.BypassKeepsConnections` | agent/planning_compaction.go:75-113 | taking out a node whose only successor is another node changes no path between the remaining nodes, in either direction |
| `Compaction.FoldKeepsWellFormed` | agent/planning_compaction.go:75-113 | a pass leaves distinct ids and no dangling dependency |
| `Compaction.FoldKeepsConnections` | agent/planning_compaction.go:75-113 | a pass keeps "transitively depends on" between all survivors, both ways, and adds no cycle |
| `Compaction.PassFolds` | agent/planning_compaction.go:20-52 | a pass of the code removes exactly the wrapper and rewires exactly the dependencies on it; of the other tasks nothing else changes but the absorbing task's verification hints |
| `Compaction.PassKeepsFinalTask` | agent/planning_compaction.go:20-52 | the plan keeps its final task if and only if that task did not depend on itself |
| `Compaction.FoldIff` | agent/planning_compaction.go:20-73 | what a pass folds: exactly a final task of kind deliver or none, without title, goal or required capabilities, that depends on one known task and declares no output that task lacks |
| `Compaction.SelfDependentFinalTaskIsLost` | agent/planning_compaction.go:20-52 | the failing side occurs: a plan whose final task depends on itself loses it |
| `Compaction.PassKeepsLabels` | agent/planning_compaction.go:41-43 | a pass keeps the union of outputs, of required capabilities and of verification hints |
| `Compaction.PassShrinks` | agent/planning_compaction.go:101-113 | each pass that changes a plan removes a task, so the loop ends on every plan |
| `Compaction.PassKeepsMeaning` | agent/planning_compaction.go:20-52 | one pass on an acyclic plan preserves its meaning; a task that is gone had kind deliver or none and no title, goal or required capabilities |
| `Compaction.PassesRemoveWrappers` | agent/planning_compaction.go:9-73 | over all passes on an acyclic plan every task that is gone was such an empty wrapper, depended on one task only, declared no output that task lacks, and stood behind the final task |
| `Compaction.PassesKeepHead` | agent/planning_compaction.go:44-50 | the final task only moves back along dependencies, and a plan that shrank to one task becomes serial |
| `Compaction.NothingLeft` | agent/planning_compaction.go:9-18 | after the last pass the final task is no empty wrapper, has no single known dependency, or declares an output its parent lacks |
| `Compaction.CompactionPreservesMeaning` | agent/planning_compaction.go:9-18 | the whole compaction of an acyclic plan: never the last task removed, only empty wrappers of one task gone, survivors with their purpose, outputs and capabilities, dependencies between them and all declared labels kept, no dangling dependency or cycle, and no empty wrapper left as final task |
| `Compaction.AppendUniqueStrings` | agent/planning_compaction.go:115-127 | the append loop, and the union it yields |
| `Compaction.ReplaceDependency` | agent/planning_compaction.go:86-97 | the loop over one dependency list |
| `Compaction.RemovePlanTask` | agent/planning_compaction.go:101-113 | the filter loop over the tasks |
| `Compaction.DistinctBoundary` | agent/planning_compaction.go:61-73 | true exactly if the wrapper needs capabilities or declares an output its parent does not |
| `Compaction.PlanObject.ReplaceTaskDependency` | agent/planning_compaction.go:75-99 | the loop over all tasks of the plan |
| `Compaction.PlanObject.CompactFinalDeliverWrapper` | agent/planning_compaction.go:20-52 | one pass, changing the plan if and only if its final task is an empty wrapper of a known task |
| `Compaction.PlanObject.CompactPlanForExecution` | agent/planning_compaction.go:9-18 | the loop terminates on every plan; on every acyclic one it preserves the meaning, removes only empty wrappers and leaves none as final task |
| `MemoryHistory.TrimUniqueValues` | agent/memory_contract.go:841-862 | the loop with its early exit yields the first distinct, trimmed, non-blank values up to the limit |
| `MemoryHistory.NormalIdempotent` | agent/memory_contract.go:475-530 | normalizing a record twice is normalizing it once |
| `MemoryHistory.TruncationIsHarmless` | agent/memory_contract.go:542-546 | truncating before a value is put in front shows the same eight values as not truncating |
| `MemoryHistory.MergeEffect` | agent/memory_contract.go:532-584 | what a merge does to value and history |
| `MemoryHistory.BoundedHistoryRefinesFullHistory` | agent/memory_contract.go:532-584 | after any sequence of upserts to a key the value is the last non-blank one and PreviousValues are the first eight distinct entries of the full newest-first list of replaced values |
| `MemoryHistory.RunStoresWrites` | agent/memory_contract.go:281-305 | after any run of upserts, agent upserts, corrections and deletions each key holds the fold of the writes to it |
| `MemoryHistory.HistoryOfEveryRun` | agent/memory_contract.go:281-305 | in every such run every key shows its latest value and its eight most recent distinct replaced values |
| `MemoryHistory.ReadsWhatWasWritten` | agent/memory_contract.go:134-144 | after any run, reading a key, however padded, gives the fold of the writes to it since it was last deleted, and nothing exactly if there was none |
| `MemoryHistory.DeletionForgets` | agent/memory_contract.go:156-158 | deleting forgets the key with its history and no other: the next write is stored as if it were the first |
| `MemoryHistory.AgentsNeverTouchUserMemory` | agent/memory_contract.go:348-371 | no sequence of agent writes changes or removes a user's memory |
| `MemoryHistory.CorrectionSticks` | agent/memory_contract.go:374-396 | what a user corrects keeps the corrected value and the user as source, whatever agents write afterwards |
| `MemoryHistory.AgentWriteIff` | agent/memory_contract.go:348-371 | after any run an agent's write is refused if and only if the key is a user's, changing nothing; otherwise the key's source is the agent, its value the agent's unless blank, and no other key changes |
| `MemoryHistory.SourceOfUpsert` | agent/memory_contract.go:281-305 | a write that names no source is stored as manual, whoever owned the key |
| `MemoryHistory.CountsCorrections` | agent/memory_contract.go:374-396 | over any run whose writes do not set the count themselves, the correction count is the number of corrections to another value since the key was last deleted |
| `MemoryHistory.NormalizeMemoryRecord` | agent/memory_contract.go:475-530 | normalization step by step |
| `MemoryHistory.MergeMemoryRecord` | agent/memory_contract.go:532-584 | the merge step by step |
| `MemoryHistory.GovernedMemoryStore.UpsertRecord` | agent/memory_contract.go:281-305 | normalizes, merges into what is stored, stores |
| `MemoryHistory.GovernedMemoryStore.AgentUpsertRecord` | agent/memory_contract.go:348-371 | applied exactly if the key is not a user's memory |
| `MemoryHistory.GovernedMemoryStore.Correct` | agent/memory_contract.go:374-396 | upserts the correction; the history it assembles itself is superseded by the merge |
| `EmbeddingCache.BlankIffNothingToEmbed` | agent/memory_search.go:533-575 | a document has no text to embed exactly if value, evidence, label and key are all blank |
| `EmbeddingCache.TextFollowsTheEntry` | agent/memory_search.go:533-575 | the embedded text changes with the evidence and with the value; label and key count only when both are blank |
| `EmbeddingCache.FingerprintIdentifiesText` | agent/memory_search.go:564-575 | for one key, equal fingerprints mean equal text, even when the text holds the separator |
| `EmbeddingCache.EqualFingerprintsDecideByKey` | agent/memory_search.go:564-575 | for any two documents with one fingerprint the texts are equal if and only if the keys are |
| `EmbeddingCache.FingerprintAloneIsAmbiguous` | agent/memory_search.go:564-575 | the failing side occurs: two documents with one fingerprint and different texts |
| `EmbeddingCache.EnsureKeepsCoherence` | agent/memory_search.go:240-275 | a call keeps every cached vector the embedding of the text it answers for |
| `EmbeddingCache.EnsureIsDirect` | agent/memory_search.go:240-275 | from a coherent cache a call on distinct keys returns exactly what embedding every document directly would |
| `EmbeddingCache.CallWarmsTheCache` | agent/memory_search.go:240-299 | after a call that succeeds every document with an embedding is cached: asking again asks the embedder for none of them |
| `EmbeddingCache.FailureChangesNothing` | agent/memory_search.go:259-266 | a call fails exactly if something was missing and the embedder failed, and then the cache is unchanged |
| `EmbeddingCache.CacheIsTransparent` | agent/memory_search.go:240-299 | after any sequence of earlier calls, with any documents and failures, the result is the direct embedding of each document's current text |
| `EmbeddingCache.HitIsCurrent` | agent/memory_search.go:277-286 | after any calls a hit is the embedding of the current text, and an entry that changed since it was cached is no hit |
| `EmbeddingCache.MemorySearcher.Collect` | agent/memory_search.go:240-255 | the first loop: cached vectors, and the documents left to embed |
| `EmbeddingCache.MemorySearcher.EnsureDocumentEmbeddings` | agent/memory_search.go:240-299 | the whole call on the cache in place |
| `Mmr.MaxSimilarityTo` | agent/memory_search.go:479-485 | the loop for the largest similarity to what is picked, at least zero |
| `Mmr.BestUnused` | agent/memory_search.go:470-503 | the inner loop finds an unused candidate whose relevance less repetition no other unused one exceeds, ties by score, then key, or none is left |
| `Mmr.RerankCandidates` | agent/memory_search.go:452-512 | a greedy ranking in which every entry, when taken, holds against all unused candidates, with the weight asked for, 0.7 if none, and at most 1 |
| `Mmr.PickIff` | agent/memory_search.go:470-503 | who is picked: exactly the unused candidates whose weighted score less weighted largest similarity to what is picked no other exceeds |
| `Mmr.PickTradesOff` | agent/memory_search.go:486-502 | what another unused candidate gains in score never outweighs what it repeats more; balances are decided by score, then key |
| `Mmr.DuplicatesWait` | agent/memory_search.go:486-502 | of two equally scored candidates, with lambda below 1, the one more similar to what is picked is never taken first |
| `Mmr.RankingTradesOff` | agent/memory_search.go:452-512 | every entry of a ranking holds against all unused candidates at the weight asked for, with default and cap; the length is what limit and keys allow |
| `Mmr.RankingIgnoresInputOrder` | agent/memory_search.go:452-512 | with keys that determine candidates there is one ranking, whatever the order of the input |
| `Mmr.NoRepeatedKey` | agent/memory_search.go:466-509 | no key appears twice |
| `Mmr.RankingLength` | agent/memory_search.go:462-512 | the result has as many entries as the smaller of the limit and the number of distinct keys |
| `Mmr.LambdaOneTakesTheTop` | agent/memory_search.go:452-512 | with lambda 1 the ranking is the start of the list sorted by score and key |
| `Mmr.MergedIsBestPerKey` | agent/memory_search.go:301-325 | a merged candidate has the best lexical score with the field of the first that attains it, the best semantic score with its vector, and the last document of its key |
| `Mmr.MergeOutputIsUnique` | agent/memory_search.go:327-343 | sorting makes the merge independent of map iteration order |
| `Mmr.MergeOutputIsBestFirst` | agent/memory_search.go:327-343 | merging returns the best score first, then query score, then key |
| `Mmr.SearchIsDeterministic` | agent/memory_search.go:301-512 | merge and re-ranking together have one answer, made of keys from the two channels |
| `Mmr.MergeSearchCandidates` | agent/memory_search.go:301-343 | merge, iterate the map in an order of the runtime's choosing, rescore and sort: a sorted merge output exists for every order |
| `Mmr.SortedEnumerationIsOutput` | agent/memory_search.go:327-343 | sorting any enumeration of the merged map gives the one merge output |
| `Mmr.RankChannels` | agent/memory_search.go:110-123 | merge and re-ranking run together: every hit, when taken, holds against all merged candidates not yet taken |
| `Retry.DelayBounds` | agent/retry.go:374-389 | for every jitter the sleep lies between MinDelay and the larger of MinDelay and MaxDelay, and is not below the failure's own minimum or the router's window unless MaxDelay is |
| `Retry.BackoffGrows` | agent/retry.go:359-389 | with the same draw a later attempt never sleeps less |
| `Retry.BackoffDoubles` | agent/retry.go:359-372 | between the bounds the back-off doubles with each attempt |
| `Retry.JitterIsCentred` | agent/retry.go:359-372 | between the bounds the back-off lies within half the jitter of its exponential value |
| `Retry.SleepIsGraded` | agent/retry.go:271-315 | the exact sleep after each transient failure, from its own minimum, the router's window where it counts, and the configured bounds |
| `Retry.StepKeepsChain` | agent/retry.go:206-249 | a fail-over starts at the current model and ends at another one, so the recorded chain stays unbroken |
| `Retry.StepKeepsInv` | agent/retry.go:87-201 | each pass through the loop keeps budget, chain, sleeps and thinking mode in order |
| `Retry.LoopKeepsInv` | agent/retry.go:86-204 | the loop ends, with an outcome, for every behaviour of model, router and clock |
| `Retry.RetryIsBounded` | agent/retry.go:53-204 | at most MaxAttempts + 1 calls and the extra one only through a degradation, fail-overs an unbroken chain from the requested model to the one in the request, the answering model is that one, all sleeps in bounds, thinking dropped at most once |
| `Retry.CallsAreDecided` | agent/retry.go:53-204 | for every behaviour of model, router and clock: whether a call is followed by another, and which, from the reply, the failure's reason, the router's choice, cancellation and the attempts left |
| `Retry.RequestNamesTheLastModel` | agent/retry.go:154-170 | after a failure the request names the last model called if and only if that call was not answered by a fail-over |
| `Retry.FailedRunCanNameAnUntriedModel` | agent/retry.go:154-170 | a fail-over on the last attempt leaves a model in the request that was never called |
| `Retry.ChatRequest.Attempt` | agent/retry.go:87-201 | one pass of the loop on the request in place |
| `Retry.ChatRequest.RetryModelCall` | agent/retry.go:53-204 | the loop on the request in place: its first call is the one asked for, and each call is followed by another exactly as the failures decide |
| `Clarification.BlockingReportsNeedClarification` | agent/submit_pipeline.go:370-386 | a report of the builder blocks if and only if it is recognised as clarification |
| `Clarification.BuiltBlocksIff` | agent/preflight.go:363-408 | a report blocks exactly if a reference is missing, or a required and described delivery or deployment target is |
| `Clarification.RelaxedReleases` | agent/submit_pipeline.go:401-433 | relaxing a recognised report leaves nothing that blocks and no other check changed |
| `Clarification.FoldStateIff` | agent/preflight.go:64-78 | a report needs confirmation if and only if one of its checks does, and prepares itself if and only if one does and none needs confirmation |
| `Clarification.SlotsAsked` | agent/preflight.go:269-330 | where the contract names missing information, a report that needs confirmation asks for exactly those slots |
| `Clarification.WalkIsWholeChain` | agent/submit_pipeline.go:319-346 | the walk ends on every store, cyclic ones too, and counts the chain of runs cancelled as superseded, linked by parent, up to the first that was not |
| `Clarification.RoundsAreTheChain` | agent/submit_pipeline.go:319-346 | there is only one such chain, so the count is exact |
| `Clarification.ClarificationRoundCount` | agent/submit_pipeline.go:319-346 | the loop with its set of seen ids |
| `Clarification.WaitsIff` | agent/submit_pipeline.go:145-152 | a run is put to wait exactly if its report blocks, it is no watch, and its rounds are below the maximum |
| `Clarification.MessageEffect` | runtime/ingress.go:88-112 | a new run is stored below the parent it names or the run it answers, that run is cancelled as superseded, and no other run changes |
| `Clarification.BuildContractMissingInfoChecks` | agent/preflight.go:363-397 | the loop over missing information |
| `Clarification.FoldChecks` | agent/preflight.go:64-78 | the loop that folds checks into blocking and state |
| `Clarification.BuildRunPreflightWithContract` | agent/preflight.go:12-87 | the report, which blocks only on questions |
| `Clarification.PreflightNeedsClarification` | agent/submit_pipeline.go:370-386 | the recognition loop |
| `Clarification.ApplyClarificationRoundLimit` | agent/submit_pipeline.go:305-317 | the report as it is, or relaxed at the cap |
| `Clarification.WalkPassesTheThread` | agent/submit_pipeline.go:319-346 | the walk counts at least every answered question of the conversation's thread |
| `Clarification.AskedFewerThanMaxTimes` | agent/submit_pipeline.go:305-317 | as long as no follow-up broke the cap, a waiting run is preceded by fewer than the maximum of answered questions in a row |
| `Clarification.FollowUpBreaksTheCapIff` | runtime/ingress.go:88-112 | exactly which follow-ups are left waiting over the cap: those that ask although the chain above the parent they name is short and the thread is not |
| `Clarification.CapHoldsIff` | agent/submit_pipeline.go:305-346 | over every conversation the cap holds throughout if and only if no follow-up breaks it |
| `Clarification.ThreadsNeverBreakTheCap` | runtime/ingress.go:104-106 | while follow-ups name no other parent than the run they answer, none breaks the cap |
| `Clarification.AskedAnyNumberOfTimes` | runtime/ingress.go:104-112 | follow-ups that keep naming an unknown parent let a run wait after any number of answered questions |
| `Capabilities.ShapeIffWellShaped` | acp/contract.go:304-337 | the shape check passes exactly if every value is a boolean or an object and every key is non-blank, at any depth |
| `Capabilities.CollectedIsRequested` | acp/contract.go:339-358 | what is collected names a leaf requested true |
| `Capabilities.RequestedIsCollected` | acp/contract.go:339-358 | every leaf requested true under non-blank keys is collected |
| `Capabilities.NameOfGoodPath` | acp/contract.go:295 | the dotted name of good keys splits back into exactly those keys |
| `Capabilities.UnsupportedIffOffends` | acp/contract.go:283-302 | what is rejected is the names of the offending leaves and nothing else |
| `Capabilities.NegotiationIsExact` | acp/contract.go:283-302 | for trimmed, non-blank, dot-free keys nothing is unsupported if and only if every leaf requested true is true at the same path of the server's tree |
| `Capabilities.ReportedPathIsLeastOffender` | acp/types.go:242-244 | the path reported is the least offender, the same for every iteration order of the request |
| `Capabilities.NegotiationOfAnyKeys` | acp/contract.go:283-302 | for keys of any form, exactly which path each requested leaf is looked up at |
| `Capabilities.DottedKeyIsReadAsPath` | acp/contract.go:295 | a dot in a key is read as a step into an object, so such a request can pass without its leaf being there |
| `Capabilities.CollectRequiredCapabilityPaths` | acp/contract.go:339-358 | the recursive collection into one list |
| `Capabilities.CapabilityAtPath` | acp/contract.go:360-378 | the walk finds the boolean at the path, or says it is not known |
| `Capabilities.UnsupportedRequestedCapabilities` | acp/contract.go:283-302 | collect, sort, and filter by lookup |
| `Capabilities.ValidateCapabilities` | acp/types.go:235-246 | accepts exactly the well-shaped requests whose true leaves are all supported; otherwise reports a malformed shape, or the least unsupported path |

## Left out

- Prompt construction, model selection, event emission, hooks, logging, metrics and usage tracking: side output without an invariant of its own.
- The detached mode of staged turns: only the messages a detached task produces are modelled, and it is taken to append only.
- The serial path of a batch and the serial retry of tasks that need it: one turn after another, covered by the lease protocol.
- Applying batch results to the plan (completed, failed, skipped tasks and failure policy): any status change of the plan is allowed between the graph's operations instead.
- Run and session copies of the model name that a fail-over also writes: they repeat the request's model.
- Memory fields other than key, value, source, previous values and correction count (labels, tags, evidence, score, state, times): merged field by field, without a bound to refine.
- Verification counters of memory records and stores that manage records themselves: they do not touch the history.
- Scores of search candidates (authority, recency, lexical match, cosine similarity): arbitrary functions here, because only their order matters.
- Overflow of the back-off delay when a float exceeds the range of a duration: the conversion is modelled on exact reals, and the clamps that follow it bound whatever it yields.
- Wall-clock behaviour: registry sweeps, idle reaping, deduplication windows.
- Natural-language analysis behind preflight reports, and the texts of checks, questions and hints: the analysis is a parameter.
- Runs that wait for input for other reasons than their preflight report.
- SQLite and mirrored stores, transports and process harnesses: input and output.
- JSON-RPC decoding and the other checks of the handshake: single-field tests.
- Coordinator.SessionQueue: one session's queue; the map from session ids to queues is not modelled, because the queues are independent.
- Compaction.RemovePlanTask: filters a sequence; that the original reuses the backing array of the slice is modelled only for the run queue.
