# Verified model of the workflow engine, the task lease protocol and their neighbours

The platform stores tasks and workflow runs in PostgreSQL, passes task ids through a Redis list and lets any
number of worker processes claim, execute and close tasks. This project models the parts whose correctness
depends on interleavings or on graph reasoning, and proves what they guarantee.

| file | models |
|---|---|
| `Graph.dfy`, `Sequences.dfy`, `Options.dfy` | paths, cycles, topological ranks, small helpers |
| `Validation.dfy` | `validate_workflow`: structural checks and Kahn's loop |
| `Tasks.dfy` | task statuses and the declared transition table |
| `Workflow.dfy` | the rows of one workflow run and the conditional updates on them |
| `WorkflowEngine.dfy` | the engine as a class, one call at a time: start, evaluation loop, completion check, advance |
| `WorkflowProtocol.dfy` | any number of engine calls interleaving on one run; the safety invariant |
| `WorkflowProgress.dfy` | no stall |
| `WorkflowCalls.dfy` | every call returns, whatever others do |
| `WorkflowDeaths.dfy` | over whole continuations, when dead calls leave a run that can stall |
| `WorkflowEndings.dfy` | a failure aborts a FAIL_FAST run; what is over stays as it is |
| `WorkflowRefinement.dfy` | a call that is left alone leaves exactly what the class promises |
| `WorkflowOutcomes.dfy` | dependency safety, verdicts, skipping, schedule independence, the two failure policies |
| `TaskRows.dfy`, `TaskStore.dfy` | the task row, its guarded updates, and the worker, recovery and cancel services as a class |
| `LeaseProtocol.dfy` | workers, recoverers, submitters, users, crashes and a clock interleaving on all tasks |
| `LeaseInvariant.dfy` | the invariant of the protocol |
| `StoreRefinement.dfy` | the services of the class are sequences of events of the protocol |
| `LeaseRuns.dfy` | continuations of a state without late writes |
| `LeaseTheorems.dfy` | fencing, lease timing, crashed owners, attempt bounds, conservation, statuses |
| `LeaseDelivery.dfy` | when a queued task reaches a worker, and when it never does |
| `LeaseWrites.dfy` | exactly when a check still holds at the write that follows it |
| `Platform.dfy`, `PlatformTheorems.dfy` | one workflow run composed with the lease protocol, end to end |
| `PlatformQuiet.dfy` | what the run has come to once nobody does anything, and that this is for good |
| `PlatformRuns.dfy` | runs of the whole platform in which a promise fails |
| `Submission.dfy` | idempotent submission by racing clients |
| `DagLevels.dfy`, `DagLayout.dfy`, `DagCards.dfy` | the DAG viewer's level loop, grouping and coordinates |

How the concurrent parts are modelled. A run is a sequence of states, each following from the one before by one
step of one process; a step is one committed statement or one queue operation. Between two steps of a process
anything may happen. The theorems hold for every state of every run.

Assumptions and where they stop:

- A read sees committed rows, but an ORM session keeps the nodes that it loaded (database.py:13), so an engine
  call may see a dependency in any state that it had since the call began to evaluate, its own writes excepted:
  before it marks its node a call loads no other node, and after the evaluation it holds none. `DecisionIsSound`
  and `NoStall` hold whatever the session shows within that range.
- An engine call may die at any step. Safety holds all the same. `NoStall` allows every death after which what has
  to be done is still attended to: by a call in flight or, except for the dispatch of roots and the marking of
  reported nodes, by the next report to come (`Attended`). `GetsThroughIffAttended` says over whole continuations
  that such a state cannot stall, and that under CONTINUE, with no call left in flight and no awaited task
  cancelled, any other state can. `DeadCallStalls` is a run that does. `FailFastAborts`
  excludes no deaths but those between the mark of a failed node and the abort that the same call makes next.
- `_transition_to_success`, `_handle_task_failure` and `cancel_task` check in Python and then write by primary
  key, although docs/state-machine.md and ADR-009 promise a guarded write. The model keeps check and write apart
  and lets the write happen at any later time. A write that hits a row which moved on since the check sets
  `overrun`; the theorems are about states that no such write led to. `CheckHoldsIffLeaseLasts` and
  `CancelHoldsIffUnreachable` say over whole continuations exactly when a check still holds at the write:
  for a worker up to the end of the lease in the row, for a cancellation only if no worker can get at the task
  any more. `PunctualRunsAreNeverOverrun` turns the first into a guarantee for whole runs, and
  `LateWriteHitsLaterAttempt` and `LateCancelHitsRunningTask` are runs in which the promise fails. The engine's
  theorems are about tasks that move along the table, as they do without late writes; `LateWriteFlipsNode` is a run
  of the whole platform in which a late write turns a node from FAILED to SUCCESS.
- Claims, renewals and recovery use a time that was read before the statement. Nothing in the code keeps a
  renewal that was held up from setting a lease back to an earlier end; such a renewal counts as a late write.
- Task rows are never deleted while requests with their key are under way.
- A worker that called the engine is free at once in the joint model, although in the code it waits for the call to
  return; that only adds interleavings.
- One live process per worker id, as the deployment configures it.

Where code and documentation disagree the model follows the code:

- Retry and recovery go from RUNNING to QUEUED at once; the transition table only lists the way through RETRY_WAIT.
- No reconciler exists: ADR-007 and the publisher promise one, but a QUEUED task whose message is gone is never
  attempted again (`AttemptedAgainIffLocated`), and that can happen (`MessageCanBeLost`).
- Stale results are rejected by worker id alone, not by an attempt token; `OwnershipFences` shows that this is enough.
- The viewer's comment speaks of a fallback for cycles; its loop runs forever if a root leads to a cycle
  (`LoopEndsIffNoCycleAhead`, `CycleKeepsLoopGoing`).
- After a fail-fast abort a node whose task is still running stays RUNNING, because later reports return early.

Times are integers, coordinates are reals. Node keys are the stripped strings; an endpoint of an edge is missing,
or a stripped string that is empty if the endpoint consisted of blanks.

## Model

| member | source | states |
|---|---|---|
| Validation.ValidateWorkflow | backend/app/services/workflow_engine.py:54-168 | accepted exactly if structurally sound and without a cycle, and then there is a topological rank; otherwise each complaint, the cycle error included, is raised exactly if the definition has the fault it names |
| Validation.CheckKeys | backend/app/services/workflow_engine.py:67-80 | each complaint about a key is raised exactly if justified; the keys collected are the nonempty ones |
| Validation.CheckEdge | backend/app/services/workflow_engine.py:122-139 | each complaint about one edge is raised exactly if justified; an endpoint of blanks is an unknown node, a missing one makes the edge incomplete |
| Validation.BuildGraph | backend/app/services/workflow_engine.py:109-144 | each complaint about the edges is raised exactly if justified; if there is none, the adjacency lists and in-degrees represent exactly the given edges |
| Validation.Roots | backend/app/services/workflow_engine.py:148 | the initial queue holds each node of in-degree zero once |
| Validation.Kahn | backend/app/services/workflow_engine.py:148-157 | the loop takes every node off the queue exactly if the graph has no cycle, and then there is a topological rank |
| Validation.Release | backend/app/services/workflow_engine.py:152-157 | after one round the counters count unvisited predecessors and a node is queued exactly when its counter is zero and it is unvisited, each once |
| Validation.VisitedAllIffAcyclic | backend/app/services/workflow_engine.py:159-160 | the visited count equals the number of nodes exactly if the graph has no cycle |
| Graph.StuckSetHasCycle | backend/app/services/workflow_engine.py:159-160 | nodes that all keep a predecessor among themselves contain a cycle (backward walk and pigeonhole) |
| Graph.RankedIsAcyclic | backend/app/services/workflow_engine.py:146-160 | a rank that every edge increases rules out cycles |
| Tasks.TableFacts | backend/app/db/models/task.py:32-43 | who can be cancelled, claimed and queued, what follows RUNNING, and which statuses are final, without reference to the table |
| Tasks.TaskMoveIffCollapsedPath | backend/app/db/models/task.py:32-43 | a move is allowed exactly if some walk through the declared table that passes through RETRY_WAIT only leads from one status to the other |
| Workflow.DispatchKeepsOk | backend/app/services/workflow_engine.py:252-303 | dispatching a node whose dependencies succeeded keeps the run invariant and takes nothing settled back |
| Workflow.SkipKeepsOk | backend/app/services/workflow_engine.py:400-416 | skipping a blocked node keeps the run invariant, in particular that a skip comes with a failure |
| Workflow.ConcludeKeepsOk | backend/app/services/workflow_engine.py:484-496 | the unguarded node write keeps the invariant even if it is repeated or comes after the run is over |
| Workflow.AbortKeepsOk | backend/app/services/workflow_engine.py:499-515 | the fail-fast transaction keeps the invariant and never flips a verdict |
| Workflow.FinalizeKeepsOk | backend/app/services/workflow_engine.py:445-466 | writing the verdict on a settled run keeps the invariant; on a run that is over it writes what is there |
| Workflow.SettledVerdict | backend/app/services/workflow_engine.py:449-461 | SUCCESS exactly if all nodes succeeded, FAILED exactly if some node failed: the third branch is unreachable |
| WorkflowEngine.WorkflowRun.constructor | backend/app/services/workflow_engine.py:318-347 | after the start exactly the nodes without incoming edges run, each with a queued task |
| WorkflowEngine.WorkflowRun.DispatchRoots | backend/app/services/workflow_engine.py:340-345 | exactly the roots are dispatched |
| WorkflowEngine.WorkflowRun.DispatchNode | backend/app/services/workflow_engine.py:252-303 | claims exactly if the node was PENDING; then one task and one message, otherwise nothing; sound if all dependencies succeeded |
| WorkflowEngine.WorkflowRun.SkipNode | backend/app/services/workflow_engine.py:400-416 | skips exactly if the node was PENDING; sound if a dependency failed or was skipped |
| WorkflowEngine.WorkflowRun.Visit | backend/app/services/workflow_engine.py:392-421 | one node of a pass: the decision taken and whether it changed anything |
| WorkflowEngine.WorkflowRun.Pass | backend/app/services/workflow_engine.py:383-424 | a pass that reports a change leaves fewer nodes pending; one that does not leaves nothing to decide |
| WorkflowEngine.WorkflowRun.EvaluatePendingNodes | backend/app/services/workflow_engine.py:377-424 | terminates with nothing left to decide, having moved only pending nodes |
| WorkflowEngine.WorkflowRun.CheckCompletion | backend/app/services/workflow_engine.py:427-466 | an open run is concluded exactly if all of its nodes are settled |
| WorkflowEngine.WorkflowRun.Advance | backend/app/services/workflow_engine.py:469-522 | the whole effect of a call: nothing on a concluded run; else the node is marked, then abort, or cascade to completion with skipping equal to reachability from a failure, and conclusion exactly when all is settled |
| WorkflowEngine.AdvancedIsUnique | backend/app/services/workflow_engine.py:377-522 | on an acyclic workflow that promise leaves nothing open: whatever order the loop visits nodes in, there is one table it can end with |
| WorkflowRefinement.LoneReportIsAdvance | backend/app/services/workflow_engine.py:469-522 | a call of the protocol that acts alone, in any order of visits and with any view of its session, ends with exactly the rows that the class promises |
| WorkflowRefinement.CanReturn | backend/app/services/workflow_engine.py:469-522 | from every safe state, a call in flight can run to its end by its own steps alone |
| WorkflowRefinement.LoneStartIsStart | backend/app/services/workflow_engine.py:318-347 | the start of a run that acts alone leaves exactly the roots running, each with a queued task |
| WorkflowProtocol.StepIsSafe | backend/app/services/workflow_engine.py:252-522 | every step of every interleaving keeps the invariant and takes nothing settled back |
| WorkflowProtocol.RunsAreSafe | backend/app/services/workflow_engine.py:252-522 | the invariant holds in every state of every run, deaths and old views included |
| WorkflowProtocol.ProcStaysOk | backend/app/services/workflow_engine.py:392-421 | what a call decided on stays true whatever others do before it writes |
| WorkflowProtocol.DecisionIsSound | backend/app/services/workflow_engine.py:364-421 | a decision to skip or dispatch holds for the current rows, however old the dependencies looked to the session |
| WorkflowProgress.StepIsAttended | backend/app/services/workflow_engine.py:377-522 | every pending decision, missing verdict and unmarked report stays attended to, by a call in flight or by the next report |
| WorkflowProgress.NoStall | backend/app/services/workflow_engine.py:377-522 | with no call in flight the run is over or some running node was never reported, for any DAG and any interleaving, with dependencies seen as old as the sessions may show them and with all deaths of calls that leave nothing unattended |
| WorkflowProgress.DeadCallStalls | backend/app/workers/runtime.py:377-389 | a death that leaves a reported node unmarked leaves the run open though all its tasks ended and were reported |
| WorkflowCalls.OwnStepLowersWork | backend/app/services/workflow_engine.py:383-424 | each step of a call brings it closer to its return: a pass that reports a change has claimed a node |
| WorkflowCalls.OthersLowerWork | backend/app/services/workflow_engine.py:383-424 | what other calls do never adds to the work of a call |
| WorkflowCalls.CallReturns | backend/app/services/workflow_engine.py:377-522 | a call returns after a number of its own steps bounded by the size of the workflow alone, in any interleaving |
| WorkflowDeaths.AttendedGetsThrough | backend/app/services/workflow_engine.py:377-522 | from an attended state, in every continuation, whenever no call is in flight the run is over or waits for a report |
| WorkflowDeaths.UnattendedCanStall | backend/app/workers/runtime.py:377-389 | under CONTINUE, with no call in flight and no awaited task cancelled, an unattended state has a continuation in which all tasks end, are reported, and the run stalls |
| WorkflowDeaths.GetsThroughIffAttended | backend/app/workers/runtime.py:377-389 | both directions, for the states of all runs, whatever deaths came before |
| WorkflowEndings.FailFastAborts | backend/app/services/workflow_engine.py:498-516 | under FAIL_FAST, whenever no call is about to abort, the run failed exactly if some node failed, and then nothing is pending; of the deaths of calls only those of a call about to abort are excluded |
| WorkflowEndings.OverFreezesNodes | backend/app/services/workflow_engine.py:478-480 | once a run is over and no call is about to write a running node, no node and no verdict changes any more, under both policies, deaths included |
| WorkflowEndings.OverIsFrozenIffNobodyMarks | backend/app/services/workflow_engine.py:478-496 | that condition is exact over whole continuations, and always met under CONTINUE |
| WorkflowOutcomes.NothingFlips | backend/app/services/workflow_engine.py:445-518 | while tasks move along the table, from any state to any later one settled nodes, final tasks and the verdict stay |
| WorkflowOutcomes.OverDispatchesNothing | backend/app/services/workflow_engine.py:342-345 | once a run is over no task is created any more, by no call still on its way |
| WorkflowOutcomes.DependencySafety | backend/app/services/workflow_engine.py:364-421 | a dispatched node has all of its ancestors in SUCCESS |
| WorkflowOutcomes.OneTaskPerNode | backend/app/services/workflow_engine.py:258-295 | one task per dispatched node and none otherwise; settled status and task status agree; repeated reports change nothing |
| WorkflowOutcomes.VerdictIsSound | backend/app/services/workflow_engine.py:445-461 | what SUCCESS and FAILED of a run say about its nodes, under both policies |
| WorkflowOutcomes.SkippedIffFailedAncestor | backend/app/services/workflow_engine.py:397-421 | with nothing left to decide under CONTINUE, skipped is having a failed strict ancestor, dispatched is having all dependencies succeed |
| WorkflowOutcomes.FinishedRunSkipsDescendants | backend/app/services/workflow_engine.py:397-421 | the same for every CONTINUE run that is over, in any interleaving |
| WorkflowOutcomes.ScheduleIndependence | backend/app/services/workflow_engine.py:383-466 | two concluded CONTINUE runs with the same task outcomes have the same node statuses and verdict |
| WorkflowOutcomes.PoliciesAgree | backend/app/services/workflow_engine.py:499-522 | both policies reach the same verdict on the same outcomes, and FAIL_FAST dispatches a subset |
| TaskStore.Attempted | backend/app/workers/runtime.py:392-445 | one attempt more; SUCCESS exactly on success, QUEUED again exactly for a retryable error within the allowance |
| TaskStore.Store.ProcessTask | backend/app/workers/runtime.py:392-445 | the whole effect of one message on row and queue, and the status reported to the engine |
| TaskStore.Store.AtomicClaim | backend/app/workers/runtime.py:230-271 | exactly a QUEUED row is claimed, with worker, lease, heartbeat and counter as stated column by column |
| TaskStore.Store.RenewTaskLease | backend/app/workers/runtime.py:151-176 | exactly the owner of a running row gets a lease and a heartbeat from the reading of the clock; all other columns stay |
| TaskStore.Store.HandleTaskFailure | backend/app/workers/runtime.py:304-361 | requeued with its columns cleared and pushed exactly for a retryable error within the allowance; else FAILED with its columns kept; a late failure changes nothing |
| TaskStore.Store.RecoverStaleTasks | backend/app/services/recovery.py:35-100 | exactly the expired tasks lose worker and lease and become QUEUED while attempts are left, else FAILED, all other columns kept; each requeued one is returned and pushed once, and a second recovery finds nothing |
| TaskStore.Store.CancelTask | backend/app/services/task_service.py:113-129 | cancelled exactly if CREATED or QUEUED, which is exactly when the table allows it; any other task is refused |
| StoreRefinement.ProcessTaskIsEvents | backend/app/workers/runtime.py:392-445 | what processing a message does to rows and queue is what the events Claim, Finish, Commit and Republish of the protocol do |
| StoreRefinement.StaleEndIsEvents | backend/app/workers/runtime.py:285-288 | the result of a worker that lost its row is dropped: nothing changes but that the worker is free |
| StoreRefinement.RecoverStaleTasksIsEvents | backend/app/services/recovery.py:35-100 | whatever rows and list recovery returns, a sequence of Recover, Push and PushFails events leads to the same rows and queue |
| StoreRefinement.CancelTaskIsEvents | backend/app/services/task_service.py:113-129 | a cancellation without an interruption is the events CheckCancel and Cancel |
| StoreRefinement.ConsumeIsEvent | backend/app/queue/consumer.py:22-50 | a pop by a waiting worker is the event Pop |
| StoreRefinement.RenewTaskLeaseIsEvent | backend/app/workers/runtime.py:151-176 | a renewal is the event Renew |
| LeaseInvariant.StepKeepsInv | backend/app/workers/runtime.py:151-361 | every event that is no late write keeps the invariant of rows, histories, workers and messages |
| LeaseInvariant.RunsKeepInv | backend/app/workers/runtime.py:151-361 | the invariant holds in every state that no late write led to |
| LeaseTheorems.OwnershipFences | backend/app/workers/runtime.py:285-288 | a worker busy with attempt k passes the ownership check exactly if attempt k is the running one |
| LeaseTheorems.AttemptIsExclusive | backend/app/workers/runtime.py:242-265 | no two workers run the same attempt |
| LeaseWrites.LeaseGuardsCommit | backend/app/workers/runtime.py:285-294 | within the lease seen at the check the write lands on the attempt that was checked |
| LeaseWrites.PunctualRunsAreNeverOverrun | backend/app/workers/runtime.py:285-294 | runs whose writes come in time never overrun a check |
| LeaseWrites.CheckHoldsIffLeaseLasts | backend/app/workers/runtime.py:317-354 | whatever others do and however the worker renews, the check holds up to a deadline exactly if the lease in the row lasts that long |
| LeaseWrites.RenewalSecuresLease | backend/app/workers/runtime.py:151-170 | after a claim or renewal that read the clock at `now`, the worker keeps its row up to a deadline, in every continuation in which its main loop rests, exactly if the deadline is at most `now` plus the lease |
| LeaseWrites.RenewedTaskIsNotRecovered | backend/app/services/recovery.py:47-83 | while the clock is at most `now` plus the lease, recovery cannot take the task in any continuation before a worker closes the attempt |
| LeaseWrites.CancelHoldsIffUnreachable | backend/app/services/task_service.py:115-126 | no continuation makes a pending cancellation late exactly if the task is cancelled already, or queued with its message gone |
| LeaseWrites.LateWriteHitsLaterAttempt | backend/app/workers/runtime.py:285-294 | a run in which the result of attempt 1 closes attempt 2 |
| LeaseWrites.LateCancelHitsRunningTask | backend/app/services/task_service.py:115-126 | a run in which a task is cancelled while a worker executes it |
| LeaseTheorems.RecoverableIffSilent | backend/app/services/recovery.py:47-83 | recovery can take a running task exactly if its last claim or renewal is more than a lease ago |
| LeaseTheorems.TimelyOwnerKeepsRow | backend/app/workers/runtime.py:195-223 | over any stretch in which the clock never passes the last claim or renewal plus the lease nothing is recovered, and the owner keeps the row until it closes the attempt |
| LeaseTheorems.CrashedTaskWaitsForRecovery | backend/app/services/recovery.py:57-86 | after a worker crashed, the row it owned stays as it is, lease included, in every continuation until recovery takes it |
| LeaseTheorems.AttemptBound | backend/app/workers/runtime.py:322-340 | at most 1 + max_retries attempts and two status changes per attempt; no worker, lease or heartbeat before the first |
| LeaseTheorems.AttemptsAreConserved | backend/app/services/recovery.py:46-100 | claims equal attempts, and each attempt is closed exactly once, by its worker or by recovery, unless it is running |
| LeaseTheorems.TotalClaimsBound | backend/app/workers/runtime.py:244-255 | tasks together are claimed at most the sum of their allowances |
| LeaseTheorems.StatusFollowsTable | backend/app/db/models/task.py:32-43 | each event moves each status along the table, RETRY_WAIT collapsed |
| LeaseTheorems.HistoryFollowsTable | backend/app/db/models/task.py:32-43 | between any two states of a run the status followed the table |
| LeaseTheorems.FinalRowsStay | backend/app/workers/runtime.py:286-288 | a final row never changes again |
| LeaseDelivery.QueuedTaskIsLocated | backend/app/queue/publisher.py:33-49 | a QUEUED task for which no message was lost is in the queue, in the hand of a worker or about to be pushed |
| LeaseDelivery.LocatedCanBeAttempted | backend/app/workers/runtime.py:477-497 | wherever the id of a queued task is, the events that bring it to a worker and have it claimed are possible |
| LeaseDelivery.AttemptedAgainIffLocated | backend/app/services/recovery.py:47-53 | some continuation raises the attempts of a queued task exactly if its id is in the queue, an outbox or a hand; otherwise it stays queued or gets cancelled in every continuation |
| LeaseDelivery.RecoveredTaskRunsAgainIffAttemptsLeft | backend/app/services/recovery.py:61-95 | after recovery some continuation gives the task another attempt exactly if it had at most `max_retries` so far; otherwise it failed for good |
| LeaseDelivery.WorkerGetsFree | backend/app/workers/runtime.py:392-450 | a live worker can always go on, whatever others did to its task, and each event of its main loop brings it closer to the next message |
| LeaseDelivery.MessageCanBeLost | backend/app/services/task_service.py:73-81 | a run that reaches a queued task whose id is nowhere |
| Platform.CallsTouchOneTask | backend/app/services/workflow_engine.py:275-295 | an engine call creates at most one task per step |
| Platform.LeaseEventIsTaskMove | backend/app/workers/runtime.py:377-387 | to the engine an event of the lease protocol that is no late write moves one task along the table, or none |
| Platform.RunsKeepInv | backend/app/workers/runtime.py:377-445 | both invariants, the link between nodes and task rows, and the retries of the nodes hold in every state of every joint run that no late write led to; engine calls enter as reports of workers |
| PlatformTheorems.NoHandlerRunsEarly | backend/app/services/workflow_engine.py:364-421 | while a worker executes the task of a node, the task rows of all ancestors say SUCCESS with one accepted result each |
| PlatformTheorems.NodeStatusIsRowStatus | backend/app/services/workflow_engine.py:484-496 | node status and task row agree, within the allowance of attempts, which is that of the node |
| PlatformTheorems.RunClaimsBound | backend/app/workers/runtime.py:244-255 | the tasks of a workflow run are claimed at most as often as the allowances of its nodes add up to |
| PlatformTheorems.ReporterCanReport | backend/app/workers/runtime.py:377-389 | a worker at the end of a message can always call the hook, and the engine is called if the task is a final one of the run |
| PlatformTheorems.CallCanGoOn | backend/app/services/workflow_engine.py:252-303 | an engine call can always take its next step on the platform, with a fresh task row if the step dispatches a node, and can die at any point |
| PlatformTheorems.EndsByCommit | backend/app/workers/runtime.py:373-389 | a task that ends other than by recovery or cancellation leaves a worker about to report it |
| PlatformQuiet.QuietRunIsOver | backend/app/workers/runtime.py:373-445 | once queue, outboxes, workers and calls are all at rest the workflow run is over, unless one of its tasks was lost, cancelled, failed by recovery, or its worker died before the report |
| PlatformQuiet.QuietIsForever | backend/app/workers/runtime.py:373-445 | once everything is at rest, no continuation without late writes changes a node or the verdict, under either policy |
| PlatformQuiet.OpenForeverIffCutOff | backend/app/services/task_service.py:113-129 | under CONTINUE a run at rest never gets over, in any continuation, exactly if some node is cut off |
| PlatformQuiet.CutOffUnderFailFast | backend/app/services/workflow_engine.py:499-515 | under FAIL_FAST a run at rest with a node cut off is over only if another failure aborted it, and open only if all running nodes are cut off |
| PlatformRuns.CancelledTaskKeepsRunOpen | backend/app/services/task_service.py:113-129 | a run that is at rest and open for good because the task of its node was cancelled |
| PlatformRuns.LateWriteFlipsNode | backend/app/workers/runtime.py:285-294 | a run in which a late write and its report turn a FAILED node into SUCCESS |
| Submission.RunsKeepInv | backend/app/services/task_service.py:45-83 | keys stay unique and each row has exactly one creator, in every interleaving |
| Submission.SameKeySameTask | backend/app/services/task_service.py:45-68 | all submissions of one key return the same task |
| Submission.ExactlyOneCreator | backend/app/services/task_service.py:45-83 | once a submission of a key returned, exactly one client was told that it created the task |
| Submission.NobodyIsRejected | backend/app/services/task_service.py:60-68 | no submission is ever refused, with a key or without: the 409 is unreachable |
| Submission.SubmissionReturns | backend/app/services/task_service.py:45-83 | in any interleaving a client that has not returned can take its next step, and has returned after three steps of its own |
| Submission.LateClientGetsStoredTask | backend/app/services/task_service.py:60-68 | if a task with its key is stored before a client returns, the client gets that task and is told that it did not create it |
| Submission.AloneReturns | backend/app/services/task_service.py:45-83 | left alone from any state, a client returns with a new row exactly if none with its key was stored, else with the stored one |
| Submission.OneRowPerKey | backend/app/db/models/task.py:49 | at most one row per key |
| Submission.SubmissionTable.Insert | backend/app/db/models/task.py:49 | the unique constraint: an insert fails exactly on a stored key |
| Submission.SubmissionTable.CreateTask | backend/app/services/task_service.py:45-83 | returns the task of the key, creating it exactly if there was none; never refuses |
| DagLevels.LoopEndsIffNoCycleAhead | frontend/src/components/workflows/DagViewer.tsx:67-78 | the level loop ends exactly if no queued node leads to a cycle |
| DagLevels.CycleKeepsLoopGoing | frontend/src/components/workflows/DagViewer.tsx:67-78 | a graph of three nodes on which the loop never ends |
| DagLevels.RoundLowersTotal | frontend/src/components/workflows/DagViewer.tsx:69-78 | each round lowers the total number of walks ahead of the queue by one |
| DagLevels.TrappedIffLeadsToCycle | frontend/src/components/workflows/DagViewer.tsx:67-78 | an endless walk starts at a node exactly if it leads to a cycle |
| DagLevels.AcceptedLeadsToNoCycle | frontend/src/components/workflows/DagViewer.tsx:67-78 | the loop ends on every graph that validation accepts |
| DagLayout.BuildAdjacency | frontend/src/components/workflows/DagViewer.tsx:42-54 | adjacency lists of the known edges, in-degree zero exactly for roots |
| DagLayout.QueueRoots | frontend/src/components/workflows/DagViewer.tsx:57-65 | the roots start at level 0 in the queue |
| DagLayout.RaiseSuccessors | frontend/src/components/workflows/DagViewer.tsx:69-78 | one round lifts every successor above the popped node and queues it |
| DagLayout.ComputeLevels | frontend/src/components/workflows/DagViewer.tsx:56-85 | each level is the number of edges of the longest path from a root, and 0 where no root leads |
| DagLayout.LevelIsLongestPath | frontend/src/components/workflows/DagViewer.tsx:56-78 | on an acyclic workflow it is the longest of all paths ending in the node |
| DagLayout.EdgesGoUp | frontend/src/components/workflows/DagViewer.tsx:74-77 | on an acyclic workflow every edge leads to a higher level |
| DagCards.GroupByLevel | frontend/src/components/workflows/DagViewer.tsx:87-96 | the groups hold exactly the nodes, each once, under its level; the highest level is exact |
| DagCards.LargestGroup | frontend/src/components/workflows/DagViewer.tsx:98-100 | the exact size of the largest group |
| DagCards.PlaceCards | frontend/src/components/workflows/DagViewer.tsx:87-132 | all cards lie on the canvas and no two touch; level 0 begins at 40, levels lie one card and one gap apart, and the canvas ends a gap and 40 after the last; a column is stacked one gap apart and centred; the height is the least of at least 300 that leaves 60 above and below |
| DagCards.EdgesRunRight | frontend/src/components/workflows/DagViewer.tsx:134-147 | the card of the target of an edge begins a full gap after the card of its source ends, or further right |
| DagCards.LayOut | frontend/src/components/workflows/DagViewer.tsx:33-147 | the layout as a whole: longest-path levels, sound cards for exactly the known nodes, and every edge of an acyclic workflow rightward across a full gap |

## Left out

- Payload and task type checks of `validate_workflow`, error texts and the stripping of keys: finite branch reading; keys are modelled after stripping.
- The READY node status and the PENDING run status: declared, assigned by no code.
- SQLAlchemy sessions, database errors, PostgreSQL locking and Redis networking: each statement is one step, each push succeeds or fails.
- Handlers, thread pools and real timeouts: a handler ends in success, a retryable error or a fatal error.
- The backoff formula and waiting for it: delays above one second are computed but not waited for, so nothing is claimed about retry spacing.
- Worker registry statuses and heartbeats of workers as such: independent of task ownership.
- Several live processes under one worker id.
- The empty idempotency key: requests with it are refused before the service is called (schemas/task.py:15).
- Rows missing behind a foreign key, such as a run node without its workflow node: the schema excludes them.
- Malformed queue messages: discarded by the consumer before any task is touched.
- Validation.ValidateWorkflow: does not fix the order in which complaints are listed or how often one repeats.
- WorkflowProgress.NoStall: recovery to FAILED and cancellation report nothing to the engine, so such a node counts as never reported; `PlatformQuiet.CutOff` names these cases, and `OpenForeverIffCutOff` says what they lead to.
- TaskStore.Store.RecoverStaleTasks: does not fix the order in which expired tasks are visited, which the query leaves open.
- DagCards.PlaceCards: does not fix the order of the cards within a column, which is the enumeration order of the viewer's record.
- Rendering, edge curves and colours of the viewer, and all other frontend files.
- API routes, authentication, projects, metrics, logging, tracing, migrations and benchmarks.
