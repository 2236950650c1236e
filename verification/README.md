# Floxy in Dafny

Floxy runs sagas. A builder DSL makes a graph of steps; workers call `ExecuteNext` again and
again; a store keeps instances, step rows, a priority queue and the states of joins. This
project models that core and proves what it is supposed to guarantee, for every definition,
every run and every interleaving the code allows.

`dafny verify dfyconfig.toml` checks everything.

| files | part of the system |
|---|---|
| `Definitions`, `Graphs`, `Links` | step graphs; forward links and `Prev` as one forest |
| `Validator`, `Searches` | cycle detection, definition checks, reachability, nearest save point |
| `Builder`, `BuilderMachine` | the builder calls as values and as methods on a mutable builder |
| `BuilderShape`, `BuilderProofs`, `BuilderTheorems` | what every good builder program leaves behind |
| `Rollback`, `RollbackExact`, `RollbackTargets` | the rollback traversal with its shared visited map |
| `JoinStates`, `Queue` | the join protocol and the queue of the memory store |
| `Engine` | one function per engine operation, on values |
| `EngineMachine`, `EngineLookups`, `EngineProgram` | the memory store and the engine as mutable objects, refining `Engine` |
| `EngineFrame`, `EngineRuns`, `EngineJoins`, `EngineBounds`, `EngineRequeue` | what every run of every definition keeps |
| `EngineEffects`, `EngineOutcomes`, `EngineUndo`, `EngineFailures`, `EngineFiring`, `EngineReports`, `EngineRequests` | what one operation brings about, exactly, for every kind of step: rows, queue items, letters, join states |
| `EngineLinear`, `EngineSagas`, `EngineForward`, `EngineBackward`, `EngineAtomicity` | atomicity, bounds and termination of linear sagas |
| `EngineLimits`, `EngineLoss` | places where the code does not do what is said of it |
| `Workflows` | the builder's guarantees meet the engine's assumptions |

## How it is modelled

One `ExecuteNext` is one step of the state machine, as it is one transaction in the source.
What it does not decide itself comes in as a `Choice`: whether a handler is registered and
succeeds, the value of a condition, the order in which Go iterates over the definition's map,
the arbitrary steps that `findNearestSavePoint` may meet, and a cancel request that arrives while
the handler runs. The engine model lets `ExecuteNext` pick any queue item; which one the queue
really hands out is the subject of `Queue`. Row numbers stand for creation times. On an error
the memory store keeps what was written so far, and so does the model; the claimed item is
removed, as the deferred call does. `ReplaceInJoinWaitFor` would wait for its own lock if the
join state were missing (`memory_store.go:537`), and so would `AddToJoinWaitFor` (`:513`), which
the engine calls only after it has found the state (`engine.go:1462-1480`). The model creates the
state there; `JoinStatesAreSetUp` proves that with the workflows the builder makes it is never
missing.

The loops and objects of the source are loops and objects here: the coloured search of the
validator, the builder, the branch searches behind `Join`, the traversal, the queue's arg-max
loop, the store and every engine operation are methods proved against value-level functions,
and the theorems are about those functions.

## What was found

* The engine's documentation has `NoIdempotent` steps run at most once (its sections 4.3 and 12).
  The option sets `MaxRetries` to 1, and a first failure is retried whenever `MaxRetries` is
  positive (`engine.go:1573`), so such a step can run twice. For every task of a linear workflow
  `LimitIsExact` gives the exact number of runs, and `AtMostOnceIffNoRetry` says exactly when a
  step runs at most once.
* `engine.go:401` removes the queue item whose number is that of the *row* of a skipped, paused
  or rolled-back step, besides its own item. `DropRemovesExactly` says which items go, its own
  instance's included, and `SparesOthersIff` exactly when an ExecuteNext leaves the items of other
  instances alone; `AbortLosesAnothersItem` is a run in which aborting one workflow stops another
  for good.
* The memory store's requeue of a dead letter enqueues nothing, although section 11.5 of the
  engine's documentation has the step enqueued. `RequeueResumesIff`: the step is worked on again
  if and only if a queue item happens to lead to its row already; for the letter of a frozen
  instance there is never one (`RequeueResumesNothing`).
* Completing an instance sends completed rows to their compensations with the counter at 0
  (`engine.go:2098`). On a line of steps `RunsAreBounded` still has `MaxRetries` as the bound on
  compensation runs; for all workflows `RowsStayInBudget` proves twice that and one more.
* The memory queue and the SQL query compute the same effective priority exactly when
  truncation is flooring (`KeysAgreeExactly`). The memory store never hands out an item while its
  effective priority is negative, and the SQL store does; it stays negative for good exactly if
  its priority is negative and nothing ages it (`NegativeForeverIff`). The engine itself
  enqueues at 50, 75 and 100 only (`engine.go:1138`, `:1289`, `:1586`), so only a direct call of
  `EnqueueStep` gets there.
* Aging prevents starvation: the bound holds exactly if the item has aged to the highest priority
  and is due for longer than an instant (`BoundedIffRipe`); at the instant it becomes due and
  without aging there is no bound (`NoBoundWithoutAging`).
* The count in `checkJoinReady` agrees with "every awaited step has reported" exactly when the
  awaited names are distinct and nobody else reports (`CountingIsExactlyEnough`).
* `Join` builds exactly when it directly follows a fork (`JoinBuildsIffAfterFork`); after any
  other step it waits for the step that leads to it, which the validator rejects as a cycle.

## Model

| member | source | states |
|---|---|---|
| `Validator.FindCycle` | builder.go:637-688 | cycle detection is sound and complete: it reports a cycle exactly when one over Next, OnFailure, Else, Parallel and WaitFor can be reached from the start, and names an edge that closes it; it ends on every graph |
| `Validator.CycleSearch.Detect` | builder.go:637-688 | one call of the coloured search: a found edge closes a cycle; otherwise everything reachable has been left in an order without back edges |
| `Validator.CheckStep` | builder.go:571-624 | the checks on one step complain exactly when the step is not well formed, and rightly |
| `Validator.Validate` | builder.go:571-635 | a definition is accepted exactly when all its steps are well formed and no reference cycle is reachable, whatever the order of iteration |
| `Links.ForwardIffBackward` | engine.go:2749-2786 | on linked definitions forward reachability and the walk along Prev are the same relation |
| `Links.AncestorsAreComparable` | engine.go:2880-2907 | the links are a forest: of two steps above a third, one is above the other |
| `Searches.IsStepReachableFrom` | engine.go:2749-2786 | the depth-first search with a shared visited map answers reachability exactly, on any definition |
| `Searches.IsStepDescendantOf` | engine.go:2880-2907 | the backward walk answers backward reachability exactly, on any links, cyclic ones included |
| `Searches.SearchesAgree` | engine.go:2749-2907 | on linked definitions the two searches agree for every pair of steps |
| `Searches.FindNearestSavePoint` | engine.go:2318-2349 | the walk finds the first save point on the way up; a step without Prev borrows the definition that comes first in the order of iteration, which may be another one at every such step |
| `RollbackTargets.NearestIsAbove` | engine.go:2318-2349 | for a step of the flow the result is the root or a save point above the step |
| `RollbackTargets.NearestIsNearest` | engine.go:2318-2349 | it is the lowest save point above the step, and the root only if there is none |
| `Rollback.EachStepAtMostOnce` | engine.go:2397-2495 | on any definition, cyclic or inconsistent ones included, the traversal ends and passes no step to rollbackStep twice, and only completed or failed ones |
| `Rollback.Traversal.RollbackChain` | engine.go:2397-2495 | the recursion over one mutable visited map computes the value-level traversal |
| `Rollback.Traversal.DetermineExecutedBranch` | engine.go:2569-2595 | which side of a condition was executed |
| `RollbackExact.DownIsTraversed` | engine.go:2429-2470 | the lists that the traversal follows forward are exactly the branches of forks and parallel steps, Next of what is no condition, and of a completed condition the side on which a step has run |
| `RollbackExact.ForwardExact` | engine.go:2429-2470 | inside a branch the traversal covers exactly what can be reached over that relation, which is defined on the definition and the statuses alone, descendants first |
| `RollbackExact.BackwardExact` | engine.go:2472-2492 | backwards it adds the steps above and the side branches of every fork on the way |
| `RollbackExact.RollbackIsExact` | engine.go:2351-2495 | rollback to a stop calls rollbackStep on every completed or failed step concerned, exactly once, on nothing else, and never on a step before one below it |
| `RollbackTargets.RollbackToSavePointIsExact` | engine.go:2307-2378 | the same for the rollback that a failure starts, to the nearest save point |
| `Workflows.GoodRollbackIsExact` | engine.go:2307-2495 | the same for everything a good builder program builds |
| `BuilderMachine.WorkflowBuilder.Step` | builder.go:46-86 | Step: duplicate names fail; otherwise the new step is linked both ways |
| `BuilderMachine.WorkflowBuilder.OnFailure` | builder.go:92-119 | OnFailure: a compensation beside the current step |
| `BuilderMachine.WorkflowBuilder.Fork` | builder.go:175-249 | Fork: each branch is built apart, validated, merged without name clashes and hung below the fork |
| `BuilderMachine.WorkflowBuilder.Merge` | builder.go:229-243 | merging takes over all steps of a branch or reports a clash |
| `BuilderMachine.WorkflowBuilder.Join` | builder.go:295-371 | Join: one awaited name per branch of the fork before it, or the step before it |
| `BuilderMachine.WorkflowBuilder.SavePoint` | builder.go:388-421 | SavePoint: refused without a name or inside a branch |
| `BuilderMachine.WorkflowBuilder.Condition` | builder.go:423-495 | Condition: the else side is built apart and hung below the condition |
| `BuilderMachine.WorkflowBuilder.Build` | builder.go:532-569 | Build succeeds exactly for an error-free builder with a name and a start whose steps the validator accepts; validating the sub-builders a second time never fails |
| `BuilderMachine.WorkflowBuilder.Run` | builder.go:46-530 | any sequence of calls on the mutable builder computes the value-level program |
| `BuilderMachine.BranchSearch.FirstCondition` | builder.go:738-773 | the recursive search for the first condition of a branch |
| `BuilderMachine.BranchSearch.Terminals` | builder.go:791-826 | the recursive search for the steps without successor |
| `BuilderShape.SoundIsWellFormed` | builder.go:571-688 | the shape that builder calls keep implies that the validator accepts: the wait lists never close a cycle and no reference dangles |
| `BuilderShape.Extend` | builder.go:66-83 | putting a step at the end of the main line keeps the shape |
| `BuilderShape.Compensate` | builder.go:103-117 | adding a compensation keeps the shape |
| `BuilderShape.Nest` | builder.go:205-246 | hanging a built branch or else side below the last step keeps the shape |
| `BuilderProofs.AwaitedOnLine` | builder.go:731-788 | on a branch's main line the searches find its first condition, or else its last step, through nested forks and joins |
| `BuilderProofs.WaitListIsEntries` | builder.go:322-350 | the wait list has one entry per branch, all different, read off the branches' programs |
| `BuilderProofs.ProgramSound` | builder.go:30-569 | every good program, nested to any depth, keeps the shape and makes exactly the steps it names |
| `BuilderTheorems.GoodProgramsBuild` | builder.go:46-688 | every good program passes Build; its links run both ways and form a forest; its joins close forks |
| `BuilderTheorems.JoinBuildsIffAfterFork` | builder.go:295-371 | after a good program a join builds if and only if the last main-line step is a fork |
| `BuilderTheorems.JoinWaitsForEveryBranch` | builder.go:295-371 | in what a good program builds, every join, at any level of nesting, waits for one name per branch of the fork it closes, in order: the branch's first condition or its last main-line step; compensations in between and later calls do not change the list |
| `JoinStates.UpdateRefines` | memory_store.go:435-490 | one update of the two lists is one update of a map from step to latest outcome |
| `JoinStates.ReportsRefine` | memory_store.go:435-490 | over any reports the lists are duplicate-free, disjoint and hold each step's latest outcome |
| `JoinStates.UpdateIsIdempotent` | memory_store.go:435-490 | reporting the same outcome again changes nothing |
| `JoinStates.CountingIsEnough` | memory_store.go:589-596 | with distinct awaited names and reports from them only, the count test is the set test |
| `JoinStates.CountingIsExactlyEnough` | store.go:1609-1617 | the count test agrees with the set test on all reports if and only if the names are distinct and nobody else reports |
| `JoinStates.ReadyIsStable` | memory_store.go:589-596 | a ready join stays ready under further reports |
| `JoinStates.ApplyUpdate` | memory_store.go:450-486 | the list edits of an update |
| `JoinStates.ApplyReplacement` | memory_store.go:540-583 | the list edits of replacing a placeholder |
| `Queue.KeysAgreeExactly` | memory_store.go:296-303 | the truncated priority equals the floored one exactly when the aged value is not negative or is whole |
| `Queue.WaitingKeysAgree` | store.go:338-350 | for priorities that are not negative the two formulas agree |
| `Queue.MemoryRefinesSql` | store.go:338-375 | what the memory queue may hand out is exactly a first row of the SQL query |
| `Queue.NegativeForeverIff` | memory_store.go:292-303 | an unclaimed item has a negative effective priority at every later time if and only if its priority is negative and priorities do not age |
| `Queue.NegativePriorityIsStuckIff` | memory_store.go:283-311 | alone in its queue, it is never handed out by the memory queue if and only if its priority is negative and priorities do not age, while it is first in the SQL order as soon as it is due |
| `Queue.NegativeIsNeverSelectable` | memory_store.go:283-311 | in every queue, the memory store hands out no item whose effective priority is negative |
| `Queue.WorkQueue.Select` | memory_store.go:277-319 | the arg-max loop finds, for every iteration order, an unclaimed due item of maximal effective priority and among those of earliest schedule |
| `Queue.WorkQueue.DequeueStep` | memory_store.go:277-319 | dequeue hands out such an item and claims it |
| `Queue.WorkQueue.RescheduleAndReleaseQueueItem` | memory_store.go:345-365 | rescheduling never moves an item forward in time and frees it |
| `Queue.ClaimsAreExclusive` | memory_store.go:253-365 | in every interleaving, an item handed out twice was released or rescheduled in between |
| `Queue.RemovedStaysRemoved` | memory_store.go:321-328 | a removed item never comes back and is never handed out |
| `Queue.NoStarvation` | memory_store.go:277-365 | an item of priority p that has waited (100 - p) / rate seconds is handed out within as many dequeues as there are unclaimed items scheduled no later, plus one per release |
| `Queue.BoundedIffRipe` | memory_store.go:277-365 | for every queue and every waiting item, that bound holds in all undisturbed runs if and only if the item has aged to the highest priority and was due before now |
| `Queue.NoBoundWithoutAging` | memory_store.go:292-311 | without aging, and at the instant an item becomes due, some run with more dequeues than that passes the item by |
| `EngineMachine.MemoryStore.UpdateStep` | memory_store.go:195-228 | a failure counts a retry, nothing else changes |
| `EngineMachine.MemoryStore.UpdateJoinState` | memory_store.go:435-490 | the state is updated and its readiness returned; a missing state is an error |
| `EngineMachine.MemoryStore.ReplaceInJoinWaitFor` | memory_store.go:529-587 | a placeholder gives way to the actual step, whose recorded outcome counts; a missing state, which never occurs by `JoinStatesAreSetUp`, is created |
| `EngineMachine.MemoryStore.PauseActiveStepsAndClearQueue` | memory_store.go:1116-1137 | running rows of the instance are paused and its queue items removed |
| `EngineLookups.FindForkAround` | engine.go:2975-3035 | the fork around a step: by its branches, or on the way up |
| `EngineLookups.FindConditionStepInBranch` | engine.go:3056-3084 | the nearest condition on the way up |
| `EngineLookups.IsStepInParallelBranch` | engine.go:2861-2878 | a step is in a branch of a fork exactly when it is one's first step or below it |
| `EngineLookups.HasPendingStepsInParallelBranches` | engine.go:2599-2667 | an active row in the branches of the awaited fork that is not awaited itself |
| `EngineProgram.SagaEngine.NotifyJoin` | engine.go:1735-1833 | reporting to one join: update, pending test, and at most one new row |
| `EngineProgram.SagaEngine.NotifyJoinSteps` | engine.go:1839-1974 | every join that waits for the step is told, in the order of iteration, up to the first error |
| `EngineProgram.SagaEngine.RollbackStep` | engine.go:2497-2567 | a row is rolled back, given up on with a dead letter, or sent to its compensation |
| `EngineProgram.SagaEngine.RollbackStepChain` | engine.go:2380-2495 | the rows named by the traversal are rolled back in its order |
| `EngineProgram.SagaEngine.EnqueueCompletedStepsForRollback` | engine.go:2023-2118 | completed rows after the last save point are compensated, the latest first |
| `EngineProgram.SagaEngine.CompleteInstance` | engine.go:2195-2264 | an instance with failed or rolled-back rows is not completed |
| `EngineProgram.SagaEngine.HandleStepSuccess` | engine.go:1412-1562 | success: joins are told, then the instance is completed or the next steps enqueued |
| `EngineProgram.SagaEngine.HandleStepFailure` | engine.go:1564-1731 | failure: retry, dead letter, or final failure with rollback |
| `EngineProgram.SagaEngine.HandleCancel` | engine.go:850-939 | cancellation and abortion |
| `EngineProgram.SagaEngine.RunFork` | engine.go:1104-1174 | a fork creates the rows of its branches and the states of its joins |
| `EngineProgram.SagaEngine.RunStep` | engine.go:746-848 | one execution of a step, cancellation before and during it included |
| `EngineProgram.SagaEngine.RunCompensation` | engine.go:941-1077 | one run of a compensation |
| `EngineProgram.SagaEngine.ExecuteItem` | engine.go:318-502 | ExecuteNext, from the picked item to the new state |
| `EngineProgram.SagaEngine.StartInstance` | engine.go:169-221 | Start refuses what the validator refuses; otherwise one new instance with its start row |
| `EngineProgram.SagaEngine.RequeueDeadLetter` | memory_store.go:1025-1070 | the row and the paused joins become pending, the instance runs again, nothing is enqueued |
| `EngineFrame.ExecuteNextKeeps` | engine.go:318-502 | one ExecuteNext touches only its own instance, changes no skipped, paused or rolled-back row, creates rows and items with new numbers only, and removes an item of another instance only when it drops one |
| `EngineEffects.EnqueueNextAdds` | engine.go:2120-2166 | each mention of a step in a list brings exactly one fresh row of it, pending and with one queue item, joins left out where they are skipped, and nothing else |
| `EngineOutcomes.SuccessOutcome` | engine.go:1412-1562 | a step of any kind that succeeds: if something follows it, or rows come, or rows of the instance are still worked on, then but for joins exactly the rows come that follow it or begin its branches; otherwise the instance is completed |
| `EngineOutcomes.ConditionTakesItsSide` | engine.go:1522-1562 | a false condition brings exactly one fresh row of its Else and none of its Next, a true one exactly one of each Next that is no join and none of its Else |
| `EngineOutcomes.ForkRunsEveryBranch` | engine.go:1104-1174 | a fork brings exactly one fresh row for each of its branches, and the states of the joins after it are there |
| `EngineOutcomes.CompleteWorkflowIs` | engine.go:2195-2264 | completing gives a completed instance if and only if no row of it has failed or been rolled back; else its late completions are sent back, and it has failed if and only if then no row is in compensation |
| `EngineOutcomes.CompensateCompletedIs` | engine.go:2023-2118 | exactly the completed rows created after the last save point are sent back, the latest first: into compensation with one new item where the step has one, else to rolled back |
| `EngineUndo.RollbackFromIs` | engine.go:2351-2567 | on linked definitions a rollback to a stop changes exactly the last rows of the completed or failed steps it concerns: rolled back, into compensation with one new item, or failed with one new letter; items of lower steps come first |
| `EngineFailures.FailureIsRetried` | engine.go:1573-1587 | a failed step that may be tried again waits as failed with exactly one new item |
| `EngineFailures.FailureIsBuried` | engine.go:1589-1634 | the last failure with dead letters on: the row is paused, the joins are told, there is exactly one new letter, and the instance is frozen with an empty queue |
| `EngineFailures.FailureIsFinal` | engine.go:1636-1731 | the last failure with dead letters off: the joins are told, exactly the active rows in the branches of the fork that the step begins a branch of are skipped, everything is rolled back to the nearest save point, and the instance has failed |
| `EngineFailures.FailureAddsOnlyJoins` | engine.go:1564-1731 | a step that fails is not completed, and no rows come but those of joins |
| `EngineFailures.JoinSucceedsIff` | engine.go:1176-1230 | a join that runs succeeds if and only if it is ready and, where all are to succeed, none has failed; otherwise nothing that follows it comes |
| `EngineFailures.PendingRequestTakesEffect` | engine.go:850-939 | a cancel request: exactly the active rows are skipped, and everything is rolled back from the last completed row to the root; an abort request: only the active rows are skipped; the request is gone |
| `EngineFailures.LateRequestTakesEffect` | engine.go:746-848 | the same for a request that arrives while a step runs, what the step has brought included |
| `EngineFailures.CancelledIsQuiet` | engine.go:850-939 | after either, no row of the instance is active and no request is pending |
| `EngineFailures.CompensationOutcome` | engine.go:941-1077 | one run of a compensation: rolled back, or sent there again with one item, or failed for good; and when the instance has failed |
| `EngineRuns.RunOrderly` | engine.go:318-502 | between operations no row is running and no frozen instance has a queue item |
| `EngineRuns.DroppedRowsAreFinal` | engine.go:397-406 | in every run without requeue, a skipped, paused or rolled-back row never changes and neither its handler nor its compensation runs |
| `EngineRuns.RolledBackIsAbsorbing` | engine.go:2023-2118 | the same from the start of the engine for rolled-back rows, across retries, cancellation, sibling failure and late completion |
| `EngineRuns.DlqFreezesFromStart` | engine.go:1589-1634 | while an instance is in dlq and none of its letters is requeued, its queue is empty, no step of it runs and no row of it comes, goes or changes |
| `EngineRuns.QuiescenceIsFinal` | engine.go:2120-2166 | an instance without queue items never gets one again, whatever happens |
| `EngineRuns.RequeueResumesNothing` | memory_store.go:1025-1070 | after the requeue of a letter of a frozen instance, the instance is running and the row pending, and no item of the instance ever follows |
| `EngineRequeue.RequeueResumesIff` | memory_store.go:1025-1070 | for the letter of a task of any instance without a pending cancel request: some run after the requeue works on the row if and only if a queue item leads to the row at the requeue |
| `EngineRequeue.RequeuedRowRests` | memory_store.go:1025-1070 | for any letter whose row no item leads to: in every run after the requeue the row stays pending or becomes skipped, gets no item, and neither its handler nor its compensation runs |
| `EngineRequests.StartIs` | engine.go:169-221 | starting makes one running instance with exactly one fresh row, of the start; what the validator refuses changes nothing |
| `EngineRequests.RequestIs` | engine.go:579-647 | a request is noted exactly for an instance that has not ended and has none yet |
| `EngineRequests.RequeueIs` | memory_store.go:1025-1070 | requeueing a letter: its row is as new, the paused joins of the instance are pending, a failed or frozen instance runs, the letter is gone, and nothing else changes |
| `EngineRequests.UnworkableIsRemoved` | engine.go:318-396 | an item that leads to no row of a live instance is removed and nothing else changes |
| `EngineRequests.DroppedIsRemoved` | engine.go:397-406 | an item of a skipped, paused or rolled-back row is removed, with the one that has the row's number, and nothing else changes |
| `EngineRequests.MissingHandlerGivesBack` | engine.go:407-502 | an item for whose step the worker has no handler is given back |
| `EngineBounds.RowsStayInBudget` | engine.go:318-502 | in every run of any workflows, with forks, conditions, cancellation and dead letters, a row whose letters are not requeued runs its handler at most max(MaxRetries, 0) + 1 times, twice at most if it is not idempotent, and its compensation at most 2 * max(MaxRetries, 0) + 1 times |
| `EngineBounds.CompensateCompletedKept` | engine.go:2023-2118 | the compensations of completed rows, which start the counter at 0 again, stay within the budget |
| `EngineJoins.ReadyMeansAll` | memory_store.go:589-596 | on the join states of synchronous workflows, a passed count test means that every awaited step has reported |
| `EngineJoins.JoinAroundExists` | engine.go:2975-3050 | with conditions too, the join around a step that has a row has been set up by its fork |
| `EngineJoins.JoinStatesAreSetUp` | engine.go:1442-1500 | in every run of a workflow whose links run both ways, conditions included, the join around a step has its state as soon as the step has a row, so whatever edits its wait list finds it |
| `EngineJoins.AtMostOneRowPerJoin` | engine.go:1920-1970 | in every run an instance has at most one row for each join, although several completions may find it ready |
| `EngineJoins.JoinsSynchronise` | engine.go:1839-1974 | in every run of a condition-free workflow with all-joins, cancellation, dead letters and requeues included, a join row exists only if every awaited step has ended and has reported that outcome to the join |
| `EngineJoins.RowsAreKnown` | engine.go:2120-2166 | in every run of a workflow whose links run both ways, every row of an instance is of a step of it |
| `EngineJoins.AwaitingJoinsAreThere` | engine.go:1104-1174 | in every run of a workflow that the builder can make, every join that waits for a step has its state as soon as the step has a row |
| `EngineFiring.PendingIsHeld` | engine.go:2599-2667 | on linked definitions the pending test holds exactly if an active row, not awaited, lies in the branches of the fork that the first awaited branch start belongs to |
| `EngineFiring.ReportFiresIff` | engine.go:1735-1833 | a report gives the join exactly one fresh row, if the join has then heard enough, is not held, and has no row; otherwise none |
| `EngineFiring.SuccessFiresIff` | engine.go:1839-1974 | the same for each join that waits for a step, over a whole ExecuteNext in which the step succeeds |
| `EngineFiring.FailureFiresIff` | engine.go:1564-1731 | the same where the step fails for good, with and without dead letters |
| `EngineFiring.HeardIff` | memory_store.go:589-596 | on the join states of synchronous workflows the count test after a report holds exactly if all others it waits for have reported |
| `EngineFiring.JoinsFire` | engine.go:1839-1974 | in every run of a condition-free workflow with all-joins: when a step succeeds that a join waits for, the join gets exactly one row, if all others have reported, it is not held and has no row yet; otherwise none |
| `EngineReports.ConditionAboveIs` | engine.go:3056-3084 | on linked definitions the search finds the nearest condition above the step |
| `EngineReports.ForkAroundIs` | engine.go:2975-3035 | on linked definitions the search finds the nearest fork above the step |
| `EngineReports.SuccessTakesPlace` | engine.go:1436-1461 | a step below a condition that succeeds takes the place of the condition's placeholder with the join around it, its outcome is on record there, and the join gets one row exactly if it has heard enough, has none and was not held throughout |
| `EngineReports.FailureTakesPlace` | engine.go:1645-1680 | the same where it fails for good without dead letters |
| `EngineReports.SuccessIsAwaited` | engine.go:1462-1520 | a step that ends a branch is added to the wait list, its success is on record, and the join fires as for any step it waits for |
| `EngineLinear.ChainOnLine` | engine.go:2397-2495 | on a line the traversal calls rollbackStep on every step from the failed one down to the save point, in that order |
| `EngineForward.GoesOn` | engine.go:1412-1562 | a step of a linear saga that succeeds leads to exactly one waiting row, the next one |
| `EngineBackward.TurnsBack` | engine.go:1636-1731 | a step that fails for good puts everything above the nearest save point into rollback and nothing below it |
| `EngineBackward.StaysBack` | engine.go:941-1077 | a compensation run keeps the saga on its way back |
| `EngineAtomicity.WorksOn` | engine.go:318-502 | every effective ExecuteNext on a linear saga keeps its invariant and makes a natural number smaller |
| `EngineAtomicity.SagasAreAtomic` | engine.go:318-502 | in every run of any number of linear sagas, an instance has no queue item exactly when it is completed with every step completed, or failed with everything up to the nearest save point completed and everything after it rolled back or out of compensation retries |
| `EngineAtomicity.RunsAreBounded` | engine.go:1573-1587 | in every run each row's handler runs at most max(MaxRetries, 0) + 1 times, twice at most if it is not idempotent, and its compensation at most as often as its MaxRetries |
| `EngineAtomicity.WorkComesToAnEnd` | engine.go:994-1034 | in every run the engine does something for an instance at most as often as those bounds add up to |
| `EngineLimits.LimitIsExact` | engine.go:1573-1587 | for every task of every linear workflow, m bounds its runs in all runs of the engine if and only if m is at least max(MaxRetries, 0) + 1, or 2 for a step that is not idempotent and may be retried |
| `EngineLimits.AtMostOnceIffNoRetry` | engine.go:1573-1587 | every task of a linear workflow runs at most once in every run if and only if it allows no retry |
| `EngineLimits.SparesOthersIff` | engine.go:318-502 | of the items of other instances, an ExecuteNext loses exactly one that carries the number of a row it drops |
| `EngineLimits.DropRemovesExactly` | engine.go:397-406 | a drop removes exactly its own item and the item that carries the row's number, whichever instance that belongs to |
| `EngineLoss.AbortLosesAnothersItem` | engine.go:397-406 | a run of seven operations after which another instance is running, its step waits for a retry, and no queue item ever leads to it, however the run goes on |
| `Workflows.GoodHasNoJoinFirst` | builder.go:175-371 | what good programs build meets the assumption of the one-row-per-join theorem |
| `Workflows.GoodIsFlowing` | builder.go:175-495 | what good programs build, conditions included, meets the assumption of the theorem on join states |
| `Workflows.GoodAwaitsBelow` | builder.go:295-371 | what the joins of good programs wait for lies in the branches they close, as the theorems on firing joins assume |
| `Workflows.GoodIsSynchronous` | builder.go:175-371 | good programs without conditions and with all-joins meet the assumption of the synchronisation theorem |
| `Workflows.GoodIsLinear` | builder.go:46-119 | good programs of steps, compensations and save points build linear workflows |
| `Workflows.GoodProgramsAreAllLinear` | builder.go:46-119 | a store of such programs meets the assumption of the saga theorems |

## Left out

- Human steps (`engine.go:504-577`, `:1266-1410`): whether the store returns a pointer or a copy decides what they do; a human step counts as unsupported here, and the theorems are meant for definitions without one.
- `Builder.Parallel` and `JoinStep` (`builder.go:121-173`, `:254-293`): the join of `Parallel` gets a `Prev` that bypasses the parallel step, so its links do not run both ways. The validator, the traversal and the engine treat parallel steps.
- Names used twice: `OnFailure`, `Fork`, `Join`, `SavePoint` and `Condition` overwrite map entries; the builder methods model that, the builder theorems ask for fresh names.
- Postgres and SQLite: only the ordering of the dequeue query and the join test are taken from them. The compensation counter is read as the memory store reads it.
- Rolling back a transaction on an error: the memory store does not, and neither does the model.
- Floating point: priorities age over real numbers, without rounding.
- NoStarvation: says nothing about clearing or removing the item itself, or about time running backwards.
- ExecuteNextKeeps: does not say that a drop spares other instances' items; SparesOthersIff says when it does.
- ReplaceInJoinWaitFor: creates a missing join state where the source would wait for its own lock; JoinStatesAreSetUp proves that the engine never gets there with what the builder makes.
- SuccessOutcome: asks that every join that waits for the step has been set up, as do the other results on reports; `AwaitingJoinsAreThere` proves that for what the builder makes. Without it the source stops with an error after the row is completed, and so does the model.
- ConditionTakesItsSide: leaves out an Else that is itself a join, which the builder never makes; SuccessFiresIff leaves it out as well.
- SuccessFiresIff: judges whether the join is held when its turn among the waiting joins comes, because rows of other joins may have come by then.
- SuccessTakesPlace: says what the join around a step hears; joins of outer forks are the subject of SuccessFiresIff, for steps with no condition above them.
- RequeueResumesIff: a pending cancel request is left out, because the next item of the instance then skips the row instead of working on it.
- RowsStayInBudget: gives a bound on compensations, not the exact number; on a line of steps RunsAreBounded has MaxRetries instead.
- JoinsSynchronise: restricted to definitions without conditions, because `findConditionStepInBranch` also matches steps behind a joined fork (`engine.go:3056-3084`) and then changes other joins' wait lists.
- SagasAreAtomic: not claimed with cancellation or dead letters, where an instance may also end cancelled, aborted or frozen; DlqFreezesFromStart and DroppedRowsAreFinal cover those runs.
- Final status of forked runs: a step that waits for a retry counts as finished in `hasUnfinishedSteps` (`engine.go:1976-1989`), and a fork inside a branch that no join closes can hold back the report of that branch (`engine.go:1893-1902`) and then let the instance complete without the outer join, so no such claim is made.
- Queue items without a step, and `createFirstStep` (`engine.go:2168-2193`): no engine operation enqueues one.
- Time in the engine: delays, timeouts, shutdown and cooldowns; `ExecuteNext` may pick any item.
- Templates for conditions, JSON payloads, events, plugins, metrics, the HTTP API, migrations, cleanup and statistics.
