# smallpond: verified model of scheduling, streaming, partitioning and queues

smallpond runs a graph of data-processing tasks on executors that may miss probes, fail, be stopped, crash tasks or
report late. This project models its core in Dafny and proves what its assertions, documentation and tests rely on.
`dafny verify dfyconfig.toml` checks everything.

**Scheduler.** `WorkItems`, `Executors`, `Plans`, `Sched`, `Dispatch` and `SchedLoop` state the scheduler as functions on
values: the task graph with its rank, the queues, the dictionaries of scheduled, finished and succeeded attempts, the
mutable part of each task, and for each executor its running works, allocations, state, stop flags and last acknowledged
probe. An assertion that fails, or a dictionary lookup that misses, is recorded in `State.error`, so that proving it stays
empty proves them all. `RemoteExecutors` and `Schedulers` are the classes of the source, field by field; each of their
methods is proved to compute the function that carries its meaning, so that the theorems about runs hold for the objects.
`SchedInvariants`, `SchedSteps`, `DispatchProofs`, `DispatchSteps`, `DispatchOrder` and `SchedRuns` show step by step that
no task is lost, `LocalTasks` and `LocalRuns` that a task of the scheduler itself has one live attempt, and `SchedSafety`
puts both together over iterations and runs. The results are in `SchedTheorems`, `SchedStops` (failures, successes and
the end), `SchedRetries`, `SchedLimits` (memory after a failure), `ExecutorRuns`, `ExecutorTheorems`, `ExecutorUpdates`
(states, replies, retries), `DispatchFits`, `DispatchGrants`, `DispatchLine` (what dispatch assigns, with which limits, in
which order), `SchedEffects` and `GoodCaches`; `SchedExamples` has runs that show what the assumptions are needed for.
What the environment does in an iteration is one value, `SchedLoop.Input`: whether a probe round is due, how many
executors register, which attempts look slow, and what each completion queue holds when it is popped.

**Streaming.** `Streaming` and `StreamTask` model a batch streaming task as a class whose fields are the batch offsets and
output files, run attempt after attempt with crashes anywhere and a batch size that depends on each attempt's memory;
`Rechunking` models the reader that makes its batches, and every attempt opens its own.

**Partitioning and planning.** `Splitting`, `RowRanges`, `DatasetParts`, `PartitionSizes` and `Datasets` cut files by rows
and by size; `Partitions`, `Planner`, `FlatPartitions`, `PartitionPlaces`, `Broadcasts` and `MainInputs` turn plan nodes into
grids of tasks, each with an id and with an output that is a multiset of rows; `Optimizer` and `FusedChains` fuse SQL
nodes over uninterpreted queries; `TaskGraphs` builds tasks and their output roots.

**Queues.** `ConcurrentIteration` (two threads and a bounded buffer), `WorkQueues` (batches in a first-in-first-out queue),
`FilesystemQueue` (racing renames), `GpuQuotas` and `ProcessPool` (what one executor starts and collects).

## Assumptions

- An attempt has at most one terminal completion until its task has succeeded (`SchedLoop.DoneOK`, `SchedLoop.PendOK`).
  `SchedTheorems.DuplicateCompletionLosesTask` and `SchedExamples.DuplicateReportRun` show that it is needed: a second
  failure report of one attempt takes the next attempt out of `running_works`, and is then skipped as a duplicate. No
  assumption is made about reports after success.
- An attempt that this scheduler did not schedule reports success only when its inputs have succeeded, and a terminal
  report is never `EXEC_FAILED`, which nothing produces.
- An executor confirms only stop requests that were sent to it. Capacity results also assume that a probe never reports
  less capacity than an earlier one (`ExecutorRuns.CapacityOK`).
- `stop_executor_on_failure` is off, its default (scheduler.py:388).
- The local executor is the first executor. Until a task of the scheduler itself has succeeded, its attempts are reported
  by the local executor only, after they were pushed to it (`SchedLoop.LocalReportsOK`).
  `SchedTheorems.ForeignReportForksTask` and `SchedExamples.ForeignReportRun` show what a report by another executor does.
- Input files do not change between the attempts of a streaming task (`StreamTask.Opens`); readers may cut them into
  batches differently each time.

## Where the code departs from its documentation or intent

- A dataset split by size can exceed the documented limit by less than one row; it never does exactly when the limit is a
  multiple of the row width (`PartitionSizes.DocumentedBoundIff`).
- Cutting by rows raises an IndexError, or fails its last assertion, exactly when a range object with rows occurs twice in
  the list, as after merging a dataset with itself (`RowRanges.PartitionByRows`, `Datasets.SelfMergeIff`).
- Restoring a checkpoint reads an unbound loop variable exactly when the first input has no batch
  (`StreamTask.ArrowBatchTask.RestoreInputState`).
- `ConcurrentIter` may skip one item before it reports an exception of the source, exactly when two items can be waiting
  (`ConcurrentIteration.PrefixIff`).
- The optimizer's `isinstance` test also matches limit nodes; fusing one turns a global limit into one per partition
  (`Optimizer.FuseLimitIff`). Fusing a query that also uses named placeholders raises a KeyError, which the model keeps.
- The planner's check for a duplicate nested dimension compares a name with tuples of names and never fires; the task
  constructor refuses instead (`Planner.NestedRefusedIff`).
- A task that is listed twice as an input is read once, because the constructor keeps inputs by key (task.py:629). A
  union of an input with itself therefore loses rows when it is consolidated, and when it is repartitioned so that one
  merge task is given both listings (`Planner.ConsolidateTwice`, `FlatPartitions.FlatConserves`,
  `FlatPartitions.SelfUnion`); and a node that is given one input twice has it once (`Broadcasts.SameInputTwice`).
- A task that was constructed but does not lead to the root is not in the plan, yet its inputs name it as a consumer; when
  such an input succeeds, the lookup of the consumer raises a KeyError (scheduler.py:720). It does so exactly when a task
  succeeds that names a consumer outside the plan (`SchedTheorems.NothingLost`, `SchedExamples.LostConsumerRun`); such tasks
  exist, for example, when nobody reads some partition of an input (`Broadcasts.AllUsedIff`, `TaskGraphs.PlanAndTasks`).
- When two tasks of one input have equal partition infos, as after a union, the later is read in place of the earlier
  (`Broadcasts.SingleInputIff`).
- A work that asks for more GPUs than exist cannot be downgraded, because `gpu_limit` has no setter (executor.py:246); and
  conservation of GPU quota is lost exactly when a running key that holds a grant is started again
  (`GpuQuotas.GpuPool.StartWork`, `GpuQuotas.GpuPool.RunWorks`).

## Model

| member | source | states |
|---|---|---|
| `Schedulers.RunPlan` | smallpond/execution/scheduler.py:985-1048 | From a fresh local executor, for every plan, every environment that is fair (`SchedLoop.FairRun`, the assumptions above) and any number of loop iterations: no assertion of the scheduler fails, the one on the local executor at the head of the loop included, and no dictionary lookup misses but that of a consumer, which has missed if and only if some task that succeeded names a consumer outside the plan; each unsucceeded task whose inputs have succeeded is queued or runs on the local or an alive executor; root success means every task succeeded; the loop ends only when every task succeeded, one failed too often, or that lookup missed |
| `SchedTheorems.NothingLost` | smallpond/execution/scheduler.py:1144-1150 | In every reachable state an unsucceeded task whose inputs have succeeded is in a queue or among the running works, so that the "scheduler stuck" assertion, the status assertion, the retry assertion and the input lookup hold; the lookup of a consumer has missed if and only if a task that succeeded names one outside the plan |
| `SchedTheorems.LookupsFound` | smallpond/execution/scheduler.py:715-727 | No lookup misses in any run of a plan whose tasks name consumers of the plan only; in a run in which the root has succeeded one has missed if and only if some task of the plan names a consumer outside |
| `SchedExamples.LostConsumerRun` | smallpond/execution/scheduler.py:715-727 | A fair run of a plan of two tasks, the first of which is also read by a task that does not lead to the root: its success raises, and the run ends |
| `SchedTheorems.RootSuccessMeansAll` | smallpond/execution/scheduler.py:1347-1358 | When the root has succeeded all tasks have, so the queue that is then cleared holds only redundant attempts |
| `SchedTheorems.ConsistentInputs` | smallpond/execution/scheduler.py:688-697 | Over any run, all attempts of one task read the same producer attempts, which are the recorded succeeded ones then and later, and are never in `abandoned_tasks` |
| `SchedTheorems.RetryIdentity` | smallpond/execution/scheduler.py:784-788 | In every reachable state the scheduled attempts of an unsucceeded task are numbered up to its retry count; a retry never fails its assertion, gets a runtime id that was never scheduled, and leaves all earlier schedule entries unchanged |
| `SchedTheorems.EndMeansDoneOrFailed` | smallpond/execution/scheduler.py:1103-1165 | Once the loop has ended without raising, every task has succeeded or some task has failed more often than allowed (the other direction is `SchedStops.TooManyFailuresStop`) |
| `SchedStops.TooManyFailuresStop` | smallpond/execution/scheduler.py:1306-1318 | In every reachable state in which some task has failed more often than allowed the loop has ended, every working remote executor has been sent a stop request, and the local executor is not alive |
| `SchedStops.LastIterationIff` | smallpond/execution/scheduler.py:1103-1165 | In every reachable state an iteration is the last one if and only if nothing was queued or running before the completions, or some task has failed too often after it |
| `SchedStops.FailuresCounted` | smallpond/execution/scheduler.py:1303-1307 | Failure counts count exactly the first reports of failed or crashed attempts of unsucceeded tasks |
| `SchedStops.FirstSuccessCounts` | smallpond/execution/scheduler.py:1282-1353 | The first success of a task is recorded with its attempt, and with its status, retry count and epoch; no other completion changes the recorded successes, and exactly the attempts that are heard of become finished |
| `SchedStops.SuccessStopsOthers` | smallpond/execution/scheduler.py:729-740 | When a task succeeds, exactly the remote executors that run an attempt at it are sent a request to stop that work, before any request to stop altogether |
| `SchedStops.RootSuccessStopsAll` | smallpond/execution/scheduler.py:1357-1362 | The success of the root empties the queue, sends a stop request to every working remote executor and stops the local one |
| `SchedLimits.FailedIsRetried` | smallpond/execution/scheduler.py:1306-1333 | In every reachable state the failure of an attempt schedules a retry under the next number; after running out of memory on a remote executor its memory limit is twice the one before, at most that executor's memory unless it was more already, where a task without limit takes over that of the failed attempt; all other limits are the task's |
| `SchedLimits.LimitsChange` | smallpond/execution/scheduler.py:742-751 | Nothing but such a failure changes the limits of a task, and none changes those of another task |
| `SchedLimits.AttemptsAsGiven` | smallpond/execution/scheduler.py:688-697 | In every reachable state each queued or running attempt belongs to its task's node and has the CPU and GPU limits, and the memory limit if any, that the task was given at the start, before any boost |
| `SchedTheorems.DuplicateCompletionLosesTask` | smallpond/execution/scheduler.py:1282-1292 | Why one terminal completion per attempt is assumed: when a failure of the only running attempt arrives, the task stays queued or running if and only if that runtime id had not been reported before |
| `SchedTheorems.ForeignReportForksTask` | smallpond/execution/scheduler.py:1268-1337 | Why the scheduler's own tasks are assumed to be reported by the local executor only: while that one runs such a task, a failure reported by another executor queues a second attempt beside it if and only if that runtime id had not been reported before |
| `SchedExamples.DuplicateReportRun` | smallpond/execution/scheduler.py:1282-1292 | A run from the first start that is fair but for one completion delivered twice loses its task and ends with the "scheduler stuck" assertion |
| `SchedExamples.ForeignReportRun` | smallpond/execution/scheduler.py:1114-1115 | A run from the first start in which only the assumption on the scheduler's own tasks is broken, once: it ends with the assertion on the local executor |
| `SchedRetries.SpeculatesOnce` | smallpond/execution/scheduler.py:592-631 | Over any run no two speculative retries come from one attempt, not even within one probe round, and each is numbered at most `max_retry_count` |
| `SchedSafety.RunKeeps` | smallpond/execution/scheduler.py:1103-1165 | Every iteration keeps the whole invariant; schedule entries, finished attempts and the succeeded attempt of a task are never taken back or replaced |
| `SchedSafety.StartKeeps` | smallpond/execution/scheduler.py:1007-1014 | Enqueuing the leaves of the plan establishes the invariant: every task without inputs is queued |
| `SchedSafety.NeverStuck` | smallpond/execution/scheduler.py:1140-1150 | With empty queues and nothing running, all tasks have succeeded |
| `SchedSafety.LocalStands` | smallpond/execution/scheduler.py:1114-1115 | While the loop runs, the local executor is alive whenever the local queue is not empty, although it is stopped as soon as the root succeeds |
| `SchedSafety.IterateKeeps` | smallpond/execution/scheduler.py:1103-1165 | One iteration keeps both invariants, that no task is lost and that local tasks have one live attempt |
| `LocalTasks.EnqueueAllLocal` | smallpond/execution/scheduler.py:1079-1101 | However tasks are requested again, an unsucceeded local task stays at most once queued, running or reported, in its current attempt |
| `LocalRuns.PopLocal` | smallpond/execution/scheduler.py:1250-1266 | Popping the completion queues turns a running local attempt into a reported one, never leaving both |
| `LocalRuns.ProcessAllLocal` | smallpond/execution/scheduler.py:1250-1358 | Processing a batch of completions keeps one live attempt for each unsucceeded local task, and leaves none queued for one that succeeds |
| `SchedRuns.SucceedKeeps` | smallpond/execution/scheduler.py:1345-1358 | Recording a success, stopping the redundant attempts and enqueuing the consumers loses no task, and records the success |
| `SchedRuns.FailKeeps` | smallpond/execution/scheduler.py:1306-1337 | Counting a failure, relaxing the memory limit and retrying loses no task, also when everything is being stopped |
| `SchedRuns.ProcessAllKeeps` | smallpond/execution/scheduler.py:1250-1358 | Processing a whole batch of completions, in order, keeps the invariant although later completions of the batch are still pending |
| `SchedInvariants.RetryKeeps` | smallpond/execution/scheduler.py:784-788 | A retry of a ready unsucceeded task is queued under a new runtime id |
| `SchedInvariants.EnqueueAllQueues` | smallpond/execution/scheduler.py:1079-1101 | Each listed ready task that is not scheduled under its current runtime id is queued afterwards, even when other listed tasks have succeeded and only pass the request on to their consumers |
| `Plans.RootClosureIsEverything` | smallpond/execution/task.py:3561-3573 | A set of tasks closed under inputs that holds the root holds the whole plan |
| `Plans.NoReadyMeansNonePending` | smallpond/execution/task.py:629-632 | If every unfinished task still waits for an input, no task is unfinished |
| `SchedSteps.UpdateExecutorsKeeps` | smallpond/execution/scheduler.py:661-686 | Declaring executors failed, stopping or stopped loses no work: the tasks of a failed executor are retried |
| `SchedSafety.UpdateFrees` | smallpond/execution/scheduler.py:661-686 | After the executor states have been updated no good executor has a pending stop request |
| `ExecutorUpdates.StatesAfterUpdate` | smallpond/execution/scheduler.py:246-276 | For every remote executor of a safe state, over one update: it is failed afterwards if and only if it was, or was alive and has missed more than `max_num_missed_probes` probe epochs since the one it acknowledged; likewise if and only if for stopped, stopping, resource low and good, from the stop flags and the acknowledged probe; a probe has been sent to exactly the working ones, and nothing else of it has changed |
| `ExecutorUpdates.StrandedAreRetried` | smallpond/execution/scheduler.py:661-686 | The update raises the retry count of each task by exactly the number of its attempts on executors that fail in it, unless it has succeeded |
| `ExecutorUpdates.SlowIsRetried` | smallpond/execution/scheduler.py:592-631 | A probe round retries a task if and only if some working remote executor runs its newest attempt, that attempt is slow and below the maximal number, and the task has not succeeded |
| `ExecutorUpdates.RepliesTakeEffect` | smallpond/execution/scheduler.py:193-218 | Whatever replies an executor sends, in whatever number and order: exactly the works that some reply ends are removed, the acknowledged probe is the first of those with the largest epoch, if that is newer, and the confirmation of a stop is noted unless the executor was stopped already |
| `SchedSteps.ProbeRoundKeeps` | smallpond/execution/scheduler.py:633-659 | New executors, probes and speculation keep the invariant |
| `DispatchSteps.DispatchKeeps` | smallpond/execution/scheduler.py:1167-1248 | Dispatch keeps the invariant and the set of good executors, wherever tasks are skipped, assigned, set aside or put back |
| `DispatchSteps.StopIdleKeeps` | smallpond/execution/scheduler.py:1128-1138 | Stopping an idle executor loses no task |
| `DispatchSteps.PushLocalQueueKeeps` | smallpond/execution/scheduler.py:1114-1124 | Moving local tasks to the local executor loses none; those whose key already runs there stay in the queue |
| `Dispatch.PassProgress` | smallpond/execution/scheduler.py:1194-1232 | Each pass of dispatch lowers the pair (tasks whose current runtime id is unscheduled, queue length), so dispatch terminates although skipping a succeeded task can enqueue more |
| `Dispatch.RoundProgress` | smallpond/execution/scheduler.py:1202-1228 | A pass over the executors never raises that measure, and lowers it when the first task leaves the queue |
| `DispatchProofs.DispatchConserves` | smallpond/execution/scheduler.py:1167-1242 | For every runtime id of an unsucceeded task, queued plus running instances after dispatch are those before plus what was newly enqueued; attempts of succeeded tasks may only be dropped from the queue, never started |
| `DispatchProofs.ReorderPermutes` | smallpond/execution/scheduler.py:1168-1187 | The reordered queue is a permutation of the queue |
| `DispatchOrder.ReorderIsFair` | smallpond/execution/scheduler.py:1168-1187 | The group of a node holds exactly that node's queued tasks, sorted by retry count, the larger first if retries have priority, and for equal counts by id; the k-th task of a node stands before the later tasks of all nodes, and among the k-th tasks the smaller node comes first |
| `DispatchOrder.UsableExecsInOrder` | smallpond/execution/scheduler.py:1197-1204 | Tasks are offered to exactly the good remote executors that run fewer works than CPUs less a sixteenth and have some of each of their resources left, each once a pass, less loaded ones first |
| `DispatchFits.NothingWaitsInVain` | smallpond/execution/scheduler.py:1189-1242 | After the dispatch of any iteration of any run, for each task left in the queue and each good executor: the executor runs as many works as it may, has all of some resource allocated, runs an attempt at the task, or the task's limit added to the sum over its works exceeds its CPUs, GPUs or memory |
| `DispatchGrants.DispatchGivesLimits` | smallpond/execution/scheduler.py:1189-1226 | Every work that dispatch assigns is a task of the queue, or one that dispatch enqueued, with its limits; one without memory limit has got a good executor's share by cores. When the nontrivial tasks that are neither done nor running are at most two for each good executor, and only then, an unboosted task of a node that allows it gets as much CPU and memory as is at most twice its limit, left beside the works before it, and half of the executor's, but never less than its limit |
| `DispatchLine.DispatchInOrder` | smallpond/execution/scheduler.py:1168-1235 | Each executor is given its new works in the fair order of the reordered queue, which only attempts never scheduled before may join, at its end; what stays queued keeps that order |
| `DispatchLine.LightestTakes` | smallpond/execution/scheduler.py:1197-1228 | In every pass the first task, unless it has succeeded or is set aside, goes to an executor that may take more, and every such executor that runs fewer works could not take it |
| `SchedEffects.IterationAssigns` | smallpond/execution/scheduler.py:1114-1138 | What every iteration of every run does between the executor update and the completions: each local task that neither runs nor repeats is sent to the local executor, in order; dispatch as in the rows above; then, if nothing is queued and good executors outnumber the pending nontrivial tasks by two, the first idle good one gets a stop request, and nothing else is stopped |
| `SchedEffects.PoppedInOrder` | smallpond/execution/scheduler.py:1250-1266 | Completions are processed executor by executor, and those of each executor in the order it sent them |
| `ExecutorTheorems.ExecutorMachine` | smallpond/execution/scheduler.py:246-276 | Over any fair run, whatever capacities are reported, FAIL and STOPPED are never left, STOPPING only for them (when each is entered is `ExecutorUpdates.StatesAfterUpdate`), acknowledged epochs never decrease, stop requests are never withdrawn, and an executor asked to stop is given no further task |
| `ExecutorTheorems.CapacityHolds` | smallpond/execution/scheduler.py:175-191 | In every reachable state the allocated CPUs, GPUs and memory of every executor are the sums over its running works, and a remote executor's allocations stay within its capacity although limits are boosted after the admission test |
| `ExecutorRuns.BoostFits` | smallpond/execution/scheduler.py:753-782 | A boosted work still fits into what the executor has left: the truncated product of limit and boost factor is the boosted limit |
| `Executors.AckedEpochMonotone` | smallpond/execution/scheduler.py:199-210 | The acknowledged epoch is at least that of every probe received, in whatever order they arrive |
| `Executors.ReceiveAccounted` | smallpond/execution/scheduler.py:184-218 | Any sequence of replies keeps allocations equal to the sums over running works, and adds no work |
| `Executors.IndexOf` | smallpond/execution/scheduler.py:184-191 | The first running work with a key |
| `GoodCaches.SettleSameLists` | smallpond/execution/scheduler.py:1250-1358 | Processing completions can stop executors, yet none becomes or ceases to be good or alive, so the cached lists stay right |
| `RemoteExecutors.RemoteExecutor.AddRunningWork` | smallpond/execution/scheduler.py:175-182 | For a new key, as the source asserts, the handle's fields after the call are those of the value on which accounting is proved (`Executors.AddAccounted`) |
| `RemoteExecutors.RemoteExecutor.PopRunningWork` | smallpond/execution/scheduler.py:184-191 | Removes the work with the key, and exactly its limits from the allocations; a missing key changes nothing |
| `RemoteExecutors.RemoteExecutor.Push` | smallpond/execution/scheduler.py:220-229 | The push is refused exactly when the key is running already |
| `RemoteExecutors.RemoteExecutor.Stop` | smallpond/execution/scheduler.py:237-241 | A remote executor that works and was not asked before gets one stop request; otherwise nothing is sent |
| `RemoteExecutors.RemoteExecutor.Pop` | smallpond/execution/scheduler.py:193-218 | Returns exactly the task completions of the replies, in order, and leaves the handle as the replies require |
| `RemoteExecutors.RemoteExecutor.UpdateState` | smallpond/execution/scheduler.py:246-276 | The in-place update computes the function that `ExecutorUpdates.StatesAfterUpdate` characterizes; the result says whether the state changed |
| `Schedulers.Scheduler.TryEnqueue` | smallpond/execution/scheduler.py:1079-1101 | The in-place loop computes the enqueue function that every queue property is proved about; executors and results are untouched |
| `Schedulers.Scheduler.RetryTask` | smallpond/execution/scheduler.py:784-788 | Retry and enqueue as in `SchedTheorems.RetryIdentity` and `SchedLimits.FailedIsRetried` |
| `Schedulers.Scheduler.StartSpeculativeExecution` | smallpond/execution/scheduler.py:592-631 | Speculation over all working executors as in `ExecutorUpdates.SlowIsRetried` and `SchedRetries.SpeculatesOnce` |
| `Schedulers.Scheduler.ProbeExecutors` | smallpond/execution/scheduler.py:633-659 | New handles are distinct objects; the cached lists of good and alive executors stay equal to the filters |
| `Schedulers.Scheduler.UpdateExecutorStates` | smallpond/execution/scheduler.py:661-686 | The loop over the cached list of alive executors updates all of them, as in `ExecutorUpdates.StatesAfterUpdate`; afterwards the cached lists equal the filters computed afresh, though they are dropped only when a state changed |
| `Schedulers.Scheduler.PushLocalTasks` | smallpond/execution/scheduler.py:1114-1124 | The local queue keeps exactly the tasks the local executor refused; a local executor that is not alive is recorded as a failed assertion |
| `Schedulers.Scheduler.DispatchAll` | smallpond/execution/scheduler.py:1167-1248 | The loops over queue and executors, with the cached list of good executors, compute the dispatch function of `DispatchConserves`, `DispatchFits.DispatchComplete`, `DispatchGrants.DispatchGivesLimits` and `DispatchLine.DispatchInOrder`, and terminate |
| `Schedulers.Scheduler.GoodExecutors` | smallpond/execution/scheduler.py:543-545 | The cached list always equals the filter computed afresh when dispatch reads it |
| `Schedulers.Scheduler.NumRunningWorks` | smallpond/execution/scheduler.py:473-478 | Counting over the cached list of alive executors gives the number of running works that the idle test and the final phase are about |
| `Schedulers.Scheduler.GetRunnableTasks` | smallpond/execution/scheduler.py:715-727 | Every consumer is looked up, ready or not, and a miss is recorded; those whose inputs have succeeded are returned |
| `Schedulers.Scheduler.StopIdleExecutor` | smallpond/execution/scheduler.py:1128-1138 | Computes the function that stops the first idle good executor exactly when good executors outnumber what is pending, as in `SchedEffects.IterationAssigns` |
| `Schedulers.Scheduler.StopRunningTasks` | smallpond/execution/scheduler.py:729-740 | Every remote executor that runs another attempt of the task is asked to stop it, and no other |
| `Schedulers.Scheduler.TaskFailed` | smallpond/execution/scheduler.py:1306-1337 | The failure branch as in `SchedStops.FailuresCounted`, `SchedStops.TooManyFailuresStop` and `SchedLimits.FailedIsRetried` |
| `Schedulers.Scheduler.TaskSucceeded` | smallpond/execution/scheduler.py:1345-1358 | The success branch as in `SucceedKeeps`, `SchedStops.FirstSuccessCounts` and `SchedStops.SuccessStopsOthers` |
| `Schedulers.Scheduler.ProcessFinishedTasks` | smallpond/execution/scheduler.py:1250-1358 | Completions are processed in the order of the executors and of their queues, as in `ProcessAllKeeps` and `SchedEffects.PoppedInOrder` |
| `Schedulers.Scheduler.SchedLoop` | smallpond/execution/scheduler.py:1103-1165 | Any number of iterations of the loop compute the run that the theorems of `SchedTheorems` speak of, with the cache right throughout |
| `StreamTask.RunJob` | smallpond/execution/task.py:2265-2458 | Exactly-once: for every sequence of attempts, each fresh with its own memory limit or resuming from any earlier checkpoint, and crashing anywhere, the files linked by the attempt that finishes hold the output of every batch once and in order, and no other file is linked; the batch size is the one chosen where its chain of checkpoints began |
| `StreamTask.RunAttempt` | smallpond/execution/task.py:2265-2350 | A fresh attempt lowers the batch size to the rows that fit its memory, a resumed one takes it from its checkpoint; every checkpoint it sends describes files that hold exactly the outputs of the batches its offsets count, at that size. It sends exactly one for each round in which one is due, in order, up to its first crash, and finishes if and only if its input state can be restored and no crash comes before the end; an attempt for which no row fits, or whose state cannot be restored, sends none |
| `StreamTask.OpenReaders` | smallpond/execution/task.py:2319-2326 | Whatever files and reader batches an attempt meets, its batches are the chunks of the input rows at its batch size |
| `Streaming.MixedSizes` | smallpond/execution/task.py:2297-2310 | Why a checkpoint carries the batch size: going on after o batches with another size reads every row once if and only if o batches of either size hold equally many rows |
| `StreamTask.ArrowBatchTask.RestoreInputState` | smallpond/execution/task.py:2241-2263 | Restoring skips the same number of batches of every input, also when an input has fewer; it raises if and only if batches are to be skipped and the first input has none |
| `StreamTask.ArrowBatchTask.UpdateBatchOffsets` | smallpond/execution/task.py:2108-2121 | The offsets advance by the difference to the last checkpoint of this attempt, from their restored value |
| `StreamTask.ArrowBatchTask.DumpOutput` | smallpond/execution/task.py:2352-2458 | Only this attempt's files are written; after a normal end the listed files hold the outputs of all batches. With inputs, exactly one checkpoint is sent for each round taken in which one is due, in order, and counts the rounds up to its own; the end is normal if and only if there is no crash up to it |
| `StreamTask.ArrowBatchTask.TakeOutputs` | smallpond/execution/task.py:2413-2441 | Rows written to the file plus rows buffered are the outputs taken so far, and the offsets agree with them when a checkpoint is due. A file ends after the first output in which one is due, after the last output, or in the first crash |
| `StreamTask.ArrowBatchTask.Finalize` | smallpond/execution/task.py:2186-2197 | The output directory ends up with exactly the listed files, those of earlier attempts included, unchanged |
| `Streaming.DropOutputs` | smallpond/execution/task.py:2466-2490 | Resuming after any number of batches yields the outputs from there on, also for inputs with different numbers of batches |
| `Streaming.GoodKept` | smallpond/execution/task.py:2082-2104 | A checkpoint stays good while the files it lists stay unchanged, whatever later attempts write |
| `Rechunking.IterFromFiles` | smallpond/io/arrow.py:235-293 | Without a byte limit the emitted batches are exactly the chunks of `batch_size` rows of the concatenated ranges, whatever the boundaries of files and reader batches; with one, rows and order are kept and no batch exceeds `batch_size`. Every batch is a group of pieces that stays below the byte limit, but for a single piece and for the last piece of a full batch; and a batch that is not full ends where the next piece would have reached that limit |
| `Rechunking.IterRecordBatches` | smallpond/io/arrow.py:162-194 | Trimming the reader's batches gives the rows of the range in order |
| `Rechunking.ChunksUnique` | smallpond/io/arrow.py:249-253 | Non-empty batches of which only the last may be short are determined by rows and batch size alone |
| `Rechunking.ChunksDrop` | smallpond/io/arrow.py:249-253 | Skipping batches of a row sequence is skipping as many times `batch_size` rows |
| `RowRanges.PartitionByRows` | smallpond/io/arrow.py:65-89 | Cutting the ranges is cutting the rows: part n expands to the n-th even partition of the expanded ranges, every range is of a file of the list, with that file's size and row count, the input objects stay as they were, and it succeeds if and only if no range object that has rows occurs twice |
| `RowRanges.RowRange.Take` | smallpond/io/arrow.py:53-62 | Head and remainder together are the old rows; the head has as many rows as asked for or as there are |
| `RowRanges.TakePart` | smallpond/io/arrow.py:77-86 | The inner loop takes exactly the next rows of the queue; without repeated objects it runs out if and only if there are too few rows |
| `RowRanges.DeepCopy` | smallpond/io/arrow.py:71-73 | Copies of a list: shared objects are copied once |
| `Splitting.SplitIntoRowsIsGetNth` | smallpond/common.py:83-109 | The rows of `split_into_rows` are the partitions of `get_nth_partition`, and their concatenation is the list |
| `Splitting.EvenSplit` | smallpond/common.py:95-109 | Partition sizes differ by at most one |
| `Splitting.StartNext` | smallpond/common.py:95-109 | Each partition starts where the one before it ends, and the last ends with the list |
| `Splitting.SplitIntoColsIsRoundRobin` | smallpond/common.py:74-80 | Column c holds exactly the items c, c + n, c + 2n, ... in order |
| `DatasetParts.PartitionDataset` | smallpond/logical/dataset.py:806-841 | Each part of a dataset cut by rows is sorted by path and has the rows of one even partition; a result exists if and only if the number of parts is positive and no range object with rows is repeated |
| `DatasetParts.SortKeepsRows` | smallpond/logical/dataset.py:823-824 | Sorting the ranges of a part by path orders them as Python orders strings and keeps the multiset of rows |
| `PartitionSizes.PartitionBySize` | smallpond/logical/dataset.py:843-854 | The parts hold the even split of the rows, and there is one more than the limit goes into the estimated sizes, each rounded down; with uniform rows each part stays below the limit plus one row; an empty dataset gives no parts, where empty means without rows once these have been counted and without files before; otherwise a result exists if and only if the limit is positive and no range object with rows is repeated, and files without rows make one part without rows |
| `PartitionSizes.PartBelowLimitPlusRow` | smallpond/logical/dataset.py:843-854 | The largest part stays below the limit plus one row |
| `PartitionSizes.DocumentedBoundIff` | smallpond/logical/dataset.py:844-848 | The documented bound, at most the limit, holds for all datasets of a row width if and only if the limit is a multiple of that width |
| `Datasets.SqlQueryFragment` | smallpond/logical/dataset.py:702-761 | The query selects the rows of the ranges, each as often as it occurs there; its first part reads exactly the files whose ranges are whole, a largest of them first, and the other parts are the partial ranges in order |
| `Datasets.SelfMergeIff` | smallpond/logical/dataset.py:604-622 | A dataset with resolved ranges merged with itself can be cut by rows if and only if it has no rows |
| `Planner.NestedThenConsolidate` | smallpond/logical/planner.py:148-209 | Nested partitioning followed by consolidation on the old dimensions restores the original partitions: the same infos, each once, with the same rows |
| `Planner.NestedRefusedIff` | smallpond/logical/planner.py:187-209 | Nested partitioning is refused if and only if the tasks differ in their dimensions, there would be more consumers than allowed, or some task has the dimension already; only the task constructor finds the last, the planner's own check never fires |
| `PartitionPlaces.NestedPlaces` | smallpond/logical/planner.py:194-209 | Each task of a nested partition is split on its own: consumer `index` of task i has its place, the infos of the task and the new one, and exactly that part of the task's rows |
| `PartitionPlaces.ConsolidateRefusedIff` | smallpond/logical/planner.py:150-175 | Consolidation is refused if and only if the tasks differ in their dimensions, lack one that is asked for, or the toplevel dimension is not asked for |
| `Planner.ConsolidateConserves` | smallpond/logical/planner.py:148-175 | Consolidation makes one task for each restricted info tuple that occurs, which merges the different tasks that have it; it has the rows of all listed tasks if and only if none that has rows is listed twice |
| `Planner.ConsolidateTwice` | smallpond/execution/task.py:629 | A union of an input with itself, consolidated: its rows occur once |
| `Partitions.MergeIff` | smallpond/execution/task.py:625-632 | The dictionary of inputs in the task constructor: a merge has the rows of all listed tasks if and only if no task that has rows is listed twice, and fewer otherwise |
| `Planner.FillGroups` | smallpond/logical/planner.py:163-171 | The grouping loop computes the groups that conservation is proved about |
| `FlatPartitions.FlatConserves` | smallpond/logical/planner.py:210-260 | Repartitioning gives the consumers different partition infos and exactly the rows of the merges; these are all rows if and only if no merge task is given a task that has rows twice |
| `PartitionPlaces.FlatByKey` | smallpond/logical/planner.py:210-260 | Rows with equal keys meet: when producers send each row to the partition of its key, consumer i has exactly the merged rows of partition i, for any number of producers |
| `PartitionPlaces.FlatRefusedIff` | smallpond/logical/planner.py:177-185 | Repartitioning is refused if and only if the tasks differ in their dimensions, or the new dimension is the toplevel one |
| `FlatPartitions.DistinctConserved` | smallpond/logical/planner.py:210-260 | With different input tasks no row is lost, however many producers there are |
| `FlatPartitions.SelfUnion` | smallpond/logical/planner.py:219-246 | A union of a single task with itself keeps its rows twice with two producers, and once with any other number |
| `FlatPartitions.MergesNonEmpty` | smallpond/logical/planner.py:220-246 | No merge task is without inputs, and every listed input is given to exactly one merge task, in order |
| `FlatPartitions.ProducerCount` | smallpond/logical/planner.py:211-219 | The largest number of producers within three limits, but at least one: the configured number, fewer than `max_card` consumers times all producers but one, and twice the executors' parallel tasks |
| `FlatPartitions.TwoPhaseLimit` | smallpond/logical/planner.py:333-348 | Limiting each partition, merging and limiting again gives a sub-multiset of all rows of size min(limit, rows), whatever rows each limit picks |
| `Partitions.SortSorts` | smallpond/execution/task.py:613-616 | A task's infos are sorted, and none is lost |
| `Broadcasts.BroadcastAgrees` | smallpond/logical/planner.py:262-298 | One task for each partition of the main input; refused if and only if some partition finds no task in some input; otherwise each dependency comes from its input and agrees with the partition on that input's dimensions, and the task reads that list if and only if no two inputs find the same task |
| `MainInputs.MainInputIs` | smallpond/logical/planner.py:267-274 | The main input has the most dimensions; among inputs with as many its largest partition infos are the largest, and it is the first such input |
| `MainInputs.MaxInfosIs` | smallpond/logical/planner.py:269-273 | The infos it is compared by are those of one of its tasks, and no task of it has larger ones |
| `Broadcasts.ReceivedIff` | smallpond/execution/task.py:625-632 | The constructor keeps inputs by key: a task reads as many inputs as its node has, each at its position, if and only if no two of them find the same task |
| `Broadcasts.SameInputTwice` | smallpond/execution/task.py:625-632 | A node that is given one input twice reads it once, so that the second position is missing |
| `Broadcasts.AllUsedIff` | smallpond/logical/planner.py:276-298 | Every task of an input is read if and only if no two different tasks of it have equal infos and some partition of the main input asks for each; a task that nobody reads may be outside the plan while its own inputs name it as a consumer |
| `Broadcasts.SingleInputIff` | smallpond/logical/planner.py:276-281 | With one input every task reads its own partition if and only if no two tasks of the input have equal infos; a union can have such tasks, and then the later one is read in place of the earlier |
| `Optimizer.VisitPreserves` | smallpond/logical/optimizer.py:16-59 | Optimizing preserves the value of every node, partition by partition, for chains of any length, shared children and excluded nodes |
| `Optimizer.FuseSqlValue` | smallpond/logical/optimizer.py:33-58 | The fused query over the child's inputs computes what the two queries computed one after the other |
| `Optimizer.FuseLimitIff` | smallpond/logical/optimizer.py:33-37 | Fusing with a limit child gives the same result if and only if the limit's input has a single partition |
| `FusedChains.ChainBecomes` | smallpond/logical/optimizer.py:33-58 | For a chain of SQL nodes that is fused, of any length: CPU and GPU limit are the largest of the chain, the memory limit is the largest of those given, the UDFs are those of all nodes, and the queries are all but the last of each node below, from the bottom up, followed by those of the top node over the nested last ones |
| `FusedChains.VisitFailsIff` | smallpond/logical/optimizer.py:53-58 | Optimizing raises an error if and only if some visited node that is fused with its input has a query with a named placeholder |
| `Optimizer.PlanOptimizer.VisitNode` | smallpond/logical/optimizer.py:16-25 | Visiting with the memo gives what visiting without it gives, as characterized by `VisitPreserves` and `FusedChains.ChainBecomes`, and keeps the memo right |
| `ConcurrentIteration.PrefixIff` | smallpond/utility.py:130-174 | The consumer sees a prefix of the source in every interleaving if and only if the source does not raise, or the buffer holds one item, or the source has at most one item |
| `ConcurrentIteration.SafeMeansPrefix` | smallpond/utility.py:152-174 | In those settings every run shows a prefix, whatever the items |
| `ConcurrentIteration.NormalEndMeansAll` | smallpond/utility.py:166-174 | A normal end means the consumer saw every item and the source did not raise |
| `ConcurrentIteration.EndsAsSource` | smallpond/utility.py:152-174 | A consumer that did not give up ends with the exception if and only if the source raises |
| `ConcurrentIteration.StopMeansTermination` | smallpond/utility.py:136-150 | After `join` has set the stop flag, every step of either thread lowers a bound and some step is possible until both have ended: the producer never stays blocked on a full queue |
| `WorkQueues.WorkQueueInMemory.Push` | smallpond/execution/workqueue.py:250-258 | Popped, then queued with batches expanded, then buffered items are the pushed sequence extended by the item; without buffering the item and all buffered ones become one entry |
| `WorkQueues.WorkQueueInMemory.Flush` | smallpond/execution/workqueue.py:260-265 | Flushing turns the buffer into one batch at the end of the queue, and keeps that sequence |
| `WorkQueues.WorkQueueInMemory.Pop` | smallpond/execution/workqueue.py:241-248 | First in, first out: the items of the oldest entry are popped, none only when the queue is empty |
| `WorkQueues.Work.Exec` | smallpond/execution/workqueue.py:166-187 | A work runs at most once, is cleaned up exactly when it ran; it succeeds if and only if initialization, run and finalization all do, fails if and only if its run says so, and crashes otherwise |
| `WorkQueues.RunBatch` | smallpond/execution/workqueue.py:218-228 | A batch succeeds if and only if all its works do; works after the first that does not succeed stay untouched |
| `FilesystemQueue.NoItemTwice` | smallpond/execution/workqueue.py:336-381 | For any number of producers and consumers, under every interleaving of listings and renames: each item is in exactly one of temp, enqueued and dequeued, unchanged, and none is loaded twice |
| `FilesystemQueue.QuietMeansAllLoaded` | smallpond/execution/workqueue.py:336-363 | When no consumer stands between a rename and a load, the dequeued items are exactly the loaded ones |
| `FilesystemQueue.PopTakes` | smallpond/execution/workqueue.py:336-363 | A consumer that is not disturbed skips the listed files that are gone, then takes the files that follow, in order and with their contents, until it has as many as asked for, at least one, or meets another file that is gone; exactly these files are dequeued |
| `GpuQuotas.GpuPool.AcquireGpu` | smallpond/execution/executor.py:311-331 | Nothing is granted when too little is free; otherwise the grant sums exactly to the request and each GPU's free quota plus grant is what was free, and a GPU gives a share only when those before it have nothing left |
| `GpuQuotas.GpuPool.ReleaseGpu` | smallpond/execution/executor.py:333-341 | The assertion holds if and only if no GPU ends up with more than one |
| `GpuQuotas.GpuPool.StartWork` | smallpond/execution/executor.py:240-262 | Free plus held quota of a GPU drops exactly by the grant that the start overwrites, and never exceeds one; a request above the number of GPUs raises, because the limit has no setter; a start fails for lack of quota if and only if less than the request is free, and then changes nothing |
| `GpuQuotas.GpuPool.CollectFinished` | smallpond/execution/executor.py:281-309 | Collecting exactly the finished works keeps free plus held quota of every GPU, and the release assertion never fires, whatever was overwritten before |
| `GpuQuotas.GpuPool.RunWorks` | smallpond/execution/executor.py:240-309 | Over any sequence of starts and collections the release assertion never fires, and quota is conserved if and only if no start overwrote a running work that held a grant |
| `ProcessPool.SimplePool.UpdateQueue` | smallpond/execution/executor.py:79-87 | Tasks start in submission order, never more than the pool holds, and no slot stays empty while a task waits |
| `TaskGraphs.PlanTask.SetPermanent` | smallpond/execution/task.py:797-804 | The pruned recursion of the setter makes exactly the whole closure through tasks without self-contained output permanent |
| `TaskGraphs.ExecutionPlan.AddSink` | smallpond/execution/task.py:3340-3372 | A sink makes permanent exactly what its output consists of and keeps the plan in order |
| `TaskGraphs.ExecutionPlan.AddTask` | smallpond/execution/task.py:620-622 | Every ordinary task keeps the plan in order: only tasks that make files of their own are named or have an output path |
| `TaskGraphs.ExecutionPlan.OutputsKept` | smallpond/execution/task.py:750-756 | In every plan that is built all tasks whose files make up a permanent output are permanent, so not under the staging root that cleanup removes |
| `TaskGraphs.BuildPlan` | smallpond/execution/task.py:797-804 | For every plan, built task by task with sinks in any order: in the end a task is permanent if and only if it is named, is a sink, or its files make up the output of one |
| `TaskGraphs.AllTasks` | smallpond/execution/task.py:3561-3573 | `ExecutionPlan.tasks` holds exactly the tasks at or below the root, each once |
| `TaskGraphs.PlanAndTasks` | smallpond/execution/task.py:3561-3573 | For every plan that is built, the scheduler knows all built tasks if and only if every one but the root is read by another; the tasks it knows are those at or below the root |

## Left out

- Executors: floating-point rounding of boost factors and GPU limits; they are reals, truncated with floor.
- Dispatch.Boost: a task constructor refuses a CPU limit of zero, so the boost factor of a zero limit is not modelled.
- SchedLoop.Input: elapsed-time percentiles and probe timers; the attempts that look slow and the probe rounds are arbitrary choices.
- SchedLoop.PopExecs: popping in a thread pool and the count passed to `pop`; each queue yields an arbitrary sequence, popped before any completion is processed.
- Schedulers.RunPlan: completions processed before the loop, `suspend_good_executors`, restart with a new epoch and the requeueing it does.
- Schedulers.Scheduler.GoodExecutors: the cached lists other than those of good and alive executors, which have the same life cycle.
- Sched.Enqueue: why a task runs on the scheduler (standalone mode, `exec_on_scheduler`, `skip_when_any_input_empty`); it is a set of the plan.
- Sched.ProcessOne: the `runtime_state` a checkpoint hands to the next attempt; which checkpoint an attempt resumes from is arbitrary in `StreamTask.RunJob`.
- Liveness of the scheduler when no executor ever becomes good: only safety and the end of the loop are stated.
- StreamTask.ArrowBatchTask.Finalize: the test whether a path starts with the output directory is equality of attempts. A resuming attempt lists only files of lower-numbered attempts besides its own, and the directory of a higher-numbered attempt is never a prefix of a lower-numbered one's.
- StreamTask.ArrowBatchTask.DumpOutput: schemas, compression, and the adjustment of the row group size.
- Streaming.Outputs: user functions that keep state between batches, and subclasses that yield their own `StreamOutput`; the DuckDB reader, which fixes no row order.
- Rechunking.IterFromFiles: reading parquet, casting columns, and reopening a reader; a reader is a list of batches of at most `batch_size` rows.
- DatasetParts.PartitionDataset: `random_shuffle`, which permutes the ranges first, and cached results; any list of ranges is covered.
- Datasets.SqlQueryFragment: the text of the query, columns, `union_by_name` and filesystems.
- Globbing, hive paths, parquet metadata, `load_partitioned_datasets` and the CSV, JSON, Arrow and pandas datasets.
- Partitions.Create: dimension names are ranks, so that tuple comparison is on numbers.
- Planner.PartitionNested: which kind of task is created; producers split rows in an arbitrary way that loses none.
- Optimizer.Visit: `batched_processing`, and queries whose result depends on anything but their tables.
- ConcurrentIteration.Step: real threads, the timeout of `join` and messages on standard error; each queue operation is one atomic step, and items are never None.
- FilesystemQueue.Load: pickling and compression; a consumer that stops between rename and load keeps the item in the dequeued directory.
- WorkQueues.Work.Exec: exceptions raised by `cleanup`, and works that are not processes.
- GpuQuotas.GpuPool.StartWork: waiting until enough quota is free; a start without enough quota is reported instead.
- ProcessPool.SimplePool.UpdateQueue: processes; a task is a number and readiness an arbitrary predicate.
- The Ray backend, session, driver, job manager, platforms, logging, metrics, figures, command line, benchmarks and examples.
