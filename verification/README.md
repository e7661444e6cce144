# Verified models of phosphene's scheduling, supervision and transcript logic

A Dafny 4.11 project that models the decision logic of phosphene and proves what that logic guarantees over
all inputs, all runs and all interleavings. `dafny verify dfyconfig.toml` checks everything.

| File | What it models |
|---|---|
| `FairScheduler.dfy`, `FairPool.dfy`, `FairWaiting.dfy`, `FairShare.dfy`, `FairAccounts.dfy`, `FairPoolObject.dfy` | the per-topic fair pool: round robin, state machine of its steps, bounded waiting, shares, outcomes, the pool object |
| `TaskGraph.dfy`, `ResearchPlan.dfy`, `ExecutionPlan.dfy`, `BatchPipeline.dfy` | dependency graphs, cycle detection, layered plans, the way from batch to queue |
| `WorkQueue.dfy`, `WorkQueueRuns.dfy`, `WorkQueueResults.dfy`, `QueuePriority.dfy` | the work queue and its runs: order, deadlock freedom, termination, outcome, stored results, priorities |
| `Supervisor.dfy`, `SupervisorHistory.dfy`, `TopicRouter.dfy`, `RouterLiveness.dfy`, `RouterObjects.dfy` | the lifecycle table, the supervisor, the RPC router on top of it, what both get done, and both as objects |
| `WorkerPool.dfy`, `WorkerPoolAccounts.dfy`, `WorkerPoolObject.dfy` | the worker pool with watchdogs, late replies, deaths and respawns, and what it counts |
| `Sanitizer.dfy`, `PollHygiene.dfy`, `ToolResultHygiene.dfy` | cleaning a transcript: polls, repeated errors, truncation |
| `StreamingCompaction.dfy`, `RollingSummary.dfy` | segmenting a transcript and merging its sections under a cap |
| `Rollup.dfy` | bursts of transient tool results, squashed or counted |
| `Materializer.dfy` | rotating a transcript after a compaction |
| `DriftAlerts.dfy` | deduplicating drift alerts over ticks |
| `EventPush.dfy` | hold-once delivery of memory notes |
| `MediaBatcher.dfy` | batching media sends |
| `OrderedMaps.dfy`, `Texts.dfy` | maps that remember insertion order, strings |

Code that changes state step by step is modelled twice: a pure step function over a state value, about which the
theorems are proved, and a class or a method with loops whose contract says that it performs exactly that step.

## Where the code and its documentation differ

The models follow the code. For each difference the lemmas named here give an input or a run, and when the promise holds.

- Fair pool: "an equal share" does not hold, because a drained cursor restarts at the head: `FairShare.OvertakenTwice` is
  a run in which one topic is served twice while another waits. Shares are equal while no topic ahead drains
  (`FairShare.FairUntilDrain`), and each drain costs at most one turn (`FairShare.OvertakingComesFromDrains`).
- Fair pool: a topic with the empty name is falsy in the pump, is never served, and stalls the pool; without that name
  the pool is never idle (`FairWaiting.NeverIdleIffNamed`, `FairWaiting.EmptyNameStallsAll`).
- Supervisor: a refused restart leaves a yielding actor alive, because the table has no edge from yielding to failed
  (`Supervisor.RefusedRestart`, `Supervisor.RefusedRestartHappens`).
- Topic router: self-healing fails exactly for a worker that exits with code 0 before it is online; its actor stays
  dispatched (`TopicRouter.ExitHealsUnlessEarly`, `TopicRouter.EarlyExitHappens`). A dispatch makes the round trip exactly
  when the topic has retries left or a worker that has not exited (`RouterLiveness.RoundTrip`, `RouterLiveness.LostForEver`).
- `detectCycles` names tasks on cycles, but not all of them: exactly the ends of the edges that lead back into its walk
  (`ResearchPlan.ReportedIff`). A ring of three loses one (`ResearchPlan.TriangleIsNotReported`); tasks on cycles of one
  or two are all named (`ResearchPlan.ShortCyclesAreReported`).
- `failBlockedTasks` makes one pass, which is enough exactly when each task listed before a dependency names that
  dependency's own dependencies as well (`WorkQueueRuns.OnePassIff`, `WorkQueueRuns.OnePassMayNotSuffice`).
- `recordResult` does not check that its task is running; a second report overwrites the first and repeats the task in the
  completion order (`WorkQueueResults.ReportsAreUnchecked`).
- `createQueue` computes an order by priority and discards it; dispatch follows the order of the specs, which is the same
  exactly for unique ids listed by priority (`QueuePriority.RunsIgnorePriority`, `QueuePriority.SpecOrderIffListed`).
- Rollup is idempotent exactly when the minimum burst is at least two or the summary tool is not transient
  (`Rollup.IdempotentIff`), and online tracking agrees with it exactly when the minimum is at least one
  (`Rollup.OnlineIsBatchIff`).
- Sanitizing twice can drop more: truncation can make neighbouring errors equal (`PollHygiene.CutErrorsCollide`), and a
  poll frame flagged as an error becomes an error with the marker as its text (`PollHygiene.FlaggedPollCollides`).
  `PollHygiene.SecondPassIff` is the exact condition; `PollHygiene.QuietInputSettles` can be checked on the input.
- `truncateHeadTail` with a tail of zero appends the whole text after its notice (`ToolResultHygiene.NoTailKeepsEverything`);
  a result is shorter exactly under the condition of `ToolResultHygiene.CutShortensIff`.
- Drift alerts: the drift of a plugin that matches again is resolved exactly when the plugin's id is not empty
  (`DriftAlerts.EmptyIdNeverResolves`). Alerts are raised as promised exactly when signatures determine the plugin
  (`DriftAlerts.PromiseIffDetermined`), which a colon in the manifest's checksum can prevent (`DriftAlerts.ColonsHideADrift`).
- Event push: cleaning with a shorter time to live than the evaluations use lets a note through early;
  `EventPush.InvisibleIffLate` says exactly when cleaning is invisible.

## Model

| member | source | states |
|---|---|---|
| `FairWaiting.BoundedWaiting` | ts/src/features/worker-pool/fair-pool.ts:138-209 | In every run over a fixed set of n topic names, a task queued behind p topics and behind q tasks of its own topic is dispatched before (q+1)(n+p(n-2)) further dispatches, and no other topic is served more than (q+1)(p+1) times while it waits, whatever arrives in between; until it is dispatched both limits hold too |
| `FairWaiting.BoundValues` | ts/src/features/worker-pool/fair-scheduler.ts:40-55 | The two waiting bounds in closed form |
| `FairWaiting.NeverIdleIffNamed` | ts/src/features/worker-pool/fair-pool.ts:179-190 | After every step of every run over the given topic names the pool is full, has empty queues or is destroyed, if and only if the empty name is not one of them |
| `FairWaiting.EmptyNameStallsAll` | ts/src/features/worker-pool/fair-pool.ts:184-185 | Once the topic with the empty name is queued, the pool makes fewer further dispatches, in total and for ever, than one wait for that name would allow |
| `FairWaiting.RunNeverServesEmpty` | ts/src/features/worker-pool/fair-pool.ts:184-185 | No run ever dispatches a task of the topic with the empty name |
| `FairWaiting.NextTopicIsPick` | ts/src/features/worker-pool/fair-pool.ts:181-184 | In a reachable state the filter on non-empty queues removes nothing: the scheduler chooses among all queued topics in map order |
| `FairWaiting.WaitingAfterOther` | ts/src/features/worker-pool/fair-scheduler.ts:40-55 | Serving another topic, drained or not, uses up one dispatch of the wait and at most the overtaking that is allowed |
| `FairWaiting.WaitingAfterArrival` | ts/src/features/worker-pool/fair-pool.ts:167-174 | A topic that joins at the tail leaves the remaining wait within its bounds |
| `FairPool.Conservation` | ts/src/features/worker-pool/fair-pool.ts:138-209 | In every run each accepted task is in exactly one of queued, in flight and settled; it is settled at most once; inFlight counts the tasks in flight and stays within maxConcurrent; each topic is dispatched in submission order |
| `FairAccounts.OutcomesAreReported` | ts/src/features/worker-pool/fair-pool.ts:138-207 | In every run the promises settled by the inner pool carry the outcomes it reported, in its order; completed counts the reported successes and failed everything else reported; the accepted tasks are the calls made before the pool was destroyed |
| `FairPool.RunKeepsInv` | ts/src/features/worker-pool/fair-pool.ts:120-209 | Every run keeps the pool invariant: no empty queue in the map, per-topic order, single settlement, the gate count and the completed and failed counters |
| `FairPool.StepKeepsInv` | ts/src/features/worker-pool/fair-pool.ts:120-209 | Submitting, a promise of the inner pool settling, and destroying each keep the pool invariant |
| `FairPool.DrainedMeansSettled` | ts/src/features/worker-pool/fair-pool.ts:109-118 | When drain sees no queue and nothing in flight, every accepted task has been settled |
| `FairPool.DestroySettles` | ts/src/features/worker-pool/fair-pool.ts:120-127 | Destroying settles exactly the queued tasks, each once; every new settlement is a rejection by the pool; the earlier settlements and the tasks in flight stay as they are |
| `FairPoolObject.StatsAddUp` | ts/src/features/worker-pool/fair-pool.ts:96-107 | Until the pool is destroyed, queued, in flight, completed and failed add up to the tasks it accepted |
| `FairPoolObject.Pool.constructor` | ts/src/features/worker-pool/fair-pool.ts:75-79 | A new pool is the empty state with the limits given, by default four in flight and a threshold of eight |
| `FairPoolObject.Pool.ExecuteForTopic` | ts/src/features/worker-pool/fair-pool.ts:138-154 | The call is the submit step; it refuses exactly when the pool is destroyed |
| `FairPoolObject.Pool.PumpQueues` | ts/src/features/worker-pool/fair-pool.ts:179-190 | The pump loop reaches the state in which nothing more can be dispatched |
| `FairPoolObject.Pool.OnInnerSettled` | ts/src/features/worker-pool/fair-pool.ts:193-207 | The promise callbacks are the settle step: a success counts as completed, anything else as failed, the promise gets the reported outcome, and the pump runs again |
| `FairPoolObject.Pool.DestroyPool` | ts/src/features/worker-pool/fair-pool.ts:120-127 | Destroying is the destroy step |
| `FairPoolObject.Pool.Backpressure` | ts/src/features/worker-pool/fair-pool.ts:161-163 | Pressure on a topic depends on the length of its own queue alone; the answer names that length and the threshold |
| `FairPoolObject.Pool.ReadStats` | ts/src/features/worker-pool/fair-pool.ts:96-107 | Queue lengths and tasks in flight of this pool, both pools' outcome counts added up, the rest as the inner pool reports it; the four numbers are the accepted tasks plus what the inner pool counts |
| `FairPoolObject.Pool.IsDrained` | ts/src/features/worker-pool/fair-pool.ts:114-116 | The exit test of drain, and that it implies that all accepted tasks are settled |
| `FairScheduler.PickNextTopic` | ts/src/features/worker-pool/fair-scheduler.ts:40-55 | A topic is picked exactly when there is one, and it is one of the given topics |
| `FairScheduler.PickFollowsCursor` | ts/src/features/worker-pool/fair-scheduler.ts:46-54 | The pick is the first topic after the cursor when the topics are read as a circle, the cursor's own topic last |
| `FairScheduler.PickWithoutCursor` | ts/src/features/worker-pool/fair-scheduler.ts:43-51 | Without a cursor, or with one that is gone, the head is picked |
| `FairScheduler.ServingAnotherApproaches` | ts/src/features/worker-pool/fair-scheduler.ts:46-54 | Whatever topic is picked instead, drained or not, a waiting topic comes strictly closer in the measure of laps and distance |
| `FairScheduler.ArrivalKeepsDistance` | ts/src/features/worker-pool/fair-scheduler.ts:46-54 | A topic that joins at the tail pushes nobody back, not even when it is the stale cursor |
| `FairScheduler.BehindAfterOther` | ts/src/features/worker-pool/fair-scheduler.ts:46-54 | A topic that was served after the waiting one stays behind it while others are served |
| `FairShare.OvertakingComesFromDrains` | ts/src/features/worker-pool/fair-pool.ts:138-209 | In every run, while a task waits, another topic is served at most once more than topics ahead of it have drained, and again that often for every task ahead of it in its own queue |
| `FairShare.FairUntilDrain` | ts/src/features/worker-pool/fair-pool.ts:138-209 | In every run, as long as the first task of a topic keeps its place in the order of topics, no other topic is served twice |
| `FairShare.OvertakenTwice` | ts/src/features/worker-pool/fair-pool.ts:138-209 | A run from a fresh pool in which one topic is served twice while the first task of another waits behind one topic, which is the bound of the waiting theorem |
| `ResearchPlan.DetectCycles` | ts/src/plugins/shared/research-task-specs.ts:139-177 | Nothing is reported exactly when the dependency graph is acyclic; otherwise exactly the ends of the edges that lead back into the search's current walk, each of them on a cycle; the search ends on every graph |
| `ResearchPlan.CycleFinder.constructor` | ts/src/plugins/shared/research-task-specs.ts:140-147 | The search starts with nothing visited, an empty stack and no findings |
| `ResearchPlan.CycleFinder.Dfs` | ts/src/plugins/shared/research-task-specs.ts:149-168 | The closure is the recursive visit: what is visited and what is found, in order; it leaves the stack as it was and answers whether the node was on it |
| `ResearchPlan.BackEdge` | ts/src/plugins/shared/research-task-specs.ts:150-163 | An edge back into the current walk closes a cycle through both of its ends |
| `ResearchPlan.ReportedIff` | ts/src/plugins/shared/research-task-specs.ts:139-177 | An id is reported if and only if it is an end of an edge to a task that the search has not left when it leaves the dependant; every such id lies on a cycle |
| `ResearchPlan.EveryCycleIsHit` | ts/src/plugins/shared/research-task-specs.ts:139-177 | Every cycle has an edge of which both ends are reported |
| `ResearchPlan.ShortCyclesAreReported` | ts/src/plugins/shared/research-task-specs.ts:139-177 | A task on a cycle of one or two tasks is always reported |
| `ResearchPlan.TriangleIsNotReported` | ts/src/plugins/shared/research-task-specs.ts:139-177 | Of any three tasks in a ring two are reported and one is not, although all lie on a cycle |
| `ResearchPlan.VisitConsistent` | ts/src/plugins/shared/research-task-specs.ts:149-168 | One visit keeps the account of the search: what is found so far are the ends of the edges found to lead back, and nothing found is forgotten |
| `ResearchPlan.QueueKeepsGraph` | ts/src/plugins/shared/research-task-specs.ts:247-259 | The work queue made from a batch has the batch's dependency graph, repeated ids included |
| `ExecutionPlan.ComputeExecutionPlan` | ts/src/plugins/shared/research-task-specs.ts:183-242 | A plan reports a cycle exactly when there is one, with all that the cycle search found; otherwise, repeated ids or not, each group is what is ready after the groups before it, in batch order, none is empty, and at the end nothing is ready; with unique ids the groups are the layers of the graph; depths are as the source computes them |
| `ExecutionPlan.RoundMembers` | ts/src/plugins/shared/research-task-specs.ts:204-234 | A group holds exactly the ids not planned before of tasks that depend only on earlier groups, repeated ids included |
| `ExecutionPlan.PlannedOnce` | ts/src/plugins/shared/research-task-specs.ts:204-234 | Exactly the tasks whose transitive dependencies are all present are planned, each in one group and once in it |
| `ExecutionPlan.GroupIsLongestChain` | ts/src/plugins/shared/research-task-specs.ts:200-234 | A task's group index is the length of its longest chain of dependencies |
| `ExecutionPlan.FewestGroups` | ts/src/plugins/shared/research-task-specs.ts:200-234 | No plan of the same tasks that respects dependencies has fewer groups |
| `ExecutionPlan.EverythingPlanned` | ts/src/plugins/shared/research-task-specs.ts:204-234 | With no missing dependency every task of an acyclic batch is planned |
| `ExecutionPlan.LoopEnds` | ts/src/plugins/shared/research-task-specs.ts:214-217 | Where the empty-layer guard stops the loop, every task that can be planned has been |
| `ExecutionPlan.RoundIsLayer` | ts/src/plugins/shared/research-task-specs.ts:207-212 | One round of the layer loop collects exactly the next layer, in batch order |
| `ExecutionPlan.MaxDepthOf` | ts/src/plugins/shared/research-task-specs.ts:224-225 | The depth of a group is the largest depth among its tasks |
| `ExecutionPlan.MissingDependencies` | ts/src/plugins/shared/research-task-specs.ts:117-132 | The references of the batch, in order and as often as they occur, that name no task of it; none means a complete graph |
| `TaskGraph.GroundedIsComplete` | ts/src/plugins/shared/research-task-specs.ts:200-234 | In an acyclic graph a task with all transitive dependencies present has chains no longer than the number of tasks |
| `TaskGraph.OrderedIsAcyclic` | ts/src/plugins/shared/research-task-specs.ts:139-177 | A graph whose tasks can be listed after their dependencies has no cycle |
| `TaskGraph.NoDescent` | ts/src/plugins/shared/research-task-specs.ts:139-177 | In an acyclic graph no non-empty group of tasks can have every member depend on a member |
| `BatchPipeline.BatchCompletesIffChecked` | ts/src/plugins/shared/research-task-specs.ts:111-259 | Every run of the batch's queue that stops has finished all tasks, and completed them all when all reports are successes, if and only if there is neither a cycle nor a missing dependency |
| `WorkQueue.CreateQueue` | ts/src/plugins/shared/work-queue-scheduler.ts:71-116 | All tasks start queued, in the order in which ids first occur, each with the last spec of its id; the order by priority is worked out and discarded |
| `WorkQueue.FirstIdsInOrder` | ts/src/plugins/shared/work-queue-scheduler.ts:71-116 | The ids come in the order of the specs that first mention them |
| `QueuePriority.PriorityOrderIsSorted` | ts/src/plugins/shared/work-queue-scheduler.ts:75-107 | With unique ids the discarded order has the high tasks, then the normal, then the low ones, each in spec order |
| `QueuePriority.PriorityOrderIsPermutation` | ts/src/plugins/shared/work-queue-scheduler.ts:75-107 | Repeated ids or not, the discarded order lists the ids of the specs |
| `QueuePriority.SpecOrderIffListed` | ts/src/plugins/shared/work-queue-scheduler.ts:71-116 | The discarded order is the order of the queue if and only if ids are unique and no spec is followed by one of a higher priority |
| `QueuePriority.RunsIgnorePriority` | ts/src/plugins/shared/work-queue-scheduler.ts:71-260 | Two batches that differ in priorities only have the same runs, with the same dispatch order, completion order and outcomes |
| `WorkQueue.DispatchNext` | ts/src/plugins/shared/work-queue-scheduler.ts:125-188 | The ids dispatched are the first ready ones in spec order, as many as there are free slots, and they become dispatched at the given time |
| `WorkQueue.FailBlockedTasks` | ts/src/plugins/shared/work-queue-scheduler.ts:226-260 | One pass in spec order fails every queued task that has a failed dependency when it is visited |
| `WorkQueue.ComputeProgress` | ts/src/plugins/shared/work-queue-scheduler.ts:283-335 | The next ids are exactly the ids, in order, that a dispatch from the same state and cap starts; the four counts are the numbers of tasks with each status and add up to the total |
| `WorkQueue.IsComplete` | ts/src/plugins/shared/work-queue-scheduler.ts:340-347 | Complete means that no task is queued or dispatched |
| `WorkQueueRuns.DispatchOrderIsTopological` | ts/src/plugins/shared/work-queue-scheduler.ts:125-220 | In every run that reports results only for dispatched tasks, no task is dispatched twice and each is dispatched after all its dependencies |
| `WorkQueueRuns.DispatchFillsSlots` | ts/src/plugins/shared/work-queue-scheduler.ts:130-165 | After a dispatch either all ready tasks run or the cap is reached, and it is exceeded only if it was before |
| `WorkQueueRuns.StuckIsFinished` | ts/src/plugins/shared/work-queue-scheduler.ts:125-260 | With an acyclic graph and no missing dependency, a state in which nothing can happen is complete |
| `WorkQueueRuns.ProductiveRunsEnd` | ts/src/plugins/shared/work-queue-scheduler.ts:125-260 | In any run at most two steps per task change anything |
| `WorkQueueRuns.Drive` | ts/src/plugins/shared/work-queue-scheduler.ts:125-260 | From every state some run reaches one in which nothing more can happen |
| `WorkQueueRuns.FinalStatus` | ts/src/plugins/shared/work-queue-scheduler.ts:125-260 | At completion a task is completed if and only if it and all its transitive dependencies reported success |
| `WorkQueueRuns.CompletesIffWellFormed` | ts/src/plugins/shared/work-queue-scheduler.ts:125-347 | Every run that stops has finished all tasks, whatever they report, if and only if the graph is acyclic and mentions no unknown task; and if and only if every run that stops has completed all tasks when all reports are successes |
| `WorkQueueRuns.OnePassIff` | ts/src/plugins/shared/work-queue-scheduler.ts:226-260 | A single pass is the fixed point, whatever the statuses, if and only if each task listed before a dependency names that dependency's own dependencies as well |
| `WorkQueueRuns.OnePassSuffices` | ts/src/plugins/shared/work-queue-scheduler.ts:226-260 | When tasks are listed after their dependencies a single pass is already the fixed point |
| `WorkQueueRuns.OnePassMayNotSuffice` | ts/src/plugins/shared/work-queue-scheduler.ts:226-260 | Listed the other way round, a run comes to a failure that needs a second pass |
| `WorkQueueRuns.FailPassEffect` | ts/src/plugins/shared/work-queue-scheduler.ts:230-251 | A pass only turns queued tasks with a failed dependency into failed ones |
| `WorkQueueRuns.RunSound` | ts/src/plugins/shared/work-queue-scheduler.ts:125-260 | Every run keeps each status explained by the two logs, the reports and the dependencies |
| `WorkQueueResults.ResultsAreReported` | ts/src/plugins/shared/work-queue-scheduler.ts:194-260 | In every run a completed task carries the result and time of the one report on it and no error; a task whose report was a failure carries that text as its error and no result; a task that failed unreported names a failed dependency; all others carry nothing and were not reported on |
| `WorkQueueResults.DispatchTimes` | ts/src/plugins/shared/work-queue-scheduler.ts:166-176 | The time of dispatch is set by the step that enters the task into the dispatch order, and by no other |
| `WorkQueueResults.ReportsAreUnchecked` | ts/src/plugins/shared/work-queue-scheduler.ts:194-220 | A report on any known task is recorded whatever its status, so that a second report lists the task twice; one on an unknown task changes nothing |
| `Supervisor.EveryRun` | ts/src/features/supervision/base-supervisor.ts:72-154 | In every run each event that is no reap follows an edge of the table, the events of one incarnation chain, no retry count exceeds the limit, live actors are spawned minus reaped, and the failure counter counts the events into failed |
| `SupervisorHistory.EveryKeyOnItsOwn` | ts/src/features/supervision/base-supervisor.ts:72-154 | In every run each actor's state and retry count are what the operations on its own key make them: zero at the spawn, one more with every restart until the limit refuses it, gone with the reap |
| `SupervisorHistory.RestartsAreLimited` | ts/src/features/supervision/base-supervisor.ts:104-135 | In every run a live actor's retry count is the number of restarts in the event log since its last spawn, the kinds of events tell what happened and account for the counters, and there are at most as many restarts as the limit times the spawns |
| `SupervisorHistory.TableByEvent` | ts/src/features/subagent-admission/subagent-admission.machine.ts:24-74 | Each event of the lifecycle is accepted in exactly the listed states and leads to exactly one |
| `SupervisorHistory.TableMovesOn` | ts/src/features/subagent-admission/subagent-admission.machine.ts:24-74 | The lifecycle only moves forward, but for a yielding actor that runs again; terminal states lead to the archive only, and nothing leaves that |
| `Supervisor.StepInv` | ts/src/features/supervision/base-supervisor.ts:72-185 | Spawn, signal, restart, reap and stop each keep the supervisor invariant |
| `Supervisor.ApplyInv` | ts/src/features/supervision/base-supervisor.ts:229-254 | Applying an event, valid or not, keeps the invariant |
| `Supervisor.RefusedRestart` | ts/src/features/supervision/base-supervisor.ts:104-112 | A restart that is refused leaves the actor terminal exactly when the table has a way to failed; a yielding actor stays alive |
| `Supervisor.RefusedRestartHappens` | ts/src/features/supervision/base-supervisor.ts:72-135 | Spawned, started, yielding and restarted without retries left, an actor is still yielding |
| `Supervisor.ReapInv` | ts/src/features/supervision/base-supervisor.ts:137-154 | Reaping keeps the invariant although its event is emitted whether or not the table allows it |
| `RouterObjects.BaseSupervisor.constructor` | ts/src/features/supervision/base-supervisor.ts:67-70 | A new supervisor has no actors and all counters at zero |
| `RouterObjects.BaseSupervisor.ApplyEvent` | ts/src/features/supervision/base-supervisor.ts:229-254 | The method is the apply step: state, event and failure counter, or nothing |
| `RouterObjects.BaseSupervisor.SpawnActor` | ts/src/features/supervision/base-supervisor.ts:72-95 | The method is the spawn step and refuses a key in use |
| `RouterObjects.BaseSupervisor.SignalActor` | ts/src/features/supervision/base-supervisor.ts:97-102 | The method is the signal step and fails for an unknown key |
| `RouterObjects.BaseSupervisor.RestartActor` | ts/src/features/supervision/base-supervisor.ts:104-135 | The method is the restart step; it restarts exactly a known key with retries left, and exactly then the retry count goes up by one |
| `RouterObjects.BaseSupervisor.ReapActor` | ts/src/features/supervision/base-supervisor.ts:137-154 | The method is the reap step |
| `RouterObjects.BaseSupervisor.Stop` | ts/src/features/supervision/base-supervisor.ts:180-185 | Stopping reaps every actor, each once, with the event of its reap; none is left and reaped equals spawned |
| `TopicRouter.RequestsSettleOnce` | ts/src/features/topic-router/topic-router.ts:98-131 | In every run each request id is either pending or settled once, never both; a pending request was posted to its topic's current worker, which has not exited |
| `TopicRouter.OnlyCurrentWorkerReplies` | ts/src/features/topic-router/topic-router.ts:164-171 | Replies of replaced or reaped workers change nothing; a reply that settles comes from the current worker of the request's topic |
| `RouterLiveness.RepliesSettle` | ts/src/features/topic-router/topic-router.ts:164-171 | In every reachable state a reply from the worker of a pending request's topic settles that request, once and with the reply's outcome, and leaves all others as they are |
| `RouterLiveness.RoundTrip` | ts/src/features/topic-router/topic-router.ts:98-171 | From every reachable state with no dispatch about to post, a dispatch to a topic that can be served makes the round trip: begun, online, seen running, posted and answered, it settles a fresh id with the outcome of the reply |
| `RouterLiveness.LostForEver` | ts/src/features/topic-router/topic-router.ts:98-193 | A topic that cannot be served, its retries used up or its worker gone too early, is not served again in any run that does not reap it |
| `RouterLiveness.OnlyRepliesAnswer` | ts/src/features/topic-router/topic-router.ts:164-239 | Only a reply answers a request; every other end of one is a rejection |
| `RouterLiveness.ErrorRejects` | ts/src/features/topic-router/topic-router.ts:176-180 | A crash fails the topic's actor and rejects its pending requests, each once, and no other |
| `RouterLiveness.ExitRejects` | ts/src/features/topic-router/topic-router.ts:182-193 | An exit completes or fails the actor by its code and rejects its topic's pending requests |
| `RouterLiveness.ReapRejects` | ts/src/features/supervision/base-supervisor.ts:137-154 | Reaping rejects the topic's pending requests, forgets the actor and detaches its worker |
| `RouterLiveness.PostEffect` | ts/src/features/topic-router/topic-router.ts:115-130 | A post registers a fresh id at the topic's worker; one that throws settles it as a rejection |
| `TopicRouter.Contained` | ts/src/features/topic-router/topic-router.ts:98-239 | A step of one topic, crashes included, changes no other topic's actor, pending requests or settlements |
| `TopicRouter.ExitHealsUnlessEarly` | ts/src/features/topic-router/topic-router.ts:182-193 | After a worker's exit its actor is terminal, so that the next dispatch restarts it, unless the worker exits with code 0 before it came online |
| `TopicRouter.EarlyExitWedges` | ts/src/features/topic-router/topic-router.ts:182-193 | An actor whose worker exited that early keeps its state in every later step until it is reaped |
| `TopicRouter.EarlyExitHappens` | ts/src/features/topic-router/topic-router.ts:98-193 | From a fresh router one dispatch and an exit with code 0 lead there, and any run without a reap of the topic stays there |
| `TopicRouter.RunKeepsInv` | ts/src/features/topic-router/topic-router.ts:98-239 | Every run of dispatches, worker events and reaps keeps the router invariant |
| `TopicRouter.StepKeepsInv` | ts/src/features/topic-router/topic-router.ts:98-239 | Every step keeps the router invariant |
| `TopicRouter.StepKeepsSupervisor` | ts/src/features/topic-router/topic-router.ts:150-209 | The router keeps every guarantee of the supervisor that it extends |
| `TopicRouter.RejectFacts` | ts/src/features/topic-router/topic-router.ts:232-239 | Rejecting a topic ends exactly its requests and leaves the others as they are |
| `RouterObjects.Router.constructor` | ts/src/features/topic-router/topic-router.ts:85-88 | A new router has no requests and counts from zero |
| `RouterObjects.Router.RejectPending` | ts/src/features/topic-router/topic-router.ts:232-239 | The loop rejects exactly the topic's requests, each once, in the order in which they were registered |
| `RouterObjects.Router.TerminateWorker` | ts/src/features/topic-router/topic-router.ts:198-209 | Termination detaches the worker and rejects its topic's requests; without a worker nothing happens |
| `RouterObjects.Router.BeginDispatch` | ts/src/features/topic-router/topic-router.ts:98-111 | The first half of a dispatch spawns, restarts or leaves the actor; it fails exactly for a terminal actor without retries left, and otherwise the actor is there and not terminal |
| `RouterObjects.Router.PostRequest` | ts/src/features/topic-router/topic-router.ts:115-130 | The second half registers the request under a fresh id, posts it, and takes the registration back when posting throws |
| `RouterObjects.Router.OnOnline` | ts/src/features/topic-router/topic-router.ts:156-159 | The online listener is its step |
| `RouterObjects.Router.OnMessage` | ts/src/features/topic-router/topic-router.ts:164-171 | The message listener settles exactly a pending id, with the reply's outcome, and otherwise changes nothing |
| `RouterObjects.Router.OnError` | ts/src/features/topic-router/topic-router.ts:176-180 | The error listener is its step |
| `RouterObjects.Router.OnExit` | ts/src/features/topic-router/topic-router.ts:182-193 | The exit listener is its step |
| `RouterObjects.Router.ReapTopic` | ts/src/features/supervision/base-supervisor.ts:137-154 | Reaping a topic is its step: worker detached, requests rejected, record dropped |
| `WorkerPool.EveryInterleaving` | ts/patches/worker-pool.js:139-247 | Over every interleaving of submit, reply, watchdog, failed post and death: the rotation holds exactly the target number of live slots, activeCount is the number of busy slots, submitted is completed plus failed plus active, and each task on a slot is active or settled exactly once |
| `WorkerPoolAccounts.OutcomesAreReported` | ts/patches/worker-pool.js:139-247 | Over every interleaving each pooled task's promise is settled as its event says; successful replies and inline calls count as completed; failed ones, watchdogs, failed posts and deaths of busy slots count as failed; calls and first deaths are counted |
| `WorkerPool.LateReplyIsIgnored` | ts/patches/worker-pool.js:189-204 | A reply to a task that is no longer the slot's own changes nothing, so it never settles a later task on the same slot |
| `WorkerPool.WatchdogHitsOwnTask` | ts/patches/worker-pool.js:210-214 | A watchdog that fires finds its own task still on the slot |
| `WorkerPool.StepInv` | ts/patches/worker-pool.js:139-247 | Every event keeps the pool invariant |
| `WorkerPool.DieInv` | ts/patches/worker-pool.js:143-165 | A worker's death rejects its task, retires its slot and restores the rotation |
| `WorkerPool.FinishInv` | ts/patches/worker-pool.js:189-198 | The settle path keeps the invariant |
| `WorkerPoolObject.WorkerSlot.constructor` | ts/patches/worker-pool.js:139-141 | A new slot is idle |
| `WorkerPoolObject.ThreadPool.constructor` | ts/patches/worker-pool.js:126-172 | A new pool has the target number of idle slots |
| `WorkerPoolObject.ThreadPool.FinishTask` | ts/patches/worker-pool.js:189-198 | The method is the settle step: a success counts as completed, a failure as failed, and the settlement has that outcome; on a dead slot it does nothing |
| `WorkerPoolObject.ThreadPool.ExecuteTask` | ts/patches/worker-pool.js:176-236 | The method is the submit step: the first free slot, or the inline fallback |
| `WorkerPoolObject.ThreadPool.OnMessage` | ts/patches/worker-pool.js:200-204 | The message listener is its event |
| `WorkerPoolObject.ThreadPool.OnWatchdog` | ts/patches/worker-pool.js:211-214 | The watchdog is its event |
| `WorkerPoolObject.ThreadPool.OnDeath` | ts/patches/worker-pool.js:143-168 | The error and exit listeners are the death event; a second one does nothing |
| `Sanitizer.SanitizeTranscriptLines` | ts/src/plugins/oc-compaction-helper/src/transcript-sanitizer-logic.ts:43-208 | The output is the first entry of every run of polls or equal errors, cleaned; original entries are kept plus suppressed polls plus deduplicated errors, and each counter counts what it says |
| `Sanitizer.SanitizeEntries` | ts/src/plugins/oc-compaction-helper/src/transcript-sanitizer-logic.ts:68-185 | The scan with its two memories computes the same as comparing each entry with the one before it |
| `Sanitizer.ScanEntry` | ts/src/plugins/oc-compaction-helper/src/transcript-sanitizer-logic.ts:72-184 | One iteration: what the scan remembers is determined by the last entry, and the entry is kept, suppressed or dropped accordingly |
| `Sanitizer.CollectText` | ts/src/plugins/oc-compaction-helper/src/transcript-sanitizer-logic.ts:89-98 | The text of a message is its string content, or its text items with a line break after each |
| `Sanitizer.Truncate` | ts/src/plugins/oc-compaction-helper/src/transcript-sanitizer-logic.ts:143-167 | Every long text item is cut, the others stay, and the flag says whether there was one |
| `Sanitizer.ConversationSurvives` | ts/src/plugins/oc-compaction-helper/src/transcript-sanitizer-logic.ts:181-184 | Every entry that is no tool result survives unchanged and in order |
| `Sanitizer.SanitizeTwice` | ts/src/plugins/oc-compaction-helper/src/transcript-sanitizer-logic.ts:43-208 | A second pass changes nothing if and only if the input settles: no two kept neighbours read as the same error once cut or compacted, and every poll marker stays |
| `Sanitizer.UnchangedIff` | ts/src/plugins/oc-compaction-helper/src/transcript-sanitizer-logic.ts:72-184 | A transcript is a fixed point exactly when no entry repeats the one before and every entry is already clean |
| `Sanitizer.ClashHasACause` | ts/src/plugins/oc-compaction-helper/src/transcript-sanitizer-logic.ts:131-179 | Neighbours clash only because one of them was cut or became a poll marker |
| `Sanitizer.KeptPollsApart` | ts/src/plugins/oc-compaction-helper/src/transcript-sanitizer-logic.ts:101-127 | No two kept neighbours are polls |
| `Sanitizer.KeptErrorsApart` | ts/src/plugins/oc-compaction-helper/src/transcript-sanitizer-logic.ts:131-141 | No two kept neighbours are the same error |
| `Sanitizer.NormTwice` | ts/src/plugins/oc-compaction-helper/src/transcript-sanitizer-logic.ts:108-179 | An entry is cleaned once and for all unless it is a poll frame whose marker does not stay |
| `Sanitizer.NormChangesOnlyContent` | ts/src/plugins/oc-compaction-helper/src/transcript-sanitizer-logic.ts:101-179 | Cleaning changes the content of a tool result and nothing else: a poll becomes its marker in the same form, and of any other result only the long texts are cut |
| `Sanitizer.CutIffChanged` | ts/src/plugins/oc-compaction-helper/src/transcript-sanitizer-logic.ts:143-179 | A tool result that is no poll counts as truncated exactly when cleaning changes it |
| `Sanitizer.EntriesOfParts` | ts/src/plugins/oc-compaction-helper/src/transcript-sanitizer-logic.ts:57-66 | Reading drops blank lines and nothing else |
| `PollHygiene.SecondPassIff` | ts/src/plugins/oc-compaction-helper/src/transcript-sanitizer-logic.ts:43-208 | The fixed-point condition for the texts, patterns and truncation of the source, with no further assumption |
| `PollHygiene.QuietInputSettles` | ts/src/plugins/oc-compaction-helper/src/transcript-sanitizer-logic.ts:43-208 | A second pass changes nothing when every tool result of the input is short, or is a poll frame that is not flagged as an error and whose marker is short and shows no session id that reads as a poll or an error |
| `PollHygiene.MarkerStaysIff` | ts/src/plugins/oc-compaction-helper/src/transcript-sanitizer-logic.ts:101-127 | A marker stays if and only if it is not cut, or, when its session id reads as a poll, another reading finds no process id and the same session id |
| `PollHygiene.ConfiguredIsLawful` | ts/src/plugins/oc-compaction-helper/src/transcript-sanitizer-logic.ts:16-21 | Truncation is final and turns no message into a poll |
| `PollHygiene.CutMakesNoPoll` | ts/src/plugins/oc-session-guard/src/poll-hygiene-logic.ts:14-32 | A pattern found in a truncated text was in the text before |
| `PollHygiene.PollPhrases` | ts/src/plugins/oc-session-guard/src/poll-hygiene-logic.ts:14-32 | The four phrases that mean no news are recognised in any case and anywhere in a text |
| `PollHygiene.BlocksPoll` | ts/src/plugins/oc-session-guard/src/poll-hygiene-logic.ts:101-112 | A message with several texts is a poll exactly when one of its texts is |
| `PollHygiene.MarkerFacts` | ts/src/plugins/oc-session-guard/src/poll-hygiene-logic.ts:40-81 | A marker reads as a poll, or as an error, exactly when it shows a session id that does |
| `PollHygiene.MarkerPrefers` | ts/src/plugins/oc-session-guard/src/poll-hygiene-logic.ts:37-81 | The message's own ids count before those in its text unless missing, zero or empty, and a process id before a session id |
| `PollHygiene.PidMarkersDiffer` | ts/src/plugins/oc-session-guard/src/poll-hygiene-logic.ts:73-75 | Markers of different processes differ |
| `PollHygiene.PidMarkerIsNoPoll` | ts/src/plugins/oc-session-guard/src/poll-hygiene-logic.ts:73-81 | A marker that names a process, or nothing, is neither a poll text nor an error |
| `PollHygiene.CutErrorsCollide` | ts/src/plugins/oc-compaction-helper/src/transcript-sanitizer-logic.ts:131-172 | Two errors that trimming tells apart can be cut to the same text, and then a second pass drops one of them |
| `PollHygiene.TrimTellsApart` | ts/src/plugins/oc-compaction-helper/src/transcript-sanitizer-logic.ts:131-141 | Trimming white space tells these two errors apart and leaves their common cut text non-empty |
| `PollHygiene.FlaggedPollCollides` | ts/src/plugins/oc-compaction-helper/src/transcript-sanitizer-logic.ts:101-141 | A poll frame flagged as an error, followed by an error with the text of its marker: a second pass drops the error |
| `PollHygiene.CompactZeroDeltaPollMessage` | ts/src/plugins/oc-session-guard/src/poll-hygiene-logic.ts:86-130 | A message of a targeted tool is compacted exactly when its text is a poll, and nothing but its content changes |
| `PollHygiene.EvaluateMessageWriteSuppression` | ts/src/plugins/oc-session-guard/src/poll-hygiene-logic.ts:152-190 | For a message of any role: a poll of a targeted tool after another one is blocked and counted, the first is compacted, anything else resets the state |
| `PollHygiene.GuardLeavesNoRepeatedPolls` | ts/src/plugins/oc-session-guard/src/index.ts:195-222 | For every sequence of messages and tools the hook blocks exactly the polls of targeted tools that directly follow another one and counts those of the current series, and the written transcript holds none |
| `PollHygiene.GuardAgreesWithSanitizer` | ts/src/plugins/oc-session-guard/src/index.ts:195-222 | With targeted tools only, the hook blocks as many frames as the sanitizer would have suppressed, and leaves it none |
| `ToolResultHygiene.TruncateHeadTail` | ts/src/plugins/oc-session-guard/src/tool-result-hygiene-logic.ts:149-180 | The text is unchanged, or keeps its head and its tail around a notice of how many characters are missing; it changes exactly when it is over the threshold and over head plus tail and holds no notice, and truncating the result again changes nothing |
| `ToolResultHygiene.CutIsFinal` | ts/src/plugins/oc-session-guard/src/tool-result-hygiene-logic.ts:159-161 | A truncated text is not truncated again and differs from the original |
| `ToolResultHygiene.CutKeepsEnds` | ts/src/plugins/oc-session-guard/src/tool-result-hygiene-logic.ts:164-175 | With a tail, truncation keeps head and tail verbatim and reports the length of what lies between |
| `ToolResultHygiene.CutShortensIff` | ts/src/plugins/oc-session-guard/src/tool-result-hygiene-logic.ts:164-175 | The result is shorter exactly when a tail is kept and the notice is shorter than what it replaces |
| `ToolResultHygiene.NoTailKeepsEverything` | ts/src/plugins/oc-session-guard/src/tool-result-hygiene-logic.ts:166-176 | With a tail of zero the whole text follows the notice |
| `ToolResultHygiene.NoticeTellsCount` | ts/src/plugins/oc-session-guard/src/tool-result-hygiene-logic.ts:174-179 | The notice determines the number of characters that are missing |
| `StreamingCompaction.SegmentMessages` | ts/src/plugins/oc-compaction-helper/src/streaming-compaction-logic.ts:89-109 | The loop computes the greedy split |
| `StreamingCompaction.SegmentsAreSplit` | ts/src/plugins/oc-compaction-helper/src/streaming-compaction-logic.ts:89-109 | Segments are not empty, concatenate to the input, and each is within budget or a single message |
| `StreamingCompaction.FewestSegments` | ts/src/plugins/oc-compaction-helper/src/streaming-compaction-logic.ts:89-109 | No order-preserving split of that shape has fewer segments |
| `StreamingCompaction.GreedyStaysAhead` | ts/src/plugins/oc-compaction-helper/src/streaming-compaction-logic.ts:97-106 | Against any other split the greedy one never has more segments, and with as many its last one is no longer |
| `RollingSummary.StreamingCompact` | ts/src/plugins/oc-compaction-helper/src/streaming-compaction-logic.ts:143-172 | The merge loop ends within the cap plus its marker and is empty only when there was nothing to summarise |
| `RollingSummary.MergeIsBounded` | ts/src/plugins/oc-compaction-helper/src/streaming-compaction-logic.ts:115-129 | A merged summary is within the cap, or over it by no more than the marker it carries |
| `RollingSummary.ElidesIff` | ts/src/plugins/oc-compaction-helper/src/streaming-compaction-logic.ts:120-121 | Some merge elides exactly when the sections joined do not fit the cap |
| `RollingSummary.MergeIsJoin` | ts/src/plugins/oc-compaction-helper/src/streaming-compaction-logic.ts:120-121 | As long as everything fits, merging only joins |
| `RollingSummary.NewestEndSurvives` | ts/src/plugins/oc-compaction-helper/src/streaming-compaction-logic.ts:123-128 | After an elision the summary still ends with the end of the newest section |
| `RollingSummary.ElisionAccountsForAll` | ts/src/plugins/oc-compaction-helper/src/streaming-compaction-logic.ts:115-129 | After an elision the summary is the trimmed head, a marker with the number of characters missing between, and the trimmed tail, which together are the whole text |
| `RollingSummary.OldestStartSurvives` | ts/src/plugins/oc-compaction-helper/src/streaming-compaction-logic.ts:122-128 | The beginning of the old summary survives an elision |
| `RollingSummary.JoinedKeepsAll` | ts/src/plugins/oc-compaction-helper/src/streaming-compaction-logic.ts:115-121 | Joining keeps every section whole behind a blank line |
| `RollingSummary.SharesOfCap` | ts/src/plugins/oc-compaction-helper/src/streaming-compaction-logic.ts:122-124 | Head and tail are six tenths and thirty-five hundredths of the cap, rounded down, and fit it together |
| `RollingSummary.StartIsTrimmed` | ts/src/plugins/oc-compaction-helper/src/streaming-compaction-logic.ts:143-150 | The stream starts from the previous summary without surrounding white space |
| `Rollup.SegmentTransientBursts` | ts/src/plugins/oc-session-guard/src/rollup-logic.ts:145-169 | The bursts are exactly the maximal runs of transient tool results, with size and qualification |
| `Rollup.RollupTransientSteps` | ts/src/plugins/oc-session-guard/src/rollup-logic.ts:214-256 | Qualifying bursts are replaced by one summary each, everything else stays in order; the report lists those summaries in order, and the output is shorter by entriesRemoved |
| `Rollup.RolledAt` | ts/src/plugins/oc-session-guard/src/rollup-logic.ts:227-241 | Up to the next burst entries stay, and the burst becomes its summary or stays |
| `Rollup.IdempotentIff` | ts/src/plugins/oc-session-guard/src/rollup-logic.ts:214-256 | Rolling up twice equals rolling up once for every transcript if and only if the minimum burst is at least two or the summary tool is not transient |
| `Rollup.RolledIsStable` | ts/src/plugins/oc-session-guard/src/rollup-logic.ts:214-256 | Rolling up its own output leaves it as it is when a lone summary is no burst to squash |
| `Rollup.SummaryOfSummaryDiffers` | ts/src/plugins/oc-session-guard/src/rollup-logic.ts:193-206 | Otherwise the summary of an empty result and the summary of that summary differ |
| `Rollup.OnlineIsBatchIff` | ts/src/plugins/oc-session-guard/src/rollup-logic.ts:289-351 | Recording results one by one and finalizing reports the same bursts as segmenting the whole sequence, for every sequence, if and only if the minimum burst is at least one |
| `Rollup.TrackerForetells` | ts/src/plugins/oc-session-guard/src/rollup-logic.ts:289-351 | At every point the tracker and the entries still to come give the final report |
| `Rollup.CountsAreNumbers` | ts/src/plugins/oc-session-guard/src/rollup-logic.ts:174-182 | The counts in a summary are the numbers of results of each tool |
| `Rollup.FlatteningKeepsInk` | ts/src/plugins/oc-session-guard/src/rollup-logic.ts:184-187 | Flattening keeps every character that is no white space, in order, and single blanks between them |
| `Rollup.TailIsEnd` | ts/src/plugins/oc-session-guard/src/rollup-logic.ts:198-200 | The quoted tail is the text when it is short, and otherwise a mark and its last characters, or all of it when none are asked for |
| `Rollup.SummaryExample` | ts/src/plugins/oc-session-guard/src/rollup-logic.ts:193-206 | A summary in full |
| `Materializer.DetectUnrotatedCompaction` | ts/src/plugins/oc-compaction-helper/src/transcript-materializer-logic.ts:55-132 | The detection finds the last compaction and the first line with the id it keeps, or none exists; it fires exactly when that line is at or past the threshold |
| `Materializer.BuildSuccessorLines` | ts/src/plugins/oc-compaction-helper/src/transcript-materializer-logic.ts:150-204 | The successor is the renewed header, the compaction if it would be lost, and the kept lines; it refuses without both indices |
| `Materializer.RotationKeepsReference` | ts/src/plugins/oc-compaction-helper/src/transcript-materializer-logic.ts:150-204 | The kept lines follow verbatim, the compaction is still the last one, and its first kept line is right after the preamble |
| `Materializer.HeaderIsRenewed` | ts/src/plugins/oc-compaction-helper/src/transcript-materializer-logic.ts:150-204 | The successor begins with the old header under its new id and time when there was one, and is as long as what it keeps |
| `Materializer.RotationIsFinal` | ts/src/plugins/oc-compaction-helper/src/transcript-materializer-logic.ts:55-204 | In the rotated transcript the same compaction is found with its first kept line at most two lines in |
| `Materializer.RotateOnce` | ts/src/plugins/oc-compaction-helper/src/transcript-materializer-logic.ts:55-204 | Detecting, rotating and detecting again: for any threshold above two the second detection does not fire and names the same compaction |
| `DriftAlerts.AlertIffUnseen` | src/phosphene/drift_checker.py:303-334 | Where signatures determine the plugin, over any history of ticks a drift raises a new alert exactly when its signature was not seen since its plugin's last match (or since the state file was lost) |
| `DriftAlerts.PromiseIffDetermined` | src/phosphene/drift_checker.py:299-358 | For any set of drifts: alerts are raised so over every history if and only if drifts in the set with the same signature are drifts of the same plugin |
| `DriftAlerts.ActiveIffSeen` | src/phosphene/drift_checker.py:299-355 | The active signatures are exactly those seen since their plugin's last match |
| `DriftAlerts.ResolvesExactlyTheClean` | src/phosphene/drift_checker.py:336-355 | A tick resolves exactly the active signatures of the plugins that it reports as matching |
| `DriftAlerts.EveryDriftReportedOnce` | src/phosphene/drift_checker.py:309-334 | New alerts and suppressed alerts together are the drifts of the tick, each once |
| `DriftAlerts.UniqueIdsShowOnce` | src/phosphene/drift_checker.py:305-334 | With unique plugin ids no drift is suppressed by an earlier one of the same tick |
| `DriftAlerts.NotedTimes` | src/phosphene/drift_checker.py:316-333 | A record keeps the time of its alert, and its last sighting is the last tick that showed the drift |
| `DriftAlerts.RecordsAreTrue` | src/phosphene/drift_checker.py:316-333 | Over any history every record in the state file names plugin, short checksums and status of a drift with its signature, the tick that raised the alert and the last tick that showed it |
| `DriftAlerts.TagsAreRemembered` | src/phosphene/drift_checker.py:279-298 | The state file remembers the last release tag and etag that were given, unless it was lost since |
| `DriftAlerts.OneNoticeEach` | src/phosphene/drift_checker.py:336-355 | One notice for every resolved signature, in order, for its plugin |
| `DriftAlerts.NoticeIsOfFirstReport` | src/phosphene/drift_checker.py:341-354 | A notice carries the checksum of the plugin's first report, the installed before the expected one |
| `DriftAlerts.SignatureIsUnambiguous` | src/phosphene/drift_checker.py:306-311 | Without colons in the short checksums a signature determines plugin, both short checksums and status |
| `DriftAlerts.PlainIsDetermined` | src/phosphene/drift_checker.py:306-311 | Drifts without colons in their short checksums are such a set |
| `DriftAlerts.ManageAlertState` | src/phosphene/drift_checker.py:266-366 | The function over the stored state: delta, active signatures, tag and etag |
| `DriftAlerts.NoteResults` | src/phosphene/drift_checker.py:303-334 | The first loop: active signatures, drifting plugins, new and suppressed alerts |
| `DriftAlerts.Resolve` | src/phosphene/drift_checker.py:336-358 | The second loop and the removal: one notice for each signature of a clean plugin |
| `DriftAlerts.EmptyIdNeverResolves` | src/phosphene/drift_checker.py:336-358 | When a plugin with an active drift matches, the drift is resolved and dropped if and only if the plugin's id is not empty |
| `DriftAlerts.ColonsHideADrift` | src/phosphene/drift_checker.py:306-311 | A colon in the manifest's checksum lets two plugins share a signature, and no set with both drifts keeps the promise |
| `EventPush.PushIffNotRecent` | ts/src/plugins/oc-memory-recall/src/event-push-logic.ts:229-265 | With one time to live for evaluations, cleaning that drops no record earlier, and a clock that never runs backwards, a matching hold-once note is pushed exactly when the session was not pushed it within the time to live |
| `EventPush.PushesAreSpaced` | ts/src/plugins/oc-memory-recall/src/event-push-logic.ts:240-257 | Two hold-once pushes of one note into one session are at least the time to live apart |
| `EventPush.InvisibleIffLate` | ts/src/plugins/oc-memory-recall/src/event-push-logic.ts:212-310 | In every orderly run the decisions are those without cleaning, if and only if cleaning heeds a time to live at least as long as the evaluations do or theirs is not positive |
| `EventPush.CleaningChangesNoDecision` | ts/src/plugins/oc-memory-recall/src/event-push-logic.ts:212-310 | Two runs with the same evaluations make the same decisions, wherever and with whatever such time to live either of them cleans |
| `EventPush.ShorterCleaningForgets` | ts/src/plugins/oc-memory-recall/src/event-push-logic.ts:285-310 | For any shorter time to live of the cleaning there is a run in which a note is let through early |
| `EventPush.EvaluateEventPush` | ts/src/plugins/oc-memory-recall/src/event-push-logic.ts:212-280 | Pushed and suppressed notes in registry order, the new holds of the session and no other, and shouldPush exactly when something is pushed |
| `EventPush.MatchesAreDecided` | ts/src/plugins/oc-memory-recall/src/event-push-logic.ts:225-265 | Every matching note is either pushed, with its policy, or reported as suppressed, and no other note is |
| `EventPush.PolicyIs` | ts/src/plugins/oc-memory-recall/src/event-push-logic.ts:230-234 | A note's own valid policy counts, anything else leaves the choice to the default |
| `EventPush.LetRunIsAlwaysPushed` | ts/src/plugins/oc-memory-recall/src/event-push-logic.ts:236-265 | A note that is let run is pushed whenever it matches |
| `EventPush.RecordsNameTheirNote` | ts/src/plugins/oc-memory-recall/src/event-push-logic.ts:248-254 | Every record that an evaluation writes names its note, its kind and its policy |
| `EventPush.CleanExpiredSessionHolds` | ts/src/plugins/oc-memory-recall/src/event-push-logic.ts:285-310 | Exactly the expired records and the sessions left empty are dropped |
| `EventPush.CleanOneSession` | ts/src/plugins/oc-memory-recall/src/event-push-logic.ts:294-301 | A session keeps exactly its unexpired records, and the flag says whether any was dropped |
| `EventPush.StepEffect` | ts/src/plugins/oc-memory-recall/src/event-push-logic.ts:229-310 | A push renews a note's record, a clean drops it only when expired, and nothing else touches it |
| `MediaBatcher.BatchMediaSends` | ts/src/plugins/shared/media-batcher.ts:185-223 | No send is lost or added, every chat gets its sends in order, groups have two to ten items of one chat with the first item's caption, and apiCallCount is the sum over chats of their sends by ten, rounded up |
| `MediaBatcher.ShouldBatch` | ts/src/plugins/shared/media-batcher.ts:231-237 | True exactly when batching makes fewer calls than there are sends |
| `MediaBatcher.EachChatKeepsItsOrder` | ts/src/plugins/shared/media-batcher.ts:185-203 | The items of a chat's groups followed by its single send are its sends in order |
| `MediaBatcher.NothingLost` | ts/src/plugins/shared/media-batcher.ts:185-203 | The items in groups and the single sends are the sends, as a multiset |
| `MediaBatcher.ChunksCarryTheItems` | ts/src/plugins/shared/media-batcher.ts:132-139 | A chat's chunks carry its items in the fewest calls that ten items a call allow |
| `MediaBatcher.GroupedIsToChat` | ts/src/plugins/shared/media-batcher.ts:113-124 | Grouping has exactly the chats that occur, each with its sends in order |
| `MediaBatcher.GroupByChat` | ts/src/plugins/shared/media-batcher.ts:113-124 | The loop over the sends computes the grouping |
| `MediaBatcher.ChunkGroups` | ts/src/plugins/shared/media-batcher.ts:132-139 | The loop computes the chunks |
| `MediaBatcher.DropCaptions` | ts/src/plugins/shared/media-batcher.ts:148-171 | A group reports exactly the non-empty captions of the items after its first one |
| `MediaBatcher.DroppedAreTheOthers` | ts/src/plugins/shared/media-batcher.ts:148-203 | The captions reported as dropped are exactly the non-empty ones of items other than the first of a group |
| `MediaBatcher.CeilDivValue` | ts/src/plugins/shared/media-batcher.ts:191-203 | The number of calls is the number of items divided by ten, rounded up |

## Left out

- Plan of a batch with repeated ids: longest chains and fewest groups are proved for unique ids only, because a repeated id has no single place in the graph.
- Prompt texts, `validateTaskSpec`'s field checks, `getResultsInOrder` and `computeEffectiveMaxConcurrent`: they would only add easy members.
- Fair pool: the inner pool's `execute` is assumed not to throw synchronously; a task is identified by its place among the accepted ones.
- Lifecycles: listeners that call back into the supervisor, event timestamps, process ids, spawn depth and failure to create a `Worker`.
- RouterObjects.BaseSupervisor.Stop: does not fix the order in which actors are reaped, because actors are a map without order here; only the order of the reap events depends on it.
- RouterObjects.BaseSupervisor.ApplyEvent: actor records are values in a map, so that a handle kept by a caller is not an alias of the record.
- RouterObjects.Router.PostRequest: waiting for an actor to run is a separate poll step, and no worker event falls between the poll that succeeds and the post; the two-second limit is not modelled.
- Worker code, handler registry, worker source generation and real threads: worker events are nondeterministic steps.
- Sanitizer: parsing and printing JSON, byte counts and percentages; the regular expressions for process and session ids and `trim` are parameters of the model, on which nothing is assumed unless a lemma says so.
- ToolResultHygiene.TruncateHeadTail: does not model negative or fractional option values, because lengths are natural numbers here.
- The per-turn poll budget, structured JSON elision and the tool-call circuit breaker: one-branch decisions.
- RollingSummary.StreamingCompact: does not model rounding errors of floating-point multiplication; head and tail are exactly six tenths and thirty-five hundredths rounded down. The texts of the sections, refined or not, are inputs.
- Rollup: white space is limited to four characters; the report's summaries are entries rather than texts.
- Materializer: token estimates and the file operations around the rotation.
- DriftAlerts.ManageAlertState: does not model the file itself or the format of its JSON; a missing or unreadable file is an input, and a state file that another program changed is not considered.
- EventPush.EvaluateEventPush: does not model how a note matches an event, cue texts or idempotency keys; which notes match is an input. Ids that are names of built-in object properties are not considered.
- MediaBatcher.BatchMediaSends: does not model the percentage of calls saved.
- `topicStats`, crash containment reports, admission guards, send policies, topic isolation and the task plane: outside the core.
