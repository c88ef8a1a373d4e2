# OpenMate: lease pool, scheduler, chat broadcast and payload assembly

A Dafny model of four stateful parts of OpenMate, with proofs about whole runs of them.

- **The lease pool** (`internal/poolgateway/store.go`, `gateway.go`, `retry.go`). Gateways reserve
  one of several APIs, call a provider, complete or retry. `PoolModel` has the tables and each
  transaction as a function; `PoolSystem` lets any number of Invoke processes and config syncs
  interleave, one transaction at a time, with any provider outcome and any transaction failing to
  commit. `PoolStore` and `PoolGateway` are the store's updates in place and the retry loop, proved
  to perform those transactions and steps. The main results are in `PoolTheorems`, `PoolLimits` and
  `PoolTermination`; `PoolAnswers` says what an Invoke ends with and which errors are retried,
  `PoolReservations` what a reserve, a completion and the capacity report come to.
- **The scheduler** (`internal/schedule/`, `openmate_agent/worker.py`). A multi-level feedback queue
  of topics, and inside a topic a planner over priority layers with a priority node that re-ranks
  the others. `ScheduleModel` has Enqueue and Tick as steps; `ScheduleStore`, `ScheduleEngine`,
  `SchedulePlanner` and `ScheduleTypes` are the loops of the source proved equal to it. Rows are read
  in an arbitrary order and `ScheduleOrder` shows that it does not matter. Results: `ScheduleTheorems`,
  `ScheduleGate`, `SchedulePriority`, `SchedulePlanTheorems`, `ScheduleFairness`; `SchedulePlanOrder`,
  `ScheduleStatuses`, `ScheduleWrites` and `ScheduleSwitches` say outright what is planned and stored; `ScheduleRows` ties
  snapshots to rows and `ScheduleExamples` has two concrete runs.
- **The chat broadcaster** (`chatRun` in `internal/vos/httpapi/chat.go`). `ChatBroadcast` is the state
  machine with the closing of a channel a step of its own after the lock is released; `ChatTheorems`
  the results; `ChatRun.dfy` the methods on channel objects.
- **Stream assembly and payload merging** (`internal/poolgateway/providers.go`,
  `openai_responses.go`). `ToolStream` and `ToolStreamTheorems` for tool calls put together from
  deltas, `ToolStreamItems` for the items that come out; `PayloadModel` and `PayloadMerge` for the deep merge in place on a memory of maps.

`Prelude` and `Sorting` are shared.

Conditions and departures that the proofs brought out:

- Streamed and unstreamed completions agree exactly for clean calls
  (`ToolStreamTheorems.StreamedEqualsUnstreamed`). A call without an id becomes `call-k` in one form
  and `chat_tool_call_k` in the other; surrounding space in names and ids is trimmed, and blank
  arguments replaced, in one form only.
- Enqueue insists on rank 1 with the label "interactive", and a rank may have one label per topic;
  the worker's plan gives rank 1 the label "now". So after a priority pass only the node that was
  ranked first can be enqueued again, unless rank 1 is free (`SchedulePriority.EnqueueAfterPass`,
  with a run in `ScheduleExamples.EnqueueRefusedAfterPass`).
- For the same reason a successful pass can leave a topic that no longer validates: a finished
  business node keeps its label at a rank that the plan gives another one. It happens exactly when
  `SchedulePriority.LabelsFit` fails before the pass (`SchedulePriority.PassValidExactly`). Ticks then
  select the topic and serve nothing, until another enqueue changes its rows
  (`ScheduleExamples.PassCanBreakTopic`, `StuckStays`).
- A pass that the worker answers with a failure clears the dirty mark without ranking anything, so
  business nodes may be dispatched on their old ranks (`ScheduleGate.RerankGate`).
- The switch count of a topic stays zero in every run: a node becomes the current one when it is marked
  running, before finishing it compares the two (`ScheduleSwitches.NoRunCountsSwitches`).
- The failure count of an API can pass its offline threshold, by at most the attempts already under
  way (`PoolLimits.FailureOvershootBound`; attained in `PoolExamples.OvershootIsReached`).

## Model

Module and class qualify each member.

| member | source | states |
|---|---|---|
| `PoolTheorems.LeaseConservation` | internal/poolgateway/store.go:579-765 | in every state of every interleaving of Invoke runs and syncs, an API's lease count is the number of its running attempts, an invocation has at most one running attempt, and that attempt is on the invocation's API |
| `PoolTheorems.CompletionsNeverFail` | internal/poolgateway/store.go:737-765 | a process that holds a reservation can complete it either way: the underflow and not-found branches are unreachable |
| `PoolTheorems.StatusAlwaysResolved` | internal/poolgateway/store.go:1098-1109 | the stored status is what resolveAPIStatus gives for the stored row and threshold, in every reachable state |
| `PoolTermination.RetryTerminationAndRelease` | internal/poolgateway/gateway.go:106-202 | in every interleaving with other Invokes and syncs, an Invoke that got its reservation takes at most 2 * MaxAttempts further steps; it has ended exactly when it has no step left to take; if its completing transactions commit it ends returned, with no running attempt and a final invocation status; all along it has 1 to MaxAttempts attempts (1 when streaming) and slept at most BaseBackoff * n(n-1)/2 |
| `PoolTermination.RunProgresses` | internal/poolgateway/gateway.go:117-201 | every own step of a process brings it nearer to its end, steps of others leave it alone, and it is abandoned only by a completion of its own that did not commit |
| `PoolTheorems.AttemptsAndSleepBounded` | internal/poolgateway/retry.go:20-41 | the bounds on attempts and sleep in every reachable state |
| `PoolExamples.OvershootIsReached` | internal/poolgateway/store.go:184-240 | a run with threshold 1 and two slots ends with two failures, which attains the bound |
| `PoolTheorems.SkipRefinesFullSync` | internal/poolgateway/store.go:492-577 | in every reachable state, syncing with the hash check gives the same tables as syncing unconditionally |
| `PoolTheorems.CapacityTellsTheTruth` | internal/poolgateway/store.go:985-1037 | after a sync, free slots and no throttling is reported exactly when an unpinned reserve with that configuration succeeds; otherwise the error is the one the report implies; leased slots are the running attempts |
| `PoolTheorems.StepIsLegalTx` | internal/poolgateway/gateway.go:117-201 | every step of the system is one transaction made by someone entitled to it, and no completion takes an error branch |
| `PoolLimits.QuotaSafety` | internal/poolgateway/store.go:586-653 | under one configuration from an empty database: leases <= running invocations <= global limit, and each lease count is within its cap |
| `PoolLimits.FailureOvershootBound` | internal/poolgateway/store.go:184-240 | failures plus leases never pass threshold - 1 + max_concurrent |
| `PoolLimits.OfflineForGood` | internal/poolgateway/store.go:640-653 | an API that is offline with nothing running stays so for the rest of the run and gets no further attempt |
| `PoolLimits.ReserveKeepsQuota` | internal/poolgateway/store.go:586-613 | a retry does not count its own invocation, and the total still stays within the limit |
| `PoolSystem.StepKeepsOk` | internal/poolgateway/gateway.go:106-202 | every step of every process, committed or not, keeps the system invariant |
| `PoolSystem.EveryStateOk` | internal/poolgateway/gateway.go:54-96 | the system invariant holds in every state of every run |
| `PoolInvariants.SyncKeepsCoherent` | internal/poolgateway/store.go:492-577 | sync keeps coherence and touches no invocation or attempt |
| `PoolInvariants.UpsertAllRows` | internal/poolgateway/store.go:512-559 | the upserts keep every counter and last error, set the resolved status, and leave other rows alone |
| `PoolInvariants.ReserveKeepsCoherent` | internal/poolgateway/store.go:579-735 | a reserve keeps coherence, its holder sees its own running attempt, one attempt is added, other invocations are untouched |
| `PoolInvariants.ReserveOnStatuses` | internal/poolgateway/store.go:640-653 | the status shortcut of reserve agrees with the resolver on every eligible row |
| `PoolInvariants.HolderFindsItsLease` | internal/poolgateway/store.go:737-765 | the row read through invocations.api_id is the row written through the reservation, with a positive lease count |
| `PoolInvariants.SuccessKeepsCoherent` | internal/poolgateway/store.go:105-182 | a success commits, ends the only running attempt of its invocation, and keeps coherence |
| `PoolInvariants.AttemptFailureKeepsCoherent` | internal/poolgateway/store.go:184-240 | a recorded attempt failure commits, ends the attempt, leaves all invocations as they were, and keeps coherence |
| `PoolInvariants.InvocationFailureKeepsCoherent` | internal/poolgateway/store.go:242-276 | closing an invocation with nothing running keeps coherence and all attempts |
| `PoolConfig.ReorderKeepsDigest` | internal/poolgateway/store.go:1240-1287 | reordering the API list does not change the hashed normal form |
| `PoolConfig.SkipIsFullSync` | internal/poolgateway/store.go:492-503 | when the stored hash matches, a full sync would change no row and no meta value |
| `PoolCapacity.LeasedSlotsAreRunningAttempts` | internal/poolgateway/store.go:985-1037 | the reported leased slots are the number of running attempts |
| `PoolCapacity.ReportMatchesReserve` | internal/poolgateway/store.go:985-1037 | the report predicts the outcome of a reserve, and the config-not-found branch is not taken |
| `PoolRetry.Normalized` | internal/poolgateway/retry.go:20-28 | the result is a usable policy and a usable policy is unchanged; fewer than one attempt becomes 3 and a negative backoff 0, the other setting kept |
| `PoolRetry.SleptBeforeIsTriangular` | internal/poolgateway/retry.go:35-41 | the backoffs before attempt k add up to BaseBackoff * k(k-1)/2 |
| `PoolRetry.SleepCap` | internal/poolgateway/retry.go:35-41 | no more than BaseBackoff * n(n-1)/2 is slept over n attempts |
| `PoolGateway.Gateway.PolicyFor` | internal/poolgateway/gateway.go:204-209 | always a usable policy, and the gateway's own where that is usable |
| `PoolStore.ApiById` | internal/poolgateway/config.go:90-97 | finds the first entry with the id, exactly when there is one |
| `PoolStore.Store.SyncFromModelConfig` | internal/poolgateway/store.go:492-577 | the loop over the configuration does the sync of the model |
| `PoolStore.Store.PickRow` | internal/poolgateway/store.go:615-638 | finds the preferred eligible API, exactly when one is eligible |
| `PoolStore.Store.ReserveAttemptTx` | internal/poolgateway/store.go:579-735 | does the reserve of the model, and leaves the tables alone on every error |
| `PoolStore.Store.Reserve` | internal/poolgateway/store.go:64-103 | sync and reserve together, rolled back together |
| `PoolStore.Store.Report` | internal/poolgateway/store.go:985-1037 | the loop over the APIs adds up to the capacity of the model |
| `PoolGateway.Gateway.FinishInvocationFailure` | internal/poolgateway/gateway.go:275-286 | follows the closing step of the process; fails exactly when the transaction does not commit |
| `PoolGateway.Gateway.FinishInternalFailure` | internal/poolgateway/gateway.go:261-273 | records the attempt, then closes the invocation |
| `PoolGateway.Gateway.FinishSuccess` | internal/poolgateway/gateway.go:186-200 | follows the success step and returns the stored invocation, with the output of this answer, no error and its time; fails exactly when the transaction does not commit |
| `PoolGateway.Gateway.ReserveNext` | internal/poolgateway/gateway.go:170-178 | reserves the next attempt; no capacity and quota keep the provider's error, other errors replace it |
| `PoolGateway.Gateway.HandleProviderError` | internal/poolgateway/gateway.go:139-184 | records the error; goes on to the next attempt exactly when it is not streaming, attempts are left, the error is retryable, the backoff is not interrupted and the reservation succeeds, after the backoff of this attempt; otherwise closes with the error that says why |
| `PoolGateway.Gateway.RetryLoop` | internal/poolgateway/gateway.go:117-201 | terminates within MaxAttempts attempts, following the process steps; the answer is that of the last attempt: its output on success, on failure its error or the internal one that replaced it; if the completing transactions commit, so does the run |
| `PoolGateway.Gateway.InvokeReserved` | internal/poolgateway/gateway.go:106-202 | attempts and sleep bounded, lease released when the completions commit |
| `PoolGateway.Gateway.Invoke` | internal/poolgateway/gateway.go:54-96 | an error before the reservation changes nothing; otherwise the run ends in the way the response says, with nothing running, and the returned row carries the last attempt's output or error |
| `PoolAnswers.SuccessIsAnswered` | internal/poolgateway/store.go:105-182 | after a committed success the invocation row has status succeeded, the provider's output, no error and the time of that step, with request and node as before, in every later state of every interleaving |
| `PoolAnswers.FailureIsAnswered` | internal/poolgateway/store.go:242-276 | after a committed close the row has status failed, no output, the error the process ended on and that time, in every later state |
| `PoolAnswers.AttemptErrorIsRecorded` | internal/poolgateway/store.go:184-240 | a committed provider failure stays on its attempt row, error and time included, in every later state |
| `PoolAnswers.EndedForGood` | internal/poolgateway/gateway.go:54-96 | once an Invoke has ended no step of anyone touches its invocation or attempts |
| `PoolAnswers.RunKeepsAttempts` | internal/poolgateway/store.go:655-735 | no attempt is ever lost and a finished one never changes |
| `PoolAnswers.ProviderFailureLeads` | internal/poolgateway/retry.go:30-33 | a committed provider failure leads to waiting if and only if the request does not stream, attempts are left and the error is retryable; otherwise to closing with that error |
| `PoolAnswers.OnlyRetryableIsRetried` | internal/poolgateway/gateway.go:139-184 | in every run an attempt that has a later attempt of the same invocation is stored as failed with a retryable error |
| `PoolAnswers.EveryHistory` | internal/poolgateway/gateway.go:117-184 | in every reachable state all attempts of an invocation under way, but the one held, are retryable failures |
| `PoolAnswers.FailedForAReason` | internal/poolgateway/gateway.go:139-184 | an invocation closed as failed stores the error of an earlier own step: a provider error that was streaming, the last allowed or not retryable; a provider error whose next reservation was refused for capacity or quota; or an internal error that replaced it |
| `PoolReservations.ReserveExactly` | internal/poolgateway/store.go:586-735 | on tables that match the configuration: quota error exactly when the other running invocations reach the limit, else no capacity exactly when no API is usable, else the usable API with the fewest leases and then the first id, with the endpoint, mode and rows written out |
| `PoolReservations.ReserveIsExact` | internal/poolgateway/store.go:64-103 | the same outcome for every reserve in every reachable state, sync included |
| `PoolReservations.FailureCosts` | internal/poolgateway/retry.go:58-67 | a failure gives the lease back and counts towards going offline exactly when the provider was unreachable, timed out, or answered a retryable HTTP error; message and status stored |
| `PoolReservations.SuccessForgives` | internal/poolgateway/store.go:105-182 | a success gives the lease back, sets the failure count to zero and clears the last error |
| `PoolReservations.PolicyFromConfig` | internal/poolgateway/config.go:269-278 | the configured retry settings, with 3 attempts and 200 ms where absent |
| `PoolReservations.OfflineIsCounted` | internal/poolgateway/store.go:985-1037 | the reported APIs and offline APIs are the numbers of such rows |
| `PoolReservations.SlotsAddUp` | internal/poolgateway/store.go:985-1037 | with none offline and none over its cap, total slots are available plus leased slots |
| `PoolReservations.ReserveTakesOneSlot` | internal/poolgateway/store.go:640-653 | a reservation moves exactly one slot from available to leased and leaves the other totals alone |
| `ScheduleFairness.BoundedStarvation` | internal/schedule/engine.go:151-258 | with n fixed topics, an increasing clock and ticks that serve what they select, an aged topic that stays runnable is served within n + 2 ticks |
| `ScheduleFairness.NeverServedIsServed` | internal/schedule/runtime_store.go:755-776 | a never-served topic is at L0 although aging skips it, and is served within n ticks |
| `ScheduleFairness.TickShortensWait` | internal/schedule/engine.go:469-505 | every serving tick that passes over a due topic shortens its wait |
| `ScheduleFairness.EveryStateStamped` | internal/schedule/runtime_store.go:681-692 | every stored service time is that of an earlier tick |
| `ScheduleGate.RerankGate` | internal/schedule/engine.go:189-234 | after an accepted enqueue a business node of the topic is dispatched only after a tick that ran the priority node and cleared the dirty mark; in that tick the worker answered, and either ranked every live business node by its plan or left all ranks as they were and the error recorded |
| `ScheduleGate.ClearingPassDid` | internal/schedule/engine.go:351-376 | a tick that clears the mark had the worker's answer: success means the ranks and labels of the plan, failure means untouched rows and a recorded error |
| `ScheduleGate.NextTickPlansFirst` | internal/schedule/planner.go:22-86 | after a successful pass, whatever happens to other topics, the next tick that selects the topic plans exactly the node ranked first, or nothing when all live business nodes are blocked or the labels do not fit |
| `ScheduleTheorems.DirtyTopicDispatchesPriorityOnly` | internal/schedule/engine.go:189-234 | a tick on a dirty topic dispatches nothing and leaves it dirty, or dispatches exactly the priority node, for any limit |
| `ScheduleTheorems.DirtyUntilCleared` | internal/schedule/runtime_store.go:364-429 | the dirty mark survives everything but a tick that runs the priority node and clears it; attempts that fail without an answer keep it |
| `ScheduleTheorems.RunningNeverPlanned` | internal/schedule/planner.go:62-86 | no tick of any run plans a node whose stored status is running |
| `ScheduleTheorems.EveryStateOk` | internal/schedule/runtime_store.go:778-819 | in every reachable state running nodes are listed in their topic, the priority node is the recorded one, business ranks are >= 1 and never-served topics are at L0 |
| `ScheduleInvariants.TickKeepsOk` | internal/schedule/engine.go:151-258 | a tick keeps those invariants, whatever the workers answer |
| `ScheduleInvariants.EnqueueKeepsOk` | internal/schedule/engine.go:78-149 | an enqueue keeps them and touches only its topic |
| `ScheduleInvariants.AssignAllRows` | internal/schedule/runtime_store.go:379-402 | a plan changes only label, rank and entry time, only of business nodes it names, and only in its topic |
| `SchedulePriority.PriorityPassComposition` | internal/schedule/engine.go:339-376 | after a successful pass on a valid topic: if the labels fit, the planner dispatches exactly the node ranked first and stalls exactly when every live business node is blocked; if not, the topic does not validate and nothing is planned |
| `SchedulePriority.PassValidExactly` | internal/schedule/types.go:215-234 | a valid topic validates after a successful pass if and only if no finished business node holds, under another label, a rank that the plan uses |
| `ScheduleRows.ValidIsRows` | internal/schedule/runtime_store.go:486-526 | a snapshot validates exactly when the rows it shows are complete, consistently labelled and known to each other |
| `ScheduleExamples.EnqueueRefusedAfterPass` | internal/schedule/runtime_store.go:1107-1141 | enqueue a, one successful pass: enqueue b is refused, whatever row the rank query sees |
| `ScheduleExamples.PassCanBreakTopic` | internal/schedule/engine.go:351-376 | a failed pass, a failed node, another enqueue and a successful pass lead from the empty tables to a topic that does not validate |
| `ScheduleExamples.StuckStays` | internal/schedule/engine.go:205-221 | every tick selects such a topic when it is the only one, plans and serves nothing, and leaves it so |
| `SchedulePriority.WorkerPlanRanksLiveNodes` | openmate_agent/worker.py:162-193 | the worker's plan ranks every live business node once, from 1, in its order |
| `SchedulePriority.EnqueueAfterPass` | internal/schedule/runtime_store.go:1107-1141 | after a pass an enqueue is decided by the label of the rank-1 row it sees; where the labels fit it is accepted exactly when it is well-formed and no other node holds rank 1, so every node but the first-ranked one is refused |
| `SchedulePlanTheorems.PlanExact` | internal/schedule/planner.go:10-86 | the dispatch list has no duplicates, only unblocked nodes of the lowest live rank that are not running, and is as long as slots and nodes allow |
| `SchedulePlanTheorems.StalledExactly` | internal/schedule/planner.go:46-60 | a plan stalls exactly when there are live nodes and the whole top layer is blocked |
| `SchedulePlanTheorems.PlanPermutation` | internal/schedule/planner.go:5-131 | on a valid snapshot the plan, label included, does not depend on the order of the nodes |
| `ScheduleOrder.PlanFromAnyListing` | internal/schedule/runtime_store.go:528-553 | the tick plans the same whatever order the store lists nodes and running ids in |
| `ScheduleOrder.SameVerdict` | internal/schedule/types.go:201-248 | validation accepts a snapshot in one order exactly when it does in any other |
| `ScheduleOrder.PriorityPlanFromAnyListing` | internal/schedule/engine.go:435-467 | the worker's plan does not depend on the order of the candidates |
| `ScheduleModel.SelectTopic` | internal/schedule/engine.go:469-505 | the selected topic is runnable and before every other runnable one; None only when nothing is runnable |
| `ScheduleModel.SelectionUnique` | internal/schedule/engine.go:477-496 | the queue order leaves no choice of topic |
| `SchedulePlanOrder.PlanByAge` | internal/schedule/planner.go:37-152 | the candidates are exactly the unblocked nodes of the lowest live rank, by increasing entry time and then id; the current node is the stored one if it is a candidate, else the last worked one if it is, else the oldest; dispatch starts with it unless it is running and goes on in age order, leaving out no startable node while taking a younger one |
| `SchedulePlanOrder.TickTakesOldest` | internal/schedule/planner.go:62-131 | on the rows of a valid topic: every planned node is older than every later or unplanned one that could go, but for the continued node in first place; the stored current node comes first whenever it can go |
| `SchedulePlanOrder.ActiveLabel` | internal/schedule/planner.go:29-35 | the plan names the label of the nodes of the lowest live rank |
| `SchedulePlanOrder.PlanExplains` | internal/schedule/planner.go:88-96 | the reasons of a plan name the label and the rule that gave the current node, kept, reset to the last worked one or oldest, or why there is none |
| `ScheduleStatuses.DispatchStores` | internal/schedule/engine.go:416-433 | after a dispatch the node has the status asked for; else, for a business node, ready on success, retry cooldown on a retryable failure and failed on any other; for the priority node succeeded or failed; failed when the worker call failed and running when no session was made; no other status changes |
| `ScheduleStatuses.DispatchRemembers` | internal/schedule/runtime_store.go:598-642 | a dispatched business node is the current one and, unless no session was made, the last worked one with that time; the running list is exact |
| `ScheduleStatuses.DispatchAllStores` | internal/schedule/engine.go:223-234 | every planned node that is reached gets the status its reply calls for, the others keep theirs, and the dispatch succeeds exactly when every reply was recorded |
| `ScheduleStatuses.TickStores` | internal/schedule/engine.go:205-258 | the same for a whole tick, on the tables it planned on |
| `ScheduleSwitches.FinishCounts` | internal/schedule/runtime_store.go:598-642 | finishing a node adds one to the switch count exactly when another node, or none, was current |
| `ScheduleSwitches.NoRunCountsSwitches` | internal/schedule/runtime_store.go:581-642 | in every reachable state every switch count is zero, because marking a node running has already made it the current one |
| `ScheduleStatuses.PassStamps` | internal/schedule/runtime_store.go:379-429 | a successful pass adds one to the plan version, forgets the last error, and gives every live business node the time of the pass, its name and last worked time kept |
| `ScheduleStatuses.PassRecordsError` | internal/schedule/engine.go:351-376 | a pass the worker answers with a failure clears the mark, keeps the plan version and stores the worker's error, or the standing text for an empty one |
| `ScheduleWrites.RequestInOrder` | internal/schedule/engine.go:119-149 | a request is accepted exactly when it names topic and node and asks for no priority or for interactive at rank 1; the name defaults to the node id |
| `ScheduleWrites.EnqueueWrites` | internal/schedule/runtime_store.go:171-278 | an accepted enqueue stores a ready node at rank 1 with the time of arrival, an existing one included, marks the topic dirty, says whether the node is new, and writes no other row |
| `ScheduleWrites.TickLevels` | internal/schedule/runtime_store.go:681-776 | levels as numbers: aging moves a topic up by one when it waited long enough, service moves the served one down by one if there is more to do, and nothing else changes levels or service times |
| `ScheduleWrites.SelectedComesFirst` | internal/schedule/engine.go:469-505 | a topic is selected if and only if it has a node neither over nor held up and comes before all such topics: by level, then never or longest ago served, then id |
| `ScheduleWrites.PriorityRowPrepared` | internal/schedule/runtime_store.go:293-362 | before a pass the priority node is the recorded one or the one VOS answered with, ready, at rank 0 with its own label and the time of the tick |
| `ScheduleWrites.WorkerRanks` | openmate_agent/worker.py:162-193 | ranks from 1, two times "now" and then "next", over ready and running nodes first, then pending, then held ones; then by rank, entry time and id |
| `ScheduleTypes.ValidateRuntime` | internal/schedule/types.go:170-188 | accepts exactly the valid runtime states |
| `ScheduleTypes.ValidateNodes` | internal/schedule/types.go:215-234 | accepts exactly valid, distinct nodes with one label per rank |
| `ScheduleTypes.Validate` | internal/schedule/types.go:201-248 | accepts exactly the valid snapshots |
| `SchedulePlanner.Select` | internal/schedule/planner.go:110-119 | keeps the nodes that pass the test, in order |
| `SchedulePlanner.HighestRank` | internal/schedule/planner.go:22-27 | the lowest rank number |
| `SchedulePlanner.ChooseCurrentNodeId` | internal/schedule/planner.go:133-152 | current, else last worked, else oldest candidate |
| `SchedulePlanner.CollectDispatch` | internal/schedule/planner.go:68-86 | fills the slots as the model does |
| `SchedulePlanner.Plan` | internal/schedule/planner.go:5-108 | the loops together compute the plan that the theorems are about |
| `ScheduleStore.RuntimeStore.ProbeRank` | internal/schedule/runtime_store.go:1107-1124 | finds another row of the rank exactly when there is one |
| `ScheduleStore.RuntimeStore.UpsertEnqueueNode` | internal/schedule/runtime_store.go:171-278 | does the enqueue of the model, for the row the rank query saw |
| `ScheduleStore.RuntimeStore.ApplyPriorityPlan` | internal/schedule/runtime_store.go:379-429 | the loop applies the whole plan, clears the mark and ends the priority node, or nothing when the topic is missing |
| `ScheduleStore.RuntimeStore.SyncTopicRunningNodeIds` | internal/schedule/runtime_store.go:778-819 | lists exactly the nodes whose status is running |
| `ScheduleStore.RuntimeStore.MarkNodeRunning` | internal/schedule/runtime_store.go:581-596 | marks the node and re-lists the running ones |
| `ScheduleStore.RuntimeStore.MarkNodeFinished` | internal/schedule/runtime_store.go:598-642 | stores the status, re-lists the running nodes and sets the current and last worked node |
| `ScheduleStore.RuntimeStore.HasRunnableNodes` | internal/schedule/runtime_store.go:718-738 | true exactly when a node is neither terminal nor blocked |
| `ScheduleStore.RuntimeStore.PromoteAgedTopics` | internal/schedule/runtime_store.go:755-776 | raises exactly the topics served at least the threshold ago, in any order |
| `ScheduleStore.RuntimeStore.TouchAndDemote` | internal/schedule/runtime_store.go:681-716 | stamps the topic and lowers it when it is still runnable |
| `ScheduleStore.RuntimeStore.ListNodes` | internal/schedule/runtime_store.go:528-553 | each row of the topic once |
| `ScheduleStore.RuntimeStore.BuildTopicSnapshot` | internal/schedule/runtime_store.go:486-526 | a snapshot of the rows, exactly when it validates |
| `ScheduleStore.RuntimeStore.LoadPriorityCandidates` | internal/schedule/engine.go:435-467 | each live business node once |
| `ScheduleEngine.Engine.Enqueue` | internal/schedule/engine.go:78-117 | does the Enqueue step of the model |
| `ScheduleEngine.Engine.ListTopics` | internal/schedule/engine.go:470-476 | each topic once, with its row |
| `ScheduleEngine.Engine.SelectTopic` | internal/schedule/engine.go:469-505 | sorting and scanning selects the topic of the model |
| `ScheduleEngine.Engine.DispatchOne` | internal/schedule/engine.go:278-414 | does one dispatch of the model, the worker's plan included |
| `ScheduleEngine.Engine.DispatchAll` | internal/schedule/engine.go:223-234 | stops at the first failure, as the model does |
| `ScheduleEngine.Engine.Prepare` | internal/schedule/engine.go:189-203 | the priority node is ensured and made ready, or the tick stops with the tables as they were |
| `ScheduleEngine.Engine.PlanTopic` | internal/schedule/engine.go:205-221 | plans as the model does |
| `ScheduleEngine.Engine.Tick` | internal/schedule/engine.go:151-258 | does the Tick step of the model |
| `ScheduleEngine.WorkerPlan` | openmate_agent/worker.py:162-193 | the loop builds the plan of the model |
| `ChatTheorems.NeverPanics` | internal/vos/httpapi/chat.go:119-175 | in every interleaving every send and every close finds its channel open |
| `ChatTheorems.ReadersSeeSubsequence` | internal/vos/httpapi/chat.go:134-149 | what a reader took out is an in-order part of what was published since it subscribed |
| `ChatTheorems.NothingLostUnlessFull` | internal/vos/httpapi/chat.go:143-148 | accepted plus dropped is everything published since the subscription, and with none dropped the reader has or gets exactly that |
| `ChatTheorems.DropsOnlyWhenFull` | internal/vos/httpapi/chat.go:143-147 | a step drops an event only for a channel with 256 events waiting |
| `ChatTheorems.AllClosedInTheEnd` | internal/vos/httpapi/chat.go:151-175 | once the run is closed and no closer has anything left, every channel handed out is closed |
| `ChatTheorems.ClosersCanFinish` | internal/vos/httpapi/chat.go:172-174 | from any reachable closed state the outstanding closes, each exactly once, are enabled one after the other and close everything |
| `ChatTheorems.StepKeeps` | internal/vos/httpapi/chat.go:103-175 | every step keeps ownership of channels and the account of their events |
| `ChatTheorems.EveryStateKeeps` | internal/vos/httpapi/chat.go:103-175 | the invariant holds in every state of every interleaving |
| `ChatRuns.ChatRun.Subscribe` | internal/vos/httpapi/chat.go:103-117 | a new open channel under a new id, or nothing when closed |
| `ChatRuns.ChatRun.Unsubscribe` | internal/vos/httpapi/chat.go:119-132 | takes the channel out and closes it once, its contents and the other channels kept |
| `ChatRuns.ChatRun.Publish` | internal/vos/httpapi/chat.go:134-149 | every subscribed channel gets the event if it has room, in any order |
| `ChatRuns.ChatRun.Close` | internal/vos/httpapi/chat.go:151-175 | takes all channels out and closes each once |
| `ChatRuns.ChatRun.TakeAll` | internal/vos/httpapi/chat.go:163-167 | each subscribed channel once |
| `ToolStreamTheorems.StreamedEqualsUnstreamed` | internal/poolgateway/providers.go:795-890 | for every chunking and interleaving, the parsed stream and the whole message normalise to the same items if and only if every call is clean (named with nothing to trim, a trimmed non-empty id, arguments absent or not blank; or without a name) |
| `ToolStreamTheorems.ParsesExactly` | internal/poolgateway/providers.go:853-860 | a stream without an error chunk is accepted exactly when it has content or a call with a non-blank name |
| `ToolStreamTheorems.ChunkingIrrelevant` | internal/poolgateway/providers.go:996-1038 | two streams that spell the same calls leave the same accumulators |
| `ToolStreamTheorems.MergeHoldsWhatWasSaid` | internal/poolgateway/providers.go:1019-1036 | under each index: the last non-empty id and name and all arguments joined, of the deltas of that index alone |
| `ToolStreamTheorems.CallAgrees` | internal/poolgateway/providers.go:1054-1076 | one call comes out the same streamed and unstreamed exactly when it is clean |
| `ToolStreamTheorems.MissingIdDiffers` | internal/poolgateway/providers.go:654-657 | a named call without an id gets a different made-up id in each form |
| `ToolStreamTheorems.WholeCallsStream` | internal/poolgateway/providers.go:1004-1037 | sending every call in one delta is a stream of the calls |
| `ToolStreamTheorems.SwapKeepsStreams` | internal/poolgateway/providers.go:1004-1037 | swapping neighbouring deltas of different calls is still a stream of the same calls |
| `ToolStreamTheorems.CutKeepsStreams` | internal/poolgateway/providers.go:1034-1036 | cutting arguments anywhere into two deltas is still a stream of the same calls |
| `ToolStreamTheorems.UnindexedDeltasAreCalls` | internal/poolgateway/providers.go:1009-1023 | with no index at all, the k-th delta is the k-th call |
| `ToolStreamItems.StreamNormalizes` | internal/poolgateway/providers.go:795-890 | a stream of calls normalises to one message item with the joined content without surrounding space, exactly when that says something, and then one function call for each call with a name, in index order, with id, name and arguments as spelled |
| `ToolStreamItems.MessageNormalizes` | internal/poolgateway/providers.go:586-677 | the same for a whole message, its text given as one string or as parts |
| `ToolStreamItems.CallItems` | internal/poolgateway/providers.go:635-677 | one item for each named call, in order, with its own id and arguments or the made-up ones |
| `ToolStreamItems.TrimExact` | internal/poolgateway/providers.go:544-565 | a text is space, the trimmed text and space, the trimmed text has no space at its ends and is empty exactly for blank texts |
| `ToolStreamItems.ContentAppends` | internal/poolgateway/providers.go:837-842 | the content of two streams one after the other is the two contents one after the other |
| `ToolStreamItems.ContentOfOne` | internal/poolgateway/providers.go:828-844 | the content and tool deltas of a chunk with one delta are that delta's |
| `ToolStreamItems.JoinAppends` | internal/poolgateway/providers.go:548-561 | the texts of parts join in order |
| `ToolStreamItems.JoinOfOne` | internal/poolgateway/providers.go:554-559 | a part counts exactly when its kind is text or output_text |
| `ToolStreamItems.ParsedPayload` | internal/poolgateway/providers.go:847-890 | id, model and content of the parsed payload with their defaults, or the first error's message, or the empty-stream failure |
| `ToolStreamItems.IdAndModelSaidLast` | internal/poolgateway/providers.go:815-820 | id and model are those of the last chunk that has any |
| `ToolStreamItems.FirstErrorIs` | internal/poolgateway/providers.go:568-584 | the stream fails with the error of the first chunk that has one |
| `ToolStreamItems.CleanIsKept` | internal/poolgateway/providers.go:1054-1076 | a clean named call comes out of a stream with exactly its id, name and arguments |
| `ToolStream.FreeIndex` | internal/poolgateway/providers.go:1010-1018 | the search for a free index ends at the first one |
| `ToolStream.MergeToolCalls` | internal/poolgateway/providers.go:996-1038 | the loop merges as the model does |
| `ToolStream.BuildStreamCalls` | internal/poolgateway/providers.go:1040-1078 | builds the calls by ascending index whatever order the map is read in |
| `ToolStream.NormalizeCallList` | internal/poolgateway/providers.go:635-677 | the loop normalises as the model does |
| `ToolStream.MergeChunk` | internal/poolgateway/providers.go:828-844 | adds one chunk's content and tool calls |
| `ToolStream.ParseChunks` | internal/poolgateway/providers.go:795-890 | the loop over the chunks computes the parse that the theorems are about; the first error chunk ends it |
| `PayloadMerge.Memory.MergeRequestPayload` | internal/poolgateway/openai_responses.go:117-122 | the result stands for the pure merge of defaults and request with model set last; every map that existed, those of defaults and request included, is unchanged |
| `PayloadMerge.Memory.MergeMaps` | internal/poolgateway/openai_responses.go:167-192 | the result stands for the pure merge, for every key order and depth; only maps of the base are written to |
| `PayloadMerge.Memory.CloneMap` | internal/poolgateway/openai_responses.go:131-147 | the copy stands for the same value and shares no map with anything that existed |
| `PayloadMerge.Memory.CloneSlice` | internal/poolgateway/openai_responses.go:149-165 | the same for slices |
| `PayloadModel.MergedLookup` | internal/poolgateway/openai_responses.go:167-192 | path by path: what the override has at a path wins or is merged; the base shows through where the override says nothing and is not cut off by a value without fields |
| `PayloadModel.MergedValues` | internal/poolgateway/openai_responses.go:167-192 | path by path without naming the merge: a value without fields in the override is the result, an object there gives an object with the keys of both, and the base shows through elsewhere |
| `PayloadModel.Frame` | internal/poolgateway/openai_responses.go:167-192 | writes to maps a value does not reach do not change the value |

## Left out

- SQLite itself, busy retries, UUIDs and time formats: a transaction is atomic, ids supplied by the caller are new, times are integers.
- HTTP, server-sent event framing, JSON decoding, subprocesses, command lines, logging and the frontend.
- The config hash is taken to be free of collisions: the stored value is the normal form that is hashed. Request defaults inside a configuration are kept as text.
- Configurations with the same api_id twice: the results on the hash skip and on capacity require distinct ids.
- Usage, latency and pricing columns, record listings and monitoring summaries: they would only add easy members.
- PoolGateway.Gateway.RetryLoop: the method runs on a store that no other process writes to meanwhile, but it is proved to follow the steps of PoolSystem, for which PoolTermination has termination and release in every interleaving.
- PoolGateway.Gateway.InvokeReserved: as for RetryLoop.
- PoolGateway.Gateway.Invoke: as for RetryLoop.
- Release without commit: on a cancelled context the completing transaction may fail and the lease stays held. Release is stated for runs whose completing transactions commit, conservation for all.
- Scheduler liveness without hypotheses: a selected topic may have only blocked nodes in its top layer, dispatch nothing and keep its place, so the fairness results assume that ticks serve what they select.
- Enqueue in the middle of a tick: ticks are atomic with respect to enqueues; UpsertPriorityNode's two statements are one step. Of the store's own failures inside a tick only that of the dispatch history is modelled.
- Session ids, agent specs, idempotency keys, the contents of the dispatch history and updated_at columns are not modelled.
- Queue levels other than L0 to L3 are not modelled.
- Blank-but-not-empty ids and the empty node id in MarkNodeRunning: both enqueue paths refuse empty ids. Trimming of surrounding space in stored references is not modelled, only that an empty one is absent. A worker's error text of white space only, which the store keeps as absent, is kept as it is.
- Reason and error texts of plans are named by constructors, and most error texts are shortened.
- Library sorting (sort.Slice, sort.Ints, sorted) is a sorting function; the orders used are total on what is sorted, so the result is determined.
- ToolStream.ParseChunks: usage, the sink's delta events and the choice index are not modelled; a float index is taken as the integer it is cut to.
- PayloadMerge.Memory.MergeRequestPayload: a nil map is an empty one, slices are values because nothing writes to them, and values are finite. The chat variant of the function (openai_responses.go:124-129) has the same body.
- ChatRuns.ChatRun.Close: the methods on channel objects run one at a time; ChatBroadcast has the interleavings. The cancel function is a flag, and InvocationID, NodeID and SessionID are left out.
- The edit and patch tools, permission rules, path normalisation and compaction.
