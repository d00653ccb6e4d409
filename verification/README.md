# DispatchHub task delivery, verified

A Dafny model of how DispatchHub delivers tasks, and proofs of what it guarantees.

The centre is one state machine (`Protocol`) over the two stores: per queue the ready and delayed sorted
sets, the inflight hash and the lease sorted set in Redis, and the task rows in MySQL with their
version check. Submitters, any number of workers, cancellers and the scheduler loops (promote, reclaim,
compensate, clean up) take atomic steps in any order; every step can be lost, workers can die at any point,
clocks are arbitrary. Theorems hold for every run, or for every run of a stated kind.

* `Entities`, `SortedSets`, `Keys`, `Queues`, `TaskTable`, `Timing`: the data and the effect of each script. The
  dequeue script writes to the queues whose keys it derives, which may not be the queue it pops from.
* `Broker`, `TaskTable.TaskRepository`: the stores' code with its loops, proved to have those effects.
* `Worker`, `TaskService`, `SchedulerLoops`: the code that calls the stores, with arbitrary steps of others between
  any two calls, proved to be runs of the machine between reachable states, so that the theorems about reachable
  states hold before and after it. `Effects` says what each step changes for that code, `Interference` what an
  actor can rely on in between.
* `Shape`, `NoLoss`, `Workloads`, `OptimisticLock`, `Overwrites`, `Finality`, `Threats`, `CrashTolerance`,
  `RetryBound`, `RowCounts`, `RetryWaits`, `Cancellation`, `LeaseCover`, `NeverEarly`, `Delivery`: invariants of all
  runs and what follows from them.
  `Survivors` and `MissedSignals` are concrete runs beside them, put together from the steps in `Walks`.
* `Selections`, `Outcomes`: the steps one actor made in a run, and what a delivery writes at its end.
* `Cron`, `CronPolicy`, `CronScheduler`: cron triggering by concurrent schedulers.
* `RateLimit`, `Routes`, `Backpressure`: the token bucket, the route validator, the worker's semaphore.

Five promises do not hold as stated, and the model says exactly when they do:

* No task is lost, unless a task's payload or labels contain the raw text `"id":"X"` for the id X of another
  task of its queue. Remove matches by text, so cancelling X then deletes the other task's copies
  (`Workloads.LossFreeIff`, `Workloads.LosingRun`).
* Nor is it lost to a crash, unless its queue name brings a `:ready` of its own, as `orders:ready` does. The dequeue
  script derives its keys by replacing every `:ready`, so the inflight copy goes to a hash that Ack, Nack, Remove and
  reclaim never address (`Workloads.LossFreeIff`, `Workloads.MisnamedRun`). Nothing checks queue names.
* A committed cancel is final, whatever happens later, if and only if nobody still holds the version that the
  canceller read: no copy that a dequeue can return, no submitter or compensation loop, no worker before its Running
  write or about to Nack; nor does a worker past its Running write hold the version that the cancel made. Update
  increments the version in memory even when it fails, so the outcome write of such a worker fits the cancelled row,
  whether the cancel committed before the Running write or, that write being lost, while the handler ran; after a
  failed handler the cancelled task is even queued to run again (`Threats.CancelFinalIff`,
  `Overwrites.CancelLostRun`, `Overwrites.LateCancelRun`, `MissedSignals.CancelledRunsAgain`). For one undisturbed
  worker, `Overwrites.HandlingOverwrittenIff` says which of its results overwrite the row.
* A delivered cancel signal stops the handler, with four exceptions: another attempt of the task registered or ended on
  the same node since (the cancel map has one entry per task id), the second check could not be read, the cancel was
  overwritten, or the row was cleaned up (`Cancellation.SignalHeeded`; `MissedSignals` has a run for each).
* A delayed submission is not dequeued early, if its execution time is not after the first clock at which the
  compensation loop can select its row. Compensation looks at inflight only, so it brings later ones forward
  (`NeverEarly.NeverEarlyIff`). Retries are never early (`NeverEarly.RetryNeverEarly`).

Where code and documentation differ the code is followed: the comment at
`internal/shared/infrastructure/persistence/redis/queue_broker.go:67` and
`docs/architecture/queue-design.md:388` give the jitter as below base/4, the code includes base/4;
`docs/fixes/2026-04-16-task-cancellation.md:63` calls the row update the core guarantee of a cancel, which the
race above breaks; `docs/architecture/mysql-design.md:126` says nobody else updates a task that a worker took,
while reclaim can hand it to a second worker; the fetch loop's idle wait reaches 3.2 s although its maximum is
named 2 s.

## Model

| member | source | states |
|---|---|---|
| `NoLoss.NothingIsLost` | internal/shared/infrastructure/persistence/redis/queue_broker.go:169-294 | in every reachable state of the whole system, with crashes, lost calls and redeliveries, a created task is pending in MySQL, has a copy in its queue's ready, delayed or inflight, had a final handler outcome or had its cancel committed, provided no task's text mentions the id of another task of its queue and every queue name agrees with its derived keys |
| `Workloads.LossFreeIff` | internal/shared/infrastructure/persistence/redis/queue_broker.go:387-418 | for any set of tasks: no run over it ever loses a task if and only if no task's payload or labels contain the id pattern of another task of the same queue and no queue name brings a ":ready" of its own |
| `Workloads.LosingRun` | internal/shared/infrastructure/persistence/redis/queue_broker.go:395-415 | for any two tasks of which the later one mentions the earlier, the run in which cancelling the mentioned one removes the only copy of the other |
| `Workloads.MisnamedRun` | internal/shared/infrastructure/persistence/redis/queue_broker.go:169-187 | for any task in a queue whose name does not agree, the run in which its worker dies after the Running write and no structure of its queue holds it any more |
| `OptimisticLock.AlwaysRecorded` | internal/shared/infrastructure/persistence/mysql/task_repository.go:42-58 | in every run the state of each row is the one recorded for its version, no recorded version is ahead of its row, and every queued copy and every worker before its first write carries a version recorded with a state that is not terminal |
| `OptimisticLock.CommittedOnce` | internal/shared/infrastructure/persistence/mysql/task_repository.go:42-58 | in every reachable state a commit makes a version of the row that has never been committed before, so a version is committed once and determines its state |
| `OptimisticLock.OverwriteNeedsFailedWrite` | internal/worker/application/service/worker_app_service.go:272-331 | over all interleavings, an Update that commits onto a terminal row is the outcome write of an attempt whose Running write failed; cancellers and Running writes never do it |
| `Threats.CancelFinalIff` | internal/apiserver/domain/service/task_service_impl.go:112-142 | from every reachable state with a cancelled row of version V: in every continuation of the run the row stays as it is until it is cleaned up, if and only if no copy that a dequeue can still return, no submitter, no compensation loop and no worker before its Running write or about to Nack holds version V - 1, and no worker from its handler to its outcome write holds version V |
| `Threats.RemovedFinalIff` | internal/apiserver/domain/service/task_service_impl.go:131-134 | after the removal of the cancelled task from its queue, that is so if and only if no submitter, compensation loop or worker holds such a version |
| `Finality.StaysSecure` | internal/shared/infrastructure/persistence/mysql/task_repository.go:42-58 | the invariant behind it: where nobody holds such a version, no step of anybody brings one about or writes the row |
| `Threats.ThreatOverwrites` | internal/worker/application/service/worker_app_service.go:226-359 | the converse: whoever holds such a version, wherever the copy waits, there are steps from that state that overwrite the cancelled row |
| `Overwrites.HandlingOverwrittenIff` | internal/worker/application/service/worker_app_service.go:277-359 | a handler that runs while its row is cancelled, whenever the cancel committed and whatever became of the Running write, undisturbed from there: the row stays cancelled if and only if the handler stopped for the cancel and the row could be read again, or the row is not exactly one version ahead of the dequeued copy, or the outcome write is lost |
| `Overwrites.SettlingOverwrittenIff` | internal/worker/application/service/worker_app_service.go:319-359 | an outcome write against a cancelled row: the row stays if and only if it does not have the version in the worker's hands or the call is lost; otherwise it takes the outcome, and a retrying task goes on to Nack |
| `Overwrites.CancelOverwrittenIff` | internal/worker/application/service/worker_app_service.go:272-359 | a worker past its second check whose row is cancelled by then, undisturbed from there, for every fate of its two writes and every result of the handler: the row stays cancelled if and only if the handler stopped for the cancel and the row could be read again, or the row is not exactly one version ahead of the copy, or the outcome write is lost; otherwise it becomes completed, failed or retrying by the result, and a retrying task goes on to Nack |
| `Overwrites.CancelLostRun` | internal/apiserver/domain/service/task_service_impl.go:112-129 | for every task, a run in which its cancel commits between second check and Running write and the row ends as completed |
| `Overwrites.LateCancelRun` | internal/worker/application/service/worker_app_service.go:272-331 | for every task, a run in which the Running write never reaches the table, the cancel commits while the handler runs, and the row ends as completed |
| `MissedSignals.CancelledRunsAgain` | internal/worker/application/service/worker_app_service.go:333-346 | for every task with a retry and no backoff, a run in which its cancel commits and the task is back in ready to run again |
| `TaskTable.OneWriterPerVersion` | internal/shared/infrastructure/persistence/mysql/task_repository.go:42-58 | of two writers with the same version only the first commits, and its incremented version is the one that can write next |
| `CrashTolerance.CopyAtMostOneBehind` | internal/shared/infrastructure/persistence/redis/queue_broker.go:445-468 | in runs without cancel, double copies or store errors, in queues whose names agree, where leases expire only after the worker died, a waiting copy of version v meets an unfinished row of version v, or of v + 1 if that is running |
| `CrashTolerance.FinalWriteLands` | internal/worker/application/service/worker_app_service.go:272-359 | in those runs every attempt that reaches its outcome write finds its version in the table, so the write commits with the outcome, after any number of crashed attempts |
| `Survivors.SurvivorCompletes` | internal/worker/application/service/worker_app_service.go:272-331 | for every task of an agreeing queue, such a run with a crash in it: the first worker dies after its Running write, the second one's Running write fails, and its outcome is committed |
| `RetryBound.RetryCountsBounded` | internal/shared/infrastructure/persistence/redis/queue_broker.go:242-276 | in every run queued copies have retry count 0 or a count below their limit, rows stay within max(1, MaxRetries), a failed row has used up its retries and a retrying one has some left, and Nack never takes its discard branch, so the failed counter stays 0 |
| `RetryBound.FailuresWithinLimit` | internal/worker/application/service/worker_app_service.go:333-359 | with single delivery a task fails at most max(1, MaxRetries) times and the retry count of its copy in ready or delayed is exactly the number of failures |
| `RowCounts.RowCountsFailures` | internal/shared/infrastructure/persistence/mysql/task_repository.go:42-58 | with single delivery the retry count of a row is exactly the number of failures of its task, unless a worker is about to write one more; for a retrying or failed row it always is |
| `Cancellation.EntryKeptIff` | internal/worker/application/service/worker_app_service.go:384-394 | in every reachable state a registered attempt has its node's cancel-map entry if and only if no other attempt of the task has registered or ended on that node since it registered |
| `Cancellation.SignalReachesIff` | internal/worker/application/service/worker_app_service.go:396-404 | a signal that arrives while an attempt is registered leaves its context cancelled if and only if there was no such overlap, or it was cancelled before |
| `Cancellation.SignalHeeded` | internal/worker/application/service/worker_app_service.go:243-283 | over all interleavings and for any number of earlier deliveries: an attempt past its second check whose node has received the signal at any time has its context cancelled, unless its entry was lost to such an overlap, its second check could not be read, the committed cancel was overwritten or the row was cleaned up |
| `Cancellation.CommittedCancelSkips` | internal/worker/application/service/worker_app_service.go:249-254 | a second check that can be read keeps the handler from starting for every committed cancel that was not overwritten and whose row is still there |
| `MissedSignals.ShadowedRun` | internal/worker/application/service/worker_app_service.go:384-394 | for every task of an agreeing queue, a run in which the lost entry is the only exception and the handler runs on uncancelled |
| `MissedSignals.UnreadRun` | internal/worker/application/service/worker_app_service.go:249-254 | for every task, the same with the unread second check as the only exception |
| `MissedSignals.CleanedRun` | internal/shared/infrastructure/persistence/mysql/task_repository.go:122-131 | for every task, the same with the cleaned-up row as the only exception |
| `MissedSignals.OverwrittenRun` | internal/worker/application/service/worker_app_service.go:333-346 | for every task with a retry and no backoff, the same with the overwritten cancel as the only exception |
| `LeaseCover.LeaseIsExact` | internal/shared/infrastructure/persistence/redis/queue_broker.go:195-228 | after any history of the task: from a dequeue with no other pending, and as long as none follows, the lease of that attempt ends at the dequeue clock plus the visibility timeout in whole milliseconds |
| `LeaseCover.LeaseCoversHandler` | internal/shared/infrastructure/persistence/redis/queue_broker.go:445-468 | no reclaim pass with a clock before that dequeue + max(30 s, timeout + 10 s) takes the task: inflight copy and lease stay as they are |
| `NeverEarly.DequeuedAfterDue` | internal/shared/infrastructure/persistence/redis/queue_broker.go:278-294 | in every run a copy with an execution time is dequeued only after a promote call whose clock had reached that time, or it is a first version that compensation enqueued |
| `NeverEarly.RetryNeverEarly` | internal/shared/infrastructure/persistence/redis/queue_broker.go:255-260 | with promote clocks not ahead of the dequeue clock, a retry is never dequeued before its backoff is over, whatever compensation does |
| `RetryWaits.RetryWaitsBackoff` | internal/shared/infrastructure/persistence/redis/queue_broker.go:71-84 | over any run with promote clocks not ahead of the dequeue clock: what a successful Nack queued with a backoff is not dequeued before Nack's clock plus the computed backoff and jitter; for bases of 280 ns to 2^34 ns that is min(base * 2^(n-1), 5 min) plus the jitter |
| `NeverEarly.NeverEarlyIff` | internal/shared/infrastructure/persistence/mysql/task_repository.go:104-113 | with clocks not ahead of the dequeue clock, a submission created at clock c is never dequeued before its execution time, in any run, if and only if that time is at most c + olderThan + 1, the first clock (ms) at which the compensation scan can select its row |
| `NeverEarly.CompensationIsEarly` | internal/scheduler/domain/service/scheduler.go:145-169 | for every later execution time, the run in which the scan selects the delayed task at that clock and it is dequeued early |
| `Interference.OthersSpareAttempt` | internal/worker/application/service/worker_app_service.go:226-307 | over any stretch of a run without a step of the attempt itself, nobody moves it; a signal may mark its context once it is registered |
| `Interference.OthersKeep` | internal/apiserver/domain/service/task_service_impl.go:91-142 | over any stretch of a run without their own steps, a canceller and a submission stay where they are |
| `Delivery.HighestPriorityFirst` | internal/shared/infrastructure/persistence/redis/queue_broker.go:174-176 | in every reachable state, whichever of the writers filled the ready set, a dequeue from a queue returns a copy of the highest priority in that queue |
| `Delivery.InflightHasLease` | internal/shared/infrastructure/persistence/redis/queue_broker.go:169-276 | in every reachable state an inflight copy is in its own queue's hash and has a lease beside it if and only if its queue name agrees with the derived keys |
| `Delivery.InflightComesBack` | internal/shared/infrastructure/persistence/redis/queue_broker.go:445-495 | once the clock has reached the lease of an inflight copy of an agreeing queue, ceil(n / batch) reclaim calls for n expired leases put that very copy into ready |
| `Shape.Always` | internal/shared/infrastructure/persistence/redis/queue_broker.go:115-131 | in every run: ready scores are minus the priority, queued copies are pending or retrying with a retry left and keep their task's fixed fields, an inflight id of an agreeing queue has a lease, a pending row has version 1 |
| `Queues.ReclaimConserves` | internal/shared/infrastructure/persistence/redis/queue_broker.go:445-468 | one reclaim call takes exactly the earliest expired leases the batch allows, keeps ready and inflight copies together unchanged, leaves other leases alone and returns the shrinkage of inflight |
| `Queues.ReclaimDrains` | internal/shared/infrastructure/persistence/redis/queue_broker.go:445-495 | repeated at one clock, n expired leases are gone after ceil(n / batch) calls and not before |
| `Queues.PromoteConserves` | internal/shared/infrastructure/persistence/redis/queue_broker.go:278-294 | one promote call moves nothing early, earliest first, keeps ready and delayed copies together unchanged and scores each moved copy by its priority |
| `Queues.PromoteDrains` | internal/shared/infrastructure/persistence/redis/queue_broker.go:278-309 | n due copies are promoted after ceil(n / batch) calls and not before |
| `Queues.AckEndsDelivery` | internal/shared/infrastructure/persistence/redis/queue_broker.go:233-240 | Ack undoes what the dequeue recorded, and what an earlier delivery of the task left in inflight and lease: of the delivery only the copy's absence from ready and one completed task remain |
| `Queues.NackEndsDelivery` | internal/shared/infrastructure/persistence/redis/queue_broker.go:242-276 | Nack does too; the changed copy is queued in exactly one place, by its backoff, while it has a retry left, and counted as failed if not |
| `Timing.LeaseCoversTimeoutIff` | internal/shared/infrastructure/persistence/redis/queue_broker.go:43-52 | the lease is max(30 s, timeout + 10 s), and longer than the timeout, if and only if adding the buffer does not overflow int64 |
| `Timing.BackoffMeetsFormulaIff` | internal/shared/infrastructure/persistence/redis/queue_broker.go:71-84 | for every base and retry count, when the wrapped shift-and-clamp equals min(base * 2^(n-1), 5 min) over unbounded integers |
| `Timing.BackoffRange` | internal/shared/infrastructure/persistence/redis/queue_broker.go:56-84 | for bases below 2^34 ns the formula holds for every retry count if and only if the base is at least 280 ns |
| `Timing.BackoffRangeIsTight` | internal/shared/infrastructure/persistence/redis/queue_broker.go:76-81 | 279 ns falls short at retry 32, and 2^34 ns wraps to 0 at retry 31 |
| `Timing.BackoffMonotone` | internal/shared/infrastructure/persistence/redis/queue_broker.go:60-81 | in that range the backoff before jitter is at least the base, at most 5 min and grows with the retry count until it is capped |
| `Timing.ComputeRetryBackoff` | internal/shared/infrastructure/persistence/redis/queue_broker.go:71-84 | for bases of 280 ns to 2^34 ns the whole computation is min(base * 2^(n-1), 5 min) plus the jitter; it is 0 without a base or a retry, and always within 5 min plus a quarter of the base |
| `Timing.RetryDelayIff` | internal/shared/infrastructure/persistence/redis/queue_broker.go:71-84 | for every base, retry count and jitter: the wait is the documented backoff plus the jitter, so at least the backoff and at most a quarter of the base more, exactly when the wrapped shift meets the formula |
| `Keys.DerivedKeysAgreeIff` | internal/shared/infrastructure/persistence/redis/queue_broker.go:179-182 | the keys that the dequeue script derives by text replacement are those of Ack, Nack, Remove and reclaim if and only if ":" + queue name does not contain ":ready" |
| `Keys.ScriptKeys` | internal/shared/infrastructure/persistence/redis/queue_broker.go:16-22 | for every name, the derived keys are the formatted inflight and lease keys of the derived names that the model's dequeue writes to |
| `Keys.NamesApart` | internal/shared/infrastructure/persistence/redis/queue_broker.go:179-182 | both derived names are the queue's own if it agrees; if not, the three names are all different |
| `SortedSets.RangeByScore` | internal/shared/infrastructure/persistence/redis/queue_broker.go:278-294 | the loop returns a possible answer of ZRANGEBYSCORE with LIMIT: earliest first, exactly as many as are due and allowed |
| `SortedSets.DueAfterRange` | internal/shared/infrastructure/persistence/redis/queue_broker.go:445-468 | taking a range out of a sorted set leaves exactly the due members beyond the batch |
| `Broker.QueueBroker.EnqueueWithCap` | internal/shared/infrastructure/persistence/redis/queue_broker.go:103-142 | full exactly when the cap is positive and reached; otherwise the copy is in ready under minus its priority |
| `Broker.QueueBroker.EnqueueDelayed` | internal/shared/infrastructure/persistence/redis/queue_broker.go:144-161 | the copy is in delayed under its absolute time or now plus its delay |
| `Broker.QueueBroker.DequeueScript` | internal/shared/infrastructure/persistence/redis/queue_broker.go:169-187 | pops a least-score copy of the first queue in list order that has one, and records inflight and lease together under the derived keys |
| `Broker.QueueBroker.Dequeue` | internal/shared/infrastructure/persistence/redis/queue_broker.go:189-231 | the script, then the longer lease for a task that needs one; a failed extension is an error and leaves the copy inflight under the default lease |
| `Broker.QueueBroker.Nack` | internal/shared/infrastructure/persistence/redis/queue_broker.go:242-276 | inflight entry and lease go; the copy is delayed, ready, or dropped and counted as failed; a delayed one is scored with the clock plus the documented backoff and the jitter |
| `Broker.QueueBroker.PromoteDelayed` | internal/shared/infrastructure/persistence/redis/queue_broker.go:278-309 | the loop over the due members has the effect of moving that set of copies, and returns its size |
| `Broker.QueueBroker.EnqueueIfNotInflight` | internal/shared/infrastructure/persistence/redis/queue_broker.go:352-382 | enqueues if and only if the id is not inflight; the delayed set is not consulted |
| `Broker.QueueBroker.DropMatching` | internal/shared/infrastructure/persistence/redis/queue_broker.go:395-415 | the scan leaves exactly the members whose text does not match the id pattern and counts the others |
| `Broker.QueueBroker.Remove` | internal/shared/infrastructure/persistence/redis/queue_broker.go:387-429 | clears inflight, lease and every matching ready and delayed member; returns how many went |
| `Broker.QueueBroker.ReclaimEach` | internal/shared/infrastructure/persistence/redis/queue_broker.go:445-477 | the loop over expired leases has the effect of reclaiming that set of ids and counts the copies moved |
| `Broker.QueueBroker.ReclaimInflight` | internal/shared/infrastructure/persistence/redis/queue_broker.go:479-495 | the same with the default batch of 100 for a batch of 0 or less |
| `TaskTable.TaskRepository.Create` | internal/shared/infrastructure/persistence/mysql/task_repository.go:26-28 | a used key is refused; a zero version becomes 1 in the row and in memory |
| `TaskTable.TaskRepository.Update` | internal/shared/infrastructure/persistence/mysql/task_repository.go:42-58 | the version in memory grows whatever happens; if and only if the row had the old version and the statement ran, every field with a value is written, zero fields stay, and no other row changes |
| `TaskTable.CommittedWrites` | internal/shared/infrastructure/persistence/mysql/task_repository.go:42-58 | field by field what a committed write leaves of the row |
| `TaskTable.TaskRepository.FindStale` | internal/shared/infrastructure/persistence/mysql/task_repository.go:104-113 | the pending rows not written for longer than the age limit, oldest first; one is left out only if the limit is reached |
| `TaskTable.TaskRepository.DeleteTerminal` | internal/shared/infrastructure/persistence/mysql/task_repository.go:122-131 | deletes terminal expired rows only, and leaves one only if the limit is reached |
| `Worker.WorkerService.Dequeue` | internal/shared/infrastructure/persistence/redis/queue_broker.go:169-231 | script and lease extension, others at work in between, are a run of the protocol that begins with the Fetch of a copy of the highest priority in the first queue of the list that has any, all earlier ones being empty, and that ends with the copy loaded, or with an error and no attempt if the extension failed |
| `Worker.WorkerService.ProcessTask` | internal/worker/application/service/worker_app_service.go:226-307 | the code from Dequeue's return to the end of the task, with any steps of others between its calls, is a run of the protocol between reachable states; its own steps in that run are exactly those which the circumstances dictate, from the first check to Ack or Nack, and stores and cancel map end as the protocol's |
| `Worker.WorkerService.ProcessScreened` | internal/worker/application/service/worker_app_service.go:243-247 | the same from registration on, with the deferred untrackCancel on every path |
| `Worker.WorkerService.ProcessCleared` | internal/worker/application/service/worker_app_service.go:258-270 | the same from the handler lookup on: without a handler the failure steps follow at once |
| `Outcomes.SettlesAsReturned` | internal/worker/application/service/worker_app_service.go:298-359 | in every run with these steps, whatever others do in between: the outcome write is for a completed task exactly if a handler was registered and returned no error; otherwise it carries one failure more than the dequeued copy, retrying below the limit and failed at it |
| `Outcomes.ResultFollows` | internal/worker/application/service/worker_app_service.go:283-307 | over any stretch of a run up to the outcome write, the decided outcome is that of a result among its steps |
| `Worker.WorkerService.ProcessTracked` | internal/worker/application/service/worker_app_service.go:249-256 | the same from the second check on: Ack for a terminal row, the rest otherwise |
| `Worker.WorkerService.Handle` | internal/worker/application/service/worker_app_service.go:272-283 | the same for the Running write, whose failure does not stop the handler |
| `Worker.WorkerService.Conclude` | internal/worker/application/service/worker_app_service.go:288-307 | the same for the handler's result: success steps after a success, Ack after a failure that the row explains as a cancel, failure steps otherwise |
| `Worker.WorkerService.HandleSuccess` | internal/worker/application/service/worker_app_service.go:320-331 | the same for the completed write followed by Ack, whatever the write reports |
| `Worker.WorkerService.HandleFailure` | internal/worker/application/service/worker_app_service.go:333-359 | the same for the retry write followed by Nack exactly if it succeeded, or the failed write followed by Ack once the limit is reached |
| `Worker.WorkerService.CancelRunningTask` | internal/worker/application/service/worker_app_service.go:396-404 | a signal cancels the registered context if there is one, as the protocol's delivery step does |
| `TaskService.TaskServiceImpl.SubmitTask` | internal/apiserver/domain/service/task_service_impl.go:57-110 | row first, queue second, with any steps of others in between, as a run of the protocol; success if and only if admitted and the row was created, also when the enqueue is lost; the submitted task with its defaults is created and then enqueued, once, now or at its time, unless the call was lost |
| `TaskService.FilledIs` | internal/apiserver/domain/service/task_service_impl.go:58-73 | what the submitter gave is kept, what he left out gets the defaults: a new id, the queue default, priority 5, 3 retries, 5 min |
| `TaskService.TaskServiceImpl.CancelTask` | internal/apiserver/domain/service/task_service_impl.go:112-142 | its own steps are exactly read, write, removal and signal, in this order, with any steps of others in between, for every readable row that is not terminal, and none otherwise; it succeeds if and only if the row still had the version read when the write came and the call had no fault, and only then removal and signal follow |
| `SchedulerLoops.SchedulerService.ReclaimInflightTasks` | internal/scheduler/domain/service/scheduler.go:179-191 | a run of the protocol, others at work in between, with one reclaim call for each visited queue whose call is not lost, and for no other queue; the total is exactly the number of copies that these calls took out of inflight |
| `SchedulerLoops.SchedulerService.PromoteDelayedTasks` | internal/scheduler/application/scheduler_app_service.go:120-136 | a run of the protocol, others at work in between, with one promote call of 100 for each visited queue whose call is not lost, and for no other queue |
| `SchedulerLoops.SchedulerService.CleanupTerminalTasks` | internal/scheduler/domain/service/scheduler.go:171-174 | one cleanup step of the protocol: only terminal rows with an old finished_at go, as many as the limit allows |
| `SchedulerLoops.SchedulerService.CompensateOrphanedTasks` | internal/scheduler/domain/service/scheduler.go:145-169 | a run of the protocol, others at work in between, that contains the loop's own steps in order: the scans of one query, then for each stale row, oldest first, up to the first queue error, the enqueue and, if it was not inflight and the call was not lost, the touch; counts exactly those whose id was not inflight at their turn |
| `SchedulerLoops.QueueNames` | internal/scheduler/domain/service/scheduler.go:250-270 | each visited queue once: a queue is visited if and only if some known worker lists it, or none lists any and it is the default queue |
| `Cron.ClaimMovesForward` | internal/shared/infrastructure/persistence/mysql/cronjob_repository.go:50-66 | in every reachable state of any number of schedulers, a claim that commits moves next_run_at strictly forward, past its clock |
| `Cron.AtMostOneTrigger` | internal/scheduler/domain/service/scheduler.go:68-141 | over the whole run the claimed occurrences of a job strictly increase, so none is claimed twice, and none creates two tasks |
| `Cron.TriggersWithinClaims` | internal/scheduler/domain/service/scheduler.go:89-137 | tasks created from a job plus Forbid skips never exceed its committed claims |
| `CronPolicy.TriggersAdmitted` | internal/scheduler/domain/service/scheduler.go:88-137 | in every run of any number of schedulers a task is created for a visit only if the job allows overlap or the check of that visit found none of its tasks running, and it is for the occurrence that was scanned |
| `CronPolicy.ClaimsFollowPolicy` | internal/scheduler/domain/service/scheduler.go:88-113 | a committed claim is a skip exactly if the job forbids overlap and that check found a running task; a failed check claims nothing |
| `CronPolicy.CheckDecides` | internal/scheduler/domain/service/scheduler.go:88-103 | after the check the visit claims, skips or ends, by policy and answer |
| `CronScheduler.CronJobRepository.ClaimCronJob` | internal/shared/infrastructure/persistence/mysql/cronjob_repository.go:50-66 | changes the row if and only if next_run_at is the expected value and the statement ran, and then exactly last_run_at and next_run_at |
| `CronScheduler.CronJobRepository.FindDueCronJobs` | internal/shared/infrastructure/persistence/mysql/cronjob_repository.go:100-108 | the enabled jobs whose next run has come, earliest first; one is left out only if the limit is reached |
| `CronScheduler.OthersKeepVisit` | internal/scheduler/domain/service/scheduler.go:68-76 | over any stretch of a run without steps on it, a scheduler's hold on a due job stays as it is |
| `CronScheduler.TriggerOne` | internal/scheduler/domain/service/scheduler.go:76-138 | the handling of one due job, other schedulers at work in between, is a run of the cluster with exactly the steps that the answers dictate; a job is triggered if and only if its expression parses, its policy admits it, its claim is won against the table of that moment, and create and enqueue succeed |
| `CronScheduler.ClaimAndCreate` | internal/scheduler/domain/service/scheduler.go:107-138 | the claim comes first, it is won if and only if the job still had the scanned next run and the call had no fault, and exactly its winner creates a task |
| `CronScheduler.TriggerDueCronJobs` | internal/scheduler/domain/service/scheduler.go:68-141 | one pass, beside any number of other schedulers, is a run of the cluster over the due jobs of one query; each job gets exactly the steps that its answers dictate, and the number returned is the number of jobs admitted, won, created and enqueued |
| `RateLimit.RefillComposes` | pkg/ratelimit/ratelimit.go:72-80 | refilling at t1 and then at t2 is refilling at t2 |
| `RateLimit.RunSane` | pkg/ratelimit/ratelimit.go:47-56 | over every sequence of calls 0 <= tokens <= burst |
| `RateLimit.WindowBound` | pkg/ratelimit/ratelimit.go:47-80 | in every window, over every sequence of calls, at most burst + rate * length calls are admitted |
| `RateLimit.AdmitsIff` | pkg/ratelimit/ratelimit.go:47-80 | the exact rule over every sequence of calls: a call is admitted if and only if every window that ends with it has room for one more under burst + rate * length, so a bucket never denies without need |
| `RateLimit.DeniedIsInvisible` | pkg/ratelimit/ratelimit.go:47-56 | taking a denied call out of a sequence changes no other answer |
| `RateLimit.LazyIsFull` | pkg/ratelimit/ratelimit.go:37-44 | a bucket made at its first call answers like one that was full all along |
| `RateLimit.QueuesAreIsolated` | pkg/ratelimit/ratelimit.go:107-122 | the answers a queue gets are those of its own bucket on its own calls, whatever the other queues do |
| `RateLimit.QueueWindowBound` | pkg/ratelimit/ratelimit.go:107-122 | the window bound for each queue of the shared limiter |
| `RateLimit.Limiter.Refill` | pkg/ratelimit/ratelimit.go:72-80 | adds what was earned since the last call, capped at burst |
| `RateLimit.Limiter.Allow` | pkg/ratelimit/ratelimit.go:47-56 | takes a token if and only if a whole one is there after refilling |
| `RateLimit.MultiQueueLimiter.Allow` | pkg/ratelimit/ratelimit.go:107-122 | uses and changes only the queue's own limiter, made with the defaults if missing |
| `RateLimit.MultiQueueLimiter.SetRate` | pkg/ratelimit/ratelimit.go:100-104 | replaces the queue's limiter by a full one |
| `Routes.BuildIndex` | internal/apiserver/domain/service/route_validator.go:75-88 | the nested loops build an index that answers every lookup as a search through the online workers would |
| `Routes.EmptyIffIdle` | internal/apiserver/domain/service/route_validator.go:53-55 | the index is empty if and only if no online worker lists a queue |
| `Routes.RouteValidator.Refresh` | internal/apiserver/domain/service/route_validator.go:69-96 | swaps index and refresh time together, or changes nothing on error |
| `Routes.RouteValidator.Validate` | internal/apiserver/domain/service/route_validator.go:38-67 | after every sequence of calls: accepted if a needed refresh failed, else exactly the brute-force answer on the last good worker list, which is no older than the refresh interval |
| `Backpressure.AlwaysAccounted` | internal/worker/application/service/worker_app_service.go:175-224 | in every interleaving occupancy is the busy goroutines plus the loop's own hold and within the limit, each permit taken is held or was returned once, and the idle wait is 100 ms * 2^min(k, 5) after k empty polls |
| `Backpressure.ExitedIff` | internal/worker/application/service/worker_app_service.go:175-204 | the fetch loop is gone exactly after a stop, while it waited or in the error of its dequeue |
| `Backpressure.NeverStuck` | internal/worker/application/service/worker_app_service.go:180-222 | a permit can always be returned, and the loop can go on if and only if fewer than Concurrency goroutines are busy |
| `Backpressure.AllReturned` | internal/worker/application/service/worker_app_service.go:158-163 | when the loop has left and the wait group is at zero, every permit is back |

## Left out

- Ack and Nack pipelines: taken as one atomic step each. Redis runs the commands of a plain pipeline one by one, so another client could see the hash entry gone and the lease still there.
- untrackCancel: the deferred deletion of the cancel-map entry is part of the step of the last store call before it; other goroutines of the node do not step in between.
- Concurrent use of one limiter or validator object: their methods run one at a time; interleavings are the state machines' part.
- TaskService.TaskServiceImpl.SubmitTask: ids are never used again; a client that resubmits the id of a task whose row the cleanup loop deleted is not modelled.
- Fields that no decision reads (payload, result, error text, worker id, time stamps) are one opaque value, and a handler that changes the task object it is given is not modelled.
- updated_at is kept for pending rows only, where the compensation scan reads it; clocks and execution times are whole milliseconds.
- TaskTable.TaskRepository.DeleteTerminal: whose finished_at is old enough is given as a set of ids, because no other decision depends on finished_at.
- TaskTable.TaskRepository.Get, TaskTable.TaskRepository.TouchUpdatedAt, Broker.QueueBroker.Ack, Worker.WorkerService.TrackCancel and Worker.WorkerService.UntrackCancel have no row of their own: each is a single read or assignment, used by the members above.
- Order among equal scores: any order, where Redis sorts by text.
- Glob characters in a task id passed to Remove: an id always matches its own members here.
- Scan cursor of Remove: the script's ZSCAN loop is one pass over the members.
- Cron expressions: only that the next run is after the given time; an expression that never fires again (the library then returns the zero time) is outside this.
- A clock of one scheduler that steps back between its scan and its claim.
- Forbid as mutual exclusion: the check for running tasks is not atomic with the claim, so two tasks of one job can overlap.
- UpdateCronJob: nothing in the repository calls it; a caller could set next_run_at back.
- RateLimit.QueueWindowBound: exact real arithmetic, non-negative rates and bursts; rounding of floats is not modelled.
- Limiter.Wait polling, the timeout, recovery and logging middleware, heartbeats and shutdown timing.
- HTTP and gRPC servers, request parsing, hooks, etcd registration and election, configuration, metrics and logging.
