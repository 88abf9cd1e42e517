# Verified model of the remote command core

This project models the concurrent and transactional core of a remote command library
(SSH connection pools, a shared connection budget, a background task runner, batch
execution, command recipes, staged uploads, output handling and host storage) and proves
what its code promises, over every input and every run.

`dafny verify dfyconfig.toml` checks everything.

## How it is built

Lock-based components have three layers:

1. **Values and blocks** (`Budget`, `SyncPool`, `AsyncPool`, `TaskRunner`, `Batch`): the
   fields of an object as a value, and one function for each stretch of code that runs
   under its lock.
   A class of the same shape has the fields and the loops of the original; its methods are
   proved equal to the functions, so what is proved about the functions holds of the loops.
   Whole calls (acquire, release, submit, a worker's loop, one host's execution) are methods
   too, for a caller whom no other call disturbs.
2. **Runs** (`BudgetRuns`, `PoolRuns`, `AsyncRuns`, `SharedBudget`, `TaskRuns`,
   `BatchRuns`): any number of threads or tasks with a program counter each. `Step` is one
   block, one semaphore, queue, event or budget operation, or one action of the outside
   world; an action that is not possible in a state leaves it unchanged, so every sequence
   of actions is a run. A timeout, an interrupt, a failing connect, a function that raises
   is an action that may come at any moment. `SharedBudget` puts pools of both kinds and the
   budget together; each host that a batch executes may carry a run of its internal pool.
3. **Invariants and results**: facts that every step keeps, by counting
   (`Counting.Total`), and the main theorems, which quantify over all runs.
   `BudgetOutcomes`, `PoolVerdicts` and `AsyncVerdicts` say, event by event and over
   whole runs, which answer of the outside world leads to which end of a call.

Recipes are read by a shell lexer written from sections 2.2, 2.3 and 2.6.2 of the
POSIX.1-2017 Shell Command Language (`Shell`); UTF-8 follows section 3 of RFC 3629 (`Output`).

## What turned out not to hold

Each of these is a theorem here, with the exact condition where there is one.

- A pool's live connections can exceed `max_connections` without bound while cleanup runs
  (`PoolGrowth.LimitFailsWithCleanup`, `PoolCapacity.OnlyMakingAdds`,
  `PoolCapacity.LimitExactly`).
- A cleanup whose check raises, or that is cancelled, drops the idle connections it was
  looking at: they stay tracked and open, but nobody is lent one until the pool is closed.
  They are the `orphans` of `PoolCapacity.ExclusiveLease` and `AsyncResults.ExclusiveLease`.
- The asynchronous pool can lose a permit for good: when a release is cancelled while it
  closes a connection whose check raised, which takes a client from a custom
  `client_factory` (`AsyncResults.PermitCanBeLost`, `AsyncResults.PermitsConserved`).
- `TaskRunner.close(wait=True)` can wait forever (`TaskClose.CloseCanHang`,
  `TaskClose.CloseReturns`).
- A placeholder inside quotes, behind a backslash or `$`, or in a comment can be misread,
  although the recipe documentation promises isolation for every template
  (`RecipeLimits.SafeExactly`).
- A variable name may end in a newline (`RecipeLimits.NewlineNameUnreferenced`).
- An upload can report an error although the new file is in place, and a timeout leaves
  the staging directory behind (`Upload.UploadFile`, `Upload.FailuresHappen`).
- Tags given as a tuple are kept by one storage backend and dropped by the other
  (`StoreResults.SaveAgrees`), and a database from before the profile foreign key keeps
  its dangling references (`StoreResults.ReferencesExist`).

## Modelling decisions

- Calls, connections, tasks and hosts are numbered; Python's reuse of `id()` is not modelled.
  A budget waiter is its call number, and `granted` is membership in a set; the pool's
  tracked list is a set, since the code uses it only by identity.
- The condition variable wakes all sleepers; a wake-up without cause is allowed.
- A pool without a budget is the pool whose slot requests are always granted at once.
- `closed` and its event are set in one block, as the code does under its lock.
- Ages, times and health checks are inputs of the step that looks at them.
- Budget callers behave as the two acquire methods do, but may be timed out or interrupted
  at any of their waits; the budget's callers are pools (`SharedBudget`) or anything that
  releases only what it holds.
- In the asynchronous pool a step is what one task does between two awaits; a few more
  interleavings than the event loop allows are included, never fewer. On a shared budget
  which of a pool's calls to the budget belongs to which task is left open.
- A host's execution may use its internal pool by any number of calls at once, and ends
  when all have returned, close_all among them.
- A close call on the task runner comes from outside its workers.
- In a batch the text of results and errors is a number, hosts are their places in the
  duplicate-free list, and a keyboard interrupt may come at every point of the collector loop.
- In storage, the columns that are only copied are one number; JSON encoding of tag lists
  is the identity on lists of values.

## Model

| member | source | states |
|---|---|---|
| `BudgetRuns.SlotAccounting` | remote_cmd/core/budget.py:148-206 | In every reachable state `in_use` is the number of slots held by callers plus those reserved for waiters on their way back, equals `total_acquired - total_released` and stays within the maximum; no slot is free beside a waiter; a granted waiter is not queued; the release of a held slot is never rejected; nobody is woken without a slot |
| `BudgetRuns.NoWaiterStranded` | remote_cmd/core/budget.py:172-193 | A caller that has not returned is still queued, or it has a slot or a set cancel event and has been woken: no lost wake-up for threads or tasks |
| `BudgetRuns.FirstComeFirstServed` | remote_cmd/core/budget.py:323-340 | When any step gives a caller a slot, no caller that arrived earlier is left in the queue |
| `BudgetRuns.LeavesWithinReleases` | remote_cmd/core/budget.py:164-170 | A waiter with k others ahead has left the queue for good once k + 1 slots have been released, whatever timeouts, cancellations and newcomers happen meanwhile |
| `BudgetRuns.FinishInv` | remote_cmd/core/budget.py:266-276 | The "woke without a reserved slot" RuntimeError is unreachable |
| `BudgetRuns.ReleaseInv` | remote_cmd/core/budget.py:195-206 | Releasing a held slot never raises and keeps every invariant |
| `BudgetOutcomes.DeadlineReturns` | remote_cmd/core/budget.py:172-193 | In every run, a thread that looks at the clock after its deadline has returned, is not queued and keeps no reserved slot; it has timed out, and that is counted, unless its wait raised, its pool was closed or it had a slot |
| `BudgetOutcomes.FailureReturns` | remote_cmd/core/budget.py:249-264 | In every run, a task whose wait timed out or was cancelled is back after its next block, not queued and without a slot |
| `BudgetOutcomes.OutcomesAreTrue` | remote_cmd/core/budget.py:148-276 | In every run an outcome means what it says: acquired a reserved or free slot and an open pool, closed a set event, timed out a deadline that passed before the wait succeeded, interrupted a wait that raised |
| `BudgetOutcomes.TimeoutsCounted` | remote_cmd/core/budget.py:177-182 | In every reachable state `total_timeouts` is the number of calls that have timed out |
| `BudgetOutcomes.BackForGood` | remote_cmd/core/budget.py:148-276 | A call that has returned keeps its outcome, whatever the other callers do |
| `BudgetQueue.DispatchServes` | remote_cmd/core/budget.py:323-340 | Dispatching serves a prefix of the queue, at least its head when a slot is free, and ends with all slots taken or the queue empty |
| `BudgetQueue.CancelTwice` | remote_cmd/core/budget.py:314-321 | Cancelling one waiter any number of times gives back at most one slot, exactly one if it was granted |
| `BudgetQueue.NotifyWakes` | remote_cmd/core/budget.py:282-295 | A close notification wakes every queued waiter whose cancel event is set, and completes no other future |
| `Budget.ConnectionBudget.DispatchWaiters` | remote_cmd/core/budget.py:323-340 | The dispatch loop, with its three ways to skip or serve the head, computes the `Dispatch` that `DispatchServes` is about |
| `Budget.ConnectionBudget.Cancel` | remote_cmd/core/budget.py:314-321 | Removes a waiter and returns a slot reserved for it in the same critical section |
| `Budget.ConnectionBudget.AcquireEnter` | remote_cmd/core/budget.py:161-170 | First block of acquire and acquire_async: closed if the event is set, a slot at once only if one is free and nobody waits, else queued |
| `Budget.ConnectionBudget.AcquirePoll` | remote_cmd/core/budget.py:172-187 | One turn of the waiting loop, over the state before it: an exception of the wait first, then the cancel event, then the reserved slot, then the deadline, else back to sleep with nothing else changed; only a deadline counts as a timeout, and a reserved slot that is not taken goes back |
| `Budget.ConnectionBudget.AcquireAbandon` | remote_cmd/core/budget.py:254-264 | A wait that timed out or was cancelled: the outcome, the one timeout counted, and the slot that goes back if one was reserved |
| `Budget.ConnectionBudget.AcquireResume` | remote_cmd/core/budget.py:266-276 | Last block of acquire_async: closed if the event is set, acquired with the reserved slot, and a slot that is not taken goes back |
| `Budget.ConnectionBudget.ReleaseSlot` | remote_cmd/core/budget.py:195-206 | release: refused exactly when nothing is in use and then changes nothing; else one slot is released and counted, and waiters are served |
| `Budget.ConnectionBudget.NotifyWaiters` | remote_cmd/core/budget.py:282-295 | The notification loop: all threads wake up, exactly the queued tasks whose cancel event is set are scheduled, and nothing else changes |
| `Budget.NotifyExactly` | remote_cmd/core/budget.py:282-295 | The same of the notification over any queue |
| `SharedBudget.GlobalCap` | remote_cmd/core/sync_connection_pool.py:254-326 | For any number of synchronous and asynchronous pools and direct callers sharing one budget, in every interleaving: `in_use` is exactly the tracked connections, the creators between budget acquire and transfer, the closers between untracking and release, the direct holders and the granted waiters; so all open connections together stay within the budget and no release raises ValueError |
| `PoolCapacity.ExclusiveLease` | remote_cmd/core/sync_connection_pool.py:151-249 | While the pool is open each tracked connection is in exactly one of: leased, free, one thread's hands, dropped by a cleanup whose check raised; so idle <= total |
| `PoolCapacity.NoSharedHands` | remote_cmd/core/sync_connection_pool.py:151-249 | No two threads hold the same connection, and none holds one that is leased or free |
| `PoolCapacity.PermitConservation` | remote_cmd/core/sync_connection_pool.py:125-249 | While open, permits plus permit-holding threads plus leases equal `max_connections` through every success, unhealthy, create-failure and exception path; the waiter count is the number of registered waiters |
| `PoolCapacity.LimitWithoutCleanup` | remote_cmd/core/sync_connection_pool.py:125-249 | In every run without cleanup, tracked connections together with those being made, and open connections, never exceed `max_connections` |
| `PoolCapacity.LimitExactly` | remote_cmd/core/sync_connection_pool.py:154-181 | That acquire stays within `max_connections` if and only if, before it, the connections cleanups have dropped or are holding are fewer than the permits that are free or with a thread that has nothing yet |
| `PoolCapacity.OpenWithinSlots` | remote_cmd/core/sync_connection_pool.py:254-326 | The connections a pool has open never outnumber the budget slots it accounts for |
| `PoolCapacity.OnlyMakingAdds` | remote_cmd/core/sync_connection_pool.py:154-181 | With cleanup running the limit can be exceeded at one branch only: an acquire that finds the free queue of an open pool empty and goes on to make a connection |
| `PoolGrowth.LimitFailsWithCleanup` | remote_cmd/core/sync_connection_pool.py:364-392 | For every `max_connections` and every k there is a run in which an open pool tracks k connections: cleanup hides idle connections from acquirers |
| `PoolClosing.CloseSafety` | remote_cmd/core/sync_connection_pool.py:419-442 | From the moment a pool is closed no acquire returns a connection, nothing enters the free queue or the tracked list, there is a permit for every thread blocked on the semaphore, and once close_all has returned nothing is tracked |
| `PoolSettling.TotalDecreases` | remote_cmd/core/sync_connection_pool.py:419-442 | In a closed pool every move of every call, whatever checks, connects and the budget say, uses up a measure: no run of the calls goes on forever |
| `PoolSettling.CloseSettles` | remote_cmd/core/sync_connection_pool.py:419-442 | From every reachable state, whoever is in the middle of a call: once close_all is called, all calls can return without an interrupt, those blocked on the semaphore included |
| `PoolVerdicts.VerdictDecides` | remote_cmd/core/sync_connection_pool.py:162-232 | What each answer of a health check, a connect, the check of release and a look of the cleanup leads to |
| `PoolVerdicts.LentWasFit` | remote_cmd/core/sync_connection_pool.py:151-191 | In every run, whoever is lent a connection has found it fit in that very call: a good health check, or just connected |
| `PoolVerdicts.IdleWasFit` | remote_cmd/core/sync_connection_pool.py:193-249 | In every run, a connection becomes idle only by a thread that has found it fit in that very call of release or cleanup |
| `PoolVerdicts.ConnectsWhileOpen` | remote_cmd/core/sync_connection_pool.py:254-262 | Only an open pool begins to connect a client, and only with its budget slot in hand |
| `PoolVerdicts.HeldUntilClosed` | remote_cmd/core/sync_connection_pool.py:193-249 | In every run, a call of a closed pool keeps what it has taken out of the books until it has disconnected it, unless a look of a cleanup raises |
| `PoolVerdicts.ReleaseDecides` | remote_cmd/core/sync_connection_pool.py:193-232 | What each call of release does to the books and what it goes on to |
| `PoolVerdicts.OpenUntilDisconnected` | remote_cmd/core/sync_connection_pool.py:254-326 | A connection that was handed over is open from then on exactly until it is disconnected |
| `SyncPool.SyncConnectionPool.DrainFree` | remote_cmd/core/sync_connection_pool.py:369-375 | Cleanup empties the free queue in order |
| `SyncPool.SyncConnectionPool.RestoreKept` | remote_cmd/core/sync_connection_pool.py:385-390 | Cleanup puts the kept connections back in order |
| `SyncPool.SyncConnectionPool.CloseAll` | remote_cmd/core/sync_connection_pool.py:421-437 | The closing block: wake-up permits, leases moved aside, free queue drained |
| `SyncPool.SyncConnectionPool.Acquire` | remote_cmd/core/sync_connection_pool.py:125-191 | acquire without interleavings, with its loop over the free queue: nothing from a closed or exhausted pool; else the longest idle connection that is fit, the unfit ones before it closed, or a new one if none is left; none if a check raises or the connect fails; permits and books stay balanced on every path |
| `SyncPool.SyncConnectionPool.Release` | remote_cmd/core/sync_connection_pool.py:193-249 | release without interleavings: what is not lent out changes nothing; a fit connection goes to the end of the free queue; any other is closed; the lease is gone and its permit is back, also when the check raises |
| `SyncPool.SyncConnectionPool.CloseConnections` | remote_cmd/core/sync_connection_pool.py:419-442 | close_all without interleavings: nothing is tracked, free or lent out, and leases are remembered as leases of a closed pool |
| `SyncPool.BalancedLimit` | remote_cmd/core/sync_connection_pool.py:125-249 | Whenever the books are balanced, as each of these calls leaves them, an open pool has as many connections as are lent out or idle, and at most `max_connections` |
| `SyncPool.SyncConnectionPool.CleanupExpired` | remote_cmd/core/sync_connection_pool.py:364-392 | _cleanup_expired without interleavings: the fit idle connections stay, in order, exactly the unfit ones are closed; if a look raises, the rest stay tracked but none is idle |
| `AsyncResults.ExclusiveLease` | remote_cmd/core/async_connection_pool.py:142-258 | While the asynchronous pool is open each tracked connection is in exactly one of: leased, free, one task's hands, dropped by a cut-short cleanup; so idle <= total |
| `AsyncResults.PermitsConserved` | remote_cmd/core/async_connection_pool.py:142-258 | In every run, permits plus permit-holding tasks plus leases of an open pool equal `max_connections` less the number of steps that cancel a release while it closes a connection whose check raised: no other path and no other cancellation loses one |
| `AsyncResults.PermitCanBeLost` | remote_cmd/core/async_connection_pool.py:225-231 | For every `max_connections` there is a run after which the pool is open and idle with one permit less: the except branch releases the permit only after its await. It takes an `is_connected` that raises, as only a client of a custom `client_factory` can |
| `AsyncResults.SlotsExact` | remote_cmd/core/async_connection_pool.py:263-357 | The budget slots granted to a pool and not released are exactly those of its tracked connections, of clients being connected or dropped and of connections being closed; no slot is released that the pool does not have, whatever is cancelled |
| `AsyncResults.LimitWithoutCleanup` | remote_cmd/core/async_connection_pool.py:142-258 | In every run without cleanup, of open and closed pools, connections that are tracked, being made or still being disconnected number at most `max_connections` |
| `AsyncClosing.CloseSafety` | remote_cmd/core/async_connection_pool.py:439-497 | From the moment the pool is closed no acquire returns a connection, nothing is tracked or put into the free queue, there is a permit for every waiting task, and once a close_all call has come to its end, normally or by re-raising its cancellation, nothing is tracked |
| `AsyncClosing.ClosedByOne` | remote_cmd/core/async_connection_pool.py:439-507 | close_all is carried out by exactly one task at a time, the first caller or the recovery task, which has every connection that is still tracked before it |
| `AsyncVerdicts.CheckDecides` | remote_cmd/core/async_connection_pool.py:176-197 | A task gets the connection it checks if and only if the check is good and the pool open; else the connection is closed |
| `AsyncVerdicts.ScanDecides` | remote_cmd/core/async_connection_pool.py:384-413 | A cleanup keeps a connection found fit, closes one found unfit, and drops the rest if a look raises |
| `AsyncVerdicts.ReleaseDecides` | remote_cmd/core/async_connection_pool.py:202-258 | What each call of release does to the books and what it goes on to |
| `AsyncVerdicts.CreationDecides` | remote_cmd/core/async_connection_pool.py:263-312 | A client is connected only if its slot was granted to an open pool, and lent only if the pool is still open; else it is dropped |
| `AsyncVerdicts.LentWasFit` | remote_cmd/core/async_connection_pool.py:142-200 | In every run, whoever is lent a connection has found it fit in that very call |
| `AsyncVerdicts.IdleWasFit` | remote_cmd/core/async_connection_pool.py:202-258 | In every run, a connection becomes idle only by a release that finds it fit or a cleanup that has found it fit |
| `AsyncVerdicts.ScanEnds` | remote_cmd/core/async_connection_pool.py:384-413 | At the end of a scan the kept connections are idle again, or closed one by one if the pool was closed meanwhile |
| `AsyncPool.AsyncConnectionPool.ResumeAcquire` | remote_cmd/core/async_connection_pool.py:156-173 | From the semaphore to the first free connection in one block |
| `AsyncPool.AsyncConnectionPool.ForgetConnection` | remote_cmd/core/async_connection_pool.py:334-344 | A connection is forgotten before it is disconnected, and reported as tracked at most once |
| `AsyncPool.AsyncConnectionPool.AdoptClient` | remote_cmd/core/async_connection_pool.py:273-283 | A connected client is tracked and leased without another await |
| `AsyncPool.AsyncConnectionPool.ReleaseLease` | remote_cmd/core/async_connection_pool.py:202-252 | release up to its first await, over the state before it: what is not lent out changes nothing; a fit connection of an open pool is idle at once with its permit; an unfit one, one whose check raised and one of a closed pool is forgotten and closed on its own path |
| `AsyncPool.AsyncConnectionPool.BeginCloseAll` | remote_cmd/core/async_connection_pool.py:439-472 | close_all up to its first await: waits for the recovery task, else for the first caller, else returns if all is done, else starts with a wake-up permit for each waiter, leases moved aside and nothing idle |
| `TaskResults.SlotAccounting` | remote_cmd/service/task_runner.py:160-223 | Permits, slotted tasks and submitters between semaphore and lock always add up to `max_workers`; the active count is the number of slotted tasks, each queued or owned by one thread; submitter and worker counts are exact |
| `TaskResults.ReleasedOnce` | remote_cmd/service/task_runner.py:632-640 | Each slot is released exactly once, taken at most once per task, and `put_nowait` always finds room |
| `TaskResults.QueuedOnce` | remote_cmd/service/task_runner.py:195-195 | The queue holds each task at most once and only tasks with a slot |
| `TaskResults.RunningAtMostMax` | remote_cmd/service/task_runner.py:570-585 | At most `max_workers` tasks are RUNNING |
| `TaskResults.WorkerAvailability` | remote_cmd/service/task_runner.py:520-568 | While the runner is open and thread starts succeed there is a worker without a slot for every queued task |
| `TaskResults.RunsAtMostOnce` | remote_cmd/service/task_runner.py:496-518 | Each task function is started at most once; a task that ended as SUCCESS or FAILED never had its cancel flag set |
| `TaskResults.AvailableWhenStartsSucceed` | remote_cmd/service/task_runner.py:520-568 | The same for every run in which threads can be started when they are needed |
| `TaskEnds.EndIsFinal` | remote_cmd/service/task_runner.py:271-311 | Terminal states are absorbing: whatever happens later, an ended task keeps its status until it is removed, and a removed task never comes back |
| `TaskEnds.CancelIsKept` | remote_cmd/service/task_runner.py:271-311 | If cancel returned True the task can only ever end as CANCELLED, whether it was pending, queued, waiting for a slot or running, and whether its function returns or raises |
| `TaskEnds.OutcomeIsTrue` | remote_cmd/service/task_runner.py:496-518 | When a task function comes out its task is RUNNING, and its worker's next step makes it CANCELLED if the flag is set, else SUCCESS if the function returned and FAILED if it raised |
| `TaskEnds.InterruptedSubmit` | remote_cmd/service/task_runner.py:162-180 | A submit whose wait for a slot raises leaves its task FAILED (CANCELLED when interrupted or cancelled before), signalled and never run |
| `TaskWaits.WaitSafety` | remote_cmd/service/task_runner.py:367-403 | While a thread waits for a task, cleanup cannot remove it, and its event is set, or it has not ended, or the worker that ended it is still to set the event |
| `TaskWaits.WaitResults` | remote_cmd/service/task_runner.py:388-403 | wait_for returns a snapshot of an ended task, times out, or raises KeyError at the start; never a late KeyError |
| `TaskWaits.EventMeansEnded` | remote_cmd/service/task_runner.py:624-630 | A completion event is set only for tasks that have ended |
| `TaskWaits.CleanupExactly` | remote_cmd/service/task_runner.py:431-470 | The same of cleanup_old as a step of any run |
| `TaskClose.CloseReturns` | remote_cmd/service/task_runner.py:225-255 | A close(wait=True) that has not returned can still return, its joins of the workers included, if and only if no item is queued or some worker will look at the queue again |
| `TaskClose.DoomIsDecided` | remote_cmd/service/task_runner.py:542-557 | Nothing that happens after the close changes whether it can return |
| `TaskClose.SomeoneReady` | remote_cmd/service/task_runner.py:246-255 | No deadlock: while a call of close waits or joins in a runner that is not doomed, some thread can move |
| `TaskClose.CloseCanHang` | remote_cmd/service/task_runner.py:551-557 | For every number of workers there is a run in which close(wait=True) never returns: the last worker retires because the runner is closed while an item is queued |
| `TaskClose.WorkRunsOut` | remote_cmd/service/task_runner.py:520-568 | In a closed runner every move of every thread uses up a measure, and nothing but new calls of wait_for and close adds to it: no run goes on forever |
| `TaskRunner.TaskRunner.StartWorkers` | remote_cmd/service/task_runner.py:520-540 | The loop that starts workers until there are enough or a start fails |
| `TaskRunner.TaskRunner.PlaceTask` | remote_cmd/service/task_runner.py:182-206 | submit with its slot: given up exactly if the task is gone, cancelled or flagged or the runner closed; else queued, or ended if no worker runs or the queue is full |
| `TaskRunner.TaskRunner.CancelPending` | remote_cmd/service/task_runner.py:412-425 | The loop that cancels: exactly the pending tasks become CANCELLED, flagged and signalled |
| `TaskRunner.TaskRunner.CloseRunner` | remote_cmd/service/task_runner.py:235-243 | Closes once and cancels what is pending |
| `TaskRunner.TaskRunner.RemoveOld` | remote_cmd/service/task_runner.py:441-470 | A task is removed if and only if it has ended, is old enough and has no registered waiter; every other task keeps status, event and flag, and the count is that of the removed ones |
| `TaskRunner.CancelOneMore` | remote_cmd/service/task_runner.py:238-243 | Cancelling the pending tasks one by one is cancelling them all at once |
| `TaskRunner.TaskRunner.SubmitTask` | remote_cmd/service/task_runner.py:119-223 | A task is queued with a slot and a worker if and only if the runner is open, a slot is free, the queue has room and a worker runs or can be started; otherwise it has ended and been signalled, or was refused by a closed runner, and holds no slot |
| `TaskRunner.TaskRunner.ExecuteTask` | remote_cmd/service/task_runner.py:486-518 | _execute_wrapper without interleavings: the function runs if and only if the task is pending and not flagged; afterwards it has ended, as a success or failure only if not cancelled meanwhile, its event is set and its slot is back, and no other task is touched |
| `TaskRunner.TaskRunner.RunWorker` | remote_cmd/service/task_runner.py:542-568 | The worker loop runs the queued tasks in order, each one that is pending and unflagged once; afterwards each has ended as CANCELLED, FAILED or SUCCESS as its cancellation and its function decide, and every slot is back |
| `TaskRunner.TaskRunner.WaitForTask` | remote_cmd/service/task_runner.py:367-403 | wait_for without interleavings leaves no trace and gets the status of a task whose event is set |
| `BatchResults.HostsAreConserved` | remote_cmd/service/batch_executor.py:296-368 | Until the batch is stopped each host is in exactly one place: unclaimed, with one worker, queued, with the collector, or collected; never in two, even after a stop |
| `BatchResults.OneResultPerHost` | remote_cmd/service/batch_executor.py:356-380 | A batch that returns has exactly one result per host; each is what the host's own execution returned or says that the user interrupted |
| `BatchResults.ProgressReports` | remote_cmd/service/batch_executor.py:358-366 | Callbacks count 1, 2, 3, ..., never twice for a host; without interruption once for each host |
| `BatchResults.ConnectionsWithinConcurrency` | remote_cmd/service/batch_executor.py:516-610 | However the hosts use their internal pools, which are runs of the pool with `max_connections=1`: at most `max_concurrency` connections are open in all of them, at most one for each host being executed, and none for a host whose execution has ended |
| `BatchResults.SomeoneMoves` | remote_cmd/service/batch_executor.py:300-368 | No deadlock with the bounded completion queue: as long as the calling thread has not left, it or some worker can on its own go on to a state with less left to do |
| `BatchResults.StepDecreases` | remote_cmd/service/batch_executor.py:313-340 | Every step but those of the hosts' internal pools uses up a measure, so no run goes on forever |
| `BatchResults.BatchEnds` | remote_cmd/service/batch_executor.py:278-380 | From every reachable state, also after interrupts and failed thread starts and in the middle of any use of an internal pool, the batch can end |
| `BatchResults.ResultsAreAnswers` | remote_cmd/service/batch_executor.py:296-380 | Each result of a batch is the answer, with success and output, that the host's own execution gave at a step of the run, or says that the user interrupted a stopped batch |
| `BatchResults.StopEndsClaims` | remote_cmd/service/batch_executor.py:296-340 | After a stop no host is claimed but by worker calls that had already looked at the stop flag |
| `BatchResults.WorkersAndQueue` | remote_cmd/service/batch_executor.py:278-311 | At most concurrency and at most as many worker calls as hosts, exactly the smaller of the two once collecting has begun; the result queue stays within its bound |
| `Batch.Deduplicate` | remote_cmd/service/batch_executor.py:208-210 | Every name once, in the order of first occurrence |
| `Batch.BatchRun.HandleInterrupt` | remote_cmd/service/batch_executor.py:443-463 | The loop that gives every host without a result a failure record |
| `Batch.FilledEach` | remote_cmd/service/batch_executor.py:455-463 | Results that exist are kept; exactly the missing hosts get the interrupted record |
| `Batch.Summarize` | remote_cmd/service/batch_executor.py:465-482 | success is the number of hosts that ran with success, success + failed = total, and failed is the number of the other hosts exactly when there is one result per host |
| `Batch.ExecuteOnHost` | remote_cmd/service/batch_executor.py:484-610 | Which attempts are made; each ends as its command exactly if a connection was had and its release did not raise; the last answer, the last error, an uncaught exception or a broken pause is what comes of the host, case by case; a pool of its own is closed and empty on every way out, a pool of the caller stays open and gets back what it lent |
| `Batch.BatchRun.RunAlone` | remote_cmd/service/batch_executor.py:296-368 | One worker and the collector in turns: every host is claimed in order, its result goes through the queue and is recorded, and the callbacks count 1 to n |
| `Batch.AttemptOver` | remote_cmd/core/sync_connection_pool.py:399-417 | with pool.acquire_context(): the command's ending if the pool gives a connection and takes it back without raising, else the failure; nothing more is lent out afterwards than before |
| `RecipeLimits.SafeExactly` | remote_cmd/core/recipe.py:4-23 | For every template: the rendered command is read by a POSIX shell lexer as meant, for all values, if and only if each placeholder stands outside quotes (a literal one also not behind a backslash, `$`, parameter name or comment start) |
| `RecipeLimits.EnvironmentIsReferenced` | remote_cmd/core/recipe.py:236-244 | The environment's keys are exactly the referenced variables of type env, all shell names, with their resolved values |
| `RecipeLimits.NewlineNameUnreferenced` | remote_cmd/core/recipe.py:56-59 | The name check also accepts a shell name followed by a newline (the documentation says it does not); no placeholder can refer to such a name |
| `RecipeSafety.RenderedReadsAsMeant` | remote_cmd/core/recipe.py:196-248 | For safe templates and all values the words of the rendered command are the template's words with each placeholder contributing exactly its value |
| `RecipeSafety.ValuesKeepStructure` | remote_cmd/core/recipe.py:19-23 | No value can add, join, split or drop a word or an operator |
| `RecipeSafety.EnvironmentCarriesValues` | remote_cmd/core/recipe.py:236-248 | Under the produced environment the quoted `"$NAME"` references expand to the literal values |
| `RecipeResults.PlaceholderSound` | remote_cmd/core/recipe.py:58-59 | The scanner accepts only placeholders |
| `RecipeResults.PlaceholderComplete` | remote_cmd/core/recipe.py:58-59 | It accepts every placeholder, whole, whatever follows |
| `RecipeResults.ScanIsExact` | remote_cmd/core/recipe.py:247-247 | Splitting a template loses nothing, every hole is a placeholder, and no placeholder starts in a text character: leftmost matches, one pass |
| `RecipeResults.HoleMeans` | remote_cmd/core/recipe.py:238-245 | Where its mode suits its kind, the text of a placeholder is read as what the placeholder means |
| `Shell.QuoteIsLiteral` | remote_cmd/core/recipe.py:245-245 | Lexing a quoted string anywhere outside quotes adds exactly its characters, each standing for itself |
| `Shell.QuoteIsOneWord` | remote_cmd/core/recipe.py:245-245 | A quoted string is one word, the string itself: unquote(quote(s)) == s |
| `Shell.QuoteInjective` | remote_cmd/core/recipe.py:245-245 | No two values are quoted alike |
| `Recipe.CreateRecipe` | remote_cmd/core/recipe.py:137-165 | A recipe is made exactly when its name and template are not blank, its tags are strings, each variable is declared under its own name and every placeholder is declared; otherwise the error is that of the first check that fails, each stated by its own condition |
| `Recipe.FindUndeclared` | remote_cmd/core/recipe.py:156-160 | The loop over the matches collects exactly the undeclared names |
| `Recipe.ResolveValues` | remote_cmd/core/recipe.py:220-230 | A variable is missing if and only if it is required, has no default and is not supplied; every other one has its supplied value, else its default, else nothing |
| `Recipe.SubstituteSegment` | remote_cmd/core/recipe.py:238-245 | What one placeholder is replaced by, and what it exports |
| `Recipe.Substitute` | remote_cmd/core/recipe.py:236-248 | The single pass renders every segment and collects the environment |
| `Recipe.RenderRecipe` | remote_cmd/core/recipe.py:196-248 | Unknown names exactly if a supplied name is not declared, missing names exactly if a required variable has neither value nor default, and then exactly those; else the rendered command with its environment over the resolved values |
| `Recipe.CheckEntries` | remote_cmd/core/recipe.py:147-154 | The first entry that is no declaration, or is declared under another name, is reported with its key and its kind of fault; without one the declared variables are returned |
| `Upload.UploadFile` | remote_cmd/core/ssh_client.py:977-1052 | With any operation failing, the target never holds a partial file; success means the complete new file with the old mode; an error means what was there is still there, but for three cases: the old file is in the backup only, or the new file is in place. Which of the five ends comes about is decided exactly (if and only if) by what fails and what was at the target; other paths are untouched and the staging area is cleaned up unless a timeout or a failed clean-up prevents it |
| `Upload.CommitUpload` | remote_cmd/core/ssh_client.py:130-191 | Every intermediate state has the old file, the whole new file, or the old file in the backup; committed, stranded and unnoticed ends each come about exactly under their condition on the faults and the old file |
| `Upload.ReplaceWithBackup` | remote_cmd/core/ssh_client.py:175-191 | The fallback strands the old file in the backup exactly when both the second rename and the restore fail, and reports an error for a committed file exactly when removing the backup raises an error its handler lets pass |
| `Upload.Stage` | remote_cmd/core/ssh_client.py:1015-1023 | Only the staging directory is touched, and the staged file is complete unless there is an error |
| `Upload.Discard` | remote_cmd/core/ssh_client.py:1039-1052 | Clean-up touches nothing but the staging area, and what it leaves there is decided by which of its operations fails; an interrupt ends it |
| `Upload.PutInPlace` | remote_cmd/core/ssh_client.py:1013-1033 | The same for staging, commit and removal of the staging directory |
| `Upload.FailuresHappen` | remote_cmd/core/ssh_client.py:130-191 | For every regular file with a known mode there are faults with which its upload leaves it in the backup only, reports an error although the new file is in place, and does so after the commit |
| `Upload.ResolvesRightly` | remote_cmd/core/ssh_client.py:94-127 | The target, case by case: of a path that is no link its own node decides, of a link the node it leads to; what is not there is created, a directory refused, any other error passed on |
| `Upload.ConditionsSpelledOut` | remote_cmd/core/ssh_client.py:130-191 | The conditions for a commit that is done, strands the old file or reports an error late, in terms of the single operations that fail |
| `Drain.ReadOutput` | remote_cmd/core/ssh_client.py:522-644 | Returns exactly all bytes of both streams, in order, with the exit status, however packets are mixed and delayed under the channel window; it times out only if the deadline comes before everything can have been read |
| `Drain.Poll` | remote_cmd/core/ssh_client.py:583-627 | Each round reads every stream that is ready, and makes progress or ends |
| `Drain.PollStdout` | remote_cmd/core/ssh_client.py:593-598 | Standard output is read once if ready, nothing is lost |
| `Drain.PollStderr` | remote_cmd/core/ssh_client.py:599-603 | Standard error likewise |
| `Drain.PollExit` | remote_cmd/core/ssh_client.py:605-627 | The status is taken only when nothing is left to read; otherwise a client that read nothing waits |
| `Output.TruncateOutput` | remote_cmd/service/_host_runner.py:89-114 | Output within the limit is returned unchanged; otherwise the longest prefix of whole characters within the limit (fewer than four bytes of room wasted) and the marker, whose digits are the numeral of exactly the missing bytes |
| `Output.DecodePrefix` | remote_cmd/service/_host_runner.py:110-110 | Cutting the UTF-8 encoding at any byte and decoding with errors ignored gives the characters that fit whole |
| `Output.DecodeAll` | remote_cmd/service/_host_runner.py:107-110 | Decoding undoes encoding |
| `Output.PrefixIsUnique` | remote_cmd/service/_host_runner.py:110-114 | The kept prefix and the result are determined by the text and the limit |
| `Output.DecimalReads` | remote_cmd/service/_host_runner.py:113-114 | The number in the marker is written in decimal digits without leading zeros, and reads as the number |
| `StoreResults.IndexAlwaysExact` | remote_cmd/repository/sqlite_host_repository.py:250-293 | After backfill or from a new database, and any sequence of save, delete, profile operations and reopening, `host_tags` holds exactly the pairs of a host and a string in its stored tag list |
| `StoreResults.ListsAgree` | remote_cmd/repository/sqlite_host_repository.py:695-711 | SQLite's indexed list(tag) is the name-sorted result of the JSON backend's filter: same hosts, each once |
| `StoreResults.TagListsAgree` | remote_cmd/repository/sqlite_host_repository.py:713-717 | Both list_tags return the same sequence |
| `StoreResults.SaveAgrees` | remote_cmd/repository/json_host_repository.py:399-407 | A saved host is read back alike from both backends if and only if its tags are not a tuple that holds a string (SQLite keeps such tags, JSON drops them) |
| `StoreResults.ReferencesExist` | remote_cmd/repository/sqlite_host_repository.py:307-347 | Exactly which profile references dangle after any operations: those of the file whose host has not been saved or deleted since and whose profile has not been created; so none do if none did, but the rebuild that adds the foreign key keeps those it finds |
| `StoreResults.PagesAddUp` | remote_cmd/repository/sqlite_host_repository.py:981-1027 | The pages of a listing, concatenated, are the listing |
| `StoreResults.IndexRepaired` | remote_cmd/repository/sqlite_host_repository.py:250-263 | Whatever the index of an opened file holds, it is exact for each host that has been saved or deleted since, and stays so for each host for which it was |
| `HostStore.SqliteRepository.constructor` | remote_cmd/repository/sqlite_host_repository.py:265-293 | Opening backfills the index in a loop when its table is new, and leaves it alone otherwise |
| `HostStore.SqliteRepository.ReplaceHostTags` | remote_cmd/repository/sqlite_host_repository.py:250-263 | The insertion loop leaves exactly the host's distinct string tags and never meets an existing key |
| `HostStore.SqliteRepository.SaveHost` | remote_cmd/repository/sqlite_host_repository.py:604-653 | Upserts the row and its index, or raises for an unknown profile and changes nothing; afterwards the index is exact for the host and its reference is good, and both stay so for every other host |
| `HostStore.SqliteRepository.DeleteHost` | remote_cmd/repository/sqlite_host_repository.py:686-693 | Afterwards no query lists the host, the index is exact for it, and every other host is selected by the same tags as before |
| `HostStore.SqliteRepository.SaveProfile` | remote_cmd/repository/sqlite_host_repository.py:737-763 | Afterwards exactly the dangling references to this profile are good, and no other reference is touched |
| `HostStore.SqliteRepository.RemoveProfile` | remote_cmd/repository/sqlite_host_repository.py:773-787 | A profile that is reported as deleted is gone and no host refers to it; it is refused only if some host does; hosts and other profiles stay, and no reference starts or stops to dangle |
| `HostStore.SqliteRepository.ListHosts` | remote_cmd/repository/sqlite_host_repository.py:695-711 | The names of all hosts, or of those the index has under the tag, in ascending order |
| `HostStore.SqliteRepository.ListTags` | remote_cmd/repository/sqlite_host_repository.py:713-717 | The distinct tags in order |
| `HostStore.SqliteRepository.ListPaginated` | remote_cmd/repository/sqlite_host_repository.py:981-1027 | Exactly the slice of the full listing from the offset on, at most limit names, and the length of the listing; a negative limit is none, a negative offset zero |
| `JsonStore.JsonRepository.SaveHost` | remote_cmd/repository/json_host_repository.py:92-100 | The saved host is stored with the strings of its tag list in order, every other host is kept; listings keep their order, and a new host comes last |
| `JsonStore.JsonRepository.DeleteHost` | remote_cmd/repository/json_host_repository.py:107-110 | The host is gone, reported as found exactly if it was there, every other host is kept, and every listing loses only this one |
| `JsonStore.JsonRepository.ListTags` | remote_cmd/repository/json_host_repository.py:118-123 | The sorted set of all string tags |
| `JsonStore.FilteredExact` | remote_cmd/repository/json_host_repository.py:112-116 | The tag filter keeps exactly the hosts whose list holds the tag; an empty tag is no filter |

## Left out

- KeyboardInterrupt between any two instructions of the pools and the task runner: interrupts come at blocking calls and inside functions that may raise.
- Cancellation of the recovery task of the asynchronous close_all itself, and the order in which a semaphore lets its waiters through.
- The asynchronous batch executor: the same contract as the synchronous one.
- Paramiko, asyncssh, sockets, real SFTP and SQLite: clients connect and fail at will, the remote file system is a map, tables are maps and sets with their keys and foreign keys.
- Real time, threads and event loops: a timeout is a step that may come at any moment.
- Credentials, encryption, the command line, formatters, logging and configuration loading.
- Shell grammar beyond words: reserved words, assignments in command position, a number before a redirection, the inside of `$(...)` and backquotes as separate programs, brace and tilde expansion.
- Concurrent writers on the remote file system during an upload, and operations that fail after taking effect.
- The decoding of drained output with replacement characters.
- Batch: `max_concurrency` workers reusing pool threads, and the result of a worker call's own exception outside a host's execution.
- Batch.AttemptOver: the pool's other callers, which the runs of the pools have, are not there.
- Host search, migration from JSON and the row columns that storage copies.
- TaskRunner.TaskRunner.RemoveOld: the age of a task is an input, because clocks are.
- Drain.ReadOutput: the deadline is a number of polling rounds, because real time is not modelled.
- Upload.UploadFile: the path that a symbolic link resolves to is the server's answer, an input.
