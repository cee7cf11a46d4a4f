# TrustGate: a model and its proofs

TrustGate is a marketplace for paid tasks. A requester posts a task, executors bid and lock collateral in an escrow,
the cheapest bid is selected, and the task ends with the escrow released to the executor or confiscated. The release
runs in a worker: the API writes an outbox row, a publisher copies it to a Redis stream, and the worker reads the
stream, keeps one consumption row per (handler, event), and retries what failed.

This project models the parts of TrustGate whose correctness does not show in any single function and proves what they
promise. `dafny verify dfyconfig.toml` checks everything.

## What is modelled

**Delivery protocol** (`Types`, `Consumption`, `Outbox`, `Market`, `Protocol`). One transition system holds the clock, the task
and bid stores, the outbox, the stream with its delivered mark and pending entries, the consumption rows and the
worker's program counter. Every `await` of the worker is a step of its own. A step carries the outcome of the call it
waits for: it worked, it failed, or it worked and the reply was lost. The process may stop between any two steps. API
handlers, the timeout sweep and the clock take steps in between. The state also carries a history (dispatches, starts,
releases, what was cut off where) that no step reads; the theorems are stated with it.

* `Delivery`, `NoLoss`, `LossExamples`: the invariant, where every event is, and exactly which step loses one.
* `Publishing`: the outbox query, and what one pass of the publisher does to every outbox row.
* `Fleets`, `FleetSettlement`: any number of workers in any interleaving; the attempt budget, and who is paid then.
* `Success`, `Schedule`: SUCCEEDED is absorbing; the backoff schedule.
* `DueList`, `Progress`, `Starvation`, `StarvationExample`: the due-retry query, what one pass over its answer does to
  every row, how many passes can make progress, when a handler starves, and a run in which one does.
* `WorkerLoop`, `TickScript`, `Ticks`: the whole tick as statements on fields, with `try`, `catch` and `finally` spelled
  out, and arbitrary API requests and timer callbacks at every `await`. Every method is proved to extend the run it was
  called in by steps of the transition system, and its contract says which calls these are, in which order and with
  which outcomes. So the theorems about two points of a run hold of the worker before and after a tick.

**Marketplace and settlement** (`Lifecycle`, `SettlementProofs`, `Guarantees`, `Provenance`, `Api`, `SettlementExample`).
The lifecycle of tasks and bids, who may move them on, which bid wins, and its composition with the protocol: who is paid, how often, and what a SUCCEEDED row
says about the task. `Api` has the handlers and the timeout sweep as methods over the stores,
each proved to take the corresponding step of the transition system.

**Escrow contract** (`EscrowContract`, `EscrowProofs`, `EscrowStorage`, `MapSum`). The Soroban contract with many
escrows, token ledgers, i128 arithmetic and rollback. `EscrowStorage` has its calls as methods that update storage in
place and roll back, proved equal to the functions the theorems are about.

**Codecs** (`Money`, `Canonical`). Decimal amounts to stroops and back, the listing fee, the JSON canonicalizer.

**Timed stores and bounded retry** (`RateWindow`, `Auth`, `AuthProofs`, `AuthStore`, `Idempotency`, `Retry`). Fixed-window
counters (a limit of 60 a window lets 119 calls into some closed minute, and never more), one-time nonces, idempotency keys, and `withRetry` under webhook delivery.

## Assumptions

* There is one monotone clock, and a nonce check and its write share one reading of it.
* The stream stays under its trim threshold (src/services/outboxPublisher.ts:31).
* The transition system lets a claim return any idle pending entries, at most 20. The worker's own method follows the
  cursor and the `claiming` guard of src/services/eventConsumer.ts:87-112, as XAUTOCLAIM of Redis 7 scans: entries in order
  from the cursor, 20 claimed or 200 looked at.
* "Single worker" means one live process. That its ticks do not overlap is proved: `WorkerLoop.Worker.Await` may call
  `RunTick` at any point of a tick, and the `running` guard is what makes that harmless.
* The escrow provider returns fresh escrow ids, and random ids are not in use already.
* One consumption row is changed by one atomic update at a time, as its row lock and single statements give.
* API handlers are atomic. That is sound for the worker's view because no API handler writes a COMPLETING task.
* All escrows of a contract run use one token, because the contract stores a single token key
  (contracts/escrow/src/lib.rs:128). `EscrowProofs.TwoTokensTrapEscrow` shows what happens otherwise.
* The token lets every party receive what it is paid: no missing trustline, no freeze. `EscrowProofs.GuaranteedExit` and
  `EscrowProofs.ReleasePays` need this of the requester and the executor.
* The contract never authorizes a call itself, and the token's supply stays within i128.
* An escrow id is some function of nonce and executor; the contract hashes the nonce with the length of the executor's
  address.

## Where the code and its documentation differ

The model follows the code.

* README.md:200 says the API writes its tables and the outbox in one transaction. `complete` awaits the task save and the
  event insert separately (src/controllers/taskController.ts:296-302), so a task can be COMPLETING without an event.
  `Guarantees.OneEventPerCompletion` states exactly when that is the case, and `SettlementExample.CompletingWithoutEvent` is
  a run of three requests that ends there.
* docs/adr/0001-outbox-worker-idempotency.md:17 promises at-least-once delivery. An event is lost when `markFailed` throws
  on a stream path, because the `finally` still acknowledges the entry, and when the retry loop is left between `tryStart`
  and the mark. `NoLoss.LostExactlyBy` and `NoLoss.NoEventLost` prove that these are the only steps that take an event out of
  the stream, the retry loop's hand and the rows that are not PROCESSING, and `LossExamples` gives the runs. A FAILED row
  with attempts left does not count as lost; how the retry loop can pass over it for ever is the next point, and rows of
  event types without a handler it never lists at all.
* The due-retry query does not leave out rows that are out of attempts, so 25 of them ahead of a handler's other rows
  starve it. `DueList.ListReachesExactly` gives the exact condition on the table, `StarvationExample.StarvesAfter25` a run
  that gets there for every attempt limit above 1, and `Starvation.StarvedForGood` and `Starvation.NeverAgain` show that it
  lasts: a failed event with attempts left is never dispatched again.
* An XAUTOCLAIM that fails leaves `claiming` set (src/services/eventConsumer.ts:88-98): the assignment stands before the
  call and the `finally` after it. From then on the process never claims again, so entries that were pending when another
  process died stay undelivered until a restart (`WorkerLoop.Worker.AutoClaimOnce`, `WorkerLoop.TickOnce`).
* With client nonces enabled, a nonce the server issued is admitted a second time as a client nonce
  (`AuthProofs.IssuedNonceReplays`).
* An idempotency key replays an answer only once the insert that follows it has landed, and nothing waits for that insert
  (src/middlewares/idempotency.ts:75-88). A request that is sent after the first one was answered can still run the handler
  again (`Idempotency.SequentialExecutesTwice`), as overlapping ones can; `Idempotency.ReachesHandlerExactly` is the exact
  condition. Answers that do not go through `res.json` leave no record, so they never stop a repetition
  (`Idempotency.ReexecutedExactly`).
* The comment at src/services/webhookService.ts:51 promises a retry for any exception of `fetch`. The code looks for known
  words in its type or message: `Retry.RetriedExactly` states when it retries, and `Retry.BrokenOffIsNotRetried` gives an
  exception it does not retry.

## Model

| member | source | states |
|---|---|---|
| Delivery.StepKeeps | src/services/workerService.ts:283-432 | Every step of the worker and of the API keeps the delivery invariant: stream copies match the outbox, a processed row has a copy, rows belong to events and stay within the attempt limit, a PROCESSING row is due, a published event has a copy to be delivered or a row. |
| NoLoss.LostExactlyBy | src/services/workerService.ts:297-431 | From a state where an event is unpublished, unread, pending, in the retry loop's hand, marked, or out of attempts, a step takes it out of all these places if and only if it is one of the named steps: an acknowledgement of its last copy with its row unmarked, or the retry loop left before the mark. |
| NoLoss.NoEventLost | src/services/workerService.ts:297-431 | In every run of a single worker with stops and failures anywhere, an event is in one of those places if and only if no earlier step was such a step for it. |
| NoLoss.StrandedForGood | src/repositories/eventConsumptionRepository.ts:71-84 | An event outside those places stays outside under every step and is not dispatched. |
| NoLoss.LostForGood | src/repositories/eventConsumptionRepository.ts:71-84 | The same over every continuation of a run: the dispatch count never grows again. |
| NoLoss.NoEventLostGently | src/services/workerService.ts:297-431 | No event is ever lost, whatever else stops or fails, if no `markFailed` fails without effect and the retry loop is not left between `tryStart` and the mark: not by a process stop, not by a lost reply to `tryStart`, and not by a failing outbox lookup. |
| NoLoss.ProcessedIsInStream | src/services/outboxPublisher.ts:17-41 | A processed outbox row has an entry with its own type and payload in the stream, in every run. |
| NoLoss.ItemFrame | src/services/workerService.ts:297-343 | A step on one work item touches that item's row, at most its own pending entry, and only adds outbox rows. |
| LossExamples.FailedMarkLosesEvent | src/services/workerService.ts:380-391 | For every attempt limit above 1 there is a run without any stop in which a failed `markFailed` loses an event. |
| LossExamples.RetryLeftLosesEvent | src/services/workerService.ts:398-429 | For every attempt limit above 2 there are runs without failed marks in which leaving the retry loop loses an event: by a process stop and no failure at all, or by one failing outbox lookup and no stop. |
| LossExamples.LostStartLosesEvent | src/services/workerService.ts:399-406 | The same by a `tryStart` in the retry loop that takes effect without its reply. |
| Fleets.AttemptBudget | src/repositories/eventConsumptionRepository.ts:49-109 | With any number of workers, interleavings, duplicates, stops and failures, a handler is invoked for an event at most max(1, maxAttempts) times, and its webhook POSTs are at most (maxRetries + 1) times that. |
| Fleets.WorkerPays | src/repositories/eventConsumptionRepository.ts:71-109 | Every dispatch is paid for by exactly one attempt: no step dispatches or posts more than the attempts it adds or the worker still owes. |
| FleetSettlement.FleetReleases | src/services/workerService.ts:94-96 | With any number of workers, interleavings, stops and failures, in outbox mode a task's escrow is released at most max(1, maxAttempts) times, also when two workers handle its event at once. |
| FleetSettlement.FleetSettlesExclusively | src/services/timeoutService.ts:35-70 | With any number of workers, when requests save what they settle: a released escrow is that of a completing task's selected bid, a confiscated one that of an expired task's, none is confiscated twice, and none is both. |
| FleetSettlement.SucceededPaysInFleets | src/services/workerService.ts:94-96 | With any number of workers, a SUCCEEDED completion row means the task is COMPLETED and the escrow in the payload, its selected one, was released. |
| FleetSettlement.FleetFunded | src/services/workerService.ts:70-103 | Releases of an escrow, and the handlers on their way to one, are covered by dispatches of the one event that requested it. |
| FleetSettlement.WorkerState | src/services/workerService.ts:70-103 | A step of one worker keeps market, events, books and its own handler's knowledge in agreement, requests no completion, and moves the stores only onward, which keeps what any other worker has read usable. |
| Success.SuccessLeftExactlyBy | src/services/workerService.ts:327-342 | A SUCCEEDED row stops being SUCCEEDED if and only if the worker that is catching its own lost `markSucceeded` reply then marks it FAILED. |
| LossExamples.SuccessDispatchedAgain | src/services/workerService.ts:327-342 | That case is real: a run without any stop in which a returned and SUCCEEDED invocation loses its mark's reply, is marked FAILED, and is dispatched again. |
| Success.SuccessAbsorbs | src/repositories/eventConsumptionRepository.ts:71-74 | Otherwise every step keeps it SUCCEEDED and dispatches nothing for it. |
| Success.SuccessAbsorbsForever | src/repositories/eventConsumptionRepository.ts:71-74 | Once a row is SUCCEEDED (and not about to be marked FAILED), it is for the rest of every run, and its dispatch count is final. |
| Success.NormalDispatches | src/services/workerService.ts:327-329 | Handler invocations that return are at most 1 plus those cut off, by a stop or a failed mark, before the row was marked. |
| Schedule.BackoffSchedule | src/services/workerService.ts:63-68 | In every run without stops or failures of the mark, lookup and start calls, attempt n starts no sooner than the sum of the first n-1 delays after the first one: 2000(2^(n-1) - 1) ms up to n = 9, then 300000 ms more per attempt; the number of starts is the row's attempts. |
| Schedule.RunPaced | src/services/workerService.ts:331-338 | In every run, consecutive starts of a key that was never interrupted are spaced by the backoff of the earlier attempt. |
| Schedule.WaitClosedForm | src/services/workerService.ts:63-68 | The sum of the first m delays in closed form, with the cap from the ninth on. |
| Schedule.DelayCap | src/services/workerService.ts:63-68 | The delay is 2000 * 2^(k-1) ms up to k = 8 and 300000 ms after that. |
| Schedule.ProcessingIsDue | src/repositories/eventConsumptionRepository.ts:81-106 | With any number of workers, a PROCESSING row never has a retry time in the future. |
| Consumption.EventConsumptionRepository.Start | src/repositories/eventConsumptionRepository.ts:20-116 | `tryStart` in place: the attempt handed out and the table left behind are those of the specification. |
| Consumption.EventConsumptionRepository.Succeed | src/repositories/eventConsumptionRepository.ts:118-125 | `markSucceeded` in place, whatever the row's status. |
| Consumption.EventConsumptionRepository.Fail | src/repositories/eventConsumptionRepository.ts:127-139 | `markFailed` in place, whatever the row's status. |
| DueList.DueRetries | src/repositories/eventConsumptionRepository.ts:141-161 | Filter, order and limit: the due rows of one handler, earliest retry time first, and no due row left out comes before one that is listed. |
| DueList.ListReachesExactly | src/repositories/eventConsumptionRepository.ts:153-159 | When no exhausted row is due at the same time as one that may be started, the list holds a row that may be started if and only if some such row has fewer exhausted rows than the limit ahead of it. |
| DueList.ListReachesUnexhausted | src/repositories/eventConsumptionRepository.ts:153-159 | With equal times too: fewer exhausted rows than the limit at or before a row that may be started are enough. |
| DueList.ListedIsNear | src/repositories/eventConsumptionRepository.ts:153-159 | With equal times too: a listed row that may be started has fewer exhausted rows than the limit ahead of it. |
| DueList.ListStarves | src/repositories/eventConsumptionRepository.ts:153-159 | When every row that may be started has as many exhausted rows ahead of it as the limit, the list holds exhausted rows only. |
| Starvation.StepStarves | src/services/workerService.ts:395-405 | A handler with 25 exhausted rows due ahead of every FAILED row with attempts left stays so under every step of the worker and the API, by the same rows. |
| Starvation.StarvedForGood | src/services/workerService.ts:395-431 | From there on, in every run, no retry pass of the handler changes a row. |
| Starvation.NeverAgain | src/services/workerService.ts:395-431 | A FAILED event with attempts left and no stream copy to come keeps its row and its dispatch count for the rest of every such run. |
| StarvationExample.StarvesAfter25 | src/services/workerService.ts:395-405 | For every attempt limit above 1 there is a run in which 25 result events use up their attempts, all but the last of each by process stops inside the handler, and a 26th, due and with attempts left, is left behind them. |
| StarvationExample.LeftBehind | src/services/workerService.ts:395-431 | However that run goes on, the 26th event is never dispatched again. |
| Progress.PassExactly | src/services/workerService.ts:395-431 | One retry pass that does not throw, anywhere in any run and with API requests in between: exactly the listed rows with attempts left are started, each is dispatched once and ends SUCCEEDED, or FAILED until a later time; every other row and dispatch count is as the query saw it. |
| Progress.PassSpends | src/services/workerService.ts:395-431 | Such a pass lowers the attempts left over all rows by exactly the number of rows it starts, and adds no row. |
| Progress.PassProgress | src/services/workerService.ts:395-431 | In every run, a complete retry pass strictly lowers the attempts left over all rows and dispatches a waiting event, if one that could be started was due with fewer than 25 exhausted rows at or before it. |
| Progress.PassesBounded | src/services/workerService.ts:395-431 | Between any two points of any run, the complete passes that found such a row number at most the attempts left at the first point, plus maxAttempts for each row that is new. |
| Progress.StarvedPass | src/repositories/eventConsumptionRepository.ts:153-159 | When every row that could be started has 25 exhausted ones ahead of it, a complete pass changes no row and dispatches nothing. |
| WorkerLoop.Worker.RunTick | src/services/workerService.ts:434-460 | The timer callback. While a tick is running (it may arrive at any `await`) it changes nothing. Otherwise it extends the run of all stores by steps of the transition system, ends idle with the guard released, and the worker's calls among these steps are those of a tick, as the next row says. Once `claiming` is stuck it stays so and nothing is claimed. |
| WorkerLoop.Worker.Tick | src/services/workerService.ts:283-432 | The run is extended, and by these calls of the worker: without an exception or pause, in this order, a successful outbox query with every listed event added and marked, a claim and a read with every entry worked off, and for the one handler and then the other a due query with every listed row worked off, both of these complete retry passes; when paused, the publisher alone; with an exception, the last call is the one that failed, or the acknowledgement in `finally` after it. |
| WorkerLoop.Worker.PublishOnce | src/services/outboxPublisher.ts:17-41 | The calls of the publisher's loop: the query, then per listed event an add and a mark, and after a failure of either the failure mark; a failing failure mark is the last call and ends the tick. A loop that does not throw is a complete pass, of which the next rows speak. |
| WorkerLoop.Worker.ListUnprocessed | src/repositories/outboxRepository.ts:40-50 | The query is one call, and answers the unprocessed rows, oldest first: all of them, or the 50 oldest. |
| Outbox.FindUnprocessed | src/repositories/outboxRepository.ts:40-50 | Filter, order and limit: no unprocessed row is left out while the limit is not reached, and none that is older than a listed one. |
| Outbox.BatchReaches | src/repositories/outboxRepository.ts:44-47 | Every unprocessed row with fewer than the limit others as old is listed. |
| Publishing.PassPublishes | src/services/outboxPublisher.ts:17-41 | One pass that does not throw, anywhere in any run: an XADD is made for exactly the listed events, each of them ends processed or with one more failure on record, and every other row is as the query saw it. |
| Publishing.OldestArePublished | src/services/outboxPublisher.ts:17-41 | So such a pass makes an XADD for every event that was unprocessed at the query with fewer than 50 others as old, and it is processed then unless a failure was recorded. |
| WorkerLoop.Worker.HandleEntry | src/services/workerService.ts:306-342 | The calls for one claimed or polled entry: start; if it was started, the handler's calls and the mark of their outcome; and in any case the acknowledgement, also when `markFailed` throws. It throws exactly when the start, a `markFailed` or the acknowledgement failed. |
| WorkerLoop.Worker.RetryRow | src/services/workerService.ts:399-430 | The calls for one due row: start, outbox lookup (outside the try), the handler's, and the mark; it throws exactly when the start, the lookup or a `markFailed` failed. |
| WorkerLoop.Worker.Dispatch | src/services/workerService.ts:200-209 | Routing by event type: the calls made are those of the type's handler, and it returns or throws by their outcome. |
| WorkerLoop.Worker.HandleTaskCompletionRequested | src/services/workerService.ts:70-103 | The handler's calls in their order, each only after the one before worked: task, bids, release, save, event. It returns after all five, or after the first when the task is COMPLETED already, and throws otherwise. |
| WorkerLoop.Worker.FindSelected | src/services/workerService.ts:89-92 | The search through the bids: the escrow handed on is that of a selected bid of the task in the present store, and there is none only if the task has no selected bid. |
| WorkerLoop.Worker.TryStart | src/repositories/eventConsumptionRepository.ts:49-109 | The row update by its branches is the start step: a started row is PROCESSING with the attempt handed out, and no attempt is handed out only if the row may not be started now. |
| WorkerLoop.Worker.AutoClaim | src/services/eventConsumer.ts:87-112 | XAUTOCLAIM from the cursor: the claimed entries are handed over in order with their payloads and are pending as of now; before the new cursor no other pending entry has been idle for 30 s; and the scan stopped there only after 20 claims or 200 entries. |
| WorkerLoop.Worker.AutoClaimOnce | src/services/eventConsumer.ts:87-112 | The guard around the claim: while `claiming` is set nothing is claimed and it stays set, and it becomes set for good exactly when XAUTOCLAIM itself fails; otherwise every claimed entry is worked off. |
| WorkerLoop.Worker.ScanPending | src/services/eventConsumer.ts:90-98 | The scan finds, in order, exactly the entries between the cursor and the next one that have been idle for 30 s. |
| WorkerLoop.Worker.ReadGroup | src/services/eventConsumer.ts:61-85 | The next entries, 20 or all there are, are handed over in order; the delivered mark is past them and they are pending as of now. |
| WorkerLoop.Worker.Ack | src/services/eventConsumer.ts:114-116 | The one call is the acknowledgement; when it takes effect the entry is no longer pending, and an exception on its way out goes on. |
| WorkerLoop.TickOnce | src/services/workerService.ts:434-460 | One timer callback, before against after: SUCCEEDED rows stay so and their events are not dispatched again; lost events stay lost; a starved handler stays starved by the same rows; a stuck `claiming` stays stuck. Unless it throws, every event that was unprocessed at the query, with fewer than 50 others as old, has been marked processed or has one more failure on record; and unless it is paused, too, each handler's due rows were queried, and if a near one was waiting then, a waiting event has been dispatched since. |
| WorkerLoop.TickingKeepsPromises | src/services/workerService.ts:283-460 | Of a worker that has only ticked: a completion event is dispatched within its budget, names an escrow, and its row is SUCCEEDED only if the task is COMPLETED and that escrow was released. |
| Lifecycle.LowestIsFirstLeast | src/services/auctionService.ts:38-42 | The reduce returns the first of the bids that no other bid beats on (amount, createdAt), and it beats every bid listed before it. |
| Lifecycle.WinnerIgnoresOrder | src/services/auctionService.ts:38-42 | When no two pending bids share amount and time, the winner is the same for every listing of the same bids. |
| Lifecycle.TieGoesToFirst | src/services/auctionService.ts:38-42 | When the first listed bid is unbeaten it wins, so with ties the listing order decides. |
| Lifecycle.SelectKeeps | src/services/auctionService.ts:22-67 | Selection keeps the lifecycle invariant and moves statuses only forward. |
| Lifecycle.RequestKeeps | src/controllers/taskController.ts:171-304 | Every API request and the sweep keep the lifecycle invariant (OPEN tasks have no selected bid; all others exactly one and none pending; escrow ids are never shared), and decided bids stay decided. |
| Guarantees.LifecycleHolds | src/services/auctionService.ts:27-54 | The invariant holds in every state of every run, and between any two states statuses only move forward. |
| Guarantees.SelectedForGood | src/services/auctionService.ts:47-54 | A selected bid is the task's one selected bid for the rest of the run. |
| Guarantees.OneEventPerCompletion | src/controllers/taskController.ts:295-302 | A task that reached COMPLETING has a completion event if and only if its insert did not fail, and never two. |
| Guarantees.PayloadNamesEscrow | src/services/workerService.ts:70-95 | The escrow in the payload is the selected bid's, and the one the worker looks up and releases. |
| Guarantees.SucceededMeansPaid | src/services/workerService.ts:94-96 | A SUCCEEDED completion row means the task is COMPLETED and its selected escrow was released. |
| Guarantees.ReleaseCount | src/services/workerService.ts:78-102 | The releases of a task's escrow are exactly those cut off before the COMPLETED save, plus one if it is COMPLETED, plus one if the worker stands between the two; so at most 1 plus the cut-off ones, and at most max(1, maxAttempts). |
| Guarantees.RunPaidOnRequest | src/controllers/taskController.ts:295-302 | In outbox mode nothing is released for a task that has no completion event. |
| Guarantees.RunFunded | src/services/workerService.ts:94-96 | Each release is covered by its own dispatch of the one event that requested it. |
| Guarantees.SettledExclusively | src/services/timeoutService.ts:35-70 | In every run whose requests save what they settled, no escrow is both released and confiscated and only escrows of selected bids are settled, wherever the worker stops or fails. |
| Guarantees.CompletionAgrees | src/controllers/taskController.ts:295-302 | In every run whose completions insert their event, a task that reached COMPLETING has exactly one completion event; it names the selected escrow, and once its row is SUCCEEDED the task is COMPLETED and that escrow was released. |
| Guarantees.SettledOnce | src/services/timeoutService.ts:35-70 | Escrow by escrow, in every run: the escrow of a selected bid is both released and confiscated if and only if a confiscation went through without its save and the task was still completed, cut off after a release, or being paid, or a release went through without its save and the task expired. |
| SettlementExample.ConfiscatedAndReleased | src/services/timeoutService.ts:44-63 | That case is real: a run in which one escrow is confiscated, its task save fails, and it is then released. |
| SettlementExample.CompletingWithoutEvent | src/controllers/taskController.ts:295-302 | A run that ends with a COMPLETING task and an empty outbox. |
| SettlementProofs.StepAgrees | src/services/workerService.ts:78-102 | Every step keeps the books: events, handler snapshots, rows and provider calls agree about every task and escrow. |
| Api.Handlers.SelectWinner | src/services/auctionService.ts:22-67 | The reduce loop and the rejection loop leave the stores of the selection step. 404, 409 and 200 for no task, no open task with a pending bid, and a selection; then one pending bid is SELECTED that asked for no more than any other, earliest first, all others are REJECTED, and nothing else changes. |
| Api.Handlers.Reduce | src/services/auctionService.ts:38-42 | The left-to-right loop computes the specified winner. |
| Api.Handlers.RejectOthers | src/services/auctionService.ts:50-54 | Every other pending bid is saved as REJECTED and nothing else changes. |
| Api.Handlers.CreateBid | src/controllers/bidController.ts:84-159 | The bid step, and its codes: 404, 409, 502 for no task, a task that is not open, a failed escrow, with no change; 201 otherwise, and then the saved bid holds exactly the task, executor, amount, collateral, escrow and time of the request. |
| Api.Handlers.Complete | src/controllers/taskController.ts:233-304 | The completion steps, and every code by the stores before the call: 404 without a task, 403 for a caller who is not its requester, 200, 202 and 409 by its status and selected bid, 500 for an insert that throws, 502 for a failed release or save; the task and the outbox change only in the branches that settle. |
| Api.Handlers.ExpireTask | src/services/timeoutService.ts:34-70 | One overdue task: skipped, left alone after a refused confiscation, or EXPIRED with its event. |
| Api.Handlers.RunOnce | src/services/timeoutService.ts:26-74 | The sweep is a series of expiry steps; the reply lists exactly the overdue ASSIGNED tasks with a selected bid whose confiscation and save worked, and no other task changes. |
| Api.SelectionExactly | src/services/auctionService.ts:22-67 | The selection function said without it: its codes, and who wins and loses. |
| Provenance.BidAsPlaced | src/controllers/bidController.ts:126-136 | In every run, every bid was placed by a request and holds that request's task, executor, amount, collateral and escrow, and its time. |
| Provenance.WinnerAskedLeast | src/services/auctionService.ts:38-42 | In every run, the selected bid of a task asked for the least amount of all bids on it, as their requests said, and was the earliest among equals. |
| Provenance.TaskAsPosted | src/controllers/taskController.ts:45-61 | In every run, a task keeps the requester, reserve price and deadline it was posted with. |
| Provenance.MovedByRight | src/controllers/taskController.ts:239-303 | In every run, a task left ASSIGNED for COMPLETING or COMPLETED only by a request of the account it was posted with, and for EXPIRED only after the deadline it was posted with. |
| EscrowProofs.AlwaysSolvent | contracts/escrow/src/lib.rs:106-310 | Over every sequence of calls with one token, the contract holds at least the collateral of all LOCKED escrows, and each escrow has paid nothing while LOCKED and exactly its collateral after. |
| EscrowProofs.ExactlyCovered | contracts/escrow/src/lib.rs:106-310 | It holds exactly that much while nobody paid out to is the contract itself and nothing is sent in from outside. |
| EscrowProofs.GuaranteedExit | contracts/escrow/src/lib.rs:271-310 | In every reachable state anyone can close a LOCKED escrow that is 241920 ledgers old; the call succeeds and pays its requester in full. |
| EscrowProofs.ClaimPays | contracts/escrow/src/lib.rs:271-310 | A claim succeeds if and only if the escrow is LOCKED and 241920 ledgers old, and then moves exactly its collateral to the requester; otherwise nothing changes, and the error says why. |
| EscrowProofs.CreateStores | contracts/escrow/src/lib.rs:106-166 | A creation succeeds if and only if the executor has authorized it and owns the positive amount, a nonce is left, and the id is free; then the escrow holds exactly the executor, signer, requester and amount of the call, LOCKED as of now, and the amount has moved to the contract. |
| EscrowProofs.ClosedByItsParty | contracts/escrow/src/lib.rs:168-310 | Over every call sequence, any tokens: an escrow was opened by an authorized call of its executor and holds what it said; it became RELEASED only by a later call authorized by the signer, CONFISCATED only by one authorized by the requester, named at the creation, and TIMED_OUT only 241920 ledgers after it. |
| EscrowProofs.ReleasePays | contracts/escrow/src/lib.rs:168-200 | A release succeeds if and only if the escrow is LOCKED and its signer has authorized the call, and then moves exactly its collateral to the executor. Otherwise nothing changes, and the error says which of the conditions failed. |
| EscrowProofs.ConfiscatePays | contracts/escrow/src/lib.rs:202-269 | A confiscation succeeds if and only if the share is at most 10000, the escrow is LOCKED, its requester has authorized the call, and collateral times share stays within i128 (always at 10000); then it moves the two shares. Otherwise nothing changes, and the error says why. |
| EscrowProofs.SharesExact | contracts/escrow/src/lib.rs:225-238 | The shares are undefined exactly on that overflow; otherwise both are non-negative, add up to the collateral, and the requester gets the floor. |
| EscrowProofs.SharesMonotone | contracts/escrow/src/lib.rs:225-238 | A larger share in basis points never gives the requester less. |
| EscrowProofs.FullShareAgrees | contracts/escrow/src/lib.rs:225-234 | The special case at 10000 agrees with the general formula. |
| EscrowProofs.FinalStatus | contracts/escrow/src/lib.rs:173-298 | Over every call sequence, any tokens: escrows are never forgotten, only their status changes, and only from LOCKED. |
| EscrowProofs.CreateKeeps | contracts/escrow/src/lib.rs:106-166 | Creating keeps solvency and the surplus over locked collateral. |
| EscrowProofs.ClaimExactly | contracts/escrow/src/lib.rs:271-310 | Over every sequence of calls with any tokens: an old LOCKED escrow can be claimed if and only if the contract holds its collateral in the token stored last; otherwise the claim panics. |
| EscrowProofs.TwoTokensTrapEscrow | contracts/escrow/src/lib.rs:128-131 | With a second token that condition fails: a run that ends with an old LOCKED escrow whose claim panics. |
| EscrowStorage.Contract.CreateEscrow | contracts/escrow/src/lib.rs:106-166 | Storage writes in the contract's order, undone on error or panic, are the specified call. |
| EscrowStorage.Contract.ReleaseMilestone | contracts/escrow/src/lib.rs:168-200 | Status written before the transfer, and undone when the transfer traps, is the specified release. |
| EscrowStorage.Contract.ConfiscateEscrow | contracts/escrow/src/lib.rs:202-269 | Status, shares and both transfers in the contract's order, undone as a whole on overflow or a failed transfer, are the specified confiscation. |
| EscrowStorage.Contract.ClaimAfterTimeout | contracts/escrow/src/lib.rs:271-310 | The age check, the status write and the transfer, undone when it traps, are the specified claim. |
| EscrowStorage.Contract.NextNonce | contracts/escrow/src/lib.rs:75-85 | The nonce grows by one, or the call panics at the u64 limit. |
| Money.ParseFormat | src/utils/money.ts:3-26 | parse(format(n)) = n for every n >= 0. |
| Money.ParseExactly | src/utils/money.ts:3-15 | After trimming, exactly the digit strings with at most seven more digits after a point are accepted, and they denote that many ten-millionths. |
| Money.OneUsdc | src/utils/money.ts:3-26 | One USDC is ten million stroops, both ways. |
| Money.NegativeRefused | src/utils/money.ts:5-21 | The formatted text of a negative amount is refused. |
| Money.FormatIsShortest | src/utils/money.ts:3-26 | For every accepted string, format(parse(s)) parses to the same amount, is never longer, and is the only string of its length. |
| Money.SameAmount | src/utils/money.ts:3-26 | Two accepted strings parse alike exactly when they format alike. |
| Money.ListingFee | src/services/listingFee.ts:3-5 | The fee is 0.5 percent of the reserve price rounded to the nearest stroop, halves up. |
| Money.FeeStringAgrees | src/app.ts:433-437 | The fee text of the payment gate parses back to the stroops that the local path charges. |
| Canonical.CanonicalForm | src/services/executorResultService.ts:4-13 | With a key order without ties, two payloads canonicalize alike if and only if they are equal up to key order at every depth. |
| Canonical.CanonIdempotent | src/services/executorResultService.ts:4-13 | Canonicalizing twice changes nothing, ties or not. |
| Canonical.CanonicalExactly | src/services/executorResultService.ts:9-10 | The canonical form ignores key order if and only if the order has no ties. |
| Canonical.TiesKeepOrder | src/services/executorResultService.ts:9-10 | Any two different keys that compare equal give equal objects with different canonical forms. |
| Canonical.PayloadHashAgrees | src/services/executorResultService.ts:28-30 | With an injective digest, payload hashes agree if and only if the payloads are equal up to key order. |
| RateWindow.PassedInAnyInterval | src/controllers/authController.ts:12-18 | In any closed interval of one window's length at most 2 * limit - 1 calls pass, also when an EXPIRE fails. |
| RateWindow.WorstCase | src/controllers/authController.ts:12-18 | For every limit there is a series of calls in which exactly that many pass. |
| AuthProofs.ServerNonceOnce | src/middlewares/signatureAuth.ts:179-196 | With client nonces off, a (key, nonce) is admitted at most as often as it was issued, over every run of requests and store failures. |
| AuthProofs.ClientNonceOnce | src/middlewares/signatureAuth.ts:186-192 | With client nonces on, each timestamp of a (key, nonce) is admitted at most once more than it was issued if and only if the key's life is at least 600 s. |
| AuthProofs.AdmittedFrom | src/middlewares/signatureAuth.ts:164-196 | The same accounting from any state of the store. |
| AuthProofs.IssuedNonceReplays | src/middlewares/signatureAuth.ts:179-192 | With client nonces on, a run in which one issued nonce is admitted twice. |
| AuthProofs.AdmittedWasIssued | src/middlewares/signatureAuth.ts:129-196 | With client nonces off, whoever is admitted signed the request and presents a nonce issued earlier to the same key, with exactly its issued timestamp, within 300 s. |
| AuthProofs.HolderGetsIn | src/middlewares/signatureAuth.ts:164-184 | Requests without a valid signature never use a nonce up: whatever else arrives in between, the key's holder is admitted within 300 s. |
| AuthProofs.IssuedInAnyMinute | src/controllers/authController.ts:44-63 | At most 119 nonces for one address in any closed minute of any run. |
| AuthStore.Redis.IncrWithTtl | src/controllers/authController.ts:12-18 | INCR, then EXPIRE on the first hit, is the specified window update, also when EXPIRE throws. |
| AuthStore.Redis.IssueNonce | src/controllers/authController.ts:44-73 | Rate check, then SET NX, is the specified issue: a nonce is told if and only if it is at most the 60th hit of the address's window, the key was free and the SET answered; then it is stored with the told timestamp for 600 s. |
| AuthStore.Redis.Authenticate | src/middlewares/signatureAuth.ts:123-200 | Window, signature, GETDEL, legacy key, in this order, with the failure counters of a refusal, is the specified admission; 200 if and only if the request is signed, within 300 s, and its nonce is held with that very timestamp (or, with client nonces, unused), 503 if and only if the store failed it, 401 or 429 otherwise. |
| AuthStore.Redis.RejectRequest | src/middlewares/signatureAuth.ts:88-112 | The two failure counters decide between 401 and 429: over 30 for the address or over 10 for the key in their windows; an EXPIRE that throws means 401. |
| AuthProofs.TurnsTo429 | src/middlewares/signatureAuth.ts:88-112 | Of a series of refusals from one address within a minute, one is answered 429 if and only if 30 of the address or 10 of its key came before. |
| Idempotency.ExecutionsBalance | src/middlewares/idempotency.ts:50-88 | In every run, whatever overlaps and whatever inserts fail, the executions of a key answered with a recordable answer are its one record, plus the inserts still under way, plus those that did not go through. |
| Idempotency.ExecutedOnce | src/middlewares/idempotency.ts:50-88 | When no request begins before the insert of an earlier one with its key has ended, and inserts work, a key has at most one recordable execution, and exactly one once its record is made or under way. |
| Idempotency.ReachesHandlerExactly | src/middlewares/idempotency.ts:50-66 | In every run, a request with a key reaches the handler if and only if no insert of that key has landed yet. |
| Idempotency.OverlapExecutesTwice | src/middlewares/idempotency.ts:50-88 | Two overlapping requests execute twice, with every insert answered OK. |
| Idempotency.SequentialExecutesTwice | src/middlewares/idempotency.ts:75-88 | So do two requests of which the second begins after the first has been answered. |
| Idempotency.ReexecutedExactly | src/middlewares/idempotency.ts:68-77 | In every run, once no insert of a key is under way and none has failed, a request reaches the handler if and only if no execution so far was answered below 500 through `res.json`. |
| Idempotency.RepeatsReceiveTheRecord | src/middlewares/idempotency.ts:50-66 | After an insert has landed, whatever happens, the same request gets that answer and any other under the key gets 409; neither reaches the handler. |
| Idempotency.ReplayIsFaithful | src/middlewares/idempotency.ts:52-64 | A replayed answer was given, below 500, by an earlier execution of the very same key, scope, owner and request. |
| Idempotency.Middleware.Handle | src/middlewares/idempotency.ts:23-91 | Lookup and the three mismatch checks in place: 400 for a missing key where one is required, the record for the same request, 409 for any other under its key, the handler when there is no record. |
| Idempotency.KeylessExactly | src/middlewares/idempotency.ts:26-34 | A request without a key is refused where one is required; elsewhere it reaches the handler in every state and leaves no record, whatever the answer. |
| Idempotency.Middleware.Finish | src/middlewares/idempotency.ts:75-88 | The finish listener: a captured answer below 500 to a request with a key starts an insert, anything else does not. |
| Idempotency.Middleware.InsertRecord | src/repositories/idempotencyRepository.ts:49-64 | The insert, when it ends: it makes the key's record, and a second one of a key, or a failing one, changes nothing. |
| Retry.WithRetry | src/utils/retry.ts:65-99 | The number of calls is the one of the specification (all but the last fail in a retryable way; the last succeeds, fails otherwise, or is call retries + 1), and each sleep is the specified one. |
| Retry.MakesIsExact | src/utils/retry.ts:72-98 | That specification admits exactly one number of calls. |
| Retry.SleepMs | src/utils/retry.ts:81-93 | A sleep is at least the computed delay, the override and the server's Retry-After, and equals one of them. |
| Retry.DelayAtLeast | src/utils/retry.ts:81-83 | Jitter takes away at most its share of the exponential delay, truncation less than a millisecond. |
| Retry.DelayAtMost | src/utils/retry.ts:81-83 | And jitter adds at most its share. |
| Retry.SleepsAddUp | src/utils/retry.ts:81-95 | n sleeps last at least the un-jittered part of base * (2^n - 1), less n ms. |
| Retry.RetriedExactly | src/services/webhookService.ts:59-74 | An exception is retried if and only if it is an AbortError, or one of the listed words stands, in any case, in its type or its message. |
| Retry.BrokenOffIsNotRetried | src/services/webhookService.ts:64-73 | A TypeError with the message `terminated`, as `fetch` reports an answer that breaks off, is not retried. |
| Retry.WebhookService.PostJson | src/services/webhookService.ts:107-218 | At most maxRetries + 1 POSTs. Every answer before the last has status 408, 429 or 500 to 599, or is an exception as above; such a last answer means the budget is spent; a 2xx is returned, anything else thrown. Each sleep is at least the answer's Retry-After, and otherwise half to one and a half times max(50, base) * 2^i ms. |

## Left out

- Express wiring, schemas, swagger, logging, metrics, the frontend, scripts: no state of their own that the properties depend on.
- Stellar SDK, Trustless Work, x402, MPP, Postgres and Redis internals: operations that work, fail, or lose their reply.
- Hashing and Ed25519 (RFC 8032): a digest is an arbitrary injective function, a signature verifies or not.
- The floating-point split and `Number(collateral)` in the escrow service (src/services/escrowService.ts:338-339): rounding; the split proved is the contract's.
- The registry contract, pause flags, denylist, allow-list and admin checks: each is one branch. The worker's pause gate is modelled.
- Bids against the reserve price: no code compares them.
- Await-level interleaving of API handlers with each other: with it a task can get two selected bids, so selection and settlement are stated for atomic handlers.
- No event is lost, and SUCCEEDED is absorbing, with several workers: PROCESSING rows have no lease, so two workers may handle one event; only the attempt budget, due times and settlement are claimed there.
- Escrow TTL and archival, contract events and re-entry: host concerns.
- An escrow whose bid is never saved because an amount is refused or the save fails (src/controllers/bidController.ts:110-136): it backs no bid, so no property speaks of it.
- Stream entries without id or type: the publisher always writes both.
- Columns `last_error`, `updated_at`, `stream_entry_id`; a due row without a retry time is ordered as if it had time 0, and no FAILED row is without one.
- Events other than the completion request that API handlers emit (`bid_placed`, `task_assigned`, `task_expired`): separate steps that insert an event without effects.
- Outbox rows with equal creation times: any order among them is covered.
- JavaScript's reordering of integer-like object keys and the details of locale comparison: keys have an abstract total order.
- HTTP-date and other spellings of `Retry-After`: section 10.2.3 of RFC 9110 allows delta-seconds, which is the form modelled, already parsed.
- Requests with missing signature headers, and the switch that turns signature checks off in local and test environments.
- Answer bodies of 400 and 409 in the idempotency middleware: only the codes.
- `onAttempt` hooks of webhook delivery: a retried attempt fires them twice, so they count nothing.
- WorkerLoop.Worker.Tick: a process stop is a step of the transition system between the steps of a tick, not a statement; every prefix of a tick is a run that a stop may end.
- NoLoss.NoEventLost: proved for one worker; see above.
- Fleets.AttemptBudget: covers both handlers with effects; other event types are dispatched to nothing.
