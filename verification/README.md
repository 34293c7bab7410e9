# A verified model of the relayer

This project models the core of a cross-chain relayer and proves what it keeps in every run:

- the generic retrying `ProcessingQueue`, for any subclass (`processing_queue.dfy` and `queue_*.dfy`);
- the wallet worker: two such queues in a row, requeues on nonce errors, cancellations, one answer per
  request (`wallet_worker*.dfy`);
- the submitter: a time-ordered pending queue, the evaluation queue and the submission queue, with orders
  that come back until their deadline (`pending_queue.dfy`, `submitter*.dfy`);
- the request protocol between wallet clients, the wallet service and workers that crash and are spawned
  again (`wallet_routing*.dfy`, `wallet_objects.dfy`);
- the relay-state store, on integers and on the decimal strings it writes (`store.dfy`, `store_json.dfy`,
  `decimal.dfy`);
- the profit arithmetic of the evaluator (`evaluator.dfy`) and the fees of the wallet
  (`transaction_helper.dfy`);
- the block feed and the scan loop of the getter (`block_scanner.dfy`);
- the payload decoder, with the encoder it undoes (`payload.dfy`).

## How it is built

The asynchronous parts are state machines. A step is one segment of code between two awaits, or a finer
piece of one; what the outside decides (RPC answers, clocks, errors, the choices of overridable handlers) is
an argument of an event. `Run` folds the steps; the theorems speak of every run from the initial state.
Fields marked as history record what happened, or number orders to stand for object identity; they decide
nothing. Some steps span awaits:

- `EvalHandler` and `ConfirmHandled` are a whole handler, which awaits store, resolver, evaluator or signer
  in between. A handler writes only its own order, which its queue holds in the foreground meanwhile, so no
  other step reads or writes it; what the handler learns over its awaits are the event's arguments, and they
  are free. The admission of new orders reads sizes only, and a handler changes none.
- `SubmitFailed` includes the await of `updateTransactionNonce`, at whose end the nonce is written. Only the
  handlers of the submission queue write it, and that queue handles one order at a time (`OneAtATime`).
- `Cancelled` is one whole cancellation; `run` waits for it and nothing else reads its order.
- The end of an asynchronous call and the resumption of its caller are one step; nothing the caller does
  before its next await depends on what could run in between.

`SubmitQueue.handleOrder` is split at its await (`SubmitBegin`, `SubmitEnd`), since it reads the shared nonce
before and writes it after.

Each stateful class of the repository is also a class here, its methods the code segment by segment, with
its loops. The queue, the wallet worker and the submitter keep a ghost trace of the segments taken: an object
is `Valid` when it stands where the run of its trace leads, and every method extends the trace by its event
and keeps `Valid`. So the results about whole runs hold of the objects (`ValidIsGood`, `ValidIsReachable`,
`KeepsItsPromises`), and the methods take their preconditions from them. A wallet client, the wallet service
and a getter are parts of a larger system: their methods take them from their part of any system state to
their part of the next one. `tickets.dfy` holds the bookkeeping
both pipelines share: a ticket is one lap of one order, and an order that goes round again retires its ticket
for the next.

`dafny verify dfyconfig.toml` checks the whole project.

Assumptions, beyond those in preconditions:

- the clock is monotone, and the two readings `addSubmitOrder` makes for one order are equal;
- waiting for a transaction gives the receipt of that transaction;
- an error is never null or undefined, and its `message` and `code` are texts;
- logging and the `onOrderCompletion` and `handleFailedOrder` hooks do not throw;
- `processOrders` is not entered again before it returned (its only callers are sequential loops);
- `maxTries`, limits and intervals are whole numbers, and factors are already scaled by 10000;
- one store update is atomic (the code reads Redis and then writes it, without a lock);
- `JSON.parse` after `JSON.stringify` gives back a record of strings and numbers unchanged;
- one `WalletInterface` per port, and channels deliver in order.

What the proofs show about code and documentation:

- Requests queued while a wallet worker is down are never served. The exit handler calls the asynchronous
  `spawnWorker` without awaiting it, so `recoverQueuedMessages` always meets a null worker
  (`QueuedRequestsAreNeverServed`). A request can be served if and only if the worker of its chain is alive
  when the service receives it (`ServableExactly`), and for every request there is a run that leaves it queued
  beside a live worker (`QueuedBesideLiveWorker`).
- The two branches of the submitter's submission queue marked as never reached are reached when an error has
  an empty text, and only then (`UnreachableExactly`). The text of an error object is its name and message, so
  objects with a name, as JavaScript's own error classes give them, never lead there
  (`UnreachableForNamedErrors`); a provider or signer that throws an empty string does,
  on sending or on confirmation (`BlankErrorReachesTheBranch`, `BlankErrorReachesTheOtherBranch`).
- A profitability factor below 1 lets deliveries and acks through that do not pay (`DeliverySoundExactly`,
  `AckSoundExactly`).
- A getter that starts past its stopping block still queries once, an empty range (`EmptyWindowExactly`,
  `EmptyWindowReached`);
  block 0 counts as no block.
- Bounty prices can fall in the store exactly when an event moves the two prices apart
  (`PricesFallExactly`); the comment in the code rules such events out.
- A decoded message is the encoded one exactly when the text contains no inner `0x`: the decoder deletes
  every `0x`, not just the first (`DecodeUndoesEncodeExactly`).
- The layout comment of the decoder omits the 8-byte deadline before the gas limit; the model follows the
  slices. For acknowledgements `rawMessage` lacks the status byte just as `message` does, against its comment.
- The wallet worker's names `rejectedTransactions` and `unconfirmedTransactions` stand for the queue's
  skipped and rejected orders, in that order.

## Model

| member | source | states |
|---|---|---|
| QueueRuns.ExactlyOnePlace | src/processing-queue/processing-queue.ts:69-231 | In every run an order stands in exactly one place (initialising, new, being handled, in flight, retrying, one finished list) or was handed out, once for each addition, and `size` is the number of places taken |
| QueueRuns.CapacityHolds | src/processing-queue/processing-queue.ts:29-31 | In every run the live orders never exceed the limit, although the count the code compares also includes orders that have already settled |
| QueueRuns.FirstInFirstOut | src/processing-queue/processing-queue.ts:79-142 | With limit 1, in every run, orders finish in the order they were queued and at most one is live |
| QueueRuns.TriesHold | src/processing-queue/processing-queue.ts:196-231 | In every run an order is handled at most max(1, maxTries) times per addition, and ends rejected exactly when it failed on the last try, whatever `handleFailedOrder` wanted |
| QueueRuns.CallsWithinTries | src/processing-queue/processing-queue.ts:116-142 | Every handler call is one try of an order that was added, so additions bound calls |
| QueueRuns.GoodStep | src/processing-queue/processing-queue.ts:69-237 | Conservation, capacity, tries, sortedness, call accounting and order of arrival survive every step under any interleaving |
| QueueConservation.StepConserves | src/processing-queue/processing-queue.ts:69-231 | No single step loses, duplicates or miscounts an order |
| QueueConservation.Partition | src/processing-queue/processing-queue.ts:166-181 | The three finished lists partition the orders that finished |
| QueueBounds.StepCapacity | src/processing-queue/processing-queue.ts:98-110 | The check before each new order is enough to keep the number of live orders within the limit |
| QueueBounds.StepTries | src/processing-queue/processing-queue.ts:208-230 | No order is granted a try past its limit, and every finished order got the outcome its tries justify |
| QueueBounds.StepChronology | src/processing-queue/processing-queue.ts:233-237 | The retry queue stays sorted by due time under every step |
| QueueBounds.PrefixIsExact | src/processing-queue/processing-queue.ts:152-163 | Stopping the scan at the first order not due misses no due order: the prefix is precisely the due orders |
| QueueBounds.StepFifo | src/processing-queue/processing-queue.ts:79-114 | With limit 1 no step changes the line finished, live, waiting |
| QueueCalls.CallsBounded | src/processing-queue/processing-queue.ts:116-142 | Handler calls per order are at most the tries per addition |
| QueueContents.StepObeys | src/processing-queue/processing-queue.ts:69-237 | Any law on orders that hands over from place to place survives every step; used for both pipelines |
| QueuePasses.PassStartsExactly | src/processing-queue/processing-queue.ts:79-91 | In every run a pass starts exactly when some order is due for a retry, or a new order waits with room for it beside the orders that have to wait longer |
| QueuePasses.PassTakesDue | src/processing-queue/processing-queue.ts:144-164 | In every run a pass takes up every order that is due, in order and charged one try, and no other |
| QueuePasses.PassEndsExactly | src/processing-queue/processing-queue.ts:93-114 | In every run a pass goes on until no retry is left and either the new queue is empty or the limit is reached, hands each order on in turn, retries first, and leaves exactly the new orders it did not reach |
| QueuePasses.FailureExactly | src/processing-queue/processing-queue.ts:196-231 | In every run a failed order waits one interval for another try exactly if the handler asks for it and a try is left; else it is closed, rejected after its last try and given up before it |
| QueuePasses.InitialisedJoins | src/processing-queue/processing-queue.ts:69-77 | An order joins the end of the new orders, as its hook left it |
| QueuePasses.HandlerLeads | src/processing-queue/processing-queue.ts:116-142 | Null completes an order without a result, an exception fails it, a promise leaves it in flight and counted |
| QueuePasses.SettlementLeads | src/processing-queue/processing-queue.ts:126-137 | A resolved promise completes its order with that result, a rejected one fails it, and no other order moves |
| QueuePasses.EndDecidesList | src/processing-queue/processing-queue.ts:183-231 | A result goes to the completed orders, an order out of tries to the rejected, any other end to the skipped, and to one list only |
| QueueRuns.ProcessingQueue.constructor | src/processing-queue/processing-queue.ts:33-39 | A new queue is valid and is the initial state of the runs above |
| QueueRuns.ProcessingQueue.ValidIsGood | src/processing-queue/processing-queue.ts:69-237 | Conservation, capacity, tries, sortedness, call accounting and order of arrival hold of every valid queue object, that is after any sequence of its methods |
| QueueRuns.ProcessingQueue.BeginAddOrder | src/processing-queue/processing-queue.ts:70-73 | The object takes the add step of the state machine |
| QueueRuns.ProcessingQueue.EndAddOrder | src/processing-queue/processing-queue.ts:73-76 | The object queues the order its hook has finished with |
| QueueRuns.ProcessingQueue.GetOrdersToRetry | src/processing-queue/processing-queue.ts:144-164 | Returns all due orders of the queue, each charged one try, and leaves all others |
| QueueRuns.ProcessingQueue.ProcessOrders | src/processing-queue/processing-queue.ts:79-91 | Starts a pass exactly when something is due or can be taken |
| QueueRuns.ProcessingQueue.NextOrder | src/processing-queue/processing-queue.ts:93-114 | Retries first, then new orders while capacity lasts, then the taken ones are removed |
| QueueRuns.ProcessingQueue.HandleOrderDone | src/processing-queue/processing-queue.ts:116-142 | A null, a promise and an exception each lead where the step says |
| QueueRuns.ProcessingQueue.Continue | src/processing-queue/processing-queue.ts:183-231 | The two settlement handlers, await by await, refine the step |
| QueueRuns.ProcessingQueue.OrderFailed | src/processing-queue/processing-queue.ts:208-224 | Out of tries, retry, or give up, in that order of precedence |
| QueueRuns.ProcessingQueue.FinishOrder | src/processing-queue/processing-queue.ts:183-194 | A finished order goes onto exactly one list |
| QueueRuns.ProcessingQueue.ContinueForeground | src/processing-queue/processing-queue.ts:122-141 | The awaited order moves on and nothing else does |
| QueueRuns.ProcessingQueue.ContinueBackground | src/processing-queue/processing-queue.ts:126-137 | A settled promise moves its own order on and nothing else |
| QueueRuns.ProcessingQueue.GetFinishedOrders | src/processing-queue/processing-queue.ts:166-181 | Hands out the three lists and takes them off `size` |
| QueueRuns.ProcessingQueue.Resume | src/processing-queue/processing-queue.ts:69-237 | Whichever segment the runtime resumes next, the object takes that step, stays valid and extends its trace |
| WalletWorkerTheorems.AnsweredAtMostOnce | src/wallet/wallet.worker.ts:257-419 | In every run each request is in exactly one place of the worker or answered exactly once, however often it was requeued |
| WalletWorkerTheorems.AnsweredOnceDrained | src/wallet/wallet.worker.ts:257-284 | Once the worker has drained, every request has exactly one answer |
| WalletWorkerTheorems.AnswersComplete | src/wallet/wallet.worker.ts:308-419 | Every answer goes to the port and message it came from, and either has transaction and receipt and no error, or exactly one of the two errors; a transaction it names, hash and nonce, was accepted for the very lap it answers or replaced that one, and the receipt of a success is that transaction's |
| WalletWorkerTheorems.CapacityHolds | src/wallet/wallet.worker.ts:286-306 | In every run both queues together hold at most maxPendingTransactions orders, requeues included |
| WalletWorkerTheorems.OneAtATime | src/wallet/queues/submit-queue.ts:17-21 | In every run each wallet queue has at most one live order and finishes orders in the order queued |
| WalletWorkerTheorems.HandlerCallsBounded | src/wallet/wallet.worker.ts:378-398 | In every run a request causes at most 2 N (maxTries + 1) handler calls, N = max(1, maxTries) |
| WalletWorkerTheorems.NonceDiscipline | src/wallet/queues/submit-queue.ts:43-91 | In every run two sends without a resync between them differ by exactly the sends accepted from the first on, hence an accepted nonce is never used again before a resync: no gap, no repeat, and failed sends consume none. The nonces are the ones the sends had read before they waited |
| WalletWorkerTheorems.NonceUntouchedWhileSending | src/wallet/queues/submit-queue.ts:43-53 | In every run the nonce a send read before its await is still the current one when it returns, since nothing else moves it while an order is being handled |
| WalletWorkerTheorems.TransactionsAreRecorded | src/wallet/queues/submit-queue.ts:43-55 | In every run each transaction an order carries, wherever the order stands, bears the nonce recorded for an accepted send of that lap, and a lap has at most one accepted send |
| WalletWorkerTheorems.PendingNoncesDiffer | src/wallet/queues/submit-queue.ts:43-91 | In every run two transactions accepted without a resync between them belong to different laps and have different nonces |
| WalletWorkerTheorems.AtMostOneReplacement | src/wallet/queues/confirm-queue.ts:64-83 | In every run at most one replacement is ever accepted for a lap, wherever its order stands by then, and it has the nonce of the one accepted original of that lap |
| WalletWorkerTheorems.SentInOrderOfArrival | src/wallet/queues/submit-queue.ts:17-21 | In every run the first transactions of requests are accepted in the order the requests arrived at the worker, whatever is retried or requeued meanwhile |
| WalletWorkerTheorems.RepricedNeverRequeued | src/wallet/queues/confirm-queue.ts:119-199 | In every run what may be requeued was never repriced and carries its error, which is no timeout |
| WalletWorkerTheorems.GivenUpWasNoTimeout | src/wallet/queues/confirm-queue.ts:119-199 | In every run an order given up by the confirmation queue was never repriced and its error has another code than TIMEOUT |
| WalletWorkerDecisions.RequestsTakenExactly | src/wallet/wallet.worker.ts:286-306 | In every run a pass takes the oldest requests and leaves one waiting only if those it takes fill both queues up to the limit |
| WalletWorkerDecisions.SendStartsExactly | src/wallet/queues/submit-queue.ts:29-49 | In every run a send begins, with the current nonce, exactly if the order has no deadline or it has not passed; past it nothing is sent and the order fails with the error for it |
| WalletWorkerDecisions.SendEndsExactly | src/wallet/queues/submit-queue.ts:51-55 | In every run an accepted send takes the nonce one further and goes on with its transaction, a refused one moves nothing and fails its order |
| WalletWorkerDecisions.NonceErrorExactly | src/wallet/queues/submit-queue.ts:58-93 | An error is a nonce error exactly for one of two codes, or with the phrase anywhere in its nested message |
| WalletWorkerDecisions.SubmitFailureExactly | src/wallet/queues/submit-queue.ts:58-93 | In every run a failed send resyncs the nonce exactly on a nonce error, and is then tried again if it has a try left; on any other error, a passed deadline among them, it is closed with that error |
| WalletWorkerDecisions.SubmitAnswersExactly | src/wallet/wallet.worker.ts:308-332 | In every run what leaves the submission queue without a transaction is answered at once, in order, with its own error or the one for the last try |
| WalletWorkerDecisions.RepricedExactly | src/wallet/queues/confirm-queue.ts:37-117 | In every run a try sends a replacement exactly if it is not the first and none was accepted yet; it has the original's nonce |
| WalletWorkerDecisions.ConfirmFailureExactly | src/wallet/queues/confirm-queue.ts:119-199 | In every run a failing confirmation below its last try stands in the retry queue afterwards if and only if it was retried before or its code is TIMEOUT; otherwise the error is recorded and the order given up, and after the last try it is rejected |
| WalletWorkerDecisions.RequeuedExactly | src/wallet/wallet.worker.ts:360-408 | In every run an order given up on confirmation goes round again exactly on a nonce error within its laps, unless its sender opted out; else it is answered with its error |
| WalletWorkerDecisions.ConfirmedAnswerExactly | src/wallet/wallet.worker.ts:334-358 | In every run a confirmed order gets one answer, with the transaction confirmed and its receipt |
| WalletWorkerDecisions.CancelledAnswerExactly | src/wallet/wallet.worker.ts:410-419 | In every run a cancelled order gets one answer, with its transaction, the receipt of the cancellation and the error for it |
| WalletWorkerTheorems.UnreachableExactly | src/submitter/queues/submit-queue.ts:49-73 | The two branches marked as never reached are reached exactly by an answer whose error renders as an empty text; success is taken exactly from answers with transaction, receipt and no error; the result of a worker crash is a failure |
| WalletWorkerTheorems.UnreachableForNamedErrors | src/common/utils.ts:18-30 | An answer whose error, if any, is an error object with a name never leads to the two branches |
| WalletWorkerBranches.BlankErrorReachesTheBranch | src/submitter/queues/submit-queue.ts:57-60 | For every request without deadline there is a run of the worker that ends in the branch for a missing transaction |
| WalletWorkerBranches.BlankErrorReachesTheOtherBranch | src/submitter/queues/submit-queue.ts:61-64 | And one that ends in the branch for a missing receipt |
| WalletWorkerBranches.TimeoutReachesReplacement | src/wallet/queues/confirm-queue.ts:119-151 | For every request without deadline there is a run in which the first wait times out and a replacement with the original's nonce is accepted, given two tries |
| WalletWorkerTheorems.GoodStep | src/wallet/wallet.worker.ts:257-284 | All of the above is inductive over every step of the main loop |
| WalletWorkerRuns.StepAccounts | src/wallet/wallet.worker.ts:257-419 | No step loses or duplicates a lap of a request |
| WalletWorkerRuns.StepLimit | src/wallet/wallet.worker.ts:257-306 | The limit covers the queues and everything on the way between them, and survives every step |
| WalletWorkerRuns.StepPasses | src/wallet/wallet.worker.ts:257-284 | Every lap enters the submission queue once and the confirmation queue at most once |
| WalletWorkerContents.StepContents | src/wallet/queues/confirm-queue.ts:32-199 | What each place's orders contain (errors, transactions, replacements, addresses) survives every step: submission results are never null, skipped orders carry their error |
| WalletWorkerSends.StepSends | src/wallet/queues/submit-queue.ts:43-55 | Carried and answered transactions stay recorded under their lap, and each lap keeps at most one accepted send and one accepted replacement, over every step of worker and queues |
| WalletWorkerSends.NoncesConsecutive | src/wallet/queues/submit-queue.ts:43-53 | In a history that replays to its sends, nonces differ by the accepted sends between them |
| WalletWorkerOrder.StepInLine | src/wallet/wallet.worker.ts:286-297 | First laps stand in line by arrival from `newRequestsQueue` to the end of the submission queue, and every step keeps the line |
| WalletWorkers.WalletWorker.KeepsItsPromises | src/wallet/wallet.worker.ts:257-419 | Of every valid worker object, hence after any sequence of its methods: each request has one place or one answer, both queue objects together fit the limit, and a send under way holds the current nonce |
| WalletWorkers.WalletWorker.AddTransaction | src/wallet/wallet.worker.ts:185-204 | A received request waits as lap 0 of a new order; the object stays valid |
| WalletWorkers.WalletWorker.ProcessNewRequestsQueue | src/wallet/wallet.worker.ts:286-297 | Takes as many requests as the capacity allows, oldest first |
| WalletWorkers.WalletWorker.HandleInvalidTransactions | src/wallet/wallet.worker.ts:308-332 | Every order of both lists is answered once, with its own error or 'Max tries reached.' |
| WalletWorkers.WalletWorker.CollectSubmitted | src/wallet/wallet.worker.ts:262-270 | The results of the submission queue are answered or passed on |
| WalletWorkers.WalletWorker.CollectConfirmed | src/wallet/wallet.worker.ts:272-276 | The results of the confirmation queue become the three lists still to be answered |
| WalletWorkers.WalletWorker.HandleConfirmedTransaction | src/wallet/wallet.worker.ts:334-358 | A confirmed order is answered with the transaction confirmed and its receipt |
| WalletWorkers.WalletWorker.HandleRejectedTransaction | src/wallet/wallet.worker.ts:360-408 | A failed order is requeued under exactly the conditions of the code, else answered with its error |
| WalletWorkers.WalletWorker.HandleUnconfirmedTransaction | src/wallet/wallet.worker.ts:410-419 | A cancelled order is answered with 'Transaction cancelled.' and the receipt of the cancellation |
| WalletWorkers.WalletWorker.SubmitHandleOrder | src/wallet/queues/submit-queue.ts:29-49 | A passed deadline ends the handler in the queue object with its error and sends nothing; otherwise the nonce in the request is the current one |
| WalletWorkers.WalletWorker.SubmitOrderSent | src/wallet/queues/submit-queue.ts:51-55 | The shared nonce advances only with an accepted transaction, which carries the nonce read before; the queue object moves its order on accordingly |
| WalletWorkers.WalletWorker.SubmitHandleFailedOrder | src/wallet/queues/submit-queue.ts:58-93 | Only nonce errors resync and are retried by the queue object; every other error is recorded and ends the order |
| WalletWorkers.WalletWorker.ConfirmHandleOrder | src/wallet/queues/confirm-queue.ts:37-117 | Waits on the first try, reprices once with the original nonce, then waits for either transaction, and hands the outcome to the queue object |
| WalletWorkers.WalletWorker.ConfirmHandleFailedOrder | src/wallet/queues/confirm-queue.ts:119-199 | The queue object retries exactly a timeout of the original and every failure of a repriced transaction; anything else is recorded |
| WalletRoutingRuns.EachPromiseResolvesOnce | src/wallet/wallet.interface.ts:23-129 | In every run a request stands in exactly one place and its promise is pending or resolved exactly once |
| WalletRoutingRuns.ResolvedOnlyByOwn | src/wallet/wallet.interface.ts:33-62 | In every run a promise is resolved by the very answer a worker of its own chain gave to its own request, which no worker answers twice, or by an exit of a worker of that chain |
| WalletRoutingRuns.LostAreResolved | src/wallet/wallet.service.ts:231-241 | In every run, once a client has read its port, every request it had with a worker that exited is resolved |
| WalletRoutingRuns.ServedAreResolved | src/wallet/wallet.service.ts:243-260 | In every run, once the service has routed what a worker sent and the client has read its port, every request served there is resolved exactly once, by the very answer given unless a worker of the chain exited |
| WalletRoutingRuns.DrainedResolves | src/wallet/wallet.interface.ts:23-129 | In every run, once nothing is under way for a request that is not queued at the service, its promise is resolved exactly once |
| WalletRoutingRuns.QueuedRequestsAreNeverServed | src/wallet/wallet.service.ts:231-241 | In every run a queued request keeps its place for ever and no worker ever gets it, however often workers are spawned |
| WalletRoutingRuns.ServableExactly | src/wallet/wallet.service.ts:298-328 | In every run, when the service receives a request, some continuation answers it if and only if the worker of its chain is alive at that moment |
| WalletRoutingRuns.QueuedBesideLiveWorker | src/wallet/wallet.service.ts:231-241 | For every chain and request there is a run after which the request is queued although the worker of its chain is alive |
| WalletRoutingRuns.StepTracks | src/wallet/wallet.service.ts:298-371 | No step of clients, service or workers loses or duplicates a request or a promise |
| WalletRoutingRuns.StepGenuine | src/wallet/wallet.service.ts:243-260 | Every reply under way and every resolution carries the answer a worker gave to the request it addresses; every notice follows an exit |
| WalletRoutingRuns.StepChains | src/wallet/wallet.service.ts:207-241 | A chain never has two workers, and its queue of messages only grows at the end |
| WalletRouting.RecoverKeepsOrder | src/wallet/wallet.service.ts:348-372 | Recovery hands the queue to a live worker complete and in order, and with a null worker leaves it as it was |
| WalletObjects.WalletInterface.Request | src/wallet/wallet.interface.ts:30-78 | The promise is registered under an id no pending promise and no message in transit has, and the message leaves only once its listener is in place |
| WalletObjects.WalletInterface.PostMessage | src/wallet/wallet.interface.ts:63-77 | A message may be posted only when the listener for its id is registered |
| WalletObjects.WalletInterface.OnMessage | src/wallet/wallet.interface.ts:33-62 | Exactly the listeners a message concerns resolve, in order, and are removed, a reply resolving at most one; in any system the client takes its delivery step |
| WalletObjects.WalletService.AttachToWallet | src/wallet/wallet.service.ts:279-296 | In any system the service gets a new port of the next number |
| WalletObjects.WalletService.HandleWalletPortData | src/wallet/wallet.service.ts:298-328 | A message goes to the live worker of its chain or to the end of its queue, other chains are untouched; in any system this is the receiving step |
| WalletObjects.WalletService.AbortPendingRequests | src/wallet/wallet.service.ts:330-346 | Every port gets one crash notice |
| WalletObjects.WalletService.RecoverQueuedMessages | src/wallet/wallet.service.ts:348-372 | The loop refines the recovery function |
| WalletObjects.WalletService.OnWorkerExit | src/wallet/wallet.service.ts:231-241 | Notices first, then the spawn up to its first await, then the recovery; in any system this is the exit step |
| WalletObjects.WalletService.OnWorkerMessage | src/wallet/wallet.service.ts:243-260 | The next answer of a worker goes unchanged to the port it names, or is dropped if there is none; in any system this is the routing step |
| WalletObjects.WalletService.BeginSpawn | src/wallet/wallet.service.ts:207-210 | A spawn counts as pending until its configuration is there; in any system this is the start-up step |
| WalletObjects.WalletService.EndSpawn | src/wallet/wallet.service.ts:219-222 | The worker becomes available and queued messages stay queued; in any system this is the spawned step |
| SubmitterRuns.OrdersConserved | src/submitter/submitter.worker.ts:164-214 | In every run an order is in exactly one place of the submitter or was submitted or dropped exactly once |
| SubmitterRuns.AdmissionBounded | src/submitter/submitter.worker.ts:320-352 | In every run the orders that came through the pending queue and are past it and not yet done never exceed maxPendingTransactions, although orders with priority enter beside it; whatever waits in that queue or is taken from it came through it on arrival, so none escapes the count |
| SubmitterRuns.ReturnsBounded | src/submitter/submitter.worker.ts:183-214 | In every run an order returns to the pending queue at most maxEvaluationDuration / evaluationRetryInterval times |
| SubmitterRuns.ReturnsFollowDeclines | src/submitter/submitter.worker.ts:185-211 | In every run a waiting order was declined once for each of its returns, and after a return is due before its deadline |
| SubmitterRuns.EvaluationsBounded | src/submitter/submitter.worker.ts:164-214 | In every run an order is evaluated at most max(1, maxTries) (1 + maxEvaluationDuration / evaluationRetryInterval) times |
| SubmitterRuns.SubmittedOnce | src/submitter/submitter.worker.ts:164-181 | In every run an order enters the submission queue at most once over all its visits and is handed to the wallet at most max(1, maxTries) times |
| SubmitterDecisions.EvaluationExactly | src/submitter/queues/eval-queue.ts:47-139 | An evaluation promises a submission if and only if a bounty is stored, the message is not yet delivered (a delivery) or claimed (an ack), the gas was estimated, and the order has priority, its own or the stored one, or the evaluator said yes; it is a delivery exactly if the bounty is on another chain; without a submission it ends exactly for a relayed message or a no |
| SubmitterDecisions.SubmittedWasOpen | src/submitter/queues/eval-queue.ts:81-139 | In every run whatever entered the submission queue had, on that visit, an evaluation that found it unrelayed, with its gas estimated, and urgent or profitable |
| SubmitterDecisions.HandedOverAsEvaluated | src/submitter/queues/eval-queue.ts:75-139 | In every run what is handed to the submission queue is a delivery exactly as its evaluation found |
| SubmitterDecisions.ArrivalExactly | src/submitter/submitter.worker.ts:256-318 | In every run an order with priority goes straight to evaluation, any other waits for its delay behind all orders due no later and before all others |
| SubmitterDecisions.PendingTakenExactly | src/submitter/submitter.worker.ts:320-352 | In every run a pass takes the first orders of the pending queue, all of them due and never more than there is room for, and leaves a due one only when the room is used up |
| SubmitterDecisions.ReconsideredExactly | src/submitter/submitter.worker.ts:164-214 | In every run the completed evaluations go on; an order without a submission waits again, with its flag cleared, exactly if it asked for it and the next visit falls within its deadline; all others end |
| SubmitterRuns.StepLeaves | src/submitter/submitter.worker.ts:164-214 | No step hands on to the submission queue a visit it does not take from the evaluation queue |
| SubmitterRuns.StepAccounts | src/submitter/submitter.worker.ts:164-214 | No step loses or duplicates a visit |
| SubmitterRuns.StepTimed | src/submitter/submitter.worker.ts:183-214 | Deadlines, retry flags and the count of declines stay consistent wherever an order stands, and the pending queue stays sorted |
| SubmitterWorkers.SubmitterWorker.KeepsItsPromises | src/submitter/submitter.worker.ts:164-214 | Of every valid submitter object, hence after any sequence of its methods: an order has one place or was ended once, and its submission queue object got it at most once |
| SubmitterWorkers.SubmitterWorker.AddSubmitOrder | src/submitter/submitter.worker.ts:256-297 | Priority goes straight to the evaluation queue, everything else waits for its delay |
| SubmitterWorkers.SubmitterWorker.AddPendingOrder | src/submitter/submitter.worker.ts:301-318 | The order is inserted behind all orders due no later |
| SubmitterWorkers.SubmitterWorker.ProcessPendingQueue | src/submitter/submitter.worker.ts:320-352 | Takes all due orders of the queue, or as many as the capacity allows |
| SubmitterWorkers.SubmitterWorker.ProcessNoSubmitEvalOrders | src/submitter/submitter.worker.ts:183-214 | Each declined order goes back once or is dropped at its deadline, by the clock read for that order |
| SubmitterWorkers.SubmitterWorker.CollectEvaluated | src/submitter/submitter.worker.ts:170-172 | The evaluation queue's results go on, back, or out |
| SubmitterWorkers.SubmitterWorker.Evaluate | src/submitter/queues/eval-queue.ts:47-139 | The handler's branches, in the order of the code, give the outcome function of the evaluation step, history of declines included |
| PendingQueue.InsertKeepsSorted | src/submitter/submitter.worker.ts:301-318 | The queue stays sorted by due time, first come first on ties |
| PendingQueue.DueIsPrefix | src/submitter/submitter.worker.ts:324-331 | The due orders are exactly a prefix, so the scan misses none |
| PendingQueue.TakesEarliestDue | src/submitter/submitter.worker.ts:320-338 | What is taken is due and stands before everything left; a due order is left only when the capacity ran out |
| Store.OrderAndDuplicatesDoNotMatter | src/store/store.lib.ts:262-317 | Any order and any duplicates of consistent events give the same record |
| Store.OrderFreeExactly | src/store/store.lib.ts:284-306 | The store is independent of order on a set of events exactly when they are pairwise compatible |
| Store.FoldIsJoin | src/store/store.lib.ts:262-317 | The record is the join of the events: one value per kind, the highest price pair |
| Store.PairCommutesExactly | src/store/store.lib.ts:274-305 | Two events commute exactly when they are compatible |
| Store.IncomingStatusDoesNotLeak | src/store/store.lib.ts:308-314 | The stored status is a function of the stored events; the status of the incoming record has no influence |
| Store.StatusNeverDecreases | src/store/store.lib.ts:308-314 | Over any run the status never goes down |
| Store.PricesFallExactly | src/store/store.lib.ts:282-298 | A stored price falls exactly when an event raises one price and lowers the other |
| Store.PricesNeverFall | src/store/store.lib.ts:282-302 | Along consistent events stored prices never fall |
| StoreJson.JsonRoundTrip | src/store/store.lib.ts:214-253 | Reading back the string form recovers every number |
| StoreJson.RelayStore.UpdateRelayState | src/store/store.lib.ts:262-317 | The stepwise merge on stored strings does what the merge on integers does, and touches no other record |
| StoreJson.RelayStore.MergeIncrease | src/store/store.lib.ts:282-302 | Comparing with the stored texts read back decides as comparing the stored numbers does |
| StoreJson.RelayStore.SetEvent | src/store/store.lib.ts:320-385 | Each event method adds exactly its event |
| StoreJson.RelayStore.GetRelayState | src/store/store.lib.ts:214-258 | Returns the record last stored under the message |
| StoreJson.SameRecordExactly | src/store/store.lib.ts:206-212 | Two message identifiers name the same record if and only if they are equal up to case |
| Decimal.RoundTrip | src/store/store.lib.ts:249-251 | Parsing the decimal text of an integer gives the integer back, negative ones included |
| Evaluator.MaxGasLossCoversAllUsages | src/evaluator/evaluator.worker.ts:456-495 | The two endpoint scenarios bound the ack profit from below for every gas usage up to the bounty's maximum |
| Evaluator.MaxGasLossIsAttained | src/evaluator/evaluator.worker.ts:456-495 | The bound is exact: some usage attains it |
| Evaluator.CapIsUnnecessary | src/evaluator/evaluator.worker.ts:476-480 | Capping the verification gas by the maximum would never change the result, as the note claims |
| Evaluator.DeliveryFigures | src/evaluator/evaluator.worker.ts:183-233 | Cost, reward and loss a delivery is judged by are estimate times price plus additional fee plus packet value; price in force times the rewarded gas; and the loss of the worst ack, attained by some usage |
| Evaluator.DeliveryRelayedExactly | src/evaluator/evaluator.worker.ts:183-245 | A delivery is relayed if and only if, without an ack and with one of any gas usage, its reward over the factor beats its cost by more than the minimum, or by more than the relative minimum, a cost of zero included |
| Evaluator.AckRelayedExactly | src/evaluator/evaluator.worker.ts:311-402 | An ack is evaluated exactly on the bounty's chain, and relayed if and only if it makes a gain with the reward of an own delivery, or by itself more than the minimum or the relative minimum of its cost |
| Evaluator.DeliveryIsSound | src/evaluator/evaluator.worker.ts:188-245 | With a factor of at least 1, a delivery that is relayed earns, by bounty, prices, estimate and configuration, more than its gas, additional fee and packet value cost, for every gas usage of the later ack |
| Evaluator.DeliverySoundExactly | src/evaluator/evaluator.worker.ts:188-245 | The decision is sound on all inputs exactly for factors of at least 1 |
| Evaluator.SmallFactorRelaysAtNoGain | src/evaluator/evaluator.worker.ts:206-245 | For every factor below 1, a bounty that breaks even is relayed without gain |
| Evaluator.AckIsSound | src/evaluator/evaluator.worker.ts:349-402 | The reward of an ack that is relayed, with that of an own delivery, exceeds its gas, additional fee and value; for a factor of at least 1 by the bounty's own terms, divisions by zero included |
| Evaluator.AckSoundExactly | src/evaluator/evaluator.worker.ts:349-402 | On all inputs a relayed ack makes a gain by the bounty's own terms exactly for factors of at least 1 |
| Evaluator.SmallFactorAcksAtNoGain | src/evaluator/evaluator.worker.ts:362-402 | For every factor below 1, an ack that breaks even is relayed without gain |
| TransactionHelper.ScaleRaises | src/wallet/transaction-helper.ts:366-383 | Scaling never lowers a fee, and raises it exactly when the surplus reaches one unit |
| TransactionHelper.NormalFeesExactly | src/wallet/transaction-helper.ts:231-279 | Gas price and priority fee are the queried ones times their factors, rounded down, or their limits if lower; a configured maximum fee replaces the queried one; a zero gas price stays |
| TransactionHelper.PriorityFeesExactly | src/wallet/transaction-helper.ts:281-300 | Every priority fee is the normal one times the priority factor, rounded down |
| TransactionHelper.OneFeeModel | src/wallet/transaction-helper.ts:308-325 | A transaction pays a priority fee exactly if one is quoted, and then no gas price |
| TransactionHelper.CapsHold | src/wallet/transaction-helper.ts:231-305 | Normal fees respect the configured caps, priority fees the scaled caps |
| TransactionHelper.PriorityDominates | src/wallet/transaction-helper.ts:281-300 | Priority fees have the same fields as normal ones and are never lower |
| TransactionHelper.RepricingRaisesFees | src/wallet/transaction-helper.ts:327-383 | A replacement has exactly the fee fields of the original, none lower, and strictly higher exactly under the stated condition |
| TransactionHelper.ReplacementBeatsFreshFees | src/wallet/transaction-helper.ts:327-383 | A replacement never offers less than a fresh transaction would on a field both have |
| TransactionHelper.Helper.GetAdjustedFeeData | src/wallet/transaction-helper.ts:231-305 | The stepwise edits of the cached data give the adjusted fees field by field |
| BlockScanner.ScanCoversExactly | src/getter/getter.worker.ts:113-160 | In every run, wherever the start, the blocks scanned are those from the start to before `fromBlock`, or up to the stop after an exit, each once; no window reaches past what the getter had received, past the monitor's last broadcast or past the stop, or holds more than maxBlocks + 1 blocks |
| BlockScanner.WindowExactly | src/getter/getter.worker.ts:117-142 | In every run an iteration queries exactly if the block last received is not 0 and not before `fromBlock`, up to the least of that block, the stop and the limit per query |
| BlockScanner.WindowsAreFull | src/getter/getter.worker.ts:117-152 | In every run each window ends at the stop, holds exactly maxBlocks + 1 blocks or ends at a block received |
| BlockScanner.StartExactly | src/getter/getter.worker.ts:167-194 | The start is the status, or as far before it as a negative setting says, or the block set; it fails exactly for an offset past block 0, and the first iteration queries exactly if the start is there already |
| BlockScanner.NewestIsBroadcast | src/monitor/monitor.worker.ts:96-153 | Over any run the last broadcast block is the newest of all blocks polled |
| BlockScanner.EmptyWindowExactly | src/getter/getter.worker.ts:117-152 | Windows are non-empty exactly when the start is not past the stop; a start past it leads to one query of an empty range and the exit |
| BlockScanner.EmptyWindowReached | src/getter/getter.worker.ts:117-152 | Every getter that starts past its stop, at or below its first status, makes the empty query in its first iteration |
| BlockScanner.FeedIncreases | src/monitor/monitor.worker.ts:96-153 | In every run the blocks a getter receives strictly increase |
| BlockScanner.MonitorWorker.Pass | src/monitor/monitor.worker.ts:96-153 | Every port gets a newer block, or none gets anything |
| BlockScanner.GetterWorker.constructor | src/getter/getter.worker.ts:167-194 | The scan starts at the configured block, or relative to the first status |
| BlockScanner.GetterWorker.OnStatus | src/getter/getter.worker.ts:96-98 | The listener takes the next block of the feed |
| BlockScanner.GetterWorker.BeginIteration | src/getter/getter.worker.ts:117-142 | Chooses the next window as the step does |
| BlockScanner.GetterWorker.EndIteration | src/getter/getter.worker.ts:144-158 | Advances past a scanned window, stays on a failed one, exits at the stop |
| Payload.DecodeUndoesEncodeExactly | src/payload/decode.payload.ts:76-155 | For all fields of both contexts, decoding gives back what was encoded exactly when the body contains no `0x` |
| Payload.HexPayloadRoundTrip | src/payload/decode.payload.ts:76-155 | For every message that is itself hexadecimal, decoding undoes encoding, with and without a leading `0x` |
| Payload.EncodeUndoesDecode | src/payload/decode.payload.ts:76-155 | Every hex payload that is well-formed up to the case of its digits is the encoding, in lower case, of what it decodes to |
| Payload.CaseDoesNotMatter | src/payload/decode.payload.ts:76-155 | For every text of hex digits, lowering its case lowers the texts read out and changes no number and no outcome |
| Payload.AddressRoundTrip | src/payload/decode.payload.ts:1-11 | An address of up to 64 bytes in its 65-byte form decodes to itself |
| Payload.ParsePayload | src/payload/decode.payload.ts:76-155 | The stepping counter cuts the fields the slice function gives, for any text at all, white space that `parseInt` and `BigInt` skip included |

## Left out

- Payload.ParsePayload: an execution time beyond the exact range of JavaScript doubles is not rounded as `parseInt` rounds it.
- Evaluator.DeliveryIsSound: fiat prices are reals, so floating-point rounding of prices, factors and `Number(bigint)` is not captured.
- Evaluator.AckIsSound: as for deliveries; the fiat value of the delivery reward is only logged and left out.
- WalletWorkerTheorems.AnsweredOnceDrained: says nothing about whether the worker drains, since cancelling a transaction waits, without a bound, until its nonce is used.
- StoreJson.RelayStore.UpdateRelayState: two updates that interleave between read and write are not modelled; the code does not exclude lost updates.
- Wallet cancellation itself (its retries, stall and recovery, and the nonce it reuses on purpose), balances and the balance check.
- The checks of the submitter's queues that only decide whether to retry an error; any choice is allowed here.
- RPC providers, signing, Redis, Postgres, HTTP and WebSocket controllers: their answers are event arguments.
- Collectors, persister, pricing providers and chain resolvers: their scan loops repeat the getter's, the rest wraps outside services.
- NestJS modules, configuration loading, status logs.
- Success of event handlers in the getter: failures are logged and skipped by the code, so coverage is of blocks.
- Eventual service of requests that arrive while a wallet worker is down: the code does not give it.
