/**
 * The wallet worker object: each method is one segment of `run` or of a handler, and drives the two
 * queue objects. `trace` is its history of segments: a valid object stands where that run leads, so
 * the results about whole runs hold of it.
 */
module WalletWorkers {
  import opened Common
  import opened Queue
  import opened Tickets
  import opened W = WalletWorker
  import opened QueueRuns
  import WalletWorkerRuns
  import Theorems = WalletWorkerTheorems

  class WalletWorker {
    const config: W.Config
    const submitQueue: ProcessingQueue<Lap, WalletRequest, PendingTx>
    const confirmQueue: ProcessingQueue<Lap, PendingTx, ConfirmedTx>
    var newRequestsQueue: seq<SubmitRef>
    var nonce: nat
    var clock: int
    var pc: Pc                  // where `run` is suspended, with the local lists it holds
    var sending: Option<nat>    // the nonce in the request `handleOrder` is sending
    var answers: seq<Answer>    // posted to the service

    var arrived: seq<Address>   // stands for object identity
    ghost var retired: seq<Lap>
    ghost var nonces: seq<NonceEvent>
    ghost var replacements: seq<Replacement>
    ghost const start: int
    ghost const firstNonce: nat
    ghost var trace: seq<W.Event>

    ghost function View(): W.State
      reads this, submitQueue, confirmQueue
    {
      W.State.State(clock, newRequestsQueue, submitQueue.View(), confirmQueue.View(), pc, nonce, sending,
                    firstNonce, arrived, retired, answers, nonces, replacements)
    }

    ghost predicate Valid()
      reads this, submitQueue, confirmQueue
    {
      && submitQueue as object != confirmQueue
      && this as object != submitQueue && this as object != confirmQueue
      && submitQueue.Cfg() == config.queues && confirmQueue.Cfg() == config.queues
      && submitQueue.Valid() && confirmQueue.Valid()
      && W.Run(config, W.Init(start, firstNonce), trace) == Some(View())
    }

    /** Whatever holds in every run holds of a valid object. */
    lemma ValidIsReachable()
      requires Valid()
      ensures Theorems.Reachable(config, View())
    {
    }

    /** For one: each request has one place or one answer, the two queues fit the limit, and a send ends
        with the nonce it read. */
    lemma KeepsItsPromises(x: nat)
      requires Valid()
      ensures CountId(WalletWorkerRuns.Everywhere(View()), x) + CountId(WalletWorkerRuns.AnswerIds(answers), x)
              == if x < |arrived| then 1 else 0
      ensures submitQueue.size + confirmQueue.size <= config.maxPendingTransactions
      ensures sending.Some? ==> sending.value == nonce
    {
      ValidIsReachable();
      Theorems.AnsweredAtMostOnce(config, View(), x);
      Theorems.CapacityHolds(config, View());
      if sending.Some? {
        Theorems.NonceUntouchedWhileSending(config, View());
      }
    }

    /** Notes in the trace the event that led from `before` to here. */
    ghost method Took(before: W.State, e: W.Event)
      requires W.Run(config, W.Init(start, firstNonce), trace) == Some(before)
      requires Possible(before, e) && View() == W.Step(config, before, e)
      modifies this`trace
      ensures W.Run(config, W.Init(start, firstNonce), trace) == Some(View())
      ensures View() == old(View()) && trace == old(trace) + [e]
    {
      Theorems.RunSnoc(config, W.Init(start, firstNonce), trace, e);
      trace := trace + [e];
    }

    constructor (config: W.Config, now: int, nonce: nat)
      ensures Valid() && trace == [] && fresh(submitQueue) && fresh(confirmQueue)
      ensures View() == W.Init(now, nonce) && this.config == config
    {
      this.config := config;
      submitQueue := new ProcessingQueue(config.retryInterval, config.maxTries, Some(1), now);
      confirmQueue := new ProcessingQueue(config.retryInterval, config.maxTries, Some(1), now);
      newRequestsQueue, this.nonce, clock, pc, sending, answers := [], nonce, now, Top, None, [];
      arrived, retired, nonces, replacements := [], [], [], [];
      start, firstNonce, trace := now, nonce, [];
    }

    method AddTransaction(address: Address)
      requires Valid()
      modifies this
      ensures Valid() && trace == old(trace) + [Receive(address)]
      ensures View() == W.Step(config, old(View()), Receive(address))
    {
      ghost var before := View();
      newRequestsQueue := newRequestsQueue + [Ref(Ticket(|arrived|, 0), WalletRequest(address, None, None, None))];
      arrived := arrived + [address];
      Took(before, Receive(address));
    }

    function GetWalletCapacity(): nat
      reads this, submitQueue, confirmQueue
    {
      Capacity(config, submitQueue.size, confirmQueue.size)
    }

    method ProcessNewRequestsQueue()
      requires Valid() && Possible(View(), TakeNew)
      modifies this
      ensures Valid() && trace == old(trace) + [TakeNew]
      ensures View() == W.Step(config, old(View()), TakeNew)
    {
      ghost var before := View();
      var capacity := GetWalletCapacity();
      var i := 0;
      while i < |newRequestsQueue|
        invariant 0 <= i <= |newRequestsQueue| && i <= capacity
      {
        if i + 1 > capacity {
          break;
        }
        i := i + 1;
      }
      pc := AddingNew(newRequestsQueue[..i]);
      newRequestsQueue := newRequestsQueue[i..];
      Took(before, TakeNew);
    }

    /** One pass of `submitQueue.addOrders`, up to its await. */
    method AddNewOrder()
      requires Valid() && Possible(View(), AddNew)
      modifies this, submitQueue
      ensures Valid() && trace == old(trace) + [AddNew]
      ensures View() == W.Step(config, old(View()), AddNew)
    {
      ghost var before := View();
      submitQueue.BeginAddOrder(pc.todo[0]);
      pc := AddingNew(pc.todo[1..]);
      Took(before, AddNew);
    }

    method ProcessSubmitOrders(now: int)
      requires Valid() && Possible(View(), StartSubmit(now))
      modifies this, submitQueue
      ensures Valid() && trace == old(trace) + [StartSubmit(now)]
      ensures View() == W.Step(config, old(View()), StartSubmit(now))
    {
      ghost var before := View();
      clock, pc := now, Submitting;
      submitQueue.ProcessOrders(now);
      Took(before, StartSubmit(now));
    }

    /** `SubmitQueue.handleOrder` up to `sendTransaction`. */
    method SubmitHandleOrder(now: int)
      requires Valid() && Possible(View(), SubmitBegin(now))
      modifies this, submitQueue
      ensures Valid() && trace == old(trace) + [SubmitBegin(now)]
      ensures View() == W.Step(config, old(View()), SubmitBegin(now))
    {
      ghost var before := View();
      var order := submitQueue.current.value.po.order.val;
      var deadline := order.address.options.deadline;
      clock := now;
      if deadline.Some? && now > deadline.value {
        submitQueue.HandleOrderDone(Threw(order.(raised := Some(DEADLINE))));
      } else {
        sending := Some(nonce);
      }
      Took(before, SubmitBegin(now));
    }

    /** The rest of it; the nonce advances only with an accepted transaction. */
    method SubmitOrderSent(outcome: SendOutcome)
      requires Valid() && Possible(View(), SubmitEnd(outcome))
      modifies this, submitQueue
      ensures Valid() && trace == old(trace) + [SubmitEnd(outcome)]
      ensures View() == W.Step(config, old(View()), SubmitEnd(outcome))
    {
      ghost var before := View();
      var how := TakeOutcome(submitQueue.current.value.po.order, outcome);
      submitQueue.HandleOrderDone(how);
      assert View() == SubmitEndStep(config, before, outcome);
      Took(before, SubmitEnd(outcome));
    }

    method TakeOutcome(order: SubmitRef, outcome: SendOutcome) returns (how: Handled<WalletRequest>)
      requires sending.Some?
      modifies this`nonce, this`nonces, this`sending
      ensures how == HandleSent(order.val, old(sending).value, outcome) && sending == None
      ensures nonce == old(nonce) + if outcome.Accepted? then 1 else 0
      ensures nonces == old(nonces) + [if outcome.Accepted? then Sent(order.id, old(sending).value, outcome.hash)
                                       else Failed(order.id, old(sending).value)]
    {
      match outcome {
        case Accepted(hash) =>
          nonces := nonces + [Sent(order.id, sending.value, hash)];
          nonce := nonce + 1;
          how := Promised(order.val.(sent := Some(Tx(hash, sending.value))));
        case Refused(error) =>
          nonces := nonces + [Failed(order.id, sending.value)];
          how := Threw(order.val.(raised := Some(error)));
      }
      sending := None;
    }

    /** `SubmitQueue.handleFailedOrder`; `pendingNonce` is the transaction count the chain reports, with
        pending transactions. */
    method SubmitHandleFailedOrder(now: int, pendingNonce: nat)
      requires Valid() && Possible(View(), SubmitFailed(now, pendingNonce))
      modifies this, submitQueue
      ensures Valid() && trace == old(trace) + [SubmitFailed(now, pendingNonce)]
      ensures View() == W.Step(config, old(View()), SubmitFailed(now, pendingNonce))
    {
      ghost var before := View();
      var retry, order := JudgeFailure(submitQueue.current.value.po.order.val, pendingNonce);
      clock := now;
      submitQueue.ContinueForeground(FailureHandled(retry, order, now));
      assert View() == SubmitFailedStep(config, before, now, pendingNonce);
      Took(before, SubmitFailed(now, pendingNonce));
    }

    method JudgeFailure(order: WalletRequest, pendingNonce: nat) returns (retry: bool, val: WalletRequest)
      requires order.raised.Some?
      modifies this`nonce, this`nonces
      ensures (retry, val) == HandleFailedSubmit(order, order.raised.value)
      ensures nonce == if retry then pendingNonce else old(nonce)
      ensures nonces == if retry then old(nonces) + [Resync(pendingNonce)] else old(nonces)
    {
      var error := order.raised.value;
      if Message(error) == "Transaction submission deadline exceeded." {
        return false, order.(submissionError := Some(error));
      }
      if NonceError(error) {
        nonce := pendingNonce;
        nonces := nonces + [Resync(pendingNonce)];
        return true, order;
      }
      return false, order.(submissionError := Some(error));
    }

    /** The segments the submission queue goes through on its own. */
    method ResumeSubmit(sv: SubmitEvent)
      requires Valid() && Possible(View(), SubmitInner(sv))
      modifies this, submitQueue
      ensures Valid() && trace == old(trace) + [SubmitInner(sv)]
      ensures View() == W.Step(config, old(View()), SubmitInner(sv))
    {
      ghost var before := View();
      submitQueue.Resume(sv);
      Took(before, SubmitInner(sv));
    }

    method SendResult(t: Lap, address: Address, tx: Option<Tx>, txReceipt: Option<Receipt>,
      submissionError: Option<Error>, confirmationError: Option<Error>)
      modifies this`answers
      ensures answers == old(answers) + [Result(t, address, tx, txReceipt, submissionError, confirmationError)]
    {
      answers := answers + [Result(t, address, tx, txReceipt, submissionError, confirmationError)];
    }

    /** Marks the orders out of tries, then answers both lists with their errors. */
    method HandleInvalidTransactions(invalid: seq<SubmitRef>, maxTriesReached: seq<SubmitRef>)
      modifies this`answers
      ensures answers == old(answers) + InvalidAnswers(invalid) + InvalidAnswers(OutOfTries(maxTriesReached))
    {
      var marked: seq<SubmitRef> := [];
      for i := 0 to |maxTriesReached|
        invariant marked == OutOfTries(maxTriesReached[..i])
      {
        var order := maxTriesReached[i];
        marked := marked + [Ref(order.id, order.val.(submissionError := Some(MAX_TRIES)))];
      }
      assert maxTriesReached[..|maxTriesReached|] == maxTriesReached;
      var all := invalid + marked;
      for i := 0 to |all|
        invariant answers == old(answers) + InvalidAnswers(all[..i])
      {
        var order := all[i];
        SendResult(order.id, order.val.address, None, None, order.val.submissionError, None);
        assert InvalidAnswers(all[..i + 1]) == InvalidAnswers(all[..i]) + [answers[|answers| - 1]];
      }
      assert all[..|all|] == all;
      assert InvalidAnswers(all) == InvalidAnswers(invalid) + InvalidAnswers(marked);
    }

    /** The submission queue's results, up to the next `addOrders`. */
    method CollectSubmitted()
      requires Valid() && Possible(View(), FlushSubmit)
      modifies this, submitQueue
      ensures Valid() && trace == old(trace) + [FlushSubmit]
      ensures View() == W.Step(config, old(View()), FlushSubmit)
    {
      ghost var before := View();
      var pending, invalid, maxTriesReached := submitQueue.GetFinishedOrders();
      HandleInvalidTransactions(invalid, maxTriesReached);
      pc := AddingPending(pending);
      Took(before, FlushSubmit);
    }

    /** One pass of `confirmQueue.addOrders`, up to its await. */
    method AddPendingOrder()
      requires Valid() && Possible(View(), AddPending)
      modifies this, confirmQueue
      ensures Valid() && trace == old(trace) + [AddPending]
      ensures View() == W.Step(config, old(View()), AddPending)
    {
      ghost var before := View();
      confirmQueue.BeginAddOrder(pc.pending[0]);
      pc := AddingPending(pc.pending[1..]);
      Took(before, AddPending);
    }

    method ProcessConfirmOrders(now: int)
      requires Valid() && Possible(View(), StartConfirm(now))
      modifies this, confirmQueue
      ensures Valid() && trace == old(trace) + [StartConfirm(now)]
      ensures View() == W.Step(config, old(View()), StartConfirm(now))
    {
      ghost var before := View();
      clock, pc := now, Confirming;
      confirmQueue.ProcessOrders(now);
      Took(before, StartConfirm(now));
    }

    /** `ConfirmQueue.handleOrder`: the first try only waits; later tries reprice once. */
    method ConfirmHandleOrder(outcome: SendOutcome)
      requires Valid() && Possible(View(), ConfirmHandled(outcome))
      modifies this, confirmQueue
      ensures Valid() && trace == old(trace) + [ConfirmHandled(outcome)]
      ensures View() == W.Step(config, old(View()), ConfirmHandled(outcome))
    {
      ghost var before := View();
      var po := confirmQueue.current.value.po;
      var order := po.order.val;
      var how: Handled<PendingTx> := Promised(order);
      if po.retryCount > 0 && order.txReplacement.None? {
        match outcome {
          case Accepted(hash) =>
            replacements := replacements + [Replacement(po.order.id, order.tx.nonce, hash)];
            how := Promised(order.(txReplacement := Some(Tx(hash, order.tx.nonce))));
          case Refused(_) => how := Threw(order);
        }
      }
      assert how == HandleConfirm(order, po.retryCount, outcome);
      confirmQueue.HandleOrderDone(how);
      Took(before, ConfirmHandled(outcome));
    }

    /** `ConfirmQueue.handleFailedOrder`: before the repricing only a timeout is retried; afterwards every
        error is, since either transaction may still go through. */
    method ConfirmHandleFailedOrder(background: Option<nat>, error: Error, now: int)
      requires Valid() && Possible(View(), ConfirmFailed(background, error, now))
      modifies this, confirmQueue
      ensures Valid() && trace == old(trace) + [ConfirmFailed(background, error, now)]
      ensures View() == W.Step(config, old(View()), ConfirmFailed(background, error, now))
    {
      ghost var before := View();
      var t := if background.None? then confirmQueue.current.value else confirmQueue.tasks[background.value];
      var order, retry := t.po.order.val, true;
      if t.po.retryCount == 0 {
        if Code(error) != "TIMEOUT" {
          order, retry := order.(confirmationError := Some(error)), false;
        }
      }
      assert (retry, order) == HandleFailedConfirm(t.po.order.val, t.po.retryCount, error);
      clock := now;
      if background.None? {
        confirmQueue.ContinueForeground(FailureHandled(retry, order, now));
      } else {
        confirmQueue.ContinueBackground(background.value, FailureHandled(retry, order, now));
      }
      Took(before, ConfirmFailed(background, error, now));
    }

    /** The segments the confirmation queue goes through on its own. */
    method ResumeConfirm(cv: ConfirmEvent)
      requires Valid() && Possible(View(), ConfirmInner(cv))
      modifies this, confirmQueue
      ensures Valid() && trace == old(trace) + [ConfirmInner(cv)]
      ensures View() == W.Step(config, old(View()), ConfirmInner(cv))
    {
      ghost var before := View();
      confirmQueue.Resume(cv);
      Took(before, ConfirmInner(cv));
    }

    method CollectConfirmed()
      requires Valid() && Possible(View(), FlushConfirm)
      modifies this, confirmQueue
      ensures Valid() && trace == old(trace) + [FlushConfirm]
      ensures View() == W.Step(config, old(View()), FlushConfirm)
    {
      ghost var before := View();
      var confirmed, rejected, unconfirmed := confirmQueue.GetFinishedOrders();
      pc := Answering(confirmed, rejected, unconfirmed);
      Took(before, FlushConfirm);
    }

    /** One pass of the loop of `handleConfirmedTransactions`. */
    method HandleConfirmedTransaction()
      requires Valid() && Possible(View(), AnswerConfirmed)
      modifies this
      ensures Valid() && trace == old(trace) + [AnswerConfirmed]
      ensures View() == W.Step(config, old(View()), AnswerConfirmed)
    {
      ghost var before := View();
      var transaction := pc.confirmed[0];
      SendResult(transaction.id, transaction.val.pending.request.address, Some(transaction.val.tx),
                 Some(transaction.val.txReceipt), None, None);
      pc := pc.(confirmed := pc.confirmed[1..]);
      Took(before, AnswerConfirmed);
    }

    /** Puts an order round again, as the next lap of its request, or answers it. */
    method Reject(transaction: ConfirmRef)
      requires submitQueue.Valid() && submitQueue as object != confirmQueue && this as object != submitQueue
      modifies this`retired, this`answers, submitQueue
      ensures submitQueue.Valid() && View() == RejectOrder(config, old(View()), transaction)
    {
      var confirmationError := transaction.val.confirmationError;
      if confirmationError.Some? && NonceError(confirmationError.value)
         && transaction.id.lap < config.maxTries
         && transaction.val.request.address.options.retryOnNonceConfirmationError != Some(false)
      {
        retired := retired + [transaction.id];
        var requeueRequest: SubmitRef :=
          Ref(Ticket(transaction.id.id, transaction.id.lap + 1),
              WalletRequest(transaction.val.request.address, None, None, None));
        submitQueue.BeginAddOrder(requeueRequest);
      } else {
        SendResult(transaction.id, transaction.val.request.address, Some(transaction.val.tx), None, None,
                   confirmationError);
      }
    }

    /** One pass of the loop of `handleRejectedTransactions`. */
    method HandleRejectedTransaction()
      requires Valid() && Possible(View(), HandleRejected)
      modifies this, submitQueue
      ensures Valid() && trace == old(trace) + [HandleRejected]
      ensures View() == W.Step(config, old(View()), HandleRejected)
    {
      ghost var before := View();
      var transaction := pc.failed[0];
      pc := pc.(failed := pc.failed[1..]);
      Reject(transaction);
      assert View() == HandleRejectedStep(config, before);
      Took(before, HandleRejected);
    }

    /** One pass of the loop of `handleUnconfirmedTransactions`, after the cancellation. */
    method HandleUnconfirmedTransaction(receipt: Option<Receipt>)
      requires Valid() && Possible(View(), Cancelled(receipt))
      modifies this
      ensures Valid() && trace == old(trace) + [Cancelled(receipt)]
      ensures View() == W.Step(config, old(View()), Cancelled(receipt))
    {
      ghost var before := View();
      var transaction := pc.unconfirmed[0];
      SendResult(transaction.id, transaction.val.request.address, Some(transaction.val.tx), receipt, None,
                 Some(CANCELLED));
      pc := pc.(unconfirmed := pc.unconfirmed[1..]);
      Took(before, Cancelled(receipt));
    }

    /** The end of one pass of `run`. */
    method FinishPass()
      requires Valid() && Possible(View(), EndPass)
      modifies this
      ensures Valid() && trace == old(trace) + [EndPass]
      ensures View() == W.Step(config, old(View()), EndPass)
    {
      ghost var before := View();
      pc := Top;
      Took(before, EndPass);
    }
  }
}
