/**
 * What the wallet worker decides: when it sends, retries, reprices, requeues and answers, said of every
 * reachable state in terms of its fields and of the event.
 */
module WalletWorkerDecisions {
  import opened Common
  import opened Queue
  import opened QueueBounds
  import opened QueuePasses
  import opened Tickets
  import opened W = WalletWorker
  import Theorems = WalletWorkerTheorems
  import QueueRuns

  // ---------------------------------------------------------------------------------------------
  // Errors
  // ---------------------------------------------------------------------------------------------

  predicate OccursAt(part: string, s: string, i: nat) {
    i + |part| <= |s| && s[i..i + |part|] == part
  }

  ghost predicate Occurs(part: string, s: string) {
    exists i: nat :: OccursAt(part, s, i)
  }

  lemma {:induction false} ContainsExactly(s: string, part: string)
    ensures Contains(s, part) <==> Occurs(part, s)
    decreases |s|
  {
    if |s| >= |part| {
      if s[..|part|] == part {
        assert OccursAt(part, s, 0);
      } else if s != "" {
        ContainsExactly(s[1..], part);
        if i: nat :| OccursAt(part, s, i) {
          assert i > 0 && s[1..][i - 1..i - 1 + |part|] == s[i..i + |part|];
          assert OccursAt(part, s[1..], i - 1);
        }
        if i: nat :| OccursAt(part, s[1..], i) {
          assert s[i + 1..i + 1 + |part|] == s[1..][i..i + |part|];
          assert OccursAt(part, s, i + 1);
        }
      }
    }
  }

  /** The two codes, or the phrase anywhere in the message of the nested error. */
  lemma NonceErrorExactly(e: Error)
    ensures NonceError(e) <==>
            || Code(e) in {"NONCE_EXPIRED", "REPLACEMENT_UNDERPRICED"}
            || (Nested(e).Some? && Occurs("invalid sequence", Nested(e).value))
  {
    if Nested(e).Some? {
      ContainsExactly(Nested(e).value, "invalid sequence");
    }
  }

  // ---------------------------------------------------------------------------------------------
  // Submission
  // ---------------------------------------------------------------------------------------------

  /** A pass takes the oldest requests that fit: what it leaves waiting had no room beside the orders in
      the two queues and the requests it takes. */
  lemma RequestsTakenExactly(cfg: W.Config, s: W.State)
    requires Theorems.Reachable(cfg, s) && Possible(s, TakeNew)
    ensures var s1 := W.Step(cfg, s, TakeNew);
            && s1.pc.AddingNew? && s.newRequests == s1.pc.todo + s1.newRequests
            && (s1.newRequests != [] ==> |s1.pc.todo| + s.submit.size + s.confirm.size == cfg.maxPendingTransactions)
  {
    Theorems.CapacityHolds(cfg, s);
  }

  /** A send begins exactly when the order has no deadline or it has not passed, with the current nonce;
      otherwise nothing is sent and the order fails with the error for it. */
  lemma SendStartsExactly(cfg: W.Config, s: W.State, now: int)
    requires Theorems.Reachable(cfg, s) && Possible(s, SubmitBegin(now))
    ensures var s1, po := W.Step(cfg, s, SubmitBegin(now)), s.submit.current.value.po;
            var deadline := po.order.val.address.options.deadline;
            if deadline.None? || now <= deadline.value
            then s1.sending == Some(s.nonce) && s1.submit == s.submit
            else && s1.sending.None? && s1.nonces == s.nonces
                 && s1.submit.current
                    == Some(Task(po.(order := po.order.(val := po.order.val.(raised := Some(DEADLINE)))), Failing))
  {
  }

  /** A send that was accepted is recorded with the nonce it used and takes the nonce one further; one that
      was refused fails its order with the error and moves nothing. */
  lemma SendEndsExactly(cfg: W.Config, s: W.State, o: SendOutcome)
    requires Theorems.Reachable(cfg, s) && Possible(s, SubmitEnd(o))
    ensures var s1, po := W.Step(cfg, s, SubmitEnd(o)), s.submit.current.value.po;
            && s1.sending.None?
            && match o
               case Accepted(hash) =>
                 && s1.nonce == s.nonce + 1 && s1.nonces == s.nonces + [Sent(po.order.id, s.nonce, hash)]
                 && s1.submit.tasks == s.submit.tasks
                      + [Task(po.(order := po.order.(val := po.order.val.(sent := Some(Tx(hash, s.nonce))))), InFlight)]
               case Refused(error) =>
                 && s1.nonce == s.nonce && s1.nonces == s.nonces + [Failed(po.order.id, s.nonce)]
                 && s1.submit.current
                    == Some(Task(po.(order := po.order.(val := po.order.val.(raised := Some(error)))), Failing))
  {
    Theorems.NonceUntouchedWhileSending(cfg, s);
  }

  /** Whether the error of a failed send sends it again after a resync of the nonce. */
  ghost predicate Resyncs(e: Error) {
    && Message(e) != "Transaction submission deadline exceeded."
    && (|| Code(e) in {"NONCE_EXPIRED", "REPLACEMENT_UNDERPRICED"}
        || (Nested(e).Some? && Occurs("invalid sequence", Nested(e).value)))
  }

  /** A failed send resyncs the nonce exactly on a nonce error, and then waits for another try if it has
      one left; on any other error, a passed deadline among them, the order is closed with that error. */
  lemma SubmitFailureExactly(cfg: W.Config, s: W.State, now: int, pendingNonce: nat)
    requires Theorems.Reachable(cfg, s) && Possible(s, SubmitFailed(now, pendingNonce))
    ensures var s1, t := W.Step(cfg, s, SubmitFailed(now, pendingNonce)), s.submit.current.value;
            var order := t.po.order.val;
            var val := if Resyncs(order.raised.value) then order else order.(submissionError := order.raised);
            && (Resyncs(order.raised.value) ==>
                  s1.nonce == pendingNonce && s1.nonces == s.nonces + [Resync(pendingNonce)])
            && (!Resyncs(order.raised.value) ==> s1.nonce == s.nonce && s1.nonces == s.nonces)
            && SettledInForeground(cfg.queues, s.submit, s1.submit, Resyncs(order.raised.value), val, now)
  {
    Theorems.ReachableIsGood(cfg, s);
    var order := s.submit.current.value.po.order.val;
    FailedSubmitExactly(order, order.raised.value);
    var (retry, val) := HandleFailedSubmit(order, order.raised.value);
    SubmitFailedSteps(cfg, s, now, pendingNonce, retry, val);
    FailureInForeground(cfg.queues, s.submit, retry, val, now);
  }

  lemma FailedSubmitExactly(order: WalletRequest, e: Error)
    ensures HandleFailedSubmit(order, e)
            == if Resyncs(e) then (true, order) else (false, order.(submissionError := Some(e)))
  {
    NonceErrorExactly(e);
  }

  lemma SubmitFailedSteps(
    cfg: W.Config, s: W.State, now: int, pendingNonce: nat, retry: bool, val: WalletRequest)
    requires QueueRuns.Good(cfg.queues, s.submit) && Possible(s, SubmitFailed(now, pendingNonce))
    requires var order := s.submit.current.value.po.order.val;
             (retry, val) == HandleFailedSubmit(order, order.raised.value)
    ensures var s1 := W.Step(cfg, s, SubmitFailed(now, pendingNonce));
            && s1.submit == Queue.Step(cfg.queues, s.submit, Foreground(FailureHandled(retry, val, now)))
            && s1.nonce == (if retry then pendingNonce else s.nonce)
            && s1.nonces == s.nonces + if retry then [Resync(pendingNonce)] else []
  {
  }

  /** What leaves the submission queue without a transaction is answered at once: the given up with their
      own errors, then those out of tries with the error for that. */
  lemma SubmitAnswersExactly(cfg: W.Config, s: W.State, i: nat)
    requires Theorems.Reachable(cfg, s) && Possible(s, FlushSubmit)
    requires i < |s.submit.skipped| + |s.submit.rejected|
    ensures var s1 := W.Step(cfg, s, FlushSubmit);
            && s1.pc == AddingPending(s.submit.completed)
            && |s1.answers| == |s.answers| + |s.submit.skipped| + |s.submit.rejected|
            && s1.answers[..|s.answers|] == s.answers
            && var a := s1.answers[|s.answers| + i];
               var o, e := if i < |s.submit.skipped| then s.submit.skipped[i]
                           else s.submit.rejected[i - |s.submit.skipped|],
                           if i < |s.submit.skipped| then s.submit.skipped[i].val.submissionError else Some(MAX_TRIES);
               && a.ticket == o.id && a.portId == o.val.address.portId && a.messageId == o.val.address.messageId
               && a.tx.None? && a.txReceipt.None? && a.confirmationError.None?
               && e.Some? && a.cause == e && a.submissionError == Some(Text(e.value))
  {
    Theorems.ReachableContents(cfg, s);
    if i < |s.submit.skipped| {
      Theorems.InvalidHasError(s, i);
    }
  }

  // ---------------------------------------------------------------------------------------------
  // Confirmation
  // ---------------------------------------------------------------------------------------------

  /** A try sends a replacement exactly when it is not the first and none was sent: an accepted one is
      recorded, with the nonce of the original, and waited for; a refused one fails the try. Every other
      try waits with what was sent. */
  lemma RepricedExactly(cfg: W.Config, s: W.State, o: SendOutcome)
    requires Theorems.Reachable(cfg, s) && Possible(s, ConfirmHandled(o))
    ensures var s1, po := W.Step(cfg, s, ConfirmHandled(o)), s.confirm.current.value.po;
            var order := po.order.val;
            if po.retryCount > 0 && order.txReplacement.None? then
              match o
              case Accepted(hash) =>
                && s1.replacements == s.replacements + [Replacement(po.order.id, order.tx.nonce, hash)]
                && s1.confirm.current.None?
                && s1.confirm.tasks == s.confirm.tasks
                     + [Task(po.(order := po.order.(val := order.(txReplacement := Some(Tx(hash, order.tx.nonce))))),
                             InFlight)]
              case Refused(_) =>
                s1.replacements == s.replacements && s1.confirm.current == Some(Task(po, Failing))
            else
              && s1.replacements == s.replacements && s1.confirm.current.None?
              && s1.confirm.tasks == s.confirm.tasks + [Task(po, InFlight)]
  {
    var po := s.confirm.current.value.po;
    assert po.(order := po.order.(val := po.order.val)) == po;
  }

  /** A failed confirmation below the last try waits for another one exactly when it is not the first or
      the error is a timeout: so a timeout of the original leads to the repricing. Any other first error is
      recorded and the order given up; after the last try the order is rejected. */
  lemma ConfirmFailureExactly(cfg: W.Config, s: W.State, background: Option<nat>, error: Error, now: int)
    requires Theorems.Reachable(cfg, s) && Possible(s, ConfirmFailed(background, error, now))
    ensures var s1, t := W.Step(cfg, s, ConfirmFailed(background, error, now)), FailedTask(s, background).value;
            var again := t.po.retryCount > 0 || Code(error) == "TIMEOUT";
            var val := if again then t.po.order.val else t.po.order.val.(confirmationError := Some(error));
            match background
            case None => SettledInForeground(cfg.queues, s.confirm, s1.confirm, again, val, now)
            case Some(k) => SettledInBackground(cfg.queues, s.confirm, s1.confirm, k, again, val, now)
  {
    Theorems.ReachableIsGood(cfg, s);
    var t := FailedTask(s, background).value;
    var (retry, val) := HandleFailedConfirm(t.po.order.val, t.po.retryCount, error);
    match background
    case None => FailureInForeground(cfg.queues, s.confirm, retry, val, now);
    case Some(k) => FailureInBackground(cfg.queues, s.confirm, k, retry, val, now);
  }

  // ---------------------------------------------------------------------------------------------
  // After confirmation
  // ---------------------------------------------------------------------------------------------

  /** s1 has the answers of s and one more. */
  ghost predicate OneMore(s: W.State, s1: W.State) {
    |s1.answers| == |s.answers| + 1 && s1.answers[..|s.answers|] == s.answers
  }

  /** An order given up on confirmation goes round again, as the next lap of its request, exactly on a
      nonce error within its laps unless its sender opted out; otherwise it is answered with its error. */
  lemma RequeuedExactly(cfg: W.Config, s: W.State)
    requires Theorems.Reachable(cfg, s) && Possible(s, HandleRejected)
    ensures var s1, o := W.Step(cfg, s, HandleRejected), s.pc.failed[0];
            var e := o.val.confirmationError;
            && e.Some? && s1.pc == s.pc.(failed := s.pc.failed[1..])
            && if && (|| Code(e.value) in {"NONCE_EXPIRED", "REPLACEMENT_UNDERPRICED"}
                      || (Nested(e.value).Some? && Occurs("invalid sequence", Nested(e.value).value)))
                  && o.id.lap < cfg.maxTries
                  && o.val.request.address.options.retryOnNonceConfirmationError != Some(false)
               then && s1.submit.initialising == [Ref(Ticket(o.id.id, o.id.lap + 1),
                                                      WalletRequest(o.val.request.address, None, None, None))]
                    && s1.answers == s.answers
               else && s1.submit == s.submit && OneMore(s, s1)
                    && var a := s1.answers[|s.answers|];
                       && a.ticket == o.id && a.tx == Some(o.val.tx) && a.txReceipt.None?
                       && a.submissionError.None? && a.cause == e && a.confirmationError == Some(Text(e.value))
  {
    Theorems.RepricedNeverRequeued(cfg, s, 0);
    NonceErrorExactly(s.pc.failed[0].val.confirmationError.value);
  }

  /** A confirmed order is answered with the transaction that was confirmed and its receipt. */
  lemma ConfirmedAnswerExactly(cfg: W.Config, s: W.State)
    requires Theorems.Reachable(cfg, s) && Possible(s, AnswerConfirmed)
    ensures var s1, c := W.Step(cfg, s, AnswerConfirmed), s.pc.confirmed[0];
            && s1.pc == s.pc.(confirmed := s.pc.confirmed[1..]) && OneMore(s, s1)
            && var a := s1.answers[|s.answers|];
               && a.ticket == c.id && a.tx == Some(c.val.tx) && a.txReceipt == Some(c.val.txReceipt)
               && a.submissionError.None? && a.confirmationError.None?
  {
  }

  /** A cancelled order is answered with its own transaction, the receipt of the cancellation if there is
      one, and the error for it. */
  lemma CancelledAnswerExactly(cfg: W.Config, s: W.State, receipt: Option<Receipt>)
    requires Theorems.Reachable(cfg, s) && Possible(s, Cancelled(receipt))
    ensures var s1, o := W.Step(cfg, s, Cancelled(receipt)), s.pc.unconfirmed[0];
            && s1.pc == s.pc.(unconfirmed := s.pc.unconfirmed[1..]) && OneMore(s, s1)
            && var a := s1.answers[|s.answers|];
               && a.ticket == o.id && a.tx == Some(o.val.tx) && a.txReceipt == receipt
               && a.submissionError.None? && a.confirmationError == Some(Text(CANCELLED))
  {
  }

  /** The texts clients get for the errors the worker makes itself. */
  lemma OwnErrorTexts()
    ensures Text(DEADLINE) == "Error" + ": " + "Transaction submission deadline exceeded."
    ensures Text(MAX_TRIES) == "Error" + ": " + "Max tries reached."
    ensures Text(CANCELLED) == "Error" + ": " + "Transaction cancelled."
  {
  }
}
