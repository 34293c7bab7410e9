/**
 * Runs of the wallet worker that lead the submitter into the two branches its code marks as never reached,
 * and one that reprices a transaction.
 */
module WalletWorkerBranches {
  import opened Common
  import opened Queue
  import opened Tickets
  import opened W = WalletWorker
  import opened WalletWorkerTheorems

  /** Nothing but the submission of the first request has happened. */
  ghost predicate Quiet(s: W.State) {
    && s.confirm == Queue.Init(0) && s.answers == [] && s.replacements == [] && s.clock == 0
    && s.newRequests == [] && s.submit.initialising == [] && s.submit.retryQueue == []
  }

  function FirstRef(a: Address): SubmitRef {
    Ref(Ticket(0, 0), WalletRequest(a, None, None, None))
  }

  lemma FirstRequestTaken(cfg: W.Config, a: Address) returns (s: W.State)
    requires cfg.maxPendingTransactions >= 1
    ensures Reachable(cfg, s) && s.pc == AddingNew([FirstRef(a)])
    ensures Quiet(s) && s.sending.None? && s.nonce == 0 && s.submit == Queue.Init(0)
  {
    s := W.Init(0, 0);
    ReachableInit(cfg, 0, 0);
    ReachableStep(cfg, s, Receive(a));
    s := W.Step(cfg, s, Receive(a));
    ReachableStep(cfg, s, TakeNew);
    s := W.Step(cfg, s, TakeNew);
  }

  ghost predicate NothingFinished(s: W.State) {
    s.submit.completed == [] && s.submit.skipped == [] && s.submit.rejected == []
  }

  lemma FirstRequestQueued(cfg: W.Config, a: Address) returns (s: W.State)
    requires cfg.maxPendingTransactions >= 1
    ensures Reachable(cfg, s) && s.pc == AddingNew([]) && Quiet(s) && s.sending.None? && NothingFinished(s)
    ensures s.submit.newQueue == [FirstRef(a)] && s.submit.tasks == [] && s.nonce == 0
    ensures s.submit.main.Idle? && s.submit.current.None? && s.submit.clock == 0 && s.submit.pendingCount == 0
  {
    s := FirstRequestTaken(cfg, a);
    ReachableStep(cfg, s, AddNew);
    s := W.Step(cfg, s, AddNew);
    ReachableStep(cfg, s, SubmitInner(AddEnd(0, FirstRef(a).val)));
    s := W.Step(cfg, s, SubmitInner(AddEnd(0, FirstRef(a).val)));
  }

  lemma FirstRequestHandled(cfg: W.Config, a: Address) returns (s: W.State)
    requires cfg.maxPendingTransactions >= 1
    ensures Reachable(cfg, s) && s.pc.Submitting? && Quiet(s) && s.sending.None? && NothingFinished(s)
    ensures s.submit.current == Some(Task(ProcessOrder(FirstRef(a), 0, 0), Handling)) && s.submit.clock == 0
    ensures s.submit.tasks == [] && s.nonce == 0
    ensures s.submit.main == Running([], 1) && |s.submit.newQueue| == 1
  {
    s := FirstRequestQueued(cfg, a);
    ReachableStep(cfg, s, StartSubmit(0));
    s := W.Step(cfg, s, StartSubmit(0));
    ReachableStep(cfg, s, SubmitInner(Next));
    s := W.Step(cfg, s, SubmitInner(Next));
  }

  lemma FirstRequestRefused(cfg: W.Config, a: Address, error: Error) returns (s: W.State)
    requires cfg.maxPendingTransactions >= 1 && a.options.deadline.None?
    ensures Reachable(cfg, s) && s.pc.Submitting? && Quiet(s) && NothingFinished(s)
    ensures s.submit.current.Some? && s.submit.current.value.phase == Failing && s.submit.clock == 0
    ensures s.submit.current.value.po.retryCount == 0 && s.submit.current.value.po.order.val.raised == Some(error)
    ensures s.submit.main == Running([], 1) && |s.submit.newQueue| == 1
  {
    s := FirstRequestHandled(cfg, a);
    ReachableStep(cfg, s, SubmitBegin(0));
    s := W.Step(cfg, s, SubmitBegin(0));
    ReachableStep(cfg, s, SubmitEnd(Refused(error)));
    s := W.Step(cfg, s, SubmitEnd(Refused(error)));
  }

  lemma FirstRequestFails(cfg: W.Config, a: Address, error: Error) returns (s: W.State)
    requires cfg.maxPendingTransactions >= 1 && cfg.maxTries >= 2 && a.options.deadline.None? && !NonceError(error)
    ensures Reachable(cfg, s) && s.pc.Submitting? && Quiet(s) && NothingFinished(s)
    ensures s.submit.current.Some? && s.submit.current.value.phase == Closing(false)
    ensures s.submit.current.value.po.order.val.submissionError == Some(error)
    ensures s.submit.main == Running([], 1) && |s.submit.newQueue| == 1
  {
    s := FirstRequestRefused(cfg, a, error);
    ReachableStep(cfg, s, SubmitFailed(0, 0));
    s := W.Step(cfg, s, SubmitFailed(0, 0));
  }

  lemma FirstRequestSkipped(cfg: W.Config, a: Address, error: Error) returns (s: W.State)
    requires cfg.maxPendingTransactions >= 1 && cfg.maxTries >= 2 && a.options.deadline.None? && !NonceError(error)
    ensures Reachable(cfg, s) && s.pc.Submitting? && s.answers == [] && s.submit.current.None?
    ensures |s.submit.skipped| == 1 && s.submit.skipped[0].val.submissionError == Some(error)
    ensures s.submit.rejected == [] && s.submit.main == Running([], 1) && |s.submit.newQueue| == 1
  {
    s := FirstRequestFails(cfg, a, error);
    ReachableStep(cfg, s, SubmitInner(Foreground(HookDone)));
    s := W.Step(cfg, s, SubmitInner(Foreground(HookDone)));
  }

  /** A send that throws an empty string leads there: the wallet answers, and the submitter takes the
      branch for a missing transaction. */
  lemma BlankErrorReachesTheBranch(cfg: W.Config, a: Address) returns (s: W.State)
    requires cfg.maxPendingTransactions >= 1 && cfg.maxTries >= 2 && a.options.deadline.None?
    ensures Reachable(cfg, s) && |s.answers| == 1
    ensures TakeResult(FromAnswer(s.answers[0])) == NoTransaction
  {
    s := FirstRequestSkipped(cfg, a, ThrownString(""));
    ReachableStep(cfg, s, SubmitInner(Next));
    s := W.Step(cfg, s, SubmitInner(Next));
    ReachableStep(cfg, s, FlushSubmit);
    s := W.Step(cfg, s, FlushSubmit);
  }

  // -- and a run that takes the other ------------------------------------------------------------

  function FirstPending(a: Address): ConfirmRef {
    Ref(Ticket(0, 0), PendingTx(FirstRef(a).val.(sent := Some(Tx("", 0))), Tx("", 0), None, None))
  }

  lemma FirstRequestSent(cfg: W.Config, a: Address) returns (s: W.State)
    requires cfg.maxPendingTransactions >= 1 && a.options.deadline.None?
    ensures Reachable(cfg, s) && s.pc.Submitting? && Quiet(s) && NothingFinished(s) && s.submit.clock == 0
    ensures s.submit.main == Running([], 1) && |s.submit.newQueue| == 1 && s.submit.current.None?
    ensures |s.submit.tasks| == 1 && s.submit.tasks[0].phase.InFlight?
    ensures s.submit.tasks[0].po.order == Ref(Ticket(0, 0), FirstPending(a).val.request)
  {
    s := FirstRequestHandled(cfg, a);
    ReachableStep(cfg, s, SubmitBegin(0));
    s := W.Step(cfg, s, SubmitBegin(0));
    ReachableStep(cfg, s, SubmitEnd(Accepted("")));
    s := W.Step(cfg, s, SubmitEnd(Accepted("")));
  }

  lemma FirstRequestCompleted(cfg: W.Config, a: Address) returns (s: W.State)
    requires cfg.maxPendingTransactions >= 1 && a.options.deadline.None?
    ensures Reachable(cfg, s) && s.pc.Submitting? && Quiet(s) && s.submit.clock == 0
    ensures s.submit.main == Running([], 1) && |s.submit.newQueue| == 1 && s.submit.current.None?
    ensures s.submit.completed == [FirstPending(a)] && s.submit.skipped == [] && s.submit.rejected == []
  {
    s := FirstRequestSent(cfg, a);
    var done: W.SubmitEvent := Background(0, Resolve(Some(FirstPending(a).val)));
    ReachableStep(cfg, s, SubmitInner(done));
    s := W.Step(cfg, s, SubmitInner(done));
    ReachableStep(cfg, s, SubmitInner(Background(0, HookDone)));
    s := W.Step(cfg, s, SubmitInner(Background(0, HookDone)));
  }

  /** The submission queue has nothing to do. */
  ghost predicate SubmitIdle(s: W.State) {
    && s.submit.main.Idle? && s.submit.newQueue == [] && s.submit.initialising == [] && s.submit.retryQueue == []
    && s.submit.completed == [] && s.submit.skipped == [] && s.submit.rejected == []
    && s.newRequests == [] && s.submit.clock == 0
  }

  lemma FirstPendingTaken(cfg: W.Config, a: Address) returns (s: W.State)
    requires cfg.maxPendingTransactions >= 1 && a.options.deadline.None?
    ensures Reachable(cfg, s) && Quiet(s) && SubmitIdle(s) && s.pc == AddingPending([FirstPending(a)])
  {
    s := FirstRequestCompleted(cfg, a);
    ReachableStep(cfg, s, SubmitInner(Next));
    s := W.Step(cfg, s, SubmitInner(Next));
    ReachableStep(cfg, s, FlushSubmit);
    s := W.Step(cfg, s, FlushSubmit);
  }

  ghost predicate ConfirmsNothingElse(s: W.State) {
    && s.clock == 0 && s.confirm.clock == 0 && s.answers == [] && s.replacements == [] && SubmitIdle(s)
    && s.confirm.completed == [] && s.confirm.skipped == [] && s.confirm.rejected == []
  }

  lemma FirstPendingQueued(cfg: W.Config, a: Address) returns (s: W.State)
    requires cfg.maxPendingTransactions >= 1 && a.options.deadline.None?
    ensures Reachable(cfg, s) && s.pc == AddingPending([]) && ConfirmsNothingElse(s)
    ensures s.confirm.newQueue == [FirstPending(a)] && s.confirm.initialising == [] && s.confirm.retryQueue == []
    ensures s.confirm.main.Idle? && s.confirm.current.None? && s.confirm.tasks == [] && s.confirm.pendingCount == 0
  {
    s := FirstPendingTaken(cfg, a);
    ReachableStep(cfg, s, AddPending);
    s := W.Step(cfg, s, AddPending);
    ReachableStep(cfg, s, ConfirmInner(AddEnd(0, FirstPending(a).val)));
    s := W.Step(cfg, s, ConfirmInner(AddEnd(0, FirstPending(a).val)));
  }

  lemma FirstPendingHandled(cfg: W.Config, a: Address) returns (s: W.State)
    requires cfg.maxPendingTransactions >= 1 && a.options.deadline.None?
    ensures Reachable(cfg, s) && s.pc.Confirming? && ConfirmsNothingElse(s)
    ensures s.confirm.main == Running([], 1) && |s.confirm.newQueue| == 1 && s.confirm.tasks == []
    ensures s.confirm.current == Some(Task(ProcessOrder(FirstPending(a), 0, 0), Handling))
    ensures s.confirm.initialising == [] && s.confirm.retryQueue == []
  {
    s := FirstPendingQueued(cfg, a);
    ReachableStep(cfg, s, StartConfirm(0));
    s := W.Step(cfg, s, StartConfirm(0));
    ReachableStep(cfg, s, ConfirmInner(Next));
    s := W.Step(cfg, s, ConfirmInner(Next));
  }

  lemma FirstPendingAwaited(cfg: W.Config, a: Address) returns (s: W.State)
    requires cfg.maxPendingTransactions >= 1 && a.options.deadline.None?
    ensures Reachable(cfg, s) && s.pc.Confirming? && ConfirmsNothingElse(s)
    ensures s.confirm.main == Running([], 1) && |s.confirm.newQueue| == 1 && s.confirm.current.None?
    ensures s.confirm.tasks == [Task(ProcessOrder(FirstPending(a), 0, 0), InFlight)]
    ensures s.confirm.initialising == [] && s.confirm.retryQueue == []
  {
    s := FirstPendingHandled(cfg, a);
    ReachableStep(cfg, s, ConfirmHandled(Accepted("")));
    s := W.Step(cfg, s, ConfirmHandled(Accepted("")));
  }

  lemma FirstPendingFails(cfg: W.Config, a: Address) returns (s: W.State)
    requires cfg.maxPendingTransactions >= 1 && a.options.deadline.None?
    ensures Reachable(cfg, s) && s.pc.Confirming? && ConfirmsNothingElse(s)
    ensures s.confirm.main == Running([], 1) && |s.confirm.newQueue| == 1 && s.confirm.current.None?
    ensures s.confirm.tasks == [Task(ProcessOrder(FirstPending(a), 0, 0), Failing)]
    ensures s.confirm.initialising == [] && s.confirm.retryQueue == []
  {
    s := FirstPendingAwaited(cfg, a);
    ReachableStep(cfg, s, ConfirmInner(Background(0, Reject)));
    s := W.Step(cfg, s, ConfirmInner(Background(0, Reject)));
  }

  lemma FirstPendingGivenUp(cfg: W.Config, a: Address, error: Error) returns (s: W.State)
    requires cfg.maxPendingTransactions >= 1 && cfg.maxTries >= 2 && a.options.deadline.None?
    requires Code(error) != "TIMEOUT"
    ensures Reachable(cfg, s) && s.pc.Confirming? && ConfirmsNothingElse(s)
    ensures s.confirm.main == Running([], 1) && |s.confirm.newQueue| == 1 && s.confirm.current.None?
    ensures |s.confirm.tasks| == 1 && s.confirm.tasks[0].phase == Closing(false)
    ensures s.confirm.tasks[0].po.order.val.confirmationError == Some(error)
  {
    s := FirstPendingFails(cfg, a);
    ReachableStep(cfg, s, ConfirmFailed(Some(0), error, 0));
    s := W.Step(cfg, s, ConfirmFailed(Some(0), error, 0));
  }

  lemma FirstPendingSkipped(cfg: W.Config, a: Address, error: Error) returns (s: W.State)
    requires cfg.maxPendingTransactions >= 1 && cfg.maxTries >= 2 && a.options.deadline.None?
    requires Code(error) != "TIMEOUT"
    ensures Reachable(cfg, s) && s.pc.Confirming? && s.answers == []
    ensures s.confirm.completed == [] && s.submit.initialising == []
    ensures s.confirm.main == Running([], 1) && |s.confirm.newQueue| == 1 && s.confirm.current.None?
    ensures |s.confirm.skipped| == 1 && s.confirm.skipped[0].val.confirmationError == Some(error)
  {
    s := FirstPendingGivenUp(cfg, a, error);
    ReachableStep(cfg, s, ConfirmInner(Background(0, HookDone)));
    s := W.Step(cfg, s, ConfirmInner(Background(0, HookDone)));
  }

  lemma FirstPendingRefuted(cfg: W.Config, a: Address, error: Error) returns (s: W.State)
    requires cfg.maxPendingTransactions >= 1 && cfg.maxTries >= 2 && a.options.deadline.None?
    requires Code(error) != "TIMEOUT"
    ensures Reachable(cfg, s) && s.answers == [] && s.pc.Answering? && s.pc.confirmed == [] && |s.pc.failed| == 1
    ensures s.pc.failed[0].val.confirmationError == Some(error) && s.submit.initialising == []
  {
    s := FirstPendingSkipped(cfg, a, error);
    ReachableStep(cfg, s, ConfirmInner(Next));
    s := W.Step(cfg, s, ConfirmInner(Next));
    ReachableStep(cfg, s, FlushConfirm);
    s := W.Step(cfg, s, FlushConfirm);
  }

  /** A wait for confirmation that throws an empty string leads to the branch for a missing receipt. */
  lemma BlankErrorReachesTheOtherBranch(cfg: W.Config, a: Address) returns (s: W.State)
    requires cfg.maxPendingTransactions >= 1 && cfg.maxTries >= 2 && a.options.deadline.None?
    ensures Reachable(cfg, s) && |s.answers| == 1
    ensures TakeResult(FromAnswer(s.answers[0])) == NoReceipt
  {
    s := FirstPendingRefuted(cfg, a, ThrownString(""));
    ReachableStep(cfg, s, HandleRejected);
    s := W.Step(cfg, s, HandleRejected);
  }

  // -- and a run that reprices -------------------------------------------------------------------

  const TIMED_OUT := ErrorObject("Error", "", "TIMEOUT", None)

  lemma FirstPendingTimesOut(cfg: W.Config, a: Address) returns (s: W.State)
    requires cfg.maxPendingTransactions >= 1 && cfg.maxTries >= 2 && a.options.deadline.None?
    ensures Reachable(cfg, s) && s.pc.Confirming? && ConfirmsNothingElse(s)
    ensures s.confirm.main == Running([], 1) && |s.confirm.newQueue| == 1 && s.confirm.current.None?
    ensures s.confirm.initialising == []
    ensures s.confirm.retryQueue == [ProcessOrder(FirstPending(a), 0, cfg.retryInterval)]
  {
    s := FirstPendingFails(cfg, a);
    ReachableStep(cfg, s, ConfirmFailed(Some(0), TIMED_OUT, 0));
    s := W.Step(cfg, s, ConfirmFailed(Some(0), TIMED_OUT, 0));
  }

  lemma FirstPendingRetried(cfg: W.Config, a: Address) returns (s: W.State)
    requires cfg.maxPendingTransactions >= 1 && cfg.maxTries >= 2 && a.options.deadline.None?
    ensures Reachable(cfg, s) && s.pc.Confirming? && ConfirmsNothingElse(s)
    ensures s.confirm.main.Idle? && s.confirm.newQueue == [] && s.confirm.current.None?
    ensures s.confirm.initialising == []
    ensures s.confirm.retryQueue == [ProcessOrder(FirstPending(a), 0, cfg.retryInterval)]
  {
    s := FirstPendingTimesOut(cfg, a);
    ReachableStep(cfg, s, ConfirmInner(Next));
    s := W.Step(cfg, s, ConfirmInner(Next));
  }

  lemma FirstPendingWaits(cfg: W.Config, a: Address) returns (s: W.State)
    requires cfg.maxPendingTransactions >= 1 && cfg.maxTries >= 2 && a.options.deadline.None?
    ensures Reachable(cfg, s) && s.pc == AddingNew([]) && ConfirmsNothingElse(s)
    ensures s.confirm.main.Idle? && s.confirm.newQueue == [] && s.confirm.current.None?
    ensures s.confirm.initialising == []
    ensures s.confirm.retryQueue == [ProcessOrder(FirstPending(a), 0, cfg.retryInterval)]
  {
    s := FirstPendingRetried(cfg, a);
    ReachableStep(cfg, s, FlushConfirm);
    s := W.Step(cfg, s, FlushConfirm);
    ReachableStep(cfg, s, EndPass);
    s := W.Step(cfg, s, EndPass);
    ReachableStep(cfg, s, TakeNew);
    s := W.Step(cfg, s, TakeNew);
  }

  lemma FirstPendingDue(cfg: W.Config, a: Address) returns (s: W.State)
    requires cfg.maxPendingTransactions >= 1 && cfg.maxTries >= 2 && a.options.deadline.None?
    ensures Reachable(cfg, s) && s.pc == AddingPending([]) && ConfirmsNothingElse(s)
    ensures s.confirm.main.Idle? && s.confirm.newQueue == [] && s.confirm.current.None?
    ensures s.confirm.initialising == []
    ensures s.confirm.retryQueue == [ProcessOrder(FirstPending(a), 0, cfg.retryInterval)]
  {
    s := FirstPendingWaits(cfg, a);
    ReachableStep(cfg, s, StartSubmit(0));
    s := W.Step(cfg, s, StartSubmit(0));
    ReachableStep(cfg, s, FlushSubmit);
    s := W.Step(cfg, s, FlushSubmit);
  }

  lemma DueAlone<K, O>(po: ProcessOrder<K, O>, now: int)
    requires po.retryAt <= now
    ensures Due([po], now) == [po.(retryCount := po.retryCount + 1)]
  {
    assert Due([po][1..], now) == [];
  }

  lemma FirstPendingAgain(cfg: W.Config, a: Address) returns (s: W.State)
    requires cfg.maxPendingTransactions >= 1 && cfg.maxTries >= 2 && a.options.deadline.None?
    ensures Reachable(cfg, s) && s.replacements == []
    ensures s.confirm.current == Some(Task(ProcessOrder(FirstPending(a), 1, cfg.retryInterval), Handling))
  {
    s := FirstPendingDue(cfg, a);
    var now := cfg.retryInterval;
    DueAlone(ProcessOrder(FirstPending(a), 0, now), now);
    ReachableStep(cfg, s, StartConfirm(now));
    s := W.Step(cfg, s, StartConfirm(now));
    ReachableStep(cfg, s, ConfirmInner(Next));
    s := W.Step(cfg, s, ConfirmInner(Next));
  }

  /** A first wait that times out is followed, one interval later, by a replacement. */
  lemma TimeoutReachesReplacement(cfg: W.Config, a: Address, hash: string) returns (s: W.State)
    requires cfg.maxPendingTransactions >= 1 && cfg.maxTries >= 2 && a.options.deadline.None?
    ensures Reachable(cfg, s) && s.replacements == [Replacement(Ticket(0, 0), 0, hash)]
  {
    s := FirstPendingAgain(cfg, a);
    ReachableStep(cfg, s, ConfirmHandled(Accepted(hash)));
    s := W.Step(cfg, s, ConfirmHandled(Accepted(hash)));
  }
}
