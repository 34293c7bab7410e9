/** What the orders of the wallet worker contain, place by place, and so what every answer says. */
module WalletWorkerContents {
  import opened Common
  import opened Queue
  import opened QueueConservation
  import opened QueueContents
  import opened W = WalletWorker
  import opened WalletWorkerRuns

  // ---------------------------------------------------------------------------------------------
  // Laws of the submission queue
  // ---------------------------------------------------------------------------------------------

  /** The order carries the address its request arrived with. */
  predicate Own(arrived: seq<Address>, t: Lap, a: Address) {
    t.id < |arrived| && arrived[t.id] == a
  }

  predicate Unsubmitted(arrived: seq<Address>, r: SubmitRef) {
    Own(arrived, r.id, r.val.address) && r.val.submissionError.None?
  }

  predicate Invalid(arrived: seq<Address>, r: SubmitRef) {
    Own(arrived, r.id, r.val.address) && r.val.submissionError.Some?
  }

  /** As it leaves the submission queue: never repriced, no error. */
  predicate Pristine(p: PendingTx) {
    p.txReplacement.None? && p.confirmationError.None?
  }

  predicate Submitted(arrived: seq<Address>, r: ConfirmRef) {
    Own(arrived, r.id, r.val.request.address) && Pristine(r.val)
  }

  predicate SubmitTaskLawful(arrived: seq<Address>, t: Task<Lap, WalletRequest, PendingTx>) {
    match t.phase
    case Completing(None) => false
    case Completing(Some(p)) => Submitted(arrived, Ref(t.po.order.id, p))
    case Closing(false) => Invalid(arrived, t.po.order)
    case Closing(true) => Own(arrived, t.po.order.id, t.po.order.val.address)
    case _ => Unsubmitted(arrived, t.po.order)
  }

  function SubmitLaws(arrived: seq<Address>): Laws<Lap, WalletRequest, PendingTx> {
    Laws((r: SubmitRef) => Unsubmitted(arrived, r),
         (po: ProcessOrder<Lap, WalletRequest>) => Unsubmitted(arrived, po.order),
         (t: Task<Lap, WalletRequest, PendingTx>) => SubmitTaskLawful(arrived, t),
         (r: ConfirmRef) => Submitted(arrived, r),
         (r: SubmitRef) => Invalid(arrived, r),
         (r: SubmitRef) => Own(arrived, r.id, r.val.address))
  }

  lemma SubmitLawsCohere(arrived: seq<Address>)
    ensures Coherent(SubmitLaws(arrived))
  {
  }

  // ---------------------------------------------------------------------------------------------
  // Laws of the confirmation queue
  // ---------------------------------------------------------------------------------------------

  /** A replacement has the nonce of the original. */
  predicate SameNonce(p: PendingTx) {
    p.txReplacement.Some? ==> p.txReplacement.value.nonce == p.tx.nonce
  }

  /** On the first try nothing was replaced; no error is recorded while an order is being confirmed. */
  predicate Confirmable(arrived: seq<Address>, retryCount: nat, r: ConfirmRef) {
    && Own(arrived, r.id, r.val.request.address)
    && r.val.confirmationError.None? && SameNonce(r.val)
    && (retryCount == 0 ==> r.val.txReplacement.None?)
  }

  /** Failed on confirmation: with an error that is no timeout, and never repriced. */
  predicate Refuted(arrived: seq<Address>, r: ConfirmRef) {
    && Own(arrived, r.id, r.val.request.address) && r.val.txReplacement.None?
    && r.val.confirmationError.Some? && Code(r.val.confirmationError.value) != "TIMEOUT"
  }

  predicate Unconfirmed(arrived: seq<Address>, r: ConfirmRef) {
    Own(arrived, r.id, r.val.request.address) && SameNonce(r.val)
  }

  /** Confirmed: the transaction confirmed is the original or its one replacement, the receipt its own. */
  predicate Confirmed(arrived: seq<Address>, r: ConfirmedRef) {
    && Own(arrived, r.id, r.val.pending.request.address)
    && SameNonce(r.val.pending)
    && r.val.tx.nonce == r.val.pending.tx.nonce && r.val.txReceipt.hash == r.val.tx.hash
  }

  predicate ConfirmTaskLawful(arrived: seq<Address>, t: Task<Lap, PendingTx, ConfirmedTx>) {
    match t.phase
    case Completing(None) => false
    case Completing(Some(c)) => Confirmed(arrived, Ref(t.po.order.id, c))
    case Closing(false) => Refuted(arrived, t.po.order)
    case Closing(true) => Unconfirmed(arrived, t.po.order)
    case _ => Confirmable(arrived, t.po.retryCount, t.po.order)
  }

  function ConfirmLaws(arrived: seq<Address>): Laws<Lap, PendingTx, ConfirmedTx> {
    Laws((r: ConfirmRef) => Submitted(arrived, r),
         (po: ProcessOrder<Lap, PendingTx>) => Confirmable(arrived, po.retryCount, po.order),
         (t: Task<Lap, PendingTx, ConfirmedTx>) => ConfirmTaskLawful(arrived, t),
         (r: ConfirmedRef) => Confirmed(arrived, r),
         (r: ConfirmRef) => Refuted(arrived, r),
         (r: ConfirmRef) => Unconfirmed(arrived, r))
  }

  lemma ConfirmLawsCohere(arrived: seq<Address>)
    ensures Coherent(ConfirmLaws(arrived))
  {
  }

  // ---------------------------------------------------------------------------------------------
  // The handlers obey the laws
  // ---------------------------------------------------------------------------------------------

  lemma SubmitLawful(cfg: W.Config, s: W.State, e: W.Event)
    requires Obeys(s.submit, SubmitLaws(s.arrived)) && Possible(s, e) && SubmitEventOf(s, e).Some?
    ensures Lawful(cfg.queues, s.submit, SubmitEventOf(s, e).value, SubmitLaws(s.arrived))
  {
    var l := SubmitLaws(s.arrived);
    match e
    case SubmitBegin(_) => assert l.task(s.submit.current.value);
    case SubmitEnd(_) => assert l.task(s.submit.current.value);
    case SubmitFailed(_, _) => assert l.task(s.submit.current.value);
    case SubmitInner(sv) => SubmitInnerLawful(cfg, s, sv);
    case _ =>
  }

  lemma SubmitInnerLawful(cfg: W.Config, s: W.State, sv: W.SubmitEvent)
    requires Obeys(s.submit, SubmitLaws(s.arrived)) && InnerSubmit(s, sv)
    ensures Lawful(cfg.queues, s.submit, sv, SubmitLaws(s.arrived))
  {
  }

  lemma ConfirmLawful(cfg: W.Config, s: W.State, e: W.Event)
    requires Obeys(s.confirm, ConfirmLaws(s.arrived)) && Possible(s, e) && ConfirmEventOf(s, e).Some?
    ensures Lawful(cfg.queues, s.confirm, ConfirmEventOf(s, e).value, ConfirmLaws(s.arrived))
  {
    var l := ConfirmLaws(s.arrived);
    match e
    case ConfirmHandled(_) => assert l.task(s.confirm.current.value);
    case ConfirmFailed(background, error, now) => ConfirmFailedLawful(cfg, s, background, error, now);
    case ConfirmInner(cv) => ConfirmInnerLawful(cfg, s, cv);
    case _ =>
  }

  lemma ConfirmFailedLawful(cfg: W.Config, s: W.State, background: Option<nat>, error: Error, now: int)
    requires Obeys(s.confirm, ConfirmLaws(s.arrived)) && Possible(s, ConfirmFailed(background, error, now))
    ensures Lawful(cfg.queues, s.confirm, ConfirmFailedEvent(s, background, error, now), ConfirmLaws(s.arrived))
  {
    assert ConfirmLaws(s.arrived).task(FailedTask(s, background).value);
  }

  lemma ConfirmInnerLawful(cfg: W.Config, s: W.State, cv: W.ConfirmEvent)
    requires Obeys(s.confirm, ConfirmLaws(s.arrived)) && InnerConfirm(s, cv)
    ensures Lawful(cfg.queues, s.confirm, cv, ConfirmLaws(s.arrived))
  {
  }

  // ---------------------------------------------------------------------------------------------
  // Every answer has one of three forms
  // ---------------------------------------------------------------------------------------------

  predicate NotSubmitted(a: Answer) {
    && a.cause.Some? && a.submissionError == ErrorText(a.cause) && a.confirmationError.None?
    && a.tx.None? && a.txReceipt.None?
  }

  /** Only a cancelled transaction has both an error and a receipt. */
  predicate NotConfirmed(a: Answer) {
    && a.cause.Some? && a.submissionError.None? && a.confirmationError == ErrorText(a.cause)
    && a.tx.Some? && (a.txReceipt.Some? ==> a.cause == Some(CANCELLED))
  }

  predicate Succeeded(a: Answer) {
    && a.cause.None? && a.submissionError.None? && a.confirmationError.None?
    && a.tx.Some? && a.txReceipt.Some? && a.txReceipt.value.hash == a.tx.value.hash
  }

  /** The answer goes back where the request came from. */
  predicate Returned(arrived: seq<Address>, a: Answer) {
    && a.ticket.id < |arrived|
    && a.portId == arrived[a.ticket.id].portId && a.messageId == arrived[a.ticket.id].messageId
    && a.txRequest == arrived[a.ticket.id].txRequest && a.metadata == arrived[a.ticket.id].metadata
  }

  predicate AnswerLawful(arrived: seq<Address>, a: Answer) {
    Returned(arrived, a) && (NotSubmitted(a) || NotConfirmed(a) || Succeeded(a))
  }

  ghost predicate PcLawful(arrived: seq<Address>, pc: Pc) {
    match pc
    case AddingNew(todo) => forall i :: 0 <= i < |todo| ==> Unsubmitted(arrived, todo[i])
    case AddingPending(pending) => forall i :: 0 <= i < |pending| ==> Submitted(arrived, pending[i])
    case Answering(confirmed, failed, unconfirmed) =>
      && (forall i :: 0 <= i < |confirmed| ==> Confirmed(arrived, confirmed[i]))
      && (forall i :: 0 <= i < |failed| ==> Refuted(arrived, failed[i]))
      && (forall i :: 0 <= i < |unconfirmed| ==> Unconfirmed(arrived, unconfirmed[i]))
    case _ => true
  }

  ghost predicate Contents(s: W.State) {
    && (forall i :: 0 <= i < |s.newRequests| ==> Unsubmitted(s.arrived, s.newRequests[i]))
    && PcLawful(s.arrived, s.pc)
    && Obeys(s.submit, SubmitLaws(s.arrived))
    && Obeys(s.confirm, ConfirmLaws(s.arrived))
    && (forall i :: 0 <= i < |s.answers| ==> AnswerLawful(s.arrived, s.answers[i]))
  }

  lemma OwnGrows(arrived: seq<Address>, a: Address, t: Lap, own: Address)
    requires Own(arrived, t, own)
    ensures Own(arrived + [a], t, own)
  {
  }

  lemma ReceiveContents(s: W.State, a: Address)
    requires Contents(s)
    ensures Contents(ReceiveStep(s, a))
  {
    var more := s.arrived + [a];
    forall t: Lap, own: Address | Own(s.arrived, t, own) ensures Own(more, t, own) {
      OwnGrows(s.arrived, a, t, own);
    }
    ObeysWeaker(s.submit, SubmitLaws(s.arrived), SubmitLaws(more));
    ObeysWeaker(s.confirm, ConfirmLaws(s.arrived), ConfirmLaws(more));
    forall i | 0 <= i < |s.answers| ensures AnswerLawful(more, s.answers[i]) {
      assert AnswerLawful(s.arrived, s.answers[i]);
    }
  }

  lemma InSubmitContents(cfg: W.Config, s: W.State, sv: W.SubmitEvent)
    requires Contents(s) && Shape(s.submit) && Enabled(s.submit, sv)
    requires Lawful(cfg.queues, s.submit, sv, SubmitLaws(s.arrived))
    ensures Obeys(Queue.Step(cfg.queues, s.submit, sv), SubmitLaws(s.arrived))
  {
    SubmitLawsCohere(s.arrived);
    StepObeys(cfg.queues, s.submit, sv, SubmitLaws(s.arrived));
  }

  lemma InConfirmContents(cfg: W.Config, s: W.State, cv: W.ConfirmEvent)
    requires Contents(s) && Shape(s.confirm) && Enabled(s.confirm, cv)
    requires Lawful(cfg.queues, s.confirm, cv, ConfirmLaws(s.arrived))
    ensures Obeys(Queue.Step(cfg.queues, s.confirm, cv), ConfirmLaws(s.arrived))
  {
    ConfirmLawsCohere(s.arrived);
    StepObeys(cfg.queues, s.confirm, cv, ConfirmLaws(s.arrived));
  }

  lemma FlushSubmitContents(cfg: W.Config, s: W.State)
    requires Contents(s) && Shape(s.submit) && s.pc.Submitting?
    ensures Contents(FlushSubmitStep(s))
  {
    var s1 := FlushSubmitStep(s);
    InSubmitContents(cfg, s, Flush);
    forall i | 0 <= i < |s.submit.completed| ensures Submitted(s.arrived, s.submit.completed[i]) {
      assert SubmitLaws(s.arrived).completed(s.submit.completed[i]);
    }
    InvalidAreLawful(s.arrived, s.submit.skipped, s.submit);
    RejectedAreLawful(s.arrived, s.submit.rejected, s.submit);
  }

  lemma InvalidAreLawful(arrived: seq<Address>, orders: seq<SubmitRef>, q: SubmitQueue)
    requires Obeys(q, SubmitLaws(arrived)) && orders == q.skipped
    ensures forall i :: 0 <= i < |orders| ==> AnswerLawful(arrived, InvalidAnswers(orders)[i])
  {
  }

  lemma RejectedAreLawful(arrived: seq<Address>, orders: seq<SubmitRef>, q: SubmitQueue)
    requires Obeys(q, SubmitLaws(arrived)) && orders == q.rejected
    ensures forall i :: 0 <= i < |orders| ==> AnswerLawful(arrived, InvalidAnswers(OutOfTries(orders))[i])
  {
  }

  lemma FlushConfirmContents(cfg: W.Config, s: W.State)
    requires Contents(s) && Shape(s.confirm) && s.pc.Confirming?
    ensures Contents(FlushConfirmStep(s))
  {
    InConfirmContents(cfg, s, Flush);
  }

  lemma HandleRejectedContents(cfg: W.Config, s: W.State)
    requires Contents(s) && Shape(s.submit) && s.pc.Answering? && s.pc.failed != []
    ensures Contents(HandleRejectedStep(cfg, s))
  {
    var o := s.pc.failed[0];
    assert Refuted(s.arrived, o);
    if Requeues(cfg, o) {
      InSubmitContents(cfg, s, AddBegin(W.NextLap(o)));
    }
  }

  lemma AddNewContents(cfg: W.Config, s: W.State)
    requires Contents(s) && Shape(s.submit) && s.pc.AddingNew? && s.pc.todo != []
    ensures Contents(InSubmit(cfg, s, AddBegin(s.pc.todo[0]), AddingNew(s.pc.todo[1..]), s.clock))
  {
    InSubmitContents(cfg, s, AddBegin(s.pc.todo[0]));
  }

  lemma AddPendingContents(cfg: W.Config, s: W.State)
    requires Contents(s) && Shape(s.confirm) && s.pc.AddingPending? && s.pc.pending != []
    ensures Contents(InConfirm(cfg, s, AddBegin(s.pc.pending[0]), AddingPending(s.pc.pending[1..]), s.clock))
  {
    InConfirmContents(cfg, s, AddBegin(s.pc.pending[0]));
  }

  lemma InsideContents(cfg: W.Config, s: W.State, e: W.Event)
    requires Contents(s) && Shape(s.submit) && Shape(s.confirm)
    requires Possible(s, e) && (SubmitEventOf(s, e).Some? || ConfirmEventOf(s, e).Some?)
    ensures Contents(W.Step(cfg, s, e))
  {
    if SubmitEventOf(s, e).Some? {
      InsideSubmit(cfg, s, e);
      SubmitLawful(cfg, s, e);
      InSubmitContents(cfg, s, SubmitEventOf(s, e).value);
    } else {
      InsideConfirm(cfg, s, e);
      ConfirmLawful(cfg, s, e);
      InConfirmContents(cfg, s, ConfirmEventOf(s, e).value);
    }
  }

  lemma StepContents(cfg: W.Config, s: W.State, e: W.Event)
    requires Contents(s) && Shape(s.submit) && Shape(s.confirm) && Possible(s, e)
    ensures Contents(W.Step(cfg, s, e))
  {
    if SubmitEventOf(s, e).Some? || ConfirmEventOf(s, e).Some? {
      InsideContents(cfg, s, e);
    } else {
      match e
      case Receive(a) => ReceiveContents(s, a);
      case AddNew => AddNewContents(cfg, s);
      case FlushSubmit => FlushSubmitContents(cfg, s);
      case AddPending => AddPendingContents(cfg, s);
      case FlushConfirm => FlushConfirmContents(cfg, s);
      case AnswerConfirmed => AnswerConfirmedContents(s);
      case HandleRejected => HandleRejectedContents(cfg, s);
      case Cancelled(receipt) => CancelledContents(s, receipt);
      case _ =>
    }
  }

  lemma AnswerConfirmedContents(s: W.State)
    requires Contents(s) && s.pc.Answering? && s.pc.confirmed != []
    ensures Contents(AnswerConfirmedStep(s))
  {
    assert Confirmed(s.arrived, s.pc.confirmed[0]);
  }

  lemma CancelledContents(s: W.State, receipt: Option<Receipt>)
    requires Contents(s) && s.pc.Answering? && s.pc.unconfirmed != []
    ensures Contents(CancelledStep(s, receipt))
  {
    assert Unconfirmed(s.arrived, s.pc.unconfirmed[0]);
  }
}
