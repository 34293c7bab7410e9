/**
 * The wallet worker: new requests feed the submission queue, which feeds the confirmation queue; both
 * handle one order at a time. Orders with a nonce error on confirmation go round again, orders that
 * are not confirmed in time are cancelled, and each request is answered.
 */
module WalletWorker {
  import opened Common
  import opened Queue
  import opened Tickets

  // ---------------------------------------------------------------------------------------------
  // Data
  // ---------------------------------------------------------------------------------------------

  /** Anything JavaScript can throw: an error object, a bare string, or another object, whose `toString`
      gives `rendering` (`None`: it throws). `nested` is the message of the field `error`. */
  datatype Error =
    | ErrorObject(name: string, message: string, code: string, nested: Option<string>)
    | ThrownString(thrown: string)
    | OtherObject(otherMessage: string, otherCode: string, otherNested: Option<string>, rendering: Option<string>)

  /** `error.message`, `error.code`, `error.error?.message`; a string has none of them. */
  function Message(e: Error): string {
    match e
    case ErrorObject(_, message, _, _) => message
    case ThrownString(_) => ""
    case OtherObject(message, _, _, _) => message
  }

  function Code(e: Error): string {
    match e
    case ErrorObject(_, _, code, _) => code
    case ThrownString(_) => ""
    case OtherObject(_, code, _, _) => code
  }

  function Nested(e: Error): Option<string> {
    match e
    case ErrorObject(_, _, _, nested) => nested
    case ThrownString(_) => None
    case OtherObject(_, _, nested, _) => nested
  }

  /** `tryErrorToString` of a defined error. The text of an error object is its name and message, joined
      by a colon if neither is empty (ECMAScript, `Error.prototype.toString`). */
  function Text(e: Error): string {
    match e
    case ErrorObject(name, message, _, _) =>
      if name == "" then message else if message == "" then name else name + ": " + message
    case ThrownString(thrown) => thrown
    case OtherObject(_, _, _, rendering) => if rendering.Some? then rendering.value else "Unable to stringify error."
  }

  datatype Tx = Tx(hash: string, nonce: nat)

  /** `hash`: of the transaction it is the receipt of. */
  datatype Receipt = Receipt(hash: string)

  datatype Options = Options(retryOnNonceConfirmationError: Option<bool>, deadline: Option<int>)

  /** The part of a request that never changes. */
  datatype Address = Address(portId: nat, messageId: nat, txRequest: string, metadata: string, options: Options)

  /** `raised`: the error its handler is looking at; `sent`: the transaction its handler returned.
      `requeueCount` is the lap of the order's ticket. */
  datatype WalletRequest = WalletRequest(
    address: Address, submissionError: Option<Error>, raised: Option<Error>, sent: Option<Tx>)

  datatype PendingTx = PendingTx(
    request: WalletRequest, tx: Tx, txReplacement: Option<Tx>, confirmationError: Option<Error>)

  datatype ConfirmedTx = ConfirmedTx(pending: PendingTx, tx: Tx, txReceipt: Receipt)

  /** The message of `sendResult`; `ticket` and `cause`, the error behind the text, are history. */
  datatype Answer = Answer(
    ticket: Lap, portId: nat, messageId: nat, txRequest: string, metadata: string,
    tx: Option<Tx>, txReceipt: Option<Receipt>, submissionError: Option<string>, confirmationError: Option<string>,
    cause: Option<Error>)

  type Lap = Ticket<nat>   // request number and `requeueCount`
  type SubmitQueue = Queue.State<Lap, WalletRequest, PendingTx>
  type ConfirmQueue = Queue.State<Lap, PendingTx, ConfirmedTx>
  type SubmitEvent = Queue.Event<Lap, WalletRequest, PendingTx>
  type ConfirmEvent = Queue.Event<Lap, PendingTx, ConfirmedTx>
  type SubmitRef = Ref<Lap, WalletRequest>
  type ConfirmRef = Ref<Lap, PendingTx>
  type ConfirmedRef = Ref<Lap, ConfirmedTx>

  const DEADLINE := ErrorObject("Error", "Transaction submission deadline exceeded.", "", None)
  const MAX_TRIES := ErrorObject("Error", "Max tries reached.", "", None)
  const CANCELLED := ErrorObject("Error", "Transaction cancelled.", "", None)

  predicate Contains(s: string, part: string) {
    |s| >= |part| && (s[..|part|] == part || (s != [] && Contains(s[1..], part)))
  }

  /** The test both the submission queue and `isNonceExpiredError(error, true)` make. */
  predicate NonceError(e: Error) {
    || Code(e) == "NONCE_EXPIRED"
    || Code(e) == "REPLACEMENT_UNDERPRICED"
    || (Nested(e).Some? && Contains(Nested(e).value, "invalid sequence"))
  }

  // ---------------------------------------------------------------------------------------------
  // The handlers of the two queues
  // ---------------------------------------------------------------------------------------------

  datatype SendOutcome = Accepted(hash: string) | Refused(error: Error)

  /** One line of the history of the nonce: a resync, or a send with the nonce it used. */
  datatype NonceEvent =
    | Resync(nonce: nat)
    | Sent(lap: Lap, nonce: nat, hash: string)
    | Failed(lap: Lap, nonce: nat)

  /** A replacement the confirmation queue sent. */
  datatype Replacement = Replacement(lap: Lap, nonce: nat, hash: string)

  predicate DeadlinePassed(order: WalletRequest, now: int) {
    order.address.options.deadline.Some? && now > order.address.options.deadline.value
  }

  /** `SubmitQueue.handleOrder` once `sendTransaction` has answered; `captured` is the nonce it read
      before it sent. */
  function HandleSent(order: WalletRequest, captured: nat, o: SendOutcome): Handled<WalletRequest> {
    match o
    case Accepted(hash) => Promised(order.(sent := Some(Tx(hash, captured))))
    case Refused(error) => Threw(order.(raised := Some(error)))
  }

  /** `SubmitQueue.handleFailedOrder`: whether to retry, and the order afterwards. */
  function HandleFailedSubmit(order: WalletRequest, error: Error): (bool, WalletRequest) {
    if Message(error) != "Transaction submission deadline exceeded." && NonceError(error) then (true, order)
    else (false, order.(submissionError := Some(error)))
  }

  /** `ConfirmQueue.onOrderInit` */
  function InitConfirm(order: PendingTx): PendingTx {
    order.(txReplacement := None, confirmationError := None)
  }

  /** `ConfirmQueue.handleOrder`: wait on the first try; reprice once; wait for either transaction. */
  function HandleConfirm(order: PendingTx, retryCount: nat, o: SendOutcome): Handled<PendingTx> {
    if retryCount == 0 || order.txReplacement.Some? then Promised(order)
    else
      match o
      case Accepted(hash) =>
        Promised(order.(txReplacement := Some(Tx(hash, order.tx.nonce))))
      case Refused(_) => Threw(order)
  }

  /** Whether a try of the confirmation queue sends a replacement. */
  predicate Reprices(po: ProcessOrder<Lap, PendingTx>) {
    po.retryCount > 0 && po.order.val.txReplacement.None?
  }

  /** `ConfirmQueue.handleFailedOrder` */
  function HandleFailedConfirm(order: PendingTx, retryCount: nat, error: Error): (bool, PendingTx) {
    if retryCount > 0 || Code(error) == "TIMEOUT" then (true, order)
    else (false, order.(confirmationError := Some(error)))
  }

  /** The confirmed transaction is the original or, once repriced, its replacement; the receipt is the one
      waiting for that transaction gave. */
  predicate Confirms(po: ProcessOrder<Lap, PendingTx>, c: ConfirmedTx) {
    && c.pending == po.order.val
    && (c.tx == po.order.val.tx || (po.retryCount > 0 && Some(c.tx) == po.order.val.txReplacement))
    && c.txReceipt.hash == c.tx.hash
  }

  // ---------------------------------------------------------------------------------------------
  // The worker
  // ---------------------------------------------------------------------------------------------

  datatype Config = Config(retryInterval: nat, maxTries: nat, maxPendingTransactions: nat)
  {
    /** Both queues handle one order at a time. */
    const queues: Queue.Config := Queue.Config.Config(retryInterval, maxTries, Some(1))
  }

  /** Where `run` stands, with the lists it still has to go through. */
  datatype Pc =
    | Top
    | AddingNew(todo: seq<SubmitRef>)
    | Submitting
    | AddingPending(pending: seq<ConfirmRef>)
    | Confirming
    | Answering(confirmed: seq<ConfirmedRef>, failed: seq<ConfirmRef>, unconfirmed: seq<ConfirmRef>)

  datatype State = State(
    clock: int,
    newRequests: seq<SubmitRef>,
    submit: SubmitQueue,
    confirm: ConfirmQueue,
    pc: Pc,
    nonce: nat,
    sending: Option<nat>,   // the nonce the submission handler read, while it awaits `sendTransaction`
    // history
    firstNonce: nat,
    arrived: seq<Address>,
    retired: seq<Lap>,
    answers: seq<Answer>,
    nonces: seq<NonceEvent>,
    replacements: seq<Replacement>)

  function Init(clock: int, nonce: nat): State {
    State.State(clock, [], Queue.Init(clock), Queue.Init(clock), Top, nonce, None, nonce, [], [], [], [], [])
  }

  datatype Event =
    | Receive(address: Address)
    | TakeNew
    | AddNew
    | StartSubmit(now: int)
    | SubmitBegin(now: int)
    | SubmitEnd(outcome: SendOutcome)
    | SubmitFailed(now: int, pendingNonce: nat)
    | SubmitInner(sv: SubmitEvent)
    | FlushSubmit
    | AddPending
    | StartConfirm(now: int)
    | ConfirmHandled(outcome: SendOutcome)
    | ConfirmFailed(background: Option<nat>, error: Error, now: int)
    | ConfirmInner(cv: ConfirmEvent)
    | FlushConfirm
    | AnswerConfirmed
    | HandleRejected
    | Cancelled(receipt: Option<Receipt>)
    | EndPass

  /** What the submission queue does besides handling: its results are not promises that can fail. */
  predicate SubmitMove(t: Task<Lap, WalletRequest, PendingTx>, m: Move<WalletRequest, PendingTx>) {
    match m
    case Resolve(result) =>
      t.po.order.val.sent.Some? && result == Some(PendingTx(t.po.order.val, t.po.order.val.sent.value, None, None))
    case Reject => false
    case FailureHandled(_, _, _) => false
    case HookDone => true
  }

  predicate InnerSubmit(s: State, sv: SubmitEvent) {
    && Enabled(s.submit, sv)
    && match sv
       case AddEnd(k, val) => val == s.submit.initialising[k].val
       case Next => s.pc.Submitting?
       case Foreground(m) => SubmitMove(s.submit.current.value, m)
       case Background(k, m) => SubmitMove(s.submit.tasks[k], m)
       case Decrement => true
       case _ => false
  }

  predicate ConfirmMove(t: Task<Lap, PendingTx, ConfirmedTx>, m: Move<PendingTx, ConfirmedTx>) {
    match m
    case Resolve(result) => result.Some? && Confirms(t.po, result.value)
    case Reject => true
    case FailureHandled(_, _, _) => false
    case HookDone => true
  }

  predicate InnerConfirm(s: State, cv: ConfirmEvent) {
    && Enabled(s.confirm, cv)
    && match cv
       case AddEnd(k, val) => val == InitConfirm(s.confirm.initialising[k].val)
       case Next => s.pc.Confirming?
       case Foreground(m) => ConfirmMove(s.confirm.current.value, m)
       case Background(k, m) => ConfirmMove(s.confirm.tasks[k], m)
       case Decrement => true
       case _ => false
  }

  /** The suspended order a failed confirmation is about. */
  function FailedTask(s: State, background: Option<nat>): Option<Task<Lap, PendingTx, ConfirmedTx>> {
    match background
    case None => s.confirm.current
    case Some(k) => if k < |s.confirm.tasks| then Some(s.confirm.tasks[k]) else None
  }

  /** `run` awaits each `addOrders`, which awaits `onOrderInit` order by order: the next order is added
      once the one before is queued. */
  predicate Possible(s: State, e: Event) {
    match e
    case Receive(_) => true
    case TakeNew => s.pc.Top?
    case AddNew => s.pc.AddingNew? && s.pc.todo != [] && s.submit.initialising == []
    case StartSubmit(now) =>
      s.pc == AddingNew([]) && s.submit.initialising == [] && s.clock <= now && Enabled(s.submit, Process(now))
    case SubmitBegin(now) =>
      s.submit.current.Some? && s.submit.current.value.phase.Handling? && s.sending.None? && s.clock <= now
    case SubmitEnd(_) => s.submit.current.Some? && s.submit.current.value.phase.Handling? && s.sending.Some?
    case SubmitFailed(now, _) =>
      && s.submit.current.Some? && s.submit.current.value.phase.Failing?
      && s.submit.current.value.po.order.val.raised.Some?
      && s.clock <= now && s.submit.clock <= now
    case SubmitInner(sv) => InnerSubmit(s, sv)
    case FlushSubmit => s.pc.Submitting? && s.submit.main.Idle?
    case AddPending => s.pc.AddingPending? && s.pc.pending != [] && s.confirm.initialising == []
    case StartConfirm(now) =>
      s.pc == AddingPending([]) && s.confirm.initialising == [] && s.clock <= now && Enabled(s.confirm, Process(now))
    case ConfirmHandled(_) => s.confirm.current.Some? && s.confirm.current.value.phase.Handling?
    case ConfirmFailed(background, _, now) =>
      && FailedTask(s, background).Some? && FailedTask(s, background).value.phase.Failing?
      && s.clock <= now && s.confirm.clock <= now
    case ConfirmInner(cv) => InnerConfirm(s, cv)
    case FlushConfirm => s.pc.Confirming? && s.confirm.main.Idle?
    case AnswerConfirmed => s.pc.Answering? && s.pc.confirmed != []
    case HandleRejected => s.pc.Answering? && s.pc.confirmed == [] && s.pc.failed != [] && s.submit.initialising == []
    case Cancelled(_) =>
      && s.pc.Answering? && s.pc.confirmed == [] && s.pc.failed == [] && s.pc.unconfirmed != []
      && s.submit.initialising == []
    case EndPass => s.pc == Answering([], [], []) && s.submit.initialising == []
  }

  /** `getWalletCapacity` */
  function Capacity(cfg: Config, submitSize: int, confirmSize: int): nat {
    var c := cfg.maxPendingTransactions - submitSize - confirmSize;
    if c < 0 then 0 else c
  }

  function ReceiveStep(s: State, address: Address): State {
    s.(newRequests := s.newRequests + [Ref(Ticket(|s.arrived|, 0), WalletRequest(address, None, None, None))],
       arrived := s.arrived + [address])
  }

  function TakeNewStep(cfg: Config, s: State): State {
    var c := Capacity(cfg, s.submit.size, s.confirm.size);
    var n := if c < |s.newRequests| then c else |s.newRequests|;
    s.(newRequests := s.newRequests[n..], pc := AddingNew(s.newRequests[..n]))
  }

  function ErrorText(e: Option<Error>): Option<string> {
    if e.Some? then Some(Text(e.value)) else None
  }

  /** `sendResult` */
  function Result(t: Lap, a: Address, tx: Option<Tx>, receipt: Option<Receipt>,
    submissionError: Option<Error>, confirmationError: Option<Error>): Answer
  {
    Answer(t, a.portId, a.messageId, a.txRequest, a.metadata, tx, receipt,
           ErrorText(submissionError), ErrorText(confirmationError),
           if submissionError.Some? then submissionError else confirmationError)
  }

  function InvalidAnswers(orders: seq<SubmitRef>): (r: seq<Answer>)
    ensures |r| == |orders|
    ensures forall i :: 0 <= i < |orders| ==>
      r[i] == Result(orders[i].id, orders[i].val.address, None, None, orders[i].val.submissionError, None)
  {
    seq(|orders|, i requires 0 <= i < |orders| =>
      Result(orders[i].id, orders[i].val.address, None, None, orders[i].val.submissionError, None))
  }

  function OutOfTries(orders: seq<SubmitRef>): (r: seq<SubmitRef>)
    ensures |r| == |orders|
    ensures forall i :: 0 <= i < |orders| ==>
      r[i] == Ref(orders[i].id, orders[i].val.(submissionError := Some(MAX_TRIES)))
  {
    seq(|orders|, i requires 0 <= i < |orders| =>
      Ref(orders[i].id, orders[i].val.(submissionError := Some(MAX_TRIES))))
  }

  /** The flush of the submission queue and `handleInvalidTransactions`. */
  function FlushSubmitStep(s: State): State {
    s.(submit := TakeFinished(s.submit), pc := AddingPending(s.submit.completed),
       answers := s.answers + InvalidAnswers(s.submit.skipped) + InvalidAnswers(OutOfTries(s.submit.rejected)))
  }

  function FlushConfirmStep(s: State): State {
    s.(confirm := TakeFinished(s.confirm),
       pc := Answering(s.confirm.completed, s.confirm.skipped, s.confirm.rejected))
  }

  function AnswerConfirmedStep(s: State): State
    requires s.pc.Answering? && s.pc.confirmed != []
  {
    var c := s.pc.confirmed[0];
    s.(pc := s.pc.(confirmed := s.pc.confirmed[1..]),
       answers := s.answers
         + [Result(c.id, c.val.pending.request.address, Some(c.val.tx), Some(c.val.txReceipt), None, None)])
  }

  /** The condition under which `handleRejectedTransactions` puts an order round again. */
  predicate Requeues(cfg: Config, o: ConfirmRef) {
    && o.val.confirmationError.Some? && NonceError(o.val.confirmationError.value)
    && o.id.lap < cfg.maxTries
    && o.val.request.address.options.retryOnNonceConfirmationError != Some(false)
  }

  function NextLap(o: ConfirmRef): SubmitRef {
    Ref(Ticket(o.id.id, o.id.lap + 1), WalletRequest(o.val.request.address, None, None, None))
  }

  /** One order of `handleRejectedTransactions`. */
  function RejectOrder(cfg: Config, s: State, o: ConfirmRef): State {
    if Requeues(cfg, o)
    then s.(submit := BeginAdd(s.submit, NextLap(o)), retired := s.retired + [o.id])
    else s.(answers := s.answers
             + [Result(o.id, o.val.request.address, Some(o.val.tx), None, None, o.val.confirmationError)])
  }

  function HandleRejectedStep(cfg: Config, s: State): State
    requires s.pc.Answering? && s.pc.failed != []
  {
    RejectOrder(cfg, s.(pc := s.pc.(failed := s.pc.failed[1..])), s.pc.failed[0])
  }

  /** `handleUnconfirmedTransactions` once `cancelTransaction` has returned. */
  function CancelledStep(s: State, receipt: Option<Receipt>): State
    requires s.pc.Answering? && s.pc.unconfirmed != []
  {
    var o := s.pc.unconfirmed[0];
    s.(pc := s.pc.(unconfirmed := s.pc.unconfirmed[1..]),
       answers := s.answers + [Result(o.id, o.val.request.address, Some(o.val.tx), receipt, None, Some(CANCELLED))])
  }

  function InSubmit(cfg: Config, s: State, sv: SubmitEvent, pc: Pc, now: int): State
    requires Enabled(s.submit, sv)
  {
    s.(clock := now, submit := Queue.Step(cfg.queues, s.submit, sv), pc := pc)
  }

  function InConfirm(cfg: Config, s: State, cv: ConfirmEvent, pc: Pc, now: int): State
    requires Enabled(s.confirm, cv)
  {
    s.(clock := now, confirm := Queue.Step(cfg.queues, s.confirm, cv), pc := pc)
  }

  // The queue events behind the ends of the handlers.

  function DeadlineEvent(s: State): SubmitEvent
    requires s.submit.current.Some?
  {
    HandlerDone(Threw(s.submit.current.value.po.order.val.(raised := Some(DEADLINE))))
  }

  function SubmitEndEvent(s: State, o: SendOutcome): SubmitEvent
    requires s.submit.current.Some? && s.sending.Some?
  {
    HandlerDone(HandleSent(s.submit.current.value.po.order.val, s.sending.value, o))
  }

  function SubmitFailedEvent(s: State, now: int): SubmitEvent
    requires s.submit.current.Some? && s.submit.current.value.po.order.val.raised.Some?
  {
    var order := s.submit.current.value.po.order.val;
    var (retry, val) := HandleFailedSubmit(order, order.raised.value);
    Foreground(FailureHandled(retry, val, now))
  }

  function ConfirmHandledEvent(s: State, o: SendOutcome): ConfirmEvent
    requires s.confirm.current.Some?
  {
    var po := s.confirm.current.value.po;
    HandlerDone(HandleConfirm(po.order.val, po.retryCount, o))
  }

  function ConfirmFailedEvent(s: State, background: Option<nat>, error: Error, now: int): ConfirmEvent
    requires FailedTask(s, background).Some?
  {
    var po := FailedTask(s, background).value.po;
    var (retry, val) := HandleFailedConfirm(po.order.val, po.retryCount, error);
    if background.None? then Foreground(FailureHandled(retry, val, now))
    else Background(background.value, FailureHandled(retry, val, now))
  }

  function NonceAfter(nonce: nat, evs: seq<NonceEvent>): nat {
    if evs == [] then nonce
    else
      match evs[|evs| - 1]
      case Resync(n) => n
      case Sent(_, _, _) => NonceAfter(nonce, evs[..|evs| - 1]) + 1
      case Failed(_, _) => NonceAfter(nonce, evs[..|evs| - 1])
  }

  /** `SubmitQueue.handleOrder` up to its await: the deadline, then the nonce. */
  function SubmitBeginStep(cfg: Config, s: State, now: int): State
    requires s.submit.current.Some? && s.submit.current.value.phase.Handling?
  {
    if DeadlinePassed(s.submit.current.value.po.order.val, now)
    then InSubmit(cfg, s, DeadlineEvent(s), s.pc, now)
    else s.(clock := now, sending := Some(s.nonce))
  }

  /** The rest of it: `increaseTransactionNonce` adds to what the nonce is by then. */
  function SubmitEndStep(cfg: Config, s: State, o: SendOutcome): State
    requires s.submit.current.Some? && s.submit.current.value.phase.Handling? && s.sending.Some?
  {
    var lap := s.submit.current.value.po.order.id;
    var s1 := InSubmit(cfg, s, SubmitEndEvent(s, o), s.pc, s.clock).(sending := None);
    match o
    case Accepted(hash) => s1.(nonce := s.nonce + 1, nonces := s.nonces + [Sent(lap, s.sending.value, hash)])
    case Refused(_) => s1.(nonces := s.nonces + [Failed(lap, s.sending.value)])
  }

  /** `handleFailedOrder` and `updateTransactionNonce`, which reads the pending transaction count from the chain. */
  function SubmitFailedStep(cfg: Config, s: State, now: int, pendingNonce: nat): State
    requires s.submit.current.Some? && s.submit.current.value.phase.Failing?
    requires s.submit.current.value.po.order.val.raised.Some? && s.submit.clock <= now
  {
    var order := s.submit.current.value.po.order.val;
    var s1 := InSubmit(cfg, s, SubmitFailedEvent(s, now), s.pc, now);
    if HandleFailedSubmit(order, order.raised.value).0
    then s1.(nonce := pendingNonce, nonces := s.nonces + [Resync(pendingNonce)])
    else s1
  }

  function ConfirmHandledStep(cfg: Config, s: State, o: SendOutcome): State
    requires s.confirm.current.Some? && s.confirm.current.value.phase.Handling?
  {
    var po := s.confirm.current.value.po;
    var s1 := InConfirm(cfg, s, ConfirmHandledEvent(s, o), s.pc, s.clock);
    if Reprices(po) && o.Accepted?
    then s1.(replacements := s.replacements + [Replacement(po.order.id, po.order.val.tx.nonce, o.hash)])
    else s1
  }

  function Step(cfg: Config, s: State, e: Event): State
    requires Possible(s, e)
  {
    match e
    case Receive(address) => ReceiveStep(s, address)
    case TakeNew => TakeNewStep(cfg, s)
    case AddNew => InSubmit(cfg, s, AddBegin(s.pc.todo[0]), AddingNew(s.pc.todo[1..]), s.clock)
    case StartSubmit(now) => InSubmit(cfg, s, Process(now), Submitting, now)
    case SubmitBegin(now) => SubmitBeginStep(cfg, s, now)
    case SubmitEnd(o) => SubmitEndStep(cfg, s, o)
    case SubmitFailed(now, pendingNonce) => SubmitFailedStep(cfg, s, now, pendingNonce)
    case SubmitInner(sv) => InSubmit(cfg, s, sv, s.pc, s.clock)
    case FlushSubmit => FlushSubmitStep(s)
    case AddPending => InConfirm(cfg, s, AddBegin(s.pc.pending[0]), AddingPending(s.pc.pending[1..]), s.clock)
    case StartConfirm(now) => InConfirm(cfg, s, Process(now), Confirming, now)
    case ConfirmHandled(o) => ConfirmHandledStep(cfg, s, o)
    case ConfirmFailed(background, error, now) =>
      InConfirm(cfg, s, ConfirmFailedEvent(s, background, error, now), s.pc, now)
    case ConfirmInner(cv) => InConfirm(cfg, s, cv, s.pc, s.clock)
    case FlushConfirm => FlushConfirmStep(s)
    case AnswerConfirmed => AnswerConfirmedStep(s)
    case HandleRejected => HandleRejectedStep(cfg, s)
    case Cancelled(receipt) => CancelledStep(s, receipt)
    case EndPass => s.(pc := Top)
  }

  function Run(cfg: Config, s: State, evs: seq<Event>): Option<State>
    decreases |evs|
  {
    if evs == [] then Some(s)
    else if Possible(s, evs[0]) then Run(cfg, Step(cfg, s, evs[0]), evs[1..])
    else None
  }
}
