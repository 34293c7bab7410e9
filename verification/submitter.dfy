/**
 * The submitter: a time-ordered pending queue feeds the evaluation queue, which feeds the submission
 * queue; orders declined as unprofitable go back to the pending queue until their deadline.
 */
module Submitter {
  import opened Common
  import opened Queue
  import opened PendingQueue
  import opened Tickets
  import Store

  /** An order, by its number and the door it came through. */
  datatype Door = Door(order: nat, viaPending: bool)

  /** A visit is one lap of an order: it starts on arrival or on a return to the pending queue. */
  type Visit = Ticket<Door>

  /** `result`: the `isDelivery` of the object its handler returned. `received` and `declined` are history:
      arrival time, and the number of evaluation passes that found the order unprofitable. */
  datatype EvalOrder = EvalOrder(
    messageIdentifier: string, priority: bool, evaluationDeadline: int, retryEvaluation: bool,
    result: Option<bool>, received: int, declined: nat)

  datatype SubmitOrder = SubmitOrder(order: EvalOrder, isDelivery: bool)

  datatype Config = Config(
    chainId: string,
    retryInterval: nat,
    maxTries: nat,
    maxPendingTransactions: nat,
    newOrdersDelay: nat,
    evaluationRetryInterval: nat,
    maxEvaluationDuration: nat)
  {
    /** Neither queue limits concurrency. */
    const queues: Queue.Config := Queue.Config.Config(retryInterval, maxTries, None)
  }

  // ---------------------------------------------------------------------------------------------
  // One evaluation pass
  // ---------------------------------------------------------------------------------------------

  /** What the outside answers during one pass: stored priority, stored state, whether the gas could be
      estimated, and the evaluator's decision (`None`: no evaluation). */
  datatype Answers = Answers(
    ambPriority: bool, relayState: Option<Store.RelayState>, gasEstimated: bool, evaluation: Option<bool>)

  datatype Bounty = Bounty(
    messageIdentifier: string, fromChainId: string, maxGasDelivery: int, maxGasAck: int, refundGasTo: string,
    priceOfDeliveryGas: int, priceOfAckGas: int, targetDelta: int, deliveryGasCost: Option<int>)

  /** `getBountyFromRelayState` */
  function BountyFromRelayState(s: Store.RelayState): Option<Bounty> {
    match s.bountyPlacedEvent
    case None => None
    case Some(p) =>
      var i := s.bountyIncreasedEvent;
      Some(Bounty(
        s.messageIdentifier, p.fromChainId, p.maxGasDelivery, p.maxGasAck, p.refundGasTo,
        if i.Some? then i.value.newDeliveryGasPrice else p.priceOfDeliveryGas,
        if i.Some? then i.value.newAckGasPrice else p.priceOfAckGas,
        p.targetDelta, s.deliveryGasCost))
  }

  /** `evaluateRelaySubmission`; `None` is the error of a missing evaluation. */
  function EvaluateRelaySubmission(order: EvalOrder, evaluation: Option<bool>): Option<bool> {
    if order.priority then Some(true) else evaluation
  }

  datatype Pass = Failed | AlreadyRelayed | Declined | Submit(isDelivery: bool)

  function Elevate(order: EvalOrder, ambPriority: bool): EvalOrder {
    if !order.priority && ambPriority then order.(priority := true) else order
  }

  function Outcome(chainId: string, order: EvalOrder, a: Answers): Pass {
    if a.relayState.None? then Failed
    else
      var bounty := BountyFromRelayState(a.relayState.value);
      if bounty.None? then Failed
      else
        var isDelivery := bounty.value.fromChainId != chainId;
        var rank := Store.Rank(a.relayState.value.status);
        if (isDelivery && rank >= 1) || (!isDelivery && rank >= 2) then AlreadyRelayed
        else if !a.gasEstimated then Failed
        else
          match EvaluateRelaySubmission(order, a.evaluation)
          case None => Failed
          case Some(true) => Submit(isDelivery)
          case Some(false) => Declined
  }

  /** `EvalQueue.handleOrder`: what it leaves in the order, and how it ends. */
  function HandleEval(chainId: string, order: EvalOrder, a: Answers): Handled<EvalOrder> {
    var elevated := Elevate(order, a.ambPriority);
    match Outcome(chainId, elevated, a)
    case Failed => Threw(elevated)
    case AlreadyRelayed => Null(elevated)
    case Declined => Null(elevated.(retryEvaluation := true, declined := order.declined + 1))
    case Submit(isDelivery) => Promised(elevated.(result := Some(isDelivery)))
  }

  /** A pass asks for re-evaluation exactly when the evaluator declined an order of no priority whose
      message is still unrelayed. */
  lemma RetryExactlyWhenDeclined(chainId: string, order: EvalOrder, a: Answers)
    requires !order.retryEvaluation
    ensures HandleEval(chainId, order, a).val.retryEvaluation
            <==> && !order.priority && !a.ambPriority && a.evaluation == Some(false) && a.gasEstimated
                 && a.relayState.Some? && a.relayState.value.bountyPlacedEvent.Some?
                 && Store.Rank(a.relayState.value.status)
                    < if a.relayState.value.bountyPlacedEvent.value.fromChainId != chainId then 1 else 2
  {
  }

  // ---------------------------------------------------------------------------------------------
  // The worker
  // ---------------------------------------------------------------------------------------------

  type EvalQueue = Queue.State<Visit, EvalOrder, SubmitOrder>
  type SubmitQueue = Queue.State<Visit, SubmitOrder, SubmitOrder>
  type EvalEvent = Queue.Event<Visit, EvalOrder, SubmitOrder>
  type SubmitEvent = Queue.Event<Visit, SubmitOrder, SubmitOrder>
  type EvalRef = Ref<Visit, EvalOrder>
  type SubmitRef = Ref<Visit, SubmitOrder>

  /** Where `run` stands; the lists are the arguments of the `addOrders` call under way. */
  datatype Pc =
    | Top
    | AddingEval(todo: seq<EvalRef>)
    | Evaluating
    | AddingSubmit(todoSubmit: seq<SubmitRef>)
    | Submitting

  datatype State = State(
    clock: int,
    pending: seq<Pending<EvalRef>>,
    eval: EvalQueue,
    submit: SubmitQueue,
    pc: Pc,
    // history
    entries: nat,           // entries ever made to `pending`
    arrived: seq<Door>,
    retired: seq<Visit>,    // visits that ended with a return to `pending`
    closed: seq<Visit>,     // visits that ended the order: submitted or dropped
    passes: seq<Evaluation>)

  /** One evaluation: the order as it was taken up, and what the outside answered. */
  datatype Evaluation = Evaluation(visit: Visit, order: EvalOrder, answers: Answers)

  function Init(clock: int): State {
    State.State(clock, [], Queue.Init(clock), Queue.Init(clock), Top, 0, [], [], [], [])
  }

  datatype Event =
    | Arrive(messageIdentifier: string, priority: bool, now: int)   // `addSubmitOrder`
    | TakePending(now: int)
    | AddEval
    | StartEval(now: int)
    | EvalHandler(answers: Answers)
    | EvalInner(ev: EvalEvent)
    | FlushEval(times: seq<int>)   // a clock reading for each order to reconsider
    | AddSubmit
    | StartSubmit(now: int)
    | SubmitInner(sv: SubmitEvent)
    | FlushSubmit

  function EventTime<K, O, R>(ev: Queue.Event<K, O, R>, clock: int): int {
    match ev
    case Process(now) => now
    case Foreground(FailureHandled(_, _, now)) => now
    case Background(_, FailureHandled(_, _, now)) => now
    case _ => clock
  }

  /** What the evaluation queue does on its own: orders get no `onOrderInit`, results are not promises
      that can fail, and `handleFailedOrder` only chooses whether to retry. */
  predicate EvalMove(order: EvalOrder, m: Move<EvalOrder, SubmitOrder>, clock: int) {
    match m
    case Resolve(result) => order.result.Some? && result == Some(SubmitOrder(order, order.result.value))
    case Reject => false
    case FailureHandled(_, val, now) => val == order && clock <= now
    case HookDone => true
  }

  predicate InnerEval(s: State, ev: EvalEvent) {
    && Enabled(s.eval, ev)
    && match ev
       case AddEnd(k, val) => val == s.eval.initialising[k].val
       case Next => s.pc.Evaluating?
       case Foreground(m) => EvalMove(s.eval.current.value.po.order.val, m, s.clock)
       case Background(k, m) => EvalMove(s.eval.tasks[k].po.order.val, m, s.clock)
       case Decrement => true
       case _ => false
  }

  predicate InnerSubmit(s: State, sv: SubmitEvent) {
    && Enabled(s.submit, sv)
    && !sv.AddBegin? && !sv.Flush? && !sv.Process?
    && (sv.Next? ==> s.pc.Submitting?)
    && s.clock <= EventTime(sv, s.clock)
  }

  /** Successive clock readings. */
  predicate Passing(clock: int, times: seq<int>) {
    && (forall i :: 0 <= i < |times| ==> clock <= times[i])
    && (forall i, j :: 0 <= i < j < |times| ==> times[i] <= times[j])
  }

  function LastTime(clock: int, times: seq<int>): int {
    if times == [] then clock else times[|times| - 1]
  }

  predicate Possible(s: State, e: Event) {
    match e
    case Arrive(_, _, now) => s.clock <= now
    case TakePending(now) => s.pc.Top? && s.clock <= now
    case AddEval => s.pc.AddingEval? && s.pc.todo != []
    case StartEval(now) => s.pc == AddingEval([]) && s.clock <= now && Enabled(s.eval, Process(now))
    case EvalHandler(_) => s.eval.current.Some? && s.eval.current.value.phase.Handling?
    case EvalInner(ev) => InnerEval(s, ev)
    case FlushEval(times) =>
      s.pc.Evaluating? && s.eval.main.Idle? && |times| == |s.eval.skipped| && Passing(s.clock, times)
    case AddSubmit => s.pc.AddingSubmit? && s.pc.todoSubmit != []
    case StartSubmit(now) => s.pc == AddingSubmit([]) && s.clock <= now && Enabled(s.submit, Process(now))
    case SubmitInner(sv) => InnerSubmit(s, sv)
    case FlushSubmit => s.pc.Submitting? && s.submit.main.Idle?
  }

  /** `getSubmitterCapacity` */
  function Capacity(cfg: Config, evalSize: int, submitSize: int): nat {
    var c := cfg.maxPendingTransactions - evalSize - submitSize;
    if c < 0 then 0 else c
  }

  function AddPending(s: State, processAt: int, order: EvalRef): State {
    s.(pending := Insert(s.pending, Pending(order, processAt, s.entries)), entries := s.entries + 1)
  }

  function NewOrder(cfg: Config, id: string, priority: bool, now: int): EvalOrder {
    EvalOrder(id, priority, now + cfg.maxEvaluationDuration, false, None, now, 0)
  }

  function ArriveStep(cfg: Config, s: State, id: string, priority: bool, now: int): State {
    var door := Door(|s.arrived|, !priority);
    var ref := Ref(Ticket(door, 0), NewOrder(cfg, id, priority, now));
    var s1 := s.(clock := now, arrived := s.arrived + [door]);
    if priority then s1.(eval := BeginAdd(s.eval, ref))
    else AddPending(s1, now + cfg.newOrdersDelay, ref)
  }

  function Orders(q: seq<Pending<EvalRef>>): (r: seq<EvalRef>)
    ensures |r| == |q| && forall i :: 0 <= i < |q| ==> r[i] == q[i].order
  {
    seq(|q|, i requires 0 <= i < |q| => q[i].order)
  }

  function TakePendingStep(cfg: Config, s: State, now: int): State {
    var k := TakeCount(s.pending, now, Capacity(cfg, s.eval.size, s.submit.size));
    var n := if k <= |s.pending| then k else |s.pending|;
    s.(clock := now, pending := s.pending[n..], pc := AddingEval(Orders(s.pending[..n])))
  }

  predicate Returns(cfg: Config, order: EvalOrder, now: int) {
    order.retryEvaluation && now + cfg.evaluationRetryInterval <= order.evaluationDeadline
  }

  function NextVisit(order: EvalRef): EvalRef {
    Ref(Ticket(order.id.id, order.id.lap + 1), order.val.(retryEvaluation := false))
  }

  /** One order of `processNoSubmitEvalOrders`. */
  function Reconsider(cfg: Config, s: State, order: EvalRef, now: int): State {
    if Returns(cfg, order.val, now)
    then AddPending(s.(retired := s.retired + [order.id]), now + cfg.evaluationRetryInterval, NextVisit(order))
    else s.(closed := s.closed + [order.id])
  }

  /** `processNoSubmitEvalOrders`, which reads the clock for each order. */
  function ReconsiderAll(cfg: Config, s: State, orders: seq<EvalRef>, times: seq<int>): State
    requires |orders| == |times|
  {
    if orders == [] then s
    else
      var n := |orders| - 1;
      Reconsider(cfg, ReconsiderAll(cfg, s, orders[..n], times[..n]), orders[n], times[n])
  }

  function FlushEvalStep(cfg: Config, s: State, times: seq<int>): State
    requires |times| == |s.eval.skipped|
  {
    var s1 := s.(clock := LastTime(s.clock, times), eval := TakeFinished(s.eval), pc := AddingSubmit(s.eval.completed),
                 closed := s.closed + RefIds(s.eval.rejected));
    ReconsiderAll(cfg, s1, s.eval.skipped, times)
  }

  function FlushSubmitStep(s: State): State {
    var q := s.submit;
    s.(submit := TakeFinished(q), pc := Top,
       closed := s.closed + RefIds(q.completed) + RefIds(q.skipped) + RefIds(q.rejected))
  }

  /** The event of the evaluation queue behind an evaluation handler's end. */
  function HandlerEvent(cfg: Config, s: State, a: Answers): EvalEvent
    requires s.eval.current.Some?
  {
    HandlerDone(HandleEval(cfg.chainId, s.eval.current.value.po.order.val, a))
  }

  function InEval(cfg: Config, s: State, ev: EvalEvent, pc: Pc): State
    requires Enabled(s.eval, ev)
  {
    s.(clock := EventTime(ev, s.clock), eval := Queue.Step(cfg.queues, s.eval, ev), pc := pc)
  }

  function EvalHandlerStep(cfg: Config, s: State, a: Answers): State
    requires s.eval.current.Some? && s.eval.current.value.phase.Handling?
  {
    var order := s.eval.current.value.po.order;
    InEval(cfg, s, HandlerEvent(cfg, s, a), s.pc).(passes := s.passes + [Evaluation(order.id, order.val, a)])
  }

  function InSubmit(cfg: Config, s: State, sv: SubmitEvent, pc: Pc): State
    requires Enabled(s.submit, sv)
  {
    s.(clock := EventTime(sv, s.clock), submit := Queue.Step(cfg.queues, s.submit, sv), pc := pc)
  }

  function Step(cfg: Config, s: State, e: Event): State
    requires Possible(s, e)
  {
    match e
    case Arrive(id, priority, now) => ArriveStep(cfg, s, id, priority, now)
    case TakePending(now) => TakePendingStep(cfg, s, now)
    case AddEval => InEval(cfg, s, AddBegin(s.pc.todo[0]), AddingEval(s.pc.todo[1..]))
    case StartEval(now) => InEval(cfg, s, Process(now), Evaluating)
    case EvalHandler(a) => EvalHandlerStep(cfg, s, a)
    case EvalInner(ev) => InEval(cfg, s, ev, s.pc)
    case FlushEval(times) => FlushEvalStep(cfg, s, times)
    case AddSubmit => InSubmit(cfg, s, AddBegin(s.pc.todoSubmit[0]), AddingSubmit(s.pc.todoSubmit[1..]))
    case StartSubmit(now) => InSubmit(cfg, s, Process(now), Submitting)
    case SubmitInner(sv) => InSubmit(cfg, s, sv, s.pc)
    case FlushSubmit => FlushSubmitStep(s)
  }

  function Run(cfg: Config, s: State, evs: seq<Event>): Option<State>
    decreases |evs|
  {
    if evs == [] then Some(s)
    else if Possible(s, evs[0]) then Run(cfg, Step(cfg, s, evs[0]), evs[1..])
    else None
  }
}
