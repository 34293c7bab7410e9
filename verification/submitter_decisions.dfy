/**
 * What the submitter decides: which orders wait, which are evaluated, submitted, tried again later or
 * dropped, said of every reachable state in terms of its fields and of what the outside answered.
 */
module SubmitterDecisions {
  import opened Common
  import opened Queue
  import opened QueueConservation
  import opened QueueContents
  import opened PendingQueue
  import opened Tickets
  import opened S = Submitter
  import Runs = SubmitterRuns
  import QueueRuns
  import Store

  // ---------------------------------------------------------------------------------------------
  // One evaluation
  // ---------------------------------------------------------------------------------------------

  /** Nobody has relayed the message yet: not delivered, or for a message that comes back not claimed. */
  predicate Unrelayed(chainId: string, state: Store.RelayState)
    requires state.bountyPlacedEvent.Some?
  {
    && state.status != Store.StatusBountyClaimed
    && (state.bountyPlacedEvent.value.fromChainId != chainId ==> state.status != Store.StatusMessageDelivered)
  }

  /** A bounty is stored for the message, and it still has to be relayed. */
  predicate Open(chainId: string, a: Answers) {
    a.relayState.Some? && a.relayState.value.bountyPlacedEvent.Some? && Unrelayed(chainId, a.relayState.value)
  }

  /** Own priority, or the one the store has for the message. */
  predicate Urgent(order: EvalOrder, a: Answers) {
    order.priority || a.ambPriority
  }

  /** What an evaluation takes to end in a submission. */
  predicate Approves(chainId: string, order: EvalOrder, a: Answers) {
    Open(chainId, a) && a.gasEstimated && (Urgent(order, a) || a.evaluation == Some(true))
  }

  /** An evaluation promises a submission exactly for an open message whose gas was estimated, if it is
      urgent or the evaluator said yes, and then as a delivery exactly if the bounty is on another chain. It
      ends without one, and without an error, exactly if the message was relayed already or the evaluator
      said no; only then it may ask to be tried again. Anything else is an error. */
  lemma EvaluationExactly(chainId: string, order: EvalOrder, a: Answers)
    ensures var h := HandleEval(chainId, order, a);
            && (h.Promised? <==> Approves(chainId, order, a))
            && (h.Promised? ==>
                  h.val.result == Some(a.relayState.value.bountyPlacedEvent.value.fromChainId != chainId))
            && (h.Null? <==>
                  && a.relayState.Some? && a.relayState.value.bountyPlacedEvent.Some?
                  && (|| !Open(chainId, a)
                      || (a.gasEstimated && !Urgent(order, a) && a.evaluation == Some(false))))
            && (h.Null? && Open(chainId, a) ==> h.val.retryEvaluation)
            && (!(h.Null? && Open(chainId, a)) ==> h.val.retryEvaluation == order.retryEvaluation)
            && h.val.priority == Urgent(order, a)
  {
  }

  // ---------------------------------------------------------------------------------------------
  // What reaches the submission queue
  // ---------------------------------------------------------------------------------------------

  predicate Warrants(chainId: string, p: Evaluation, isDelivery: bool) {
    && Approves(chainId, p.order, p.answers)
    && isDelivery == (p.answers.relayState.value.bountyPlacedEvent.value.fromChainId != chainId)
  }

  /** An evaluation of visit t ended in a submission of this kind. */
  ghost predicate Approved(chainId: string, passes: seq<Evaluation>, t: Visit, isDelivery: bool) {
    exists k :: 0 <= k < |passes| && passes[k].visit == t && Warrants(chainId, passes[k], isDelivery)
  }

  ghost predicate TaskApproved(chainId: string, passes: seq<Evaluation>, t: Task<Visit, EvalOrder, SubmitOrder>) {
    match t.phase
    case InFlight => t.po.order.val.result.Some? && Approved(chainId, passes, t.po.order.id, t.po.order.val.result.value)
    case Completing(Some(r)) => Approved(chainId, passes, t.po.order.id, r.isDelivery)
    case _ => true
  }

  ghost function Approvals(chainId: string, passes: seq<Evaluation>): Laws<Visit, EvalOrder, SubmitOrder> {
    Laws((r: EvalRef) => true,
         (po: ProcessOrder<Visit, EvalOrder>) => true,
         (t: Task<Visit, EvalOrder, SubmitOrder>) => TaskApproved(chainId, passes, t),
         (r: SubmitRef) => Approved(chainId, passes, r.id, r.val.isDelivery),
         (r: EvalRef) => true,
         (r: EvalRef) => true)
  }

  lemma ApprovalsCohere(chainId: string, passes: seq<Evaluation>)
    ensures Coherent(Approvals(chainId, passes))
  {
  }

  ghost predicate AllApproved(chainId: string, passes: seq<Evaluation>, orders: seq<SubmitRef>) {
    forall i :: 0 <= i < |orders| ==> Approved(chainId, passes, orders[i].id, orders[i].val.isDelivery)
  }

  ghost predicate SomehowApproved(chainId: string, passes: seq<Evaluation>, t: Visit) {
    Approved(chainId, passes, t, true) || Approved(chainId, passes, t, false)
  }

  /** Orders handed over, and visits that entered the submission queue. */
  ghost predicate HandedOverApproved(chainId: string, passes: seq<Evaluation>, pc: Pc, added: seq<Visit>) {
    && (pc.AddingSubmit? ==> AllApproved(chainId, passes, pc.todoSubmit))
    && forall i :: 0 <= i < |added| ==> SomehowApproved(chainId, passes, added[i])
  }

  ghost predicate OnlyApproved(cfg: S.Config, s: S.State) {
    && Obeys(s.eval, Approvals(cfg.chainId, s.passes))
    && HandedOverApproved(cfg.chainId, s.passes, s.pc, s.submit.added)
  }

  lemma ApprovedOutlasts(chainId: string, passes: seq<Evaluation>, p: Evaluation, t: Visit, isDelivery: bool)
    requires Approved(chainId, passes, t, isDelivery)
    ensures Approved(chainId, passes + [p], t, isDelivery)
  {
    var k :| 0 <= k < |passes| && passes[k].visit == t && Warrants(chainId, passes[k], isDelivery);
    assert (passes + [p])[k] == passes[k];
  }

  lemma ApprovalsOutlast(cfg: S.Config, s: S.State, p: Evaluation)
    requires OnlyApproved(cfg, s)
    ensures OnlyApproved(cfg, s.(passes := s.passes + [p]))
  {
    forall t: Visit, d: bool | Approved(cfg.chainId, s.passes, t, d) ensures Approved(cfg.chainId, s.passes + [p], t, d) {
      ApprovedOutlasts(cfg.chainId, s.passes, p, t, d);
    }
    ObeysWeaker(s.eval, Approvals(cfg.chainId, s.passes), Approvals(cfg.chainId, s.passes + [p]));
    forall i | 0 <= i < |s.submit.added| ensures SomehowApproved(cfg.chainId, s.passes + [p], s.submit.added[i]) {
      assert SomehowApproved(cfg.chainId, s.passes, s.submit.added[i]);
    }
  }

  lemma InEvalApproved(cfg: S.Config, s: S.State, ev: EvalEvent)
    requires Obeys(s.eval, Approvals(cfg.chainId, s.passes)) && Shape(s.eval) && Enabled(s.eval, ev)
    requires Lawful(cfg.queues, s.eval, ev, Approvals(cfg.chainId, s.passes))
    ensures Obeys(Queue.Step(cfg.queues, s.eval, ev), Approvals(cfg.chainId, s.passes))
  {
    ApprovalsCohere(cfg.chainId, s.passes);
    StepObeys(cfg.queues, s.eval, ev, Approvals(cfg.chainId, s.passes));
  }

  lemma HandlerApproved(cfg: S.Config, s: S.State, a: Answers)
    requires OnlyApproved(cfg, s) && Shape(s.eval) && Possible(s, EvalHandler(a))
    ensures OnlyApproved(cfg, EvalHandlerStep(cfg, s, a))
  {
    var order := s.eval.current.value.po.order;
    var p := Evaluation(order.id, order.val, a);
    var s1 := s.(passes := s.passes + [p]);
    ApprovalsOutlast(cfg, s, p);
    EvaluationExactly(cfg.chainId, order.val, a);
    if HandleEval(cfg.chainId, order.val, a).Promised? {
      assert s1.passes[|s.passes|] == p;
      assert Approved(cfg.chainId, s1.passes, order.id, HandleEval(cfg.chainId, order.val, a).val.result.value);
    }
    InEvalApproved(cfg, s1, HandlerEvent(cfg, s, a));
  }

  lemma InnerApproved(cfg: S.Config, s: S.State, ev: EvalEvent)
    requires Obeys(s.eval, Approvals(cfg.chainId, s.passes)) && InnerEval(s, ev)
    ensures Lawful(cfg.queues, s.eval, ev, Approvals(cfg.chainId, s.passes))
  {
  }

  lemma FlushApproved(cfg: S.Config, s: S.State, times: seq<int>)
    requires OnlyApproved(cfg, s) && Shape(s.eval) && Possible(s, FlushEval(times))
    ensures OnlyApproved(cfg, FlushEvalStep(cfg, s, times))
  {
    var s1 := s.(clock := LastTime(s.clock, times), eval := TakeFinished(s.eval), pc := AddingSubmit(s.eval.completed),
                 closed := s.closed + RefIds(s.eval.rejected));
    Runs.ReconsiderAllFrame(cfg, s1, s.eval.skipped, times);
    KeepsPasses(cfg, s1, s.eval.skipped, times);
    InEvalApproved(cfg, s, Flush);
    forall i | 0 <= i < |s.eval.completed|
      ensures Approved(cfg.chainId, s.passes, s.eval.completed[i].id, s.eval.completed[i].val.isDelivery)
    {
      assert Approvals(cfg.chainId, s.passes).completed(s.eval.completed[i]);
    }
  }

  lemma {:induction false} KeepsPasses(cfg: S.Config, s: S.State, orders: seq<EvalRef>, times: seq<int>)
    requires |orders| == |times|
    ensures ReconsiderAll(cfg, s, orders, times).passes == s.passes
  {
    if orders != [] {
      KeepsPasses(cfg, s, orders[..|orders| - 1], times[..|orders| - 1]);
    }
  }

  lemma AddSubmitApproved(cfg: S.Config, s: S.State)
    requires OnlyApproved(cfg, s) && Possible(s, AddSubmit)
    ensures OnlyApproved(cfg, S.Step(cfg, s, AddSubmit))
  {
    assert Approved(cfg.chainId, s.passes, s.pc.todoSubmit[0].id, s.pc.todoSubmit[0].val.isDelivery);
  }

  lemma SubmitStepApproved(cfg: S.Config, s: S.State, sv: SubmitEvent, pc: Pc)
    requires OnlyApproved(cfg, s) && Enabled(s.submit, sv) && !sv.AddBegin? && !sv.Flush?
    requires pc == s.pc || !pc.AddingSubmit?
    ensures OnlyApproved(cfg, InSubmit(cfg, s, sv, pc))
  {
    SilentAdds(cfg.queues, s.submit, sv);
  }

  lemma StepApproved(cfg: S.Config, s: S.State, e: S.Event)
    requires OnlyApproved(cfg, s) && Shape(s.eval) && Possible(s, e)
    ensures OnlyApproved(cfg, S.Step(cfg, s, e))
  {
    match e
    case Arrive(id, priority, now) =>
      var ref := Ref(Ticket(Door(|s.arrived|, !priority), 0), NewOrder(cfg, id, priority, now));
      InEvalApproved(cfg, s, AddBegin(ref));
    case TakePending(_) =>
    case AddEval => InEvalApproved(cfg, s, AddBegin(s.pc.todo[0]));
    case StartEval(now) => InEvalApproved(cfg, s, Process(now));
    case EvalHandler(a) => HandlerApproved(cfg, s, a);
    case EvalInner(ev) =>
      InnerApproved(cfg, s, ev);
      InEvalApproved(cfg, s, ev);
    case FlushEval(times) => FlushApproved(cfg, s, times);
    case AddSubmit => AddSubmitApproved(cfg, s);
    case StartSubmit(now) => SubmitStepApproved(cfg, s, Process(now), Submitting);
    case SubmitInner(sv) => SubmitStepApproved(cfg, s, sv, s.pc);
    case FlushSubmit =>
  }

  lemma {:induction false} RunApproved(cfg: S.Config, s: S.State, evs: seq<S.Event>)
    requires Runs.Good(cfg, s) && OnlyApproved(cfg, s) && S.Run(cfg, s, evs).Some?
    ensures OnlyApproved(cfg, S.Run(cfg, s, evs).value)
    decreases |evs|
  {
    if evs != [] {
      StepApproved(cfg, s, evs[0]);
      Runs.GoodStep(cfg, s, evs[0]);
      RunApproved(cfg, S.Step(cfg, s, evs[0]), evs[1..]);
    }
  }

  lemma ReachableApproved(cfg: S.Config, s: S.State)
    requires Runs.Reachable(cfg, s)
    ensures OnlyApproved(cfg, s)
  {
    var clock, evs :| S.Run(cfg, S.Init(clock), evs) == Some(s);
    Runs.GoodInit(cfg, clock);
    RunApproved(cfg, S.Init(clock), evs);
  }

  /** In every run, whatever entered the submission queue was open when it was evaluated on that visit,
      with its gas estimated, and urgent or found profitable. */
  lemma SubmittedWasOpen(cfg: S.Config, s: S.State, i: nat) returns (k: nat)
    requires Runs.Reachable(cfg, s) && i < |s.submit.added|
    ensures k < |s.passes| && s.passes[k].visit == s.submit.added[i]
    ensures Approves(cfg.chainId, s.passes[k].order, s.passes[k].answers)
  {
    ReachableApproved(cfg, s);
    var t := s.submit.added[i];
    assert SomehowApproved(cfg.chainId, s.passes, t);
    if Approved(cfg.chainId, s.passes, t, true) {
      k :| 0 <= k < |s.passes| && s.passes[k].visit == t && Warrants(cfg.chainId, s.passes[k], true);
    } else {
      k :| 0 <= k < |s.passes| && s.passes[k].visit == t && Warrants(cfg.chainId, s.passes[k], false);
    }
  }

  /** And it is handed over as a delivery exactly if its bounty was on another chain. */
  lemma HandedOverAsEvaluated(cfg: S.Config, s: S.State, i: nat) returns (k: nat)
    requires Runs.Reachable(cfg, s) && s.pc.AddingSubmit? && i < |s.pc.todoSubmit|
    ensures k < |s.passes| && s.passes[k].visit == s.pc.todoSubmit[i].id
    ensures Warrants(cfg.chainId, s.passes[k], s.pc.todoSubmit[i].val.isDelivery)
  {
    ReachableApproved(cfg, s);
    var o := s.pc.todoSubmit[i];
    assert Approved(cfg.chainId, s.passes, o.id, o.val.isDelivery);
    k :| 0 <= k < |s.passes| && s.passes[k].visit == o.id && Warrants(cfg.chainId, s.passes[k], o.val.isDelivery);
  }

  // ---------------------------------------------------------------------------------------------
  // The pending queue
  // ---------------------------------------------------------------------------------------------

  /** An order as it arrives: its deadline counts from now. */
  function Arrived(cfg: S.Config, s: S.State, id: string, priority: bool, now: int): EvalRef {
    Ref(Ticket(Door(|s.arrived|, !priority), 0),
        EvalOrder(id, priority, now + cfg.maxEvaluationDuration, false, None, now, 0))
  }

  /** Entry p of q1 stands behind all entries of q due no later and before all others. */
  ghost predicate InsertedAt<T>(q: seq<Pending<T>>, q1: seq<Pending<T>>, p: Pending<T>, k: nat) {
    && k <= |q| && q1 == q[..k] + [p] + q[k..]
    && (forall i :: 0 <= i < k ==> q[i].processAt <= p.processAt)
    && (forall i :: k <= i < |q| ==> q[i].processAt > p.processAt)
  }

  lemma InsertsInOrder<T>(q: seq<Pending<T>>, p: Pending<T>) returns (k: nat)
    requires Sorted(q)
    ensures InsertedAt(q, Insert(q, p), p, k)
  {
    k := InsertIndex(q, p.processAt);
    SpliceInserts(q, p);
    forall i | k <= i < |q| ensures q[i].processAt > p.processAt {
      assert k < i ==> Before(q[k], q[i]);
    }
  }

  lemma PendingSorted(cfg: S.Config, s: S.State)
    requires Runs.Reachable(cfg, s)
    ensures Sorted(s.pending)
  {
    Runs.ReachableIsGood(cfg, s);
  }

  /** An order with priority goes straight to the evaluation queue. Any other waits for `newOrdersDelay`. */
  lemma ArrivalExactly(cfg: S.Config, s: S.State, id: string, priority: bool, now: int) returns (k: nat)
    requires Runs.Reachable(cfg, s) && s.clock <= now
    ensures var s1, o := S.Step(cfg, s, Arrive(id, priority, now)), Arrived(cfg, s, id, priority, now);
            && s1.submit == s.submit && s1.pc == s.pc
            && if priority
               then s1.pending == s.pending && s1.eval.initialising == s.eval.initialising + [o]
               else && s1.eval == s.eval
                    && InsertedAt(s.pending, s1.pending, Pending(o, now + cfg.newOrdersDelay, s.entries), k)
  {
    PendingSorted(cfg, s);
    k := InsertsInOrder(s.pending, Pending(Arrived(cfg, s, id, priority, now), now + cfg.newOrdersDelay, s.entries));
  }

  /** The first n orders are taken: all of them due, never more than there is room for, and a due order
      stays behind only when the room is used up. */
  ghost predicate TakenFirst<T>(q: seq<Pending<T>>, now: int, n: nat, used: int, limit: int) {
    && n <= |q|
    && (forall i :: 0 <= i < n ==> q[i].processAt <= now)
    && (n > 0 ==> n + used <= limit)
    && (forall i :: n <= i < |q| && q[i].processAt <= now ==> n + used >= limit)
  }

  lemma TakesFirst<T>(q: seq<Pending<T>>, now: int, used: int, limit: nat) returns (n: nat)
    requires Sorted(q)
    ensures n == TakeCount(q, now, if limit - used < 0 then 0 else limit - used)
    ensures TakenFirst(q, now, n, used, limit)
  {
    DueIsPrefix(q, now);
    n := TakeCount(q, now, if limit - used < 0 then 0 else limit - used);
    forall i | 0 <= i < n ensures q[i].processAt <= now {
      assert IsDue(q[i], now);
    }
    forall i | n <= i < |q| && q[i].processAt <= now ensures n + used >= limit {
      assert IsDue(q[i], now);
    }
  }

  /** A pass takes the first orders of the pending queue, as many as are due and fit. */
  lemma PendingTakenExactly(cfg: S.Config, s: S.State, now: int) returns (n: nat)
    requires Runs.Reachable(cfg, s) && Possible(s, TakePending(now))
    ensures TakenFirst(s.pending, now, n, s.eval.size + s.submit.size, cfg.maxPendingTransactions)
    ensures var s1 := S.Step(cfg, s, TakePending(now));
            && s1.pending == s.pending[n..] && s1.pc.AddingEval? && |s1.pc.todo| == n
            && forall i :: 0 <= i < n ==> s1.pc.todo[i] == s.pending[i].order
  {
    PendingSorted(cfg, s);
    n := TakesFirst(s.pending, now, s.eval.size + s.submit.size, cfg.maxPendingTransactions);
  }

  /** The order of a visit, waiting for its next one. */
  ghost predicate WaitsAgain(cfg: S.Config, q: seq<Pending<EvalRef>>, o: EvalRef, now: int) {
    exists i :: 0 <= i < |q| && q[i].processAt == now + cfg.evaluationRetryInterval
                && q[i].order == Ref(Ticket(o.id.id, o.id.lap + 1), o.val.(retryEvaluation := false))
  }

  lemma WaitsOutlasts(cfg: S.Config, q: seq<Pending<EvalRef>>, p: Pending<EvalRef>, o: EvalRef, now: int)
    requires WaitsAgain(cfg, q, o, now)
    ensures WaitsAgain(cfg, Insert(q, p), o, now)
  {
    var i :| 0 <= i < |q| && q[i].processAt == now + cfg.evaluationRetryInterval
             && q[i].order == Ref(Ticket(o.id.id, o.id.lap + 1), o.val.(retryEvaluation := false));
    var k := InsertIndex(q, p.processAt);
    SpliceInserts(q, p);
    assert Insert(q, p)[if i < k then i else i + 1] == q[i];
  }

  lemma WaitsNow(cfg: S.Config, q: seq<Pending<EvalRef>>, o: EvalRef, now: int, stamp: nat)
    ensures WaitsAgain(cfg, Insert(q, Pending(NextVisit(o), now + cfg.evaluationRetryInterval, stamp)), o, now)
  {
    var p := Pending(NextVisit(o), now + cfg.evaluationRetryInterval, stamp);
    SpliceInserts(q, p);
    assert Insert(q, p)[InsertIndex(q, p.processAt)] == p;
  }

  /** Where a reconsidered order went. */
  ghost predicate Reconsidered(cfg: S.Config, s: S.State, o: EvalRef, now: int) {
    if o.val.retryEvaluation && now + cfg.evaluationRetryInterval <= o.val.evaluationDeadline
    then WaitsAgain(cfg, s.pending, o, now) && o.id in s.retired
    else o.id in s.closed
  }

  lemma ReconsideredOutlasts(cfg: S.Config, s: S.State, order: EvalRef, now: int, o: EvalRef, since: int)
    requires Reconsidered(cfg, s, o, since)
    ensures Reconsidered(cfg, Reconsider(cfg, s, order, now), o, since)
  {
    if Returns(cfg, order.val, now) && WaitsAgain(cfg, s.pending, o, since) {
      WaitsOutlasts(cfg, s.pending, Pending(NextVisit(order), now + cfg.evaluationRetryInterval, s.entries), o, since);
    }
  }

  lemma {:induction false} AllReconsidered(cfg: S.Config, s: S.State, orders: seq<EvalRef>, times: seq<int>, i: nat)
    requires |orders| == |times| && i < |orders|
    ensures Reconsidered(cfg, ReconsiderAll(cfg, s, orders, times), orders[i], times[i])
  {
    var n := |orders| - 1;
    var before := ReconsiderAll(cfg, s, orders[..n], times[..n]);
    if i < n {
      AllReconsidered(cfg, s, orders[..n], times[..n], i);
      ReconsideredOutlasts(cfg, before, orders[n], times[n], orders[i], times[i]);
    } else {
      WaitsNow(cfg, before.pending, orders[n], times[n], before.entries);
    }
  }

  /** When a pass is over, the completed evaluations go on to submission. Of those without a submission an
      order returns to wait for its next visit exactly if it asked for it and that visit falls within its
      deadline; all others are dropped, and so are those out of tries. */
  lemma ReconsideredExactly(cfg: S.Config, s: S.State, times: seq<int>, i: nat)
    requires Runs.Reachable(cfg, s) && Possible(s, FlushEval(times))
    ensures var s1 := S.Step(cfg, s, FlushEval(times));
            && s1.pc == AddingSubmit(s.eval.completed)
            && (i < |s.eval.skipped| ==> Reconsidered(cfg, s1, s.eval.skipped[i], times[i]))
            && (i < |s.eval.rejected| ==> s.eval.rejected[i].id in s1.closed)
  {
    var s1 := s.(clock := LastTime(s.clock, times), eval := TakeFinished(s.eval), pc := AddingSubmit(s.eval.completed),
                 closed := s.closed + RefIds(s.eval.rejected));
    Runs.ReconsiderAllFrame(cfg, s1, s.eval.skipped, times);
    if i < |s.eval.skipped| {
      AllReconsidered(cfg, s1, s.eval.skipped, times, i);
    }
    if i < |s.eval.rejected| {
      assert RefIds(s.eval.rejected)[i] in s1.closed;
      ClosedOnlyGrows(cfg, s1, s.eval.skipped, times, s.eval.rejected[i].id);
    }
  }

  lemma {:induction false} ClosedOnlyGrows(cfg: S.Config, s: S.State, orders: seq<EvalRef>, times: seq<int>, t: Visit)
    requires |orders| == |times| && t in s.closed
    ensures t in ReconsiderAll(cfg, s, orders, times).closed
  {
    if orders != [] {
      ClosedOnlyGrows(cfg, s, orders[..|orders| - 1], times[..|orders| - 1], t);
    }
  }
}
