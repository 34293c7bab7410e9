/** The submitter over whole runs: conservation, admission, and the bound on re-evaluations. */
module SubmitterRuns {
  import opened Common
  import opened Queue
  import opened QueueConservation
  import opened QueueBounds
  import opened QueueContents
  import opened PendingQueue
  import opened Tickets
  import opened S = Submitter
  import QueueRuns

  // ---------------------------------------------------------------------------------------------
  // Where every visit is
  // ---------------------------------------------------------------------------------------------

  function PendingIds(q: seq<Pending<EvalRef>>): (r: seq<Visit>)
    ensures |r| == |q| && forall i :: 0 <= i < |q| ==> r[i] == q[i].order.id
  {
    seq(|q|, i requires 0 <= i < |q| => q[i].order.id)
  }

  function PcIds(pc: Pc): seq<Visit> {
    match pc
    case AddingEval(todo) => RefIds(todo)
    case AddingSubmit(todo) => RefIds(todo)
    case _ => []
  }

  /** Every place of the submitter, side by side. */
  function Everywhere(s: S.State): seq<Visit> {
    PendingIds(s.pending) + PcIds(s.pc) + Places(s.eval) + Places(s.submit)
  }

  ghost function Held(s: S.State, t: Visit): nat {
    Count(PcIds(s.pc), t) + Census(s.eval, t) + Census(s.submit, t)
  }

  /** Issued, not pending, not ended. */
  ghost function Debt(s: S.State, t: Visit): int {
    Issued(s.arrived, s.retired, t) - Count(PendingIds(s.pending), t) - Count(s.retired, t) - Count(s.closed, t)
  }

  ghost predicate Accounted(s: S.State) {
    forall t :: Debt(s, t) == Held(s, t)
  }

  lemma EverywhereCounts(s: S.State, t: Visit)
    ensures Count(Everywhere(s), t) == Count(PendingIds(s.pending), t) + Held(s, t)
  {
    CensusCountsPlaces(s.eval, t);
    CensusCountsPlaces(s.submit, t);
    CountAppend(PendingIds(s.pending), PcIds(s.pc), t);
    CountAppend(PendingIds(s.pending) + PcIds(s.pc), Places(s.eval), t);
    CountAppend(PendingIds(s.pending) + PcIds(s.pc) + Places(s.eval), Places(s.submit), t);
  }

  lemma InsertCounts(q: seq<Pending<EvalRef>>, p: Pending<EvalRef>, t: Visit)
    ensures Count(PendingIds(Insert(q, p)), t) == Count(PendingIds(q), t) + if p.order.id == t then 1 else 0
  {
    var k := InsertIndex(q, p.processAt);
    SpliceInserts(q, p);
    assert PendingIds(Insert(q, p)) == PendingIds(q)[..k] + [p.order.id] + PendingIds(q)[k..];
    CountAppend(PendingIds(q)[..k] + [p.order.id], PendingIds(q)[k..], t);
    CountSnoc(PendingIds(q)[..k], p.order.id, t);
    CountSplit(PendingIds(q), k, t);
  }

  lemma IssuedSnoc(arrived: seq<Door>, retired: seq<Visit>, v: Visit, t: Visit)
    ensures Issued(arrived, retired + [v], t)
            == Issued(arrived, retired, t) + if t == Ticket(v.id, v.lap + 1) then 1 else 0
  {
    if t.lap > 0 {
      CountSnoc(retired, v, Ticket(t.id, t.lap - 1));
    }
  }

  /** Reconsidering an order ends its visit; a return begins the next one in the pending queue. */
  lemma ReconsiderDebt(cfg: S.Config, s: S.State, order: EvalRef, now: int, t: Visit)
    ensures Debt(Reconsider(cfg, s, order, now), t) == Debt(s, t) - if order.id == t then 1 else 0
  {
    CountSnoc(s.retired, order.id, t);
    CountSnoc(s.closed, order.id, t);
    if Returns(cfg, order.val, now) {
      IssuedSnoc(s.arrived, s.retired, order.id, t);
      InsertCounts(s.pending, Pending(NextVisit(order), now + cfg.evaluationRetryInterval, s.entries), t);
    }
  }

  lemma {:induction false} ReconsiderAllDebt(cfg: S.Config, s: S.State, orders: seq<EvalRef>, times: seq<int>, t: Visit)
    requires |orders| == |times|
    ensures Debt(ReconsiderAll(cfg, s, orders, times), t) == Debt(s, t) - Count(RefIds(orders), t)
  {
    if orders != [] {
      var n := |orders| - 1;
      var front, last, before := orders[..n], orders[n], times[..n];
      ReconsiderAllDebt(cfg, s, front, before, t);
      ReconsiderDebt(cfg, ReconsiderAll(cfg, s, front, before), last, times[n], t);
      assert orders == front + [last];
      RefSnoc(front, last, t);
    }
  }

  lemma {:induction false} ReconsiderAllFrame(cfg: S.Config, s: S.State, orders: seq<EvalRef>, times: seq<int>)
    requires |orders| == |times|
    ensures var s1 := ReconsiderAll(cfg, s, orders, times);
            && s1.clock == s.clock && s1.eval == s.eval && s1.submit == s.submit && s1.pc == s.pc
            && s1.arrived == s.arrived
  {
    if orders != [] {
      ReconsiderAllFrame(cfg, s, orders[..|orders| - 1], times[..|orders| - 1]);
    }
  }

  lemma IssuedArrives(arrived: seq<Door>, retired: seq<Visit>, door: Door, t: Visit)
    ensures Issued(arrived + [door], retired, t)
            == Issued(arrived, retired, t) + if t == Ticket(door, 0) then 1 else 0
  {
    CountSnoc(arrived, door, t.id);
  }

  lemma ArriveDebt(s: S.State, door: Door, now: int, t: Visit)
    ensures var s1 := s.(clock := now, arrived := s.arrived + [door]);
            && Held(s1, t) == Held(s, t)
            && Debt(s1, t) == Debt(s, t) + if t == Ticket(door, 0) then 1 else 0
  {
    IssuedArrives(s.arrived, s.retired, door, t);
  }

  lemma PendingDebt(s: S.State, processAt: int, order: EvalRef, t: Visit)
    ensures var s1 := AddPending(s, processAt, order);
            && Held(s1, t) == Held(s, t)
            && Debt(s1, t) == Debt(s, t) - if order.id == t then 1 else 0
  {
    InsertCounts(s.pending, Pending(order, processAt, s.entries), t);
  }

  lemma ArriveAccounts(cfg: S.Config, s: S.State, id: string, priority: bool, now: int, t: Visit)
    requires Debt(s, t) == Held(s, t)
    ensures Debt(ArriveStep(cfg, s, id, priority, now), t) == Held(ArriveStep(cfg, s, id, priority, now), t)
  {
    var door := Door(|s.arrived|, !priority);
    var ref := Ref(Ticket(door, 0), NewOrder(cfg, id, priority, now));
    var s1 := s.(clock := now, arrived := s.arrived + [door]);
    ArriveDebt(s, door, now, t);
    if priority {
      AddToEval(s1, ref, t);
    } else {
      PendingDebt(s1, now + cfg.newOrdersDelay, ref, t);
    }
  }

  lemma AddToEval(s: S.State, ref: EvalRef, t: Visit)
    ensures var s1 := s.(eval := BeginAdd(s.eval, ref));
            && Held(s1, t) == Held(s, t) + (if ref.id == t then 1 else 0)
            && Debt(s1, t) == Debt(s, t)
  {
    AddCount(s.eval, ref, t);
  }

  lemma TakePendingAccounts(cfg: S.Config, s: S.State, now: int, t: Visit)
    requires Debt(s, t) == Held(s, t) && s.pc.Top?
    ensures Debt(TakePendingStep(cfg, s, now), t) == Held(TakePendingStep(cfg, s, now), t)
  {
    var s1 := TakePendingStep(cfg, s, now);
    var n := |s.pending| - |s1.pending|;
    assert PendingIds(s1.pending) == PendingIds(s.pending)[n..];
    assert RefIds(s1.pc.todo) == PendingIds(s.pending)[..n];
    CountSplit(PendingIds(s.pending), n, t);
  }

  lemma FlushEvalAccounts(cfg: S.Config, s: S.State, times: seq<int>, t: Visit)
    requires Debt(s, t) == Held(s, t) && s.pc.Evaluating? && |times| == |s.eval.skipped|
    ensures Debt(FlushEvalStep(cfg, s, times), t) == Held(FlushEvalStep(cfg, s, times), t)
  {
    var s1 := s.(clock := LastTime(s.clock, times), eval := TakeFinished(s.eval), pc := AddingSubmit(s.eval.completed),
                 closed := s.closed + RefIds(s.eval.rejected));
    ReconsiderAllFrame(cfg, s1, s.eval.skipped, times);
    ReconsiderAllDebt(cfg, s1, s.eval.skipped, times, t);
    CountAppend(s.closed, RefIds(s.eval.rejected), t);
    FlushCount(s.eval, t);
  }

  lemma FlushSubmitAccounts(s: S.State, t: Visit)
    requires Debt(s, t) == Held(s, t) && s.pc.Submitting?
    ensures Debt(FlushSubmitStep(s), t) == Held(FlushSubmitStep(s), t)
  {
    var q := s.submit;
    FlushCount(q, t);
    CountAppend(s.closed, RefIds(q.completed), t);
    CountAppend(s.closed + RefIds(q.completed), RefIds(q.skipped), t);
    CountAppend(s.closed + RefIds(q.completed) + RefIds(q.skipped), RefIds(q.rejected), t);
  }

  lemma InEvalAccounts(cfg: S.Config, s: S.State, ev: EvalEvent, pc: Pc, t: Visit)
    requires Conserved(s.eval) && Enabled(s.eval, ev) && !ev.AddBegin? && !ev.Flush?
    requires Debt(s, t) == Held(s, t) && PcIds(pc) == PcIds(s.pc)
    ensures Debt(InEval(cfg, s, ev, pc), t) == Held(InEval(cfg, s, ev, pc), t)
  {
    SilentCount(cfg.queues, s.eval, ev, t);
  }

  lemma InSubmitAccounts(cfg: S.Config, s: S.State, sv: SubmitEvent, pc: Pc, t: Visit)
    requires Conserved(s.submit) && Enabled(s.submit, sv) && !sv.AddBegin? && !sv.Flush?
    requires Debt(s, t) == Held(s, t) && PcIds(pc) == PcIds(s.pc)
    ensures Debt(InSubmit(cfg, s, sv, pc), t) == Held(InSubmit(cfg, s, sv, pc), t)
  {
    SilentCount(cfg.queues, s.submit, sv, t);
  }

  lemma AddEvalAccounts(cfg: S.Config, s: S.State, t: Visit)
    requires Debt(s, t) == Held(s, t) && s.pc.AddingEval? && s.pc.todo != []
    ensures var s1 := InEval(cfg, s, AddBegin(s.pc.todo[0]), AddingEval(s.pc.todo[1..]));
            Debt(s1, t) == Held(s1, t)
  {
    AddFirstCount(s.eval, s.pc.todo, t);
  }

  lemma AddSubmitAccounts(cfg: S.Config, s: S.State, t: Visit)
    requires Debt(s, t) == Held(s, t) && s.pc.AddingSubmit? && s.pc.todoSubmit != []
    ensures var s1 := InSubmit(cfg, s, AddBegin(s.pc.todoSubmit[0]), AddingSubmit(s.pc.todoSubmit[1..]));
            Debt(s1, t) == Held(s1, t)
  {
    AddFirstCount(s.submit, s.pc.todoSubmit, t);
  }

  /** No step loses or duplicates a visit. */
  lemma StepAccounts(cfg: S.Config, s: S.State, e: S.Event, t: Visit)
    requires Conserved(s.eval) && Conserved(s.submit)
    requires Debt(s, t) == Held(s, t) && Possible(s, e)
    ensures Debt(S.Step(cfg, s, e), t) == Held(S.Step(cfg, s, e), t)
  {
    match e
    case Arrive(id, priority, now) => ArriveAccounts(cfg, s, id, priority, now, t);
    case TakePending(now) => TakePendingAccounts(cfg, s, now, t);
    case AddEval => AddEvalAccounts(cfg, s, t);
    case StartEval(now) => InEvalAccounts(cfg, s, Process(now), Evaluating, t);
    case EvalHandler(a) => InEvalAccounts(cfg, s, HandlerEvent(cfg, s, a), s.pc, t);
    case EvalInner(ev) => InEvalAccounts(cfg, s, ev, s.pc, t);
    case FlushEval(times) => FlushEvalAccounts(cfg, s, times, t);
    case AddSubmit => AddSubmitAccounts(cfg, s, t);
    case StartSubmit(now) => InSubmitAccounts(cfg, s, Process(now), Submitting, t);
    case SubmitInner(sv) => InSubmitAccounts(cfg, s, sv, s.pc, t);
    case FlushSubmit => FlushSubmitAccounts(s, t);
  }

  // ---------------------------------------------------------------------------------------------
  // Admission
  // ---------------------------------------------------------------------------------------------

  predicate ViaPending(t: Visit) {
    t.id.viaPending
  }

  /** Visits past the pending queue that came through it. */
  ghost function Admitted(s: S.State): nat {
    CountIf(PcIds(s.pc), ViaPending) + CountIf(Places(s.eval), ViaPending) + CountIf(Places(s.submit), ViaPending)
  }

  lemma TakePendingAdmits(cfg: S.Config, s: S.State, now: int)
    requires s.pc.Top? && Admitted(s) <= cfg.maxPendingTransactions
    requires s.eval.size == |Places(s.eval)| && s.submit.size == |Places(s.submit)|
    ensures Admitted(TakePendingStep(cfg, s, now)) <= cfg.maxPendingTransactions
  {
    var s1 := TakePendingStep(cfg, s, now);
    CountIfAtMostAll(PcIds(s1.pc), ViaPending);
    CountIfAtMostAll(Places(s.eval), ViaPending);
    CountIfAtMostAll(Places(s.submit), ViaPending);
  }

  lemma AddAdmits<O, R>(q: Queue.State<Visit, O, R>, todo: seq<Ref<Visit, O>>)
    requires todo != []
    ensures CountIf(RefIds(todo[1..]), ViaPending) + CountIf(Places(BeginAdd(q, todo[0])), ViaPending)
            == CountIf(RefIds(todo), ViaPending) + CountIf(Places(q), ViaPending)
  {
    AddCountIf(q, todo[0], ViaPending);
    assert RefIds(todo) == [todo[0].id] + RefIds(todo[1..]);
    CountIfAppend([todo[0].id], RefIds(todo[1..]), ViaPending);
  }

  lemma AddEvalAdmits(cfg: S.Config, s: S.State)
    requires s.pc.AddingEval? && s.pc.todo != []
    ensures Admitted(InEval(cfg, s, AddBegin(s.pc.todo[0]), AddingEval(s.pc.todo[1..]))) == Admitted(s)
  {
    AddAdmits(s.eval, s.pc.todo);
  }

  lemma AddSubmitAdmits(cfg: S.Config, s: S.State)
    requires s.pc.AddingSubmit? && s.pc.todoSubmit != []
    ensures Admitted(InSubmit(cfg, s, AddBegin(s.pc.todoSubmit[0]), AddingSubmit(s.pc.todoSubmit[1..]))) == Admitted(s)
  {
    var todo := s.pc.todoSubmit;
    var s1 := InSubmit(cfg, s, AddBegin(todo[0]), AddingSubmit(todo[1..]));
    assert s1.submit == BeginAdd(s.submit, todo[0]) && s1.eval == s.eval;
    assert PcIds(s1.pc) == RefIds(todo[1..]) && PcIds(s.pc) == RefIds(todo);
    AddAdmits(s.submit, todo);
  }

  lemma FlushSubmitAdmits(s: S.State)
    requires s.pc.Submitting?
    ensures Admitted(FlushSubmitStep(s)) <= Admitted(s)
  {
    FlushCountIf(s.submit, ViaPending);
  }

  lemma FlushEvalAdmits(cfg: S.Config, s: S.State, times: seq<int>)
    requires s.pc.Evaluating? && |times| == |s.eval.skipped|
    ensures Admitted(FlushEvalStep(cfg, s, times)) <= Admitted(s)
  {
    var s1 := s.(clock := LastTime(s.clock, times), eval := TakeFinished(s.eval), pc := AddingSubmit(s.eval.completed),
                 closed := s.closed + RefIds(s.eval.rejected));
    ReconsiderAllFrame(cfg, s1, s.eval.skipped, times);
    FlushCountIf(s.eval, ViaPending);
  }

  lemma ArriveAdmits(cfg: S.Config, s: S.State, id: string, priority: bool, now: int)
    ensures Admitted(ArriveStep(cfg, s, id, priority, now)) == Admitted(s)
  {
    var ref := Ref(Ticket(Door(|s.arrived|, !priority), 0), NewOrder(cfg, id, priority, now));
    AddCountIf(s.eval, ref, ViaPending);
  }

  lemma InEvalAdmits(cfg: S.Config, s: S.State, ev: EvalEvent, pc: Pc)
    requires Conserved(s.eval) && Enabled(s.eval, ev) && !ev.AddBegin? && !ev.Flush?
    requires PcIds(pc) == PcIds(s.pc)
    ensures Admitted(InEval(cfg, s, ev, pc)) == Admitted(s)
  {
    SilentCountIf(cfg.queues, s.eval, ev, ViaPending);
  }

  lemma InSubmitAdmits(cfg: S.Config, s: S.State, sv: SubmitEvent, pc: Pc)
    requires Conserved(s.submit) && Enabled(s.submit, sv) && !sv.AddBegin? && !sv.Flush?
    requires PcIds(pc) == PcIds(s.pc)
    ensures Admitted(InSubmit(cfg, s, sv, pc)) == Admitted(s)
  {
    SilentCountIf(cfg.queues, s.submit, sv, ViaPending);
  }

  lemma StepAdmits(cfg: S.Config, s: S.State, e: S.Event)
    requires Conserved(s.eval) && Conserved(s.submit)
    requires Admitted(s) <= cfg.maxPendingTransactions && Possible(s, e)
    ensures Admitted(S.Step(cfg, s, e)) <= cfg.maxPendingTransactions
  {
    match e
    case Arrive(id, priority, now) => ArriveAdmits(cfg, s, id, priority, now);
    case TakePending(now) => TakePendingAdmits(cfg, s, now);
    case AddEval => AddEvalAdmits(cfg, s);
    case StartEval(now) => InEvalAdmits(cfg, s, Process(now), Evaluating);
    case EvalHandler(a) => InEvalAdmits(cfg, s, HandlerEvent(cfg, s, a), s.pc);
    case EvalInner(ev) => InEvalAdmits(cfg, s, ev, s.pc);
    case FlushEval(times) => FlushEvalAdmits(cfg, s, times);
    case AddSubmit => AddSubmitAdmits(cfg, s);
    case StartSubmit(now) => InSubmitAdmits(cfg, s, Process(now), Submitting);
    case SubmitInner(sv) => InSubmitAdmits(cfg, s, sv, s.pc);
    case FlushSubmit => FlushSubmitAdmits(s);
  }

  // ---------------------------------------------------------------------------------------------
  // Re-evaluation
  // ---------------------------------------------------------------------------------------------

  predicate LapAllowed(cfg: S.Config, lap: nat) {
    lap * cfg.evaluationRetryInterval <= cfg.maxEvaluationDuration
  }

  predicate Timely(cfg: S.Config, clock: int, r: EvalRef) {
    && r.val.evaluationDeadline == r.val.received + cfg.maxEvaluationDuration
    && LapAllowed(cfg, r.id.lap)
    && r.val.received + r.id.lap * cfg.evaluationRetryInterval <= clock
  }

  /** An order came through the pending queue unless it has priority. */
  predicate Doored(r: EvalRef) {
    r.id.id.viaPending || r.val.priority
  }

  /** Before an evaluation pass: declined once on each earlier visit. */
  predicate Fresh(cfg: S.Config, clock: int, r: EvalRef) {
    Timely(cfg, clock, r) && Doored(r) && !r.val.retryEvaluation && r.val.declined == r.id.lap
  }

  /** After a pass without a submission; an order with priority is never declined. */
  predicate Evaluated(cfg: S.Config, clock: int, r: EvalRef) {
    && Timely(cfg, clock, r) && Doored(r)
    && r.val.declined == r.id.lap + (if r.val.retryEvaluation then 1 else 0)
    && (r.val.retryEvaluation ==> !r.val.priority)
  }

  predicate EvaluatedTask(cfg: S.Config, clock: int, t: Task<Visit, EvalOrder, SubmitOrder>) {
    if t.phase == Completing(None) then Evaluated(cfg, clock, t.po.order)
    else
      && Fresh(cfg, clock, t.po.order)
      && (t.phase.Completing? ==> Fresh(cfg, clock, Ref(t.po.order.id, t.phase.result.value.order)))
  }

  function EvalLaws(cfg: S.Config, clock: int): Laws<Visit, EvalOrder, SubmitOrder> {
    Laws((r: EvalRef) => Fresh(cfg, clock, r),
         (po: ProcessOrder<Visit, EvalOrder>) => Fresh(cfg, clock, po.order),
         (t: Task<Visit, EvalOrder, SubmitOrder>) => EvaluatedTask(cfg, clock, t),
         (r: SubmitRef) => Fresh(cfg, clock, Ref(r.id, r.val.order)),
         (r: EvalRef) => Evaluated(cfg, clock, r),
         (r: EvalRef) => Fresh(cfg, clock, r))
  }

  lemma LawsCohere(cfg: S.Config, clock: int)
    ensures Coherent(EvalLaws(cfg, clock))
  {
  }

  lemma LawsOutlast(cfg: S.Config, q: EvalQueue, clock: int, later: int)
    requires Obeys(q, EvalLaws(cfg, clock)) && clock <= later
    ensures Obeys(q, EvalLaws(cfg, later))
  {
  }

  /** A waiting order; after a return it is due before its deadline. */
  predicate OnTime(cfg: S.Config, p: Pending<EvalRef>) {
    && Fresh(cfg, p.processAt, p.order) && p.order.id.id.viaPending
    && (p.order.id.lap > 0 ==> p.processAt <= p.order.val.evaluationDeadline)
  }

  ghost predicate PendingTimely(cfg: S.Config, q: seq<Pending<EvalRef>>) {
    forall i :: 0 <= i < |q| ==> OnTime(cfg, q[i])
  }

  /** The part of the state `processNoSubmitEvalOrders` writes. */
  ghost predicate PendingLawful(cfg: S.Config, s: S.State) {
    && Sorted(s.pending) && StampedBelow(s.pending, s.entries)
    && PendingTimely(cfg, s.pending)
    && (forall i :: 0 <= i < |s.retired| ==> LapAllowed(cfg, s.retired[i].lap + 1))
  }

  /** Orders taken from the pending queue and not yet added to the evaluation queue. */
  ghost predicate TodoFresh(cfg: S.Config, clock: int, pc: Pc) {
    pc.AddingEval? ==> forall i :: 0 <= i < |pc.todo| ==> Fresh(cfg, clock, pc.todo[i]) && pc.todo[i].id.id.viaPending
  }

  ghost predicate Timed(cfg: S.Config, s: S.State) {
    && PendingLawful(cfg, s)
    && TodoFresh(cfg, s.clock, s.pc)
    && Obeys(s.eval, EvalLaws(cfg, s.clock))
    && (forall i :: 0 <= i < |s.eval.added| ==> LapAllowed(cfg, s.eval.added[i].lap))
  }

  lemma NextLap(lap: nat, interval: nat)
    ensures (lap + 1) * interval == lap * interval + interval
  {
  }

  lemma FreshLater(cfg: S.Config, pc: Pc, clock: int, later: int)
    requires clock <= later && TodoFresh(cfg, clock, pc)
    ensures TodoFresh(cfg, later, pc)
  {
  }

  lemma InsertTimely(cfg: S.Config, q: seq<Pending<EvalRef>>, p: Pending<EvalRef>)
    requires Sorted(q) && StampedBelow(q, p.stamp) && PendingTimely(cfg, q) && OnTime(cfg, p)
    ensures Sorted(Insert(q, p)) && StampedBelow(Insert(q, p), p.stamp + 1) && PendingTimely(cfg, Insert(q, p))
  {
    InsertKeepsSorted(q, p);
    SpliceInserts(q, p);
  }

  /** A return never takes an order past its deadline. */
  lemma NextVisitFresh(cfg: S.Config, order: EvalRef, now: int)
    requires Evaluated(cfg, now, order) && Returns(cfg, order.val, now)
    ensures Fresh(cfg, now + cfg.evaluationRetryInterval, NextVisit(order)) && order.id.id.viaPending
    ensures LapAllowed(cfg, order.id.lap + 1)
  {
  }

  lemma ReconsiderTimely(cfg: S.Config, s: S.State, order: EvalRef, now: int)
    requires PendingLawful(cfg, s) && Evaluated(cfg, now, order)
    ensures PendingLawful(cfg, Reconsider(cfg, s, order, now))
  {
    if Returns(cfg, order.val, now) {
      NextVisitFresh(cfg, order, now);
      InsertTimely(cfg, s.pending, Pending(NextVisit(order), now + cfg.evaluationRetryInterval, s.entries));
    }
  }

  lemma {:induction false} ReconsiderAllTimely(cfg: S.Config, s: S.State, orders: seq<EvalRef>, times: seq<int>)
    requires |orders| == |times|
    requires PendingLawful(cfg, s) && forall i :: 0 <= i < |orders| ==> Evaluated(cfg, times[i], orders[i])
    ensures PendingLawful(cfg, ReconsiderAll(cfg, s, orders, times))
  {
    if orders != [] {
      var n := |orders| - 1;
      ReconsiderAllTimely(cfg, s, orders[..n], times[..n]);
      ReconsiderTimely(cfg, ReconsiderAll(cfg, s, orders[..n], times[..n]), orders[n], times[n]);
    }
  }

  lemma HandlerLawful(cfg: S.Config, s: S.State, a: Answers)
    requires Obeys(s.eval, EvalLaws(cfg, s.clock)) && Possible(s, EvalHandler(a))
    ensures Lawful(cfg.queues, s.eval, HandlerEvent(cfg, s, a), EvalLaws(cfg, s.clock))
  {
    assert EvalLaws(cfg, s.clock).task(s.eval.current.value);
    RetryExactlyWhenDeclined(cfg.chainId, s.eval.current.value.po.order.val, a);
  }

  lemma InnerLawful(cfg: S.Config, s: S.State, ev: EvalEvent)
    requires Obeys(s.eval, EvalLaws(cfg, s.clock)) && InnerEval(s, ev)
    ensures s.clock <= EventTime(ev, s.clock)
    ensures Lawful(cfg.queues, s.eval, ev, EvalLaws(cfg, EventTime(ev, s.clock)))
  {
  }

  lemma InEvalTimed(cfg: S.Config, s: S.State, ev: EvalEvent)
    requires Obeys(s.eval, EvalLaws(cfg, s.clock)) && Shape(s.eval) && Enabled(s.eval, ev)
    requires s.clock <= EventTime(ev, s.clock)
    requires Lawful(cfg.queues, s.eval, ev, EvalLaws(cfg, EventTime(ev, s.clock)))
    ensures Obeys(Queue.Step(cfg.queues, s.eval, ev), EvalLaws(cfg, EventTime(ev, s.clock)))
  {
    LawsOutlast(cfg, s.eval, s.clock, EventTime(ev, s.clock));
    LawsCohere(cfg, EventTime(ev, s.clock));
    StepObeys(cfg.queues, s.eval, ev, EvalLaws(cfg, EventTime(ev, s.clock)));
  }

  lemma ArriveUrgent(cfg: S.Config, s: S.State, id: string, now: int)
    requires Timed(cfg, s) && s.clock <= now
    ensures Timed(cfg, ArriveStep(cfg, s, id, true, now))
  {
    var ref := Ref(Ticket(Door(|s.arrived|, false), 0), NewOrder(cfg, id, true, now));
    LawsOutlast(cfg, s.eval, s.clock, now);
    FreshLater(cfg, s.pc, s.clock, now);
    AddingFresh(cfg, s.eval, ref, now);
  }

  lemma ArriveWaiting(cfg: S.Config, s: S.State, id: string, now: int)
    requires Timed(cfg, s) && s.clock <= now
    ensures Timed(cfg, ArriveStep(cfg, s, id, false, now))
  {
    var ref := Ref(Ticket(Door(|s.arrived|, true), 0), NewOrder(cfg, id, false, now));
    LawsOutlast(cfg, s.eval, s.clock, now);
    FreshLater(cfg, s.pc, s.clock, now);
    InsertTimely(cfg, s.pending, Pending(ref, now + cfg.newOrdersDelay, s.entries));
  }

  lemma AddingFresh(cfg: S.Config, q: EvalQueue, ref: EvalRef, now: int)
    requires Obeys(q, EvalLaws(cfg, now)) && Fresh(cfg, now, ref)
    ensures Obeys(BeginAdd(q, ref), EvalLaws(cfg, now))
  {
    assert Waiting(BeginAdd(q, ref)) == Waiting(q);
  }

  lemma TakePendingTimed(cfg: S.Config, s: S.State, now: int)
    requires Timed(cfg, s) && s.clock <= now
    ensures Timed(cfg, TakePendingStep(cfg, s, now))
  {
    DueIsPrefix(s.pending, now);
    LawsOutlast(cfg, s.eval, s.clock, now);
    var todo := TakePendingStep(cfg, s, now).pc.todo;
    forall i | 0 <= i < |todo| ensures Fresh(cfg, now, todo[i]) && todo[i].id.id.viaPending {
      assert IsDue(s.pending[i], now) && OnTime(cfg, s.pending[i]);
    }
  }

  lemma AddEvalTimed(cfg: S.Config, s: S.State)
    requires Timed(cfg, s) && s.pc.AddingEval? && s.pc.todo != []
    ensures Timed(cfg, InEval(cfg, s, AddBegin(s.pc.todo[0]), AddingEval(s.pc.todo[1..])))
  {
    AddingFresh(cfg, s.eval, s.pc.todo[0], s.clock);
  }

  lemma EvalStepTimed(cfg: S.Config, s: S.State, ev: EvalEvent, pc: Pc)
    requires Timed(cfg, s) && Shape(s.eval) && Enabled(s.eval, ev) && !ev.AddBegin? && !ev.Flush?
    requires s.clock <= EventTime(ev, s.clock) && (pc == s.pc || !pc.AddingEval?)
    requires Lawful(cfg.queues, s.eval, ev, EvalLaws(cfg, EventTime(ev, s.clock)))
    ensures Timed(cfg, InEval(cfg, s, ev, pc))
  {
    InEvalTimed(cfg, s, ev);
    SilentAdds(cfg.queues, s.eval, ev);
    FreshLater(cfg, s.pc, s.clock, EventTime(ev, s.clock));
  }

  lemma SubmitStepTimed(cfg: S.Config, s: S.State, sv: SubmitEvent, pc: Pc)
    requires Timed(cfg, s) && Enabled(s.submit, sv)
    requires s.clock <= EventTime(sv, s.clock) && (pc == s.pc || !pc.AddingEval?)
    ensures Timed(cfg, InSubmit(cfg, s, sv, pc))
  {
    LawsOutlast(cfg, s.eval, s.clock, EventTime(sv, s.clock));
    FreshLater(cfg, s.pc, s.clock, EventTime(sv, s.clock));
  }

  lemma FlushEvalTimed(cfg: S.Config, s: S.State, times: seq<int>)
    requires Timed(cfg, s) && Shape(s.eval) && s.pc.Evaluating?
    requires |times| == |s.eval.skipped| && Passing(s.clock, times)
    ensures Timed(cfg, FlushEvalStep(cfg, s, times))
  {
    var s1 := s.(clock := LastTime(s.clock, times), eval := TakeFinished(s.eval), pc := AddingSubmit(s.eval.completed),
                 closed := s.closed + RefIds(s.eval.rejected));
    var now := s1.clock;
    LawsOutlast(cfg, s.eval, s.clock, now);
    LawsCohere(cfg, now);
    StepObeys(cfg.queues, s.eval, Flush, EvalLaws(cfg, now));
    forall i | 0 <= i < |s.eval.skipped| ensures Evaluated(cfg, times[i], s.eval.skipped[i]) {
      assert EvalLaws(cfg, s.clock).skipped(s.eval.skipped[i]);
    }
    ReconsiderAllFrame(cfg, s1, s.eval.skipped, times);
    ReconsiderAllTimely(cfg, s1, s.eval.skipped, times);
  }

  lemma StepTimed(cfg: S.Config, s: S.State, e: S.Event)
    requires Timed(cfg, s) && Shape(s.eval) && Possible(s, e)
    ensures Timed(cfg, S.Step(cfg, s, e))
  {
    match e
    case Arrive(id, priority, now) =>
      if priority {
        ArriveUrgent(cfg, s, id, now);
      } else {
        ArriveWaiting(cfg, s, id, now);
      }
    case TakePending(now) => TakePendingTimed(cfg, s, now);
    case AddEval => AddEvalTimed(cfg, s);
    case StartEval(now) => EvalStepTimed(cfg, s, Process(now), Evaluating);
    case EvalHandler(a) =>
      HandlerLawful(cfg, s, a);
      EvalStepTimed(cfg, s, HandlerEvent(cfg, s, a), s.pc);
    case EvalInner(ev) =>
      InnerLawful(cfg, s, ev);
      EvalStepTimed(cfg, s, ev, s.pc);
    case FlushEval(times) => FlushEvalTimed(cfg, s, times);
    case AddSubmit => SubmitStepTimed(cfg, s, AddBegin(s.pc.todoSubmit[0]), AddingSubmit(s.pc.todoSubmit[1..]));
    case StartSubmit(now) => SubmitStepTimed(cfg, s, Process(now), Submitting);
    case SubmitInner(sv) => SubmitStepTimed(cfg, s, sv, s.pc);
    case FlushSubmit =>
  }

  // ---------------------------------------------------------------------------------------------
  // Whole runs
  // ---------------------------------------------------------------------------------------------

  ghost predicate Numbered(arrived: seq<Door>) {
    forall i :: 0 <= i < |arrived| ==> arrived[i].order == i
  }

  lemma {:induction false} NumberedOnce(arrived: seq<Door>, x: Door)
    requires Numbered(arrived)
    ensures Count(arrived, x) <= 1
    ensures x.order >= |arrived| ==> Count(arrived, x) == 0
  {
    if arrived != [] {
      var front, last := arrived[..|arrived| - 1], arrived[|arrived| - 1];
      NumberedOnce(front, x);
      assert arrived == front + [last];
      CountSnoc(front, last, x);
    }
  }

  lemma StepNumbers(cfg: S.Config, s: S.State, e: S.Event)
    requires Possible(s, e) && Numbered(s.arrived)
    ensures Numbered(S.Step(cfg, s, e).arrived)
  {
    if e.FlushEval? {
      var s1 := s.(clock := LastTime(s.clock, e.times), eval := TakeFinished(s.eval), pc := AddingSubmit(s.eval.completed),
                   closed := s.closed + RefIds(s.eval.rejected));
      ReconsiderAllFrame(cfg, s1, s.eval.skipped, e.times);
    }
  }

  lemma StepQueues(cfg: S.Config, s: S.State, e: S.Event)
    requires QueueRuns.Good(cfg.queues, s.eval) && QueueRuns.Good(cfg.queues, s.submit) && Possible(s, e)
    ensures QueueRuns.Good(cfg.queues, S.Step(cfg, s, e).eval) && QueueRuns.Good(cfg.queues, S.Step(cfg, s, e).submit)
  {
    match e
    case Arrive(id, priority, now) =>
      var ref := Ref(Ticket(Door(|s.arrived|, !priority), 0), NewOrder(cfg, id, priority, now));
      QueueRuns.GoodStep(cfg.queues, s.eval, AddBegin(ref));
    case TakePending(now) =>
    case AddEval => QueueRuns.GoodStep(cfg.queues, s.eval, AddBegin(s.pc.todo[0]));
    case StartEval(now) => QueueRuns.GoodStep(cfg.queues, s.eval, Process(now));
    case EvalHandler(a) => QueueRuns.GoodStep(cfg.queues, s.eval, HandlerEvent(cfg, s, a));
    case EvalInner(ev) => QueueRuns.GoodStep(cfg.queues, s.eval, ev);
    case FlushEval(times) =>
      var s1 := s.(clock := LastTime(s.clock, times), eval := TakeFinished(s.eval), pc := AddingSubmit(s.eval.completed),
                   closed := s.closed + RefIds(s.eval.rejected));
      ReconsiderAllFrame(cfg, s1, s.eval.skipped, times);
      QueueRuns.GoodStep(cfg.queues, s.eval, Flush);
    case AddSubmit => QueueRuns.GoodStep(cfg.queues, s.submit, AddBegin(s.pc.todoSubmit[0]));
    case StartSubmit(now) => QueueRuns.GoodStep(cfg.queues, s.submit, Process(now));
    case SubmitInner(sv) => QueueRuns.GoodStep(cfg.queues, s.submit, sv);
    case FlushSubmit => QueueRuns.GoodStep(cfg.queues, s.submit, Flush);
  }

  // ---------------------------------------------------------------------------------------------
  // Every visit enters the evaluation queue once
  // ---------------------------------------------------------------------------------------------

  function Entering(pc: Pc): seq<Visit> {
    if pc.AddingEval? then RefIds(pc.todo) else []
  }

  /** Issued and not waiting to be added. */
  ghost function Due(s: S.State, t: Visit): int {
    Issued(s.arrived, s.retired, t) - Count(PendingIds(s.pending), t)
  }

  ghost predicate EnteredOnce(s: S.State, t: Visit) {
    Due(s, t) == Count(s.eval.added, t) + Count(Entering(s.pc), t)
  }

  lemma {:induction false} ReconsiderAllDue(cfg: S.Config, s: S.State, orders: seq<EvalRef>, times: seq<int>, t: Visit)
    requires |orders| == |times|
    ensures Due(ReconsiderAll(cfg, s, orders, times), t) == Due(s, t)
  {
    if orders != [] {
      var n := |orders| - 1;
      var front, last, now := orders[..n], orders[n], times[n];
      var s1 := ReconsiderAll(cfg, s, front, times[..n]);
      ReconsiderAllDue(cfg, s, front, times[..n], t);
      if Returns(cfg, last.val, now) {
        IssuedSnoc(s1.arrived, s1.retired, last.id, t);
        InsertCounts(s1.pending, Pending(NextVisit(last), now + cfg.evaluationRetryInterval, s1.entries), t);
      }
    }
  }

  lemma ArriveEnters(cfg: S.Config, s: S.State, id: string, priority: bool, now: int, t: Visit)
    requires EnteredOnce(s, t)
    ensures EnteredOnce(ArriveStep(cfg, s, id, priority, now), t)
  {
    var door := Door(|s.arrived|, !priority);
    var ref := Ref(Ticket(door, 0), NewOrder(cfg, id, priority, now));
    IssuedArrives(s.arrived, s.retired, door, t);
    if priority {
      CountSnoc(s.eval.added, ref.id, t);
    } else {
      InsertCounts(s.pending, Pending(ref, now + cfg.newOrdersDelay, s.entries), t);
    }
  }

  lemma TakePendingEnters(cfg: S.Config, s: S.State, now: int, t: Visit)
    requires EnteredOnce(s, t) && s.pc.Top?
    ensures EnteredOnce(TakePendingStep(cfg, s, now), t)
  {
    var s1 := TakePendingStep(cfg, s, now);
    var n := |s.pending| - |s1.pending|;
    assert PendingIds(s1.pending) == PendingIds(s.pending)[n..];
    assert RefIds(s1.pc.todo) == PendingIds(s.pending)[..n];
    CountSplit(PendingIds(s.pending), n, t);
  }

  lemma AddEvalEnters(cfg: S.Config, s: S.State, t: Visit)
    requires EnteredOnce(s, t) && s.pc.AddingEval? && s.pc.todo != []
    ensures EnteredOnce(InEval(cfg, s, AddBegin(s.pc.todo[0]), AddingEval(s.pc.todo[1..])), t)
  {
    CountSnoc(s.eval.added, s.pc.todo[0].id, t);
    assert s.pc.todo == [s.pc.todo[0]] + s.pc.todo[1..];
    RefCons(s.pc.todo[0], s.pc.todo[1..], t);
  }

  lemma EvalStepEnters(cfg: S.Config, s: S.State, ev: EvalEvent, pc: Pc, t: Visit)
    requires EnteredOnce(s, t) && Enabled(s.eval, ev) && !ev.AddBegin? && !ev.Flush?
    requires Entering(pc) == Entering(s.pc)
    ensures EnteredOnce(InEval(cfg, s, ev, pc), t)
  {
    SilentAdds(cfg.queues, s.eval, ev);
  }

  lemma FlushEvalEnters(cfg: S.Config, s: S.State, times: seq<int>, t: Visit)
    requires EnteredOnce(s, t) && s.pc.Evaluating? && |times| == |s.eval.skipped|
    ensures EnteredOnce(FlushEvalStep(cfg, s, times), t)
  {
    var s1 := s.(clock := LastTime(s.clock, times), eval := TakeFinished(s.eval), pc := AddingSubmit(s.eval.completed),
                 closed := s.closed + RefIds(s.eval.rejected));
    ReconsiderAllFrame(cfg, s1, s.eval.skipped, times);
    ReconsiderAllDue(cfg, s1, s.eval.skipped, times, t);
  }

  lemma StepEnters(cfg: S.Config, s: S.State, e: S.Event, t: Visit)
    requires EnteredOnce(s, t) && Possible(s, e)
    ensures EnteredOnce(S.Step(cfg, s, e), t)
  {
    match e
    case Arrive(id, priority, now) => ArriveEnters(cfg, s, id, priority, now, t);
    case TakePending(now) => TakePendingEnters(cfg, s, now, t);
    case AddEval => AddEvalEnters(cfg, s, t);
    case StartEval(now) => EvalStepEnters(cfg, s, Process(now), Evaluating, t);
    case EvalHandler(a) => EvalStepEnters(cfg, s, HandlerEvent(cfg, s, a), s.pc, t);
    case EvalInner(ev) => EvalStepEnters(cfg, s, ev, s.pc, t);
    case FlushEval(times) => FlushEvalEnters(cfg, s, times, t);
    case _ =>
  }

  // ---------------------------------------------------------------------------------------------
  // Every order leaves for the submission queue once
  // ---------------------------------------------------------------------------------------------

  function Leaving(pc: Pc): seq<Visit> {
    if pc.AddingSubmit? then RefIds(pc.todoSubmit) else []
  }

  /** Handed to the submission queue, or about to be. */
  ghost function Left(s: S.State, t: Visit): nat {
    Count(s.submit.added, t) + Count(Leaving(s.pc), t)
  }

  /** A visit that entered the evaluation queue is still there, or it left, or it was retired or closed. */
  ghost predicate LeftOnce(s: S.State, t: Visit) {
    Left(s, t) + Count(s.retired, t) + Census(s.eval, t) <= Count(s.eval.added, t)
  }

  lemma ArriveLeaves(cfg: S.Config, s: S.State, id: string, priority: bool, now: int, t: Visit)
    requires LeftOnce(s, t)
    ensures LeftOnce(ArriveStep(cfg, s, id, priority, now), t)
  {
    var ref := Ref(Ticket(Door(|s.arrived|, !priority), 0), NewOrder(cfg, id, priority, now));
    AddCount(s.eval, ref, t);
    CountSnoc(s.eval.added, ref.id, t);
  }

  lemma AddEvalLeaves(cfg: S.Config, s: S.State, t: Visit)
    requires LeftOnce(s, t) && s.pc.AddingEval? && s.pc.todo != []
    ensures LeftOnce(InEval(cfg, s, AddBegin(s.pc.todo[0]), AddingEval(s.pc.todo[1..])), t)
  {
    AddCount(s.eval, s.pc.todo[0], t);
    CountSnoc(s.eval.added, s.pc.todo[0].id, t);
  }

  lemma EvalStepLeaves(cfg: S.Config, s: S.State, ev: EvalEvent, pc: Pc, t: Visit)
    requires LeftOnce(s, t) && Conserved(s.eval) && Enabled(s.eval, ev) && !ev.AddBegin? && !ev.Flush?
    requires Leaving(pc) == Leaving(s.pc)
    ensures LeftOnce(InEval(cfg, s, ev, pc), t)
  {
    SilentAdds(cfg.queues, s.eval, ev);
    SilentCount(cfg.queues, s.eval, ev, t);
  }

  lemma {:induction false} ReconsiderAllRetires(
    cfg: S.Config, s: S.State, orders: seq<EvalRef>, times: seq<int>, t: Visit)
    requires |orders| == |times|
    ensures Count(ReconsiderAll(cfg, s, orders, times).retired, t) <= Count(s.retired, t) + Count(RefIds(orders), t)
  {
    if orders != [] {
      var n := |orders| - 1;
      var front, last := orders[..n], orders[n];
      ReconsiderAllRetires(cfg, s, front, times[..n], t);
      CountSnoc(ReconsiderAll(cfg, s, front, times[..n]).retired, last.id, t);
      assert orders == front + [last];
      RefSnoc(front, last, t);
    }
  }

  lemma FlushEvalLeaves(cfg: S.Config, s: S.State, times: seq<int>, t: Visit)
    requires LeftOnce(s, t) && s.pc.Evaluating? && |times| == |s.eval.skipped|
    ensures LeftOnce(FlushEvalStep(cfg, s, times), t)
  {
    var s1 := s.(clock := LastTime(s.clock, times), eval := TakeFinished(s.eval), pc := AddingSubmit(s.eval.completed),
                 closed := s.closed + RefIds(s.eval.rejected));
    ReconsiderAllFrame(cfg, s1, s.eval.skipped, times);
    ReconsiderAllRetires(cfg, s1, s.eval.skipped, times, t);
    FlushCount(s.eval, t);
  }

  lemma AddSubmitLeaves(cfg: S.Config, s: S.State, t: Visit)
    requires LeftOnce(s, t) && s.pc.AddingSubmit? && s.pc.todoSubmit != []
    ensures LeftOnce(InSubmit(cfg, s, AddBegin(s.pc.todoSubmit[0]), AddingSubmit(s.pc.todoSubmit[1..])), t)
  {
    var todo := s.pc.todoSubmit;
    CountSnoc(s.submit.added, todo[0].id, t);
    assert todo == [todo[0]] + todo[1..];
    RefCons(todo[0], todo[1..], t);
  }

  lemma SubmitStepLeaves(cfg: S.Config, s: S.State, sv: SubmitEvent, pc: Pc, t: Visit)
    requires LeftOnce(s, t) && Enabled(s.submit, sv) && !sv.AddBegin? && !sv.Flush?
    requires Leaving(pc) == Leaving(s.pc)
    ensures LeftOnce(InSubmit(cfg, s, sv, pc), t)
  {
    SilentAdds(cfg.queues, s.submit, sv);
  }

  /** No step hands a visit to the submission queue that it does not take from the evaluation queue. */
  lemma StepLeaves(cfg: S.Config, s: S.State, e: S.Event, t: Visit)
    requires LeftOnce(s, t) && Conserved(s.eval) && Possible(s, e)
    ensures LeftOnce(S.Step(cfg, s, e), t)
  {
    match e
    case Arrive(id, priority, now) => ArriveLeaves(cfg, s, id, priority, now, t);
    case TakePending(now) =>
    case AddEval => AddEvalLeaves(cfg, s, t);
    case StartEval(now) => EvalStepLeaves(cfg, s, Process(now), Evaluating, t);
    case EvalHandler(a) => EvalStepLeaves(cfg, s, HandlerEvent(cfg, s, a), s.pc, t);
    case EvalInner(ev) => EvalStepLeaves(cfg, s, ev, s.pc, t);
    case FlushEval(times) => FlushEvalLeaves(cfg, s, times, t);
    case AddSubmit => AddSubmitLeaves(cfg, s, t);
    case StartSubmit(now) => SubmitStepLeaves(cfg, s, Process(now), Submitting, t);
    case SubmitInner(sv) => SubmitStepLeaves(cfg, s, sv, s.pc, t);
    case FlushSubmit =>
  }

  // ---------------------------------------------------------------------------------------------
  // Theorems
  // ---------------------------------------------------------------------------------------------

  ghost predicate AllEnteredOnce(s: S.State) {
    forall t :: EnteredOnce(s, t)
  }

  ghost predicate AllLeftOnce(s: S.State) {
    forall t :: LeftOnce(s, t)
  }

  ghost predicate Good(cfg: S.Config, s: S.State) {
    && QueueRuns.Good(cfg.queues, s.eval) && QueueRuns.Good(cfg.queues, s.submit)
    && Accounted(s)
    && Admitted(s) <= cfg.maxPendingTransactions
    && Timed(cfg, s)
    && Numbered(s.arrived)
    && AllEnteredOnce(s) && AllLeftOnce(s)
  }

  lemma GoodInit(cfg: S.Config, clock: int)
    ensures Good(cfg, S.Init(clock))
  {
    QueueRuns.GoodInit<Visit, EvalOrder, SubmitOrder>(cfg.queues, clock);
    QueueRuns.GoodInit<Visit, SubmitOrder, SubmitOrder>(cfg.queues, clock);
  }

  lemma GoodStep(cfg: S.Config, s: S.State, e: S.Event)
    requires Good(cfg, s) && Possible(s, e)
    ensures Good(cfg, S.Step(cfg, s, e))
  {
    StepQueues(cfg, s, e);
    StepAdmits(cfg, s, e);
    StepTimed(cfg, s, e);
    StepNumbers(cfg, s, e);
    forall t ensures Debt(S.Step(cfg, s, e), t) == Held(S.Step(cfg, s, e), t) {
      StepAccounts(cfg, s, e, t);
    }
    forall t ensures EnteredOnce(S.Step(cfg, s, e), t) {
      StepEnters(cfg, s, e, t);
    }
    forall t ensures LeftOnce(S.Step(cfg, s, e), t) {
      StepLeaves(cfg, s, e, t);
    }
  }

  lemma {:induction false} GoodRun(cfg: S.Config, s: S.State, evs: seq<S.Event>)
    requires Good(cfg, s) && S.Run(cfg, s, evs).Some?
    ensures Good(cfg, S.Run(cfg, s, evs).value)
    decreases |evs|
  {
    if evs != [] {
      GoodStep(cfg, s, evs[0]);
      GoodRun(cfg, S.Step(cfg, s, evs[0]), evs[1..]);
    }
  }

  ghost predicate Reachable(cfg: S.Config, s: S.State) {
    exists clock, evs :: S.Run(cfg, S.Init(clock), evs) == Some(s)
  }

  lemma {:induction false} RunSnoc(cfg: S.Config, s: S.State, evs: seq<S.Event>, e: S.Event)
    requires S.Run(cfg, s, evs).Some? && Possible(S.Run(cfg, s, evs).value, e)
    ensures S.Run(cfg, s, evs + [e]) == Some(S.Step(cfg, S.Run(cfg, s, evs).value, e))
    decreases |evs|
  {
    if evs == [] {
      assert evs + [e] == [e] && [e][1..] == [];
    } else {
      RunSnoc(cfg, S.Step(cfg, s, evs[0]), evs[1..], e);
      assert (evs + [e])[1..] == evs[1..] + [e];
    }
  }

  lemma ReachableIsGood(cfg: S.Config, s: S.State)
    requires Reachable(cfg, s)
    ensures Good(cfg, s)
  {
    var clock, evs :| S.Run(cfg, S.Init(clock), evs) == Some(s);
    GoodInit(cfg, clock);
    GoodRun(cfg, S.Init(clock), evs);
  }

  lemma BooksBalance(s: S.State)
    requires Accounted(s) && Numbered(s.arrived)
    ensures Balanced(Everywhere(s), s.arrived, s.retired, s.closed) && Distinct(s.arrived)
  {
    forall t ensures BalancedAt(Everywhere(s), s.arrived, s.retired, s.closed, t) {
      EverywhereCounts(s, t);
      assert Debt(s, t) == Held(s, t);
    }
    forall x ensures Count(s.arrived, x) <= 1 {
      NumberedOnce(s.arrived, x);
    }
  }

  /** In every run, an order that arrived is in exactly one place of the submitter, or was submitted or
      dropped exactly once. */
  lemma OrdersConserved(cfg: S.Config, s: S.State, x: Door)
    requires Reachable(cfg, s)
    ensures CountId(Everywhere(s), x) + CountId(s.closed, x) == Count(s.arrived, x) <= 1
  {
    ReachableIsGood(cfg, s);
    BooksBalance(s);
    OnePlaceOverall(Everywhere(s), s.arrived, s.retired, s.closed, x);
  }

  /** In every run, the orders admitted from the pending queue and not yet done fit the limit. Every
      order that waits in that queue or is taken from it came through it on arrival, so none escapes
      the count; orders with priority enter beside it and never return to it. */
  lemma AdmissionBounded(cfg: S.Config, s: S.State)
    requires Reachable(cfg, s)
    ensures CountIf(PcIds(s.pc), ViaPending) + CountIf(Places(s.eval), ViaPending)
            + CountIf(Places(s.submit), ViaPending) <= cfg.maxPendingTransactions
    ensures forall i :: 0 <= i < |s.pending| ==> ViaPending(s.pending[i].order.id)
    ensures s.pc.AddingEval? ==> forall i :: 0 <= i < |s.pc.todo| ==> ViaPending(s.pc.todo[i].id)
  {
    ReachableIsGood(cfg, s);
    forall i | 0 <= i < |s.pending| ensures ViaPending(s.pending[i].order.id) {
      assert OnTime(cfg, s.pending[i]);
    }
  }

  lemma Scale(a: nat, b: nat, c: nat)
    requires a <= b
    ensures a * c <= b * c
  {
  }

  lemma LapBound(lap: nat, interval: nat, total: nat)
    requires lap * interval <= total && interval > 0
    ensures lap <= total / interval
  {
    var q := total / interval;
    assert total < (q + 1) * interval;
    if lap > q {
      Scale(q + 1, lap, interval);
    }
  }

  function MostReturns(cfg: S.Config): nat
    requires cfg.evaluationRetryInterval > 0
  {
    cfg.maxEvaluationDuration / cfg.evaluationRetryInterval
  }

  lemma RetiredBelow(cfg: S.Config, s: S.State)
    requires Timed(cfg, s) && cfg.evaluationRetryInterval > 0
    ensures LapsBelow(s.retired, MostReturns(cfg))
  {
  }

  /** In every run each order returns to the pending queue at most maxEvaluationDuration /
      evaluationRetryInterval times. */
  lemma ReturnsBounded(cfg: S.Config, s: S.State, x: Door)
    requires Reachable(cfg, s) && cfg.evaluationRetryInterval > 0
    ensures CountId(s.retired, x) <= MostReturns(cfg)
  {
    ReachableIsGood(cfg, s);
    RetiredBelow(cfg, s);
    BooksBalance(s);
    forall l: nat | l < MostReturns(cfg) ensures Count(s.retired, Ticket(x, l)) <= 1 {
      IssuedOnce(Everywhere(s), s.arrived, s.retired, s.closed, Ticket(x, l));
    }
    OccurrencesBounded(s.retired, x, MostReturns(cfg), 1);
  }

  /** In every run a waiting order was declined as unprofitable once for each of its returns, and after
      a return it is due again before its deadline. */
  lemma ReturnsFollowDeclines(cfg: S.Config, s: S.State, i: nat)
    requires Reachable(cfg, s) && i < |s.pending|
    ensures s.pending[i].order.val.declined == s.pending[i].order.id.lap
    ensures s.pending[i].order.id.lap > 0 ==> s.pending[i].processAt <= s.pending[i].order.val.evaluationDeadline
  {
    ReachableIsGood(cfg, s);
    assert OnTime(cfg, s.pending[i]);
  }

  lemma CalledLaps(cfg: S.Config, s: S.State, i: nat)
    requires Good(cfg, s) && cfg.evaluationRetryInterval > 0 && i < |s.eval.calls|
    ensures s.eval.calls[i].lap < MostReturns(cfg) + 1
  {
    var t := s.eval.calls[i];
    CountPositive(s.eval.calls, i);
    QueueRuns.CallsWithinTries(cfg.queues, s.eval, t, Count(s.eval.added, t));
    var k := CountFind(s.eval.added, t);
    assert LapAllowed(cfg, s.eval.added[k].lap);
    LapBound(t.lap, cfg.evaluationRetryInterval, cfg.maxEvaluationDuration);
  }

  lemma AddedOnce(s: S.State, t: Visit)
    requires Accounted(s) && Numbered(s.arrived) && EnteredOnce(s, t)
    ensures Count(s.eval.added, t) <= 1
  {
    BooksBalance(s);
    IssuedOnce(Everywhere(s), s.arrived, s.retired, s.closed, t);
  }

  lemma CallsPerVisit(cfg: S.Config, s: S.State, t: Visit)
    requires Good(cfg, s)
    ensures Count(s.eval.calls, t) <= Tries(cfg.queues)
  {
    AddedOnce(s, t);
    QueueRuns.CallsWithinTries(cfg.queues, s.eval, t, 1);
  }

  /** In every run each order is evaluated at most max(1, maxTries) times on each of at most
      1 + maxEvaluationDuration / evaluationRetryInterval visits. */
  lemma EvaluationsBounded(cfg: S.Config, s: S.State, x: Door)
    requires Reachable(cfg, s) && cfg.evaluationRetryInterval > 0
    ensures CountId(s.eval.calls, x) <= Tries(cfg.queues) * (MostReturns(cfg) + 1)
  {
    ReachableIsGood(cfg, s);
    forall i | 0 <= i < |s.eval.calls| ensures s.eval.calls[i].lap < MostReturns(cfg) + 1 {
      CalledLaps(cfg, s, i);
    }
    forall l: nat | l < MostReturns(cfg) + 1 ensures Count(s.eval.calls, Ticket(x, l)) <= Tries(cfg.queues) {
      CallsPerVisit(cfg, s, Ticket(x, l));
    }
    OccurrencesBounded(s.eval.calls, x, MostReturns(cfg) + 1, Tries(cfg.queues));
  }

  lemma LeavesOnce(cfg: S.Config, s: S.State, t: Visit)
    requires Good(cfg, s)
    ensures Count(s.submit.added, t) + Count(s.retired, t) <= Issued(s.arrived, s.retired, t)
  {
    assert LeftOnce(s, t) && EnteredOnce(s, t);
  }

  /** In every run each order enters the submission queue at most once, over all its visits, and is
      handed to the wallet at most max(1, maxTries) times. */
  lemma SubmittedOnce(cfg: S.Config, s: S.State, x: Door)
    requires Reachable(cfg, s)
    ensures CountId(s.submit.added, x) <= 1
    ensures CountId(s.submit.calls, x) <= Tries(cfg.queues)
  {
    ReachableIsGood(cfg, s);
    forall t ensures Count(s.submit.added, t) + Count(s.retired, t) <= Issued(s.arrived, s.retired, t) {
      LeavesOnce(cfg, s, t);
    }
    LeavesAtMostOnce(s.submit.added, s.arrived, s.retired, x);
    NumberedOnce(s.arrived, x);
    forall t ensures Count(s.submit.calls, t) <= Tries(cfg.queues) * Count(s.submit.added, t) {
      QueueRuns.CallsWithinTries(cfg.queues, s.submit, t, Count(s.submit.added, t));
    }
    OccurrencesScale(s.submit.calls, s.submit.added, x, Tries(cfg.queues));
    Scale(CountId(s.submit.added, x), 1, Tries(cfg.queues));
  }
}
