/**
 * The submitter object: each method is one segment of `run`, of a store callback or of a handler, and
 * drives the two queue objects. `trace` is its history of segments: a valid object stands where that
 * run leads, so the results about whole runs hold of it.
 */
module SubmitterWorkers {
  import opened Common
  import opened Queue
  import opened PendingQueue
  import opened Tickets
  import opened S = Submitter
  import opened QueueRuns
  import Store
  import SubmitterRuns

  class SubmitterWorker {
    const config: S.Config
    const evalQueue: ProcessingQueue<Visit, EvalOrder, SubmitOrder>
    const submitQueue: ProcessingQueue<Visit, SubmitOrder, SubmitOrder>
    var pendingQueue: seq<Pending<EvalRef>>
    var clock: int

    var pc: Pc   // where `run` is suspended, with the local lists it holds

    var entries: nat         // these two stand for object identity
    var arrived: seq<Door>
    ghost var retired: seq<Visit>
    ghost var closed: seq<Visit>
    ghost var passes: seq<Evaluation>
    ghost const start: int
    ghost var trace: seq<S.Event>

    ghost function View(): S.State
      reads this, evalQueue, submitQueue
    {
      S.State.State(clock, pendingQueue, evalQueue.View(), submitQueue.View(), pc, entries, arrived, retired, closed,
                    passes)
    }

    ghost predicate Valid()
      reads this, evalQueue, submitQueue
    {
      && evalQueue as object != submitQueue && this as object != evalQueue && this as object != submitQueue
      && evalQueue.Cfg() == config.queues && submitQueue.Cfg() == config.queues
      && evalQueue.Valid() && submitQueue.Valid()
      && S.Run(config, S.Init(start), trace) == Some(View())
    }

    /** Whatever holds in every run holds of a valid object. */
    lemma ValidIsReachable()
      requires Valid()
      ensures SubmitterRuns.Reachable(config, View())
    {
    }

    /** What the search for the insertion point and the scan for due orders rely on. */
    lemma ValidBounds()
      requires Valid()
      ensures Sorted(pendingQueue)
    {
      ValidIsReachable();
      SubmitterRuns.ReachableIsGood(config, View());
    }

    /** For one: an order has one place or was ended once, and enters the submission queue at most once. */
    lemma KeepsItsPromises(x: Door)
      requires Valid()
      ensures CountId(SubmitterRuns.Everywhere(View()), x) + CountId(closed, x) == Count(arrived, x) <= 1
      ensures CountId(submitQueue.added, x) <= 1
    {
      ValidIsReachable();
      SubmitterRuns.OrdersConserved(config, View(), x);
      SubmitterRuns.SubmittedOnce(config, View(), x);
    }

    /** Notes in the trace the event that led from `before` to here. */
    ghost method Took(before: S.State, e: S.Event)
      requires S.Run(config, S.Init(start), trace) == Some(before)
      requires Possible(before, e) && View() == S.Step(config, before, e)
      modifies this`trace
      ensures S.Run(config, S.Init(start), trace) == Some(View())
      ensures View() == old(View()) && trace == old(trace) + [e]
    {
      SubmitterRuns.RunSnoc(config, S.Init(start), trace, e);
      trace := trace + [e];
    }

    constructor (config: S.Config, now: int)
      ensures Valid() && trace == [] && fresh(evalQueue) && fresh(submitQueue)
      ensures View() == S.Init(now) && this.config == config
    {
      this.config := config;
      evalQueue := new ProcessingQueue(config.retryInterval, config.maxTries, None, now);
      submitQueue := new ProcessingQueue(config.retryInterval, config.maxTries, None, now);
      pendingQueue, clock, pc := [], now, Top;
      entries, arrived, retired, closed, passes := 0, [], [], [], [];
      start, trace := now, [];
    }

    function GetSubmitterCapacity(): nat
      reads this, evalQueue, submitQueue
    {
      Capacity(config, evalQueue.size, submitQueue.size)
    }

    method AddPendingOrder(processAt: int, order: EvalRef)
      modifies this`pendingQueue, this`entries
      ensures View() == AddPending(old(View()), processAt, order)
    {
      SpliceInserts(pendingQueue, Pending(order, processAt, entries));
      var insertIndex := 0;
      ghost var k := InsertIndex(pendingQueue, processAt);
      while insertIndex < |pendingQueue| && pendingQueue[insertIndex].processAt <= processAt
        invariant 0 <= insertIndex <= k
      {
        insertIndex := insertIndex + 1;
      }
      pendingQueue := pendingQueue[..insertIndex] + [Pending(order, processAt, entries)] + pendingQueue[insertIndex..];
      entries := entries + 1;
    }

    /** `addSubmitOrder`, up to the awaited `onOrderInit` of an order with priority. */
    method AddSubmitOrder(messageIdentifier: string, priority: bool, now: int)
      requires Valid() && Possible(View(), Arrive(messageIdentifier, priority, now))
      modifies this, evalQueue
      ensures Valid() && trace == old(trace) + [Arrive(messageIdentifier, priority, now)]
      ensures View() == S.Step(config, old(View()), Arrive(messageIdentifier, priority, now))
    {
      ghost var before := View();
      var door := Door(|arrived|, !priority);
      var ref := Ref(Ticket(door, 0), NewOrder(config, messageIdentifier, priority, now));
      arrived := arrived + [door];
      clock := now;
      if priority {
        evalQueue.BeginAddOrder(ref);
      } else {
        AddPendingOrder(now + config.newOrdersDelay, ref);
      }
      Took(before, Arrive(messageIdentifier, priority, now));
    }

    method ProcessPendingQueue(now: int)
      requires Valid() && Possible(View(), TakePending(now))
      modifies this
      ensures Valid() && trace == old(trace) + [TakePending(now)]
      ensures View() == S.Step(config, old(View()), TakePending(now))
    {
      ghost var before := View();
      ValidBounds();
      DueIsPrefix(pendingQueue, now);
      var capacity := GetSubmitterCapacity();
      var i := 0;
      while i < |pendingQueue|
        invariant 0 <= i <= TakeCount(pendingQueue, now, capacity)
      {
        if pendingQueue[i].processAt > now || i + 1 > capacity {
          break;
        }
        i := i + 1;
      }
      pc := AddingEval(Orders(pendingQueue[..i]));
      pendingQueue := pendingQueue[i..];
      clock := now;
      Took(before, TakePending(now));
    }

    /** One pass of `evalQueue.addOrders`, up to its await. */
    method AddEvalOrder()
      requires Valid() && Possible(View(), AddEval)
      modifies this, evalQueue
      ensures Valid() && trace == old(trace) + [AddEval]
      ensures View() == S.Step(config, old(View()), AddEval)
    {
      ghost var before := View();
      evalQueue.BeginAddOrder(pc.todo[0]);
      pc := AddingEval(pc.todo[1..]);
      Took(before, AddEval);
    }

    method ProcessEvalOrders(now: int)
      requires Valid() && Possible(View(), StartEval(now))
      modifies this, evalQueue
      ensures Valid() && trace == old(trace) + [StartEval(now)]
      ensures View() == S.Step(config, old(View()), StartEval(now))
    {
      ghost var before := View();
      clock, pc := now, Evaluating;
      evalQueue.ProcessOrders(now);
      Took(before, StartEval(now));
    }

    /** `EvalQueue.handleOrder`; the result is an object and not a promise, so it never fails later. */
    method EvalHandleOrder(answers: Answers)
      requires Valid() && Possible(View(), EvalHandler(answers))
      modifies this, evalQueue
      ensures Valid() && trace == old(trace) + [EvalHandler(answers)]
      ensures View() == S.Step(config, old(View()), EvalHandler(answers))
    {
      ghost var before := View();
      var order := evalQueue.current.value.po.order;
      var how := Evaluate(order.val, answers);
      passes := passes + [Evaluation(order.id, order.val, answers)];
      evalQueue.HandleOrderDone(how);
      Took(before, EvalHandler(answers));
    }

    /** Its branches, in the order of the code. */
    method Evaluate(evalOrder: EvalOrder, answers: Answers) returns (how: Handled<EvalOrder>)
      ensures how == HandleEval(config.chainId, evalOrder, answers)
    {
      var order := evalOrder;
      if !order.priority {
        if answers.ambPriority {
          order := order.(priority := true);
        }
      }
      if answers.relayState.None? {
        return Threw(order);
      }
      var relayState := answers.relayState.value;
      var bounty := BountyFromRelayState(relayState);
      if bounty.None? {
        return Threw(order);
      }
      var isDelivery := bounty.value.fromChainId != config.chainId;
      if isDelivery {
        if Store.Rank(relayState.status) >= 1 {
          return Null(order);
        }
      } else {
        if Store.Rank(relayState.status) >= 2 {
          return Null(order);
        }
      }
      if !answers.gasEstimated {
        return Threw(order);
      }
      var submitRelay := EvaluateRelaySubmission(order, answers.evaluation);
      if submitRelay.None? {
        return Threw(order);
      }
      if submitRelay.value {
        return Promised(order.(result := Some(isDelivery)));
      }
      how := Null(order.(retryEvaluation := true, declined := evalOrder.declined + 1));
    }

    /** The segments the evaluation queue goes through on its own. */
    method ResumeEval(ev: EvalEvent)
      requires Valid() && Possible(View(), EvalInner(ev))
      modifies this, evalQueue
      ensures Valid() && trace == old(trace) + [EvalInner(ev)]
      ensures View() == S.Step(config, old(View()), EvalInner(ev))
    {
      ghost var before := View();
      clock := EventTime(ev, clock);
      evalQueue.Resume(ev);
      Took(before, EvalInner(ev));
    }

    /** The declined orders of one pass: back to the pending queue, or dropped at their deadline. The
        clock is read for each. */
    method ProcessNoSubmitEvalOrders(evalOrders: seq<EvalRef>, times: seq<int>)
      requires |times| == |evalOrders|
      modifies this`pendingQueue, this`entries, this`retired, this`closed
      ensures View() == ReconsiderAll(config, old(View()), evalOrders, times)
    {
      var i := 0;
      while i < |evalOrders|
        invariant 0 <= i <= |evalOrders|
        invariant View() == ReconsiderAll(config, old(View()), evalOrders[..i], times[..i])
      {
        var order, now := evalOrders[i], times[i];
        assert evalOrders[..i + 1][..i] == evalOrders[..i] && times[..i + 1][..i] == times[..i];
        if order.val.retryEvaluation && now + config.evaluationRetryInterval <= order.val.evaluationDeadline {
          retired := retired + [order.id];
          AddPendingOrder(now + config.evaluationRetryInterval, NextVisit(order));
        } else {
          closed := closed + [order.id];
        }
        i := i + 1;
      }
      assert evalOrders[..i] == evalOrders && times[..i] == times;
    }

    /** From the evaluation queue's results to the next `addOrders`. */
    method CollectEvaluated(times: seq<int>)
      requires Valid() && Possible(View(), FlushEval(times))
      modifies this, evalQueue
      ensures Valid() && trace == old(trace) + [FlushEval(times)]
      ensures View() == S.Step(config, old(View()), FlushEval(times))
    {
      ghost var before := View();
      var newSubmitOrders, noSubmitEvalOrders, failedOrders := evalQueue.GetFinishedOrders();
      clock := LastTime(clock, times);
      pc := AddingSubmit(newSubmitOrders);
      closed := closed + RefIds(failedOrders);
      ProcessNoSubmitEvalOrders(noSubmitEvalOrders, times);
      Took(before, FlushEval(times));
    }

    /** One pass of `submitQueue.addOrders`, up to its await. */
    method AddSubmission()
      requires Valid() && Possible(View(), AddSubmit)
      modifies this, submitQueue
      ensures Valid() && trace == old(trace) + [AddSubmit]
      ensures View() == S.Step(config, old(View()), AddSubmit)
    {
      ghost var before := View();
      submitQueue.BeginAddOrder(pc.todoSubmit[0]);
      pc := AddingSubmit(pc.todoSubmit[1..]);
      Took(before, AddSubmit);
    }

    method ProcessSubmissions(now: int)
      requires Valid() && Possible(View(), StartSubmit(now))
      modifies this, submitQueue
      ensures Valid() && trace == old(trace) + [StartSubmit(now)]
      ensures View() == S.Step(config, old(View()), StartSubmit(now))
    {
      ghost var before := View();
      clock, pc := now, Submitting;
      submitQueue.ProcessOrders(now);
      Took(before, StartSubmit(now));
    }

    /** The segments of the submission queue; how its handler ends is up to the wallet. */
    method ResumeSubmit(sv: SubmitEvent)
      requires Valid() && Possible(View(), SubmitInner(sv))
      modifies this, submitQueue
      ensures Valid() && trace == old(trace) + [SubmitInner(sv)]
      ensures View() == S.Step(config, old(View()), SubmitInner(sv))
    {
      ghost var before := View();
      clock := EventTime(sv, clock);
      submitQueue.Resume(sv);
      Took(before, SubmitInner(sv));
    }

    /** The results of the submission queue end their orders. */
    method CollectSubmissions()
      requires Valid() && Possible(View(), FlushSubmit)
      modifies this, submitQueue
      ensures Valid() && trace == old(trace) + [FlushSubmit]
      ensures View() == S.Step(config, old(View()), FlushSubmit)
    {
      ghost var before := View();
      var submitted, skipped, failed := submitQueue.GetFinishedOrders();
      closed := closed + RefIds(submitted) + RefIds(skipped) + RefIds(failed);
      pc := Top;
      Took(before, FlushSubmit);
    }
  }
}
