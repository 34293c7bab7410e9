/** The results about whole runs of one queue, and the queue object that produces them. */
module QueueRuns {
  import opened Common
  import opened Queue
  import opened QueueConservation
  import opened QueueBounds
  import opened QueueCalls

  ghost predicate CallsCharged<K, O, R>(s: State<K, O, R>, x: K) {
    Count(s.calls, x) == Spent(s, x)
  }

  ghost predicate AllCharged<K(!new), O, R>(s: State<K, O, R>) {
    forall x :: CallsCharged(s, x)
  }

  /** What every reachable state of a queue satisfies. */
  ghost predicate Good<K(!new), O, R>(cfg: Config, s: State<K, O, R>) {
    && Conserved(s)
    && WithinCapacity(cfg, s)
    && WithinTries(cfg, s)
    && Chronological(cfg, s)
    && AllCharged(s)
    && (cfg.maxConcurrent == Some(1) ==> InOrder(s))
  }

  lemma GoodInit<K(!new), O, R>(cfg: Config, clock: int)
    ensures Good(cfg, Init<K, O, R>(clock))
  {
    InitConserves<K, O, R>(clock);
    InitIsCharged<K, O, R>(clock);
    assert LogIds<K>([]) == [];
  }

  lemma InitConserves<K(!new), O, R>(clock: int)
    ensures Conserved(Init<K, O, R>(clock))
  {
  }

  lemma InitIsCharged<K(!new), O, R>(clock: int)
    ensures AllCharged(Init<K, O, R>(clock))
  {
  }

  lemma GoodStep<K(!new), O, R>(cfg: Config, s: State<K, O, R>, ev: Event<K, O, R>)
    requires Good(cfg, s) && Enabled(s, ev)
    ensures Good(cfg, Step(cfg, s, ev))
  {
    StepConserves(cfg, s, ev);
    StepCapacity(cfg, s, ev);
    StepTries(cfg, s, ev);
    StepChronology(cfg, s, ev);
    forall x ensures CallsCharged(Step(cfg, s, ev), x) {
      assert CallsCharged(s, x);
      StepCalls(cfg, s, ev, x);
    }
    if cfg.maxConcurrent == Some(1) {
      StepFifo(cfg, s, ev);
    }
  }

  lemma {:induction false} GoodRun<K(!new), O, R>(cfg: Config, s: State<K, O, R>, evs: seq<Event<K, O, R>>)
    requires Good(cfg, s) && Run(cfg, s, evs).Some?
    ensures Good(cfg, Run(cfg, s, evs).value)
    decreases |evs|
  {
    if evs != [] {
      GoodStep(cfg, s, evs[0]);
      GoodRun(cfg, Step(cfg, s, evs[0]), evs[1..]);
    }
  }

  /** In every run, an order added once stands in exactly one place, and `size` counts the places. */
  lemma ExactlyOnePlace<K(!new), O, R>(cfg: Config, clock: int, evs: seq<Event<K, O, R>>, x: K)
    requires Run(cfg, Init<K, O, R>(clock), evs).Some?
    ensures var s := Run(cfg, Init<K, O, R>(clock), evs).value;
            && s.size == |Places(s)|
            && Count(Places(s), x) + Count(HandedOut(s), x) == Count(s.added, x)
  {
    GoodInit<K, O, R>(cfg, clock);
    GoodRun(cfg, Init<K, O, R>(clock), evs);
    CensusCountsPlaces(Run(cfg, Init<K, O, R>(clock), evs).value, x);
    assert Placed(Run(cfg, Init<K, O, R>(clock), evs).value, x);
  }

  /** In every run the live orders fit the limit, even where `concurrentOrders` exceeds it. */
  lemma CapacityHolds<K(!new), O, R>(cfg: Config, clock: int, evs: seq<Event<K, O, R>>)
    requires Run(cfg, Init<K, O, R>(clock), evs).Some? && cfg.maxConcurrent.Some?
    ensures var s := Run(cfg, Init<K, O, R>(clock), evs).value;
            && |Live(s)| <= cfg.maxConcurrent.value
            && Concurrent(s) == |s.tasks| + |s.retryQueue| + s.settled
  {
    GoodInit<K, O, R>(cfg, clock);
    GoodRun(cfg, Init<K, O, R>(clock), evs);
  }

  /** With limit 1, orders finish exactly in the order they were queued: the finished ones are a
      prefix of the arrivals, at most one more is live, and the rest wait in order. */
  lemma FirstInFirstOut<K(!new), O, R>(cfg: Config, clock: int, evs: seq<Event<K, O, R>>)
    requires Run(cfg, Init<K, O, R>(clock), evs).Some? && cfg.maxConcurrent == Some(1)
    ensures var s := Run(cfg, Init<K, O, R>(clock), evs).value;
            && LogIds(s.log) <= s.queued
            && |Live(s)| <= 1
            && s.queued == LogIds(s.log) + Live(s) + RefIds(Waiting(s))
  {
    GoodInit<K, O, R>(cfg, clock);
    GoodRun(cfg, Init<K, O, R>(clock), evs);
    OneInLine(cfg, Run(cfg, Init<K, O, R>(clock), evs).value);
  }

  lemma OneInLine<K(!new), O, R>(cfg: Config, s: State<K, O, R>)
    requires Good(cfg, s) && cfg.maxConcurrent == Some(1)
    ensures LogIds(s.log) <= s.queued && |Live(s)| <= 1
    ensures s.queued == LogIds(s.log) + Live(s) + RefIds(Waiting(s))
  {
    assert s.queued == LogIds(s.log) + (Live(s) + RefIds(Waiting(s)));
  }

  lemma CallsWithinTries<K(!new), O, R>(cfg: Config, s: State<K, O, R>, x: K, times: nat)
    requires Good(cfg, s) && Count(s.added, x) <= times
    ensures Count(s.calls, x) <= Tries(cfg) * times
    ensures Count(s.calls, x) > 0 ==> Count(s.added, x) > 0
  {
    assert CallsCharged(s, x);
    CallsBounded(cfg, s, x);
    ScaledBound(Count(s.calls, x), Tries(cfg), Count(s.added, x), times);
    if Count(s.added, x) == 0 {
      ScaledBound(Count(s.calls, x), Tries(cfg), Count(s.added, x), 0);
    }
  }

  /** In every run each order is handled at most max(1, maxTries) times per addition, and it ends
      rejected exactly when it failed on the last of them. */
  lemma TriesHold<K(!new), O, R>(cfg: Config, clock: int, evs: seq<Event<K, O, R>>, x: K, i: nat)
    requires Run(cfg, Init<K, O, R>(clock), evs).Some?
    ensures var s := Run(cfg, Init<K, O, R>(clock), evs).value;
            && Count(s.calls, x) <= Tries(cfg) * Count(s.added, x)
            && (i < |s.log| ==>
                  && s.log[i].tries <= Tries(cfg)
                  && (s.log[i].outcome == Rejected <==> s.log[i].failed && s.log[i].tries == Tries(cfg)))
  {
    GoodInit<K, O, R>(cfg, clock);
    GoodRun(cfg, Init<K, O, R>(clock), evs);
    var s := Run(cfg, Init<K, O, R>(clock), evs).value;
    CallsWithinTries(cfg, s, x, Count(s.added, x));
    if i < |s.log| {
      FinishedOnTime(cfg, s, i);
    }
  }

  lemma FinishedOnTime<K(!new), O, R>(cfg: Config, s: State<K, O, R>, i: nat)
    requires Good(cfg, s) && i < |s.log|
    ensures s.log[i].tries <= Tries(cfg)
    ensures s.log[i].outcome == Rejected <==> s.log[i].failed && s.log[i].tries == Tries(cfg)
  {
  }

  // ---------------------------------------------------------------------------------------------
  // The queue object. `trace` is its history of segments: an object is valid when it stands where
  // that run leads, so the results above hold of it, and every method extends the run.
  // ---------------------------------------------------------------------------------------------

  lemma {:induction false} RunSnoc<K, O, R>(
    cfg: Config, s: State<K, O, R>, evs: seq<Event<K, O, R>>, ev: Event<K, O, R>)
    requires Run(cfg, s, evs).Some? && Enabled(Run(cfg, s, evs).value, ev)
    ensures Run(cfg, s, evs + [ev]) == Some(Step(cfg, Run(cfg, s, evs).value, ev))
    decreases |evs|
  {
    if evs == [] {
      assert evs + [ev] == [ev];
      assert Run(cfg, Step(cfg, s, ev), []) == Some(Step(cfg, s, ev));
    } else {
      assert (evs + [ev])[1..] == evs[1..] + [ev];
      RunSnoc(cfg, Step(cfg, s, evs[0]), evs[1..], ev);
    }
  }

  class ProcessingQueue<K(!new), O, R> {
    const retryInterval: nat
    const maxTries: nat
    const maxConcurrentOrders: Option<nat>

    var size: int
    var newQueue: seq<Ref<K, O>>
    var retryQueue: seq<ProcessOrder<K, O>>
    var pendingCount: int
    var completedOrders: seq<Ref<K, R>>
    var skippedOrders: seq<Ref<K, O>>
    var rejectedOrders: seq<Ref<K, O>>

    // what the runtime keeps of suspended calls
    var initialising: seq<Ref<K, O>>
    var main: Main<K, O>
    var current: Option<Task<K, O, R>>
    var tasks: seq<Task<K, O, R>>
    var settled: nat
    var clock: int

    ghost var added: seq<K>
    ghost var queued: seq<K>
    ghost var calls: seq<K>
    ghost var log: seq<Finish<K>>
    ghost var flushed: nat
    ghost const start: int
    ghost var trace: seq<Event<K, O, R>>

    ghost function Cfg(): Config {
      Config(retryInterval, maxTries, maxConcurrentOrders)
    }

    ghost function View(): State<K, O, R>
      reads this
    {
      State(size, newQueue, retryQueue, pendingCount, completedOrders, skippedOrders, rejectedOrders,
            initialising, main, current, tasks, settled, clock, added, queued, calls, log, flushed)
    }

    ghost predicate Valid()
      reads this
    {
      Run(Cfg(), Init(start), trace) == Some(View())
    }

    /** Whatever holds in every run holds of a valid object. */
    lemma ValidIsGood()
      requires Valid()
      ensures Good(Cfg(), View())
    {
      GoodInit<K, O, R>(Cfg(), start);
      GoodRun(Cfg(), Init(start), trace);
    }

    /** What the scan of the retry queue and the final splice of the new queue rely on. */
    lemma ValidBounds()
      requires Valid()
      ensures SortedByTime(retryQueue)
      ensures main.Running? ==> main.next <= |newQueue|
    {
      ValidIsGood();
    }

    /** Notes in the trace the event that led from `before` to here. */
    ghost method Took(before: State<K, O, R>, ev: Event<K, O, R>)
      requires Run(Cfg(), Init(start), trace) == Some(before)
      requires Enabled(before, ev) && View() == Step(Cfg(), before, ev)
      modifies this`trace
      ensures Valid() && View() == old(View()) && trace == old(trace) + [ev]
    {
      RunSnoc(Cfg(), Init(start), trace, ev);
      trace := trace + [ev];
    }

    constructor (retryInterval: nat, maxTries: nat, maxPendingOrders: Option<nat>, now: int)
      ensures Valid() && trace == []
      ensures View() == Init(now)
      ensures Cfg() == Config(retryInterval, maxTries, maxPendingOrders)
    {
      this.retryInterval := retryInterval;
      this.maxTries := maxTries;
      this.maxConcurrentOrders := maxPendingOrders;
      size, pendingCount, newQueue, retryQueue := 0, 0, [], [];
      completedOrders, skippedOrders, rejectedOrders := [], [], [];
      initialising, main, current, tasks, settled, clock := [], Idle, None, [], 0, now;
      added, queued, calls, log, flushed := [], [], [], [], 0;
      start, trace := now, [];
    }

    function ConcurrentOrders(): int
      reads this
    {
      pendingCount + |retryQueue|
    }

    predicate CapacityAvailable()
      reads this
    {
      maxConcurrentOrders.None? || ConcurrentOrders() < maxConcurrentOrders.value
    }

    /** One pass of the loop of `addOrders`, up to the awaited `onOrderInit`. */
    method BeginAddOrder(order: Ref<K, O>)
      requires Valid()
      modifies this
      ensures Valid() && trace == old(trace) + [AddBegin(order)]
      ensures View() == BeginAdd(old(View()), order)
    {
      ghost var before := View();
      size := size + 1;
      initialising := initialising + [order];
      added := added + [order.id];
      Took(before, AddBegin(order));
    }

    /** The rest of that pass, once `onOrderInit` has left `val` in the order. */
    method EndAddOrder(k: nat, val: O)
      requires Valid() && k < |initialising|
      modifies this
      ensures Valid() && trace == old(trace) + [AddEnd(k, val)]
      ensures View() == Step(Cfg(), old(View()), AddEnd(k, val))
    {
      ghost var before := View();
      var order := initialising[k].(val := val);
      initialising := Without(initialising, k);
      newQueue := newQueue + [order];
      queued := queued + [order.id];
      Took(before, AddEnd(k, val));
    }

    /** Scans the retry queue up to the first order that is not due. */
    method GetOrdersToRetry(now: int) returns (orders: seq<ProcessOrder<K, O>>)
      requires SortedByTime(retryQueue)
      modifies this`retryQueue
      ensures orders == Due(old(retryQueue), now)
      ensures retryQueue == NotDue(old(retryQueue), now)
    {
      var i := 0;
      ghost var q := retryQueue;
      while i < |retryQueue|
        invariant 0 <= i <= |retryQueue| == |q|
        invariant forall j :: 0 <= j < i ==> q[j].retryAt <= now
        invariant retryQueue[..i] == Charged(q[..i]) && retryQueue[i..] == q[i..]
      {
        var order := retryQueue[i];
        if order.retryAt <= now {
          ChargedSnoc(q, i);
          retryQueue := retryQueue[i := order.(retryCount := order.retryCount + 1)];
        } else {
          break;
        }
        i := i + 1;
      }
      PrefixIsExact(q, i, now);
      orders := retryQueue[..i];
      retryQueue := retryQueue[i..];
    }

    /** `processOrders` up to the awaited `onProcessOrders`. */
    method ProcessOrders(now: int)
      requires Valid() && main.Idle? && clock <= now
      modifies this
      ensures Valid() && trace == old(trace) + [Process(now)]
      ensures View() == Step(Cfg(), old(View()), Process(now))
    {
      ValidBounds();
      ghost var before := View();
      clock := now;
      var retryOrders := GetOrdersToRetry(now);
      var retryOrdersPending := |retryOrders| > 0;
      var newOrdersPending := |newQueue| > 0;
      if retryOrdersPending || (newOrdersPending && CapacityAvailable()) {
        main := Running(retryOrders, 0);
      }
      Took(before, Process(now));
    }

    /** The head of its two loops: the next retry, else the next new order, else the final splice. */
    method NextOrder()
      requires Valid() && main.Running? && current.None?
      modifies this
      ensures Valid() && trace == old(trace) + [Next]
      ensures View() == Step(Cfg(), old(View()), Next)
    {
      ValidBounds();
      ghost var before := View();
      if main.retries != [] {
        var po := main.retries[0];
        main := main.(retries := main.retries[1..]);
        current := Some(Task(po, Handling));
        calls := calls + [po.order.id];
      } else if main.next < |newQueue| && CapacityAvailable() {
        var order := newQueue[main.next];
        main := main.(next := main.next + 1);
        current := Some(Task(ProcessOrder(order, 0, 0), Handling));
        calls := calls + [order.id];
      } else {
        newQueue := newQueue[main.next..];
        main := Idle;
      }
      Took(before, Next);
    }

    /** `processOrder` once `handleOrder` has returned or thrown. */
    method HandleOrderDone(how: Handled<O>)
      requires Valid() && current.Some? && current.value.phase.Handling?
      modifies this
      ensures Valid() && trace == old(trace) + [HandlerDone(how)]
      ensures View() == Step(Cfg(), old(View()), HandlerDone(how))
    {
      ghost var before := View();
      var po := current.value.po.(order := current.value.po.order.(val := how.val));
      match how {
        case Null(_) => current := Some(Task(po, Completing(None)));
        case Threw(_) => current := Some(Task(po, Failing));
        case Promised(_) =>
          current := None;
          tasks := tasks + [Task(po, InFlight)];
          pendingCount := pendingCount + 1;
      }
      Took(before, HandlerDone(how));
    }

    /** `handleOrderSuccess` and `handleOrderError`, from one await to the next. */
    method Continue(t: Task<K, O, R>, m: Move<O, R>) returns (rest: Option<Task<K, O, R>>)
      requires MoveEnabled(t.phase, m)
      modifies this`retryQueue, this`completedOrders, this`skippedOrders, this`rejectedOrders, this`log, this`clock
      ensures (View(), rest) == Advance(Cfg(), old(View()), t, m)
    {
      match m {
        case Resolve(result) => rest := Some(t.(phase := Completing(result)));
        case Reject => rest := Some(t.(phase := Failing));
        case FailureHandled(retry, val, now) => rest := OrderFailed(t, retry, val, now);
        case HookDone =>
          FinishOrder(t);
          rest := None;
      }
    }

    /** `handleOrderError` once `handleFailedOrder` has answered. */
    method OrderFailed(t: Task<K, O, R>, retry: bool, val: O, now: int) returns (rest: Option<Task<K, O, R>>)
      modifies this`retryQueue, this`clock
      ensures (View(), rest) == Fail(Cfg(), old(View()), t, retry, val, now)
    {
      var po := t.po.(order := t.po.order.(val := val));
      clock := now;
      if po.retryCount as int >= maxTries - 1 {
        rest := Some(Task(po, Closing(true)));
      } else if retry {
        AddOrderToRetryQueue(po, now);
        rest := None;
      } else {
        rest := Some(Task(po, Closing(false)));
      }
    }

    /** After `onOrderCompletion`: the order goes onto one of the three lists. */
    method FinishOrder(t: Task<K, O, R>)
      requires t.phase.Completing? || t.phase.Closing?
      modifies this`completedOrders, this`skippedOrders, this`rejectedOrders, this`log
      ensures View() == Conclude(old(View()), t)
    {
      if t.phase.Completing? && t.phase.result.Some? {
        completedOrders := completedOrders + [Ref(t.po.order.id, t.phase.result.value)];
        log := log + [Finish(t.po.order.id, t.po.retryCount + 1, false, Completed)];
      } else if t.phase == Closing(true) {
        rejectedOrders := rejectedOrders + [t.po.order];
        log := log + [Finish(t.po.order.id, t.po.retryCount + 1, true, Rejected)];
      } else {
        skippedOrders := skippedOrders + [t.po.order];
        log := log + [Finish(t.po.order.id, t.po.retryCount + 1, t.phase.Closing?, Skipped)];
      }
    }

    method AddOrderToRetryQueue(po: ProcessOrder<K, O>, now: int)
      modifies this`retryQueue
      ensures retryQueue == old(retryQueue) + [po.(retryAt := now + retryInterval)]
    {
      retryQueue := retryQueue + [po.(retryAt := now + retryInterval)];
    }

    method ContinueForeground(m: Move<O, R>)
      requires Valid() && current.Some? && MoveEnabled(current.value.phase, m) && Monotone(clock, m)
      modifies this
      ensures Valid() && trace == old(trace) + [Foreground(m)]
      ensures View() == Step(Cfg(), old(View()), Foreground(m))
    {
      ghost var before := View();
      var t := current.value;
      current := Continue(t, m);
      Took(before, Foreground(m));
    }

    method ContinueBackground(k: nat, m: Move<O, R>)
      requires Valid() && k < |tasks| && MoveEnabled(tasks[k].phase, m) && Monotone(clock, m)
      modifies this
      ensures Valid() && trace == old(trace) + [Background(k, m)]
      ensures View() == Step(Cfg(), old(View()), Background(k, m))
    {
      ghost var before := View();
      var t := Continue(tasks[k], m);
      if t.Some? {
        tasks := tasks[k := t.value];
      } else {
        tasks := Without(tasks, k);
        settled := settled + 1;
      }
      Took(before, Background(k, m));
    }

    method DecrementPending()
      requires Valid() && settled > 0
      modifies this
      ensures Valid() && trace == old(trace) + [Decrement]
      ensures View() == Step(Cfg(), old(View()), Decrement)
    {
      ghost var before := View();
      settled := settled - 1;
      pendingCount := pendingCount - 1;
      Took(before, Decrement);
    }

    /** Hands out the three lists; afterwards `size` counts what is still in the queue. */
    method GetFinishedOrders() returns (completed: seq<Ref<K, R>>, skipped: seq<Ref<K, O>>, rejected: seq<Ref<K, O>>)
      requires Valid()
      modifies this
      ensures Valid() && trace == old(trace) + [Flush]
      ensures View() == TakeFinished(old(View()))
      ensures completed == old(completedOrders) && skipped == old(skippedOrders) && rejected == old(rejectedOrders)
    {
      ghost var before := View();
      completed := completedOrders;
      completedOrders := [];
      skipped := skippedOrders;
      skippedOrders := [];
      rejected := rejectedOrders;
      rejectedOrders := [];
      var ordersRemoved := |completed| + |skipped| + |rejected|;
      size := size - ordersRemoved;
      flushed := |log|;
      Took(before, Flush);
    }

    /** Any segment but the hand-out, which returns something. */
    method Resume(ev: Event<K, O, R>)
      requires Valid() && Enabled(View(), ev) && !ev.Flush?
      modifies this
      ensures Valid() && trace == old(trace) + [ev]
      ensures View() == Step(Cfg(), old(View()), ev)
    {
      match ev {
        case AddBegin(order) => BeginAddOrder(order);
        case AddEnd(k, val) => EndAddOrder(k, val);
        case Process(now) => ProcessOrders(now);
        case Next => NextOrder();
        case HandlerDone(how) => HandleOrderDone(how);
        case Foreground(m) => ContinueForeground(m);
        case Background(k, m) => ContinueBackground(k, m);
        case Decrement => DecrementPending();
      }
    }
  }

  lemma {:induction false} ChargedAppend<K, O>(a: seq<ProcessOrder<K, O>>, b: seq<ProcessOrder<K, O>>)
    ensures Charged(a + b) == Charged(a) + Charged(b)
  {
    if a == [] {
      assert a + b == b;
    } else {
      assert (a + b)[1..] == a[1..] + b;
      ChargedAppend(a[1..], b);
    }
  }

  lemma ChargedSnoc<K, O>(q: seq<ProcessOrder<K, O>>, i: nat)
    requires i < |q|
    ensures Charged(q[..i + 1]) == Charged(q[..i]) + [q[i].(retryCount := q[i].retryCount + 1)]
  {
    assert q[..i + 1] == q[..i] + [q[i]];
    ChargedAppend(q[..i], [q[i]]);
  }
}
