/** Capacity, number of tries, order of the retry queue, and first-in-first-out with limit 1. */
module QueueBounds {
  import opened Common
  import opened Queue
  import opened QueueConservation

  // ---------------------------------------------------------------------------------------------
  // Capacity
  // ---------------------------------------------------------------------------------------------

  /** Orders taken and not finished: in flight, retrying, or being handled. */
  function LiveTotal<K, O, R>(s: State<K, O, R>): nat {
    |Retries(s)| + (if s.current.Some? then 1 else 0) + |s.tasks| + |s.retryQueue|
  }

  ghost predicate WithinCapacity<K, O, R>(cfg: Config, s: State<K, O, R>) {
    cfg.maxConcurrent.Some? ==> LiveTotal(s) <= cfg.maxConcurrent.value
  }

  /** The check before a new order counts settling orders twice; that only makes it stricter. */
  lemma CheckIsSafe<K, O, R>(cfg: Config, s: State<K, O, R>)
    requires Shape(s) && cfg.maxConcurrent.Some? && HasCapacity(cfg, s)
    ensures |s.tasks| + |s.retryQueue| < cfg.maxConcurrent.value
  {
  }

  lemma AdvanceLive<K, O, R>(cfg: Config, s: State<K, O, R>, t: Task<K, O, R>, m: Move<O, R>)
    requires MoveEnabled(t.phase, m)
    ensures var (s1, t1) := Advance(cfg, s, t, m);
            |s1.retryQueue| + (if t1.Some? then 1 else 0) <= |s.retryQueue| + 1
  {
  }

  lemma StepCapacity<K, O, R>(cfg: Config, s: State<K, O, R>, ev: Event<K, O, R>)
    requires Shape(s) && WithinCapacity(cfg, s) && Enabled(s, ev)
    ensures WithinCapacity(cfg, Step(cfg, s, ev))
  {
    match ev
    case Process(now) => DueLength(s.retryQueue, now);
    case Next =>
      if s.main.retries == [] && cfg.maxConcurrent.Some? && HasCapacity(cfg, s) {
        CheckIsSafe(cfg, s);
      }
    case Foreground(m) =>
      AdvanceFrame(cfg, s, s.current.value, m);
      AdvanceLive(cfg, s, s.current.value, m);
    case Background(k, m) =>
      AdvanceFrame(cfg, s, s.tasks[k], m);
      AdvanceLive(cfg, s, s.tasks[k], m);
    case _ =>
  }

  // ---------------------------------------------------------------------------------------------
  // Tries
  // ---------------------------------------------------------------------------------------------

  /** How often one order can be handled: at least once, whatever `maxTries` says. */
  function Tries(cfg: Config): nat {
    if cfg.maxTries == 0 then 1 else cfg.maxTries
  }

  predicate TaskWithinTries<K, O, R>(cfg: Config, t: Task<K, O, R>) {
    && t.po.retryCount < Tries(cfg)
    && (t.phase.Closing? ==> t.phase.reject == MaxTriesReached(cfg, t.po.retryCount))
  }

  /** An order is rejected exactly when the last try it had failed. */
  predicate FinishJustified<K>(cfg: Config, f: Finish<K>) {
    && 1 <= f.tries <= Tries(cfg)
    && (f.outcome == Rejected <==> f.failed && f.tries == Tries(cfg))
    && (f.outcome == Completed ==> !f.failed)
  }

  ghost predicate WithinTries<K, O, R>(cfg: Config, s: State<K, O, R>) {
    && (s.main.Running? ==> forall i :: 0 <= i < |s.main.retries| ==> s.main.retries[i].retryCount < Tries(cfg))
    && (forall i :: 0 <= i < |s.retryQueue| ==> s.retryQueue[i].retryCount + 1 < Tries(cfg))
    && (forall i :: 0 <= i < |s.tasks| ==> TaskWithinTries(cfg, s.tasks[i]))
    && (s.current.Some? ==> TaskWithinTries(cfg, s.current.value))
    && (forall i :: 0 <= i < |s.log| ==> FinishJustified(cfg, s.log[i]))
  }

  lemma {:induction false} DueTries<K, O>(cfg: Config, q: seq<ProcessOrder<K, O>>, now: int)
    requires forall i :: 0 <= i < |q| ==> q[i].retryCount + 1 < Tries(cfg)
    ensures forall i :: 0 <= i < |Due(q, now)| ==> Due(q, now)[i].retryCount < Tries(cfg)
    ensures forall i :: 0 <= i < |NotDue(q, now)| ==> NotDue(q, now)[i].retryCount + 1 < Tries(cfg)
  {
    if q != [] {
      DueTries(cfg, q[1..], now);
    }
  }

  lemma ConcludeTries<K, O, R>(cfg: Config, s: State<K, O, R>, t: Task<K, O, R>)
    requires (t.phase.Completing? || t.phase.Closing?) && TaskWithinTries(cfg, t) && WithinTries(cfg, s)
    ensures WithinTries(cfg, Conclude(s, t))
  {
  }

  lemma FailTries<K, O, R>(cfg: Config, s: State<K, O, R>, t: Task<K, O, R>, retry: bool, val: O, now: int)
    requires TaskWithinTries(cfg, t) && WithinTries(cfg, s)
    ensures var (s1, t1) := Fail(cfg, s, t, retry, val, now);
            WithinTries(cfg, s1) && (t1.Some? ==> TaskWithinTries(cfg, t1.value))
  {
  }

  lemma AdvanceTries<K, O, R>(cfg: Config, s: State<K, O, R>, t: Task<K, O, R>, m: Move<O, R>)
    requires MoveEnabled(t.phase, m) && TaskWithinTries(cfg, t) && WithinTries(cfg, s)
    ensures var (s1, t1) := Advance(cfg, s, t, m);
            WithinTries(cfg, s1) && (t1.Some? ==> TaskWithinTries(cfg, t1.value))
  {
    match m
    case FailureHandled(retry, val, now) => FailTries(cfg, s, t, retry, val, now);
    case HookDone => ConcludeTries(cfg, s, t);
    case _ =>
  }

  lemma PutBackTries<K, O, R>(cfg: Config, s: State<K, O, R>, k: nat, t: Option<Task<K, O, R>>)
    requires k < |s.tasks| && WithinTries(cfg, s) && (t.Some? ==> TaskWithinTries(cfg, t.value))
    ensures WithinTries(cfg, PutBack(s, k, t))
  {
  }

  lemma StepTries<K, O, R>(cfg: Config, s: State<K, O, R>, ev: Event<K, O, R>)
    requires Shape(s) && WithinTries(cfg, s) && Enabled(s, ev)
    ensures WithinTries(cfg, Step(cfg, s, ev))
  {
    match ev
    case Process(now) => DueTries(cfg, s.retryQueue, now);
    case Foreground(m) =>
      AdvanceTries(cfg, s, s.current.value, m);
    case Background(k, m) =>
      var (s1, t1) := Advance(cfg, s, s.tasks[k], m);
      AdvanceFrame(cfg, s, s.tasks[k], m);
      AdvanceTries(cfg, s, s.tasks[k], m);
      PutBackTries(cfg, s1, k, t1);
    case _ =>
  }

  // ---------------------------------------------------------------------------------------------
  // The retry queue is sorted, so its due orders are a prefix
  // ---------------------------------------------------------------------------------------------

  ghost predicate SortedByTime<K, O>(q: seq<ProcessOrder<K, O>>) {
    forall i, j :: 0 <= i < j < |q| ==> q[i].retryAt <= q[j].retryAt
  }

  ghost predicate Chronological<K, O, R>(cfg: Config, s: State<K, O, R>) {
    && SortedByTime(s.retryQueue)
    && forall i :: 0 <= i < |s.retryQueue| ==> s.retryQueue[i].retryAt <= s.clock + cfg.retryInterval
  }

  lemma {:induction false} NotDueStaysSorted<K, O>(q: seq<ProcessOrder<K, O>>, now: int, bound: int)
    requires SortedByTime(q) && forall i :: 0 <= i < |q| ==> q[i].retryAt <= bound
    ensures SortedByTime(NotDue(q, now))
    ensures forall i :: 0 <= i < |NotDue(q, now)| ==> NotDue(q, now)[i].retryAt <= bound
    ensures q != [] ==> forall i :: 0 <= i < |NotDue(q, now)| ==> q[0].retryAt <= NotDue(q, now)[i].retryAt
  {
    if q != [] {
      NotDueStaysSorted(q[1..], now, bound);
    }
  }

  lemma AdvanceChronology<K, O, R>(cfg: Config, s: State<K, O, R>, t: Task<K, O, R>, m: Move<O, R>)
    requires MoveEnabled(t.phase, m) && Monotone(s.clock, m) && Chronological(cfg, s)
    ensures var (s1, _) := Advance(cfg, s, t, m); Chronological(cfg, s1)
  {
  }

  lemma StepChronology<K, O, R>(cfg: Config, s: State<K, O, R>, ev: Event<K, O, R>)
    requires Chronological(cfg, s) && Enabled(s, ev)
    ensures Chronological(cfg, Step(cfg, s, ev))
  {
    match ev
    case Process(now) => NotDueStaysSorted(s.retryQueue, now, s.clock + cfg.retryInterval);
    case Foreground(m) => AdvanceChronology(cfg, s, s.current.value, m);
    case Background(k, m) => AdvanceChronology(cfg, s, s.tasks[k], m);
    case _ =>
  }

  /** Each order of a list charged with one more try (`retryCount++`). */
  function Charged<K, O>(q: seq<ProcessOrder<K, O>>): (r: seq<ProcessOrder<K, O>>)
    ensures |r| == |q|
  {
    if q == [] then [] else [q[0].(retryCount := q[0].retryCount + 1)] + Charged(q[1..])
  }

  /** Stopping the scan of a sorted queue at the first order that is not due misses no due order. */
  lemma {:induction false} PrefixIsExact<K, O>(q: seq<ProcessOrder<K, O>>, k: nat, now: int)
    requires k <= |q| && SortedByTime(q)
    requires forall i :: 0 <= i < k ==> q[i].retryAt <= now
    requires k < |q| ==> now < q[k].retryAt
    ensures Due(q, now) == Charged(q[..k])
    ensures NotDue(q, now) == q[k..]
  {
    if q != [] {
      if k > 0 {
        PrefixIsExact(q[1..], k - 1, now);
        assert q[..k][1..] == q[1..][..k - 1];
      } else {
        NoneDue(q, now);
      }
    }
  }

  lemma {:induction false} NoneDue<K, O>(q: seq<ProcessOrder<K, O>>, now: int)
    requires forall i :: 0 <= i < |q| ==> now < q[i].retryAt
    ensures Due(q, now) == [] && NotDue(q, now) == q
  {
    if q != [] {
      NoneDue(q[1..], now);
    }
  }

  // ---------------------------------------------------------------------------------------------
  // With limit 1 the queue is first-in-first-out
  // ---------------------------------------------------------------------------------------------

  /** Finished orders, then the one live order, then the waiting ones: the order of arrival. */
  ghost predicate InOrder<K, O, R>(s: State<K, O, R>) {
    LogIds(s.log) + Live(s) + RefIds(Waiting(s)) == s.queued
  }

  /** Finishing or keeping the only live order leaves the line as it is. */
  lemma AdvanceKeepsLine<K, O, R>(cfg: Config, s: State<K, O, R>, t: Task<K, O, R>, m: Move<O, R>)
    requires MoveEnabled(t.phase, m) && s.retryQueue == []
    ensures var (s1, t1) := Advance(cfg, s, t, m);
            LogIds(s1.log) + (if t1.Some? then [t1.value.po.order.id] else []) + PoIds(s1.retryQueue)
            == LogIds(s.log) + [t.po.order.id]
  {
  }

  lemma NextKeepsLine<K, O, R>(cfg: Config, s: State<K, O, R>)
    requires Shape(s) && InOrder(s) && s.main.Running? && s.current.None?
    requires cfg.maxConcurrent == Some(1) && LiveTotal(s) <= 1
    ensures InOrder(TakeNext(cfg, s))
  {
    var s1 := TakeNext(cfg, s);
    if s.main.retries != [] {
      assert Live(s) == [s.main.retries[0].order.id];
      assert Live(s1) == [s.main.retries[0].order.id];
    } else if s1.main.Running? {
      CheckIsSafe(cfg, s);
      var order := s.newQueue[s.main.next];
      assert Waiting(s) == [order] + Waiting(s1);
      assert Live(s) == [] && Live(s1) == [order.id];
      assert RefIds(Waiting(s)) == [order.id] + RefIds(Waiting(s1));
    } else {
      assert Live(s1) == Live(s);
    }
  }

  lemma ProcessKeepsLine<K, O, R>(cfg: Config, s: State<K, O, R>, now: int)
    requires InOrder(s) && s.main.Idle? && LiveTotal(s) <= 1
    ensures InOrder(StartProcessing(cfg, s, now))
  {
    var s1 := StartProcessing(cfg, s, now);
    assert s.newQueue[0..] == s.newQueue;
    DueLength(s.retryQueue, now);
    if |s.retryQueue| == 1 {
      var po := s.retryQueue[0];
      assert s.retryQueue == [po];
      assert Live(s) == [po.order.id] && Live(s1) == [po.order.id];
    } else {
      assert Live(s1) == Live(s);
    }
  }

  /** The only live order moved on: it is still suspended, or retrying, or the last one finished. */
  lemma MovedOnKeepsLine<K, O, R>(s: State<K, O, R>, s1: State<K, O, R>, s2: State<K, O, R>, id: K, left: seq<K>)
    requires InOrder(s) && Live(s) == [id]
    requires LogIds(s1.log) + left == LogIds(s.log) + [id]
    requires s2.log == s1.log && Live(s2) == left && Waiting(s2) == Waiting(s) && s2.queued == s.queued
    ensures InOrder(s2)
  {
  }

  lemma BackgroundKeepsLine<K, O, R>(cfg: Config, s: State<K, O, R>, k: nat, m: Move<O, R>)
    requires InOrder(s) && LiveTotal(s) <= 1 && k < |s.tasks| && MoveEnabled(s.tasks[k].phase, m)
    ensures InOrder(InBackground(cfg, s, k, m))
  {
    var id := s.tasks[k].po.order.id;
    var (s1, t1) := Advance(cfg, s, s.tasks[k], m);
    AdvanceFrame(cfg, s, s.tasks[k], m);
    AdvanceKeepsLine(cfg, s, s.tasks[k], m);
    LoneTask(s, k);
    PutBackLoneTask(s, s1, k, t1);
    MovedOnKeepsLine(s, s1, PutBack(s1, k, t1), id, (if t1.Some? then [id] else []) + PoIds(s1.retryQueue));
  }

  lemma LoneTask<K, O, R>(s: State<K, O, R>, k: nat)
    requires LiveTotal(s) <= 1 && k < |s.tasks|
    ensures s.retryQueue == [] && Retries(s) == [] && s.current.None? && s.tasks == [s.tasks[k]]
    ensures Live(s) == [s.tasks[k].po.order.id]
  {
  }

  lemma PutBackLoneTask<K, O, R>(s: State<K, O, R>, s1: State<K, O, R>, k: nat, t1: Option<Task<K, O, R>>)
    requires k < |s.tasks| && s.tasks == [s.tasks[k]] && Retries(s) == [] && s.current.None?
    requires SameOutside(s, s1)
    ensures Live(PutBack(s1, k, t1)) ==
            (if t1.Some? then [t1.value.po.order.id] else []) + PoIds(s1.retryQueue)
  {
  }

  lemma ForegroundKeepsLine<K, O, R>(cfg: Config, s: State<K, O, R>, m: Move<O, R>)
    requires InOrder(s) && LiveTotal(s) <= 1 && s.current.Some? && MoveEnabled(s.current.value.phase, m)
    ensures InOrder(InForeground(cfg, s, s.current.value, m))
  {
    var id := s.current.value.po.order.id;
    var (s1, t1) := Advance(cfg, s, s.current.value, m);
    AdvanceFrame(cfg, s, s.current.value, m);
    AdvanceKeepsLine(cfg, s, s.current.value, m);
    LoneCurrent(s);
    SwapLoneCurrent(s, s1, t1);
    MovedOnKeepsLine(s, s1, s1.(current := t1), id, (if t1.Some? then [id] else []) + PoIds(s1.retryQueue));
  }

  lemma LoneCurrent<K, O, R>(s: State<K, O, R>)
    requires LiveTotal(s) <= 1 && s.current.Some?
    ensures s.retryQueue == [] && Retries(s) == [] && s.tasks == []
    ensures Live(s) == [s.current.value.po.order.id]
  {
  }

  lemma SwapLoneCurrent<K, O, R>(s: State<K, O, R>, s1: State<K, O, R>, t1: Option<Task<K, O, R>>)
    requires Retries(s) == [] && s.tasks == [] && SameOutside(s, s1)
    ensures Live(s1.(current := t1)) ==
            (if t1.Some? then [t1.value.po.order.id] else []) + PoIds(s1.retryQueue)
  {
  }

  lemma StepFifo<K, O, R>(cfg: Config, s: State<K, O, R>, ev: Event<K, O, R>)
    requires cfg.maxConcurrent == Some(1)
    requires Shape(s) && WithinCapacity(cfg, s) && InOrder(s) && Enabled(s, ev)
    ensures InOrder(Step(cfg, s, ev))
  {
    match ev
    case AddBegin(_) =>
    case AddEnd(k, val) =>
      var s1 := EndAdd(s, k, val);
      assert Waiting(s1) == Waiting(s) + [s.initialising[k].(val := val)];
      RefIdsSnoc(Waiting(s), s.initialising[k].(val := val));
      assert Live(s1) == Live(s);
    case Process(now) => ProcessKeepsLine(cfg, s, now);
    case Next => NextKeepsLine(cfg, s);
    case HandlerDone(how) =>
      var s1 := HandlerReturns(s, s.current.value, how);
      LoneCurrent(s);
      assert Live(s1) == [s.current.value.po.order.id];
    case Foreground(m) => ForegroundKeepsLine(cfg, s, m);
    case Background(k, m) => BackgroundKeepsLine(cfg, s, k, m);
    case Decrement =>
    case Flush =>
  }
}
