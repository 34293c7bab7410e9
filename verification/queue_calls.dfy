/** How often `handleOrder` is called: every call is charged to one try of one order. */
module QueueCalls {
  import opened Common
  import opened Queue
  import opened QueueConservation
  import opened QueueBounds

  datatype Charge<+K> = Charge(id: K, tries: nat)

  /** The total number of tries charged to x. */
  ghost function Weigh<K>(s: seq<Charge<K>>, x: K): nat {
    if s == [] then 0 else (if s[0].id == x then s[0].tries else 0) + Weigh(s[1..], x)
  }

  lemma {:induction false} WeighAppend<K>(a: seq<Charge<K>>, b: seq<Charge<K>>, x: K)
    ensures Weigh(a + b, x) == Weigh(a, x) + Weigh(b, x)
  {
    if a == [] {
      assert a + b == b;
    } else {
      assert (a + b)[1..] == a[1..] + b;
      WeighAppend(a[1..], b, x);
    }
  }

  lemma WeighOne<K>(c: Charge<K>, x: K)
    ensures Weigh([c], x) == if c.id == x then c.tries else 0
  {
  }

  lemma WeighWithout<K>(s: seq<Charge<K>>, k: nat, x: K)
    requires k < |s|
    ensures Weigh(s, x) == Weigh(Without(s, k), x) + if s[k].id == x then s[k].tries else 0
  {
    assert s == s[..k] + s[k..] && s[k..][1..] == s[k + 1..];
    WeighAppend(s[..k], s[k..], x);
    WeighAppend(s[..k], s[k + 1..], x);
  }

  function Ids<K>(s: seq<Charge<K>>): (r: seq<K>)
    ensures |r| == |s| && forall i :: 0 <= i < |s| ==> r[i] == s[i].id
  {
    seq(|s|, i requires 0 <= i < |s| => s[i].id)
  }

  lemma OneMore(n: nat, c: nat)
    ensures n * (c + 1) == n * c + n
  {
  }

  lemma {:induction false} WeighBound<K>(s: seq<Charge<K>>, n: nat, x: K)
    requires forall i :: 0 <= i < |s| ==> s[i].tries <= n
    ensures Weigh(s, x) <= n * Count(Ids(s), x)
  {
    if s != [] {
      WeighBound(s[1..], n, x);
      assert Ids(s)[1..] == Ids(s[1..]);
      OneMore(n, Count(Ids(s[1..]), x));
    }
  }

  /** Orders whose current try has been handled, or is being handled. */
  function PoCharges<K, O>(q: seq<ProcessOrder<K, O>>): (r: seq<Charge<K>>)
    ensures |r| == |q| && forall i :: 0 <= i < |q| ==> r[i] == Charge(q[i].order.id, q[i].retryCount + 1)
  {
    seq(|q|, i requires 0 <= i < |q| => Charge(q[i].order.id, q[i].retryCount + 1))
  }

  /** Orders picked for another try that has not started: `retryCount` is already one up. */
  function RetryCharges<K, O>(q: seq<ProcessOrder<K, O>>): (r: seq<Charge<K>>)
    ensures |r| == |q| && forall i :: 0 <= i < |q| ==> r[i] == Charge(q[i].order.id, q[i].retryCount)
  {
    seq(|q|, i requires 0 <= i < |q| => Charge(q[i].order.id, q[i].retryCount))
  }

  function TaskCharges<K, O, R>(q: seq<Task<K, O, R>>): (r: seq<Charge<K>>)
    ensures |r| == |q| && forall i :: 0 <= i < |q| ==> r[i] == Charge(q[i].po.order.id, q[i].po.retryCount + 1)
  {
    seq(|q|, i requires 0 <= i < |q| => Charge(q[i].po.order.id, q[i].po.retryCount + 1))
  }

  function LogCharges<K>(l: seq<Finish<K>>): (r: seq<Charge<K>>)
    ensures |r| == |l| && forall i :: 0 <= i < |l| ==> r[i] == Charge(l[i].id, l[i].tries)
  {
    seq(|l|, i requires 0 <= i < |l| => Charge(l[i].id, l[i].tries))
  }

  ghost function CurrentSpent<K, O, R>(s: State<K, O, R>, x: K): nat {
    if s.current.Some? && s.current.value.po.order.id == x then s.current.value.po.retryCount + 1 else 0
  }

  /** All tries of x accounted for by the queue and its history. */
  ghost function Spent<K, O, R>(s: State<K, O, R>, x: K): nat {
    Weigh(RetryCharges(Retries(s)), x) + CurrentSpent(s, x) + Weigh(TaskCharges(s.tasks), x)
    + Weigh(PoCharges(s.retryQueue), x) + Weigh(LogCharges(s.log), x)
  }

  lemma PoChargeSnoc<K, O>(q: seq<ProcessOrder<K, O>>, po: ProcessOrder<K, O>, x: K)
    ensures Weigh(PoCharges(q + [po]), x) == Weigh(PoCharges(q), x) + if po.order.id == x then po.retryCount + 1 else 0
  {
    var c := Charge(po.order.id, po.retryCount + 1);
    assert PoCharges(q + [po]) == PoCharges(q) + [c];
    WeighAppend(PoCharges(q), [c], x);
    WeighOne(c, x);
  }

  lemma LogChargeSnoc<K>(l: seq<Finish<K>>, f: Finish<K>, x: K)
    ensures Weigh(LogCharges(l + [f]), x) == Weigh(LogCharges(l), x) + if f.id == x then f.tries else 0
  {
    assert LogCharges(l + [f]) == LogCharges(l) + [Charge(f.id, f.tries)];
    WeighAppend(LogCharges(l), [Charge(f.id, f.tries)], x);
    WeighOne(Charge(f.id, f.tries), x);
  }

  lemma TaskChargeSnoc<K, O, R>(q: seq<Task<K, O, R>>, t: Task<K, O, R>, x: K)
    ensures Weigh(TaskCharges(q + [t]), x) ==
            Weigh(TaskCharges(q), x) + if t.po.order.id == x then t.po.retryCount + 1 else 0
  {
    var c := Charge(t.po.order.id, t.po.retryCount + 1);
    assert TaskCharges(q + [t]) == TaskCharges(q) + [c];
    WeighAppend(TaskCharges(q), [c], x);
    WeighOne(c, x);
  }

  /** Picking the due orders turns handled tries into granted ones. */
  lemma {:induction false} DueCharges<K, O>(q: seq<ProcessOrder<K, O>>, now: int, x: K)
    ensures Weigh(PoCharges(q), x) == Weigh(RetryCharges(Due(q, now)), x) + Weigh(PoCharges(NotDue(q, now)), x)
  {
    if q != [] {
      var po, rest := q[0], q[1..];
      var c := Charge(po.order.id, po.retryCount + 1);
      DueCharges(rest, now, x);
      assert PoCharges(q) == [c] + PoCharges(rest);
      WeighAppend([c], PoCharges(rest), x);
      if po.retryAt <= now {
        DueHead(po.(retryCount := po.retryCount + 1), Due(rest, now), x);
      } else {
        NotDueHead(po, NotDue(rest, now), x);
      }
      WeighOne(c, x);
    }
  }

  lemma DueHead<K, O>(po: ProcessOrder<K, O>, rest: seq<ProcessOrder<K, O>>, x: K)
    ensures Weigh(RetryCharges([po] + rest), x) ==
            (if po.order.id == x then po.retryCount else 0) + Weigh(RetryCharges(rest), x)
  {
    assert RetryCharges([po] + rest) == [Charge(po.order.id, po.retryCount)] + RetryCharges(rest);
    WeighAppend([Charge(po.order.id, po.retryCount)], RetryCharges(rest), x);
    WeighOne(Charge(po.order.id, po.retryCount), x);
  }

  lemma NotDueHead<K, O>(po: ProcessOrder<K, O>, rest: seq<ProcessOrder<K, O>>, x: K)
    ensures Weigh(PoCharges([po] + rest), x) ==
            (if po.order.id == x then po.retryCount + 1 else 0) + Weigh(PoCharges(rest), x)
  {
    assert PoCharges([po] + rest) == [Charge(po.order.id, po.retryCount + 1)] + PoCharges(rest);
    WeighAppend([Charge(po.order.id, po.retryCount + 1)], PoCharges(rest), x);
    WeighOne(Charge(po.order.id, po.retryCount + 1), x);
  }

  lemma AdvanceCharges<K, O, R>(cfg: Config, s: State<K, O, R>, t: Task<K, O, R>, m: Move<O, R>, x: K)
    requires MoveEnabled(t.phase, m)
    ensures var (s1, t1) := Advance(cfg, s, t, m);
            var c := if t.po.order.id == x then t.po.retryCount + 1 else 0;
            && (t1.Some? ==> t1.value.po.order.id == t.po.order.id && t1.value.po.retryCount == t.po.retryCount)
            && Weigh(PoCharges(s1.retryQueue), x) + Weigh(LogCharges(s1.log), x) + (if t1.Some? then c else 0)
               == Weigh(PoCharges(s.retryQueue), x) + Weigh(LogCharges(s.log), x) + c
  {
    match m
    case Resolve(_) =>
    case Reject =>
    case FailureHandled(retry, val, now) =>
      PoChargeSnoc(s.retryQueue, t.po.(order := t.po.order.(val := val), retryAt := now + cfg.retryInterval), x);
    case HookDone => LogChargeSnoc(s.log, Conclude(s, t).log[|s.log|], x);
  }

  lemma PutBackCharges<K, O, R>(
    s: State<K, O, R>, s1: State<K, O, R>, k: nat, t1: Option<Task<K, O, R>>, x: K)
    requires k < |s.tasks| && SameOutside(s, s1)
    requires t1.Some? ==> t1.value.po.order.id == s.tasks[k].po.order.id
                          && t1.value.po.retryCount == s.tasks[k].po.retryCount
    requires var c := if s.tasks[k].po.order.id == x then s.tasks[k].po.retryCount + 1 else 0;
             Weigh(PoCharges(s1.retryQueue), x) + Weigh(LogCharges(s1.log), x) + (if t1.Some? then c else 0)
             == Weigh(PoCharges(s.retryQueue), x) + Weigh(LogCharges(s.log), x) + c
    ensures var s2 := PutBack(s1, k, t1); Spent(s2, x) == Spent(s, x) && s2.calls == s.calls
  {
    if t1.Some? {
      assert TaskCharges(s.tasks[k := t1.value]) == TaskCharges(s.tasks);
    } else {
      assert TaskCharges(Without(s.tasks, k)) == Without(TaskCharges(s.tasks), k);
      WeighWithout(TaskCharges(s.tasks), k, x);
    }
  }

  lemma BackgroundCharges<K, O, R>(cfg: Config, s: State<K, O, R>, k: nat, m: Move<O, R>, x: K)
    requires Enabled(s, Background(k, m))
    ensures var s1 := InBackground(cfg, s, k, m); Spent(s1, x) == Spent(s, x) && s1.calls == s.calls
  {
    var (s1, t1) := Advance(cfg, s, s.tasks[k], m);
    AdvanceFrame(cfg, s, s.tasks[k], m);
    AdvanceCharges(cfg, s, s.tasks[k], m, x);
    PutBackCharges(s, s1, k, t1, x);
  }

  lemma ForegroundCharges<K, O, R>(cfg: Config, s: State<K, O, R>, m: Move<O, R>, x: K)
    requires Enabled(s, Foreground(m))
    ensures var s1 := InForeground(cfg, s, s.current.value, m); Spent(s1, x) == Spent(s, x) && s1.calls == s.calls
  {
    AdvanceFrame(cfg, s, s.current.value, m);
    AdvanceCharges(cfg, s, s.current.value, m, x);
  }

  lemma NextCharges<K, O, R>(cfg: Config, s: State<K, O, R>, x: K)
    requires s.main.Running? && s.current.None?
    ensures var s1 := TakeNext(cfg, s);
            Spent(s1, x) - Spent(s, x) == Count(s1.calls, x) - Count(s.calls, x)
  {
    if s.main.retries != [] {
      var po := s.main.retries[0];
      assert s.main.retries == [po] + s.main.retries[1..];
      DueHead(po, s.main.retries[1..], x);
      CountSnoc(s.calls, po.order.id, x);
    } else if TakeNext(cfg, s).main.Running? {
      CountSnoc(s.calls, s.newQueue[s.main.next].id, x);
    }
  }

  lemma ProcessCharges<K, O, R>(cfg: Config, s: State<K, O, R>, now: int, x: K)
    requires s.main.Idle?
    ensures var s1 := StartProcessing(cfg, s, now); Spent(s1, x) == Spent(s, x) && s1.calls == s.calls
  {
    DueCharges(s.retryQueue, now, x);
  }

  lemma HandlerCharges<K, O, R>(s: State<K, O, R>, how: Handled<O>, x: K)
    requires Enabled(s, HandlerDone(how))
    ensures var s1 := HandlerReturns(s, s.current.value, how); Spent(s1, x) == Spent(s, x) && s1.calls == s.calls
  {
    var po := s.current.value.po;
    TaskChargeSnoc(s.tasks, Task(po.(order := po.order.(val := how.val)), InFlight), x);
  }

  /** Every handler call is one try of one order, on every step. */
  lemma StepCalls<K, O, R>(cfg: Config, s: State<K, O, R>, ev: Event<K, O, R>, x: K)
    requires Count(s.calls, x) == Spent(s, x) && Enabled(s, ev)
    ensures var s1 := Step(cfg, s, ev); Count(s1.calls, x) == Spent(s1, x)
  {
    match ev
    case Process(now) => ProcessCharges(cfg, s, now, x);
    case Next => NextCharges(cfg, s, x);
    case HandlerDone(how) => HandlerCharges(s, how, x);
    case Foreground(m) => ForegroundCharges(cfg, s, m, x);
    case Background(k, m) => BackgroundCharges(cfg, s, k, m, x);
    case _ =>
  }

  /** So no order is handled more than Tries(cfg) times for each time it was added. */
  lemma CallsBounded<K(!new), O, R>(cfg: Config, s: State<K, O, R>, x: K)
    requires Conserved(s) && WithinTries(cfg, s) && Count(s.calls, x) == Spent(s, x)
    ensures Count(s.calls, x) <= Tries(cfg) * Count(s.added, x)
  {
    SpentBounded(cfg, s, x);
    TakenWereAdded(s, x);
    ScaledBound(Count(s.calls, x), Tries(cfg), LiveCount(s, x) + Count(LogIds(s.log), x), Count(s.added, x));
  }

  lemma ScaledBound(calls: nat, n: nat, a: nat, b: nat)
    requires calls <= n * a && a <= b
    ensures calls <= n * b
  {
  }

  lemma TakenWereAdded<K(!new), O, R>(s: State<K, O, R>, x: K)
    requires Conserved(s)
    ensures LiveCount(s, x) + Count(LogIds(s.log), x) <= Count(s.added, x)
  {
    assert Placed(s, x);
    Partition(s.log[s.flushed..], x);
    LogIdsSplit(s.log, s.flushed);
    CountAppend(LogIds(s.log[..s.flushed]), LogIds(s.log[s.flushed..]), x);
  }

  lemma SpentBounded<K, O, R>(cfg: Config, s: State<K, O, R>, x: K)
    requires WithinTries(cfg, s)
    ensures Spent(s, x) <= Tries(cfg) * (LiveCount(s, x) + Count(LogIds(s.log), x))
  {
    PartsBounded(cfg, s, x);
    Distribute(Tries(cfg), Count(PoIds(Retries(s)), x), CurrentCount(s, x), Count(TaskIds(s.tasks), x),
               Count(PoIds(s.retryQueue), x), Count(LogIds(s.log), x));
  }

  lemma PartsBounded<K, O, R>(cfg: Config, s: State<K, O, R>, x: K)
    requires WithinTries(cfg, s)
    ensures Weigh(RetryCharges(Retries(s)), x) <= Tries(cfg) * Count(PoIds(Retries(s)), x)
    ensures CurrentSpent(s, x) <= Tries(cfg) * CurrentCount(s, x)
    ensures Weigh(TaskCharges(s.tasks), x) <= Tries(cfg) * Count(TaskIds(s.tasks), x)
    ensures Weigh(PoCharges(s.retryQueue), x) <= Tries(cfg) * Count(PoIds(s.retryQueue), x)
    ensures Weigh(LogCharges(s.log), x) <= Tries(cfg) * Count(LogIds(s.log), x)
  {
    var n := Tries(cfg);
    RetryChargesBounded(Retries(s), n, x);
    TaskChargesBounded(s.tasks, n, x);
    PoChargesBounded(s.retryQueue, n, x);
    LogChargesBounded(s.log, n, x);
  }

  lemma RetryChargesBounded<K, O>(q: seq<ProcessOrder<K, O>>, n: nat, x: K)
    requires forall i :: 0 <= i < |q| ==> q[i].retryCount <= n
    ensures Weigh(RetryCharges(q), x) <= n * Count(PoIds(q), x)
  {
    WeighBound(RetryCharges(q), n, x);
    assert Ids(RetryCharges(q)) == PoIds(q);
  }

  lemma TaskChargesBounded<K, O, R>(q: seq<Task<K, O, R>>, n: nat, x: K)
    requires forall i :: 0 <= i < |q| ==> q[i].po.retryCount < n
    ensures Weigh(TaskCharges(q), x) <= n * Count(TaskIds(q), x)
  {
    WeighBound(TaskCharges(q), n, x);
    assert Ids(TaskCharges(q)) == TaskIds(q);
  }

  lemma PoChargesBounded<K, O>(q: seq<ProcessOrder<K, O>>, n: nat, x: K)
    requires forall i :: 0 <= i < |q| ==> q[i].retryCount < n
    ensures Weigh(PoCharges(q), x) <= n * Count(PoIds(q), x)
  {
    WeighBound(PoCharges(q), n, x);
    assert Ids(PoCharges(q)) == PoIds(q);
  }

  lemma LogChargesBounded<K>(l: seq<Finish<K>>, n: nat, x: K)
    requires forall i :: 0 <= i < |l| ==> l[i].tries <= n
    ensures Weigh(LogCharges(l), x) <= n * Count(LogIds(l), x)
  {
    WeighBound(LogCharges(l), n, x);
    assert Ids(LogCharges(l)) == LogIds(l);
  }

  lemma Distribute(n: nat, a: nat, b: nat, c: nat, d: nat, e: nat)
    ensures n * a + n * b + n * c + n * d + n * e == n * (a + b + c + d + e)
  {
  }
}
