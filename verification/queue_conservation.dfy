/** Conservation: every order ever added is in exactly one place, and `size` counts the places. */
module QueueConservation {
  import opened Common
  import opened Queue

  predicate ForegroundPhase<R>(p: Phase<R>) {
    p.Handling? || p == Completing(None) || p.Failing? || p.Closing?
  }

  predicate BackgroundPhase<R>(p: Phase<R>) {
    !p.Handling?
  }

  ghost predicate Shape<K, O, R>(s: State<K, O, R>) {
    && (s.main.Running? ==> s.main.next <= |s.newQueue|)
    && (s.current.Some? ==> s.main.Running? && ForegroundPhase(s.current.value.phase))
    && (forall i :: 0 <= i < |s.tasks| ==> BackgroundPhase(s.tasks[i].phase))
    && s.pendingCount == |s.tasks| + s.settled
    && s.flushed <= |s.log|
  }

  /** The three result lists are exactly the part of the history not yet handed out, sorted by kind. */
  ghost predicate ListsMatchLog<K, O, R>(s: State<K, O, R>)
    requires s.flushed <= |s.log|
  {
    && RefIds(s.completed) == Select(s.log[s.flushed..], Completed)
    && RefIds(s.skipped) == Select(s.log[s.flushed..], Skipped)
    && RefIds(s.rejected) == Select(s.log[s.flushed..], Rejected)
  }

  function HandedOut<K, O, R>(s: State<K, O, R>): seq<K> {
    if s.flushed <= |s.log| then LogIds(s.log[..s.flushed]) else []
  }

  ghost function CurrentCount<K, O, R>(s: State<K, O, R>, x: K): nat {
    if s.current.Some? && s.current.value.po.order.id == x then 1 else 0
  }

  /** How often x stands among the orders taken and not finished. */
  ghost function LiveCount<K, O, R>(s: State<K, O, R>, x: K): nat {
    Count(PoIds(Retries(s)), x) + CurrentCount(s, x)
    + Count(TaskIds(s.tasks), x) + Count(PoIds(s.retryQueue), x)
  }

  ghost function FinishedCount<K, O, R>(s: State<K, O, R>, x: K): nat {
    Count(RefIds(s.completed), x) + Count(RefIds(s.skipped), x) + Count(RefIds(s.rejected), x)
  }

  /** How often x stands in the queue as a whole. */
  ghost function Census<K, O, R>(s: State<K, O, R>, x: K): nat {
    Count(RefIds(s.initialising), x) + Count(RefIds(Waiting(s)), x) + LiveCount(s, x) + FinishedCount(s, x)
  }

  lemma CensusCountsPlaces<K, O, R>(s: State<K, O, R>, x: K)
    ensures Count(Places(s), x) == Census(s, x)
  {
    var w := RefIds(s.initialising) + RefIds(Waiting(s));
    CountAppend(RefIds(s.initialising), RefIds(Waiting(s)), x);
    CountAppend(w, Live(s), x);
    CountAppend(Unfinished(s), Finished(s), x);
    CountAppend(PoIds(Retries(s)), CurrentIds(s), x);
    CountAppend(PoIds(Retries(s)) + CurrentIds(s), TaskIds(s.tasks), x);
    CountAppend(PoIds(Retries(s)) + CurrentIds(s) + TaskIds(s.tasks), PoIds(s.retryQueue), x);
    CountAppend(RefIds(s.completed), RefIds(s.skipped), x);
    CountAppend(RefIds(s.completed) + RefIds(s.skipped), RefIds(s.rejected), x);
  }

  function FinishedTotal<K, O, R>(s: State<K, O, R>): nat {
    |s.completed| + |s.skipped| + |s.rejected|
  }

  function Total<K, O, R>(s: State<K, O, R>): nat {
    |s.initialising| + |Waiting(s)| + |Retries(s)| + (if s.current.Some? then 1 else 0)
    + |s.tasks| + |s.retryQueue| + FinishedTotal(s)
  }

  lemma TotalCountsPlaces<K, O, R>(s: State<K, O, R>)
    ensures Total(s) == |Places(s)|
  {
  }

  /** x stands in the queue or has been handed out, once for each time it was added. */
  ghost predicate Placed<K, O, R>(s: State<K, O, R>, x: K) {
    Count(s.added, x) == Census(s, x) + Count(HandedOut(s), x)
  }

  ghost predicate Conserved<K(!new), O, R>(s: State<K, O, R>) {
    && Shape(s)
    && ListsMatchLog(s)
    && s.size == |Places(s)|
    && forall x :: Placed(s, x)
  }

  // -- lists of orders under push, splice and rewrite --------------------------------------------

  lemma RefIdsSnoc<K, V>(s: seq<Ref<K, V>>, r: Ref<K, V>)
    ensures RefIds(s + [r]) == RefIds(s) + [r.id]
  {
  }

  lemma RefSnoc<K, V>(s: seq<Ref<K, V>>, r: Ref<K, V>, x: K)
    ensures Count(RefIds(s + [r]), x) == Count(RefIds(s), x) + if r.id == x then 1 else 0
  {
    assert RefIds(s + [r]) == RefIds(s) + [r.id];
    CountSnoc(RefIds(s), r.id, x);
  }

  lemma PoSnoc<K, O>(s: seq<ProcessOrder<K, O>>, po: ProcessOrder<K, O>, x: K)
    ensures Count(PoIds(s + [po]), x) == Count(PoIds(s), x) + if po.order.id == x then 1 else 0
  {
    assert PoIds(s + [po]) == PoIds(s) + [po.order.id];
    CountSnoc(PoIds(s), po.order.id, x);
  }

  lemma TaskSnoc<K, O, R>(s: seq<Task<K, O, R>>, t: Task<K, O, R>, x: K)
    ensures Count(TaskIds(s + [t]), x) == Count(TaskIds(s), x) + if t.po.order.id == x then 1 else 0
  {
    assert TaskIds(s + [t]) == TaskIds(s) + [t.po.order.id];
    CountSnoc(TaskIds(s), t.po.order.id, x);
  }

  lemma TaskUpdate<K, O, R>(s: seq<Task<K, O, R>>, k: nat, t: Task<K, O, R>)
    requires k < |s| && t.po.order.id == s[k].po.order.id
    ensures TaskIds(s[k := t]) == TaskIds(s)
  {
  }

  lemma TaskWithout<K, O, R>(s: seq<Task<K, O, R>>, k: nat, x: K)
    requires k < |s|
    ensures Count(TaskIds(s), x) == Count(TaskIds(Without(s, k)), x) + if s[k].po.order.id == x then 1 else 0
  {
    assert TaskIds(Without(s, k)) == Without(TaskIds(s), k);
    CountWithout(TaskIds(s), k, x);
  }

  lemma RefWithout<K, V>(s: seq<Ref<K, V>>, k: nat, x: K)
    requires k < |s|
    ensures Count(RefIds(s), x) == Count(RefIds(Without(s, k)), x) + if s[k].id == x then 1 else 0
  {
    assert RefIds(Without(s, k)) == Without(RefIds(s), k);
    CountWithout(RefIds(s), k, x);
  }

  /** Splitting a retry queue into due and not due loses nothing. */
  lemma {:induction false} DueSplits<K, O>(q: seq<ProcessOrder<K, O>>, now: int, x: K)
    ensures Count(PoIds(q), x) == Count(PoIds(Due(q, now)), x) + Count(PoIds(NotDue(q, now)), x)
  {
    if q != [] {
      var rest := q[1..];
      DueSplits(rest, now, x);
      assert q == [q[0]] + rest;
      PoCons(q[0], rest, x);
      PoCons(q[0].(retryCount := q[0].retryCount + 1), Due(rest, now), x);
      PoCons(q[0], NotDue(rest, now), x);
    }
  }

  lemma {:induction false} DueLength<K, O>(q: seq<ProcessOrder<K, O>>, now: int)
    ensures |q| == |Due(q, now)| + |NotDue(q, now)|
  {
    if q != [] {
      DueLength(q[1..], now);
    }
  }

  lemma RefCons<K, V>(r: Ref<K, V>, s: seq<Ref<K, V>>, x: K)
    ensures Count(RefIds([r] + s), x) == Count(RefIds(s), x) + if r.id == x then 1 else 0
  {
    assert RefIds([r] + s) == [r.id] + RefIds(s);
    CountAppend([r.id], RefIds(s), x);
  }

  lemma PoCons<K, O>(po: ProcessOrder<K, O>, s: seq<ProcessOrder<K, O>>, x: K)
    ensures Count(PoIds([po] + s), x) == Count(PoIds(s), x) + if po.order.id == x then 1 else 0
  {
    assert PoIds([po] + s) == [po.order.id] + PoIds(s);
    CountAppend([po.order.id], PoIds(s), x);
  }

  // -- the history and the three lists -----------------------------------------------------------

  lemma {:induction false} Partition<K>(l: seq<Finish<K>>, x: K)
    ensures Count(LogIds(l), x) ==
            Count(Select(l, Completed), x) + Count(Select(l, Skipped), x) + Count(Select(l, Rejected), x)
    ensures |l| == |Select(l, Completed)| + |Select(l, Skipped)| + |Select(l, Rejected)|
  {
    if l != [] {
      var rest, last := l[..|l| - 1], l[|l| - 1];
      Partition(rest, x);
      assert LogIds(l) == LogIds(rest) + [last.id];
      CountSnoc(LogIds(rest), last.id, x);
      assert l == rest + [last];
      SelectSnoc(rest, last, Completed);
      SelectSnoc(rest, last, Skipped);
      SelectSnoc(rest, last, Rejected);
      CountSnoc(Select(rest, last.outcome), last.id, x);
    }
  }

  lemma LogIdsSplit<K>(l: seq<Finish<K>>, k: nat)
    requires k <= |l|
    ensures l[..|l|] == l && LogIds(l) == LogIds(l[..k]) + LogIds(l[k..])
  {
  }

  lemma SelectSnoc<K>(l: seq<Finish<K>>, f: Finish<K>, o: Outcome)
    ensures Select(l + [f], o) == if f.outcome == o then Select(l, o) + [f.id] else Select(l, o)
  {
  }

  lemma TailSnoc<T>(l: seq<T>, k: nat, f: T)
    requires k <= |l|
    ensures (l + [f])[k..] == l[k..] + [f] && (l + [f])[..k] == l[..k]
  {
  }

  lemma ListGrows<K, V>(list: seq<Ref<K, V>>, tail: seq<Finish<K>>, f: Finish<K>, o: Outcome, r: Ref<K, V>)
    requires RefIds(list) == Select(tail, o) && r.id == f.id
    ensures RefIds(if f.outcome == o then list + [r] else list) == Select(tail + [f], o)
  {
  }

  /** Finishing an order extends exactly one list, and the history with it. */
  lemma ConcludeLists<K, O, R>(s: State<K, O, R>, t: Task<K, O, R>)
    requires t.phase.Completing? || t.phase.Closing?
    requires s.flushed <= |s.log| && ListsMatchLog(s)
    ensures var s1 := Conclude(s, t);
            && s1.flushed == s.flushed <= |s1.log| && ListsMatchLog(s1) && HandedOut(s1) == HandedOut(s)
            && FinishedTotal(s1) == FinishedTotal(s) + 1
  {
    var tail, f := s.log[s.flushed..], Conclude(s, t).log[|s.log|];
    TailSnoc(s.log, s.flushed, f);
    if t.phase.Completing? && t.phase.result.Some? {
      ListGrows(s.completed, tail, f, Completed, Ref(f.id, t.phase.result.value));
    } else {
      SelectSnoc(tail, f, Completed);
    }
    ListGrows(s.skipped, tail, f, Skipped, t.po.order);
    ListGrows(s.rejected, tail, f, Rejected, t.po.order);
  }

  lemma ConcludeCounts<K, O, R>(s: State<K, O, R>, t: Task<K, O, R>, x: K)
    requires t.phase.Completing? || t.phase.Closing?
    ensures FinishedCount(Conclude(s, t), x) == FinishedCount(s, x) + if t.po.order.id == x then 1 else 0
  {
    match t.phase
    case Completing(Some(r)) => RefSnoc(s.completed, Ref(t.po.order.id, r), x);
    case Closing(true) => RefSnoc(s.rejected, t.po.order, x);
    case _ => RefSnoc(s.skipped, t.po.order, x);
  }

  // -- every step -------------------------------------------------------------------------------

  ghost predicate SameOutside<K, O, R>(s: State<K, O, R>, s1: State<K, O, R>) {
    && s1.size == s.size && s1.newQueue == s.newQueue && s1.pendingCount == s.pendingCount
    && s1.initialising == s.initialising && s1.main == s.main && s1.current == s.current
    && s1.tasks == s.tasks && s1.settled == s.settled
    && s1.added == s.added && s1.queued == s.queued && s1.calls == s.calls && s1.flushed == s.flushed
  }

  /** A continuation touches only the retry queue, the three lists, the history and the clock. */
  lemma AdvanceFrame<K, O, R>(cfg: Config, s: State<K, O, R>, t: Task<K, O, R>, m: Move<O, R>)
    requires MoveEnabled(t.phase, m)
    ensures var (s1, t1) := Advance(cfg, s, t, m);
            && SameOutside(s, s1)
            && (t1.Some? ==> t1.value.po.order.id == t.po.order.id && BackgroundPhase(t1.value.phase)
                             && (ForegroundPhase(t.phase) ==> ForegroundPhase(t1.value.phase)))
  {
  }

  /** The order it is about is afterwards still suspended, or retrying, or on one list. */
  lemma AdvanceCounts<K, O, R>(cfg: Config, s: State<K, O, R>, t: Task<K, O, R>, m: Move<O, R>, x: K)
    requires MoveEnabled(t.phase, m)
    ensures var (s1, t1) := Advance(cfg, s, t, m);
            Count(PoIds(s1.retryQueue), x) + FinishedCount(s1, x) + (if t1.Some? && t.po.order.id == x then 1 else 0)
            == Count(PoIds(s.retryQueue), x) + FinishedCount(s, x) + (if t.po.order.id == x then 1 else 0)
  {
    match m
    case Resolve(_) =>
    case Reject =>
    case FailureHandled(retry, val, now) =>
      var po := t.po.(order := t.po.order.(val := val), retryAt := now + cfg.retryInterval);
      PoSnoc(s.retryQueue, po, x);
    case HookDone => ConcludeCounts(s, t, x);
  }

  lemma AdvanceLists<K, O, R>(cfg: Config, s: State<K, O, R>, t: Task<K, O, R>, m: Move<O, R>)
    requires MoveEnabled(t.phase, m)
    requires s.flushed <= |s.log| && ListsMatchLog(s)
    ensures var (s1, t1) := Advance(cfg, s, t, m);
            && s1.flushed == s.flushed <= |s1.log| && ListsMatchLog(s1) && HandedOut(s1) == HandedOut(s)
            && |s1.retryQueue| + FinishedTotal(s1) + (if t1.Some? then 1 else 0)
               == |s.retryQueue| + FinishedTotal(s) + 1
  {
    if m.HookDone? {
      ConcludeLists(s, t);
    }
  }

  lemma AdvanceKeepsHandedOut<K, O, R>(cfg: Config, s: State<K, O, R>, t: Task<K, O, R>, m: Move<O, R>)
    requires MoveEnabled(t.phase, m) && s.flushed <= |s.log|
    ensures var (s1, _) := Advance(cfg, s, t, m); HandedOut(s1) == HandedOut(s)
  {
  }

  lemma StepShape<K, O, R>(cfg: Config, s: State<K, O, R>, ev: Event<K, O, R>)
    requires Shape(s) && Enabled(s, ev)
    ensures Shape(Step(cfg, s, ev))
  {
    match ev
    case Foreground(m) => AdvanceFrame(cfg, s, s.current.value, m);
    case Background(k, m) => AdvanceFrame(cfg, s, s.tasks[k], m);
    case _ =>
  }

  lemma StepLists<K, O, R>(cfg: Config, s: State<K, O, R>, ev: Event<K, O, R>)
    requires Shape(s) && ListsMatchLog(s) && Enabled(s, ev)
    ensures var s1 := Step(cfg, s, ev);
            && s1.flushed <= |s1.log| && ListsMatchLog(s1)
            && (!ev.Flush? ==> HandedOut(s1) == HandedOut(s) && s1.flushed == s.flushed)
  {
    match ev
    case Foreground(m) => AdvanceLists(cfg, s, s.current.value, m);
    case Background(k, m) => AdvanceLists(cfg, s, s.tasks[k], m);
    case _ =>
  }

  lemma StepSize<K, O, R>(cfg: Config, s: State<K, O, R>, ev: Event<K, O, R>)
    requires Shape(s) && ListsMatchLog(s) && Enabled(s, ev)
    ensures var s1 := Step(cfg, s, ev); s1.size - s.size == Total(s1) - Total(s)
  {
    match ev
    case Process(now) => ProcessSize(cfg, s, now);
    case Foreground(m) =>
      AdvanceFrame(cfg, s, s.current.value, m);
      AdvanceLists(cfg, s, s.current.value, m);
    case Background(k, m) => BackgroundSize(cfg, s, k, m);
    case _ =>
  }

  lemma ProcessSize<K, O, R>(cfg: Config, s: State<K, O, R>, now: int)
    requires s.main.Idle?
    ensures var s1 := StartProcessing(cfg, s, now); s1.size == s.size && Total(s1) == Total(s)
  {
    DueLength(s.retryQueue, now);
  }

  lemma BackgroundSize<K, O, R>(cfg: Config, s: State<K, O, R>, k: nat, m: Move<O, R>)
    requires Shape(s) && ListsMatchLog(s) && Enabled(s, Background(k, m))
    ensures var s1 := InBackground(cfg, s, k, m); s1.size == s.size && Total(s1) == Total(s)
  {
    AdvanceFrame(cfg, s, s.tasks[k], m);
    AdvanceLists(cfg, s, s.tasks[k], m);
  }

  lemma StepCounts<K, O, R>(cfg: Config, s: State<K, O, R>, ev: Event<K, O, R>, x: K)
    requires Shape(s) && ListsMatchLog(s) && Enabled(s, ev)
    ensures var s1 := Step(cfg, s, ev);
            Count(s1.added, x) - Count(s.added, x)
            == Census(s1, x) + Count(HandedOut(s1), x) - Census(s, x) - Count(HandedOut(s), x)
  {
    match ev
    case AddBegin(order) =>
      RefSnoc(s.initialising, order, x);
      CountSnoc(s.added, order.id, x);
    case AddEnd(k, val) => AddEndCounts(s, k, val, x);
    case Process(now) => ProcessCounts(cfg, s, now, x);
    case Next => NextCounts(cfg, s, x);
    case HandlerDone(how) => HandlerCounts(s, how, x);
    case Foreground(m) => ForegroundCounts(cfg, s, m, x);
    case Background(k, m) => BackgroundCounts(cfg, s, k, m, x);
    case Decrement =>
    case Flush => FlushCounts(s, x);
  }

  lemma AddEndCounts<K, O, R>(s: State<K, O, R>, k: nat, val: O, x: K)
    requires Shape(s) && k < |s.initialising|
    ensures var s1 := EndAdd(s, k, val);
            Census(s1, x) == Census(s, x) && HandedOut(s1) == HandedOut(s) && s1.added == s.added
  {
    var order := s.initialising[k].(val := val);
    RefWithout(s.initialising, k, x);
    assert Waiting(EndAdd(s, k, val)) == Waiting(s) + [order];
    RefSnoc(Waiting(s), order, x);
  }

  lemma ProcessCounts<K, O, R>(cfg: Config, s: State<K, O, R>, now: int, x: K)
    requires s.main.Idle?
    ensures var s1 := StartProcessing(cfg, s, now);
            Census(s1, x) == Census(s, x) && HandedOut(s1) == HandedOut(s) && s1.added == s.added
  {
    DueSplits(s.retryQueue, now, x);
    assert s.newQueue[0..] == s.newQueue;
  }

  lemma NextCounts<K, O, R>(cfg: Config, s: State<K, O, R>, x: K)
    requires Shape(s) && s.main.Running? && s.current.None?
    ensures var s1 := TakeNext(cfg, s);
            Census(s1, x) == Census(s, x) && HandedOut(s1) == HandedOut(s) && s1.added == s.added
  {
    var s1 := TakeNext(cfg, s);
    if s.main.retries != [] {
      assert s.main.retries == [s.main.retries[0]] + s.main.retries[1..];
      PoCons(s.main.retries[0], s.main.retries[1..], x);
    } else if s1.main.Running? {
      var order := s.newQueue[s.main.next];
      assert Waiting(s) == [order] + Waiting(s1);
      RefCons(order, Waiting(s1), x);
    }
  }

  lemma HandlerCounts<K, O, R>(s: State<K, O, R>, how: Handled<O>, x: K)
    requires Shape(s) && Enabled(s, HandlerDone(how))
    ensures var s1 := HandlerReturns(s, s.current.value, how);
            Census(s1, x) == Census(s, x) && HandedOut(s1) == HandedOut(s) && s1.added == s.added
  {
    var po := s.current.value.po;
    TaskSnoc(s.tasks, Task(po.(order := po.order.(val := how.val)), InFlight), x);
  }

  lemma ForegroundCounts<K, O, R>(cfg: Config, s: State<K, O, R>, m: Move<O, R>, x: K)
    requires Shape(s) && Enabled(s, Foreground(m))
    ensures var s1 := InForeground(cfg, s, s.current.value, m);
            Census(s1, x) == Census(s, x) && HandedOut(s1) == HandedOut(s) && s1.added == s.added
  {
    AdvanceFrame(cfg, s, s.current.value, m);
    AdvanceKeepsHandedOut(cfg, s, s.current.value, m);
    AdvanceCounts(cfg, s, s.current.value, m, x);
  }

  lemma PutBackCounts<K, O, R>(
    s: State<K, O, R>, s1: State<K, O, R>, k: nat, t1: Option<Task<K, O, R>>, id: K, x: K)
    requires k < |s.tasks| && id == s.tasks[k].po.order.id && SameOutside(s, s1)
    requires t1.Some? ==> t1.value.po.order.id == id
    requires Count(PoIds(s1.retryQueue), x) + FinishedCount(s1, x) + (if t1.Some? && id == x then 1 else 0)
             == Count(PoIds(s.retryQueue), x) + FinishedCount(s, x) + (if id == x then 1 else 0)
    ensures var s2 := PutBack(s1, k, t1); Census(s2, x) == Census(s, x) && s2.added == s.added
  {
    if t1.Some? {
      TaskUpdate(s.tasks, k, t1.value);
    } else {
      TaskWithout(s.tasks, k, x);
    }
  }

  lemma BackgroundCounts<K, O, R>(cfg: Config, s: State<K, O, R>, k: nat, m: Move<O, R>, x: K)
    requires Shape(s) && Enabled(s, Background(k, m))
    ensures var s1 := InBackground(cfg, s, k, m);
            Census(s1, x) == Census(s, x) && HandedOut(s1) == HandedOut(s) && s1.added == s.added
  {
    var t := s.tasks[k];
    var (s1, t1) := Advance(cfg, s, t, m);
    AdvanceFrame(cfg, s, t, m);
    AdvanceKeepsHandedOut(cfg, s, t, m);
    AdvanceCounts(cfg, s, t, m, x);
    PutBackCounts(s, s1, k, t1, t.po.order.id, x);
  }

  lemma FlushCounts<K, O, R>(s: State<K, O, R>, x: K)
    requires Shape(s) && ListsMatchLog(s)
    ensures var s1 := TakeFinished(s);
            Census(s1, x) + Count(HandedOut(s1), x) == Census(s, x) + Count(HandedOut(s), x)
  {
    Partition(s.log[s.flushed..], x);
    LogIdsSplit(s.log, s.flushed);
    CountAppend(LogIds(s.log[..s.flushed]), LogIds(s.log[s.flushed..]), x);
  }

  lemma StepConserves<K(!new), O, R>(cfg: Config, s: State<K, O, R>, ev: Event<K, O, R>)
    requires Conserved(s) && Enabled(s, ev)
    ensures Conserved(Step(cfg, s, ev))
  {
    var s1 := Step(cfg, s, ev);
    StepShape(cfg, s, ev);
    StepLists(cfg, s, ev);
    StepSize(cfg, s, ev);
    TotalCountsPlaces(s);
    TotalCountsPlaces(s1);
    forall x ensures Placed(s1, x) {
      assert Placed(s, x);
      StepCounts(cfg, s, ev, x);
    }
  }
}
