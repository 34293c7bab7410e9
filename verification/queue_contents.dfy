/** What a step does to the orders themselves: used by the pipelines built from queues. */
module QueueContents {
  import opened Common
  import opened Queue
  import opened QueueConservation

  // ---------------------------------------------------------------------------------------------
  // Laws for the contents of orders, place by place
  // ---------------------------------------------------------------------------------------------

  datatype Laws<!K, !O, !R> = Laws(
    waiting: Ref<K, O> -> bool,            // initialising and new orders
    retrying: ProcessOrder<K, O> -> bool,  // the retry queue, and orders picked from it
    task: Task<K, O, R> -> bool,           // suspended orders
    completed: Ref<K, R> -> bool,
    skipped: Ref<K, O> -> bool,
    rejected: Ref<K, O> -> bool)

  ghost predicate Obeys<K, O, R>(s: State<K, O, R>, l: Laws<K, O, R>) {
    && (forall i :: 0 <= i < |s.initialising| ==> l.waiting(s.initialising[i]))
    && (forall i :: 0 <= i < |Waiting(s)| ==> l.waiting(Waiting(s)[i]))
    && (forall i :: 0 <= i < |s.retryQueue| ==> l.retrying(s.retryQueue[i]))
    && (s.main.Running? ==> forall i :: 0 <= i < |s.main.retries| ==> l.retrying(s.main.retries[i]))
    && (s.current.Some? ==> l.task(s.current.value))
    && (forall i :: 0 <= i < |s.tasks| ==> l.task(s.tasks[i]))
    && (forall i :: 0 <= i < |s.completed| ==> l.completed(s.completed[i]))
    && (forall i :: 0 <= i < |s.skipped| ==> l.skipped(s.skipped[i]))
    && (forall i :: 0 <= i < |s.rejected| ==> l.rejected(s.rejected[i]))
  }

  /** The laws fit together: what one place hands to the next is acceptable there. */
  ghost predicate Coherent<K(!new), O(!new), R(!new)>(l: Laws<K, O, R>) {
    && (forall po: ProcessOrder<K, O> :: l.retrying(po) ==> l.retrying(po.(retryCount := po.retryCount + 1)))
    && (forall po: ProcessOrder<K, O> :: l.retrying(po) ==> l.task(Task(po, Handling)))
    && (forall r: Ref<K, O> :: l.waiting(r) ==> l.task(Task(ProcessOrder(r, 0, 0), Handling)))
    && (forall t: Task<K, O, R> :: l.task(t) ==> TaskHandsOver(l, t))
  }

  predicate TaskHandsOver<K, O, R>(l: Laws<K, O, R>, t: Task<K, O, R>) {
    && (t.phase.Completing? && t.phase.result.Some? ==> l.completed(Ref(t.po.order.id, t.phase.result.value)))
    && (t.phase == Completing(None) || t.phase == Closing(false) ==> l.skipped(t.po.order))
    && (t.phase == Closing(true) ==> l.rejected(t.po.order))
  }

  /** What a move of a task produces obeys the laws. */
  ghost predicate MoveLawful<K, O, R>(cfg: Config, t: Task<K, O, R>, m: Move<O, R>, l: Laws<K, O, R>) {
    match m
    case Resolve(result) => l.task(t.(phase := Completing(result)))
    case Reject => l.task(t.(phase := Failing))
    case FailureHandled(retry, val, now) =>
      var po := t.po.(order := t.po.order.(val := val));
      if MaxTriesReached(cfg, po.retryCount) then l.task(Task(po, Closing(true)))
      else if retry then l.retrying(po.(retryAt := now + cfg.retryInterval))
      else l.task(Task(po, Closing(false)))
    case HookDone => true
  }

  /** What an event brings in obeys the laws. */
  ghost predicate Lawful<K, O, R>(cfg: Config, s: State<K, O, R>, ev: Event<K, O, R>, l: Laws<K, O, R>)
    requires Enabled(s, ev)
  {
    match ev
    case AddBegin(order) => l.waiting(order)
    case AddEnd(k, val) => l.waiting(s.initialising[k].(val := val))
    case HandlerDone(how) =>
      var po := s.current.value.po.(order := s.current.value.po.order.(val := how.val));
      l.task(Task(po, match how case Null(_) => Completing(None) case Threw(_) => Failing case Promised(_) => InFlight))
    case Foreground(m) => MoveLawful(cfg, s.current.value, m, l)
    case Background(k, m) => MoveLawful(cfg, s.tasks[k], m, l)
    case _ => true
  }

  lemma {:induction false} DueObeys<K, O, R>(q: seq<ProcessOrder<K, O>>, now: int, retrying: ProcessOrder<K, O> -> bool)
    requires forall i :: 0 <= i < |q| ==> retrying(q[i]) && retrying(q[i].(retryCount := q[i].retryCount + 1))
    ensures forall i :: 0 <= i < |Due(q, now)| ==> retrying(Due(q, now)[i])
    ensures forall i :: 0 <= i < |NotDue(q, now)| ==> retrying(NotDue(q, now)[i])
  {
    if q != [] {
      DueObeys<K, O, R>(q[1..], now, retrying);
    }
  }

  lemma ConcludeObeys<K, O, R>(s: State<K, O, R>, t: Task<K, O, R>, l: Laws<K, O, R>)
    requires Obeys(s, l) && (t.phase.Completing? || t.phase.Closing?) && TaskHandsOver(l, t)
    ensures Obeys(Conclude(s, t), l)
  {
    assert Waiting(Conclude(s, t)) == Waiting(s);
  }

  lemma AdvanceObeys<K(!new), O(!new), R(!new)>(
    cfg: Config, s: State<K, O, R>, t: Task<K, O, R>, m: Move<O, R>, l: Laws<K, O, R>)
    requires Obeys(s, l) && MoveEnabled(t.phase, m) && TaskHandsOver(l, t) && MoveLawful(cfg, t, m, l)
    ensures var (s1, t1) := Advance(cfg, s, t, m);
            Obeys(s1, l) && (t1.Some? ==> l.task(t1.value))
  {
    var (s1, _) := Advance(cfg, s, t, m);
    assert Waiting(s1) == Waiting(s);
    if m.HookDone? {
      ConcludeObeys(s, t, l);
    }
  }

  lemma PutBackObeys<K, O, R>(s: State<K, O, R>, k: nat, t: Option<Task<K, O, R>>, l: Laws<K, O, R>)
    requires k < |s.tasks| && Obeys(s, l) && (t.Some? ==> l.task(t.value))
    ensures Obeys(PutBack(s, k, t), l)
  {
    assert Waiting(PutBack(s, k, t)) == Waiting(s);
  }

  lemma ProcessObeys<K(!new), O(!new), R>(cfg: Config, s: State<K, O, R>, now: int, l: Laws<K, O, R>)
    requires Obeys(s, l) && s.main.Idle?
    requires forall po: ProcessOrder<K, O> :: l.retrying(po) ==> l.retrying(po.(retryCount := po.retryCount + 1))
    ensures Obeys(StartProcessing(cfg, s, now), l)
  {
    DueObeys<K, O, R>(s.retryQueue, now, l.retrying);
    assert Waiting(StartProcessing(cfg, s, now)) == Waiting(s);
  }

  lemma NextObeys<K(!new), O(!new), R(!new)>(cfg: Config, s: State<K, O, R>, l: Laws<K, O, R>)
    requires Coherent(l) && Obeys(s, l) && Shape(s) && s.main.Running? && s.current.None?
    ensures Obeys(TakeNext(cfg, s), l)
  {
    var s1 := TakeNext(cfg, s);
    if s.main.retries == [] && s1.main.Running? {
      assert Waiting(s1) == Waiting(s)[1..];
      assert s.newQueue[s.main.next] == Waiting(s)[0];
    } else {
      assert Waiting(s1) == Waiting(s);
    }
  }

  lemma HandlerObeys<K, O, R>(cfg: Config, s: State<K, O, R>, how: Handled<O>, l: Laws<K, O, R>)
    requires Obeys(s, l) && Enabled(s, HandlerDone(how)) && Lawful(cfg, s, HandlerDone(how), l)
    ensures Obeys(HandlerReturns(s, s.current.value, how), l)
  {
    assert Waiting(HandlerReturns(s, s.current.value, how)) == Waiting(s);
  }

  lemma EndAddObeys<K, O, R>(s: State<K, O, R>, k: nat, val: O, l: Laws<K, O, R>)
    requires Obeys(s, l) && Shape(s) && k < |s.initialising| && l.waiting(s.initialising[k].(val := val))
    ensures Obeys(EndAdd(s, k, val), l)
  {
    assert Waiting(EndAdd(s, k, val)) == Waiting(s) + [s.initialising[k].(val := val)];
  }

  lemma ForegroundObeys<K(!new), O(!new), R(!new)>(cfg: Config, s: State<K, O, R>, m: Move<O, R>, l: Laws<K, O, R>)
    requires Coherent(l) && Obeys(s, l) && Enabled(s, Foreground(m)) && Lawful(cfg, s, Foreground(m), l)
    ensures Obeys(InForeground(cfg, s, s.current.value, m), l)
  {
    AdvanceFrame(cfg, s, s.current.value, m);
    AdvanceObeys(cfg, s, s.current.value, m, l);
    assert Waiting(InForeground(cfg, s, s.current.value, m)) == Waiting(s);
  }

  lemma BackgroundObeys<K(!new), O(!new), R(!new)>(
    cfg: Config, s: State<K, O, R>, k: nat, m: Move<O, R>, l: Laws<K, O, R>)
    requires Coherent(l) && Obeys(s, l) && Enabled(s, Background(k, m)) && Lawful(cfg, s, Background(k, m), l)
    ensures Obeys(InBackground(cfg, s, k, m), l)
  {
    var (s1, t1) := Advance(cfg, s, s.tasks[k], m);
    AdvanceFrame(cfg, s, s.tasks[k], m);
    AdvanceObeys(cfg, s, s.tasks[k], m, l);
    PutBackObeys(s1, k, t1, l);
  }

  lemma StepObeys<K(!new), O(!new), R(!new)>(cfg: Config, s: State<K, O, R>, ev: Event<K, O, R>, l: Laws<K, O, R>)
    requires Coherent(l) && Obeys(s, l) && Shape(s) && Enabled(s, ev) && Lawful(cfg, s, ev, l)
    ensures Obeys(Step(cfg, s, ev), l)
  {
    match ev
    case AddBegin(order) => assert Waiting(BeginAdd(s, order)) == Waiting(s);
    case AddEnd(k, val) => EndAddObeys(s, k, val, l);
    case Process(now) => ProcessObeys(cfg, s, now, l);
    case Next => NextObeys(cfg, s, l);
    case HandlerDone(how) => HandlerObeys(cfg, s, how, l);
    case Foreground(m) => ForegroundObeys(cfg, s, m, l);
    case Background(k, m) => BackgroundObeys(cfg, s, k, m, l);
    case Decrement => assert Waiting(Step(cfg, s, Decrement)) == Waiting(s);
    case Flush => assert Waiting(TakeFinished(s)) == Waiting(s);
  }

  /** Weaker laws hold where stronger ones do. */
  lemma ObeysWeaker<K(!new), O(!new), R(!new)>(s: State<K, O, R>, l: Laws<K, O, R>, weaker: Laws<K, O, R>)
    requires Obeys(s, l)
    requires forall r: Ref<K, O> :: l.waiting(r) ==> weaker.waiting(r)
    requires forall po: ProcessOrder<K, O> :: l.retrying(po) ==> weaker.retrying(po)
    requires forall t: Task<K, O, R> :: l.task(t) ==> weaker.task(t)
    requires forall r: Ref<K, R> :: l.completed(r) ==> weaker.completed(r)
    requires forall r: Ref<K, O> :: l.skipped(r) ==> weaker.skipped(r)
    requires forall r: Ref<K, O> :: l.rejected(r) ==> weaker.rejected(r)
    ensures Obeys(s, weaker)
  {
  }

  /** No place but the foreground holds the order x. */
  ghost predicate OnlyCurrent<K, O, R>(s: State<K, O, R>, x: K) {
    && (forall i :: 0 <= i < |s.initialising| ==> s.initialising[i].id != x)
    && (forall i :: 0 <= i < |Waiting(s)| ==> Waiting(s)[i].id != x)
    && (forall i :: 0 <= i < |s.retryQueue| ==> s.retryQueue[i].order.id != x)
    && (s.main.Running? ==> forall i :: 0 <= i < |s.main.retries| ==> s.main.retries[i].order.id != x)
    && (forall i :: 0 <= i < |s.tasks| ==> s.tasks[i].po.order.id != x)
    && (forall i :: 0 <= i < |s.completed| ==> s.completed[i].id != x)
    && (forall i :: 0 <= i < |s.skipped| ==> s.skipped[i].id != x)
    && (forall i :: 0 <= i < |s.rejected| ==> s.rejected[i].id != x)
  }

  lemma NoneIsNowhere<T>(q: seq<T>, x: T)
    requires Count(q, x) == 0
    ensures forall i :: 0 <= i < |q| ==> q[i] != x
  {
    forall i | 0 <= i < |q| ensures q[i] != x {
      CountPositive(q, i);
    }
  }

  /** An order that stands in the queue once stands nowhere else while it is being handled. */
  lemma HandledAlone<K, O, R>(s: State<K, O, R>, x: K)
    requires Census(s, x) <= 1 && s.current.Some? && s.current.value.po.order.id == x
    ensures OnlyCurrent(s, x)
  {
    NoneIsNowhere(RefIds(s.initialising), x);
    NoneIsNowhere(RefIds(Waiting(s)), x);
    NoneIsNowhere(PoIds(s.retryQueue), x);
    NoneIsNowhere(PoIds(Retries(s)), x);
    NoneIsNowhere(TaskIds(s.tasks), x);
    NoneIsNowhere(RefIds(s.completed), x);
    NoneIsNowhere(RefIds(s.skipped), x);
    NoneIsNowhere(RefIds(s.rejected), x);
  }

  /** Laws that change for x only hold on, and may hand x out as a promise. */
  lemma PromiseObeys<K(!new), O(!new), R(!new)>(
    s: State<K, O, R>, val: O, l: Laws<K, O, R>, later: Laws<K, O, R>, x: K)
    requires Obeys(s, l) && s.current.Some? && OnlyCurrent(s, x)
    requires forall r: Ref<K, O> :: l.waiting(r) && r.id != x ==> later.waiting(r)
    requires forall po: ProcessOrder<K, O> :: l.retrying(po) && po.order.id != x ==> later.retrying(po)
    requires forall t: Task<K, O, R> :: l.task(t) && t.po.order.id != x ==> later.task(t)
    requires forall r: Ref<K, R> :: l.completed(r) && r.id != x ==> later.completed(r)
    requires forall r: Ref<K, O> :: l.skipped(r) && r.id != x ==> later.skipped(r)
    requires forall r: Ref<K, O> :: l.rejected(r) && r.id != x ==> later.rejected(r)
    requires later.task(Task(s.current.value.po.(order := s.current.value.po.order.(val := val)), InFlight))
    ensures Obeys(HandlerReturns(s, s.current.value, Promised(val)), later)
  {
    assert Waiting(HandlerReturns(s, s.current.value, Promised(val))) == Waiting(s);
  }

  // ---------------------------------------------------------------------------------------------
  // The census over a run of the whole pipeline
  // ---------------------------------------------------------------------------------------------

  lemma SilentAdds<K, O, R>(cfg: Config, s: State<K, O, R>, ev: Event<K, O, R>)
    requires Enabled(s, ev) && !ev.AddBegin? && !ev.Flush?
    ensures Step(cfg, s, ev).added == s.added && Step(cfg, s, ev).size == s.size
  {
    match ev
    case Foreground(m) => AdvanceFrame(cfg, s, s.current.value, m);
    case Background(k, m) => AdvanceFrame(cfg, s, s.tasks[k], m);
    case _ =>
  }

  lemma AddCount<K, O, R>(s: State<K, O, R>, order: Ref<K, O>, x: K)
    ensures Census(BeginAdd(s, order), x) == Census(s, x) + if order.id == x then 1 else 0
  {
    RefSnoc(s.initialising, order, x);
  }

  /** Moving the first of a list of orders into the queue. */
  lemma AddFirstCount<K, O, R>(q: State<K, O, R>, todo: seq<Ref<K, O>>, x: K)
    requires todo != []
    ensures Count(RefIds(todo[1..]), x) + Census(BeginAdd(q, todo[0]), x) == Count(RefIds(todo), x) + Census(q, x)
  {
    AddCount(q, todo[0], x);
    assert todo == [todo[0]] + todo[1..];
    RefCons(todo[0], todo[1..], x);
  }

  /** Events that neither add nor flush leave every count as it was. */
  lemma SilentCount<K(!new), O, R>(cfg: Config, q: State<K, O, R>, ev: Event<K, O, R>, x: K)
    requires Conserved(q) && Enabled(q, ev) && !ev.AddBegin? && !ev.Flush?
    ensures Census(Step(cfg, q, ev), x) == Census(q, x)
  {
    StepLists(cfg, q, ev);
    SilentAdds(cfg, q, ev);
    StepCounts(cfg, q, ev, x);
  }

  lemma FlushCount<K, O, R>(s: State<K, O, R>, x: K)
    ensures Census(s, x) == Census(TakeFinished(s), x)
              + Count(RefIds(s.completed), x) + Count(RefIds(s.skipped), x) + Count(RefIds(s.rejected), x)
  {
  }

  // -- the same for the orders of one kind -------------------------------------------------------

  lemma SilentCountIf<K(!new), O, R>(cfg: Config, s: State<K, O, R>, ev: Event<K, O, R>, p: K -> bool)
    requires Conserved(s) && Enabled(s, ev) && !ev.AddBegin? && !ev.Flush?
    ensures CountIf(Places(Step(cfg, s, ev)), p) == CountIf(Places(s), p)
  {
    var s1 := Step(cfg, s, ev);
    forall x ensures Count(Places(s1), x) == Count(Places(s), x) {
      SilentCount(cfg, s, ev, x);
      CensusCountsPlaces(s, x);
      CensusCountsPlaces(s1, x);
    }
    PermutedCountIf(Places(s1), Places(s), p);
  }

  lemma AddCountIf<K(!new), O, R>(s: State<K, O, R>, order: Ref<K, O>, p: K -> bool)
    ensures CountIf(Places(BeginAdd(s, order)), p) == CountIf(Places(s), p) + if p(order.id) then 1 else 0
  {
    var s1 := BeginAdd(s, order);
    forall x ensures Count(Places(s1), x) == Count(Places(s) + [order.id], x) {
      AddCount(s, order, x);
      CensusCountsPlaces(s, x);
      CensusCountsPlaces(s1, x);
      CountSnoc(Places(s), order.id, x);
    }
    PermutedCountIf(Places(s1), Places(s) + [order.id], p);
    CountIfAppend(Places(s), [order.id], p);
  }

  lemma FlushCountIf<K, O, R>(s: State<K, O, R>, p: K -> bool)
    ensures CountIf(Places(s), p) == CountIf(Places(TakeFinished(s)), p)
              + CountIf(RefIds(s.completed), p) + CountIf(RefIds(s.skipped), p) + CountIf(RefIds(s.rejected), p)
  {
    NothingFinished(s);
    CountIfAppend(Unfinished(s), Finished(s), p);
    CountIfAppend(RefIds(s.completed) + RefIds(s.skipped), RefIds(s.rejected), p);
    CountIfAppend(RefIds(s.completed), RefIds(s.skipped), p);
  }

  lemma NothingFinished<K, O, R>(s: State<K, O, R>)
    ensures Places(TakeFinished(s)) == Unfinished(s)
  {
  }
}
