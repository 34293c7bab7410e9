/**
 * The generic retrying work queue.
 *
 * `State` is one queue object together with the continuations the JavaScript runtime holds for it
 * (orders whose hooks or promises are still awaited). `Step` is one await-delimited segment, or a
 * finer piece of one; the outcome of every overridable handler is an argument of the event, so the
 * results hold for any subclass. The class at the end is the code itself, segment by segment.
 */
module Queue {
  import opened Common

  // ---------------------------------------------------------------------------------------------
  // Data
  // ---------------------------------------------------------------------------------------------

  /** A reference to an order object: `id` is its identity, `val` its current contents. A result
      object spread from an order carries the identity of that order. */
  datatype Ref<+K, +V> = Ref(id: K, val: V)

  datatype ProcessOrder<+K, +O> = ProcessOrder(order: Ref<K, O>, retryCount: nat, retryAt: int)

  /** Where the handling of one order is suspended. */
  datatype Phase<+R> =
    | Handling                        // inside `handleOrder`
    | InFlight                        // `handleOrder` returned a promise that has not settled
    | Completing(result: Option<R>)   // inside `onOrderCompletion` after a success
    | Failing                         // inside `handleFailedOrder`
    | Closing(reject: bool)           // inside `onOrderCompletion` after a failure

  datatype Task<+K, +O, +R> = Task(po: ProcessOrder<K, O>, phase: Phase<R>)

  /** Progress of the single `processOrders` call. */
  datatype Main<+K, +O> =
    | Idle
    | Running(retries: seq<ProcessOrder<K, O>>, next: nat)

  datatype Outcome = Completed | Skipped | Rejected

  /** One line of the history of finished orders. `failed`: the last handling raised an error. */
  datatype Finish<+K> = Finish(id: K, tries: nat, failed: bool, outcome: Outcome)

  /** `maxConcurrent == None` is the source's `Infinity`. */
  datatype Config = Config(retryInterval: nat, maxTries: nat, maxConcurrent: Option<nat>)

  datatype State<K, O, R> = State(
    // the fields of the object
    size: int,
    newQueue: seq<Ref<K, O>>,
    retryQueue: seq<ProcessOrder<K, O>>,
    pendingCount: int,
    completed: seq<Ref<K, R>>,
    skipped: seq<Ref<K, O>>,
    rejected: seq<Ref<K, O>>,
    // suspended continuations
    initialising: seq<Ref<K, O>>,
    main: Main<K, O>,
    current: Option<Task<K, O, R>>,   // the order `processOrders` is awaiting
    tasks: seq<Task<K, O, R>>,        // settlement handlers of promises handed out
    settled: nat,                     // handlers done except for their final `_pendingCount--`
    clock: int,                       // latest value of `Date.now()`
    // history
    added: seq<K>,                    // in the order `addOrders` saw them
    queued: seq<K>,                   // in the order they were pushed onto `newQueue`
    calls: seq<K>,                    // one entry per call of `handleOrder`
    log: seq<Finish<K>>,
    flushed: nat                      // how many entries of `log` have been handed out
  )

  function Init<K, O, R>(clock: int): State<K, O, R> {
    State(0, [], [], 0, [], [], [], [], Idle, None, [], 0, clock, [], [], [], [], 0)
  }

  // ---------------------------------------------------------------------------------------------
  // Steps
  // ---------------------------------------------------------------------------------------------

  /** How `handleOrder` ended; `val` is what it left in the order object. */
  datatype Handled<+O> = Null(val: O) | Promised(val: O) | Threw(val: O)

  datatype Move<+O, +R> =
    | Resolve(result: Option<R>)
    | Reject
    | FailureHandled(retry: bool, val: O, now: int)
    | HookDone

  datatype Event<+K, +O, +R> =
    | AddBegin(order: Ref<K, O>)
    | AddEnd(k: nat, val: O)
    | Process(now: int)
    | Next
    | HandlerDone(how: Handled<O>)
    | Foreground(move: Move<O, R>)
    | Background(k: nat, move: Move<O, R>)
    | Decrement
    | Flush

  function Concurrent<K, O, R>(s: State<K, O, R>): int {
    s.pendingCount + |s.retryQueue|
  }

  predicate HasCapacity<K, O, R>(cfg: Config, s: State<K, O, R>) {
    cfg.maxConcurrent.None? || Concurrent(s) < cfg.maxConcurrent.value
  }

  /** `retryCount >= maxTries - 1` */
  predicate MaxTriesReached(cfg: Config, retryCount: nat) {
    retryCount as int >= cfg.maxTries as int - 1
  }

  predicate MoveEnabled<O, R>(phase: Phase<R>, m: Move<O, R>) {
    match phase
    case Handling => false
    case InFlight => m.Resolve? || m.Reject?
    case Completing(_) => m.HookDone?
    case Failing => m.FailureHandled?
    case Closing(_) => m.HookDone?
  }

  predicate Monotone<O, R>(clock: int, m: Move<O, R>) {
    m.FailureHandled? ==> clock <= m.now
  }

  predicate Enabled<K, O, R>(s: State<K, O, R>, ev: Event<K, O, R>) {
    match ev
    case AddBegin(_) => true
    case AddEnd(k, _) => k < |s.initialising|
    case Process(now) => s.main.Idle? && s.clock <= now
    case Next => s.main.Running? && s.current.None?
    case HandlerDone(_) => s.current.Some? && s.current.value.phase.Handling?
    case Foreground(m) => s.current.Some? && MoveEnabled(s.current.value.phase, m) && Monotone(s.clock, m)
    case Background(k, m) => k < |s.tasks| && MoveEnabled(s.tasks[k].phase, m) && Monotone(s.clock, m)
    case Decrement => s.settled > 0
    case Flush => true
  }

  /** The due orders of a retry queue, each charged one more try. */
  function Due<K, O>(q: seq<ProcessOrder<K, O>>, now: int): seq<ProcessOrder<K, O>> {
    if q == [] then []
    else if q[0].retryAt <= now then [q[0].(retryCount := q[0].retryCount + 1)] + Due(q[1..], now)
    else Due(q[1..], now)
  }

  function NotDue<K, O>(q: seq<ProcessOrder<K, O>>, now: int): seq<ProcessOrder<K, O>> {
    if q == [] then []
    else if q[0].retryAt <= now then NotDue(q[1..], now)
    else [q[0]] + NotDue(q[1..], now)
  }

  function StartProcessing<K, O, R>(cfg: Config, s: State<K, O, R>, now: int): State<K, O, R> {
    var due := Due(s.retryQueue, now);
    var s1 := s.(retryQueue := NotDue(s.retryQueue, now), clock := now);
    if due != [] || (s1.newQueue != [] && HasCapacity(cfg, s1))
    then s1.(main := Running(due, 0))
    else s1
  }

  /** The head of either loop of `processOrders`. `next` counts the new orders taken so far. */
  function TakeNext<K, O, R>(cfg: Config, s: State<K, O, R>): State<K, O, R>
    requires s.main.Running?
  {
    if s.main.retries != [] then
      var po := s.main.retries[0];
      s.(main := s.main.(retries := s.main.retries[1..]),
         current := Some(Task(po, Handling)),
         calls := s.calls + [po.order.id])
    else if s.main.next < |s.newQueue| && HasCapacity(cfg, s) then
      var order := s.newQueue[s.main.next];
      s.(main := s.main.(next := s.main.next + 1),
         current := Some(Task(ProcessOrder(order, 0, 0), Handling)),
         calls := s.calls + [order.id])
    else
      s.(main := Idle, newQueue := if s.main.next <= |s.newQueue| then s.newQueue[s.main.next..] else [])
  }

  function HandlerReturns<K, O, R>(s: State<K, O, R>, t: Task<K, O, R>, how: Handled<O>): State<K, O, R> {
    var po := t.po.(order := t.po.order.(val := how.val));
    match how
    case Null(_) => s.(current := Some(Task(po, Completing(None))))
    case Threw(_) => s.(current := Some(Task(po, Failing)))
    case Promised(_) =>
      s.(current := None, tasks := s.tasks + [Task(po, InFlight)], pendingCount := s.pendingCount + 1)
  }

  function Record<K, O, R>(s: State<K, O, R>, po: ProcessOrder<K, O>, failed: bool, outcome: Outcome): State<K, O, R> {
    s.(log := s.log + [Finish(po.order.id, po.retryCount + 1, failed, outcome)])
  }

  /** The tail of `handleOrderSuccess` and of the two finishing branches of `handleOrderError`. */
  function Conclude<K, O, R>(s: State<K, O, R>, t: Task<K, O, R>): State<K, O, R>
    requires t.phase.Completing? || t.phase.Closing?
  {
    match t.phase
    case Completing(Some(r)) =>
      Record(s, t.po, false, Completed).(completed := s.completed + [Ref(t.po.order.id, r)])
    case Closing(true) =>
      Record(s, t.po, true, Rejected).(rejected := s.rejected + [t.po.order])
    case _ =>
      Record(s, t.po, t.phase.Closing?, Skipped).(skipped := s.skipped + [t.po.order])
  }

  /** `handleOrderError` once `handleFailedOrder` has answered. */
  function Fail<K, O, R>(cfg: Config, s: State<K, O, R>, t: Task<K, O, R>, retry: bool, val: O, now: int)
    : (State<K, O, R>, Option<Task<K, O, R>>)
  {
    var po := t.po.(order := t.po.order.(val := val));
    var s1 := s.(clock := now);
    if MaxTriesReached(cfg, po.retryCount) then (s1, Some(Task(po, Closing(true))))
    else if retry then
      (s1.(retryQueue := s.retryQueue + [po.(retryAt := now + cfg.retryInterval)]), None)
    else (s1, Some(Task(po, Closing(false))))
  }

  /** One continuation of a suspended order: the state it leaves, and the task if it is still
      suspended somewhere. */
  function Advance<K, O, R>(cfg: Config, s: State<K, O, R>, t: Task<K, O, R>, m: Move<O, R>)
    : (State<K, O, R>, Option<Task<K, O, R>>)
    requires MoveEnabled(t.phase, m)
  {
    match m
    case Resolve(result) => (s, Some(t.(phase := Completing(result))))
    case Reject => (s, Some(t.(phase := Failing)))
    case FailureHandled(retry, val, now) => Fail(cfg, s, t, retry, val, now)
    case HookDone => (Conclude(s, t), None)
  }

  function InForeground<K, O, R>(cfg: Config, s: State<K, O, R>, t: Task<K, O, R>, m: Move<O, R>): State<K, O, R>
    requires MoveEnabled(t.phase, m)
  {
    var (s1, t1) := Advance(cfg, s, t, m);
    s1.(current := t1)
  }

  function InBackground<K, O, R>(cfg: Config, s: State<K, O, R>, k: nat, m: Move<O, R>): State<K, O, R>
    requires k < |s.tasks| && MoveEnabled(s.tasks[k].phase, m)
  {
    var (s1, t1) := Advance(cfg, s, s.tasks[k], m);
    PutBack(s1, k, t1)
  }

  /** A settlement handler that placed its order still owes its `_pendingCount--`. */
  function PutBack<K, O, R>(s: State<K, O, R>, k: nat, t: Option<Task<K, O, R>>): State<K, O, R>
    requires k < |s.tasks|
  {
    if t.Some? then s.(tasks := s.tasks[k := t.value])
    else s.(tasks := Without(s.tasks, k), settled := s.settled + 1)
  }

  function BeginAdd<K, O, R>(s: State<K, O, R>, order: Ref<K, O>): State<K, O, R> {
    s.(size := s.size + 1, initialising := s.initialising + [order], added := s.added + [order.id])
  }

  function EndAdd<K, O, R>(s: State<K, O, R>, k: nat, val: O): State<K, O, R>
    requires k < |s.initialising|
  {
    var order := s.initialising[k].(val := val);
    s.(initialising := Without(s.initialising, k), newQueue := s.newQueue + [order], queued := s.queued + [order.id])
  }

  function TakeFinished<K, O, R>(s: State<K, O, R>): State<K, O, R> {
    s.(size := s.size - (|s.completed| + |s.skipped| + |s.rejected|),
       completed := [], skipped := [], rejected := [], flushed := |s.log|)
  }

  function Step<K, O, R>(cfg: Config, s: State<K, O, R>, ev: Event<K, O, R>): State<K, O, R>
    requires Enabled(s, ev)
  {
    match ev
    case AddBegin(order) => BeginAdd(s, order)
    case AddEnd(k, val) => EndAdd(s, k, val)
    case Process(now) => StartProcessing(cfg, s, now)
    case Next => TakeNext(cfg, s)
    case HandlerDone(how) => HandlerReturns(s, s.current.value, how)
    case Foreground(m) => InForeground(cfg, s, s.current.value, m)
    case Background(k, m) => InBackground(cfg, s, k, m)
    case Decrement => s.(settled := s.settled - 1, pendingCount := s.pendingCount - 1)
    case Flush => TakeFinished(s)
  }

  /** The state after a whole run; `None` if some event was not possible when it was tried. */
  function Run<K, O, R>(cfg: Config, s: State<K, O, R>, evs: seq<Event<K, O, R>>): Option<State<K, O, R>>
    decreases |evs|
  {
    if evs == [] then Some(s)
    else if Enabled(s, evs[0]) then Run(cfg, Step(cfg, s, evs[0]), evs[1..])
    else None
  }

  // ---------------------------------------------------------------------------------------------
  // Where every order is
  // ---------------------------------------------------------------------------------------------

  function RefIds<K, V>(s: seq<Ref<K, V>>): (r: seq<K>)
    ensures |r| == |s| && forall i :: 0 <= i < |s| ==> r[i] == s[i].id
  {
    seq(|s|, i requires 0 <= i < |s| => s[i].id)
  }

  function PoIds<K, O>(s: seq<ProcessOrder<K, O>>): (r: seq<K>)
    ensures |r| == |s| && forall i :: 0 <= i < |s| ==> r[i] == s[i].order.id
  {
    seq(|s|, i requires 0 <= i < |s| => s[i].order.id)
  }

  function TaskIds<K, O, R>(s: seq<Task<K, O, R>>): (r: seq<K>)
    ensures |r| == |s| && forall i :: 0 <= i < |s| ==> r[i] == s[i].po.order.id
  {
    seq(|s|, i requires 0 <= i < |s| => s[i].po.order.id)
  }

  function LogIds<K>(s: seq<Finish<K>>): (r: seq<K>)
    ensures |r| == |s| && forall i :: 0 <= i < |s| ==> r[i] == s[i].id
  {
    seq(|s|, i requires 0 <= i < |s| => s[i].id)
  }

  /** Identities of the finished orders of one kind, in the order they finished. */
  function Select<K>(s: seq<Finish<K>>, o: Outcome): seq<K> {
    if s == [] then []
    else
      var last := s[|s| - 1];
      if last.outcome == o then Select(s[..|s| - 1], o) + [last.id] else Select(s[..|s| - 1], o)
  }

  /** New orders `processOrders` has not taken yet. */
  function Waiting<K, O, R>(s: State<K, O, R>): seq<Ref<K, O>> {
    if s.main.Running? && s.main.next <= |s.newQueue| then s.newQueue[s.main.next..] else s.newQueue
  }

  function Retries<K, O, R>(s: State<K, O, R>): seq<ProcessOrder<K, O>> {
    if s.main.Running? then s.main.retries else []
  }

  function CurrentIds<K, O, R>(s: State<K, O, R>): seq<K> {
    if s.current.Some? then [s.current.value.po.order.id] else []
  }

  /** Orders that have been taken and are neither finished nor waiting as new. */
  function Live<K, O, R>(s: State<K, O, R>): seq<K> {
    PoIds(Retries(s)) + CurrentIds(s) + TaskIds(s.tasks) + PoIds(s.retryQueue)
  }

  /** Finished orders that have not been handed out. */
  function Finished<K, O, R>(s: State<K, O, R>): seq<K> {
    RefIds(s.completed) + RefIds(s.skipped) + RefIds(s.rejected)
  }

  /** Orders that have not finished. */
  function Unfinished<K, O, R>(s: State<K, O, R>): seq<K> {
    RefIds(s.initialising) + RefIds(Waiting(s)) + Live(s)
  }

  /** Every place of the queue, side by side. */
  function Places<K, O, R>(s: State<K, O, R>): seq<K> {
    Unfinished(s) + Finished(s)
  }
}
