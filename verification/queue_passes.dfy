/**
 * What a pass of `processOrders` gets done, and where an order stands after its handler: said of every
 * reachable state in terms of its fields.
 */
module QueuePasses {
  import opened Common
  import opened Queue
  import opened QueueConservation
  import opened QueueBounds
  import opened QueueRuns

  ghost predicate Reachable<K(!new), O(!new), R(!new)>(cfg: Config, s: State<K, O, R>) {
    exists clock, evs :: Run(cfg, Init<K, O, R>(clock), evs) == Some(s)
  }

  lemma ReachableIsGood<K(!new), O(!new), R(!new)>(cfg: Config, s: State<K, O, R>)
    requires Reachable(cfg, s)
    ensures Good(cfg, s)
  {
    var clock, evs :| Run(cfg, Init<K, O, R>(clock), evs) == Some(s);
    GoodInit<K, O, R>(cfg, clock);
    GoodRun(cfg, Init<K, O, R>(clock), evs);
  }

  // ---------------------------------------------------------------------------------------------
  // The start of a pass
  // ---------------------------------------------------------------------------------------------

  /** How many orders of a retry queue have to wait longer. */
  function Later<K, O>(q: seq<ProcessOrder<K, O>>, now: int): nat {
    if q == [] then 0 else (if q[0].retryAt > now then 1 else 0) + Later(q[1..], now)
  }

  lemma {:induction false} LaterAreLeft<K, O>(q: seq<ProcessOrder<K, O>>, now: int)
    ensures |NotDue(q, now)| == Later(q, now) <= |q|
  {
    if q != [] {
      LaterAreLeft(q[1..], now);
    }
  }

  lemma {:induction false} SomeDue<K, O>(q: seq<ProcessOrder<K, O>>, now: int)
    ensures Due(q, now) != [] <==> exists i :: 0 <= i < |q| && q[i].retryAt <= now
  {
    if q != [] {
      SomeDue(q[1..], now);
      if i :| 0 <= i < |q| && q[i].retryAt <= now {
        assert i > 0 ==> q[1..][i - 1].retryAt <= now;
      }
    }
  }

  /** There is room for a new order beside `retrying` orders that wait for a retry. */
  predicate Room(maxConcurrent: Option<nat>, pendingCount: int, retrying: nat) {
    match maxConcurrent
    case None => true
    case Some(n) => pendingCount + retrying < n
  }

  /** A pass starts exactly when some order is due for a retry, or a new order waits with room for it
      beside the orders that are not due. */
  lemma PassStartsExactly<K(!new), O(!new), R(!new)>(cfg: Config, s: State<K, O, R>, now: int)
    requires Reachable(cfg, s) && s.main.Idle? && s.clock <= now
    ensures Step(cfg, s, Process(now)).main.Running? <==>
            || (exists i :: 0 <= i < |s.retryQueue| && s.retryQueue[i].retryAt <= now)
            || (s.newQueue != [] && Room(cfg.maxConcurrent, s.pendingCount, Later(s.retryQueue, now)))
  {
    SomeDue(s.retryQueue, now);
    LaterAreLeft(s.retryQueue, now);
  }

  /** a is b charged one more try. */
  ghost predicate ChargedOnce<K, O>(a: ProcessOrder<K, O>, b: ProcessOrder<K, O>) {
    a.order == b.order && a.retryCount == b.retryCount + 1 && a.retryAt == b.retryAt
  }

  lemma {:induction false} DueAreCharged<K, O>(q: seq<ProcessOrder<K, O>>, now: int)
    requires SortedByTime(q)
    ensures var k := |Due(q, now)|;
            && k <= |q| && NotDue(q, now) == q[k..]
            && (forall i :: 0 <= i < |q| ==> (q[i].retryAt <= now <==> i < k))
            && (forall i :: 0 <= i < k ==> ChargedOnce(Due(q, now)[i], q[i]))
  {
    if q != [] {
      DueAreCharged(q[1..], now);
      var k := |Due(q[1..], now)|;
      if q[0].retryAt <= now {
        assert forall i :: 0 < i < |q| ==> q[i] == q[1..][i - 1];
        assert q[k + 1..] == q[1..][k..];
      } else {
        assert |q| > 1 ==> q[1..][0] == q[1] && q[0].retryAt <= q[1].retryAt;
        assert k == 0 && q[0..] == q;
      }
    }
  }

  /** A pass takes up every order due for a retry, in order and charged one try, and no other; what is
      not due stays in the retry queue, and no new order is lost. */
  lemma PassTakesDue<K(!new), O(!new), R(!new)>(cfg: Config, s: State<K, O, R>, now: int) returns (k: nat)
    requires Reachable(cfg, s) && s.main.Idle? && s.clock <= now
    ensures k <= |s.retryQueue|
    ensures forall i :: 0 <= i < |s.retryQueue| ==> (s.retryQueue[i].retryAt <= now <==> i < k)
    ensures var s1 := Step(cfg, s, Process(now));
            && s1.retryQueue == s.retryQueue[k..] && s1.newQueue == s.newQueue
            && (k > 0 ==> s1.main.Running?)
            && (s1.main.Running? ==>
                  && s1.main.next == 0 && |s1.main.retries| == k
                  && forall i :: 0 <= i < k ==> ChargedOnce(s1.main.retries[i], s.retryQueue[i]))
  {
    ReachableIsGood(cfg, s);
    DueAreCharged(s.retryQueue, now);
    k := |Due(s.retryQueue, now)|;
  }

  // ---------------------------------------------------------------------------------------------
  // The rest of a pass
  // ---------------------------------------------------------------------------------------------

  /** A pass ends exactly when no retry is left and no new order is left or fits: then the new queue is
      empty, or the limit is reached. Until then each turn hands the next order to its handler: first
      the retries, then the new orders as first tries. */
  lemma PassEndsExactly<K(!new), O(!new), R(!new)>(cfg: Config, s: State<K, O, R>)
    requires Reachable(cfg, s) && s.main.Running? && s.current.None?
    ensures s.main.next <= |s.newQueue|
    ensures var s1 := Step(cfg, s, Next);
            && (s1.main.Idle? <==>
                  && s.main.retries == []
                  && (s.main.next == |s.newQueue| || !Room(cfg.maxConcurrent, s.pendingCount, |s.retryQueue|)))
            && (s1.main.Idle? ==>
                  && s1.current.None? && s1.newQueue == s.newQueue[s.main.next..] && s1.calls == s.calls
                  && (s1.newQueue == [] || !Room(cfg.maxConcurrent, s1.pendingCount, |s1.retryQueue|)))
            && (s1.main.Running? ==>
                  var po := if s.main.retries != [] then s.main.retries[0]
                            else ProcessOrder(s.newQueue[s.main.next], 0, 0);
                  && s1.current == Some(Task(po, Handling)) && s1.calls == s.calls + [po.order.id]
                  && s1.main == if s.main.retries != [] then Running(s.main.retries[1..], s.main.next)
                                else Running([], s.main.next + 1))
  {
    ReachableIsGood(cfg, s);
  }

  // ---------------------------------------------------------------------------------------------
  // A failure
  // ---------------------------------------------------------------------------------------------

  lemma FailureSettles<K, O, R>(
    cfg: Config, s: State<K, O, R>, t: Task<K, O, R>, retry: bool, val: O, now: int)
    requires t.phase.Failing? && t.po.retryCount < Tries(cfg)
    ensures var (s1, t1) := Advance(cfg, s, t, FailureHandled(retry, val, now));
            var tries, order := t.po.retryCount + 1, t.po.order.(val := val);
            if retry && tries < Tries(cfg)
            then t1.None? && s1.retryQueue == s.retryQueue + [ProcessOrder(order, t.po.retryCount, now + cfg.retryInterval)]
            else && s1.retryQueue == s.retryQueue
                 && t1 == Some(Task(t.po.(order := order), Closing(tries == Tries(cfg))))
  {
  }

  /** What becomes of the failed order in the foreground when its handler answers: it waits for another
      try, one interval later, exactly when the handler asks for it and it has a try left; otherwise it is
      closed, rejected after its last try and given up before it. */
  ghost predicate SettledInForeground<K, O, R>(
    cfg: Config, s: State<K, O, R>, s1: State<K, O, R>, retry: bool, val: O, now: int)
    requires s.current.Some?
  {
    var t := s.current.value;
    var tries, order := t.po.retryCount + 1, t.po.order.(val := val);
    if retry && tries < Tries(cfg)
    then && s1.current.None?
         && s1.retryQueue == s.retryQueue + [ProcessOrder(order, t.po.retryCount, now + cfg.retryInterval)]
    else && s1.retryQueue == s.retryQueue
         && s1.current == Some(Task(t.po.(order := order), Closing(tries == Tries(cfg))))
  }

  /** The same for a settled promise. */
  ghost predicate SettledInBackground<K, O, R>(
    cfg: Config, s: State<K, O, R>, s1: State<K, O, R>, k: nat, retry: bool, val: O, now: int)
    requires k < |s.tasks|
  {
    var t := s.tasks[k];
    var tries, order := t.po.retryCount + 1, t.po.order.(val := val);
    if retry && tries < Tries(cfg)
    then && s1.tasks == Without(s.tasks, k)
         && s1.retryQueue == s.retryQueue + [ProcessOrder(order, t.po.retryCount, now + cfg.retryInterval)]
    else && s1.retryQueue == s.retryQueue
         && s1.tasks == s.tasks[k := Task(t.po.(order := order), Closing(tries == Tries(cfg)))]
  }

  lemma FailureInForeground<K(!new), O, R>(cfg: Config, s: State<K, O, R>, retry: bool, val: O, now: int)
    requires Good(cfg, s) && s.clock <= now && s.current.Some? && s.current.value.phase.Failing?
    ensures SettledInForeground(cfg, s, Step(cfg, s, Foreground(FailureHandled(retry, val, now))), retry, val, now)
  {
    FailureSettles(cfg, s, s.current.value, retry, val, now);
  }

  lemma FailureInBackground<K(!new), O, R>(cfg: Config, s: State<K, O, R>, k: nat, retry: bool, val: O, now: int)
    requires Good(cfg, s) && s.clock <= now && k < |s.tasks| && s.tasks[k].phase.Failing?
    ensures SettledInBackground(cfg, s, Step(cfg, s, Background(k, FailureHandled(retry, val, now))), k, retry, val, now)
  {
    FailureSettles(cfg, s, s.tasks[k], retry, val, now);
    AdvanceFrame(cfg, s, s.tasks[k], FailureHandled(retry, val, now));
  }

  /** In every run a failure is settled so, wherever the order stands. */
  lemma FailureExactly<K(!new), O(!new), R(!new)>(cfg: Config, s: State<K, O, R>, k: nat, retry: bool, val: O, now: int)
    requires Reachable(cfg, s) && s.clock <= now
    ensures s.current.Some? && s.current.value.phase.Failing? ==>
              SettledInForeground(cfg, s, Step(cfg, s, Foreground(FailureHandled(retry, val, now))), retry, val, now)
    ensures k < |s.tasks| && s.tasks[k].phase.Failing? ==>
              SettledInBackground(cfg, s, Step(cfg, s, Background(k, FailureHandled(retry, val, now))), k, retry, val, now)
  {
    ReachableIsGood(cfg, s);
    if s.current.Some? && s.current.value.phase.Failing? {
      FailureInForeground(cfg, s, retry, val, now);
    }
    if k < |s.tasks| && s.tasks[k].phase.Failing? {
      FailureInBackground(cfg, s, k, retry, val, now);
    }
  }

  // ---------------------------------------------------------------------------------------------
  // The other turns of an order
  // ---------------------------------------------------------------------------------------------

  /** An order joins the new orders once its hook is done, as the hook left it. */
  lemma InitialisedJoins<K, O, R>(cfg: Config, s: State<K, O, R>, k: nat, val: O)
    requires k < |s.initialising|
    ensures var s1 := Step(cfg, s, AddEnd(k, val));
            && s1.newQueue == s.newQueue + [Ref(s.initialising[k].id, val)]
            && s1.initialising == s.initialising[..k] + s.initialising[k + 1..]
  {
  }

  /** A handler that gives null completes its order without a result, one that throws fails it, and one
      that gives a promise leaves it in flight, counted as pending, and the pass free to go on. */
  lemma HandlerLeads<K, O, R>(cfg: Config, s: State<K, O, R>, how: Handled<O>)
    requires s.current.Some? && s.current.value.phase.Handling?
    ensures var s1 := Step(cfg, s, HandlerDone(how));
            var po := s.current.value.po;
            var handled := ProcessOrder(Ref(po.order.id, how.val), po.retryCount, po.retryAt);
            && (how.Null? ==> s1.current == Some(Task(handled, Completing(None))) && s1.tasks == s.tasks)
            && (how.Threw? ==> s1.current == Some(Task(handled, Failing)) && s1.tasks == s.tasks)
            && (how.Promised? ==>
                  && s1.current.None? && s1.tasks == s.tasks + [Task(handled, InFlight)]
                  && s1.pendingCount == s.pendingCount + 1)
  {
  }

  /** What settles a promise decides where its order goes: a result completes it, a rejection fails it. */
  lemma SettlementLeads<K, O, R>(cfg: Config, s: State<K, O, R>, k: nat, result: Option<R>)
    requires k < |s.tasks| && s.tasks[k].phase.InFlight?
    ensures Step(cfg, s, Background(k, Resolve(result))).tasks
            == s.tasks[k := Task(s.tasks[k].po, Completing(result))]
    ensures Step(cfg, s, Background(k, Reject)).tasks == s.tasks[k := Task(s.tasks[k].po, Failing)]
  {
  }

  /** The three finished lists, in order. */
  function Lists<K, O, R>(s: State<K, O, R>): (seq<Ref<K, R>>, seq<Ref<K, O>>, seq<Ref<K, O>>) {
    (s.completed, s.skipped, s.rejected)
  }

  /** A completed order joins the list its end calls for, with its result if it has one, and only that. */
  lemma EndDecidesList<K, O, R>(cfg: Config, s: State<K, O, R>, at: Option<nat>)
    requires match at case None => s.current.Some? case Some(k) => k < |s.tasks|
    requires var t := if at.None? then s.current.value else s.tasks[at.value]; t.phase.Completing? || t.phase.Closing?
    ensures var t := if at.None? then s.current.value else s.tasks[at.value];
            var s1 := Step(cfg, s, if at.None? then Foreground(HookDone) else Background(at.value, HookDone));
            match t.phase
            case Completing(Some(r)) =>
              Lists(s1) == (s.completed + [Ref(t.po.order.id, r)], s.skipped, s.rejected)
            case Closing(true) => Lists(s1) == (s.completed, s.skipped, s.rejected + [t.po.order])
            case _ => Lists(s1) == (s.completed, s.skipped + [t.po.order], s.rejected)
  {
  }
}
