/** Requests are sent in the order they arrived. */
module WalletWorkerOrder {
  import opened Common
  import opened Queue
  import opened QueueConservation
  import opened QueueBounds
  import opened QueueContents
  import opened Tickets
  import opened W = WalletWorker
  import opened WalletWorkerRuns
  import opened WalletWorkerSends

  /** First laps stand in the order of their requests; `n` requests have arrived. Requeued laps, which may
      stand anywhere, do not matter. */
  ghost predicate Ascending(line: seq<Lap>, n: nat) {
    && (forall i :: 0 <= i < |line| && line[i].lap == 0 ==> line[i].id < n)
    && (forall i, j :: 0 <= i < j < |line| && line[i].lap == 0 && line[j].lap == 0 ==> line[i].id < line[j].id)
  }

  /** The one line all requests go through: queued, being added, taken, received. */
  function Line(s: W.State): seq<Lap> {
    s.submit.queued + RefIds(s.submit.initialising) + Entering(s.pc) + RefIds(s.newRequests)
  }

  ghost predicate InLine(s: W.State) {
    |s.submit.initialising| <= 1 && Ascending(Line(s), |s.arrived|)
  }

  /** The first laps among the accepted sends, in ascending order. */
  ghost predicate SentAscending(evs: seq<NonceEvent>) {
    forall i, j :: 0 <= i < j < |evs| && evs[i].Sent? && evs[j].Sent? && evs[i].lap.lap == 0 && evs[j].lap.lap == 0
      ==> evs[i].lap.id < evs[j].lap.id
  }

  // -- the line --------------------------------------------------------------------------------

  /** Only adding changes what is queued or being added. */
  lemma SameAdditions<K, O, R>(cfg: Queue.Config, q: Queue.State<K, O, R>, ev: Queue.Event<K, O, R>)
    requires Enabled(q, ev) && !ev.AddBegin? && !ev.AddEnd?
    ensures Queue.Step(cfg, q, ev).queued == q.queued && Queue.Step(cfg, q, ev).initialising == q.initialising
  {
    match ev
    case Foreground(m) => AdvanceFrame(cfg, q, q.current.value, m);
    case Background(k, m) => AdvanceFrame(cfg, q, q.tasks[k], m);
    case _ =>
  }

  lemma ReceiveInLine(s: W.State, a: Address)
    requires InLine(s)
    ensures InLine(ReceiveStep(s, a))
  {
    var s1 := ReceiveStep(s, a);
    var x: Lap := Ticket(|s.arrived|, 0);
    assert RefIds(s1.newRequests) == RefIds(s.newRequests) + [x];
    assert Line(s1) == Line(s) + [x];
  }

  lemma TakeNewInLine(cfg: W.Config, s: W.State)
    requires InLine(s) && s.pc.Top?
    ensures InLine(TakeNewStep(cfg, s))
  {
    var s1 := TakeNewStep(cfg, s);
    var n := |s1.pc.todo|;
    assert RefIds(s.newRequests) == RefIds(s1.pc.todo) + RefIds(s1.newRequests);
    assert Line(s1) == Line(s);
  }

  lemma AddNewInLine(cfg: W.Config, s: W.State)
    requires InLine(s) && Possible(s, AddNew)
    ensures InLine(InSubmit(cfg, s, AddBegin(s.pc.todo[0]), AddingNew(s.pc.todo[1..]), s.clock))
  {
    var s1 := InSubmit(cfg, s, AddBegin(s.pc.todo[0]), AddingNew(s.pc.todo[1..]), s.clock);
    assert RefIds(s.pc.todo) == RefIds(s1.submit.initialising) + RefIds(s.pc.todo[1..]);
    assert Line(s1) == Line(s);
  }

  lemma QueuedInLine(cfg: W.Config, s: W.State, k: nat, val: WalletRequest)
    requires InLine(s) && k < |s.submit.initialising|
    ensures InLine(s.(submit := EndAdd(s.submit, k, val)))
  {
    var s1 := s.(submit := EndAdd(s.submit, k, val));
    assert RefIds(s.submit.initialising) == [s.submit.initialising[0].id];
    assert Line(s1) == Line(s);
  }

  lemma {:induction false} InsertLap(a: seq<Lap>, b: seq<Lap>, x: Lap, n: nat)
    requires Ascending(a + b, n) && x.lap > 0
    ensures Ascending(a + [x] + b, n)
  {
    var before, after := a + b, a + [x] + b;
    forall i, j | 0 <= i < j < |after| && after[i].lap == 0 && after[j].lap == 0 ensures after[i].id < after[j].id {
      assert after[i] == before[if i < |a| then i else i - 1] && after[j] == before[if j < |a| then j else j - 1];
    }
    forall i | 0 <= i < |after| && after[i].lap == 0 ensures after[i].id < n {
      assert after[i] == before[if i < |a| then i else i - 1];
    }
  }

  lemma HandleRejectedInLine(cfg: W.Config, s: W.State)
    requires InLine(s) && Possible(s, HandleRejected)
    ensures InLine(HandleRejectedStep(cfg, s))
  {
    var s1, o := HandleRejectedStep(cfg, s), s.pc.failed[0];
    if Requeues(cfg, o) {
      assert RefIds(s1.submit.initialising) == [W.NextLap(o).id];
      assert Line(s) == s.submit.queued + RefIds(s.newRequests);
      InsertLap(s.submit.queued, RefIds(s.newRequests), W.NextLap(o).id, |s.arrived|);
      assert Line(s1) == s.submit.queued + [W.NextLap(o).id] + RefIds(s.newRequests);
    } else {
      assert Line(s1) == Line(s);
    }
  }

  lemma SubmitEventInLine(cfg: W.Config, s: W.State, e: W.Event)
    requires InLine(s) && Possible(s, e) && SubmitEventOf(s, e).Some?
    ensures InLine(W.Step(cfg, s, e))
  {
    var ev, s1 := SubmitEventOf(s, e).value, W.Step(cfg, s, e);
    InsideSubmit(cfg, s, e);
    if ev.AddEnd? {
      QueuedInLine(cfg, s, ev.k, ev.val);
      assert Line(s1) == Line(s.(submit := EndAdd(s.submit, ev.k, ev.val)));
    } else {
      SameAdditions(cfg.queues, s.submit, ev);
      assert Line(s1) == Line(s);
    }
  }

  lemma StepInLine(cfg: W.Config, s: W.State, e: W.Event)
    requires InLine(s) && Possible(s, e)
    ensures InLine(W.Step(cfg, s, e))
  {
    if SubmitEventOf(s, e).Some? {
      SubmitEventInLine(cfg, s, e);
    } else if ConfirmEventOf(s, e).Some? {
      InsideConfirm(cfg, s, e);
      assert Line(W.Step(cfg, s, e)) == Line(s);
    } else {
      match e
      case Receive(a) => ReceiveInLine(s, a);
      case TakeNew => TakeNewInLine(cfg, s);
      case AddNew => AddNewInLine(cfg, s);
      case HandleRejected => HandleRejectedInLine(cfg, s);
      case _ =>
    }
  }

  // -- the sends -------------------------------------------------------------------------------

  /** An order that was added and no longer waits has finished or is live. */
  lemma AheadOfWaiting<K(!new), O, R>(q: Queue.State<K, O, R>, t: K)
    requires Conserved(q) && Count(q.added, t) > 0
    requires Count(RefIds(q.initialising), t) == 0 && Count(RefIds(Waiting(q)), t) == 0
    ensures t in LogIds(q.log) || t in Live(q)
  {
    assert Placed(q, t);
    Partition(q.log[q.flushed..], t);
    LogIdsSplit(q.log, q.flushed);
    CountAppend(LogIds(q.log[..q.flushed]), LogIds(q.log[q.flushed..]), t);
    LiveCounts(q, t);
    if Count(LogIds(q.log), t) > 0 {
      var k := CountFind(LogIds(q.log), t);
    } else {
      var k := CountFind(Live(q), t);
    }
  }

  lemma SentNotWaiting(q: SubmitQueue, evs: seq<NonceEvent>, t: Lap)
    requires Obeys(q, SubmitSends(evs)) && SentFor(evs, t) > 0
    ensures Count(RefIds(q.initialising), t) == 0 && Count(RefIds(Waiting(q)), t) == 0
  {
    var l := SubmitSends(evs);
    assert forall i :: 0 <= i < |q.initialising| ==> l.waiting(q.initialising[i]);
    assert forall i :: 0 <= i < |Waiting(q)| ==> l.waiting(Waiting(q)[i]);
    NotAmong(RefIds(q.initialising), t);
    NotAmong(RefIds(Waiting(q)), t);
  }

  lemma {:induction false} NotAmong<T>(q: seq<T>, x: T)
    requires forall i :: 0 <= i < |q| ==> q[i] != x
    ensures Count(q, x) == 0
  {
    if q != [] {
      NotAmong(q[1..], x);
    }
  }

  lemma LiveCounts<K, O, R>(q: Queue.State<K, O, R>, x: K)
    ensures Count(Live(q), x) == LiveCount(q, x)
  {
    CountAppend(PoIds(Retries(q)), CurrentIds(q), x);
    CountAppend(PoIds(Retries(q)) + CurrentIds(q), TaskIds(q.tasks), x);
    CountAppend(PoIds(Retries(q)) + CurrentIds(q) + TaskIds(q.tasks), PoIds(q.retryQueue), x);
  }

  /** The order in the foreground comes after everything that was sent before it. */
  lemma SendsInLine(cfg: W.Config, s: W.State, y: Lap)
    requires Conserved(s.submit) && WithinCapacity(cfg.queues, s.submit) && InOrder(s.submit)
    requires CarriesRecorded(s) && SentOnce(s, y) && InLine(s)
    requires s.submit.current.Some? && s.submit.current.value.phase.Handling?
    requires SentFor(s.nonces, y) > 0 && y.lap == 0 && s.submit.current.value.po.order.id.lap == 0
    ensures y.id < s.submit.current.value.po.order.id.id
  {
    SentNotWaiting(s.submit, s.nonces, y);
    AheadOfWaiting(s.submit, y);
    LoneCurrent(s.submit);
    assert SubmitSends(s.nonces).task(s.submit.current.value);
    FinishedBefore(s, y);
  }

  lemma FinishedBefore(s: W.State, y: Lap)
    requires InLine(s) && InOrder(s.submit) && s.submit.current.Some? && y in LogIds(s.submit.log)
    requires Live(s.submit) == [s.submit.current.value.po.order.id]
    requires y.lap == 0 && s.submit.current.value.po.order.id.lap == 0
    ensures y.id < s.submit.current.value.po.order.id.id
  {
    var x := s.submit.current.value.po.order.id;
    var ids := LogIds(s.submit.log);
    var p :| 0 <= p < |ids| && ids[p] == y;
    assert s.submit.queued == ids + [x] + RefIds(Waiting(s.submit));
    assert s.submit.queued[p] == y && s.submit.queued[|ids|] == x;
    assert Line(s)[p] == y && Line(s)[|ids|] == x;
  }

  /** Whatever was sent before the order in the foreground arrived before it. */
  lemma SentBefore(cfg: W.Config, s: W.State, i: nat)
    requires Conserved(s.submit) && WithinCapacity(cfg.queues, s.submit) && InOrder(s.submit)
    requires CarriesRecorded(s) && AllSentOnce(s) && InLine(s)
    requires s.submit.current.Some? && s.submit.current.value.phase.Handling?
    requires s.submit.current.value.po.order.id.lap == 0
    requires i < |s.nonces| && s.nonces[i].Sent? && s.nonces[i].lap.lap == 0
    ensures s.nonces[i].lap.id < s.submit.current.value.po.order.id.id
  {
    SentCounts(s.nonces, i);
    assert SentOnce(s, s.nonces[i].lap);
    SendsInLine(cfg, s, s.nonces[i].lap);
  }

  lemma NoncesStep(cfg: W.Config, s: W.State, e: W.Event)
    requires Possible(s, e)
    ensures W.Step(cfg, s, e).nonces == match NonceEventOf(s, e) case None => s.nonces case Some(ev) => s.nonces + [ev]
  {
  }

  lemma StepSentAscending(cfg: W.Config, s: W.State, e: W.Event)
    requires Conserved(s.submit) && WithinCapacity(cfg.queues, s.submit) && InOrder(s.submit)
    requires CarriesRecorded(s) && AllSentOnce(s) && InLine(s) && SentAscending(s.nonces) && Possible(s, e)
    ensures SentAscending(W.Step(cfg, s, e).nonces)
  {
    NoncesStep(cfg, s, e);
    if NonceEventOf(s, e).Some? {
      var ev := NonceEventOf(s, e).value;
      forall i | 0 <= i < |s.nonces| && s.nonces[i].Sent? && s.nonces[i].lap.lap == 0 && ev.Sent? && ev.lap.lap == 0
        ensures s.nonces[i].lap.id < ev.lap.id
      {
        SentBefore(cfg, s, i);
      }
      LaterAscends(s.nonces, ev);
    }
  }

  lemma LaterAscends(evs: seq<NonceEvent>, ev: NonceEvent)
    requires SentAscending(evs)
    requires forall i :: 0 <= i < |evs| && evs[i].Sent? && evs[i].lap.lap == 0 && ev.Sent? && ev.lap.lap == 0
                         ==> evs[i].lap.id < ev.lap.id
    ensures SentAscending(evs + [ev])
  {
  }
}
