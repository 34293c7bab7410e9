/** The wallet worker over whole runs: conservation, capacity and the bound on handler calls. */
module WalletWorkerRuns {
  import opened Common
  import opened Queue
  import opened QueueConservation
  import opened QueueContents
  import opened Tickets
  import opened W = WalletWorker

  // ---------------------------------------------------------------------------------------------
  // Where every lap is
  // ---------------------------------------------------------------------------------------------

  function AnswerIds(answers: seq<Answer>): (r: seq<Lap>)
    ensures |r| == |answers| && forall i :: 0 <= i < |answers| ==> r[i] == answers[i].ticket
  {
    seq(|answers|, i requires 0 <= i < |answers| => answers[i].ticket)
  }

  function Requests(n: nat): (r: seq<nat>)
    ensures |r| == n && forall i :: 0 <= i < n ==> r[i] == i
  {
    seq(n, i requires 0 <= i < n => i)
  }

  function PcIds(pc: Pc): seq<Lap> {
    match pc
    case AddingNew(todo) => RefIds(todo)
    case AddingPending(pending) => RefIds(pending)
    case Answering(confirmed, failed, unconfirmed) => RefIds(confirmed) + RefIds(failed) + RefIds(unconfirmed)
    case _ => []
  }

  /** Every place of the worker, side by side. */
  function Everywhere(s: W.State): seq<Lap> {
    RefIds(s.newRequests) + PcIds(s.pc) + Places(s.submit) + Places(s.confirm)
  }

  ghost function Held(s: W.State, t: Lap): nat {
    Count(RefIds(s.newRequests), t) + Count(PcIds(s.pc), t) + Census(s.submit, t) + Census(s.confirm, t)
  }

  /** Issued and not ended. */
  ghost function Debt(s: W.State, t: Lap): int {
    Issued(Requests(|s.arrived|), s.retired, t) - Count(s.retired, t) - Count(AnswerIds(s.answers), t)
  }

  ghost predicate Accounted(s: W.State) {
    forall t :: Debt(s, t) == Held(s, t)
  }

  lemma EverywhereCounts(s: W.State, t: Lap)
    ensures Count(Everywhere(s), t) == Held(s, t)
  {
    CensusCountsPlaces(s.submit, t);
    CensusCountsPlaces(s.confirm, t);
    CountAppend(RefIds(s.newRequests), PcIds(s.pc), t);
    CountAppend(RefIds(s.newRequests) + PcIds(s.pc), Places(s.submit), t);
    CountAppend(RefIds(s.newRequests) + PcIds(s.pc) + Places(s.submit), Places(s.confirm), t);
  }

  lemma AnsweringCounts(c: seq<ConfirmedRef>, f: seq<ConfirmRef>, u: seq<ConfirmRef>, t: Lap)
    ensures Count(PcIds(Answering(c, f, u)), t) == Count(RefIds(c), t) + Count(RefIds(f), t) + Count(RefIds(u), t)
  {
    CountAppend(RefIds(c), RefIds(f), t);
    CountAppend(RefIds(c) + RefIds(f), RefIds(u), t);
  }

  lemma AnswerCounts(answers: seq<Answer>, a: Answer, t: Lap)
    ensures Count(AnswerIds(answers + [a]), t) == Count(AnswerIds(answers), t) + if a.ticket == t then 1 else 0
  {
    assert AnswerIds(answers + [a]) == AnswerIds(answers) + [a.ticket];
    CountSnoc(AnswerIds(answers), a.ticket, t);
  }

  lemma IssuedSnoc(arrived: seq<nat>, retired: seq<Lap>, v: Lap, t: Lap)
    ensures Issued(arrived, retired + [v], t)
            == Issued(arrived, retired, t) + if t == Ticket(v.id, v.lap + 1) then 1 else 0
  {
    if t.lap > 0 {
      CountSnoc(retired, v, Ticket(t.id, t.lap - 1));
    }
  }

  lemma IssuedArrives(n: nat, retired: seq<Lap>, t: Lap)
    ensures Issued(Requests(n + 1), retired, t) == Issued(Requests(n), retired, t) + if t == Ticket(n, 0) then 1 else 0
  {
    assert Requests(n + 1) == Requests(n) + [n];
    CountSnoc(Requests(n), n, t.id);
  }

  lemma ReceiveAccounts(s: W.State, a: Address, t: Lap)
    requires Debt(s, t) == Held(s, t)
    ensures Debt(ReceiveStep(s, a), t) == Held(ReceiveStep(s, a), t)
  {
    IssuedArrives(|s.arrived|, s.retired, t);
    var ref: SubmitRef := Ref(Ticket(|s.arrived|, 0), WalletRequest(a, None, None, None));
    RefSnoc(s.newRequests, ref, t);
  }

  lemma TakeNewAccounts(cfg: W.Config, s: W.State, t: Lap)
    requires Debt(s, t) == Held(s, t) && s.pc.Top?
    ensures Debt(TakeNewStep(cfg, s), t) == Held(TakeNewStep(cfg, s), t)
  {
    var s1 := TakeNewStep(cfg, s);
    var n := |s1.pc.todo|;
    assert RefIds(s1.newRequests) == RefIds(s.newRequests)[n..];
    assert RefIds(s1.pc.todo) == RefIds(s.newRequests)[..n];
    CountSplit(RefIds(s.newRequests), n, t);
  }

  lemma AddNewAccounts(cfg: W.Config, s: W.State, now: int, t: Lap)
    requires Debt(s, t) == Held(s, t) && s.pc.AddingNew? && s.pc.todo != []
    ensures var s1 := InSubmit(cfg, s, AddBegin(s.pc.todo[0]), AddingNew(s.pc.todo[1..]), now);
            Debt(s1, t) == Held(s1, t)
  {
    AddFirstCount(s.submit, s.pc.todo, t);
  }

  lemma AddPendingAccounts(cfg: W.Config, s: W.State, now: int, t: Lap)
    requires Debt(s, t) == Held(s, t) && s.pc.AddingPending? && s.pc.pending != []
    ensures var s1 := InConfirm(cfg, s, AddBegin(s.pc.pending[0]), AddingPending(s.pc.pending[1..]), now);
            Debt(s1, t) == Held(s1, t)
  {
    AddFirstCount(s.confirm, s.pc.pending, t);
  }

  // -- events inside one queue -----------------------------------------------------------------

  function SubmitEventOf(s: W.State, e: W.Event): Option<W.SubmitEvent>
    requires Possible(s, e)
  {
    match e
    case StartSubmit(now) => Some(Process(now))
    case SubmitBegin(now) =>
      if DeadlinePassed(s.submit.current.value.po.order.val, now) then Some(DeadlineEvent(s)) else None
    case SubmitEnd(o) => Some(SubmitEndEvent(s, o))
    case SubmitFailed(now, _) => Some(SubmitFailedEvent(s, now))
    case SubmitInner(sv) => Some(sv)
    case _ => None
  }

  function ConfirmEventOf(s: W.State, e: W.Event): Option<W.ConfirmEvent>
    requires Possible(s, e)
  {
    match e
    case StartConfirm(now) => Some(Process(now))
    case ConfirmHandled(o) => Some(ConfirmHandledEvent(s, o))
    case ConfirmFailed(background, error, now) => Some(ConfirmFailedEvent(s, background, error, now))
    case ConfirmInner(cv) => Some(cv)
    case _ => None
  }

  predicate Silent<K, O, R>(q: Queue.State<K, O, R>, ev: Queue.Event<K, O, R>) {
    Enabled(q, ev) && !ev.AddBegin? && !ev.Flush?
  }

  /** Such events, and the beginning of a send, change at most one queue, the clock and what belongs to
      the nonce. */
  ghost predicate Inside(s: W.State, s1: W.State) {
    && s1.newRequests == s.newRequests && s1.arrived == s.arrived && s1.retired == s.retired
    && s1.answers == s.answers
    && (s1.pc == s.pc || s1.pc.Submitting? || s1.pc.Confirming?)
    && PcIds(s1.pc) == PcIds(s.pc) && PcSize(s1.pc) == PcSize(s.pc)
    && Entering(s1.pc) == Entering(s.pc) && Passing(s1.pc) == Passing(s.pc)
  }

  lemma InsideSubmit(cfg: W.Config, s: W.State, e: W.Event)
    requires Possible(s, e) && SubmitEventOf(s, e).Some?
    ensures var ev, s1 := SubmitEventOf(s, e).value, W.Step(cfg, s, e);
            && Silent(s.submit, ev) && Inside(s, s1)
            && s1.submit == Queue.Step(cfg.queues, s.submit, ev) && s1.confirm == s.confirm
  {
  }

  lemma InsideConfirm(cfg: W.Config, s: W.State, e: W.Event)
    requires Possible(s, e) && ConfirmEventOf(s, e).Some?
    ensures var ev, s1 := ConfirmEventOf(s, e).value, W.Step(cfg, s, e);
            && Silent(s.confirm, ev) && Inside(s, s1)
            && s1.confirm == Queue.Step(cfg.queues, s.confirm, ev) && s1.submit == s.submit
  {
  }

  lemma InsideBegin(cfg: W.Config, s: W.State, now: int)
    requires Possible(s, SubmitBegin(now)) && !DeadlinePassed(s.submit.current.value.po.order.val, now)
    ensures var s1 := W.Step(cfg, s, SubmitBegin(now));
            Inside(s, s1) && s1.submit == s.submit && s1.confirm == s.confirm
  {
  }

  lemma InsideAccounts(s: W.State, s1: W.State, t: Lap)
    requires Inside(s, s1) && Census(s1.submit, t) == Census(s.submit, t)
    requires Census(s1.confirm, t) == Census(s.confirm, t)
    ensures Debt(s1, t) - Held(s1, t) == Debt(s, t) - Held(s, t)
  {
  }

  lemma InvalidCounts(answers: seq<Answer>, skipped: seq<SubmitRef>, rejected: seq<SubmitRef>, t: Lap)
    ensures Count(AnswerIds(answers + InvalidAnswers(skipped) + InvalidAnswers(OutOfTries(rejected))), t)
            == Count(AnswerIds(answers), t) + Count(RefIds(skipped), t) + Count(RefIds(rejected), t)
  {
    var a, b := InvalidAnswers(skipped), InvalidAnswers(OutOfTries(rejected));
    assert AnswerIds(a) == RefIds(skipped) && AnswerIds(b) == RefIds(rejected);
    assert AnswerIds(answers + a + b) == AnswerIds(answers) + AnswerIds(a) + AnswerIds(b);
    CountAppend(AnswerIds(answers), RefIds(skipped), t);
    CountAppend(AnswerIds(answers) + RefIds(skipped), RefIds(rejected), t);
  }

  lemma FlushSubmitAccounts(s: W.State, t: Lap)
    requires Debt(s, t) == Held(s, t) && s.pc.Submitting?
    ensures Debt(FlushSubmitStep(s), t) == Held(FlushSubmitStep(s), t)
  {
    FlushCount(s.submit, t);
    InvalidCounts(s.answers, s.submit.skipped, s.submit.rejected, t);
  }

  lemma FlushConfirmAccounts(s: W.State, t: Lap)
    requires Debt(s, t) == Held(s, t) && s.pc.Confirming?
    ensures Debt(FlushConfirmStep(s), t) == Held(FlushConfirmStep(s), t)
  {
    FlushCount(s.confirm, t);
    AnsweringCounts(s.confirm.completed, s.confirm.skipped, s.confirm.rejected, t);
  }

  lemma RefHead<V>(q: seq<Ref<Lap, V>>, t: Lap)
    requires q != []
    ensures Count(RefIds(q), t) == Count(RefIds(q[1..]), t) + if q[0].id == t then 1 else 0
  {
    assert q == [q[0]] + q[1..];
    RefCons(q[0], q[1..], t);
  }

  lemma AnswerConfirmedAccounts(s: W.State, t: Lap)
    requires Debt(s, t) == Held(s, t) && s.pc.Answering? && s.pc.confirmed != []
    ensures Debt(AnswerConfirmedStep(s), t) == Held(AnswerConfirmedStep(s), t)
  {
    var s1 := AnswerConfirmedStep(s);
    AnswerCounts(s.answers, s1.answers[|s.answers|], t);
    RefHead(s.pc.confirmed, t);
    AnsweringCounts(s.pc.confirmed, s.pc.failed, s.pc.unconfirmed, t);
    AnsweringCounts(s1.pc.confirmed, s1.pc.failed, s1.pc.unconfirmed, t);
  }

  lemma CancelledAccounts(s: W.State, receipt: Option<Receipt>, t: Lap)
    requires Debt(s, t) == Held(s, t) && s.pc.Answering? && s.pc.unconfirmed != []
    ensures Debt(CancelledStep(s, receipt), t) == Held(CancelledStep(s, receipt), t)
  {
    var s1 := CancelledStep(s, receipt);
    AnswerCounts(s.answers, s1.answers[|s.answers|], t);
    RefHead(s.pc.unconfirmed, t);
    AnsweringCounts(s.pc.confirmed, s.pc.failed, s.pc.unconfirmed, t);
    AnsweringCounts(s1.pc.confirmed, s1.pc.failed, s1.pc.unconfirmed, t);
  }

  /** The first failed order leaves the list. */
  lemma FailedHead(s: W.State, t: Lap)
    requires s.pc.Answering? && s.pc.failed != []
    ensures var s1 := s.(pc := s.pc.(failed := s.pc.failed[1..]));
            && Held(s1, t) == Held(s, t) - (if s.pc.failed[0].id == t then 1 else 0)
            && Debt(s1, t) == Debt(s, t)
  {
    RefHead(s.pc.failed, t);
    AnsweringCounts(s.pc.confirmed, s.pc.failed, s.pc.unconfirmed, t);
    AnsweringCounts(s.pc.confirmed, s.pc.failed[1..], s.pc.unconfirmed, t);
  }

  lemma RequeueAccounts(s: W.State, o: ConfirmRef, t: Lap)
    ensures var s1 := s.(submit := BeginAdd(s.submit, W.NextLap(o)), retired := s.retired + [o.id]);
            Debt(s1, t) - Held(s1, t) == Debt(s, t) - Held(s, t) - if o.id == t then 1 else 0
  {
    AddCount(s.submit, W.NextLap(o), t);
    CountSnoc(s.retired, o.id, t);
    IssuedSnoc(Requests(|s.arrived|), s.retired, o.id, t);
  }

  lemma HandleRejectedAccounts(cfg: W.Config, s: W.State, t: Lap)
    requires Debt(s, t) == Held(s, t) && s.pc.Answering? && s.pc.failed != []
    ensures Debt(HandleRejectedStep(cfg, s), t) == Held(HandleRejectedStep(cfg, s), t)
  {
    var o, s1 := s.pc.failed[0], s.(pc := s.pc.(failed := s.pc.failed[1..]));
    FailedHead(s, t);
    if Requeues(cfg, o) {
      RequeueAccounts(s1, o, t);
    } else {
      AnswerCounts(s.answers, HandleRejectedStep(cfg, s).answers[|s.answers|], t);
    }
  }

  lemma QueueAccounts(cfg: W.Config, s: W.State, e: W.Event, t: Lap)
    requires Possible(s, e) && (SubmitEventOf(s, e).Some? || ConfirmEventOf(s, e).Some?)
    requires Conserved(s.submit) && Conserved(s.confirm) && Debt(s, t) == Held(s, t)
    ensures Debt(W.Step(cfg, s, e), t) == Held(W.Step(cfg, s, e), t)
  {
    if SubmitEventOf(s, e).Some? {
      InsideSubmit(cfg, s, e);
      SilentCount(cfg.queues, s.submit, SubmitEventOf(s, e).value, t);
      InsideAccounts(s, W.Step(cfg, s, e), t);
    } else {
      InsideConfirm(cfg, s, e);
      SilentCount(cfg.queues, s.confirm, ConfirmEventOf(s, e).value, t);
      InsideAccounts(s, W.Step(cfg, s, e), t);
    }
  }

  lemma OutsideAccounts(cfg: W.Config, s: W.State, e: W.Event, t: Lap)
    requires Possible(s, e) && SubmitEventOf(s, e).None? && ConfirmEventOf(s, e).None?
    requires Debt(s, t) == Held(s, t)
    ensures Debt(W.Step(cfg, s, e), t) == Held(W.Step(cfg, s, e), t)
  {
    match e
    case SubmitBegin(now) =>
      InsideBegin(cfg, s, now);
      InsideAccounts(s, W.Step(cfg, s, e), t);
    case Receive(a) => ReceiveAccounts(s, a, t);
    case TakeNew => TakeNewAccounts(cfg, s, t);
    case AddNew => AddNewAccounts(cfg, s, s.clock, t);
    case FlushSubmit => FlushSubmitAccounts(s, t);
    case AddPending => AddPendingAccounts(cfg, s, s.clock, t);
    case FlushConfirm => FlushConfirmAccounts(s, t);
    case AnswerConfirmed => AnswerConfirmedAccounts(s, t);
    case HandleRejected => HandleRejectedAccounts(cfg, s, t);
    case Cancelled(receipt) => CancelledAccounts(s, receipt, t);
    case EndPass =>
    case _ =>
  }

  /** No step loses or duplicates a lap. */
  lemma StepAccounts(cfg: W.Config, s: W.State, e: W.Event, t: Lap)
    requires Conserved(s.submit) && Conserved(s.confirm)
    requires Debt(s, t) == Held(s, t) && Possible(s, e)
    ensures Debt(W.Step(cfg, s, e), t) == Held(W.Step(cfg, s, e), t)
  {
    if SubmitEventOf(s, e).Some? || ConfirmEventOf(s, e).Some? {
      QueueAccounts(cfg, s, e, t);
    } else {
      OutsideAccounts(cfg, s, e, t);
    }
  }

  // ---------------------------------------------------------------------------------------------
  // Capacity
  // ---------------------------------------------------------------------------------------------

  function PcSize(pc: Pc): nat {
    match pc
    case AddingNew(todo) => |todo|
    case AddingPending(pending) => |pending|
    case Answering(confirmed, failed, unconfirmed) => |confirmed| + |failed| + |unconfirmed|
    case _ => 0
  }

  /** Orders in the two queues and on the way between and out of them. */
  predicate WithinLimit(cfg: W.Config, s: W.State) {
    PcSize(s.pc) + s.submit.size + s.confirm.size <= cfg.maxPendingTransactions
  }

  lemma QueueLimit(cfg: W.Config, s: W.State, e: W.Event)
    requires Possible(s, e) && (SubmitEventOf(s, e).Some? || ConfirmEventOf(s, e).Some?)
    requires WithinLimit(cfg, s)
    ensures WithinLimit(cfg, W.Step(cfg, s, e))
  {
    if SubmitEventOf(s, e).Some? {
      InsideSubmit(cfg, s, e);
      SilentAdds(cfg.queues, s.submit, SubmitEventOf(s, e).value);
    } else {
      InsideConfirm(cfg, s, e);
      SilentAdds(cfg.queues, s.confirm, ConfirmEventOf(s, e).value);
    }
  }

  lemma StepLimit(cfg: W.Config, s: W.State, e: W.Event)
    requires WithinLimit(cfg, s) && Possible(s, e)
    ensures WithinLimit(cfg, W.Step(cfg, s, e))
  {
    if SubmitEventOf(s, e).Some? || ConfirmEventOf(s, e).Some? {
      QueueLimit(cfg, s, e);
    } else {
      match e
      case SubmitBegin(now) => InsideBegin(cfg, s, now);
      case _ =>
    }
  }

  // ---------------------------------------------------------------------------------------------
  // Every lap enters each queue at most once, and laps are limited
  // ---------------------------------------------------------------------------------------------

  function Entering(pc: Pc): seq<Lap> {
    if pc.AddingNew? then RefIds(pc.todo) else []
  }

  function Passing(pc: Pc): seq<Lap> {
    if pc.AddingPending? then RefIds(pc.pending) else []
  }

  ghost predicate SubmittedOnce(s: W.State, t: Lap) {
    Issued(Requests(|s.arrived|), s.retired, t)
    == Count(RefIds(s.newRequests), t) + Count(Entering(s.pc), t) + Count(s.submit.added, t)
  }

  ghost predicate ConfirmedOnce(s: W.State, t: Lap) {
    Count(s.confirm.added, t) + Count(Passing(s.pc), t) + Census(s.submit, t) <= Count(s.submit.added, t)
  }

  ghost predicate LapsLimited(cfg: W.Config, s: W.State) {
    && LapsBelow(s.submit.added, cfg.maxTries + 1)
    && (forall i :: 0 <= i < |s.newRequests| ==> s.newRequests[i].id.lap == 0)
    && (s.pc.AddingNew? ==> forall i :: 0 <= i < |s.pc.todo| ==> s.pc.todo[i].id.lap == 0)
  }

  ghost predicate Passage(s: W.State, t: Lap) {
    SubmittedOnce(s, t) && ConfirmedOnce(s, t)
  }

  lemma ReceivePasses(s: W.State, a: Address, t: Lap)
    requires Passage(s, t)
    ensures Passage(ReceiveStep(s, a), t)
  {
    var ref: SubmitRef := Ref(Ticket(|s.arrived|, 0), WalletRequest(a, None, None, None));
    IssuedArrives(|s.arrived|, s.retired, t);
    RefSnoc(s.newRequests, ref, t);
  }

  lemma TakeNewPasses(cfg: W.Config, s: W.State, t: Lap)
    requires Passage(s, t) && s.pc.Top?
    ensures Passage(TakeNewStep(cfg, s), t)
  {
    var s1 := TakeNewStep(cfg, s);
    var n := |s1.pc.todo|;
    assert RefIds(s1.newRequests) == RefIds(s.newRequests)[n..];
    assert RefIds(s1.pc.todo) == RefIds(s.newRequests)[..n];
    CountSplit(RefIds(s.newRequests), n, t);
  }

  lemma AddNewPasses(cfg: W.Config, s: W.State, now: int, t: Lap)
    requires Passage(s, t) && s.pc.AddingNew? && s.pc.todo != []
    ensures Passage(InSubmit(cfg, s, AddBegin(s.pc.todo[0]), AddingNew(s.pc.todo[1..]), now), t)
  {
    RefHead(s.pc.todo, t);
    CountSnoc(s.submit.added, s.pc.todo[0].id, t);
    AddCount(s.submit, s.pc.todo[0], t);
  }

  lemma AddPendingPasses(cfg: W.Config, s: W.State, now: int, t: Lap)
    requires Passage(s, t) && s.pc.AddingPending? && s.pc.pending != []
    ensures Passage(InConfirm(cfg, s, AddBegin(s.pc.pending[0]), AddingPending(s.pc.pending[1..]), now), t)
  {
    RefHead(s.pc.pending, t);
    CountSnoc(s.confirm.added, s.pc.pending[0].id, t);
  }

  lemma InsidePasses(s: W.State, s1: W.State, t: Lap)
    requires Inside(s, s1) && Passage(s, t)
    requires s1.submit.added == s.submit.added && s1.confirm.added == s.confirm.added
    requires Census(s1.submit, t) == Census(s.submit, t)
    ensures Passage(s1, t)
  {
  }

  lemma StillPasses(s: W.State, s1: W.State, t: Lap)
    requires s1.newRequests == s.newRequests && s1.arrived == s.arrived && s1.retired == s.retired
    requires s1.submit == s.submit && s1.confirm.added == s.confirm.added
    requires Entering(s1.pc) == Entering(s.pc) && Passing(s1.pc) == Passing(s.pc)
    requires Passage(s, t)
    ensures Passage(s1, t)
  {
  }

  lemma FlushSubmitPasses(s: W.State, t: Lap)
    requires Passage(s, t) && s.pc.Submitting?
    ensures Passage(FlushSubmitStep(s), t)
  {
  }

  lemma HandleRejectedPasses(cfg: W.Config, s: W.State, t: Lap)
    requires Passage(s, t) && s.pc.Answering? && s.pc.failed != []
    ensures Passage(HandleRejectedStep(cfg, s), t)
  {
    var o := s.pc.failed[0];
    if Requeues(cfg, o) {
      AddCount(s.submit, W.NextLap(o), t);
      CountSnoc(s.submit.added, W.NextLap(o).id, t);
      IssuedSnoc(Requests(|s.arrived|), s.retired, o.id, t);
    }
  }

  lemma QueuePasses(cfg: W.Config, s: W.State, e: W.Event, t: Lap)
    requires Possible(s, e) && (SubmitEventOf(s, e).Some? || ConfirmEventOf(s, e).Some?)
    requires Conserved(s.submit) && Conserved(s.confirm) && Passage(s, t)
    ensures Passage(W.Step(cfg, s, e), t)
  {
    if SubmitEventOf(s, e).Some? {
      InsideSubmit(cfg, s, e);
      SilentAdds(cfg.queues, s.submit, SubmitEventOf(s, e).value);
      SilentCount(cfg.queues, s.submit, SubmitEventOf(s, e).value, t);
      InsidePasses(s, W.Step(cfg, s, e), t);
    } else {
      InsideConfirm(cfg, s, e);
      SilentAdds(cfg.queues, s.confirm, ConfirmEventOf(s, e).value);
      InsidePasses(s, W.Step(cfg, s, e), t);
    }
  }

  lemma OutsidePasses(cfg: W.Config, s: W.State, e: W.Event, t: Lap)
    requires Possible(s, e) && SubmitEventOf(s, e).None? && ConfirmEventOf(s, e).None?
    requires Passage(s, t)
    ensures Passage(W.Step(cfg, s, e), t)
  {
    match e
    case SubmitBegin(now) =>
      InsideBegin(cfg, s, now);
      InsidePasses(s, W.Step(cfg, s, e), t);
    case Receive(a) => ReceivePasses(s, a, t);
    case TakeNew => TakeNewPasses(cfg, s, t);
    case AddNew => AddNewPasses(cfg, s, s.clock, t);
    case FlushSubmit => FlushSubmitPasses(s, t);
    case AddPending => AddPendingPasses(cfg, s, s.clock, t);
    case HandleRejected => HandleRejectedPasses(cfg, s, t);
    case FlushConfirm => StillPasses(s, FlushConfirmStep(s), t);
    case AnswerConfirmed => StillPasses(s, AnswerConfirmedStep(s), t);
    case Cancelled(receipt) => StillPasses(s, CancelledStep(s, receipt), t);
    case _ =>
  }

  lemma StepPasses(cfg: W.Config, s: W.State, e: W.Event, t: Lap)
    requires Conserved(s.submit) && Conserved(s.confirm)
    requires Passage(s, t) && Possible(s, e)
    ensures Passage(W.Step(cfg, s, e), t)
  {
    if SubmitEventOf(s, e).Some? || ConfirmEventOf(s, e).Some? {
      QueuePasses(cfg, s, e, t);
    } else {
      OutsidePasses(cfg, s, e, t);
    }
  }

  lemma StepLaps(cfg: W.Config, s: W.State, e: W.Event)
    requires LapsLimited(cfg, s) && Possible(s, e)
    ensures LapsLimited(cfg, W.Step(cfg, s, e))
  {
    if SubmitEventOf(s, e).Some? {
      InsideSubmit(cfg, s, e);
      SilentAdds(cfg.queues, s.submit, SubmitEventOf(s, e).value);
    }
  }
}
