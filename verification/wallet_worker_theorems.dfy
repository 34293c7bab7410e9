/** What holds of the wallet worker in every run, and what the submitter can rely on. */
module WalletWorkerTheorems {
  import opened Common
  import opened Queue
  import opened QueueConservation
  import opened QueueBounds
  import opened Tickets
  import opened W = WalletWorker
  import opened WalletWorkerRuns
  import opened WalletWorkerContents
  import opened WalletWorkerSends
  import opened WalletWorkerOrder
  import QueueRuns

  ghost predicate AllPass(s: W.State) {
    forall t :: Passage(s, t)
  }

  ghost predicate Good(cfg: W.Config, s: W.State) {
    && QueueRuns.Good(cfg.queues, s.submit) && QueueRuns.Good(cfg.queues, s.confirm)
    && Accounted(s)
    && WithinLimit(cfg, s)
    && AllPass(s)
    && LapsLimited(cfg, s)
    && Contents(s)
    && Captured(s) && NoncesKept(s)
    && SendsKept(s)
    && InLine(s) && SentAscending(s.nonces)
  }

  lemma GoodInit(cfg: W.Config, clock: int, nonce: nat)
    ensures Good(cfg, W.Init(clock, nonce))
  {
    QueueRuns.GoodInit<Lap, WalletRequest, PendingTx>(cfg.queues, clock);
    QueueRuns.GoodInit<Lap, PendingTx, ConfirmedTx>(cfg.queues, clock);
    InitAccounts(clock, nonce);
    InitContents(cfg, clock, nonce);
    InitSends(clock, nonce);
  }

  lemma InitAccounts(clock: int, nonce: nat)
    ensures Accounted(W.Init(clock, nonce)) && AllPass(W.Init(clock, nonce))
  {
    forall t: Lap
      ensures Debt(W.Init(clock, nonce), t) == Held(W.Init(clock, nonce), t) && Passage(W.Init(clock, nonce), t)
    {
      InitCounts(clock, nonce, t);
    }
  }

  lemma InitContents(cfg: W.Config, clock: int, nonce: nat)
    ensures var s := W.Init(clock, nonce);
            && WithinLimit(cfg, s) && LapsLimited(cfg, s) && Contents(s)
            && Captured(s) && NoncesKept(s) && SentAscending(s.nonces)
  {
  }

  lemma InitSends(clock: int, nonce: nat)
    ensures SendsKept(W.Init(clock, nonce)) && InLine(W.Init(clock, nonce))
  {
    assert Line(W.Init(clock, nonce)) == [];
  }

  lemma InitCounts(clock: int, nonce: nat, t: Lap)
    ensures Debt(W.Init(clock, nonce), t) == Held(W.Init(clock, nonce), t) && Passage(W.Init(clock, nonce), t)
  {
  }

  lemma StepSubmitQueue(cfg: W.Config, s: W.State, e: W.Event)
    requires QueueRuns.Good(cfg.queues, s.submit) && Possible(s, e)
    ensures QueueRuns.Good(cfg.queues, W.Step(cfg, s, e).submit)
  {
    if SubmitEventOf(s, e).Some? {
      InsideSubmit(cfg, s, e);
      QueueRuns.GoodStep(cfg.queues, s.submit, SubmitEventOf(s, e).value);
    } else {
      match e
      case AddNew => QueueRuns.GoodStep(cfg.queues, s.submit, AddBegin(s.pc.todo[0]));
      case FlushSubmit => QueueRuns.GoodStep(cfg.queues, s.submit, Flush);
      case HandleRejected => QueueRuns.GoodStep(cfg.queues, s.submit, AddBegin(W.NextLap(s.pc.failed[0])));
      case _ =>
    }
  }

  lemma StepConfirmQueue(cfg: W.Config, s: W.State, e: W.Event)
    requires QueueRuns.Good(cfg.queues, s.confirm) && Possible(s, e)
    ensures QueueRuns.Good(cfg.queues, W.Step(cfg, s, e).confirm)
  {
    if ConfirmEventOf(s, e).Some? {
      InsideConfirm(cfg, s, e);
      QueueRuns.GoodStep(cfg.queues, s.confirm, ConfirmEventOf(s, e).value);
    } else {
      match e
      case AddPending => QueueRuns.GoodStep(cfg.queues, s.confirm, AddBegin(s.pc.pending[0]));
      case FlushConfirm => QueueRuns.GoodStep(cfg.queues, s.confirm, Flush);
      case _ =>
    }
  }

  lemma StepCounts(cfg: W.Config, s: W.State, e: W.Event)
    requires QueueRuns.Good(cfg.queues, s.submit) && QueueRuns.Good(cfg.queues, s.confirm) && Possible(s, e)
    requires Accounted(s) && AllPass(s)
    ensures Accounted(W.Step(cfg, s, e)) && AllPass(W.Step(cfg, s, e))
  {
    forall t ensures Debt(W.Step(cfg, s, e), t) == Held(W.Step(cfg, s, e), t) {
      StepAccounts(cfg, s, e, t);
    }
    forall t ensures Passage(W.Step(cfg, s, e), t) {
      StepPasses(cfg, s, e, t);
    }
  }

  lemma GoodStep(cfg: W.Config, s: W.State, e: W.Event)
    requires Good(cfg, s) && Possible(s, e)
    ensures Good(cfg, W.Step(cfg, s, e))
  {
    StepSubmitQueue(cfg, s, e);
    StepConfirmQueue(cfg, s, e);
    StepCounts(cfg, s, e);
    StepLimit(cfg, s, e);
    StepLaps(cfg, s, e);
    StepContents(cfg, s, e);
    StepCaptured(cfg, s, e);
    StepNonces(cfg, s, e);
    EntersFresh(cfg, s, e);
    StepSends(cfg, s, e);
    StepInLine(cfg, s, e);
    StepSentAscending(cfg, s, e);
  }

  /** What enters a queue was never in it; what is handled stands there once. */
  lemma EntersFresh(cfg: W.Config, s: W.State, e: W.Event)
    requires Accounted(s) && AllPass(s) && Conserved(s.submit) && Conserved(s.confirm) && Possible(s, e)
    ensures Fresh(cfg, s, e)
  {
    match e
    case SubmitEnd(_) => HandledOnce(s, s.submit.current.value.po.order.id);
    case ConfirmHandled(_) => HandledOnce(s, s.confirm.current.value.po.order.id);
    case AddNew => NewToSubmit(s, s.pc.todo[0].id);
    case AddPending => NewToConfirm(s, s.pc.pending[0].id);
    case HandleRejected => NextIsNew(s, s.pc.failed[0]);
    case _ =>
  }

  lemma HandledOnce(s: W.State, x: Lap)
    requires Accounted(s) && AllPass(s) && Conserved(s.submit) && Conserved(s.confirm)
    ensures Census(s.submit, x) <= Count(s.submit.added, x) <= 1
    ensures Census(s.confirm, x) <= Count(s.confirm.added, x) <= 1
  {
    assert Passage(s, x) && Placed(s.submit, x) && Placed(s.confirm, x);
    AddedOnce(s, x);
  }

  lemma NewToSubmit(s: W.State, x: Lap)
    requires Accounted(s) && AllPass(s) && s.pc.AddingNew? && s.pc.todo != [] && x == s.pc.todo[0].id
    ensures Count(s.submit.added, x) == 0
  {
    assert Passage(s, x);
    BooksBalance(s);
    IssuedOnce(Everywhere(s), Requests(|s.arrived|), s.retired, AnswerIds(s.answers), x);
    RefHead(s.pc.todo, x);
  }

  lemma NewToConfirm(s: W.State, x: Lap)
    requires Accounted(s) && AllPass(s) && s.pc.AddingPending? && s.pc.pending != [] && x == s.pc.pending[0].id
    ensures Count(s.confirm.added, x) == 0
  {
    assert Passage(s, x);
    AddedOnce(s, x);
    RefHead(s.pc.pending, x);
  }

  lemma FailedIsHeld(s: W.State, o: ConfirmRef)
    requires s.pc.Answering? && s.pc.failed != [] && o == s.pc.failed[0]
    ensures Count(Everywhere(s), o.id) > 0
  {
    RefHead(s.pc.failed, o.id);
    AnsweringCounts(s.pc.confirmed, s.pc.failed, s.pc.unconfirmed, o.id);
    EverywhereCounts(s, o.id);
  }

  lemma FailedIsNotRetired(s: W.State, o: ConfirmRef)
    requires Accounted(s) && s.pc.Answering? && s.pc.failed != [] && o == s.pc.failed[0]
    ensures Count(s.retired, o.id) == 0
  {
    BooksBalance(s);
    IssuedOnce(Everywhere(s), Requests(|s.arrived|), s.retired, AnswerIds(s.answers), o.id);
    FailedIsHeld(s, o);
  }

  lemma NextIsNew(s: W.State, o: ConfirmRef)
    requires Accounted(s) && AllPass(s) && s.pc.Answering? && s.pc.failed != [] && o == s.pc.failed[0]
    ensures Count(s.submit.added, W.NextLap(o).id) == 0
  {
    FailedIsNotRetired(s, o);
    var t: Lap := Ticket(o.id.id, o.id.lap + 1);
    assert Ticket(t.id, t.lap - 1) == o.id;
    assert Passage(s, t) && SubmittedOnce(s, t);
  }

  lemma {:induction false} GoodRun(cfg: W.Config, s: W.State, evs: seq<W.Event>)
    requires Good(cfg, s) && W.Run(cfg, s, evs).Some?
    ensures Good(cfg, W.Run(cfg, s, evs).value)
    decreases |evs|
  {
    if evs != [] {
      GoodStep(cfg, s, evs[0]);
      GoodRun(cfg, W.Step(cfg, s, evs[0]), evs[1..]);
    }
  }

  ghost predicate Reachable(cfg: W.Config, s: W.State) {
    exists clock, nonce, evs :: W.Run(cfg, W.Init(clock, nonce), evs) == Some(s)
  }

  lemma {:induction false} RunSnoc(cfg: W.Config, s: W.State, evs: seq<W.Event>, e: W.Event)
    requires W.Run(cfg, s, evs).Some? && Possible(W.Run(cfg, s, evs).value, e)
    ensures W.Run(cfg, s, evs + [e]) == Some(W.Step(cfg, W.Run(cfg, s, evs).value, e))
    decreases |evs|
  {
    if evs == [] {
      assert evs + [e] == [e] && [e][1..] == [];
    } else {
      RunSnoc(cfg, W.Step(cfg, s, evs[0]), evs[1..], e);
      assert (evs + [e])[1..] == evs[1..] + [e];
    }
  }

  lemma ReachableInit(cfg: W.Config, clock: int, nonce: nat)
    ensures Reachable(cfg, W.Init(clock, nonce))
  {
    assert W.Run(cfg, W.Init(clock, nonce), []) == Some(W.Init(clock, nonce));
  }

  lemma ReachableStep(cfg: W.Config, s: W.State, e: W.Event)
    requires Reachable(cfg, s) && Possible(s, e)
    ensures Reachable(cfg, W.Step(cfg, s, e))
  {
    var clock, nonce, evs :| W.Run(cfg, W.Init(clock, nonce), evs) == Some(s);
    RunSnoc(cfg, W.Init(clock, nonce), evs, e);
  }

  lemma ReachableIsGood(cfg: W.Config, s: W.State)
    requires Reachable(cfg, s)
    ensures Good(cfg, s)
  {
    var clock, nonce, evs :| W.Run(cfg, W.Init(clock, nonce), evs) == Some(s);
    GoodInit(cfg, clock, nonce);
    GoodRun(cfg, W.Init(clock, nonce), evs);
  }

  lemma ReachableContents(cfg: W.Config, s: W.State)
    requires Reachable(cfg, s)
    ensures Contents(s) && NoncesKept(s) && SendsKept(s) && SentAscending(s.nonces)
  {
    ReachableIsGood(cfg, s);
  }

  lemma {:induction false} RequestsDistinct(n: nat, x: nat)
    ensures Count(Requests(n), x) == if x < n then 1 else 0
  {
    if n == 0 {
      assert Requests(0) == [];
    } else {
      RequestsDistinct(n - 1, x);
      var front: seq<nat> := Requests(n - 1);
      assert Requests(n) == front + [n - 1];
      CountSnoc<nat>(Requests(n - 1), n - 1, x);
    }
  }

  lemma BooksBalance(s: W.State)
    requires Accounted(s)
    ensures Balanced(Everywhere(s), Requests(|s.arrived|), s.retired, AnswerIds(s.answers))
    ensures Distinct(Requests(|s.arrived|))
  {
    forall t ensures BalancedAt(Everywhere(s), Requests(|s.arrived|), s.retired, AnswerIds(s.answers), t) {
      EverywhereCounts(s, t);
      assert Debt(s, t) == Held(s, t);
    }
    forall x ensures Count(Requests(|s.arrived|), x) <= 1 {
      RequestsDistinct(|s.arrived|, x);
    }
  }

  /** In every run each request received is in exactly one place of the worker or answered exactly once,
      however often it was requeued. */
  lemma AnsweredAtMostOnce(cfg: W.Config, s: W.State, x: nat)
    requires Reachable(cfg, s)
    ensures CountId(Everywhere(s), x) + CountId(AnswerIds(s.answers), x) == if x < |s.arrived| then 1 else 0
  {
    ReachableIsGood(cfg, s);
    BooksBalance(s);
    OnePlaceOverall(Everywhere(s), Requests(|s.arrived|), s.retired, AnswerIds(s.answers), x);
    RequestsDistinct(|s.arrived|, x);
  }

  /** Once the worker has drained, every request has exactly one answer. */
  lemma AnsweredOnceDrained(cfg: W.Config, s: W.State, x: nat)
    requires Reachable(cfg, s) && x < |s.arrived|
    requires s.newRequests == [] && s.pc.Top? && s.submit.size == 0 && s.confirm.size == 0
    ensures CountId(AnswerIds(s.answers), x) == 1
  {
    AnsweredAtMostOnce(cfg, s, x);
    ReachableIsGood(cfg, s);
    assert Everywhere(s) == [] by {
      assert |Places(s.submit)| == 0 && |Places(s.confirm)| == 0;
    }
  }

  /** In every run each answer goes back to where its request came from, and is a success with
      transaction and receipt, or carries exactly one of the two errors. A transaction it names is the one
      accepted for the lap it answers or that one's replacement, and a success has the receipt of just
      that transaction. */
  lemma AnswersComplete(cfg: W.Config, s: W.State, i: nat)
    requires Reachable(cfg, s) && i < |s.answers|
    ensures Returned(s.arrived, s.answers[i])
    ensures Succeeded(s.answers[i]) || NotSubmitted(s.answers[i]) || NotConfirmed(s.answers[i])
    ensures AnswerSent(s.nonces, s.replacements, s.answers[i])
    ensures s.answers[i].tx.Some? ==> SentWith(s.nonces, s.answers[i].ticket, s.answers[i].tx.value.nonce)
  {
    ReachableContents(cfg, s);
    assert AnswerLawful(s.arrived, s.answers[i]);
    assert AnswerSent(s.nonces, s.replacements, s.answers[i]);
    if s.answers[i].tx.Some? {
      EitherMatches(s.nonces, s.replacements, s.answers[i].ticket, s.answers[i].tx.value);
    }
  }

  lemma EitherMatches(evs: seq<NonceEvent>, reps: seq<Replacement>, t: Lap, tx: Tx)
    requires ReplacementsMatch(evs, reps) && SentOrReplaces(evs, reps, t, tx)
    ensures SentWith(evs, t, tx.nonce)
  {
    if Recorded(evs, t, tx) {
      RecordedMatches(evs, t, tx);
    } else {
      var k :| 0 <= k < |reps| && reps[k] == Replacement(t, tx.nonce, tx.hash);
    }
  }

  /** In every run the two queues together never hold more orders than allowed, requeues included. */
  lemma CapacityHolds(cfg: W.Config, s: W.State)
    requires Reachable(cfg, s)
    ensures s.submit.size + s.confirm.size <= cfg.maxPendingTransactions
    ensures s.submit.size == |Places(s.submit)| && s.confirm.size == |Places(s.confirm)|
  {
    ReachableIsGood(cfg, s);
  }

  /** In every run each queue works on at most one order, and orders leave it in the order they were
      queued: the finished ones are a prefix of the queued ones. */
  lemma OneAtATime(cfg: W.Config, s: W.State)
    requires Reachable(cfg, s)
    ensures |Live(s.submit)| <= 1 && LogIds(s.submit.log) <= s.submit.queued
    ensures |Live(s.confirm)| <= 1 && LogIds(s.confirm.log) <= s.confirm.queued
  {
    ReachableIsGood(cfg, s);
    FifoQueue(cfg.queues, s.submit);
    FifoQueue(cfg.queues, s.confirm);
  }

  lemma FifoQueue<O, R>(cfg: Queue.Config, q: Queue.State<Lap, O, R>)
    requires QueueRuns.Good(cfg, q) && cfg.maxConcurrent == Some(1)
    ensures |Live(q)| <= 1 && LogIds(q.log) <= q.queued
  {
  }

  lemma AddedOnce(s: W.State, t: Lap)
    requires Accounted(s) && Passage(s, t)
    ensures Count(s.submit.added, t) <= 1 && Count(s.confirm.added, t) <= Count(s.submit.added, t)
  {
    BooksBalance(s);
    IssuedOnce(Everywhere(s), Requests(|s.arrived|), s.retired, AnswerIds(s.answers), t);
  }

  lemma SubmitLapsBelow(cfg: W.Config, s: W.State, i: nat)
    requires Good(cfg, s) && i < |s.submit.calls|
    ensures s.submit.calls[i].lap < cfg.maxTries + 1
  {
    var t := s.submit.calls[i];
    CountPositive(s.submit.calls, i);
    QueueRuns.CallsWithinTries(cfg.queues, s.submit, t, Count(s.submit.added, t));
    var k := CountFind(s.submit.added, t);
  }

  lemma ConfirmLapsBelow(cfg: W.Config, s: W.State, i: nat)
    requires Good(cfg, s) && i < |s.confirm.calls|
    ensures s.confirm.calls[i].lap < cfg.maxTries + 1
  {
    var t := s.confirm.calls[i];
    CountPositive(s.confirm.calls, i);
    QueueRuns.CallsWithinTries(cfg.queues, s.confirm, t, Count(s.confirm.added, t));
    assert Passage(s, t);
    AddedOnce(s, t);
    var k := CountFind(s.submit.added, t);
  }

  lemma CallsPerLap(cfg: W.Config, s: W.State, t: Lap)
    requires Good(cfg, s)
    ensures Count(s.submit.calls, t) <= Tries(cfg.queues) && Count(s.confirm.calls, t) <= Tries(cfg.queues)
  {
    assert Passage(s, t);
    AddedOnce(s, t);
    QueueRuns.CallsWithinTries(cfg.queues, s.submit, t, 1);
    QueueRuns.CallsWithinTries(cfg.queues, s.confirm, t, 1);
  }

  lemma TwiceBound(a: nat, b: nat, n: nat, m: nat)
    requires a <= n * m && b <= n * m
    ensures a + b <= 2 * n * m
  {
  }

  /** In every run a request causes at most 2 * N * (maxTries + 1) handler calls, N = max(1, maxTries):
      at most N in each queue on each of at most maxTries + 1 laps. */
  lemma HandlerCallsBounded(cfg: W.Config, s: W.State, x: nat)
    requires Reachable(cfg, s)
    ensures CountId(s.submit.calls, x) + CountId(s.confirm.calls, x)
            <= 2 * Tries(cfg.queues) * (cfg.maxTries + 1)
  {
    ReachableIsGood(cfg, s);
    var n, laps := Tries(cfg.queues), cfg.maxTries + 1;
    forall i | 0 <= i < |s.submit.calls| ensures s.submit.calls[i].lap < laps {
      SubmitLapsBelow(cfg, s, i);
    }
    forall i | 0 <= i < |s.confirm.calls| ensures s.confirm.calls[i].lap < laps {
      ConfirmLapsBelow(cfg, s, i);
    }
    forall l: nat | l < laps
      ensures Count(s.submit.calls, Ticket(x, l)) <= n && Count(s.confirm.calls, Ticket(x, l)) <= n
    {
      CallsPerLap(cfg, s, Ticket(x, l));
    }
    OccurrencesBounded(s.submit.calls, x, laps, n);
    OccurrencesBounded(s.confirm.calls, x, laps, n);
    TwiceBound(CountId(s.submit.calls, x), CountId(s.confirm.calls, x), n, laps);
  }

  /** In every run two sends without a resync from the first to the second differ by exactly the number
      of sends accepted from the first on: no gap, no repeat, and none consumed by a failure. */
  lemma NonceDiscipline(cfg: W.Config, s: W.State, i: nat, j: nat)
    requires Reachable(cfg, s) && i < j < |s.nonces|
    requires forall k :: i <= k <= j ==> !s.nonces[k].Resync?
    ensures s.nonces[j].nonce == s.nonces[i].nonce + SentCount(s.nonces[i..j])
    ensures s.nonces[i].Sent? ==> s.nonces[i].nonce < s.nonces[j].nonce
  {
    ReachableContents(cfg, s);
    NoncesConsecutive(s.firstNonce, s.nonces, i, j);
    if s.nonces[i].Sent? {
      assert s.nonces[i..j][0] == s.nonces[i];
      FirstCounts(s.nonces[i..j]);
    }
  }

  /** In every run the nonce a send read before it waited is still the current one when it ends. */
  lemma NonceUntouchedWhileSending(cfg: W.Config, s: W.State)
    requires Reachable(cfg, s) && s.sending.Some?
    ensures s.sending.value == s.nonce
    ensures s.submit.current.Some? && s.submit.current.value.phase.Handling?
  {
    ReachableIsGood(cfg, s);
  }

  /** In every run each transaction an order carries, in whatever place, was recorded as accepted for
      its lap, and at most one was ever accepted for it. */
  lemma TransactionsAreRecorded(cfg: W.Config, s: W.State, t: Lap)
    requires Reachable(cfg, s)
    ensures CarriesRecorded(s)
    ensures SentFor(s.nonces, t) <= 1
  {
    ReachableContents(cfg, s);
    assert SentOnce(s, t);
  }

  /** So two transactions accepted without a resync between them belong to different laps and never share
      a nonce. */
  lemma PendingNoncesDiffer(cfg: W.Config, s: W.State, i: nat, j: nat)
    requires Reachable(cfg, s) && i < j < |s.nonces| && s.nonces[i].Sent? && s.nonces[j].Sent?
    requires forall k :: i <= k <= j ==> !s.nonces[k].Resync?
    ensures s.nonces[i].lap != s.nonces[j].lap && s.nonces[i].nonce != s.nonces[j].nonce
  {
    NonceDiscipline(cfg, s, i, j);
    ReachableContents(cfg, s);
    assert SentOnce(s, s.nonces[i].lap);
    TwoSends(s.nonces, i, j);
  }

  lemma {:induction false} TwoSends(evs: seq<NonceEvent>, i: nat, j: nat)
    requires i < j < |evs| && evs[i].Sent? && evs[j].Sent?
    ensures evs[i].lap == evs[j].lap ==> SentFor(evs, evs[i].lap) >= 2
  {
    var front := evs[..|evs| - 1];
    if j < |front| {
      TwoSends(front, i, j);
    } else {
      assert front[i] == evs[i];
      SentCounts(front, i);
    }
  }

  /** In every run a lap is replaced at most once, with the nonce of its accepted transaction. */
  lemma AtMostOneReplacement(cfg: W.Config, s: W.State, t: Lap, i: nat)
    requires Reachable(cfg, s)
    ensures ReplacedFor(s.replacements, t) <= 1
    ensures i < |s.replacements| ==>
              && SentWith(s.nonces, s.replacements[i].lap, s.replacements[i].nonce)
              && SentFor(s.nonces, s.replacements[i].lap) == 1
  {
    ReachableContents(cfg, s);
    assert SentOnce(s, t);
    if i < |s.replacements| {
      assert SentOnce(s, s.replacements[i].lap);
      var k :| 0 <= k < |s.nonces| && s.nonces[k].Sent? && s.nonces[k].lap == s.replacements[i].lap
               && s.nonces[k].nonce == s.replacements[i].nonce;
      SentCounts(s.nonces, k);
    }
  }

  /** In every run a repriced transaction is never requeued: what the confirmation queue gives up, and so
      what `handleRejectedTransactions` gets, was never replaced and has an error other than a timeout. */
  lemma RepricedNeverRequeued(cfg: W.Config, s: W.State, i: nat)
    requires Reachable(cfg, s) && s.pc.Answering? && i < |s.pc.failed|
    ensures s.pc.failed[i].val.txReplacement.None? && s.pc.failed[i].val.confirmationError.Some?
    ensures Code(s.pc.failed[i].val.confirmationError.value) != "TIMEOUT"
  {
    ReachableContents(cfg, s);
    assert Refuted(s.arrived, s.pc.failed[i]);
  }

  lemma InvalidHasError(s: W.State, i: nat)
    requires Contents(s) && i < |s.submit.skipped|
    ensures s.submit.skipped[i].val.submissionError.Some?
  {
    assert SubmitLaws(s.arrived).skipped(s.submit.skipped[i]);
  }

  /** The same of the queue's own list of orders given up. */
  lemma GivenUpWasNoTimeout(cfg: W.Config, s: W.State, i: nat)
    requires Reachable(cfg, s) && i < |s.confirm.skipped|
    ensures s.confirm.skipped[i].val.txReplacement.None? && s.confirm.skipped[i].val.confirmationError.Some?
    ensures Code(s.confirm.skipped[i].val.confirmationError.value) != "TIMEOUT"
  {
    ReachableContents(cfg, s);
    assert ConfirmLaws(s.arrived).skipped(s.confirm.skipped[i]);
  }

  /** In every run the first laps of requests are accepted for submission in the order the requests
      arrived. */
  lemma SentInOrderOfArrival(cfg: W.Config, s: W.State, i: nat, j: nat)
    requires Reachable(cfg, s) && i < j < |s.nonces| && s.nonces[i].Sent? && s.nonces[j].Sent?
    requires s.nonces[i].lap.lap == 0 && s.nonces[j].lap.lap == 0
    ensures s.nonces[i].lap.id < s.nonces[j].lap.id
  {
    ReachableContents(cfg, s);
  }

  // ---------------------------------------------------------------------------------------------
  // The submitter's side
  // ---------------------------------------------------------------------------------------------

  datatype Submission = Success(tx: Tx, txReceipt: Receipt) | Failure | NoTransaction | NoReceipt

  /** An error as the client of the wallet gets it: the text a worker sent, or an error object. */
  datatype Reason = TextOf(text: string) | AnObject

  /** What a call of `WalletInterface.submitTransaction` resolves to. */
  datatype TransactionResult = TransactionResult(
    tx: Option<Tx>, txReceipt: Option<Receipt>, submissionError: Option<Reason>, confirmationError: Option<Reason>)

  function AsReason(text: Option<string>): Option<Reason> {
    if text.Some? then Some(TextOf(text.value)) else None
  }

  function FromAnswer(a: Answer): TransactionResult {
    TransactionResult(a.tx, a.txReceipt, AsReason(a.submissionError), AsReason(a.confirmationError))
  }

  /** The result when the worker crashed. */
  const CRASHED := TransactionResult(None, None, Some(AnObject), Some(AnObject))

  /** JavaScript takes an empty string for no error. */
  predicate Truthy(e: Option<Reason>) {
    e.Some? && e.value != TextOf("")
  }

  /** What `SubmitQueue.handleOrder` of the submitter makes of a result. */
  function TakeResult(r: TransactionResult): Submission {
    if Truthy(r.submissionError) || Truthy(r.confirmationError) then Failure
    else if r.tx.None? then NoTransaction
    else if r.txReceipt.None? then NoReceipt
    else Success(r.tx.value, r.txReceipt.value)
  }

  /** An error without any text: a thrown empty string, an error object with neither name nor message, or
      an object that renders itself as nothing. */
  predicate Blank(e: Error) {
    match e
    case ErrorObject(name, message, _, _) => name == "" && message == ""
    case ThrownString(thrown) => thrown == ""
    case OtherObject(_, _, _, rendering) => rendering == Some("")
  }

  lemma BlankExactly(e: Error)
    ensures Text(e) == "" <==> Blank(e)
  {
  }

  /** The two branches marked as never reached are reached exactly by an answer whose error was blank;
      a crash is a failure; success means transaction, receipt and no error. */
  lemma UnreachableExactly(cfg: W.Config, s: W.State, i: nat)
    requires Reachable(cfg, s) && i < |s.answers|
    ensures var a := s.answers[i];
            && (TakeResult(FromAnswer(a)).NoTransaction? <==> NotSubmitted(a) && Blank(a.cause.value))
            && (TakeResult(FromAnswer(a)).NoReceipt? <==> NotConfirmed(a) && Blank(a.cause.value))
            && (TakeResult(FromAnswer(a)).Success? <==> Succeeded(a))
    ensures TakeResult(CRASHED) == Failure
  {
    AnswersComplete(cfg, s, i);
    if s.answers[i].cause.Some? {
      BlankExactly(s.answers[i].cause.value);
    }
  }

  /** In particular they are out of reach of error objects that have a name, as all JavaScript's have. */
  lemma UnreachableForNamedErrors(cfg: W.Config, s: W.State, i: nat)
    requires Reachable(cfg, s) && i < |s.answers|
    requires s.answers[i].cause.Some? ==> s.answers[i].cause.value.ErrorObject? && s.answers[i].cause.value.name != ""
    ensures var r := TakeResult(FromAnswer(s.answers[i])); r.Success? || r.Failure?
  {
    UnreachableExactly(cfg, s, i);
  }
}
