/** What the wallet worker sends: the nonces it uses, and one transaction and one replacement per lap. */
module WalletWorkerSends {
  import opened Common
  import opened Queue
  import opened QueueConservation
  import opened QueueContents
  import opened W = WalletWorker
  import opened WalletWorkerRuns

  // ---------------------------------------------------------------------------------------------
  // The nonce read before a send is still the nonce after it
  // ---------------------------------------------------------------------------------------------

  /** A send under way belongs to the order in the foreground, and nothing has moved the nonce since. */
  ghost predicate Captured(s: W.State) {
    s.sending.Some? ==>
      s.submit.current.Some? && s.submit.current.value.phase.Handling? && s.sending.value == s.nonce
  }

  /** While an order is being handled, the queue's other events leave it where it is. */
  lemma HandlingStays<K, O, R>(cfg: Queue.Config, q: Queue.State<K, O, R>, ev: Queue.Event<K, O, R>)
    requires Shape(q) && Enabled(q, ev) && !ev.HandlerDone?
    requires q.current.Some? && q.current.value.phase.Handling?
    ensures Queue.Step(cfg, q, ev).current == q.current
  {
    match ev
    case Background(k, m) => AdvanceFrame(cfg, q, q.tasks[k], m);
    case _ =>
  }

  lemma StepCaptured(cfg: W.Config, s: W.State, e: W.Event)
    requires Captured(s) && Shape(s.submit) && Possible(s, e)
    ensures Captured(W.Step(cfg, s, e))
  {
    if s.sending.Some? {
      match e
      case StartSubmit(now) => HandlingStays(cfg.queues, s.submit, Process(now));
      case SubmitInner(sv) => HandlingStays(cfg.queues, s.submit, sv);
      case _ =>
    }
  }

  // ---------------------------------------------------------------------------------------------
  // The history of the nonce
  // ---------------------------------------------------------------------------------------------

  /** Each send used the nonce the history before it gives. */
  ghost predicate NoncesReplay(first: nat, evs: seq<NonceEvent>) {
    forall i :: 0 <= i < |evs| && !evs[i].Resync? ==> evs[i].nonce == NonceAfter(first, evs[..i])
  }

  ghost predicate NoncesKept(s: W.State) {
    s.nonce == NonceAfter(s.firstNonce, s.nonces) && NoncesReplay(s.firstNonce, s.nonces)
  }

  lemma NonceAfterSnoc(nonce: nat, evs: seq<NonceEvent>, ev: NonceEvent)
    ensures NonceAfter(nonce, evs + [ev]) ==
            match ev
            case Resync(n) => n
            case Sent(_, _, _) => NonceAfter(nonce, evs) + 1
            case Failed(_, _) => NonceAfter(nonce, evs)
  {
    assert (evs + [ev])[..|evs|] == evs;
  }

  lemma ReplaySnoc(first: nat, evs: seq<NonceEvent>, ev: NonceEvent)
    requires NoncesReplay(first, evs) && (!ev.Resync? ==> ev.nonce == NonceAfter(first, evs))
    ensures NoncesReplay(first, evs + [ev])
  {
    forall i | 0 <= i < |evs + [ev]| && !(evs + [ev])[i].Resync?
      ensures (evs + [ev])[i].nonce == NonceAfter(first, (evs + [ev])[..i])
    {
      assert (evs + [ev])[..i] == evs[..i];
      if i == |evs| {
        assert evs[..i] == evs;
      }
    }
  }

  /** The nonce a send read is the one the history gives, and the counter it raises is the one it read. */
  lemma StepNonces(cfg: W.Config, s: W.State, e: W.Event)
    requires NoncesKept(s) && Captured(s) && Possible(s, e)
    ensures NoncesKept(W.Step(cfg, s, e))
  {
    match e
    case SubmitEnd(o) =>
      var lap := s.submit.current.value.po.order.id;
      var ev := if o.Accepted? then Sent(lap, s.sending.value, o.hash) else Failed(lap, s.sending.value);
      NonceAfterSnoc(s.firstNonce, s.nonces, ev);
      ReplaySnoc(s.firstNonce, s.nonces, ev);
    case SubmitFailed(now, pendingNonce) =>
      NonceAfterSnoc(s.firstNonce, s.nonces, Resync(pendingNonce));
      ReplaySnoc(s.firstNonce, s.nonces, Resync(pendingNonce));
    case _ =>
  }

  /** How many sends were accepted. */
  ghost function SentCount(evs: seq<NonceEvent>): nat {
    if evs == [] then 0 else SentCount(evs[..|evs| - 1]) + if evs[|evs| - 1].Sent? then 1 else 0
  }

  ghost predicate NoResync(evs: seq<NonceEvent>, i: nat, j: nat)
    requires i <= j <= |evs|
  {
    forall k :: i <= k < j ==> !evs[k].Resync?
  }

  /** Without a resync the nonce advances by one per accepted send, and by none per failed one. */
  lemma {:induction false} NonceAdvances(nonce: nat, evs: seq<NonceEvent>, i: nat, j: nat)
    requires i <= j <= |evs| && NoResync(evs, i, j)
    ensures NonceAfter(nonce, evs[..j]) == NonceAfter(nonce, evs[..i]) + SentCount(evs[i..j])
    decreases j
  {
    if i == j {
      assert evs[i..j] == [];
    } else {
      NonceAdvances(nonce, evs, i, j - 1);
      assert evs[..j] == evs[..j - 1] + [evs[j - 1]];
      NonceAfterSnoc(nonce, evs[..j - 1], evs[j - 1]);
      assert evs[i..j][..j - 1 - i] == evs[i..j - 1];
    }
  }

  /** Between two resyncs, the nonces of accepted sends are consecutive: each send uses the nonce of any
      earlier one plus the number of sends accepted from that one on. */
  lemma NoncesConsecutive(first: nat, evs: seq<NonceEvent>, i: nat, j: nat)
    requires NoncesReplay(first, evs) && i < j < |evs| && NoResync(evs, i, j + 1)
    ensures evs[j].nonce == evs[i].nonce + SentCount(evs[i..j])
  {
    NonceAdvances(first, evs, i, j);
  }

  lemma {:induction false} FirstCounts(evs: seq<NonceEvent>)
    requires evs != [] && evs[0].Sent?
    ensures SentCount(evs) >= 1
  {
    if |evs| == 1 {
      assert evs[..0] == [];
    } else {
      FirstCounts(evs[..|evs| - 1]);
    }
  }

  // ---------------------------------------------------------------------------------------------
  // One accepted transaction and at most one replacement per lap
  // ---------------------------------------------------------------------------------------------

  /** How often the history records an accepted transaction, or a replacement, of lap t. */
  ghost function SentFor(evs: seq<NonceEvent>, t: Lap): nat {
    if evs == [] then 0
    else SentFor(evs[..|evs| - 1], t) + if evs[|evs| - 1].Sent? && evs[|evs| - 1].lap == t then 1 else 0
  }

  ghost function ReplacedFor(reps: seq<Replacement>, t: Lap): nat {
    if reps == [] then 0 else ReplacedFor(reps[..|reps| - 1], t) + if reps[|reps| - 1].lap == t then 1 else 0
  }

  lemma SentForSnoc(evs: seq<NonceEvent>, ev: NonceEvent, t: Lap)
    ensures SentFor(evs + [ev], t) == SentFor(evs, t) + if ev.Sent? && ev.lap == t then 1 else 0
  {
    assert (evs + [ev])[..|evs|] == evs;
  }

  lemma ReplacedForSnoc(reps: seq<Replacement>, r: Replacement, t: Lap)
    ensures ReplacedFor(reps + [r], t) == ReplacedFor(reps, t) + if r.lap == t then 1 else 0
  {
    assert (reps + [r])[..|reps|] == reps;
  }

  lemma {:induction false} SentCounts(evs: seq<NonceEvent>, i: nat)
    requires i < |evs| && evs[i].Sent?
    ensures SentFor(evs, evs[i].lap) >= 1
  {
    if i < |evs| - 1 {
      SentCounts(evs[..|evs| - 1], i);
    }
  }

  /** The transaction was recorded as sent for its lap. */
  predicate Recorded(evs: seq<NonceEvent>, t: Lap, tx: Tx) {
    Sent(t, tx.nonce, tx.hash) in evs
  }

  /** The transaction was recorded as a replacement for its lap. */
  predicate Replaces(reps: seq<Replacement>, t: Lap, tx: Tx) {
    Replacement(t, tx.nonce, tx.hash) in reps
  }

  predicate SentOrReplaces(evs: seq<NonceEvent>, reps: seq<Replacement>, t: Lap, tx: Tx) {
    Recorded(evs, t, tx) || Replaces(reps, t, tx)
  }

  /** As it leaves the submission queue. */
  predicate JustSent(evs: seq<NonceEvent>, r: ConfirmRef) {
    Recorded(evs, r.id, r.val.tx) && r.val.txReplacement.None?
  }

  ghost predicate SubmitTaskSends(evs: seq<NonceEvent>, t: Task<Lap, WalletRequest, PendingTx>) {
    match t.phase
    case Handling => SentFor(evs, t.po.order.id) == 0
    case Failing => SentFor(evs, t.po.order.id) == 0
    case InFlight => t.po.order.val.sent.Some? && Recorded(evs, t.po.order.id, t.po.order.val.sent.value)
    case Completing(Some(p)) => JustSent(evs, Ref(t.po.order.id, p))
    case _ => true
  }

  ghost function SubmitSends(evs: seq<NonceEvent>): Laws<Lap, WalletRequest, PendingTx> {
    Laws((r: SubmitRef) => SentFor(evs, r.id) == 0,
         (po: ProcessOrder<Lap, WalletRequest>) => SentFor(evs, po.order.id) == 0,
         (t: Task<Lap, WalletRequest, PendingTx>) => SubmitTaskSends(evs, t),
         (r: ConfirmRef) => JustSent(evs, r),
         (r: SubmitRef) => true,
         (r: SubmitRef) => true)
  }

  /** A pending transaction was recorded, and so was its replacement; if it has none, none was. */
  ghost predicate ConfirmSend(evs: seq<NonceEvent>, reps: seq<Replacement>, r: ConfirmRef) {
    && Recorded(evs, r.id, r.val.tx)
    && match r.val.txReplacement
       case None => ReplacedFor(reps, r.id) == 0
       case Some(tx) => Replaces(reps, r.id, tx)
  }

  /** The transaction confirmed is one of the two sent for the lap. */
  predicate ConfirmedSend(evs: seq<NonceEvent>, reps: seq<Replacement>, r: ConfirmedRef) {
    Recorded(evs, r.id, r.val.pending.tx) && SentOrReplaces(evs, reps, r.id, r.val.tx)
  }

  ghost predicate ConfirmTaskSends(
    evs: seq<NonceEvent>, reps: seq<Replacement>, t: Task<Lap, PendingTx, ConfirmedTx>)
  {
    && ConfirmSend(evs, reps, t.po.order)
    && (t.phase.Completing? && t.phase.result.Some? ==>
          ConfirmedSend(evs, reps, Ref(t.po.order.id, t.phase.result.value)))
  }

  ghost function ConfirmSends(evs: seq<NonceEvent>, reps: seq<Replacement>): Laws<Lap, PendingTx, ConfirmedTx> {
    Laws((r: ConfirmRef) => JustSent(evs, r) && ReplacedFor(reps, r.id) == 0,
         (po: ProcessOrder<Lap, PendingTx>) => ConfirmSend(evs, reps, po.order),
         (t: Task<Lap, PendingTx, ConfirmedTx>) => ConfirmTaskSends(evs, reps, t),
         (r: ConfirmedRef) => ConfirmedSend(evs, reps, r),
         (r: ConfirmRef) => Recorded(evs, r.id, r.val.tx),
         (r: ConfirmRef) => Recorded(evs, r.id, r.val.tx))
  }

  lemma SendLawsCohere(evs: seq<NonceEvent>, reps: seq<Replacement>)
    ensures Coherent(SubmitSends(evs)) && Coherent(ConfirmSends(evs, reps))
  {
  }

  ghost predicate PcSends(evs: seq<NonceEvent>, reps: seq<Replacement>, pc: Pc) {
    match pc
    case AddingPending(pending) => forall i :: 0 <= i < |pending| ==> JustSent(evs, pending[i])
    case Answering(confirmed, failed, unconfirmed) =>
      && (forall i :: 0 <= i < |confirmed| ==> ConfirmedSend(evs, reps, confirmed[i]))
      && (forall i :: 0 <= i < |failed| ==> Recorded(evs, failed[i].id, failed[i].val.tx))
      && (forall i :: 0 <= i < |unconfirmed| ==> Recorded(evs, unconfirmed[i].id, unconfirmed[i].val.tx))
    case _ => true
  }

  /** Every transaction an order carries, wherever it stands, was recorded as sent for its lap. */
  ghost predicate CarriesRecorded(s: W.State) {
    && Obeys(s.submit, SubmitSends(s.nonces))
    && Obeys(s.confirm, ConfirmSends(s.nonces, s.replacements))
    && PcSends(s.nonces, s.replacements, s.pc)
  }

  ghost predicate SentOnce(s: W.State, t: Lap) {
    && SentFor(s.nonces, t) <= 1 && (SentFor(s.nonces, t) > 0 ==> Count(s.submit.added, t) > 0)
    && ReplacedFor(s.replacements, t) <= 1 && (ReplacedFor(s.replacements, t) > 0 ==> Count(s.confirm.added, t) > 0)
  }

  ghost predicate AllSentOnce(s: W.State) {
    forall t :: SentOnce(s, t)
  }

  /** A transaction with nonce n was accepted for lap t. */
  ghost predicate SentWith(evs: seq<NonceEvent>, t: Lap, n: nat) {
    exists k :: 0 <= k < |evs| && evs[k].Sent? && evs[k].lap == t && evs[k].nonce == n
  }

  /** Each replacement has the nonce of a transaction accepted for its lap. */
  ghost predicate ReplacementsMatch(evs: seq<NonceEvent>, reps: seq<Replacement>) {
    forall i :: 0 <= i < |reps| ==> SentWith(evs, reps[i].lap, reps[i].nonce)
  }

  predicate AnswerSent(evs: seq<NonceEvent>, reps: seq<Replacement>, a: Answer) {
    a.tx.Some? ==> SentOrReplaces(evs, reps, a.ticket, a.tx.value)
  }

  /** The transaction an answer names is one that was sent for the lap it answers. */
  ghost predicate AnswersSent(evs: seq<NonceEvent>, reps: seq<Replacement>, answers: seq<Answer>) {
    forall i :: 0 <= i < |answers| ==> AnswerSent(evs, reps, answers[i])
  }

  ghost predicate SendsKept(s: W.State) {
    && CarriesRecorded(s) && AllSentOnce(s) && ReplacementsMatch(s.nonces, s.replacements)
    && AnswersSent(s.nonces, s.replacements, s.answers)
  }

  // -- a longer history ------------------------------------------------------------------------

  lemma RecordedOutlasts(evs: seq<NonceEvent>, ev: NonceEvent, s: W.State)
    requires evs == s.nonces && CarriesRecorded(s)
    ensures Obeys(s.confirm, ConfirmSends(evs + [ev], s.replacements)) && PcSends(evs + [ev], s.replacements, s.pc)
  {
    ObeysWeaker(s.confirm, ConfirmSends(evs, s.replacements), ConfirmSends(evs + [ev], s.replacements));
  }

  lemma UnsentOutlasts(evs: seq<NonceEvent>, ev: NonceEvent, q: SubmitQueue)
    requires Obeys(q, SubmitSends(evs)) && !ev.Sent?
    ensures Obeys(q, SubmitSends(evs + [ev]))
  {
    forall t: Lap ensures SentFor(evs + [ev], t) == SentFor(evs, t) {
      SentForSnoc(evs, ev, t);
    }
    ObeysWeaker(q, SubmitSends(evs), SubmitSends(evs + [ev]));
  }

  /** An accepted transaction is recorded for the order in the foreground; no other place holds it. */
  lemma AcceptedObeys(q: SubmitQueue, evs: seq<NonceEvent>, hash: string, nonce: nat)
    requires Obeys(q, SubmitSends(evs)) && q.current.Some? && q.current.value.phase.Handling?
    requires Census(q, q.current.value.po.order.id) <= 1
    ensures var t := q.current.value;
            Obeys(HandlerReturns(q, t, HandleSent(t.po.order.val, nonce, Accepted(hash))),
                  SubmitSends(evs + [Sent(t.po.order.id, nonce, hash)]))
  {
    var x := q.current.value.po.order.id;
    var later := evs + [Sent(x, nonce, hash)];
    HandledAlone(q, x);
    forall t: Lap ensures t != x ==> SentFor(later, t) == SentFor(evs, t) {
      SentForSnoc(evs, Sent(x, nonce, hash), t);
    }
    assert Sent(x, nonce, hash) in later;
    var val := q.current.value.po.order.val.(sent := Some(Tx(hash, nonce)));
    PromiseObeys(q, val, SubmitSends(evs), SubmitSends(later), x);
  }

  lemma ReplacedObeys(q: ConfirmQueue, evs: seq<NonceEvent>, reps: seq<Replacement>, hash: string)
    requires Obeys(q, ConfirmSends(evs, reps)) && q.current.Some? && q.current.value.phase.Handling?
    requires Reprices(q.current.value.po) && Census(q, q.current.value.po.order.id) <= 1
    ensures var t := q.current.value;
            Obeys(HandlerReturns(q, t, HandleConfirm(t.po.order.val, t.po.retryCount, Accepted(hash))),
                  ConfirmSends(evs, reps + [Replacement(t.po.order.id, t.po.order.val.tx.nonce, hash)]))
  {
    var t := q.current.value;
    var x, r := t.po.order.id, Replacement(t.po.order.id, t.po.order.val.tx.nonce, hash);
    HandledAlone(q, x);
    ReplacedElsewhere(evs, reps, r);
    assert ConfirmSends(evs, reps).task(t);
    var val := t.po.order.val.(txReplacement := Some(Tx(hash, t.po.order.val.tx.nonce)));
    ReplacedHere(evs, reps, t.po, hash);
    assert HandleConfirm(t.po.order.val, t.po.retryCount, Accepted(hash)) == Promised(val);
    PromiseObeys(q, val, ConfirmSends(evs, reps), ConfirmSends(evs, reps + [r]), x);
  }

  lemma ReplacedHere(evs: seq<NonceEvent>, reps: seq<Replacement>, po: ProcessOrder<Lap, PendingTx>, hash: string)
    requires ConfirmSend(evs, reps, po.order)
    ensures var val := po.order.val.(txReplacement := Some(Tx(hash, po.order.val.tx.nonce)));
            ConfirmSends(evs, reps + [Replacement(po.order.id, po.order.val.tx.nonce, hash)])
              .task(Task(po.(order := po.order.(val := val)), InFlight))
  {
    assert Replacement(po.order.id, po.order.val.tx.nonce, hash)
           in reps + [Replacement(po.order.id, po.order.val.tx.nonce, hash)];
  }

  /** A replacement changes nothing for the orders of other laps. */
  lemma ReplacedElsewhere(evs: seq<NonceEvent>, reps: seq<Replacement>, r: Replacement)
    ensures var l, later := ConfirmSends(evs, reps), ConfirmSends(evs, reps + [r]);
            && (forall o: ConfirmRef :: l.waiting(o) && o.id != r.lap ==> later.waiting(o))
            && (forall po: ProcessOrder<Lap, PendingTx> ::
                  l.retrying(po) && po.order.id != r.lap ==> later.retrying(po))
            && (forall t: Task<Lap, PendingTx, ConfirmedTx> :: l.task(t) && t.po.order.id != r.lap ==> later.task(t))
            && (forall o: ConfirmedRef :: l.completed(o) && o.id != r.lap ==> later.completed(o))
            && (forall o: ConfirmRef :: l.skipped(o) && o.id != r.lap ==> later.skipped(o))
            && (forall o: ConfirmRef :: l.rejected(o) && o.id != r.lap ==> later.rejected(o))
  {
    forall t: Lap ensures t != r.lap ==> ReplacedFor(reps + [r], t) == ReplacedFor(reps, t) {
      ReplacedForSnoc(reps, r, t);
    }
    forall t: Lap, tx: Tx | Replaces(reps, t, tx) ensures Replaces(reps + [r], t, tx) {
    }
  }

  // -- events inside one queue -----------------------------------------------------------------

  /** The events that do not accept anything new. */
  lemma SubmitSilentLawful(cfg: W.Config, s: W.State, e: W.Event)
    requires Obeys(s.submit, SubmitSends(s.nonces)) && Possible(s, e) && SubmitEventOf(s, e).Some?
    requires e.SubmitEnd? ==> e.outcome.Refused?
    ensures Lawful(cfg.queues, s.submit, SubmitEventOf(s, e).value, SubmitSends(s.nonces))
  {
    var l := SubmitSends(s.nonces);
    match e
    case SubmitBegin(_) => assert l.task(s.submit.current.value);
    case SubmitEnd(_) => assert l.task(s.submit.current.value);
    case SubmitFailed(_, _) => assert l.task(s.submit.current.value);
    case SubmitInner(sv) => SubmitInnerSends(cfg, s, sv);
    case _ =>
  }

  lemma SubmitInnerSends(cfg: W.Config, s: W.State, sv: W.SubmitEvent)
    requires Obeys(s.submit, SubmitSends(s.nonces)) && InnerSubmit(s, sv)
    ensures Lawful(cfg.queues, s.submit, sv, SubmitSends(s.nonces))
  {
  }

  lemma ConfirmSilentLawful(cfg: W.Config, s: W.State, e: W.Event)
    requires Obeys(s.confirm, ConfirmSends(s.nonces, s.replacements)) && Possible(s, e) && ConfirmEventOf(s, e).Some?
    requires e.ConfirmHandled? ==> !(Reprices(s.confirm.current.value.po) && e.outcome.Accepted?)
    ensures Lawful(cfg.queues, s.confirm, ConfirmEventOf(s, e).value, ConfirmSends(s.nonces, s.replacements))
  {
    var l := ConfirmSends(s.nonces, s.replacements);
    match e
    case ConfirmHandled(_) => assert l.task(s.confirm.current.value);
    case ConfirmFailed(background, error, now) => ConfirmFailedSends(cfg, s, background, error, now);
    case ConfirmInner(cv) => ConfirmInnerSends(cfg, s, cv);
    case _ =>
  }

  lemma ConfirmFailedSends(cfg: W.Config, s: W.State, background: Option<nat>, error: Error, now: int)
    requires Obeys(s.confirm, ConfirmSends(s.nonces, s.replacements))
    requires Possible(s, ConfirmFailed(background, error, now))
    ensures Lawful(cfg.queues, s.confirm, ConfirmFailedEvent(s, background, error, now),
                   ConfirmSends(s.nonces, s.replacements))
  {
    assert ConfirmSends(s.nonces, s.replacements).task(FailedTask(s, background).value);
  }

  lemma ConfirmInnerSends(cfg: W.Config, s: W.State, cv: W.ConfirmEvent)
    requires Obeys(s.confirm, ConfirmSends(s.nonces, s.replacements)) && InnerConfirm(s, cv)
    ensures Lawful(cfg.queues, s.confirm, cv, ConfirmSends(s.nonces, s.replacements))
  {
  }

  // -- every step ------------------------------------------------------------------------------

  /** What the accounts of laps give: an order handled stands in its queue once, an order that enters a
      queue was never in it. */
  ghost predicate Fresh(cfg: W.Config, s: W.State, e: W.Event) {
    match e
    case SubmitEnd(_) =>
      s.submit.current.Some? ==>
        && Census(s.submit, s.submit.current.value.po.order.id) <= 1
        && Count(s.submit.added, s.submit.current.value.po.order.id) > 0
    case ConfirmHandled(_) =>
      s.confirm.current.Some? ==>
        && Census(s.confirm, s.confirm.current.value.po.order.id) <= 1
        && Count(s.confirm.added, s.confirm.current.value.po.order.id) > 0
    case AddNew => s.pc.AddingNew? && s.pc.todo != [] ==> Count(s.submit.added, s.pc.todo[0].id) == 0
    case AddPending => s.pc.AddingPending? && s.pc.pending != [] ==> Count(s.confirm.added, s.pc.pending[0].id) == 0
    case HandleRejected =>
      s.pc.Answering? && s.pc.failed != [] && Requeues(cfg, s.pc.failed[0]) ==>
        Count(s.submit.added, W.NextLap(s.pc.failed[0]).id) == 0
    case _ => true
  }

  lemma InSubmitCarries(cfg: W.Config, s: W.State, sv: W.SubmitEvent)
    requires Obeys(s.submit, SubmitSends(s.nonces)) && Shape(s.submit) && Enabled(s.submit, sv)
    requires Lawful(cfg.queues, s.submit, sv, SubmitSends(s.nonces))
    ensures Obeys(Queue.Step(cfg.queues, s.submit, sv), SubmitSends(s.nonces))
  {
    SendLawsCohere(s.nonces, s.replacements);
    StepObeys(cfg.queues, s.submit, sv, SubmitSends(s.nonces));
  }

  lemma InConfirmCarries(cfg: W.Config, s: W.State, cv: W.ConfirmEvent)
    requires Obeys(s.confirm, ConfirmSends(s.nonces, s.replacements)) && Shape(s.confirm) && Enabled(s.confirm, cv)
    requires Lawful(cfg.queues, s.confirm, cv, ConfirmSends(s.nonces, s.replacements))
    ensures Obeys(Queue.Step(cfg.queues, s.confirm, cv), ConfirmSends(s.nonces, s.replacements))
  {
    SendLawsCohere(s.nonces, s.replacements);
    StepObeys(cfg.queues, s.confirm, cv, ConfirmSends(s.nonces, s.replacements));
  }

  /** The send history a step adds, if any. */
  function NonceEventOf(s: W.State, e: W.Event): Option<NonceEvent>
    requires Possible(s, e)
  {
    match e
    case SubmitEnd(o) =>
      var lap := s.submit.current.value.po.order.id;
      Some(if o.Accepted? then Sent(lap, s.sending.value, o.hash) else Failed(lap, s.sending.value))
    case SubmitFailed(_, pendingNonce) =>
      var order := s.submit.current.value.po.order.val;
      if HandleFailedSubmit(order, order.raised.value).0 then Some(Resync(pendingNonce)) else None
    case _ => None
  }

  lemma SubmitEventCarries(cfg: W.Config, s: W.State, e: W.Event)
    requires CarriesRecorded(s) && Shape(s.submit) && Fresh(cfg, s, e)
    requires Possible(s, e) && SubmitEventOf(s, e).Some?
    ensures CarriesRecorded(W.Step(cfg, s, e))
  {
    var s1 := W.Step(cfg, s, e);
    InsideSubmit(cfg, s, e);
    if e.SubmitEnd? && e.outcome.Accepted? {
      AcceptedObeys(s.submit, s.nonces, e.outcome.hash, s.sending.value);
    } else {
      SubmitSilentLawful(cfg, s, e);
      InSubmitCarries(cfg, s, SubmitEventOf(s, e).value);
      if NonceEventOf(s, e).Some? {
        UnsentOutlasts(s.nonces, NonceEventOf(s, e).value, s1.submit);
      }
    }
    if NonceEventOf(s, e).Some? {
      RecordedOutlasts(s.nonces, NonceEventOf(s, e).value, s);
    }
  }

  lemma ConfirmEventCarries(cfg: W.Config, s: W.State, e: W.Event)
    requires CarriesRecorded(s) && Shape(s.confirm) && Fresh(cfg, s, e)
    requires Possible(s, e) && ConfirmEventOf(s, e).Some?
    ensures CarriesRecorded(W.Step(cfg, s, e))
  {
    InsideConfirm(cfg, s, e);
    if e.ConfirmHandled? && Reprices(s.confirm.current.value.po) && e.outcome.Accepted? {
      ReplacedObeys(s.confirm, s.nonces, s.replacements, e.outcome.hash);
    } else {
      ConfirmSilentLawful(cfg, s, e);
      InConfirmCarries(cfg, s, ConfirmEventOf(s, e).value);
    }
  }

  lemma EnterSubmit(cfg: W.Config, s: W.State, order: SubmitRef)
    requires CarriesRecorded(s) && AllSentOnce(s) && Shape(s.submit) && Count(s.submit.added, order.id) == 0
    ensures Obeys(BeginAdd(s.submit, order), SubmitSends(s.nonces))
  {
    assert SentOnce(s, order.id);
    InSubmitCarries(cfg, s, AddBegin(order));
  }

  lemma EnterConfirm(cfg: W.Config, s: W.State, order: ConfirmRef)
    requires CarriesRecorded(s) && AllSentOnce(s) && Shape(s.confirm) && Count(s.confirm.added, order.id) == 0
    requires JustSent(s.nonces, order)
    ensures Obeys(BeginAdd(s.confirm, order), ConfirmSends(s.nonces, s.replacements))
  {
    assert SentOnce(s, order.id);
    InConfirmCarries(cfg, s, AddBegin(order));
  }

  lemma FlushSubmitCarries(cfg: W.Config, s: W.State)
    requires CarriesRecorded(s) && Shape(s.submit) && s.pc.Submitting?
    ensures CarriesRecorded(FlushSubmitStep(s))
  {
    InSubmitCarries(cfg, s, Flush);
    forall i | 0 <= i < |s.submit.completed|
      ensures JustSent(s.nonces, s.submit.completed[i])
    {
      assert SubmitSends(s.nonces).completed(s.submit.completed[i]);
    }
  }

  lemma FlushConfirmCarries(cfg: W.Config, s: W.State)
    requires CarriesRecorded(s) && Shape(s.confirm) && s.pc.Confirming?
    ensures CarriesRecorded(FlushConfirmStep(s))
  {
    var l := ConfirmSends(s.nonces, s.replacements);
    InConfirmCarries(cfg, s, Flush);
    assert forall i :: 0 <= i < |s.confirm.completed| ==> l.completed(s.confirm.completed[i]);
    assert forall i :: 0 <= i < |s.confirm.skipped| ==> l.skipped(s.confirm.skipped[i]);
    assert forall i :: 0 <= i < |s.confirm.rejected| ==> l.rejected(s.confirm.rejected[i]);
  }

  lemma OutsideCarries(cfg: W.Config, s: W.State, e: W.Event)
    requires CarriesRecorded(s) && AllSentOnce(s) && Shape(s.submit) && Shape(s.confirm)
    requires Possible(s, e) && Fresh(cfg, s, e)
    requires SubmitEventOf(s, e).None? && ConfirmEventOf(s, e).None?
    ensures CarriesRecorded(W.Step(cfg, s, e))
  {
    match e
    case AddNew => EnterSubmit(cfg, s, s.pc.todo[0]);
    case AddPending => EnterConfirm(cfg, s, s.pc.pending[0]);
    case FlushSubmit => FlushSubmitCarries(cfg, s);
    case FlushConfirm => FlushConfirmCarries(cfg, s);
    case HandleRejected => HandleRejectedCarries(cfg, s);
    case _ =>
  }

  lemma HandleRejectedCarries(cfg: W.Config, s: W.State)
    requires CarriesRecorded(s) && AllSentOnce(s) && Shape(s.submit)
    requires Possible(s, HandleRejected) && Fresh(cfg, s, HandleRejected)
    ensures CarriesRecorded(HandleRejectedStep(cfg, s))
  {
    if Requeues(cfg, s.pc.failed[0]) {
      EnterSubmit(cfg, s, W.NextLap(s.pc.failed[0]));
    }
  }

  lemma StepCarries(cfg: W.Config, s: W.State, e: W.Event)
    requires CarriesRecorded(s) && AllSentOnce(s) && Shape(s.submit) && Shape(s.confirm)
    requires Possible(s, e) && Fresh(cfg, s, e)
    ensures CarriesRecorded(W.Step(cfg, s, e))
  {
    if SubmitEventOf(s, e).Some? {
      SubmitEventCarries(cfg, s, e);
    } else if ConfirmEventOf(s, e).Some? {
      ConfirmEventCarries(cfg, s, e);
    } else {
      OutsideCarries(cfg, s, e);
    }
  }

  // -- at most one of each -----------------------------------------------------------------------

  /** Additions are never forgotten. */
  lemma AddedGrows(cfg: W.Config, s: W.State, e: W.Event, t: Lap)
    requires Possible(s, e)
    ensures Count(s.submit.added, t) <= Count(W.Step(cfg, s, e).submit.added, t)
    ensures Count(s.confirm.added, t) <= Count(W.Step(cfg, s, e).confirm.added, t)
  {
    if SubmitEventOf(s, e).Some? {
      InsideSubmit(cfg, s, e);
      SilentAdds(cfg.queues, s.submit, SubmitEventOf(s, e).value);
    } else if ConfirmEventOf(s, e).Some? {
      InsideConfirm(cfg, s, e);
      SilentAdds(cfg.queues, s.confirm, ConfirmEventOf(s, e).value);
    } else {
      match e
      case AddNew => CountSnoc(s.submit.added, s.pc.todo[0].id, t);
      case AddPending => CountSnoc(s.confirm.added, s.pc.pending[0].id, t);
      case HandleRejected => CountSnoc(s.submit.added, W.NextLap(s.pc.failed[0]).id, t);
      case _ =>
    }
  }

  lemma AcceptedOnce(cfg: W.Config, s: W.State, e: W.Event, t: Lap)
    requires CarriesRecorded(s) && SentOnce(s, t) && Possible(s, e) && Fresh(cfg, s, e) && e.SubmitEnd?
    ensures var s1 := W.Step(cfg, s, e);
            && SentFor(s1.nonces, t) <= 1 && (SentFor(s1.nonces, t) > 0 ==> Count(s.submit.added, t) > 0)
            && s1.replacements == s.replacements
  {
    SentForSnoc(s.nonces, NonceEventOf(s, e).value, t);
    assert SubmitSends(s.nonces).task(s.submit.current.value);
  }

  lemma ReplacedOnce(cfg: W.Config, s: W.State, e: W.Event, t: Lap)
    requires CarriesRecorded(s) && SentOnce(s, t) && Possible(s, e) && Fresh(cfg, s, e) && e.ConfirmHandled?
    ensures var s1 := W.Step(cfg, s, e);
            && ReplacedFor(s1.replacements, t) <= 1
            && (ReplacedFor(s1.replacements, t) > 0 ==> Count(s.confirm.added, t) > 0)
            && s1.nonces == s.nonces
  {
    var po := s.confirm.current.value.po;
    if Reprices(po) && e.outcome.Accepted? {
      ReplacedForSnoc(s.replacements, Replacement(po.order.id, po.order.val.tx.nonce, e.outcome.hash), t);
    }
    assert ConfirmSends(s.nonces, s.replacements).task(s.confirm.current.value);
  }

  lemma StepSentOnce(cfg: W.Config, s: W.State, e: W.Event, t: Lap)
    requires CarriesRecorded(s) && SentOnce(s, t) && Possible(s, e) && Fresh(cfg, s, e)
    ensures SentOnce(W.Step(cfg, s, e), t)
  {
    AddedGrows(cfg, s, e, t);
    match e
    case SubmitEnd(_) => AcceptedOnce(cfg, s, e, t);
    case ConfirmHandled(_) => ReplacedOnce(cfg, s, e, t);
    case SubmitFailed(_, pendingNonce) => SentForSnoc(s.nonces, Resync(pendingNonce), t);
    case _ =>
  }

  lemma StepMatches(cfg: W.Config, s: W.State, e: W.Event)
    requires CarriesRecorded(s) && ReplacementsMatch(s.nonces, s.replacements) && Possible(s, e)
    ensures ReplacementsMatch(W.Step(cfg, s, e).nonces, W.Step(cfg, s, e).replacements)
  {
    var s1 := W.Step(cfg, s, e);
    HistoriesGrow(cfg, s, e);
    MatchesOutlast(s.nonces, s1.nonces, s.replacements);
    if s1.replacements != s.replacements {
      var po := s.confirm.current.value.po;
      assert ConfirmSends(s.nonces, s.replacements).task(s.confirm.current.value);
      RecordedMatches(s.nonces, po.order.id, po.order.val.tx);
    }
  }

  lemma RecordedMatches(evs: seq<NonceEvent>, t: Lap, tx: Tx)
    requires Recorded(evs, t, tx)
    ensures SentWith(evs, t, tx.nonce)
  {
    var k :| 0 <= k < |evs| && evs[k] == Sent(t, tx.nonce, tx.hash);
  }

  /** Histories only grow. */
  lemma MatchesOutlast(evs: seq<NonceEvent>, later: seq<NonceEvent>, reps: seq<Replacement>)
    requires ReplacementsMatch(evs, reps) && evs <= later
    ensures ReplacementsMatch(later, reps)
  {
    forall i | 0 <= i < |reps| ensures SentWith(later, reps[i].lap, reps[i].nonce) {
      assert SentWith(evs, reps[i].lap, reps[i].nonce);
      var k :| 0 <= k < |evs| && evs[k].Sent? && evs[k].lap == reps[i].lap && evs[k].nonce == reps[i].nonce;
      assert later[k] == evs[k];
    }
  }

  lemma AnswersOutlast(
    evs: seq<NonceEvent>, reps: seq<Replacement>, laterEvs: seq<NonceEvent>, laterReps: seq<Replacement>,
    answers: seq<Answer>)
    requires AnswersSent(evs, reps, answers) && evs <= laterEvs && reps <= laterReps
    ensures AnswersSent(laterEvs, laterReps, answers)
  {
    forall i | 0 <= i < |answers| ensures AnswerSent(laterEvs, laterReps, answers[i]) {
      assert AnswerSent(evs, reps, answers[i]);
    }
  }

  lemma HistoriesGrow(cfg: W.Config, s: W.State, e: W.Event)
    requires Possible(s, e)
    ensures s.nonces <= W.Step(cfg, s, e).nonces && s.replacements <= W.Step(cfg, s, e).replacements
  {
  }

  /** Every answer a step adds names a transaction of its own lap. */
  lemma StepAnswers(cfg: W.Config, s: W.State, e: W.Event)
    requires CarriesRecorded(s) && AnswersSent(s.nonces, s.replacements, s.answers) && Possible(s, e)
    ensures var s1 := W.Step(cfg, s, e); AnswersSent(s1.nonces, s1.replacements, s1.answers)
  {
    var s1 := W.Step(cfg, s, e);
    HistoriesGrow(cfg, s, e);
    AnswersOutlast(s.nonces, s.replacements, s1.nonces, s1.replacements, s.answers);
    match e
    case AnswerConfirmed => assert ConfirmedSend(s.nonces, s.replacements, s.pc.confirmed[0]);
    case HandleRejected => assert Recorded(s.nonces, s.pc.failed[0].id, s.pc.failed[0].val.tx);
    case Cancelled(_) => assert Recorded(s.nonces, s.pc.unconfirmed[0].id, s.pc.unconfirmed[0].val.tx);
    case _ =>
  }

  lemma StepSends(cfg: W.Config, s: W.State, e: W.Event)
    requires SendsKept(s) && Shape(s.submit) && Shape(s.confirm) && Possible(s, e) && Fresh(cfg, s, e)
    ensures SendsKept(W.Step(cfg, s, e))
  {
    StepCarries(cfg, s, e);
    StepMatches(cfg, s, e);
    StepAnswers(cfg, s, e);
    forall t ensures SentOnce(W.Step(cfg, s, e), t) {
      assert SentOnce(s, t);
      StepSentOnce(cfg, s, e, t);
    }
  }
}
