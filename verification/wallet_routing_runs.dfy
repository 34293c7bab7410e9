/** The wallet protocol over whole runs. */
module WalletRoutingRuns {
  import opened Common
  import opened WalletRouting

  // ---------------------------------------------------------------------------------------------
  // Every request stands in one place, every promise is pending or resolved
  // ---------------------------------------------------------------------------------------------

  function AsPortData(r: Request): PortData {
    PortData(r.chainId, r.messageId, r.message)
  }

  function AsRouting(r: Request): RoutingData {
    RoutingData(r.portId, r.messageId, r.message)
  }

  function AsListener(r: Request): Listener {
    Listener(r.messageId, r.chainId, r.message)
  }

  ghost function InOutbox(s: State, r: Request): nat {
    if r.portId < |s.clients| then Count(s.clients[r.portId].outbox, AsPortData(r)) else 0
  }

  ghost function OnChain(ch: Chain, m: RoutingData): nat {
    Count(ch.queued, m) + Count(ch.toWorker, m) + Count(ch.held, m)
  }

  /** How often r stands somewhere between its client and a worker. */
  ghost function Travelling(s: State, r: Request): nat {
    InOutbox(s, r) + OnChain(ChainOf(s.service, r.chainId), AsRouting(r))
  }

  ghost predicate Tracked(s: State, r: Request) {
    Count(s.issued, r) == Travelling(s, r) + Count(s.served, r) + Count(s.lost, r)
  }

  ghost function Listening(s: State, r: Request): nat {
    if r.portId < |s.clients| then Count(s.clients[r.portId].listeners, AsListener(r)) else 0
  }

  function RequestOf(x: (nat, Resolution)): Request {
    Request(x.0, x.1.messageId, x.1.chainId, x.1.message)
  }

  ghost function ResolvedCount(s: seq<(nat, Resolution)>, r: Request): nat {
    if s == [] then 0
    else ResolvedCount(s[..|s| - 1], r) + if RequestOf(s[|s| - 1]) == r then 1 else 0
  }

  ghost predicate Awaited(s: State, r: Request) {
    Count(s.issued, r) == Listening(s, r) + ResolvedCount(s.resolved, r)
  }

  ghost predicate AllTracked(s: State) {
    forall r :: Tracked(s, r) && Awaited(s, r)
  }

  lemma HandleCounts(ch: Chain, d: RoutingData, m: RoutingData)
    ensures OnChain(Handle(ch, d), m) == OnChain(ch, m) + if d == m then 1 else 0
  {
    CountSnoc(ch.toWorker, d, m);
    CountSnoc(ch.queued, d, m);
  }

  lemma HeadCounts<T>(s: seq<T>, x: T)
    requires s != []
    ensures Count(s, x) == Count(s[1..], x) + if s[0] == x then 1 else 0
  {
  }

  lemma {:induction false} FromRoutingCounts(c: string, q: seq<RoutingData>, r: Request)
    ensures Count(FromRouting(c, q), r) == if r.chainId == c then Count(q, AsRouting(r)) else 0
  {
    if q != [] {
      FromRoutingCounts(c, q[1..], r);
      assert FromRouting(c, q)[1..] == FromRouting(c, q[1..]);
    }
  }

  lemma SendTracks(s: State, p: nat, c: string, m: Body, r: Request)
    requires p < |s.clients| && Tracked(s, r) && Awaited(s, r)
    ensures Tracked(SendStep(s, p, c, m), r) && Awaited(SendStep(s, p, c, m), r)
  {
    var id := s.clients[p].portMessageId;
    CountSnoc(s.issued, Request(p, id, c, m), r);
    CountSnoc(s.clients[p].outbox, PortData(c, id, m), AsPortData(r));
    CountSnoc(s.clients[p].listeners, Listener(id, c, m), AsListener(r));
  }

  lemma ServiceReceivesTracks(s: State, p: nat, r: Request)
    requires p < |s.clients| && s.clients[p].outbox != [] && Tracked(s, r) && Awaited(s, r)
    ensures Tracked(ServiceReceivesStep(s, p), r) && Awaited(ServiceReceivesStep(s, p), r)
  {
    var d := s.clients[p].outbox[0];
    HeadCounts(s.clients[p].outbox, AsPortData(r));
    HandleCounts(ChainOf(s.service, d.chainId), RoutingData(p, d.messageId, d.message), AsRouting(r));
  }

  lemma WorkerReceivesTracks(s: State, c: string, r: Request)
    requires ChainOf(s.service, c).toWorker != [] && Tracked(s, r) && Awaited(s, r)
    ensures Tracked(WorkerReceivesStep(s, c), r) && Awaited(WorkerReceivesStep(s, c), r)
  {
    var ch := ChainOf(s.service, c);
    HeadCounts(ch.toWorker, AsRouting(r));
    CountSnoc(ch.held, ch.toWorker[0], AsRouting(r));
  }

  lemma WorkerAnswersTracks(s: State, c: string, k: nat, a: Answer, r: Request)
    requires k < |ChainOf(s.service, c).held| && Tracked(s, r) && Awaited(s, r)
    ensures Tracked(WorkerAnswersStep(s, c, k, a), r) && Awaited(WorkerAnswersStep(s, c, k, a), r)
  {
    var ch := ChainOf(s.service, c);
    var m := ch.held[k];
    CountWithout(ch.held, k, AsRouting(r));
    CountSnoc(s.served, Request(m.portId, m.messageId, c, m.message), r);
  }

  lemma WorkerExitsTracks(s: State, c: string, r: Request)
    requires Tracked(s, r) && Awaited(s, r)
    ensures Tracked(WorkerExitsStep(s, c), r) && Awaited(WorkerExitsStep(s, c), r)
  {
    var ch := ChainOf(s.service, c);
    RecoverKeepsOrder(WorkerGone(ch).(spawning := ch.spawning + 1));
    FromRoutingCounts(c, ch.toWorker, r);
    FromRoutingCounts(c, ch.held, r);
    CountAppend(s.lost, FromRouting(c, ch.toWorker), r);
    CountAppend(s.lost + FromRouting(c, ch.toWorker), FromRouting(c, ch.held), r);
  }

  lemma {:induction false} ResolvedAppend(a: seq<(nat, Resolution)>, b: seq<(nat, Resolution)>, r: Request)
    ensures ResolvedCount(a + b, r) == ResolvedCount(a, r) + ResolvedCount(b, r)
  {
    if b == [] {
      assert a + b == a;
    } else {
      ResolvedAppend(a, b[..|b| - 1], r);
      assert (a + b)[..|a + b| - 1] == a + b[..|b| - 1];
    }
  }

  lemma ResolvedSnoc(a: seq<(nat, Resolution)>, x: (nat, Resolution), r: Request)
    ensures ResolvedCount(a + [x], r) == ResolvedCount(a, r) + if RequestOf(x) == r then 1 else 0
  {
  }

  /** A delivery splits the listeners into those left and those resolved. */
  lemma {:induction false} DeliverySplits(p: nat, ls: seq<Listener>, d: PortReply, r: Request)
    ensures ResolvedCount(OfPort(p, Resolutions(ls, d)), r)
            == if r.portId == p then Count(ls, AsListener(r)) - Count(Remaining(ls, d), AsListener(r)) else 0
  {
    if ls != [] {
      var front, last := ls[..|ls| - 1], ls[|ls| - 1];
      DeliverySplits(p, front, d, r);
      assert ls == front + [last];
      CountSnoc(front, last, AsListener(r));
      if Matches(last, d) {
        assert OfPort(p, Resolutions(ls, d)) == OfPort(p, Resolutions(front, d)) + [(p, Resolve(last, d))];
        ResolvedSnoc(OfPort(p, Resolutions(front, d)), (p, Resolve(last, d)), r);
        assert Remaining(ls, d) == Remaining(front, d);
      } else {
        assert Resolutions(ls, d) == Resolutions(front, d);
        CountSnoc(Remaining(front, d), last, AsListener(r));
      }
    }
  }

  lemma ClientReceivesTracks(s: State, p: nat, r: Request)
    requires Possible(s, ClientReceives(p)) && Tracked(s, r) && Awaited(s, r)
    ensures Tracked(ClientReceivesStep(s, p), r) && Awaited(ClientReceivesStep(s, p), r)
  {
    var d, c := s.service.portData[p][0], s.clients[p];
    DeliverySplits(p, c.listeners, d, r);
    ResolvedAppend(s.resolved, OfPort(p, Resolutions(c.listeners, d)), r);
  }

  lemma StepTracks(s: State, e: Event, r: Request)
    requires Possible(s, e) && Tracked(s, r) && Awaited(s, r)
    requires r.portId >= |s.clients| ==> Count(s.issued, r) == 0
    ensures Tracked(Step(s, e), r) && Awaited(Step(s, e), r)
  {
    match e
    case ClientSends(p, c, m) => SendTracks(s, p, c, m, r);
    case ServiceReceives(p) => ServiceReceivesTracks(s, p, r);
    case WorkerReceives(c) => WorkerReceivesTracks(s, c, r);
    case WorkerAnswers(c, k, a) => WorkerAnswersTracks(s, c, k, a, r);
    case ServiceRoutes(c) =>
    case ClientReceives(p) => ClientReceivesTracks(s, p, r);
    case WorkerExits(c) => WorkerExitsTracks(s, c, r);
    case _ =>
  }

  // ---------------------------------------------------------------------------------------------
  // Addresses are unique
  // ---------------------------------------------------------------------------------------------

  predicate SameAddress(a: Request, b: Request) {
    a.portId == b.portId && a.messageId == b.messageId
  }

  ghost predicate Addressed(s: State) {
    && |s.clients| == |s.service.portData|
    && (forall i :: 0 <= i < |s.issued| ==>
          s.issued[i].portId < |s.clients| && s.issued[i].messageId < s.clients[s.issued[i].portId].portMessageId)
    && (forall i, j :: 0 <= i < j < |s.issued| ==> !SameAddress(s.issued[i], s.issued[j]))
  }

  lemma StepAddresses(s: State, e: Event)
    requires Addressed(s) && Possible(s, e)
    ensures Addressed(Step(s, e))
  {
  }

  lemma {:induction false} IssuedAtMostOnce(issued: seq<Request>, r: Request)
    requires forall i, j :: 0 <= i < j < |issued| ==> !SameAddress(issued[i], issued[j])
    ensures Count(issued, r) <= 1
  {
    if issued != [] {
      IssuedAtMostOnce(issued[1..], r);
      if issued[0] == r && Count(issued[1..], r) > 0 {
        var k := CountFind(issued[1..], r);
        assert false;
      }
    }
  }

  lemma AddressDetermines(s: State, a: Request, b: Request)
    requires Addressed(s) && Count(s.issued, a) > 0 && Count(s.issued, b) > 0 && SameAddress(a, b)
    ensures a == b
  {
    var i := CountFind(s.issued, a);
    var j := CountFind(s.issued, b);
  }

  // ---------------------------------------------------------------------------------------------
  // Answers and notices are genuine
  // ---------------------------------------------------------------------------------------------

  /** A worker of chain c answered the request of that address, and a is the answer it gave. */
  ghost predicate WasServed(served: seq<Request>, given: seq<Answer>, p: nat, id: nat, c: string, a: Answer) {
    exists k :: 0 <= k < |served| && k < |given| && served[k].portId == p && served[k].messageId == id
                && served[k].chainId == c && given[k] == a && Fits(served[k].message, a)
  }

  /** What a chain sends out, what a port has not received yet, and what a promise resolved to. */
  ghost predicate WorkerReplyGenuine(served: seq<Request>, given: seq<Answer>, c: string, d: WorkerReply) {
    WasServed(served, given, d.portId, d.messageId, c, d.answer)
  }

  ghost predicate PortReplyGenuine(
    served: seq<Request>, given: seq<Answer>, exits: seq<string>, p: nat, d: PortReply)
  {
    match d
    case Reply(c, id, a) => WasServed(served, given, p, id, c, a)
    case CrashNotice(c) => c in exits
  }

  /** A promise resolved by the answer to its own request, or by an exit of the worker of its chain. */
  ghost predicate ResolutionGenuine(
    served: seq<Request>, given: seq<Answer>, exits: seq<string>, p: nat, r: Resolution)
  {
    match r.how
    case Answered(a) => WasServed(served, given, p, r.messageId, r.chainId, a) && Fits(r.message, a)
    case Crashed => r.chainId in exits
  }

  ghost predicate WorkerRepliesGenuine(s: State) {
    forall c: string, i :: 0 <= i < |ChainOf(s.service, c).fromWorker| ==>
      WorkerReplyGenuine(s.served, s.given, c, ChainOf(s.service, c).fromWorker[i])
  }

  ghost predicate PortRepliesGenuine(s: State) {
    forall p, i :: 0 <= p < |s.service.portData| && 0 <= i < |s.service.portData[p]| ==>
      PortReplyGenuine(s.served, s.given, s.exits, p, s.service.portData[p][i])
  }

  ghost predicate ResolutionsGenuine(s: State) {
    forall i :: 0 <= i < |s.resolved| ==>
      ResolutionGenuine(s.served, s.given, s.exits, s.resolved[i].0, s.resolved[i].1)
  }

  ghost predicate Genuine(s: State) {
    |s.given| == |s.served| && WorkerRepliesGenuine(s) && PortRepliesGenuine(s) && ResolutionsGenuine(s)
  }

  lemma WasServedGrows(
    served: seq<Request>, given: seq<Answer>, more: seq<Request>, answers: seq<Answer>,
    p: nat, id: nat, c: string, a: Answer)
    requires WasServed(served, given, p, id, c, a) && served <= more && given <= answers
    ensures WasServed(more, answers, p, id, c, a)
  {
  }

  /** Histories only grow, so what was genuine stays genuine. */
  lemma GenuineGrows(s: State, served: seq<Request>, given: seq<Answer>, exits: seq<string>)
    requires Genuine(s) && s.served <= served && s.given <= given && |served| == |given| && s.exits <= exits
    ensures Genuine(s.(served := served, given := given, exits := exits))
  {
  }

  lemma WorkerAnswersGenuine(s: State, c: string, k: nat, a: Answer)
    requires Possible(s, WorkerAnswers(c, k, a)) && Genuine(s)
    ensures Genuine(WorkerAnswersStep(s, c, k, a))
  {
    var s1 := WorkerAnswersStep(s, c, k, a);
    var ch := ChainOf(s.service, c);
    var m := ch.held[k];
    GenuineGrows(s, s1.served, s1.given, s.exits);
    assert s1.served[|s.served|] == Request(m.portId, m.messageId, c, m.message);
    assert s1.given[|s.served|] == a;
    assert WasServed(s1.served, s1.given, m.portId, m.messageId, c, a);
    forall c1: string, i | 0 <= i < |ChainOf(s1.service, c1).fromWorker|
      ensures WorkerReplyGenuine(s1.served, s1.given, c1, ChainOf(s1.service, c1).fromWorker[i])
    {
      if i < |ChainOf(s.service, c1).fromWorker| {
        var d := ChainOf(s.service, c1).fromWorker[i];
        assert WorkerReplyGenuine(s.served, s.given, c1, d);
        WasServedGrows(s.served, s.given, s1.served, s1.given, d.portId, d.messageId, c1, d.answer);
      }
    }
  }

  /** An event that takes replies from chains at most, and posts none to ports. */
  lemma QuietGenuine(s: State, s1: State)
    requires Genuine(s) && s1.served == s.served && s1.given == s.given
    requires s1.exits == s.exits && s1.resolved == s.resolved
    requires forall c :: ChainOf(s1.service, c).fromWorker == ChainOf(s.service, c).fromWorker
    requires s1.service.portData == s.service.portData || s1.service.portData == s.service.portData + [[]]
    ensures Genuine(s1)
  {
  }

  lemma ServiceRoutesGenuine(s: State, c: string)
    requires ChainOf(s.service, c).fromWorker != [] && Genuine(s)
    ensures Genuine(ServiceRoutesStep(s, c))
  {
    var d := ChainOf(s.service, c).fromWorker[0];
    var s1 := ServiceRoutesStep(s, c);
    assert WorkerReplyGenuine(s.served, s.given, c, d);
    forall c1: string, i | 0 <= i < |ChainOf(s1.service, c1).fromWorker|
      ensures WorkerReplyGenuine(s.served, s.given, c1, ChainOf(s1.service, c1).fromWorker[i])
    {
      var j := if c1 == c then i + 1 else i;
      assert ChainOf(s1.service, c1).fromWorker[i] == ChainOf(s.service, c1).fromWorker[j];
    }
    forall p, i | 0 <= p < |s1.service.portData| && 0 <= i < |s1.service.portData[p]|
      ensures PortReplyGenuine(s.served, s.given, s.exits, p, s1.service.portData[p][i])
    {
      if i < |s.service.portData[p]| {
        assert s1.service.portData[p][i] == s.service.portData[p][i];
      }
    }
  }

  lemma WorkerExitsGenuine(s: State, c: string)
    requires Genuine(s)
    ensures Genuine(WorkerExitsStep(s, c))
  {
    var ch := ChainOf(s.service, c);
    var s1 := WorkerExitsStep(s, c);
    RecoverKeepsOrder(WorkerGone(ch).(spawning := ch.spawning + 1));
    GenuineGrows(s, s.served, s.given, s1.exits);
    var s0 := s.(exits := s1.exits);
    forall c1: string, i | 0 <= i < |ChainOf(s1.service, c1).fromWorker|
      ensures WorkerReplyGenuine(s.served, s.given, c1, ChainOf(s1.service, c1).fromWorker[i])
    {
      assert ChainOf(s1.service, c1).fromWorker == ChainOf(s.service, c1).fromWorker;
    }
    forall p, i | 0 <= p < |s1.service.portData| && 0 <= i < |s1.service.portData[p]|
      ensures PortReplyGenuine(s1.served, s1.given, s1.exits, p, s1.service.portData[p][i])
    {
      if i < |s.service.portData[p]| {
        assert s1.service.portData[p][i] == s0.service.portData[p][i];
      }
    }
  }

  lemma {:induction false} ResolutionsMatch(ls: seq<Listener>, d: PortReply, i: nat) returns (k: nat)
    requires i < |Resolutions(ls, d)|
    ensures k < |ls| && Matches(ls[k], d) && Resolutions(ls, d)[i] == Resolve(ls[k], d)
  {
    var front := ls[..|ls| - 1];
    if i < |Resolutions(front, d)| {
      k := ResolutionsMatch(front, d, i);
    } else {
      k := |ls| - 1;
    }
  }

  /** The reply that reaches a listener is the answer to the listener's own request. */
  lemma OwnAnswer(s: State, p: nat, l: Listener, d: PortReply)
    requires Addressed(s) && p < |s.clients| && l in s.clients[p].listeners
    requires AllTracked(s)
    requires PortReplyGenuine(s.served, s.given, s.exits, p, d) && Matches(l, d)
    ensures ResolutionGenuine(s.served, s.given, s.exits, p, Resolve(l, d))
  {
    if d.Reply? {
      var k :| 0 <= k < |s.served| && s.served[k].portId == p && s.served[k].messageId == d.messageId
               && s.served[k].chainId == d.chainId && k < |s.given| && s.given[k] == d.answer
               && Fits(s.served[k].message, d.answer);
      var own := Request(p, l.messageId, l.chainId, l.message);
      var j :| 0 <= j < |s.clients[p].listeners| && s.clients[p].listeners[j] == l;
      CountPositive(s.clients[p].listeners, j);
      CountPositive(s.served, k);
      assert Tracked(s, s.served[k]) && Awaited(s, own);
      AddressDetermines(s, own, s.served[k]);
    }
  }

  lemma ClientReceivesGenuine(s: State, p: nat)
    requires Possible(s, ClientReceives(p)) && Addressed(s) && Genuine(s)
    requires AllTracked(s)
    ensures Genuine(ClientReceivesStep(s, p))
  {
    var d, ls := s.service.portData[p][0], s.clients[p].listeners;
    var s1 := ClientReceivesStep(s, p);
    assert PortReplyGenuine(s.served, s.given, s.exits, p, d);
    forall i | 0 <= i < |Resolutions(ls, d)|
      ensures ResolutionGenuine(s.served, s.given, s.exits, p, Resolutions(ls, d)[i])
    {
      var k := ResolutionsMatch(ls, d, i);
      OwnAnswer(s, p, ls[k], d);
    }
    forall c: string, i | 0 <= i < |ChainOf(s1.service, c).fromWorker|
      ensures WorkerReplyGenuine(s.served, s.given, c, ChainOf(s1.service, c).fromWorker[i])
    {
      assert ChainOf(s1.service, c) == ChainOf(s.service, c);
    }
    forall q, i | 0 <= q < |s1.service.portData| && 0 <= i < |s1.service.portData[q]|
      ensures PortReplyGenuine(s.served, s.given, s.exits, q, s1.service.portData[q][i])
    {
      var j := if q == p then i + 1 else i;
      assert s1.service.portData[q][i] == s.service.portData[q][j];
    }
  }

  lemma StepGenuine(s: State, e: Event)
    requires Possible(s, e) && Addressed(s) && Genuine(s)
    requires AllTracked(s)
    ensures Genuine(Step(s, e))
  {
    match e
    case WorkerAnswers(c, k, a) => WorkerAnswersGenuine(s, c, k, a);
    case ServiceRoutes(c) => ServiceRoutesGenuine(s, c);
    case ClientReceives(p) => ClientReceivesGenuine(s, p);
    case WorkerExits(c) => WorkerExitsGenuine(s, c);
    case _ => QuietGenuine(s, Step(s, e));
  }

  // ---------------------------------------------------------------------------------------------
  // Requests lost with a worker
  // ---------------------------------------------------------------------------------------------

  /** A lost request is resolved, or a crash notice for its chain is on its way to its client. */
  ghost predicate Notified(s: State, r: Request) {
    Listening(s, r) > 0 ==>
      r.portId < |s.service.portData| && CrashNotice(r.chainId) in s.service.portData[r.portId]
  }

  ghost predicate LostAreNotified(s: State) {
    forall i :: 0 <= i < |s.lost| ==> Notified(s, s.lost[i])
  }

  lemma RemainingSnoc(ls: seq<Listener>, d: PortReply)
    requires ls != []
    ensures var front, last := ls[..|ls| - 1], ls[|ls| - 1];
            Remaining(ls, d) == if Matches(last, d) then Remaining(front, d) else Remaining(front, d) + [last]
  {
  }

  lemma {:induction false} NoticeClears(ls: seq<Listener>, c: string, l: Listener)
    requires l.chainId == c
    ensures Count(Remaining(ls, CrashNotice(c)), l) == 0
  {
    if ls != [] {
      var front, last := ls[..|ls| - 1], ls[|ls| - 1];
      NoticeClears(front, c, l);
      RemainingSnoc(ls, CrashNotice(c));
      CountSnoc(Remaining(front, CrashNotice(c)), last, l);
    }
  }

  lemma {:induction false} RemainingFewer(ls: seq<Listener>, d: PortReply, l: Listener)
    ensures Count(Remaining(ls, d), l) <= Count(ls, l)
  {
    if ls != [] {
      var front, last := ls[..|ls| - 1], ls[|ls| - 1];
      RemainingFewer(front, d, l);
      RemainingSnoc(ls, d);
      assert ls == front + [last];
      CountSnoc(front, last, l);
      CountSnoc(Remaining(front, d), last, l);
    }
  }

  lemma ClientReceivesNotified(s: State, p: nat, r: Request)
    requires Possible(s, ClientReceives(p)) && Notified(s, r)
    ensures Notified(ClientReceivesStep(s, p), r)
  {
    if r.portId == p {
      var d := s.service.portData[p][0];
      if d == CrashNotice(r.chainId) {
        NoticeClears(s.clients[p].listeners, r.chainId, AsListener(r));
      } else {
        RemainingFewer(s.clients[p].listeners, d, AsListener(r));
        assert s.service.portData[p] == [d] + s.service.portData[p][1..];
      }
    }
  }

  lemma SendNotified(s: State, p: nat, c: string, m: Body, r: Request)
    requires p < |s.clients| && Addressed(s) && Tracked(s, r) && Count(s.lost, r) > 0 && Notified(s, r)
    ensures Notified(SendStep(s, p, c, m), r)
  {
    var k := CountFind(s.issued, r);
    CountSnoc(s.clients[p].listeners, Listener(s.clients[p].portMessageId, c, m), AsListener(r));
  }

  lemma WorkerExitsNotified(s: State, c: string)
    requires Addressed(s) && LostAreNotified(s) && AllTracked(s)
    ensures LostAreNotified(WorkerExitsStep(s, c))
  {
  }

  lemma ServiceRoutesNotified(s: State, c: string, r: Request)
    requires ChainOf(s.service, c).fromWorker != [] && Notified(s, r)
    ensures Notified(ServiceRoutesStep(s, c), r)
  {
  }

  lemma StepNotified(s: State, e: Event)
    requires Possible(s, e) && Addressed(s) && LostAreNotified(s)
    requires AllTracked(s)
    ensures LostAreNotified(Step(s, e))
  {
    if e.WorkerExits? {
      WorkerExitsNotified(s, e.chainId);
    } else {
      forall i | 0 <= i < |s.lost| ensures Notified(Step(s, e), s.lost[i]) {
        var r := s.lost[i];
        assert Notified(s, r) && Tracked(s, r);
        CountPositive(s.lost, i);
        match e
        case ClientSends(p, c, m) => SendNotified(s, p, c, m, r);
        case ClientReceives(p) => ClientReceivesNotified(s, p, r);
        case ServiceRoutes(c) => ServiceRoutesNotified(s, c, r);
        case _ =>
      }
    }
  }

  // ---------------------------------------------------------------------------------------------
  // Answers on their way
  // ---------------------------------------------------------------------------------------------

  /** The promise of r is resolved, or the answer a to it is on its way to its client. */
  ghost predicate OnItsWay(s: State, r: Request, a: Answer) {
    Listening(s, r) > 0 ==>
      || WorkerReply(r.portId, r.messageId, a) in ChainOf(s.service, r.chainId).fromWorker
      || (r.portId < |s.service.portData| && Reply(r.chainId, r.messageId, a) in s.service.portData[r.portId])
  }

  ghost predicate ServedAreOnTheirWay(s: State) {
    |s.given| == |s.served| && forall i :: 0 <= i < |s.served| ==> OnItsWay(s, s.served[i], s.given[i])
  }

  lemma {:induction false} ReplyClears(ls: seq<Listener>, c: string, a: Answer, l: Listener)
    ensures Count(Remaining(ls, Reply(c, l.messageId, a)), l) == 0
  {
    if ls != [] {
      var front, last := ls[..|ls| - 1], ls[|ls| - 1];
      ReplyClears(front, c, a, l);
      RemainingSnoc(ls, Reply(c, l.messageId, a));
      CountSnoc(Remaining(front, Reply(c, l.messageId, a)), last, l);
    }
  }

  lemma ClientReceivesOnWay(s: State, p: nat, r: Request, a: Answer)
    requires Possible(s, ClientReceives(p)) && OnItsWay(s, r, a)
    ensures OnItsWay(ClientReceivesStep(s, p), r, a)
  {
    if r.portId == p {
      var d := s.service.portData[p][0];
      if d == Reply(r.chainId, r.messageId, a) {
        ReplyClears(s.clients[p].listeners, r.chainId, a, AsListener(r));
      } else {
        RemainingFewer(s.clients[p].listeners, d, AsListener(r));
        assert s.service.portData[p] == [d] + s.service.portData[p][1..];
      }
    }
  }

  lemma SendOnWay(s: State, p: nat, c: string, m: Body, r: Request, a: Answer)
    requires p < |s.clients| && Addressed(s) && Tracked(s, r) && Count(s.served, r) > 0 && OnItsWay(s, r, a)
    ensures OnItsWay(SendStep(s, p, c, m), r, a)
  {
    var k := CountFind(s.issued, r);
    CountSnoc(s.clients[p].listeners, Listener(s.clients[p].portMessageId, c, m), AsListener(r));
  }

  /** The service takes the first answer of a chain to the port it names. */
  lemma ServiceRoutesOnWay(s: State, c: string, r: Request, a: Answer)
    requires ChainOf(s.service, c).fromWorker != [] && r.portId < |s.service.portData| && OnItsWay(s, r, a)
    ensures OnItsWay(ServiceRoutesStep(s, c), r, a)
  {
    var s1, from := ServiceRoutesStep(s, c), ChainOf(s.service, c).fromWorker;
    assert from == [from[0]] + from[1..];
    if from[0] == WorkerReply(r.portId, r.messageId, a) && r.chainId == c {
      var q := s1.service.portData[r.portId];
      assert q[|q| - 1] == Reply(c, r.messageId, a);
    }
  }

  lemma WorkerAnswersOnWay(s: State, c: string, k: nat, a: Answer)
    requires Possible(s, WorkerAnswers(c, k, a)) && ServedAreOnTheirWay(s)
    ensures ServedAreOnTheirWay(WorkerAnswersStep(s, c, k, a))
  {
    var s1 := WorkerAnswersStep(s, c, k, a);
    var m, from := ChainOf(s.service, c).held[k], ChainOf(s1.service, c).fromWorker;
    forall i | 0 <= i < |s1.served| ensures OnItsWay(s1, s1.served[i], s1.given[i]) {
      if i < |s.served| {
        assert OnItsWay(s, s.served[i], s.given[i]);
        assert s1.served[i] == s.served[i] && s1.given[i] == s.given[i];
      } else {
        assert s1.served[i] == Request(m.portId, m.messageId, c, m.message) && s1.given[i] == a;
        assert from[|from| - 1] == WorkerReply(m.portId, m.messageId, a);
      }
    }
  }

  lemma WorkerExitsOnWay(s: State, c: string, r: Request, a: Answer)
    requires OnItsWay(s, r, a)
    ensures OnItsWay(WorkerExitsStep(s, c), r, a)
  {
    var ch := ChainOf(s.service, c);
    RecoverKeepsOrder(WorkerGone(ch).(spawning := ch.spawning + 1));
    if r.portId < |s.service.portData| {
      assert WorkerExitsStep(s, c).service.portData[r.portId] == s.service.portData[r.portId] + [CrashNotice(c)];
    }
  }

  lemma OneOnWay(s: State, e: Event, r: Request, a: Answer)
    requires Possible(s, e) && !e.WorkerAnswers? && Addressed(s) && Tracked(s, r) && Count(s.served, r) > 0
    requires OnItsWay(s, r, a)
    ensures OnItsWay(Step(s, e), r, a)
  {
    match e
    case ClientSends(p, c, m) => SendOnWay(s, p, c, m, r, a);
    case ClientReceives(p) => ClientReceivesOnWay(s, p, r, a);
    case ServiceRoutes(c) =>
      NeverIssuedElsewhere(s, r);
      ServiceRoutesOnWay(s, c, r, a);
    case WorkerExits(c) => WorkerExitsOnWay(s, c, r, a);
    case _ =>
  }

  lemma StepOnWay(s: State, e: Event)
    requires Possible(s, e) && Addressed(s) && AllTracked(s) && ServedAreOnTheirWay(s)
    ensures ServedAreOnTheirWay(Step(s, e))
  {
    if e.WorkerAnswers? {
      WorkerAnswersOnWay(s, e.chainId, e.k, e.answer);
    } else {
      forall i | 0 <= i < |s.served| ensures OnItsWay(Step(s, e), s.served[i], s.given[i]) {
        assert OnItsWay(s, s.served[i], s.given[i]) && Tracked(s, s.served[i]);
        CountPositive(s.served, i);
        OneOnWay(s, e, s.served[i], s.given[i]);
      }
    }
  }

  // ---------------------------------------------------------------------------------------------
  // Queued requests, and one worker per chain
  // ---------------------------------------------------------------------------------------------

  /** A chain has a worker or is spawning one, never two; nothing is posted to a worker that is gone. */
  ghost predicate OneWorker(ch: Chain) {
    && ch.spawning + (if ch.alive then 1 else 0) <= 1
    && (!ch.alive ==> ch.toWorker == [] && ch.held == [])
  }

  ghost predicate OneWorkerEach(s: State) {
    forall c :: OneWorker(ChainOf(s.service, c))
  }

  lemma StepChains(s: State, e: Event, c: string)
    requires Possible(s, e) && OneWorker(ChainOf(s.service, c))
    ensures OneWorker(ChainOf(Step(s, e).service, c))
    ensures ChainOf(s.service, c).queued <= ChainOf(Step(s, e).service, c).queued
  {
    if e.WorkerExits? {
      var ch := ChainOf(s.service, e.chainId);
      RecoverKeepsOrder(WorkerGone(ch).(spawning := ch.spawning + 1));
    }
  }

  // ---------------------------------------------------------------------------------------------
  // Theorems
  // ---------------------------------------------------------------------------------------------

  ghost predicate Good(s: State) {
    && Addressed(s)
    && AllTracked(s)
    && Genuine(s)
    && LostAreNotified(s)
    && ServedAreOnTheirWay(s)
    && OneWorkerEach(s)
  }

  lemma GoodInit()
    ensures Good(Init())
  {
    InitIsGenuine();
    InitTracks();
    InitChains();
  }

  lemma InitChains()
    ensures OneWorkerEach(Init())
  {
  }

  lemma InitTracks()
    ensures AllTracked(Init())
  {
  }

  lemma InitIsGenuine()
    ensures Genuine(Init()) && Addressed(Init()) && LostAreNotified(Init())
  {
  }

  lemma GoodStep(s: State, e: Event)
    requires Good(s) && Possible(s, e)
    ensures Good(Step(s, e))
  {
    StepAddresses(s, e);
    StepGenuine(s, e);
    StepNotified(s, e);
    StepOnWay(s, e);
    forall r ensures Tracked(Step(s, e), r) && Awaited(Step(s, e), r) {
      NeverIssuedElsewhere(s, r);
      StepTracks(s, e, r);
    }
    forall c ensures OneWorker(ChainOf(Step(s, e).service, c)) {
      StepChains(s, e, c);
    }
  }

  lemma NeverIssuedElsewhere(s: State, r: Request)
    requires Addressed(s)
    ensures r.portId >= |s.clients| ==> Count(s.issued, r) == 0
  {
    if Count(s.issued, r) > 0 {
      var k := CountFind(s.issued, r);
    }
  }

  lemma {:induction false} GoodRun(s: State, evs: seq<Event>)
    requires Good(s) && Run(s, evs).Some?
    ensures Good(Run(s, evs).value)
    decreases |evs|
  {
    if evs != [] {
      GoodStep(s, evs[0]);
      GoodRun(Step(s, evs[0]), evs[1..]);
    }
  }

  ghost predicate Reachable(s: State) {
    exists evs :: Run(Init(), evs) == Some(s)
  }

  lemma ReachableIsGood(s: State)
    requires Reachable(s)
    ensures Good(s)
  {
    var evs :| Run(Init(), evs) == Some(s);
    GoodInit();
    GoodRun(Init(), evs);
  }

  /** In every run a request stands in exactly one place, and its promise is pending or was resolved
      exactly once. */
  lemma EachPromiseResolvesOnce(s: State, r: Request)
    requires Reachable(s)
    ensures Count(s.issued, r) == Travelling(s, r) + Count(s.served, r) + Count(s.lost, r) <= 1
    ensures Count(s.issued, r) == Listening(s, r) + ResolvedCount(s.resolved, r)
  {
    ReachableIsGood(s);
    assert Tracked(s, r) && Awaited(s, r);
    IssuedAtMostOnce(s.issued, r);
  }

  /** A worker answered r, once in the whole run, and a is the answer it gave. */
  ghost predicate AnsweredWith(s: State, r: Request, a: Answer) {
    && |s.given| == |s.served| && Count(s.served, r) == 1
    && exists k :: 0 <= k < |s.served| && s.served[k] == r && s.given[k] == a
  }

  /** In every run a promise is resolved by the very answer a worker of its own chain gave to its own
      request, which is answered only once, or by an exit of a worker of its own chain. */
  lemma ResolvedOnlyByOwn(s: State, i: nat)
    requires Reachable(s) && i < |s.resolved|
    ensures var (p, r) := s.resolved[i];
            match r.how
            case Answered(a) => Fits(r.message, a) && AnsweredWith(s, Request(p, r.messageId, r.chainId, r.message), a)
            case Crashed => r.chainId in s.exits
  {
    ReachableIsGood(s);
    var (p, r) := s.resolved[i];
    assert ResolutionGenuine(s.served, s.given, s.exits, p, r);
    if r.how.Answered? {
      ResolvedWasIssued(s, i);
      GivenToOwn(s, Request(p, r.messageId, r.chainId, r.message), r.how.answer);
    }
  }

  lemma GivenToOwn(s: State, own: Request, a: Answer)
    requires Addressed(s) && AllTracked(s) && |s.given| == |s.served| && Count(s.issued, own) > 0
    requires WasServed(s.served, s.given, own.portId, own.messageId, own.chainId, a)
    ensures AnsweredWith(s, own, a)
  {
    var k :| 0 <= k < |s.served| && k < |s.given| && s.served[k].portId == own.portId
             && s.served[k].messageId == own.messageId && s.served[k].chainId == own.chainId && s.given[k] == a
             && Fits(s.served[k].message, a);
    CountPositive(s.served, k);
    assert Tracked(s, s.served[k]) && Tracked(s, own);
    AddressDetermines(s, own, s.served[k]);
    IssuedAtMostOnce(s.issued, own);
  }

  lemma ResolvedWasIssued(s: State, i: nat)
    requires i < |s.resolved| && AllTracked(s)
    ensures Count(s.issued, RequestOf(s.resolved[i])) > 0
  {
    ResolvedPositive(s.resolved, i);
    assert Awaited(s, RequestOf(s.resolved[i]));
  }

  lemma {:induction false} ResolvedPositive(q: seq<(nat, Resolution)>, i: nat)
    requires i < |q|
    ensures ResolvedCount(q, RequestOf(q[i])) > 0
  {
    if i < |q| - 1 {
      ResolvedPositive(q[..|q| - 1], i);
    }
  }

  /** In every run, once a client has received what was posted to its port, every request of it that
      was handed to a worker that exited is resolved. */
  lemma LostAreResolved(s: State, i: nat)
    requires Reachable(s) && i < |s.lost|
    requires s.lost[i].portId < |s.service.portData| && s.service.portData[s.lost[i].portId] == []
    ensures ResolvedCount(s.resolved, s.lost[i]) == 1
  {
    ReachableIsGood(s);
    CountPositive(s.lost, i);
    assert Notified(s, s.lost[i]) && Tracked(s, s.lost[i]) && Awaited(s, s.lost[i]);
    IssuedAtMostOnce(s.issued, s.lost[i]);
  }

  /** In every run, once the service has routed what the worker of a chain sent and the client has received
      what was posted to its port, every request served there is resolved: exactly once, and by the very
      answer the worker gave unless a worker of the chain exited. */
  lemma ServedAreResolved(s: State, i: nat) returns (j: nat)
    requires Reachable(s) && i < |s.served| && ChainOf(s.service, s.served[i].chainId).fromWorker == []
    requires s.served[i].portId < |s.service.portData| ==> s.service.portData[s.served[i].portId] == []
    ensures ResolvedCount(s.resolved, s.served[i]) == 1
    ensures j < |s.resolved| && RequestOf(s.resolved[j]) == s.served[i] && |s.given| == |s.served|
    ensures s.served[i].chainId !in s.exits ==> s.resolved[j].1.how == Answered(s.given[i])
  {
    var r := s.served[i];
    ReachableIsGood(s);
    CountPositive(s.served, i);
    assert OnItsWay(s, r, s.given[i]) && Tracked(s, r) && Awaited(s, r);
    IssuedAtMostOnce(s.issued, r);
    j := ResolvedFind(s.resolved, r);
    ResolvedOnlyByOwn(s, j);
    if r.chainId !in s.exits {
      var a := s.resolved[j].1.how.answer;
      var k :| 0 <= k < |s.served| && s.served[k] == r && s.given[k] == a;
      OnlyOnce(s.served, i, k);
    }
  }

  lemma {:induction false} ResolvedFind(q: seq<(nat, Resolution)>, r: Request) returns (j: nat)
    requires ResolvedCount(q, r) > 0
    ensures j < |q| && RequestOf(q[j]) == r
  {
    if RequestOf(q[|q| - 1]) == r {
      j := |q| - 1;
    } else {
      j := ResolvedFind(q[..|q| - 1], r);
    }
  }

  lemma TwiceCounts<T>(q: seq<T>, i: nat, k: nat)
    requires i < k < |q| && q[i] == q[k]
    ensures Count(q, q[i]) >= 2
  {
    CountSplit(q, k, q[i]);
    assert q[..k][i] == q[i] && q[k..][0] == q[i];
    CountPositive(q[..k], i);
    CountPositive(q[k..], 0);
  }

  lemma OnlyOnce<T>(q: seq<T>, i: nat, k: nat)
    requires i < |q| && k < |q| && q[i] == q[k] && Count(q, q[i]) <= 1
    ensures i == k
  {
    if i < k {
      TwiceCounts(q, i, k);
    } else if k < i {
      TwiceCounts(q, k, i);
    }
  }

  /** So once nothing is under way, every request that is not left in a queue is resolved exactly once. */
  lemma DrainedResolves(s: State, r: Request)
    requires Reachable(s) && r in s.issued && r.portId < |s.service.portData| && r.portId < |s.clients|
    requires s.clients[r.portId].outbox == [] && s.service.portData[r.portId] == []
    requires var ch := ChainOf(s.service, r.chainId);
             ch.toWorker == [] && ch.held == [] && ch.fromWorker == [] && AsRouting(r) !in ch.queued
    ensures ResolvedCount(s.resolved, r) == 1
  {
    ReachableIsGood(s);
    var k :| 0 <= k < |s.issued| && s.issued[k] == r;
    CountPositive(s.issued, k);
    assert Tracked(s, r);
    Missing(ChainOf(s.service, r.chainId).queued, AsRouting(r));
    if Count(s.served, r) > 0 {
      var i := CountFind(s.served, r);
      var j := ServedAreResolved(s, i);
    } else {
      var i := CountFind(s.lost, r);
      LostAreResolved(s, i);
    }
  }

  lemma {:induction false} Missing<T>(q: seq<T>, x: T)
    requires x !in q
    ensures Count(q, x) == 0
  {
    if q != [] {
      Missing(q[1..], x);
    }
  }

  lemma {:induction false} QueuesOnlyGrow(s: State, evs: seq<Event>, c: string)
    requires Good(s) && Run(s, evs).Some?
    ensures ChainOf(s.service, c).queued <= ChainOf(Run(s, evs).value.service, c).queued
    decreases |evs|
  {
    if evs != [] {
      StepChains(s, evs[0], c);
      GoodStep(s, evs[0]);
      QueuesOnlyGrow(Step(s, evs[0]), evs[1..], c);
    }
  }

  /** A request queued for want of a worker keeps its place in the queue for ever: however often the
      worker is spawned again, no worker serves it. (The recovery of the queue always runs before the
      worker it waits for exists.) */
  lemma QueuedRequestsAreNeverServed(s: State, evs: seq<Event>, c: string, i: nat)
    requires Reachable(s) && Run(s, evs).Some? && i < |ChainOf(s.service, c).queued|
    ensures var s1 := Run(s, evs).value;
            var r := FromRouting(c, ChainOf(s.service, c).queued)[i];
            && i < |ChainOf(s1.service, c).queued| && ChainOf(s1.service, c).queued[i] == ChainOf(s.service, c).queued[i]
            && r !in s1.served && r !in s1.lost
  {
    ReachableIsGood(s);
    QueuesOnlyGrow(s, evs, c);
    GoodRun(s, evs);
    var s1 := Run(s, evs).value;
    var r := FromRouting(c, ChainOf(s.service, c).queued)[i];
    CountPositive(ChainOf(s1.service, c).queued, i);
    assert Tracked(s1, r);
    IssuedAtMostOnce(s1.issued, r);
    Absent(s1.served, r);
    Absent(s1.lost, r);
  }

  lemma Absent<T>(q: seq<T>, x: T)
    requires Count(q, x) == 0
    ensures x !in q
  {
  }

  // -- both sides of it are reachable ------------------------------------------------------------

  lemma {:induction false} RunSnoc(s: State, evs: seq<Event>, e: Event)
    requires Run(s, evs).Some? && Possible(Run(s, evs).value, e)
    ensures Run(s, evs + [e]) == Some(Step(Run(s, evs).value, e))
    decreases |evs|
  {
    if evs == [] {
      assert evs + [e] == [e] && [e][1..] == [];
    } else {
      RunSnoc(Step(s, evs[0]), evs[1..], e);
      assert (evs + [e])[1..] == evs[1..] + [e];
    }
  }

  lemma ReachableStep(s: State, e: Event)
    requires Reachable(s) && Possible(s, e)
    ensures Reachable(Step(s, e))
  {
    var evs :| Run(Init(), evs) == Some(s);
    RunSnoc(Init(), evs, e);
  }

  lemma WorkerDown(c: string) returns (s: State)
    ensures Reachable(s) && s.clients == [Client(0, [], [])] && ChainOf(s.service, c) == Chain(false, 1, [], [], [], [])
  {
    s := Init();
    assert Run(Init(), []) == Some(s);
    ReachableStep(s, Attach);
    s := Step(s, Attach);
    ReachableStep(s, StartUp(c));
    s := Step(s, StartUp(c));
    ReachableStep(s, Spawned(c));
    s := Step(s, Spawned(c));
    ReachableStep(s, WorkerExits(c));
    s := Step(s, WorkerExits(c));
  }

  /** For every chain and request there is such a run: the worker exits, the request arrives while the
      next worker is spawned, and stays queued although that worker is alive. */
  lemma QueuedBesideLiveWorker(c: string, m: Body) returns (s: State)
    ensures Reachable(s)
    ensures ChainOf(s.service, c).alive && ChainOf(s.service, c).queued == [RoutingData(0, 0, m)]
  {
    s := WorkerDown(c);
    ReachableStep(s, ClientSends(0, c, m));
    s := Step(s, ClientSends(0, c, m));
    ReachableStep(s, ServiceReceives(0));
    s := Step(s, ServiceReceives(0));
    ReachableStep(s, Spawned(c));
    s := Step(s, Spawned(c));
  }

  /** Some continuation of the run answers r. */
  ghost predicate CanBeServed(s: State, r: Request) {
    exists evs :: Run(s, evs).Some? && r in Run(s, evs).value.served
  }

  function FittingAnswer(m: Body): (a: Answer)
    ensures Fits(m, a)
  {
    match m
    case TransactionRequest(txRequest, metadata) => TransactionResponse(txRequest, metadata, None, None, None, None)
    case GetFeeData(priority) => FeeData(priority, None, None, None)
  }

  /** A live worker can receive all that was posted to it and answer the last request. */
  lemma {:induction false} LastCanBeServed(s: State, c: string, m: RoutingData)
    requires ChainOf(s.service, c).alive
    requires var all := ChainOf(s.service, c).held + ChainOf(s.service, c).toWorker; all != [] && all[|all| - 1] == m
    ensures CanBeServed(s, Request(m.portId, m.messageId, c, m.message))
    decreases |ChainOf(s.service, c).toWorker|
  {
    var ch := ChainOf(s.service, c);
    var r := Request(m.portId, m.messageId, c, m.message);
    if ch.toWorker == [] {
      var e := WorkerAnswers(c, |ch.held| - 1, FittingAnswer(m.message));
      assert Run(s, [e]) == Run(Step(s, e), []);
      assert Step(s, e).served[|s.served|] == r;
    } else {
      var s1 := Step(s, WorkerReceives(c));
      assert ch.held + ch.toWorker == ChainOf(s1.service, c).held + ChainOf(s1.service, c).toWorker;
      LastCanBeServed(s1, c, m);
      var evs :| Run(s1, evs).Some? && r in Run(s1, evs).value.served;
      assert ([WorkerReceives(c)] + evs)[1..] == evs;
      assert Run(s, [WorkerReceives(c)] + evs) == Run(s1, evs);
    }
  }

  /** When the service receives a request, a worker can still come to answer it if and only if the worker
      of its chain is alive at that moment. */
  lemma ServableExactly(s: State, p: nat)
    requires Reachable(s) && Possible(s, ServiceReceives(p))
    ensures var d := s.clients[p].outbox[0];
            CanBeServed(Step(s, ServiceReceives(p)), Request(p, d.messageId, d.chainId, d.message))
            <==> ChainOf(s.service, d.chainId).alive
  {
    var d := s.clients[p].outbox[0];
    var m, r := RoutingData(p, d.messageId, d.message), Request(p, d.messageId, d.chainId, d.message);
    var s1 := Step(s, ServiceReceives(p));
    ReachableStep(s, ServiceReceives(p));
    if ChainOf(s.service, d.chainId).alive {
      LastCanBeServed(s1, d.chainId, m);
    } else {
      var i := |ChainOf(s.service, d.chainId).queued|;
      assert ChainOf(s1.service, d.chainId).queued[i] == m;
      forall evs | Run(s1, evs).Some? ensures r !in Run(s1, evs).value.served {
        QueuedRequestsAreNeverServed(s1, evs, d.chainId, i);
      }
    }
  }
}
