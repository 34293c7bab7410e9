/**
 * The two objects of the wallet protocol: the client's interface and the service. Each method takes its
 * object from its part of any state of the whole system to its part of the next state.
 */
module WalletObjects {
  import opened WalletRouting

  /** Listeners in the order they were registered, their ids below n. */
  ghost predicate Ordered(ls: seq<Listener>, n: nat) {
    && (forall i :: 0 <= i < |ls| ==> ls[i].messageId < n)
    && (forall i, j :: 0 <= i < j < |ls| ==> ls[i].messageId < ls[j].messageId)
  }

  ghost predicate SentBelow(q: seq<PortData>, n: nat) {
    forall i :: 0 <= i < |q| ==> q[i].messageId < n
  }

  lemma {:induction false} RemainingOrdered(ls: seq<Listener>, d: PortReply, n: nat)
    requires Ordered(ls, n)
    ensures Ordered(Remaining(ls, d), n)
  {
    if ls != [] {
      var front, last := ls[..|ls| - 1], ls[|ls| - 1];
      RemainingOrdered(front, d, last.messageId);
      assert Remaining(ls, d) == if Matches(last, d) then Remaining(front, d) else Remaining(front, d) + [last];
    }
  }

  /** A reply concerns at most one promise, and none that is not pending. */
  lemma {:induction false} ReplyResolvesOne(ls: seq<Listener>, d: PortReply, n: nat)
    requires Ordered(ls, n) && d.Reply?
    ensures |Resolutions(ls, d)| <= 1
    ensures d.messageId >= n ==> Resolutions(ls, d) == []
  {
    if ls != [] {
      ReplyResolvesOne(ls[..|ls| - 1], d, ls[|ls| - 1].messageId);
    }
  }

  class WalletInterface {
    var portMessageId: nat
    var listeners: seq<Listener>
    var outbox: seq<PortData>     // posted to the port and not yet received by the service

    function View(): Client
      reads this
    {
      Client(portMessageId, listeners, outbox)
    }

    ghost predicate Valid()
      reads this
    {
      Ordered(listeners, portMessageId) && SentBelow(outbox, portMessageId)
    }

    /** The object is the client at port p of a system. */
    ghost predicate IsClientOf(s: State, p: nat)
      reads this
    {
      p < |s.clients| && s.clients[p] == View()
    }

    constructor ()
      ensures Valid() && View() == Client(0, [], [])
    {
      portMessageId, listeners, outbox := 0, [], [];
    }

    method GetNextPortMessageId() returns (id: nat)
      modifies this`portMessageId
      ensures id == old(portMessageId) && portMessageId == id + 1
    {
      id := portMessageId;
      portMessageId := portMessageId + 1;
    }

    /** A message may leave only once its listener is in place. */
    method PostMessage(portData: PortData, message: Body)
      requires Listener(portData.messageId, portData.chainId, message) in listeners
      modifies this`outbox
      ensures outbox == old(outbox) + [portData]
    {
      outbox := outbox + [portData];
    }

    /** `submitTransaction` and `getFeeData`: a promise of its own, under an id no promise pending and no
        message in transit has. */
    method Request(chainId: string, message: Body) returns (messageId: nat)
      requires Valid()
      modifies this
      ensures Valid() && View() == Send(old(View()), chainId, message)
      ensures forall s: State, p: nat ::
                old(IsClientOf(s, p)) ==> IsClientOf(Step(s, ClientSends(p, chainId, message)), p)
      ensures forall i :: 0 <= i < |old(listeners)| ==> old(listeners)[i].messageId != messageId
      ensures forall i :: 0 <= i < |old(outbox)| ==> old(outbox)[i].messageId != messageId
      ensures listeners[|listeners| - 1].messageId == messageId == outbox[|outbox| - 1].messageId
    {
      messageId := GetNextPortMessageId();
      listeners := listeners + [Listener(messageId, chainId, message)];
      PostMessage(PortData(chainId, messageId, message), message);
    }

    /** A message arrives at the port: every listener sees it, and those it concerns resolve and go. */
    method OnMessage(data: PortReply) returns (resolved: seq<Resolution>)
      requires Valid()
      modifies this`listeners
      ensures Valid() && (data.Reply? ==> |resolved| <= 1)
      ensures listeners == Remaining(old(listeners), data)
      ensures resolved == Resolutions(old(listeners), data)
      ensures forall s: State, p: nat ::
                old(IsClientOf(s, p)) && Possible(s, ClientReceives(p)) && s.service.portData[p][0] == data ==>
                  && IsClientOf(Step(s, ClientReceives(p)), p)
                  && Step(s, ClientReceives(p)).resolved == s.resolved + OfPort(p, resolved)
    {
      var i, kept := 0, [];
      resolved := [];
      while i < |listeners|
        invariant 0 <= i <= |listeners|
        invariant kept == Remaining(listeners[..i], data)
        invariant resolved == Resolutions(listeners[..i], data)
      {
        var listener := listeners[i];
        assert listeners[..i + 1][..i] == listeners[..i];
        match data {
          case Reply(_, messageId, answer) =>
            if messageId == listener.messageId {
              resolved := resolved
                + [Resolution(listener.messageId, listener.chainId, listener.message, Answered(answer))];
            } else {
              kept := kept + [listener];
            }
          case CrashNotice(chainId) =>
            if chainId == listener.chainId {
              resolved := resolved + [Resolution(listener.messageId, listener.chainId, listener.message, Crashed)];
            } else {
              kept := kept + [listener];
            }
        }
        i := i + 1;
      }
      assert listeners[..i] == listeners;
      RemainingOrdered(listeners, data, portMessageId);
      if data.Reply? {
        ReplyResolvesOne(listeners, data, portMessageId);
      }
      listeners := kept;
    }
  }

  /** What the runtime keeps of one chain's workers. */
  datatype Threads = Threads(
    spawning: nat, toWorker: seq<RoutingData>, held: seq<RoutingData>, fromWorker: seq<WorkerReply>)

  class WalletService {
    var workers: map<string, bool>                      // true: a worker, false: null
    var ports: seq<seq<PortReply>>                      // posted to each port, not yet received
    var queuedMessages: map<string, seq<RoutingData>>
    var threads: map<string, Threads>

    function Alive(chainId: string): bool
      reads this
    {
      chainId in workers && workers[chainId]
    }

    function Queued(chainId: string): seq<RoutingData>
      reads this
    {
      if chainId in queuedMessages then queuedMessages[chainId] else []
    }

    function ThreadsOf(chainId: string): Threads
      reads this
    {
      if chainId in threads then threads[chainId] else Threads(0, [], [], [])
    }

    function ChainView(chainId: string): Chain
      reads this
    {
      var t := ThreadsOf(chainId);
      Chain(Alive(chainId), t.spawning, Queued(chainId), t.toWorker, t.held, t.fromWorker)
    }

    /** The object is the service of a system. */
    ghost predicate IsServiceOf(s: State)
      reads this
    {
      s.service.portData == ports && forall c: string :: ChainOf(s.service, c) == ChainView(c)
    }

    constructor ()
      ensures IsServiceOf(Init())
      ensures ports == [] && forall c: string :: ChainView(c) == Chain(false, 0, [], [], [], [])
    {
      workers, ports, queuedMessages, threads := map[], [], map[], map[];
    }

    method AttachToWallet() returns (portId: nat)
      modifies this`ports
      ensures portId == |old(ports)|
      ensures forall s: State :: old(IsServiceOf(s)) ==> IsServiceOf(Step(s, Attach))
    {
      portId := |ports|;
      ports := ports + [[]];
      forall s: State | old(IsServiceOf(s)) ensures IsServiceOf(Step(s, Attach)) {
        forall c: string ensures ChainOf(Step(s, Attach).service, c) == ChainView(c) {
          assert ChainOf(s.service, c) == old(ChainView(c));
        }
      }
    }

    method HandleWalletPortData(portId: nat, portData: PortData)
      modifies this`queuedMessages, this`threads
      ensures ChainView(portData.chainId)
           == Handle(old(ChainView(portData.chainId)), RoutingData(portId, portData.messageId, portData.message))
      ensures forall c: string :: c != portData.chainId ==> ChainView(c) == old(ChainView(c))
      ensures forall s: State ::
                old(IsServiceOf(s)) && Possible(s, ServiceReceives(portId)) && s.clients[portId].outbox[0] == portData
                ==>
                  IsServiceOf(Step(s, ServiceReceives(portId)))
    {
      var chainId := portData.chainId;
      var routingData := RoutingData(portId, portData.messageId, portData.message);
      if !Alive(chainId) {
        if chainId !in queuedMessages {
          queuedMessages := queuedMessages[chainId := []];
        }
        queuedMessages := queuedMessages[chainId := queuedMessages[chainId] + [routingData]];
      } else {
        var t := ThreadsOf(chainId);
        threads := threads[chainId := t.(toWorker := t.toWorker + [routingData])];
      }
    }

    method AbortPendingRequests(chainId: string)
      modifies this`ports
      ensures ports == Broadcast(old(ports), CrashNotice(chainId))
    {
      var i := 0;
      while i < |ports|
        invariant 0 <= i <= |ports| == |old(ports)|
        invariant forall p :: 0 <= p < i ==> ports[p] == old(ports)[p] + [CrashNotice(chainId)]
        invariant forall p :: i <= p < |ports| ==> ports[p] == old(ports)[p]
      {
        ports := ports[i := ports[i] + [CrashNotice(chainId)]];
        i := i + 1;
      }
    }

    method RecoverQueuedMessages(chainId: string)
      modifies this`queuedMessages, this`threads
      ensures ChainView(chainId) == Recover(old(ChainView(chainId)))
      ensures forall c: string :: c != chainId ==> ChainView(c) == old(ChainView(c))
    {
      var messages := Queued(chainId);
      queuedMessages := queuedMessages[chainId := []];
      ghost var emptied := old(ChainView(chainId)).(queued := []);
      var i := 0;
      while i < |messages|
        invariant 0 <= i <= |messages|
        invariant ChainView(chainId) == HandleAll(emptied, messages[..i])
        invariant forall c: string :: c != chainId ==> ChainView(c) == old(ChainView(c))
      {
        assert messages[..i + 1][..i] == messages[..i];
        HandleWalletPortData(messages[i].portId, PortData(chainId, messages[i].messageId, messages[i].message));
        i := i + 1;
      }
      assert messages[..i] == messages;
    }

    /** `spawnWorker` up to the awaited configuration. */
    method BeginSpawn(chainId: string)
      modifies this`threads
      ensures ChainView(chainId) == old(ChainView(chainId)).(spawning := old(ChainView(chainId)).spawning + 1)
      ensures forall c: string :: c != chainId ==> ChainView(c) == old(ChainView(c))
      ensures forall s: State :: old(IsServiceOf(s)) && Possible(s, StartUp(chainId)) ==>
                IsServiceOf(Step(s, StartUp(chainId)))
    {
      var t := ThreadsOf(chainId);
      threads := threads[chainId := t.(spawning := t.spawning + 1)];
    }

    /** The rest of `spawnWorker`. */
    method EndSpawn(chainId: string)
      requires ChainView(chainId).spawning > 0
      modifies this`threads, this`workers
      ensures ChainView(chainId)
           == old(ChainView(chainId)).(alive := true, spawning := old(ChainView(chainId)).spawning - 1)
      ensures forall c: string :: c != chainId ==> ChainView(c) == old(ChainView(c))
      ensures forall s: State :: old(IsServiceOf(s)) && Possible(s, Spawned(chainId)) ==>
                IsServiceOf(Step(s, Spawned(chainId)))
    {
      var t := ThreadsOf(chainId);
      threads := threads[chainId := t.(spawning := t.spawning - 1)];
      workers := workers[chainId := true];
      forall s: State | old(IsServiceOf(s)) && Possible(s, Spawned(chainId))
        ensures IsServiceOf(Step(s, Spawned(chainId)))
      {
        forall c: string ensures ChainOf(Step(s, Spawned(chainId)).service, c) == ChainView(c) {
          assert ChainOf(s.service, c) == old(ChainView(c)) && ChainOf(s.service, chainId) == old(ChainView(chainId));
        }
      }
    }

    /** The exit handler; the messages the worker had not answered are gone with it. */
    method OnWorkerExit(chainId: string)
      modifies this
      ensures ports == Broadcast(old(ports), CrashNotice(chainId))
      ensures var gone := WorkerGone(old(ChainView(chainId)));
              ChainView(chainId) == Recover(gone.(spawning := gone.spawning + 1))
      ensures forall c: string :: c != chainId ==> ChainView(c) == old(ChainView(c))
      ensures forall s: State :: old(IsServiceOf(s)) && Possible(s, WorkerExits(chainId)) ==>
                IsServiceOf(Step(s, WorkerExits(chainId)))
    {
      ReplaceWorker(chainId);
      forall s: State | old(IsServiceOf(s)) && Possible(s, WorkerExits(chainId))
        ensures IsServiceOf(Step(s, WorkerExits(chainId)))
      {
        forall c: string ensures ChainOf(Step(s, WorkerExits(chainId)).service, c) == ChainView(c) {
          assert ChainOf(s.service, c) == old(ChainView(c)) && ChainOf(s.service, chainId) == old(ChainView(chainId));
        }
      }
    }

    method ReplaceWorker(chainId: string)
      modifies this
      ensures ports == Broadcast(old(ports), CrashNotice(chainId))
      ensures var gone := WorkerGone(old(ChainView(chainId)));
              ChainView(chainId) == Recover(gone.(spawning := gone.spawning + 1))
      ensures forall c: string :: c != chainId ==> ChainView(c) == old(ChainView(c))
    {
      threads := threads[chainId := ThreadsOf(chainId).(toWorker := [], held := [])];
      workers := workers[chainId := false];
      AbortPendingRequests(chainId);
      BeginSpawn(chainId);
      RecoverQueuedMessages(chainId);
    }

    /** The next message of the chain's worker goes to the port it names, if there is one. */
    method OnWorkerMessage(chainId: string)
      requires ThreadsOf(chainId).fromWorker != []
      modifies this`ports, this`threads
      ensures ports == WalletRouting.OnWorkerMessage(
                         Service(old(ports), map[]), chainId, old(ThreadsOf(chainId).fromWorker[0])).portData
      ensures forall s: State :: old(IsServiceOf(s)) && Possible(s, ServiceRoutes(chainId)) ==>
                IsServiceOf(Step(s, ServiceRoutes(chainId)))
    {
      var t := ThreadsOf(chainId);
      var data := t.fromWorker[0];
      threads := threads[chainId := t.(fromWorker := t.fromWorker[1..])];
      if data.portId < |ports| {
        var portData := Reply(chainId, data.messageId, data.answer);
        ports := ports[data.portId := ports[data.portId] + [portData]];
      }
      forall s: State | old(IsServiceOf(s)) && Possible(s, ServiceRoutes(chainId))
        ensures IsServiceOf(Step(s, ServiceRoutes(chainId)))
      {
        forall c: string ensures ChainOf(Step(s, ServiceRoutes(chainId)).service, c) == ChainView(c) {
          assert ChainOf(s.service, c) == old(ChainView(c)) && ChainOf(s.service, chainId) == old(ChainView(chainId));
        }
      }
    }
  }
}
