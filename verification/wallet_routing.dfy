/**
 * Requests between wallet clients, the wallet service and the wallet workers, with workers that exit
 * and are spawned again. Every channel is a sequence in delivery order.
 */
module WalletRouting {
  import opened Common

  // ---------------------------------------------------------------------------------------------
  // Messages
  // ---------------------------------------------------------------------------------------------

  datatype Body =
    | TransactionRequest(txRequest: string, metadata: string)
    | GetFeeData(priority: bool)

  datatype Answer =
    | TransactionResponse(txRequest: string, metadata: string, tx: Option<string>, txReceipt: Option<string>,
                          submissionError: Option<string>, confirmationError: Option<string>)
    | FeeData(priority: bool, gasPrice: Option<int>, maxFeePerGas: Option<int>, maxPriorityFeePerGas: Option<int>)

  /** The answer a worker builds for a request repeats what the request asked for. */
  predicate Fits(b: Body, a: Answer) {
    match b
    case TransactionRequest(txRequest, metadata) =>
      a.TransactionResponse? && a.txRequest == txRequest && a.metadata == metadata
    case GetFeeData(priority) => a.FeeData? && a.priority == priority
  }

  /** From a port to the service, and inside the service towards a worker. */
  datatype PortData = PortData(chainId: string, messageId: nat, message: Body)
  datatype RoutingData = RoutingData(portId: nat, messageId: nat, message: Body)

  /** From a worker, and from the service to a port; a notice stands for message id -1. */
  datatype WorkerReply = WorkerReply(portId: nat, messageId: nat, answer: Answer)
  datatype PortReply =
    | Reply(chainId: string, messageId: nat, answer: Answer)
    | CrashNotice(chainId: string)

  // ---------------------------------------------------------------------------------------------
  // Clients
  // ---------------------------------------------------------------------------------------------

  /** The closure behind one pending promise. */
  datatype Listener = Listener(messageId: nat, chainId: string, message: Body)

  datatype Client = Client(portMessageId: nat, listeners: seq<Listener>, outbox: seq<PortData>)

  datatype How = Answered(answer: Answer) | Crashed
  datatype Resolution = Resolution(messageId: nat, chainId: string, message: Body, how: How)

  function Send(c: Client, chainId: string, message: Body): Client {
    Client(c.portMessageId + 1,
           c.listeners + [Listener(c.portMessageId, chainId, message)],
           c.outbox + [PortData(chainId, c.portMessageId, message)])
  }

  predicate Matches(l: Listener, d: PortReply) {
    match d
    case Reply(_, id, _) => id == l.messageId
    case CrashNotice(chainId) => chainId == l.chainId
  }

  function Resolve(l: Listener, d: PortReply): Resolution {
    Resolution(l.messageId, l.chainId, l.message, if d.Reply? then Answered(d.answer) else Crashed)
  }

  /** The listeners left, and the promises resolved, when every listener has seen d. */
  function Remaining(ls: seq<Listener>, d: PortReply): seq<Listener> {
    if ls == [] then []
    else
      var last := ls[|ls| - 1];
      Remaining(ls[..|ls| - 1], d) + if Matches(last, d) then [] else [last]
  }

  function Resolutions(ls: seq<Listener>, d: PortReply): seq<Resolution> {
    if ls == [] then []
    else
      var last := ls[|ls| - 1];
      Resolutions(ls[..|ls| - 1], d) + if Matches(last, d) then [Resolve(last, d)] else []
  }

  // ---------------------------------------------------------------------------------------------
  // The service and its workers
  // ---------------------------------------------------------------------------------------------

  /** Everything the service and the runtime keep for one chain. */
  datatype Chain = Chain(
    alive: bool,                    // `workers[chainId]` holds a worker
    spawning: nat,                  // calls of `spawnWorker` awaiting the configuration
    queued: seq<RoutingData>,       // `queuedMessages[chainId]`
    toWorker: seq<RoutingData>,     // posted, not yet received by the worker
    held: seq<RoutingData>,         // received by the worker, not yet answered
    fromWorker: seq<WorkerReply>)

  /** `portData[p]`: messages posted to port p and not yet received by its client. */
  datatype Service = Service(portData: seq<seq<PortReply>>, chains: map<string, Chain>)

  function ChainOf(s: Service, c: string): Chain {
    if c in s.chains then s.chains[c] else Chain(false, 0, [], [], [], [])
  }

  /** `handleWalletPortData` for one chain. */
  function Handle(ch: Chain, m: RoutingData): Chain {
    if ch.alive then ch.(toWorker := ch.toWorker + [m]) else ch.(queued := ch.queued + [m])
  }

  function HandleAll(ch: Chain, ms: seq<RoutingData>): Chain {
    if ms == [] then ch else Handle(HandleAll(ch, ms[..|ms| - 1]), ms[|ms| - 1])
  }

  /** `recoverQueuedMessages` */
  function Recover(ch: Chain): Chain {
    HandleAll(ch.(queued := []), ch.queued)
  }

  /** The queue is handed to a live worker in order, and otherwise left exactly as it was. */
  lemma RecoverKeepsOrder(ch: Chain)
    ensures Recover(ch) == if ch.alive then ch.(queued := [], toWorker := ch.toWorker + ch.queued) else ch
  {
    HandleAllAppends(ch.(queued := []), ch.queued);
  }

  lemma {:induction false} HandleAllAppends(ch: Chain, ms: seq<RoutingData>)
    ensures HandleAll(ch, ms) ==
            if ch.alive then ch.(toWorker := ch.toWorker + ms) else ch.(queued := ch.queued + ms)
  {
    if ms != [] {
      HandleAllAppends(ch, ms[..|ms| - 1]);
      assert ms == ms[..|ms| - 1] + [ms[|ms| - 1]];
    }
  }

  /** `abortPendingRequests` */
  function Broadcast(portData: seq<seq<PortReply>>, d: PortReply): (r: seq<seq<PortReply>>)
    ensures |r| == |portData| && forall p :: 0 <= p < |portData| ==> r[p] == portData[p] + [d]
  {
    seq(|portData|, p requires 0 <= p < |portData| => portData[p] + [d])
  }

  function WorkerGone(ch: Chain): Chain {
    ch.(alive := false, toWorker := [], held := [])
  }

  /** The exit handler: `spawnWorker` only gets as far as its first await before the recovery runs. */
  function OnExit(s: Service, c: string): Service {
    var gone := WorkerGone(ChainOf(s, c));
    Service(Broadcast(s.portData, CrashNotice(c)),
            s.chains[c := Recover(gone.(spawning := gone.spawning + 1))])
  }

  /** The message handler of a worker: an answer for an unknown port is dropped. */
  function OnWorkerMessage(s: Service, c: string, d: WorkerReply): Service {
    if d.portId < |s.portData|
    then s.(portData := s.portData[d.portId := s.portData[d.portId] + [Reply(c, d.messageId, d.answer)]])
    else s
  }

  // ---------------------------------------------------------------------------------------------
  // The whole system
  // ---------------------------------------------------------------------------------------------

  /** A request with its full address. */
  datatype Request = Request(portId: nat, messageId: nat, chainId: string, message: Body)

  datatype State = State(
    clients: seq<Client>,
    service: Service,
    // history
    issued: seq<Request>,
    served: seq<Request>,                  // answered by a worker
    given: seq<Answer>,                    // the answer it gave to the request at the same place of `served`
    lost: seq<Request>,                    // handed to a worker that exited before answering
    exits: seq<string>,
    resolved: seq<(nat, Resolution)>)      // with the port of the client

  function Init(): State {
    State([], Service([], map[]), [], [], [], [], [], [])
  }

  datatype Event =
    | Attach
    | StartUp(chainId: string)                          // the first `spawnWorker` of a chain
    | Spawned(chainId: string)
    | ClientSends(portId: nat, chainId: string, message: Body)
    | ServiceReceives(portId: nat)
    | WorkerReceives(chainId: string)
    | WorkerAnswers(chainId: string, k: nat, answer: Answer)
    | ServiceRoutes(chainId: string)
    | ClientReceives(portId: nat)
    | WorkerExits(chainId: string)

  predicate Possible(s: State, e: Event) {
    match e
    case Attach => true
    case StartUp(c) => ChainOf(s.service, c).spawning == 0 && !ChainOf(s.service, c).alive
    case Spawned(c) => ChainOf(s.service, c).spawning > 0
    case ClientSends(p, _, _) => p < |s.clients|
    case ServiceReceives(p) => p < |s.clients| && s.clients[p].outbox != []
    case WorkerReceives(c) => ChainOf(s.service, c).alive && ChainOf(s.service, c).toWorker != []
    case WorkerAnswers(c, k, a) =>
      && ChainOf(s.service, c).alive && k < |ChainOf(s.service, c).held|
      && Fits(ChainOf(s.service, c).held[k].message, a)
    case ServiceRoutes(c) => ChainOf(s.service, c).fromWorker != []
    case ClientReceives(p) => p < |s.clients| && p < |s.service.portData| && s.service.portData[p] != []
    case WorkerExits(c) => ChainOf(s.service, c).alive
  }

  function SetChain(s: State, c: string, ch: Chain): State {
    s.(service := s.service.(chains := s.service.chains[c := ch]))
  }

  function FromRouting(c: string, q: seq<RoutingData>): (r: seq<Request>)
    ensures |r| == |q|
    ensures forall i :: 0 <= i < |q| ==> r[i] == Request(q[i].portId, q[i].messageId, c, q[i].message)
  {
    seq(|q|, i requires 0 <= i < |q| => Request(q[i].portId, q[i].messageId, c, q[i].message))
  }

  function AttachStep(s: State): State {
    s.(clients := s.clients + [Client(0, [], [])], service := s.service.(portData := s.service.portData + [[]]))
  }

  function SendStep(s: State, p: nat, c: string, m: Body): State
    requires p < |s.clients|
  {
    s.(clients := s.clients[p := Send(s.clients[p], c, m)],
       issued := s.issued + [Request(p, s.clients[p].portMessageId, c, m)])
  }

  function ServiceReceivesStep(s: State, p: nat): State
    requires p < |s.clients| && s.clients[p].outbox != []
  {
    var d, rest := s.clients[p].outbox[0], s.clients[p].outbox[1..];
    var ch := Handle(ChainOf(s.service, d.chainId), RoutingData(p, d.messageId, d.message));
    SetChain(s.(clients := s.clients[p := s.clients[p].(outbox := rest)]), d.chainId, ch)
  }

  function WorkerReceivesStep(s: State, c: string): State
    requires ChainOf(s.service, c).toWorker != []
  {
    var ch := ChainOf(s.service, c);
    SetChain(s, c, ch.(toWorker := ch.toWorker[1..], held := ch.held + [ch.toWorker[0]]))
  }

  function WorkerAnswersStep(s: State, c: string, k: nat, a: Answer): State
    requires k < |ChainOf(s.service, c).held|
  {
    var ch := ChainOf(s.service, c);
    var m := ch.held[k];
    SetChain(s.(served := s.served + [Request(m.portId, m.messageId, c, m.message)], given := s.given + [a]), c,
             ch.(held := Without(ch.held, k), fromWorker := ch.fromWorker + [WorkerReply(m.portId, m.messageId, a)]))
  }

  function ServiceRoutesStep(s: State, c: string): State
    requires ChainOf(s.service, c).fromWorker != []
  {
    var ch := ChainOf(s.service, c);
    var s1 := SetChain(s, c, ch.(fromWorker := ch.fromWorker[1..]));
    s1.(service := OnWorkerMessage(s1.service, c, ch.fromWorker[0]))
  }

  function OfPort(p: nat, rs: seq<Resolution>): (r: seq<(nat, Resolution)>)
    ensures |r| == |rs| && forall i :: 0 <= i < |rs| ==> r[i] == (p, rs[i])
  {
    seq(|rs|, i requires 0 <= i < |rs| => (p, rs[i]))
  }

  function ClientReceivesStep(s: State, p: nat): State
    requires p < |s.clients| && p < |s.service.portData| && s.service.portData[p] != []
  {
    var d, c := s.service.portData[p][0], s.clients[p];
    s.(clients := s.clients[p := c.(listeners := Remaining(c.listeners, d))],
       service := s.service.(portData := s.service.portData[p := s.service.portData[p][1..]]),
       resolved := s.resolved + OfPort(p, Resolutions(c.listeners, d)))
  }

  function WorkerExitsStep(s: State, c: string): State {
    var ch := ChainOf(s.service, c);
    s.(service := OnExit(s.service, c), exits := s.exits + [c],
       lost := s.lost + FromRouting(c, ch.toWorker) + FromRouting(c, ch.held))
  }

  function Step(s: State, e: Event): State
    requires Possible(s, e)
  {
    match e
    case Attach => AttachStep(s)
    case StartUp(c) => SetChain(s, c, ChainOf(s.service, c).(spawning := 1))
    case Spawned(c) =>
      var ch := ChainOf(s.service, c);
      SetChain(s, c, ch.(alive := true, spawning := ch.spawning - 1))
    case ClientSends(p, c, m) => SendStep(s, p, c, m)
    case ServiceReceives(p) => ServiceReceivesStep(s, p)
    case WorkerReceives(c) => WorkerReceivesStep(s, c)
    case WorkerAnswers(c, k, a) => WorkerAnswersStep(s, c, k, a)
    case ServiceRoutes(c) => ServiceRoutesStep(s, c)
    case ClientReceives(p) => ClientReceivesStep(s, p)
    case WorkerExits(c) => WorkerExitsStep(s, c)
  }

  function Run(s: State, evs: seq<Event>): Option<State>
    decreases |evs|
  {
    if evs == [] then Some(s)
    else if Possible(s, evs[0]) then Run(Step(s, evs[0]), evs[1..])
    else None
  }
}
