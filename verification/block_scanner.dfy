/**
 * The block feed of the monitor and the scan loop of the getter. A step is the part of either loop
 * between two awaits; block queries and log queries succeed or fail as the event says.
 */
module BlockScanner {
  import opened Common

  datatype Window = Window(from: int, to: int)

  /** `None` is an absent setting (no stopping block, no limit per query). */
  datatype Config = Config(stoppingBlock: Option<nat>, maxBlocks: Option<nat>)

  datatype Phase = Waiting | Scanning(to: int) | Exited

  datatype State = State(
    // monitor
    lastBroadcast: int,          // -1 before the first broadcast
    inbox: seq<int>,             // broadcast to this getter, not yet received
    received: seq<int>,          // history of what the getter received
    // getter
    currentStatus: Option<int>,
    fromBlock: int,
    phase: Phase,
    scans: seq<Window>)          // windows whose logs were queried and processed

  datatype Event =
    | Poll(newBlock: Option<int>)   // one pass of the monitor loop; None: no block, or the query failed
    | Receive                       // the getter's listener
    | Begin                         // top of the getter loop up to the log query
    | Done(ok: bool)                // the query returned, or the iteration failed

  function Init(start: int, status: int): State {
    State(status, [], [status], Some(status), start, Waiting, [])
  }

  /** `getStartingBlock` once a status is known; `None` is the thrown error. */
  function StartingBlock(configured: Option<int>, status: nat): Option<nat> {
    if configured.None? then Some(status)
    else if configured.value < 0 then
      if status + configured.value < 0 then None else Some(status + configured.value)
    else Some(configured.value)
  }

  predicate Enabled(s: State, ev: Event) {
    match ev
    case Poll(_) => true
    case Receive => s.inbox != []
    case Begin => s.phase.Waiting?
    case Done(_) => s.phase.Scanning?
  }

  function PollStep(s: State, newBlock: Option<int>): State {
    if newBlock.None? || newBlock.value <= s.lastBroadcast then s
    else s.(lastBroadcast := newBlock.value, inbox := s.inbox + [newBlock.value])
  }

  /** The upper end of the next window. */
  function WindowEnd(cfg: Config, fromBlock: int, status: int): int {
    var to := if cfg.stoppingBlock.Some? && status > cfg.stoppingBlock.value then cfg.stoppingBlock.value else status;
    if cfg.maxBlocks.Some? && to - fromBlock > cfg.maxBlocks.value then fromBlock + cfg.maxBlocks.value else to
  }

  /** Block 0 counts as no block (`!toBlock`). */
  predicate NothingToScan(s: State) {
    s.currentStatus.None? || s.currentStatus.value == 0 || s.fromBlock > s.currentStatus.value
  }

  function BeginStep(cfg: Config, s: State): State {
    if NothingToScan(s) then s
    else s.(phase := Scanning(WindowEnd(cfg, s.fromBlock, s.currentStatus.value)))
  }

  function DoneStep(cfg: Config, s: State, ok: bool): State
    requires s.phase.Scanning?
  {
    if !ok then s.(phase := Waiting)
    else
      var s1 := s.(scans := s.scans + [Window(s.fromBlock, s.phase.to)]);
      if cfg.stoppingBlock.Some? && s.phase.to >= cfg.stoppingBlock.value then s1.(phase := Exited)
      else s1.(phase := Waiting, fromBlock := s.phase.to + 1)
  }

  function Step(cfg: Config, s: State, ev: Event): State
    requires Enabled(s, ev)
  {
    match ev
    case Poll(b) => PollStep(s, b)
    case Receive => s.(currentStatus := Some(s.inbox[0]), received := s.received + [s.inbox[0]], inbox := s.inbox[1..])
    case Begin => BeginStep(cfg, s)
    case Done(ok) => DoneStep(cfg, s, ok)
  }

  function Run(cfg: Config, s: State, evs: seq<Event>): Option<State>
    decreases |evs|
  {
    if evs == [] then Some(s)
    else if Enabled(s, evs[0]) then Run(cfg, Step(cfg, s, evs[0]), evs[1..])
    else None
  }

  // ---------------------------------------------------------------------------------------------
  // Invariant
  // ---------------------------------------------------------------------------------------------

  ghost predicate Increasing(s: seq<int>) {
    forall i, j :: 0 <= i < j < |s| ==> s[i] < s[j]
  }

  /** The feed: what was received, then what is under way, strictly increasing up to the last broadcast. */
  ghost predicate FeedInv(s: State) {
    && Increasing(s.received + s.inbox)
    && s.received != [] && s.currentStatus == Some(s.received[|s.received| - 1])
    && (s.received + s.inbox)[|s.received + s.inbox| - 1] == s.lastBroadcast
  }

  /** Where the windows scanned so far end: the block after the last one. */
  function NextBlock(start: int, scans: seq<Window>): int {
    if scans == [] then start else scans[|scans| - 1].to + 1
  }

  ghost predicate Chained(start: int, scans: seq<Window>) {
    forall i :: 0 <= i < |scans| ==> scans[i].from == NextBlock(start, scans[..i])
  }

  predicate StartsBeforeStop(cfg: Config, start: int) {
    cfg.stoppingBlock.Some? ==> start <= cfg.stoppingBlock.value
  }

  predicate WindowOk(cfg: Config, start: int, w: Window) {
    && (cfg.stoppingBlock.Some? ==> w.to <= cfg.stoppingBlock.value)
    && (cfg.maxBlocks.Some? ==> w.to - w.from <= cfg.maxBlocks.value)
    && (StartsBeforeStop(cfg, start) ==> w.from <= w.to)
  }

  /** The getter had been told of block b. */
  predicate Received(s: State, b: int) {
    s.currentStatus.Some? && b <= s.currentStatus.value
  }

  /** What a getter that starts past its stopping block does: one query of an empty range. */
  predicate OnlyEmptyWindow(cfg: Config, start: int, s: State)
    requires cfg.stoppingBlock.Some?
  {
    && s.scans == (if s.phase.Exited? then [Window(start, cfg.stoppingBlock.value)] else [])
    && (s.phase.Scanning? ==> s.phase.to == cfg.stoppingBlock.value)
  }

  ghost predicate ScanInv(cfg: Config, start: int, s: State) {
    && Chained(start, s.scans)
    && (forall i :: 0 <= i < |s.scans| ==> WindowOk(cfg, start, s.scans[i]) && Received(s, s.scans[i].to))
    && (s.phase.Exited? <==>
          s.scans != [] && cfg.stoppingBlock.Some? && s.scans[|s.scans| - 1].to >= cfg.stoppingBlock.value)
    && (!s.phase.Exited? ==> s.fromBlock == NextBlock(start, s.scans))
    && (!s.phase.Exited? && StartsBeforeStop(cfg, start) ==> StartsBeforeStop(cfg, s.fromBlock))
    && (s.phase.Scanning? ==> WindowOk(cfg, start, Window(s.fromBlock, s.phase.to)) && Received(s, s.phase.to))
    && (!StartsBeforeStop(cfg, start) ==> OnlyEmptyWindow(cfg, start, s))
  }

  lemma StepFeed(cfg: Config, s: State, ev: Event)
    requires FeedInv(s) && Enabled(s, ev)
    ensures FeedInv(Step(cfg, s, ev)) && s.lastBroadcast <= Step(cfg, s, ev).lastBroadcast
  {
    match ev
    case Poll(b) => PollFeed(s, b);
    case Receive =>
      var s1 := Step(cfg, s, ev);
      assert s1.received + s1.inbox == s.received + s.inbox;
    case _ =>
  }

  lemma PollFeed(s: State, b: Option<int>)
    requires FeedInv(s)
    ensures FeedInv(PollStep(s, b)) && s.lastBroadcast <= PollStep(s, b).lastBroadcast
  {
    var s1 := PollStep(s, b);
    if s1 != s {
      assert s1.received + s1.inbox == (s.received + s.inbox) + [b.value];
    }
  }

  /** The getter has received at most the last broadcast block. */
  lemma StatusWithinFeed(s: State)
    requires FeedInv(s)
    ensures s.currentStatus.value <= s.lastBroadcast
  {
    var feed := s.received + s.inbox;
    assert feed[|s.received| - 1] == s.currentStatus.value;
  }

  lemma ChainedSnoc(start: int, scans: seq<Window>, w: Window)
    requires Chained(start, scans) && w.from == NextBlock(start, scans)
    ensures Chained(start, scans + [w])
  {
  }

  lemma StepScan(cfg: Config, start: int, s: State, ev: Event)
    requires FeedInv(s) && ScanInv(cfg, start, s) && Enabled(s, ev)
    ensures ScanInv(cfg, start, Step(cfg, s, ev))
  {
    match ev
    case Receive => ReceiveMore(s);
    case Begin => BeginScan(cfg, start, s);
    case Done(ok) => DoneScan(cfg, start, s, ok);
    case Poll(_) =>
  }

  /** What arrives is newer than what arrived. */
  lemma ReceiveMore(s: State)
    requires FeedInv(s) && s.inbox != []
    ensures s.currentStatus.value < s.inbox[0]
  {
    var feed := s.received + s.inbox;
    assert feed[|s.received| - 1] < feed[|s.received|];
  }

  lemma BeginScan(cfg: Config, start: int, s: State)
    requires FeedInv(s) && ScanInv(cfg, start, s) && s.phase.Waiting?
    ensures ScanInv(cfg, start, BeginStep(cfg, s))
  {
    if !NothingToScan(s) {
      assert WindowOk(cfg, start, Window(s.fromBlock, WindowEnd(cfg, s.fromBlock, s.currentStatus.value)));
    }
  }

  lemma DoneScan(cfg: Config, start: int, s: State, ok: bool)
    requires ScanInv(cfg, start, s) && s.phase.Scanning?
    ensures ScanInv(cfg, start, DoneStep(cfg, s, ok))
  {
    var w := Window(s.fromBlock, s.phase.to);
    ChainedSnoc(start, s.scans, w);
  }

  lemma {:induction false} RunInv(cfg: Config, start: int, s: State, evs: seq<Event>)
    requires FeedInv(s) && ScanInv(cfg, start, s) && Run(cfg, s, evs).Some?
    ensures FeedInv(Run(cfg, s, evs).value) && ScanInv(cfg, start, Run(cfg, s, evs).value)
    decreases |evs|
  {
    if evs != [] {
      StepFeed(cfg, s, evs[0]);
      StepScan(cfg, start, s, evs[0]);
      RunInv(cfg, start, Step(cfg, s, evs[0]), evs[1..]);
    }
  }

  // ---------------------------------------------------------------------------------------------
  // Coverage
  // ---------------------------------------------------------------------------------------------

  /** In how many of the windows block b lies. */
  function Hits(scans: seq<Window>, b: int): nat {
    if scans == [] then 0
    else
      var w := scans[|scans| - 1];
      Hits(scans[..|scans| - 1], b) + if w.from <= b <= w.to then 1 else 0
  }

  lemma {:induction false} ChainedWindowsTile(start: int, scans: seq<Window>, b: int)
    requires Chained(start, scans) && forall i :: 0 <= i < |scans| ==> scans[i].from <= scans[i].to
    ensures start <= NextBlock(start, scans)
    ensures Hits(scans, b) == if start <= b < NextBlock(start, scans) then 1 else 0
  {
    if scans != [] {
      var front := scans[..|scans| - 1];
      forall i | 0 <= i < |front| ensures front[i].from == NextBlock(start, front[..i]) {
        assert front[..i] == scans[..i];
      }
      ChainedWindowsTile(start, front, b);
    }
  }

  lemma {:induction false} EmptyWindowHitsNothing(start: int, stop: int, b: int)
    requires stop < start
    ensures Hits([Window(start, stop)], b) == 0
  {
    assert [Window(start, stop)][..0] == [];
    assert Hits([Window(start, stop)][..0], b) == 0;
  }

  /** At every point of every run, the blocks scanned are exactly those from `start` up to the block
      before `fromBlock`, or up to the stopping block once the getter has exited, each once. No window
      reaches past what the getter had received, hence none past the monitor's last broadcast, or past
      the stopping block, and none holds more than `maxBlocks` + 1 blocks. */
  lemma ScanCoversExactly(cfg: Config, start: int, status: int, evs: seq<Event>, b: int, i: nat)
    requires Run(cfg, Init(start, status), evs).Some?
    ensures var s := Run(cfg, Init(start, status), evs).value;
            && (!s.phase.Exited? ==> Hits(s.scans, b) == if start <= b < s.fromBlock then 1 else 0)
            && (s.phase.Exited? ==>
                  && cfg.stoppingBlock.Some?
                  && Hits(s.scans, b) == if start <= b <= cfg.stoppingBlock.value then 1 else 0)
            && (i < |s.scans| ==>
                  && s.currentStatus.Some? && s.scans[i].to <= s.currentStatus.value <= s.lastBroadcast
                  && (cfg.stoppingBlock.Some? ==> s.scans[i].to <= cfg.stoppingBlock.value)
                  && (cfg.maxBlocks.Some? ==> s.scans[i].to - s.scans[i].from + 1 <= cfg.maxBlocks.value + 1))
  {
    RunInv(cfg, start, Init(start, status), evs);
    var s := Run(cfg, Init(start, status), evs).value;
    StatusWithinFeed(s);
    if StartsBeforeStop(cfg, start) {
      ChainedWindowsTile(start, s.scans, b);
    } else if s.phase.Exited? {
      EmptyWindowHitsNothing(start, cfg.stoppingBlock.value, b);
    }
  }

  /** Windows are non-empty exactly when the start is not past the stopping block; a getter that starts
      past it makes one query, of an empty range, and exits. */
  lemma EmptyWindowExactly(cfg: Config, start: int, status: int, evs: seq<Event>)
    requires Run(cfg, Init(start, status), evs).Some?
    requires Run(cfg, Init(start, status), evs).value.scans != []
    ensures var s := Run(cfg, Init(start, status), evs).value;
            (forall i :: 0 <= i < |s.scans| ==> s.scans[i].from <= s.scans[i].to)
            <==> StartsBeforeStop(cfg, start)
    ensures var s := Run(cfg, Init(start, status), evs).value;
            !StartsBeforeStop(cfg, start) ==> s.phase.Exited? && s.scans == [Window(start, cfg.stoppingBlock.value)]
  {
    RunInv(cfg, start, Init(start, status), evs);
    var s := Run(cfg, Init(start, status), evs).value;
    assert s.scans[0].from == NextBlock(start, s.scans[..0]);
  }

  /** And every such getter whose first status reaches its start does so: the run is one iteration. */
  lemma EmptyWindowReached(cfg: Config, start: int, status: int)
    requires !StartsBeforeStop(cfg, start) && start <= status && status != 0
    ensures Run(cfg, Init(start, status), [Begin, Done(true)]).Some?
    ensures var s := Run(cfg, Init(start, status), [Begin, Done(true)]).value;
            s.scans == [Window(start, cfg.stoppingBlock.value)] && cfg.stoppingBlock.value < start
  {
    var s1 := Step(cfg, Init(start, status), Begin);
    assert [Begin, Done(true)][1..] == [Done(true)];
    assert Run(cfg, s1, [Done(true)]) == Run(cfg, Step(cfg, s1, Done(true)), [Done(true)][1..]);
  }

  /** The blocks a getter receives strictly increase. */
  lemma FeedIncreases(cfg: Config, start: int, status: int, evs: seq<Event>)
    requires Run(cfg, Init(start, status), evs).Some?
    ensures Increasing(Run(cfg, Init(start, status), evs).value.received)
  {
    RunInv(cfg, start, Init(start, status), evs);
    var s := Run(cfg, Init(start, status), evs).value;
    forall i, j | 0 <= i < j < |s.received| ensures s.received[i] < s.received[j] {
      assert (s.received + s.inbox)[i] < (s.received + s.inbox)[j];
    }
  }

  // ---------------------------------------------------------------------------------------------
  // What is scanned next
  // ---------------------------------------------------------------------------------------------

  /** b is the least of the status, the stopping block and the last block the limit per query allows. */
  predicate FurthestAllowed(cfg: Config, fromBlock: int, status: int, b: int) {
    && b <= status
    && (cfg.stoppingBlock.Some? ==> b <= cfg.stoppingBlock.value)
    && (cfg.maxBlocks.Some? ==> b <= fromBlock + cfg.maxBlocks.value)
    && (|| b == status
        || (cfg.stoppingBlock.Some? && b == cfg.stoppingBlock.value)
        || (cfg.maxBlocks.Some? && b == fromBlock + cfg.maxBlocks.value))
  }

  /** In every run, an iteration queries exactly if the block last received is not block 0 and not before
      `fromBlock`, and its window then reaches as far as it may. */
  lemma WindowExactly(cfg: Config, start: int, status: int, evs: seq<Event>)
    requires Run(cfg, Init(start, status), evs).Some? && Run(cfg, Init(start, status), evs).value.phase.Waiting?
    ensures var s := Run(cfg, Init(start, status), evs).value;
            var s1 := Step(cfg, s, Begin);
            && s.received != []
            && var last := s.received[|s.received| - 1];
               && (s1.phase.Scanning? <==> last != 0 && s.fromBlock <= last)
               && (s1.phase.Scanning? ==> FurthestAllowed(cfg, s.fromBlock, last, s1.phase.to))
               && (!s1.phase.Scanning? ==> s1 == s)
  {
    RunInv(cfg, start, Init(start, status), evs);
  }

  /** A window ends at the stopping block, or holds `maxBlocks` + 1 blocks, or ends at a block received. */
  predicate WindowFull(cfg: Config, received: seq<int>, w: Window) {
    || (cfg.stoppingBlock.Some? && w.to == cfg.stoppingBlock.value)
    || (cfg.maxBlocks.Some? && w.to - w.from + 1 == cfg.maxBlocks.value + 1)
    || w.to in received
  }

  ghost predicate FullInv(cfg: Config, s: State) {
    && (forall i :: 0 <= i < |s.scans| ==> WindowFull(cfg, s.received, s.scans[i]))
    && (s.phase.Scanning? ==> WindowFull(cfg, s.received, Window(s.fromBlock, s.phase.to)))
  }

  lemma StepFull(cfg: Config, s: State, ev: Event)
    requires FeedInv(s) && FullInv(cfg, s) && Enabled(s, ev)
    ensures FullInv(cfg, Step(cfg, s, ev))
  {
    if ev.Begin? {
      assert s.received[|s.received| - 1] in s.received;
    }
  }

  lemma {:induction false} RunFull(cfg: Config, s: State, evs: seq<Event>)
    requires FeedInv(s) && FullInv(cfg, s) && Run(cfg, s, evs).Some?
    ensures FullInv(cfg, Run(cfg, s, evs).value)
    decreases |evs|
  {
    if evs != [] {
      StepFeed(cfg, s, evs[0]);
      StepFull(cfg, s, evs[0]);
      RunFull(cfg, Step(cfg, s, evs[0]), evs[1..]);
    }
  }

  /** In every run, every window scanned is as large as the limits let it be. */
  lemma WindowsAreFull(cfg: Config, start: int, status: int, evs: seq<Event>, i: nat)
    requires Run(cfg, Init(start, status), evs).Some?
    requires i < |Run(cfg, Init(start, status), evs).value.scans|
    ensures var s := Run(cfg, Init(start, status), evs).value;
            WindowFull(cfg, s.received, s.scans[i])
  {
    RunFull(cfg, Init(start, status), evs);
  }

  /** The getter fails to start exactly if its offset leads to before block 0. Otherwise its first iteration
      queries, for a status that is not block 0, exactly if no start is configured or the one configured is
      an offset or a block already there; the first block is the status, or as far before it as the offset
      says, or the one configured. */
  lemma StartExactly(cfg: Config, configured: Option<int>, status: nat)
    ensures var start := StartingBlock(configured, status);
            && (start.None? <==> configured.Some? && configured.value + status < 0)
            && (start.Some? ==>
                  && (Step(cfg, Init(start.value, status), Begin).phase.Scanning?
                      <==> status != 0 && (configured.Some? ==> configured.value <= status))
                  && (configured.None? ==> start.value == status)
                  && (configured.Some? && configured.value < 0 ==> start.value - configured.value == status)
                  && (configured.Some? && configured.value >= 0 ==> start.value == configured.value))
  {
  }

  /** The last broadcast block is the newest of all blocks polled: none is newer, and it was polled itself, as
      event j, unless it is the one from before the run. */
  lemma {:induction false} NewestIsBroadcast(cfg: Config, s: State, evs: seq<Event>) returns (j: nat)
    requires Run(cfg, s, evs).Some?
    ensures var last := Run(cfg, s, evs).value.lastBroadcast;
            && s.lastBroadcast <= last
            && (forall i, b :: 0 <= i < |evs| && evs[i] == Poll(Some(b)) ==> b <= last)
            && (last != s.lastBroadcast ==> j < |evs| && evs[j] == Poll(Some(last)))
    decreases |evs|
  {
    j := 0;
    if evs != [] {
      var s1 := Step(cfg, s, evs[0]);
      var k := NewestIsBroadcast(cfg, s1, evs[1..]);
      var last := Run(cfg, s, evs).value.lastBroadcast;
      forall i, b | 0 <= i < |evs| && evs[i] == Poll(Some(b)) ensures b <= last {
        assert i > 0 ==> evs[i] == evs[1..][i - 1];
      }
      j := if last != s1.lastBroadcast then k + 1 else 0;
    }
  }

  // ---------------------------------------------------------------------------------------------
  // The two workers
  // ---------------------------------------------------------------------------------------------

  class MonitorWorker {
    var lastBroadcastBlockNumber: int
    var ports: seq<seq<int>>

    constructor ()
      ensures lastBroadcastBlockNumber == -1 && ports == []
    {
      lastBroadcastBlockNumber := -1;
      ports := [];
    }

    /** One pass of `run`: every port gets the block the feed of a getter gets, or none does. */
    method Pass(newBlock: Option<int>)
      modifies this
      ensures |ports| == |old(ports)|
      ensures forall p, s: State ::
                0 <= p < |ports| && s.inbox == old(ports)[p] && s.lastBroadcast == old(lastBroadcastBlockNumber) ==>
                  && ports[p] == PollStep(s, newBlock).inbox
                  && lastBroadcastBlockNumber == PollStep(s, newBlock).lastBroadcast
    {
      if newBlock.None? || newBlock.value <= lastBroadcastBlockNumber {
        return;
      }
      var i := 0;
      while i < |ports|
        invariant 0 <= i <= |ports| == |old(ports)|
        invariant forall p :: 0 <= p < |ports| ==>
                    ports[p] == if p < i then old(ports)[p] + [newBlock.value] else old(ports)[p]
        invariant lastBroadcastBlockNumber == old(lastBroadcastBlockNumber)
      {
        ports := ports[i := ports[i] + [newBlock.value]];
        i := i + 1;
      }
      lastBroadcastBlockNumber := newBlock.value;
    }
  }

  class GetterWorker {
    const config: Config
    var currentStatus: Option<int>
    var fromBlock: int
    var phase: Phase
    ghost var scans: seq<Window>

    /** The getter's part of a system state. */
    ghost predicate Matches(s: State)
      reads this
    {
      && s.currentStatus == currentStatus && s.fromBlock == fromBlock
      && s.phase == phase && s.scans == scans
    }

    /** The worker once its first status is known and `getStartingBlock` has returned. */
    constructor (config: Config, startingBlock: Option<int>, status: nat)
      requires StartingBlock(startingBlock, status).Some?
      ensures this.config == config && Matches(Init(StartingBlock(startingBlock, status).value, status))
    {
      this.config := config;
      this.currentStatus := Some(status);
      this.fromBlock := StartingBlock(startingBlock, status).value;
      phase := Waiting;
      scans := [];
    }

    /** The listener: takes the next block of the feed. */
    method OnStatus(blockNumber: int)
      modifies this`currentStatus
      ensures forall s: State :: old(Matches(s)) && s.inbox != [] && s.inbox[0] == blockNumber ==>
                Matches(Step(config, s, Receive))
    {
      currentStatus := Some(blockNumber);
    }

    /** From the top of the loop to the query; `window` is the range queried, if any. */
    method BeginIteration() returns (window: Option<Window>)
      requires phase.Waiting?
      modifies this`phase
      ensures forall s: State :: old(Matches(s)) ==> Matches(BeginStep(config, s))
      ensures window.Some? ==> phase == Scanning(window.value.to) && window.value.from == fromBlock
    {
      if currentStatus.None? || currentStatus.value == 0 || fromBlock > currentStatus.value {
        return None;
      }
      var toBlock := currentStatus.value;
      if config.stoppingBlock.Some? && toBlock > config.stoppingBlock.value {
        toBlock := config.stoppingBlock.value;
      }
      var blocksToProcess := toBlock - fromBlock;
      if config.maxBlocks.Some? && blocksToProcess > config.maxBlocks.value {
        toBlock := fromBlock + config.maxBlocks.value;
      }
      phase := Scanning(toBlock);
      window := Some(Window(fromBlock, toBlock));
    }

    /** From the query's return to the end of the loop body. */
    method EndIteration(ok: bool)
      requires phase.Scanning?
      modifies this
      ensures forall s: State :: old(Matches(s)) && s.phase.Scanning? ==> Matches(DoneStep(config, s, ok))
    {
      var toBlock := phase.to;
      phase := Waiting;
      if ok {
        scans := scans + [Window(fromBlock, toBlock)];
        if config.stoppingBlock.Some? && toBlock >= config.stoppingBlock.value {
          phase := Exited;
        } else {
          fromBlock := toBlock + 1;
        }
      }
    }
  }
}
