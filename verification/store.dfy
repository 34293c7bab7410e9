/**
 * The relay-state store: events that arrive out of order from several chains are merged into one
 * record per message. One update is atomic here (the code reads Redis and then writes it).
 */
module Store {
  import opened Common

  datatype Transaction = Transaction(transactionHash: string, blockHash: string, blockNumber: int)

  datatype BountyPlaced = BountyPlaced(
    transaction: Transaction, fromChainId: string, incentivesAddress: string,
    maxGasDelivery: int, maxGasAck: int, refundGasTo: string,
    priceOfDeliveryGas: int, priceOfAckGas: int, targetDelta: int)

  datatype MessageDelivered = MessageDelivered(transaction: Transaction, toChainId: string)

  datatype BountyClaimed = BountyClaimed(transaction: Transaction)

  datatype BountyIncreased = BountyIncreased(transaction: Transaction, newDeliveryGasPrice: int, newAckGasPrice: int)

  datatype RelayStatus = StatusBountyPlaced | StatusMessageDelivered | StatusBountyClaimed

  /** The number behind the status enum. */
  function Rank(s: RelayStatus): nat {
    match s
    case StatusBountyPlaced => 0
    case StatusMessageDelivered => 1
    case StatusBountyClaimed => 2
  }

  datatype RelayState = RelayState(
    status: RelayStatus,
    messageIdentifier: string,
    bountyPlacedEvent: Option<BountyPlaced>,
    messageDeliveredEvent: Option<MessageDelivered>,
    bountyClaimedEvent: Option<BountyClaimed>,
    bountyIncreasedEvent: Option<BountyIncreased>,
    deliveryGasCost: Option<int>)

  // ---------------------------------------------------------------------------------------------
  // The merge
  // ---------------------------------------------------------------------------------------------

  /** `incoming ?? current` */
  function Override<T>(incoming: Option<T>, current: Option<T>): Option<T> {
    if incoming.Some? then incoming else current
  }

  /** The incoming prices replace the stored ones if either is higher. */
  function MergeIncreased(current: Option<BountyIncreased>, incoming: Option<BountyIncreased>): Option<BountyIncreased> {
    if current.Some? && incoming.Some? then
      if || incoming.value.newDeliveryGasPrice > current.value.newDeliveryGasPrice
         || incoming.value.newAckGasPrice > current.value.newAckGasPrice
      then incoming else current
    else Override(current, incoming)
  }

  function StatusOf(s: RelayState): RelayStatus {
    if s.bountyClaimedEvent.Some? then StatusBountyClaimed
    else if s.messageDeliveredEvent.Some? then StatusMessageDelivered
    else StatusBountyPlaced
  }

  /** `updateRelayState` on integers. */
  function Update(current: Option<RelayState>, incoming: RelayState): RelayState {
    var merged :=
      if current.None? then incoming
      else RelayState(
        current.value.status,
        current.value.messageIdentifier,
        Override(incoming.bountyPlacedEvent, current.value.bountyPlacedEvent),
        Override(incoming.messageDeliveredEvent, current.value.messageDeliveredEvent),
        Override(incoming.bountyClaimedEvent, current.value.bountyClaimedEvent),
        MergeIncreased(current.value.bountyIncreasedEvent, incoming.bountyIncreasedEvent),
        Override(incoming.deliveryGasCost, current.value.deliveryGasCost));
    merged.(status := StatusOf(merged))
  }

  datatype Event =
    | Placed(placed: BountyPlaced)
    | Delivered(delivered: MessageDelivered)
    | Claimed(claimed: BountyClaimed)
    | Increased(increased: BountyIncreased)
    | DeliveryCost(cost: int)

  /** The partial record each `set*` method builds, with the status it writes into it. */
  function Incoming(id: string, e: Event): RelayState {
    match e
    case Placed(v) => RelayState(StatusBountyPlaced, id, Some(v), None, None, None, None)
    case Delivered(v) => RelayState(StatusMessageDelivered, id, None, Some(v), None, None, None)
    case Claimed(v) => RelayState(StatusMessageDelivered, id, None, None, Some(v), None, None)
    case Increased(v) => RelayState(StatusMessageDelivered, id, None, None, None, Some(v), None)
    case DeliveryCost(n) => RelayState(StatusMessageDelivered, id, None, None, None, None, Some(n))
  }

  /** The stored record after a sequence of events of one message, oldest first. */
  function Fold(id: string, evs: seq<Event>): Option<RelayState> {
    if evs == [] then None
    else Some(Update(Fold(id, evs[..|evs| - 1]), Incoming(id, evs[|evs| - 1])))
  }

  // ---------------------------------------------------------------------------------------------
  // The result depends only on the set of events
  // ---------------------------------------------------------------------------------------------

  predicate StrictlyAbove(a: BountyIncreased, b: BountyIncreased) {
    && a.newDeliveryGasPrice >= b.newDeliveryGasPrice
    && a.newAckGasPrice >= b.newAckGasPrice
    && (a.newDeliveryGasPrice > b.newDeliveryGasPrice || a.newAckGasPrice > b.newAckGasPrice)
  }

  predicate SameKind(a: Event, b: Event) {
    || (a.Placed? && b.Placed?) || (a.Delivered? && b.Delivered?) || (a.Claimed? && b.Claimed?)
    || (a.Increased? && b.Increased?) || (a.DeliveryCost? && b.DeliveryCost?)
  }

  /** Two events of one message that a chain can both have produced. */
  predicate Compatible(a: Event, b: Event) {
    || a == b
    || !SameKind(a, b)
    || (a.Increased? && (StrictlyAbove(a.increased, b.increased) || StrictlyAbove(b.increased, a.increased)))
  }

  ghost predicate Consistent(evs: seq<Event>) {
    forall a, b :: a in evs && b in evs ==> Compatible(a, b)
  }

  /** What the stored record must be, said about the set of events and not about their order. */
  ghost predicate IsJoin(id: string, evs: seq<Event>, s: RelayState) {
    && s.messageIdentifier == id
    && s.status == StatusOf(s)
    && (forall v :: s.bountyPlacedEvent == Some(v) <==> Placed(v) in evs)
    && (forall v :: s.messageDeliveredEvent == Some(v) <==> Delivered(v) in evs)
    && (forall v :: s.bountyClaimedEvent == Some(v) <==> Claimed(v) in evs)
    && (forall n :: s.deliveryGasCost == Some(n) <==> DeliveryCost(n) in evs)
    && (forall v :: s.bountyIncreasedEvent == Some(v) <==> IsHighest(evs, v))
  }

  ghost predicate IsHighest(evs: seq<Event>, v: BountyIncreased) {
    && Increased(v) in evs
    && forall w :: Increased(w) in evs ==> w == v || StrictlyAbove(v, w)
  }

  lemma {:induction false} FoldIsJoin(id: string, evs: seq<Event>)
    requires evs != [] && Consistent(evs)
    ensures IsJoin(id, evs, Fold(id, evs).value)
  {
    var front, e := evs[..|evs| - 1], evs[|evs| - 1];
    assert evs == front + [e];
    assert forall x :: x in evs <==> x in front || x == e;
    if front == [] {
      assert forall x :: x in evs <==> x == e;
    } else {
      FoldIsJoin(id, front);
      JoinStep(id, front, e, Fold(id, front).value);
    }
  }

  lemma JoinStep(id: string, front: seq<Event>, e: Event, s: RelayState)
    requires front != [] && Consistent(front + [e]) && IsJoin(id, front, s)
    ensures IsJoin(id, front + [e], Update(Some(s), Incoming(id, e)))
  {
    var evs := front + [e];
    var s1 := Update(Some(s), Incoming(id, e));
    assert forall x :: x in evs <==> x in front || x == e;
    assert forall x :: x in evs ==> Compatible(x, e);
    HighestStep(front, e, s.bountyIncreasedEvent);
  }

  lemma HighestStep(front: seq<Event>, e: Event, current: Option<BountyIncreased>)
    requires Consistent(front + [e])
    requires forall v :: current == Some(v) <==> IsHighest(front, v)
    ensures var incoming := if e.Increased? then Some(e.increased) else None;
            forall v :: MergeIncreased(current, incoming) == Some(v) <==> IsHighest(front + [e], v)
  {
    var evs := front + [e];
    var incoming := if e.Increased? then Some(e.increased) else None;
    var merged := MergeIncreased(current, incoming);
    assert forall x :: x in evs <==> x in front || x == e;
    assert forall x :: x in evs ==> Compatible(x, e);
    if current.None? {
      forall w ensures Increased(w) !in front {
        if Increased(w) in front {
          var v := HighestExists(front, w);
          assert false;
        }
      }
    }
    forall v ensures merged == Some(v) <==> IsHighest(evs, v) {
      if current.Some? {
        assert IsHighest(front, current.value);
      }
    }
  }

  /** A consistent sequence with any price event has a highest one. */
  lemma {:induction false} HighestExists(evs: seq<Event>, w: BountyIncreased) returns (v: BountyIncreased)
    requires Consistent(evs) && Increased(w) in evs
    ensures IsHighest(evs, v)
  {
    var front, e := evs[..|evs| - 1], evs[|evs| - 1];
    assert evs == front + [e];
    assert forall x :: x in evs <==> x in front || x == e;
    if u :| Increased(u) in front {
      v := HighestExists(front, u);
      assert Compatible(Increased(v), e);
      if e.Increased? && StrictlyAbove(e.increased, v) {
        v := e.increased;
      }
    } else {
      v := w;
    }
  }

  lemma JoinIsUnique(id: string, xs: seq<Event>, ys: seq<Event>, s: RelayState, t: RelayState)
    requires forall e :: e in xs <==> e in ys
    requires IsJoin(id, xs, s) && IsJoin(id, ys, t)
    ensures s == t
  {
    SameOption(s.bountyPlacedEvent, t.bountyPlacedEvent);
    SameOption(s.messageDeliveredEvent, t.messageDeliveredEvent);
    SameOption(s.bountyClaimedEvent, t.bountyClaimedEvent);
    forall v ensures s.bountyIncreasedEvent == Some(v) <==> t.bountyIncreasedEvent == Some(v) {
      assert IsHighest(xs, v) <==> IsHighest(ys, v);
    }
    SameOption(s.bountyIncreasedEvent, t.bountyIncreasedEvent);
    assert s.deliveryGasCost == t.deliveryGasCost by {
      if s.deliveryGasCost.Some? {
        assert DeliveryCost(s.deliveryGasCost.value) in ys;
      }
      if t.deliveryGasCost.Some? {
        assert DeliveryCost(t.deliveryGasCost.value) in xs;
      }
    }
  }

  lemma SameOption<T(!new)>(a: Option<T>, b: Option<T>)
    requires forall v :: a == Some(v) <==> b == Some(v)
    ensures a == b
  {
  }

  lemma SameMembersSameEmptiness<T>(xs: seq<T>, ys: seq<T>)
    requires forall e :: e in xs <==> e in ys
    ensures xs == [] <==> ys == []
  {
    if xs != [] {
      assert xs[0] in xs;
    }
    if ys != [] {
      assert ys[0] in ys;
    }
  }

  /** Any order and any duplicates give the same record. */
  lemma OrderAndDuplicatesDoNotMatter(id: string, xs: seq<Event>, ys: seq<Event>)
    requires Consistent(xs)
    requires forall e :: e in xs <==> e in ys
    ensures Fold(id, xs) == Fold(id, ys)
  {
    SameMembersSameEmptiness(xs, ys);
    if xs != [] {
      FoldIsJoin(id, xs);
      FoldIsJoin(id, ys);
      JoinIsUnique(id, xs, ys, Fold(id, xs).value, Fold(id, ys).value);
    }
  }

  /** Two events commute exactly when they are compatible. */
  lemma PairCommutesExactly(id: string, a: Event, b: Event)
    ensures Fold(id, [a, b]) == Fold(id, [b, a]) <==> Compatible(a, b)
  {
    FoldPair(id, a, b);
    FoldPair(id, b, a);
  }

  lemma FoldPair(id: string, a: Event, b: Event)
    ensures Fold(id, [a, b]) == Some(Update(Some(Update(None, Incoming(id, a))), Incoming(id, b)))
  {
    assert [a, b][..1] == [a];
    assert [a][..0] == [];
    assert Fold(id, [a]) == Some(Update(None, Incoming(id, a)));
  }

  ghost predicate OrderFree(id: string, events: set<Event>) {
    forall xs: seq<Event>, ys: seq<Event> ::
      (forall e :: e in xs ==> e in events) && (forall e :: e in xs <==> e in ys)
      ==> Fold(id, xs) == Fold(id, ys)
  }

  /** The store is independent of order and repetition on all events of a set exactly when the
      events are pairwise compatible. */
  lemma OrderFreeExactly(id: string, events: set<Event>)
    ensures OrderFree(id, events) <==> forall a, b :: a in events && b in events ==> Compatible(a, b)
  {
    if OrderFree(id, events) {
      forall a, b | a in events && b in events ensures Compatible(a, b) {
        assert forall e :: e in [a, b] <==> e in [b, a];
        PairCommutesExactly(id, a, b);
      }
    }
    if forall a, b :: a in events && b in events ==> Compatible(a, b) {
      forall xs: seq<Event>, ys: seq<Event>
        | (forall e :: e in xs ==> e in events) && (forall e :: e in xs <==> e in ys)
        ensures Fold(id, xs) == Fold(id, ys)
      {
        OrderAndDuplicatesDoNotMatter(id, xs, ys);
      }
    }
  }

  // ---------------------------------------------------------------------------------------------
  // What one update never does
  // ---------------------------------------------------------------------------------------------

  /** The stored status is the function of the stored events; the status of the incoming record,
      which several `set*` methods fill in wrongly, has no influence. */
  lemma IncomingStatusDoesNotLeak(current: Option<RelayState>, incoming: RelayState, other: RelayStatus)
    ensures Update(current, incoming).status == StatusOf(Update(current, incoming))
    ensures Update(current, incoming) == Update(current, incoming.(status := other))
  {
  }

  lemma {:induction false} StatusNeverDecreases(id: string, evs: seq<Event>, more: seq<Event>)
    requires evs != []
    ensures Fold(id, evs + more).Some?
    ensures Rank(Fold(id, evs).value.status) <= Rank(Fold(id, evs + more).value.status)
  {
    if more == [] {
      assert evs + more == evs;
    } else {
      var front := more[..|more| - 1];
      StatusNeverDecreases(id, evs, front);
      assert (evs + more)[..|evs + more| - 1] == evs + front;
    }
  }

  predicate PricesKept(a: Option<BountyIncreased>, b: Option<BountyIncreased>) {
    a.Some? ==> && b.Some?
                && a.value.newDeliveryGasPrice <= b.value.newDeliveryGasPrice
                && a.value.newAckGasPrice <= b.value.newAckGasPrice
  }

  /** The event raises one price and lowers the other. */
  predicate MixedChange(current: BountyIncreased, incoming: BountyIncreased) {
    || (&& incoming.newDeliveryGasPrice > current.newDeliveryGasPrice
        && incoming.newAckGasPrice < current.newAckGasPrice)
    || (&& incoming.newDeliveryGasPrice < current.newDeliveryGasPrice
        && incoming.newAckGasPrice > current.newAckGasPrice)
  }

  /** A stored price falls exactly when an event moves the two prices apart. */
  lemma PricesFallExactly(current: Option<BountyIncreased>, incoming: Option<BountyIncreased>)
    ensures PricesKept(current, MergeIncreased(current, incoming))
            <==> !(current.Some? && incoming.Some? && MixedChange(current.value, incoming.value))
  {
  }

  /** So along a consistent run they never fall. */
  lemma {:induction false} PricesNeverFall(id: string, evs: seq<Event>, more: seq<Event>)
    requires evs != [] && Consistent(evs + more)
    ensures Fold(id, evs + more).Some?
    ensures PricesKept(Fold(id, evs).value.bountyIncreasedEvent, Fold(id, evs + more).value.bountyIncreasedEvent)
  {
    assert forall e :: e in evs ==> e in evs + more;
    FoldIsJoin(id, evs);
    FoldIsJoin(id, evs + more);
    var a := Fold(id, evs).value.bountyIncreasedEvent;
    var b := Fold(id, evs + more).value.bountyIncreasedEvent;
    if a.Some? {
      assert IsHighest(evs, a.value);
      assert Increased(a.value) in evs + more;
      var v := HighestExists(evs + more, a.value);
      assert b == Some(v);
    }
  }
}
