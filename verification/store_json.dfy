/** The stored form: JSON records whose bigints are decimal strings, and the code that merges them. */
module StoreJson {
  import opened Common
  import opened Decimal
  import opened Store

  datatype BountyPlacedJson = BountyPlacedJson(
    transaction: Transaction, fromChainId: string, incentivesAddress: string,
    maxGasDelivery: string, maxGasAck: string, refundGasTo: string,
    priceOfDeliveryGas: string, priceOfAckGas: string, targetDelta: string)

  datatype BountyIncreasedJson = BountyIncreasedJson(
    transaction: Transaction, newDeliveryGasPrice: string, newAckGasPrice: string)

  datatype RelayStateJson = RelayStateJson(
    status: RelayStatus,
    messageIdentifier: string,
    bountyPlacedEvent: Option<BountyPlacedJson>,
    messageDeliveredEvent: Option<MessageDelivered>,
    bountyClaimedEvent: Option<BountyClaimed>,
    bountyIncreasedEvent: Option<BountyIncreasedJson>,
    deliveryGasCost: Option<string>)

  function PlacedToJson(e: Option<BountyPlaced>): Option<BountyPlacedJson> {
    match e
    case None => None
    case Some(v) => Some(BountyPlacedJson(
      v.transaction, v.fromChainId, v.incentivesAddress, ToString(v.maxGasDelivery), ToString(v.maxGasAck),
      v.refundGasTo, ToString(v.priceOfDeliveryGas), ToString(v.priceOfAckGas), ToString(v.targetDelta)))
  }

  function IncreasedToJson(e: Option<BountyIncreased>): Option<BountyIncreasedJson> {
    match e
    case None => None
    case Some(v) => Some(BountyIncreasedJson(v.transaction, ToString(v.newDeliveryGasPrice), ToString(v.newAckGasPrice)))
  }

  function CostToJson(c: Option<int>): Option<string> {
    if c.Some? then Some(ToString(c.value)) else None
  }

  /** `JSON.stringify` with the patched `BigInt.prototype.toJSON` */
  function ToJson(s: RelayState): RelayStateJson {
    RelayStateJson(
      s.status, s.messageIdentifier, PlacedToJson(s.bountyPlacedEvent), s.messageDeliveredEvent,
      s.bountyClaimedEvent, IncreasedToJson(s.bountyIncreasedEvent), CostToJson(s.deliveryGasCost))
  }

  /** A conversion that may throw: `None` means some `BigInt(...)` call did. */
  function PlacedFromJson(e: Option<BountyPlacedJson>): Option<Option<BountyPlaced>> {
    match e
    case None => Some(None)
    case Some(j) =>
      var a, b := ParseBigInt(j.maxGasDelivery), ParseBigInt(j.maxGasAck);
      var c, d, t := ParseBigInt(j.priceOfDeliveryGas), ParseBigInt(j.priceOfAckGas), ParseBigInt(j.targetDelta);
      if a.Some? && b.Some? && c.Some? && d.Some? && t.Some? then
        Some(Some(BountyPlaced(j.transaction, j.fromChainId, j.incentivesAddress, a.value, b.value,
                               j.refundGasTo, c.value, d.value, t.value)))
      else None
  }

  function IncreasedFromJson(e: Option<BountyIncreasedJson>): Option<Option<BountyIncreased>> {
    match e
    case None => Some(None)
    case Some(j) =>
      var a, b := ParseBigInt(j.newDeliveryGasPrice), ParseBigInt(j.newAckGasPrice);
      if a.Some? && b.Some? then Some(Some(BountyIncreased(j.transaction, a.value, b.value))) else None
  }

  function CostFromJson(c: Option<string>): Option<Option<int>> {
    match c
    case None => Some(None)
    case Some(s) => if ParseBigInt(s).Some? then Some(Some(ParseBigInt(s).value)) else None
  }

  /** The conversion at the end of `getRelayStateByKey`. */
  function FromJson(j: RelayStateJson): Option<RelayState> {
    var placed := PlacedFromJson(j.bountyPlacedEvent);
    var increased := IncreasedFromJson(j.bountyIncreasedEvent);
    var cost := CostFromJson(j.deliveryGasCost);
    if placed.Some? && increased.Some? && cost.Some? then
      Some(RelayState(j.status, j.messageIdentifier, placed.value, j.messageDeliveredEvent,
                      j.bountyClaimedEvent, increased.value, cost.value))
    else None
  }

  /** Reading back a stored record recovers every field of it, bigints included. */
  lemma JsonRoundTrip(s: RelayState)
    ensures FromJson(ToJson(s)) == Some(s)
  {
    PlacedRoundTrip(s.bountyPlacedEvent);
    IncreasedRoundTrip(s.bountyIncreasedEvent);
    CostRoundTrip(s.deliveryGasCost);
  }

  lemma PlacedRoundTrip(e: Option<BountyPlaced>)
    ensures PlacedFromJson(PlacedToJson(e)) == Some(e)
  {
    if e.Some? {
      RoundTrip(e.value.maxGasDelivery);
      RoundTrip(e.value.maxGasAck);
      RoundTrip(e.value.priceOfDeliveryGas);
      RoundTrip(e.value.priceOfAckGas);
      RoundTrip(e.value.targetDelta);
    }
  }

  lemma IncreasedRoundTrip(e: Option<BountyIncreased>)
    ensures IncreasedFromJson(IncreasedToJson(e)) == Some(e)
  {
    if e.Some? {
      RoundTrip(e.value.newDeliveryGasPrice);
      RoundTrip(e.value.newAckGasPrice);
    }
  }

  lemma CostRoundTrip(c: Option<int>)
    ensures CostFromJson(CostToJson(c)) == Some(c)
  {
    if c.Some? {
      RoundTrip(c.value);
    }
  }

  // ---------------------------------------------------------------------------------------------
  // The store object
  // ---------------------------------------------------------------------------------------------

  function LowerChar(c: char): char {
    if 'A' <= c <= 'Z' then (c - 'A') + 'a' else c
  }

  function ToLower(s: string): string {
    seq(|s|, i requires 0 <= i < |s| => LowerChar(s[i]))
  }

  /** `Store.getRelayStateKey` */
  function RelayStateKey(messageIdentifier: string): string {
    "relay_state:" + ToLower(messageIdentifier)
  }

  /** The same character, or the upper and the lower case of one letter. */
  predicate SameLetter(c: char, d: char) {
    || c == d
    || ('A' <= c <= 'Z' && 'a' <= d <= 'z' && d as int - c as int == 32)
    || ('A' <= d <= 'Z' && 'a' <= c <= 'z' && c as int - d as int == 32)
  }

  /** Two identifiers name the same record exactly if they are equal up to case. */
  lemma SameRecordExactly(a: string, b: string)
    ensures RelayStateKey(a) == RelayStateKey(b)
            <==> |a| == |b| && forall i :: 0 <= i < |a| ==> SameLetter(a[i], b[i])
  {
    var prefix := RelayStateKey("");
    assert RelayStateKey(a) == prefix + ToLower(a) && RelayStateKey(b) == prefix + ToLower(b);
    if RelayStateKey(a) == RelayStateKey(b) {
      assert ToLower(a) == RelayStateKey(a)[|prefix|..] == ToLower(b);
      forall i | 0 <= i < |a| ensures SameLetter(a[i], b[i]) {
        assert ToLower(a)[i] == ToLower(b)[i];
      }
    }
    if |a| == |b| && forall i :: 0 <= i < |a| ==> SameLetter(a[i], b[i]) {
      assert ToLower(a) == ToLower(b);
    }
  }

  class RelayStore {
    var redis: map<string, RelayStateJson>

    /** The record under a key, as integers. */
    ghost function At(key: string): Option<RelayState>
      reads this
    {
      if key in redis then FromJson(redis[key]) else None
    }

    /** Every stored record was written by this class. */
    ghost predicate Valid()
      reads this
    {
      forall key :: key in redis ==> FromJson(redis[key]).Some? && redis[key] == ToJson(FromJson(redis[key]).value)
    }

    constructor ()
      ensures Valid() && redis == map[]
    {
      redis := map[];
    }

    method GetRelayState(messageIdentifier: string) returns (state: Option<RelayState>)
      requires Valid()
      ensures state == At(RelayStateKey(messageIdentifier))
    {
      var key := RelayStateKey(messageIdentifier);
      state := if key in redis then FromJson(redis[key]) else None;
    }

    /** The price comparison reads the stored strings back; `stored` is what they stand for. */
    static method MergeIncrease(
      current: Option<BountyIncreasedJson>, incoming: Option<BountyIncreased>, ghost stored: Option<BountyIncreased>)
      returns (merged: Option<BountyIncreasedJson>)
      requires current == IncreasedToJson(stored)
      ensures merged == IncreasedToJson(MergeIncreased(stored, incoming))
    {
      if current.Some? && incoming.Some? {
        RoundTrip(stored.value.newDeliveryGasPrice);
        RoundTrip(stored.value.newAckGasPrice);
        var delivery := ParseBigInt(current.value.newDeliveryGasPrice);
        var ack := ParseBigInt(current.value.newAckGasPrice);
        if incoming.value.newDeliveryGasPrice > delivery.value || incoming.value.newAckGasPrice > ack.value {
          merged := IncreasedToJson(incoming);
        } else {
          merged := current;
        }
      } else {
        merged := Override(current, IncreasedToJson(incoming));
      }
    }

    /** The merge on the stored strings does on every record what `Update` does on integers, and
        leaves all other records alone. */
    method UpdateRelayState(incoming: RelayState)
      requires Valid()
      modifies this
      ensures Valid()
      ensures At(RelayStateKey(incoming.messageIdentifier))
              == Some(Update(old(At(RelayStateKey(incoming.messageIdentifier))), incoming))
      ensures forall k :: k != RelayStateKey(incoming.messageIdentifier) ==>
                (k in redis <==> k in old(redis)) && (k in redis ==> redis[k] == old(redis)[k])
    {
      var key := RelayStateKey(incoming.messageIdentifier);
      var overriding := key in redis;
      var newState := if overriding then redis[key] else ToJson(incoming);
      if overriding {
        var current := redis[key];
        newState := newState.(bountyPlacedEvent :=
          Override(PlacedToJson(incoming.bountyPlacedEvent), current.bountyPlacedEvent));
        newState := newState.(messageDeliveredEvent :=
          Override(incoming.messageDeliveredEvent, current.messageDeliveredEvent));
        newState := newState.(bountyClaimedEvent :=
          Override(incoming.bountyClaimedEvent, current.bountyClaimedEvent));
        var increased := MergeIncrease(current.bountyIncreasedEvent, incoming.bountyIncreasedEvent,
                                       At(key).value.bountyIncreasedEvent);
        newState := newState.(bountyIncreasedEvent := increased);
        newState := newState.(deliveryGasCost :=
          Override(CostToJson(incoming.deliveryGasCost), current.deliveryGasCost));
      }
      if newState.bountyClaimedEvent.Some? {
        newState := newState.(status := StatusBountyClaimed);
      } else if newState.messageDeliveredEvent.Some? {
        newState := newState.(status := StatusMessageDelivered);
      } else {
        newState := newState.(status := StatusBountyPlaced);
      }
      ghost var merged := Update(At(key), incoming);
      assert newState == ToJson(merged);
      JsonRoundTrip(merged);
      redis := redis[key := newState];
    }

    /** The five `set*` methods: one event of one message. */
    method SetEvent(messageIdentifier: string, e: Event)
      requires Valid()
      modifies this
      ensures Valid()
      ensures At(RelayStateKey(messageIdentifier))
              == Some(Update(old(At(RelayStateKey(messageIdentifier))), Incoming(messageIdentifier, e)))
      ensures forall k :: k != RelayStateKey(messageIdentifier) ==>
                (k in redis <==> k in old(redis)) && (k in redis ==> redis[k] == old(redis)[k])
    {
      UpdateRelayState(Incoming(messageIdentifier, e));
    }
  }
}
