/** The incentives payload: the decoder of the code, the encoder it undoes, and when it does. */
module Payload {
  import opened Common

  // ---------------------------------------------------------------------------------------------
  // JavaScript string functions
  // ---------------------------------------------------------------------------------------------

  function Clamp(i: int, n: nat): (r: nat)
    ensures r <= n
  {
    if i < 0 then (if i + n < 0 then 0 else i + n) else if i < n then i else n
  }

  /** `s.slice(from, to)` and `s.slice(from)`; negative positions count from the end. */
  function Slice(s: string, from: int, to: int): string {
    var a, b := Clamp(from, |s|), Clamp(to, |s|);
    if a <= b then s[a..b] else ""
  }

  function SliceFrom(s: string, from: int): string {
    s[Clamp(from, |s|)..]
  }

  /** `s.replaceAll('0x', '')` */
  function RemovePrefixes(s: string): string {
    if |s| < 2 then s
    else if s[0] == '0' && s[1] == 'x' then RemovePrefixes(s[2..])
    else [s[0]] + RemovePrefixes(s[1..])
  }

  predicate IsHexDigit(c: char) {
    '0' <= c <= '9' || 'a' <= c <= 'f' || 'A' <= c <= 'F'
  }

  function HexValue(c: char): (v: nat)
    requires IsHexDigit(c)
    ensures v < 16
  {
    if '0' <= c <= '9' then (c - '0') as nat
    else if 'a' <= c <= 'f' then (c - 'a') as nat + 10
    else (c - 'A') as nat + 10
  }

  predicate AllHex(s: string) {
    forall i :: 0 <= i < |s| ==> IsHexDigit(s[i])
  }

  /** The number a string of hex digits denotes. */
  function HexNumber(s: string): nat
    requires AllHex(s)
  {
    if s == "" then 0 else HexNumber(s[..|s| - 1]) * 16 + HexValue(s[|s| - 1])
  }

  function HexPrefix(s: string): (r: string)
    ensures AllHex(r) && r <= s
  {
    if s == "" || !IsHexDigit(s[0]) then "" else [s[0]] + HexPrefix(s[1..])
  }

  /** The white space and line ends of JavaScript (ECMAScript, sections 12.2 and 12.3). */
  predicate IsSpace(c: char) {
    var n := c as int;
    || 0x09 <= n <= 0x0D || n == 0x20 || n == 0xA0 || n == 0x1680 || 0x2000 <= n <= 0x200A
    || n == 0x2028 || n == 0x2029 || n == 0x202F || n == 0x205F || n == 0x3000 || n == 0xFEFF
  }

  function TrimStart(s: string): string {
    if s != "" && IsSpace(s[0]) then TrimStart(s[1..]) else s
  }

  function TrimEnd(s: string): string {
    if s != "" && IsSpace(s[|s| - 1]) then TrimEnd(s[..|s| - 1]) else s
  }

  /** `parseInt(text, 16)`; `None` is NaN. */
  function ParseInt16(text: string): Option<int> {
    var s := TrimStart(text);
    var negative := s != "" && s[0] == '-';
    var unsigned := if s != "" && (s[0] == '-' || s[0] == '+') then s[1..] else s;
    var digits := if |unsigned| >= 2 && unsigned[0] == '0' && (unsigned[1] == 'x' || unsigned[1] == 'X')
                  then HexPrefix(unsigned[2..]) else HexPrefix(unsigned);
    if digits == "" then None
    else if negative then Some(-(HexNumber(digits) as int))
    else Some(HexNumber(digits))
  }

  /** `BigInt('0x' + s)`; `None` is the thrown SyntaxError. */
  function HexBigInt(s: string): Option<nat> {
    var digits := TrimEnd(s);
    if digits != "" && AllHex(digits) then Some(HexNumber(digits)) else None
  }

  // ---------------------------------------------------------------------------------------------
  // The decoder
  // ---------------------------------------------------------------------------------------------

  datatype Message =
    | SourceToDestination(
        messageIdentifier: string, rawSourceApplicationAddress: string, sourceApplicationAddress: string,
        rawToApplication: string, toApplication: string, deadline: nat, maxGasLimit: nat, message: string)
    | DestinationToSource(
        messageIdentifier: string, rawSourceApplicationAddress: string, sourceApplicationAddress: string,
        relayerRecipient: string, gasSpent: nat, executionTime: Option<int>, rawMessage: string, message: string)

  datatype Parsed = Ok(value: Message) | Undefined | Thrown

  const ADDRESS_CHARS: nat := 32 * 2 * 2 + 2

  /** Where the address begins in its 65-byte form; slicing at NaN is slicing at 0. */
  function AddressStart(working: string): int {
    var length := ParseInt16(Slice(working, 0, 2));
    if length.Some? then 2 + 64 * 2 - length.value * 2 else 0
  }

  function DecodeBytes65Address(address: string): string {
    var working := if Slice(address, 0, 2) == "0x" then SliceFrom(address, 2) else address;
    "0x" + SliceFrom(working, AddressStart(working))
  }

  /** What the decoder computes, by position. */
  function Parse(payload: string): Parsed {
    var s := RemovePrefixes(payload);
    var context := ParseInt16(Slice(s, 0, 2));
    if context == Some(0) then ParseDelivery(s) else if context == Some(1) then ParseAck(s) else Undefined
  }

  function ParseDelivery(s: string): Parsed {
    var id, raw, to := Slice(s, 2, 66), Slice(s, 66, 196), Slice(s, 196, 326);
    var deadline, gas := HexBigInt(Slice(s, 326, 342)), HexBigInt(Slice(s, 342, 354));
    if deadline.None? || gas.None? then Thrown
    else Ok(SourceToDestination(id, raw, DecodeBytes65Address(raw), to, DecodeBytes65Address(to),
                                deadline.value, gas.value, SliceFrom(s, 354)))
  }

  function ParseAck(s: string): Parsed {
    var id, raw, gas := Slice(s, 2, 66), Slice(s, 66, 196), HexBigInt(Slice(s, 260, 272));
    if gas.None? then Thrown
    else Ok(DestinationToSource(id, raw, DecodeBytes65Address(raw), Slice(s, 196, 260), gas.value,
                                ParseInt16(Slice(s, 272, 288)), SliceFrom(s, 290), SliceFrom(s, 290)))
  }

  /** `ParsePayload`, stepping its counter through the string. */
  method ParsePayload(payload: string) returns (r: Parsed)
    ensures r == Parse(payload)
  {
    var s := RemovePrefixes(payload);
    var counter := 0;
    var context := ParseInt16(Slice(s, counter, counter + 2));
    counter := counter + 2;
    var messageIdentifier := Slice(s, counter, counter + 32 * 2);
    counter := counter + 32 * 2;
    var applicationAddress := Slice(s, counter, counter + ADDRESS_CHARS);
    counter := counter + ADDRESS_CHARS;
    var sourceApplicationAddress := DecodeBytes65Address(applicationAddress);
    if context == Some(0) {
      var toApplication := Slice(s, counter, counter + ADDRESS_CHARS);
      counter := counter + ADDRESS_CHARS;
      var deadline := HexBigInt(Slice(s, counter, counter + 8 * 2));
      counter := counter + 8 * 2;
      if deadline.None? { return Thrown; }
      var maxGasLimit := HexBigInt(Slice(s, counter, counter + 6 * 2));
      counter := counter + 6 * 2;
      if maxGasLimit.None? { return Thrown; }
      var message := SliceFrom(s, counter);
      r := Ok(SourceToDestination(messageIdentifier, applicationAddress, sourceApplicationAddress, toApplication,
                                  DecodeBytes65Address(toApplication), deadline.value, maxGasLimit.value, message));
    } else if context == Some(1) {
      var relayerRecipient := Slice(s, counter, counter + 32 * 2);
      counter := counter + 32 * 2;
      var gasSpent := HexBigInt(Slice(s, counter, counter + 6 * 2));
      counter := counter + 6 * 2;
      if gasSpent.None? { return Thrown; }
      var executionTime := ParseInt16(Slice(s, counter, counter + 8 * 2));
      counter := counter + 8 * 2;
      counter := counter + 2;
      var rawMessage := SliceFrom(s, counter);
      var message := SliceFrom(s, counter);
      r := Ok(DestinationToSource(messageIdentifier, applicationAddress, sourceApplicationAddress, relayerRecipient,
                                  gasSpent.value, executionTime, rawMessage, message));
    } else {
      r := Undefined;
    }
  }

  // ---------------------------------------------------------------------------------------------
  // The encoder
  // ---------------------------------------------------------------------------------------------

  datatype Fields =
    | ToDestination(id: string, source: string, to: string, deadline: nat, maxGasLimit: nat, tail: string)
    | ToSource(id: string, source: string, relayer: string, gasSpent: nat, executionTime: nat,
               status: string, tail: string)

  /** 32-byte words and addresses of at most 64 bytes, in hex. */
  predicate IsWord(s: string) {
    AllHex(s) && |s| == 64
  }

  predicate IsAddress(s: string) {
    AllHex(s) && |s| % 2 == 0 && |s| <= 128
  }

  function Power16(n: nat): (p: nat)
    ensures p > 0
  {
    if n == 0 then 1 else 16 * Power16(n - 1)
  }

  /** The values fit the widths of their fields; the execution time also fits a JavaScript number. */
  predicate Valid(f: Fields) {
    && IsWord(f.id) && IsAddress(f.source)
    && match f
       case ToDestination(_, _, to, deadline, gas, _) =>
         IsAddress(to) && deadline < Power16(16) && gas < Power16(12)
       case ToSource(_, _, relayer, gas, time, status, _) =>
         && IsWord(relayer) && gas < Power16(12) && time < 0x20_0000_0000_0000 && time < Power16(16)
         && AllHex(status) && |status| == 2
  }

  function HexDigit(v: nat): (c: char)
    requires v < 16
    ensures IsHexDigit(c) && HexValue(c) == v
  {
    if v < 10 then '0' + v as char else 'a' + (v - 10) as char
  }

  /** n in hex, padded to a fixed width. */
  function Hex(n: nat, width: nat): (s: string)
    ensures |s| == width && AllHex(s)
  {
    if width == 0 then "" else Hex(n / 16, width - 1) + [HexDigit(n % 16)]
  }

  function Zeros(n: nat): (s: string)
    ensures |s| == n && AllHex(s)
  {
    seq(n, _ => '0')
  }

  /** The 65-byte form: the length, padding, the address. */
  function Bytes65(address: string): (s: string)
    requires IsAddress(address)
    ensures |s| == ADDRESS_CHARS && AllHex(s)
  {
    Hex(|address| / 2, 2) + (Zeros(128 - |address|) + address)
  }

  /** The layout: a context byte, a 32-byte identifier, the source address, then by context. */
  function Body(f: Fields): string
    requires Valid(f)
  {
    match f
    case ToDestination(id, source, to, deadline, gas, tail) =>
      "00" + (id + (Bytes65(source) + (Bytes65(to) + (Hex(deadline, 16) + (Hex(gas, 12) + tail)))))
    case ToSource(id, source, relayer, gas, time, status, tail) =>
      "01" + (id + (Bytes65(source) + (relayer + (Hex(gas, 12) + (Hex(time, 16) + (status + tail))))))
  }

  /** Everything before the tail. */
  function HeadLength(f: Fields): nat {
    if f.ToDestination? then 354 else 290
  }

  /** What the decoder is meant to give back. */
  function Expected(f: Fields): Message
    requires Valid(f)
  {
    match f
    case ToDestination(id, source, to, deadline, gas, tail) =>
      SourceToDestination(id, Bytes65(source), "0x" + source, Bytes65(to), "0x" + to, deadline, gas, tail)
    case ToSource(id, source, relayer, gas, time, status, tail) =>
      DestinationToSource(id, Bytes65(source), "0x" + source, relayer, gas, Some(time), tail, tail)
  }

  // ---------------------------------------------------------------------------------------------
  // Decoding undoes encoding
  // ---------------------------------------------------------------------------------------------

  lemma {:induction false} HexRoundTrip(n: nat, width: nat)
    requires n < Power16(width)
    ensures HexNumber(Hex(n, width)) == n
  {
    if width > 0 {
      HexRoundTrip(n / 16, width - 1);
      assert Hex(n, width)[..width - 1] == Hex(n / 16, width - 1);
    }
  }

  lemma {:induction false} HexPrefixOfHex(s: string)
    requires AllHex(s)
    ensures HexPrefix(s) == s
  {
    if s != "" {
      HexPrefixOfHex(s[1..]);
    }
  }

  lemma ParseInt16OfHex(s: string)
    requires AllHex(s) && s != ""
    ensures ParseInt16(s) == Some(HexNumber(s))
  {
    HexPrefixOfHex(s);
    assert TrimStart(s) == s by {
      assert IsHexDigit(s[0]);
    }
    assert IsHexDigit(s[0]) && (|s| >= 2 ==> IsHexDigit(s[1]));
  }

  lemma HexBigIntOfHex(s: string)
    requires AllHex(s)
    ensures HexBigInt(s) == if s == "" then None else Some(HexNumber(s))
  {
    if s != "" {
      assert !IsSpace(s[|s| - 1]);
    }
    assert TrimEnd(s) == s;
  }

  lemma {:induction false} AddressRoundTrip(address: string)
    requires IsAddress(address)
    ensures DecodeBytes65Address(Bytes65(address)) == "0x" + address
  {
    AddressLength(|address| / 2);
    AddressParts(address);
  }

  lemma AddressLength(n: nat)
    requires n <= 64
    ensures ParseInt16(Hex(n, 2)) == Some(n)
  {
    assert Power16(2) == 16 * Power16(1) == 16 * 16 * Power16(0);
    HexRoundTrip(n, 2);
    ParseInt16OfHex(Hex(n, 2));
  }

  lemma HeadAndTail(head: string, middle: string, tail: string)
    ensures var s := head + (middle + tail);
            Slice(s, 0, |head|) == head && SliceFrom(s, |head| + |middle|) == tail
  {
  }

  lemma AddressParts(address: string)
    requires IsAddress(address)
    ensures var b, n := Bytes65(address), |address| / 2;
            Slice(b, 0, 2) == Hex(n, 2) && b[1] != 'x' && SliceFrom(b, 130 - 2 * n) == address
  {
    HeadAndTail(Hex(|address| / 2, 2), Zeros(128 - |address|), address);
  }

  predicate HasPrefix(s: string) {
    exists i :: 0 <= i < |s| - 1 && s[i] == '0' && s[i + 1] == 'x'
  }

  lemma {:induction false} NothingToRemove(s: string)
    requires !HasPrefix(s)
    ensures RemovePrefixes(s) == s
  {
    if |s| >= 2 {
      assert !(s[0] == '0' && s[0 + 1] == 'x');
      forall i | 0 <= i < |s[1..]| - 1 ensures !(s[1..][i] == '0' && s[1..][i + 1] == 'x') {
        assert s[1..][i] == s[i + 1] && s[1..][i + 1] == s[i + 1 + 1];
      }
      NothingToRemove(s[1..]);
    }
  }

  lemma {:induction false} RemovalShortens(s: string)
    ensures |RemovePrefixes(s)| <= |s|
    ensures HasPrefix(s) ==> |RemovePrefixes(s)| < |s|
  {
    if |s| >= 2 {
      if s[0] == '0' && s[1] == 'x' {
        RemovalShortens(s[2..]);
      } else {
        RemovalShortens(s[1..]);
        if i :| 0 <= i < |s| - 1 && s[i] == '0' && s[i + 1] == 'x' {
          assert s[1..][i - 1] == '0' && s[1..][i - 1 + 1] == 'x';
        }
      }
    }
  }

  lemma Middle(before: string, part: string, after: string)
    ensures var s := before + (part + after);
            Slice(s, |before|, |before| + |part|) == part && SliceFrom(s, |before| + |part|) == after
  {
  }

  lemma Regroup(a: string, b: string, r: string)
    ensures a + (b + r) == (a + b) + r
  {
  }

  lemma FourParts(a: string, b: string, c: string, d: string, r: string)
    ensures var s := a + (b + (c + (d + r)));
            var i, j, k := |a| + |b|, |a| + |b| + |c|, |a| + |b| + |c| + |d|;
            && Slice(s, 0, |a|) == a && Slice(s, |a|, i) == b && Slice(s, i, j) == c && Slice(s, j, k) == d
            && s == (a + b + c + d) + r
  {
    Middle(a, b, c + (d + r));
    Regroup(a, b, c + (d + r));
    Middle(a + b, c, d + r);
    Regroup(a + b, c, d + r);
    Middle(a + b + c, d, r);
    Regroup(a + b + c, d, r);
  }

  lemma LastParts(p: string, e: string, g: string, t: string)
    ensures var s := p + (e + (g + t));
            var k, l := |p| + |e|, |p| + |e| + |g|;
            Slice(s, |p|, k) == e && Slice(s, k, l) == g && SliceFrom(s, l) == t && |s| == l + |t|
  {
    Middle(p, e, g + t);
    Regroup(p, e, g + t);
    Middle(p + e, g, t);
  }

  /** The pieces of a right-nested concatenation of seven. */
  lemma SevenParts(a: string, b: string, c: string, d: string, e: string, g: string, t: string)
    ensures var s := a + (b + (c + (d + (e + (g + t)))));
            var i, j := |a| + |b|, |a| + |b| + |c|;
            var k, l := j + |d|, j + |d| + |e|;
            && |s| == l + |g| + |t| && SliceFrom(s, l + |g|) == t
            && Slice(s, 0, |a|) == a && Slice(s, |a|, i) == b && Slice(s, i, j) == c
            && Slice(s, j, k) == d && Slice(s, k, l) == e && Slice(s, l, l + |g|) == g
  {
    FourParts(a, b, c, d, e + (g + t));
    LastParts(a + b + c + d, e, g, t);
  }

  lemma BodySlices(f: Fields)
    requires Valid(f)
    ensures var s := Body(f);
            && |s| == HeadLength(f) + |f.tail| && SliceFrom(s, HeadLength(f)) == f.tail
            && Slice(s, 0, 2) == (if f.ToDestination? then "00" else "01")
            && Slice(s, 2, 66) == f.id && Slice(s, 66, 196) == Bytes65(f.source)
            && match f
               case ToDestination(_, _, to, deadline, gas, _) =>
                 && Slice(s, 196, 326) == Bytes65(to)
                 && Slice(s, 326, 342) == Hex(deadline, 16)
                 && Slice(s, 342, 354) == Hex(gas, 12)
               case ToSource(_, _, relayer, gas, time, _, _) =>
                 && Slice(s, 196, 260) == relayer
                 && Slice(s, 260, 272) == Hex(gas, 12)
                 && Slice(s, 272, 288) == Hex(time, 16)
  {
    match f
    case ToDestination(id, source, to, deadline, gas, tail) =>
      SevenParts("00", id, Bytes65(source), Bytes65(to), Hex(deadline, 16), Hex(gas, 12), tail);
    case ToSource(id, source, relayer, gas, time, status, tail) =>
      SevenParts("01", id, Bytes65(source), relayer, Hex(gas, 12), Hex(time, 16), status + tail);
      LastTwo(Body(f), 288, status, tail);
  }

  lemma LastTwo(s: string, at: nat, status: string, tail: string)
    requires at <= |s| && SliceFrom(s, at) == status + tail
    ensures SliceFrom(s, at + |status|) == tail
  {
  }

  lemma CleanDelivery(f: Fields, payload: string)
    requires Valid(f) && f.ToDestination? && RemovePrefixes(payload) == Body(f)
    ensures Parse(payload) == Ok(Expected(f))
  {
    BodySlices(f);
    ContextOf("00");
    AddressRoundTrip(f.source);
    AddressRoundTrip(f.to);
    HexRoundTrip(f.deadline, 16);
    HexBigIntOfHex(Hex(f.deadline, 16));
    HexRoundTrip(f.maxGasLimit, 12);
    HexBigIntOfHex(Hex(f.maxGasLimit, 12));
  }

  lemma CleanAck(f: Fields, payload: string)
    requires Valid(f) && f.ToSource? && RemovePrefixes(payload) == Body(f)
    ensures Parse(payload) == Ok(Expected(f))
  {
    BodySlices(f);
    ContextOf("01");
    AddressRoundTrip(f.source);
    HexRoundTrip(f.gasSpent, 12);
    HexBigIntOfHex(Hex(f.gasSpent, 12));
    HexRoundTrip(f.executionTime, 16);
    ParseInt16OfHex(Hex(f.executionTime, 16));
  }

  /** Decoding a body in which nothing is removed gives back every field. */
  lemma CleanBodyRoundTrip(f: Fields, payload: string)
    requires Valid(f) && RemovePrefixes(payload) == Body(f)
    ensures Parse(payload) == Ok(Expected(f))
  {
    if f.ToDestination? {
      CleanDelivery(f, payload);
    } else {
      CleanAck(f, payload);
    }
  }

  lemma ContextOf(s: string)
    requires s == "00" || s == "01"
    ensures ParseInt16(s) == Some(if s == "00" then 0 else 1)
  {
    ParseInt16OfHex(s);
    assert s[..1] == "0" && "0"[..0] == "";
    assert HexNumber("0") == 0;
  }

  /** The decoder undoes the encoder, with or without the leading `0x`, exactly when the encoded body
      contains no `0x` of its own: the code strips every one of them. */
  lemma DecodeUndoesEncodeExactly(f: Fields, prefixed: bool)
    requires Valid(f)
    ensures Parse(if prefixed then "0x" + Body(f) else Body(f)) == Ok(Expected(f)) <==> !HasPrefix(Body(f))
  {
    var payload := if prefixed then "0x" + Body(f) else Body(f);
    LeadingPrefixIsRemoved(Body(f));
    if HasPrefix(Body(f)) {
      RemovalShortens(Body(f));
      PrefixNeedsTail(f);
      BodySlices(f);
      LostTail(payload, f);
    } else {
      NothingToRemove(Body(f));
      CleanBodyRoundTrip(f, payload);
    }
  }

  lemma LeadingPrefixIsRemoved(s: string)
    ensures RemovePrefixes("0x" + s) == RemovePrefixes(s)
  {
  }

  /** A shortened body cannot yield the whole tail. */
  lemma LostTail(payload: string, f: Fields)
    requires Valid(f) && f.tail != "" && |RemovePrefixes(payload)| < HeadLength(f) + |f.tail|
    ensures Parse(payload) != Ok(Expected(f))
  {
  }

  lemma AppendHex(a: string, b: string)
    requires AllHex(a) && AllHex(b)
    ensures AllHex(a + b)
  {
  }

  lemma HexBody(f: Fields)
    requires Valid(f) && AllHex(f.tail)
    ensures AllHex(Body(f))
  {
    match f
    case ToDestination(id, source, to, deadline, gas, tail) =>
      AppendHex(Hex(gas, 12), tail);
      AppendHex(Hex(deadline, 16), Hex(gas, 12) + tail);
      AppendHex(Bytes65(to), Hex(deadline, 16) + (Hex(gas, 12) + tail));
      AppendHex(Bytes65(source), Bytes65(to) + (Hex(deadline, 16) + (Hex(gas, 12) + tail)));
    case ToSource(id, source, relayer, gas, time, status, tail) =>
      AppendHex(status, tail);
      AppendHex(Hex(time, 16), status + tail);
      AppendHex(Hex(gas, 12), Hex(time, 16) + (status + tail));
      AppendHex(relayer, Hex(gas, 12) + (Hex(time, 16) + (status + tail)));
      AppendHex(Bytes65(source), relayer + (Hex(gas, 12) + (Hex(time, 16) + (status + tail))));
  }

  lemma PrefixNeedsTail(f: Fields)
    requires Valid(f) && HasPrefix(Body(f))
    ensures f.tail != ""
  {
    if f.tail == "" {
      HexBody(f);
    }
  }

  /** In particular for every hex payload. */
  lemma HexPayloadRoundTrip(f: Fields, prefixed: bool)
    requires Valid(f) && AllHex(f.tail)
    ensures Parse(if prefixed then "0x" + Body(f) else Body(f)) == Ok(Expected(f))
  {
    HexBody(f);
    DecodeUndoesEncodeExactly(f, prefixed);
  }

  // ---------------------------------------------------------------------------------------------
  // Encoding undoes decoding
  // ---------------------------------------------------------------------------------------------

  predicate LowerHex(s: string) {
    forall i :: 0 <= i < |s| ==> '0' <= s[i] <= '9' || 'a' <= s[i] <= 'f'
  }

  lemma {:induction false} HexNumberFits(s: string)
    requires AllHex(s)
    ensures HexNumber(s) < Power16(|s|)
  {
    if s != "" {
      HexNumberFits(s[..|s| - 1]);
    }
  }

  lemma {:induction false} HexOfNumber(s: string)
    requires LowerHex(s)
    ensures AllHex(s) && Hex(HexNumber(s), |s|) == s
  {
    if s != "" {
      var front, last := s[..|s| - 1], s[|s| - 1];
      HexOfNumber(front);
      assert HexNumber(s) / 16 == HexNumber(front) && HexNumber(s) % 16 == HexValue(last);
      assert s == front + [last];
    }
  }

  /** A 65-byte address as the contracts write it. */
  ghost predicate CanonicalAddress(s: string) {
    exists address :: IsAddress(address) && s == Bytes65(address)
  }

  /** A payload as the contracts write it: lower-case hex of sufficient length, a known context,
      zero-padded addresses, a time that fits a JavaScript number. */
  ghost predicate Canonical(s: string) {
    && LowerHex(s) && |s| >= 2
    && if s[..2] == "00" then
         |s| >= 354 && CanonicalAddress(s[66..196]) && CanonicalAddress(s[196..326])
       else
         && s[..2] == "01" && |s| >= 290 && CanonicalAddress(s[66..196])
         && AllHex(s[272..288]) && HexNumber(s[272..288]) < 0x20_0000_0000_0000
  }

  /** A text is the concatenation of the pieces it is cut into. */
  lemma Cut(s: string, a: nat, b: nat, c: nat, d: nat, e: nat, g: nat)
    requires a <= b <= c <= d <= e <= g <= |s|
    ensures s == s[..a] + (s[a..b] + (s[b..c] + (s[c..d] + (s[d..e] + (s[e..g] + s[g..])))))
  {
    assert s[e..] == s[e..g] + s[g..];
    assert s[d..] == s[d..e] + s[e..];
    assert s[c..] == s[c..d] + s[d..];
    assert s[b..] == s[b..c] + s[c..];
    assert s[a..] == s[a..b] + s[b..];
  }

  /** Every canonical payload in lower case is the encoding of some fields. */
  lemma ReadFields(s: string) returns (f: Fields)
    requires Canonical(s)
    ensures Valid(f) && Body(f) == s && Parse(s) == Ok(Expected(f))
  {
    if s[..2] == "00" {
      f := ReadToDestination(s);
    } else {
      f := ReadToSource(s);
    }
    TailIsHex(f, s);
    HexPayloadRoundTrip(f, false);
  }

  lemma TailIsHex(f: Fields, s: string)
    requires Valid(f) && Body(f) == s && LowerHex(s)
    ensures AllHex(f.tail)
  {
    BodySlices(f);
  }

  lemma ReadNumber(s: string, i: nat, j: nat) returns (n: nat)
    requires LowerHex(s) && i <= j <= |s|
    ensures AllHex(s[i..j]) && n == HexNumber(s[i..j]) < Power16(j - i) && Hex(n, j - i) == s[i..j]
  {
    HexOfNumber(s[i..j]);
    HexNumberFits(s[i..j]);
    n := HexNumber(s[i..j]);
  }

  lemma HexSlice(s: string, i: nat, j: nat)
    requires LowerHex(s) && i <= j <= |s|
    ensures AllHex(s[i..j])
  {
  }

  lemma ReadToDestination(s: string) returns (f: Fields)
    requires Canonical(s) && s[..2] == "00"
    ensures Valid(f) && Body(f) == s
  {
    var source :| IsAddress(source) && s[66..196] == Bytes65(source);
    var to :| IsAddress(to) && s[196..326] == Bytes65(to);
    var deadline := ReadNumber(s, 326, 342);
    var gas := ReadNumber(s, 342, 354);
    HexSlice(s, 2, 66);
    f := ToDestination(s[2..66], source, to, deadline, gas, s[354..]);
    Cut(s, 2, 66, 196, 326, 342, 354);
  }

  lemma CutAck(s: string)
    requires |s| >= 290
    ensures s == s[..2] + (s[2..66] + (s[66..196] + (s[196..260] + (s[260..272]
                   + (s[272..288] + (s[288..290] + s[290..]))))))
  {
    Cut(s, 2, 66, 196, 260, 272, 288);
    assert s[288..] == s[288..290] + s[290..];
  }

  lemma ReadToSource(s: string) returns (f: Fields)
    requires Canonical(s) && s[..2] != "00"
    ensures Valid(f) && Body(f) == s
  {
    var source :| IsAddress(source) && s[66..196] == Bytes65(source);
    var gas := ReadNumber(s, 260, 272);
    var time := ReadNumber(s, 272, 288);
    HexSlice(s, 2, 66);
    HexSlice(s, 196, 260);
    HexSlice(s, 288, 290);
    f := ToSource(s[2..66], source, s[196..260], gas, time, s[288..290], s[290..]);
    CutAck(s);
  }

  // -- upper case --------------------------------------------------------------------------------

  function LowerChar(c: char): (r: char)
    ensures IsHexDigit(c) ==> IsHexDigit(r) && HexValue(r) == HexValue(c)
  {
    if 'A' <= c <= 'F' then 'a' + (c - 'A') else c
  }

  /** The text with its hex digits in lower case. */
  function Lower(s: string): (r: string)
    ensures |r| == |s| && forall i :: 0 <= i < |s| ==> r[i] == LowerChar(s[i])
  {
    seq(|s|, i requires 0 <= i < |s| => LowerChar(s[i]))
  }

  lemma LowerSlices(s: string, from: int, to: int)
    ensures Slice(Lower(s), from, to) == Lower(Slice(s, from, to))
    ensures SliceFrom(Lower(s), from) == Lower(SliceFrom(s, from))
  {
  }

  lemma {:induction false} LowerNumber(s: string)
    requires AllHex(s)
    ensures AllHex(Lower(s)) && HexNumber(Lower(s)) == HexNumber(s)
  {
    if s != "" {
      LowerNumber(s[..|s| - 1]);
      assert Lower(s)[..|s| - 1] == Lower(s[..|s| - 1]);
    }
  }

  lemma HexHasNoPrefix(s: string)
    requires AllHex(s)
    ensures RemovePrefixes(s) == s && Slice(s, 0, 2) != "0x"
  {
    NothingToRemove(s);
    if |s| >= 2 {
      assert Slice(s, 0, 2)[1] == s[1];
    }
  }

  lemma LowerParses(s: string)
    requires AllHex(s)
    ensures ParseInt16(Lower(s)) == ParseInt16(s) && HexBigInt(Lower(s)) == HexBigInt(s)
  {
    LowerNumber(s);
    HexBigIntOfHex(s);
    HexBigIntOfHex(Lower(s));
    if s != "" {
      ParseInt16OfHex(s);
      ParseInt16OfHex(Lower(s));
    }
  }

  lemma LowerAddress(address: string)
    requires AllHex(address)
    ensures DecodeBytes65Address(Lower(address)) == Lower(DecodeBytes65Address(address))
  {
    LowerNumber(address);
    HexHasNoPrefix(address);
    HexHasNoPrefix(Lower(address));
    LowerStart(address);
    LowerSlices(address, AddressStart(address), 0);
    LowerPrefixed(SliceFrom(address, AddressStart(address)));
  }

  lemma LowerStart(address: string)
    requires AllHex(address)
    ensures AddressStart(Lower(address)) == AddressStart(address)
  {
    LowerSlices(address, 0, 2);
    LowerParses(Slice(address, 0, 2));
  }

  lemma LowerPrefixed(t: string)
    ensures Lower("0x" + t) == "0x" + Lower(t)
  {
  }

  /** The result with its texts in lower case. */
  function LowerParsed(p: Parsed): Parsed {
    match p
    case Ok(SourceToDestination(id, raw, source, rawTo, to, deadline, gas, message)) =>
      Ok(SourceToDestination(Lower(id), Lower(raw), Lower(source), Lower(rawTo), Lower(to), deadline, gas,
                             Lower(message)))
    case Ok(DestinationToSource(id, raw, source, relayer, gas, time, rawMessage, message)) =>
      Ok(DestinationToSource(Lower(id), Lower(raw), Lower(source), Lower(relayer), gas, time, Lower(rawMessage),
                             Lower(message)))
    case _ => p
  }

  lemma LowerPiece(s: string, from: nat, to: nat)
    requires AllHex(s)
    ensures var t := Slice(s, from, to);
            && Slice(Lower(s), from, to) == Lower(t)
            && ParseInt16(Lower(t)) == ParseInt16(t) && HexBigInt(Lower(t)) == HexBigInt(t)
            && DecodeBytes65Address(Lower(t)) == Lower(DecodeBytes65Address(t))
  {
    LowerSlices(s, from, to);
    LowerParses(Slice(s, from, to));
    LowerAddress(Slice(s, from, to));
  }

  lemma LowerDelivery(s: string)
    requires AllHex(s)
    ensures ParseDelivery(Lower(s)) == LowerParsed(ParseDelivery(s))
  {
    LowerPiece(s, 2, 66);
    LowerPiece(s, 66, 196);
    LowerPiece(s, 196, 326);
    LowerPiece(s, 326, 342);
    LowerPiece(s, 342, 354);
    LowerSlices(s, 354, 354);
  }

  lemma LowerAck(s: string)
    requires AllHex(s)
    ensures ParseAck(Lower(s)) == LowerParsed(ParseAck(s))
  {
    LowerPiece(s, 2, 66);
    LowerPiece(s, 66, 196);
    LowerPiece(s, 196, 260);
    LowerPiece(s, 260, 272);
    LowerPiece(s, 272, 288);
    LowerSlices(s, 290, 290);
  }

  /** The case of its hex digits changes nothing in what a payload means. */
  lemma CaseDoesNotMatter(s: string)
    requires AllHex(s)
    ensures Parse(Lower(s)) == LowerParsed(Parse(s))
  {
    LowerNumber(s);
    HexHasNoPrefix(s);
    HexHasNoPrefix(Lower(s));
    LowerPiece(s, 0, 2);
    LowerDelivery(s);
    LowerAck(s);
  }

  /** A hex payload that is canonical up to case is the encoding of some fields, so decoding it loses
      nothing: the fields read out encode to the same payload in lower case. */
  lemma EncodeUndoesDecode(s: string) returns (f: Fields)
    requires AllHex(s) && Canonical(Lower(s))
    ensures Valid(f) && Body(f) == Lower(s) && LowerParsed(Parse(s)) == Ok(Expected(f))
  {
    f := ReadFields(Lower(s));
    CaseDoesNotMatter(s);
  }
}
