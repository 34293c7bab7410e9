/** Bigints as the decimal strings `BigInt.prototype.toJSON` writes and `BigInt(...)` reads back. */
module Decimal {
  import opened Common

  function Digit(d: nat): char
    requires d < 10
  {
    "0123456789"[d]
  }

  predicate IsDigit(c: char) {
    '0' <= c <= '9'
  }

  function DigitValue(c: char): nat
    requires IsDigit(c)
  {
    (c - '0') as nat
  }

  function NatToString(n: nat): (s: string)
    ensures s != [] && forall i :: 0 <= i < |s| ==> IsDigit(s[i])
  {
    if n < 10 then [Digit(n)] else NatToString(n / 10) + [Digit(n % 10)]
  }

  /** `n.toString()` */
  function ToString(n: int): string {
    if n < 0 then ['-'] + NatToString(-n) else NatToString(n)
  }

  function ParseDigits(s: string): Option<nat> {
    if s == [] then Some(0)
    else
      var last := s[|s| - 1];
      var front := ParseDigits(s[..|s| - 1]);
      if front.Some? && IsDigit(last) then Some(front.value * 10 + DigitValue(last)) else None
  }

  /** `BigInt(s)` on decimal literals with an optional minus sign; `None` is the thrown error. */
  function ParseBigInt(s: string): Option<int> {
    if s == [] then None
    else if s[0] == '-' then
      var n := ParseDigits(s[1..]);
      if n.Some? && |s| > 1 then Some(0 - n.value) else None
    else
      var n := ParseDigits(s);
      if n.Some? then Some(n.value) else None
  }

  lemma {:induction false} DigitsRoundTrip(n: nat)
    ensures ParseDigits(NatToString(n)) == Some(n)
  {
    if n < 10 {
      assert NatToString(n)[..0] == [];
    } else {
      DigitsRoundTrip(n / 10);
      assert NatToString(n)[..|NatToString(n)| - 1] == NatToString(n / 10);
    }
  }

  /** Reading back the decimal form recovers every bigint. */
  lemma RoundTrip(n: int)
    ensures ParseBigInt(ToString(n)) == Some(n)
  {
    if n < 0 {
      DigitsRoundTrip(0 - n);
      assert ToString(n)[1..] == NatToString(-n);
    } else {
      DigitsRoundTrip(n);
    }
  }
}
