/** Shared vocabulary: optional values, and counting occurrences in sequences. */
module Common {

  datatype Option<+T> = None | Some(value: T)

  /** The sequence without its element at position k (`splice(k, 1)`). */
  function Without<T>(s: seq<T>, k: nat): (r: seq<T>)
    requires k < |s|
    ensures |r| == |s| - 1
  {
    s[..k] + s[k + 1..]
  }

  /** How often x occurs in s. */
  ghost function Count<T>(s: seq<T>, x: T): nat {
    if s == [] then 0 else (if s[0] == x then 1 else 0) + Count(s[1..], x)
  }

  lemma {:induction false} CountAppend<T>(a: seq<T>, b: seq<T>, x: T)
    ensures Count(a + b, x) == Count(a, x) + Count(b, x)
  {
    if a == [] {
      assert a + b == b;
    } else {
      assert (a + b)[1..] == a[1..] + b;
      CountAppend(a[1..], b, x);
    }
  }

  lemma CountSnoc<T>(a: seq<T>, y: T, x: T)
    ensures Count(a + [y], x) == Count(a, x) + if y == x then 1 else 0
  {
    CountAppend(a, [y], x);
  }

  lemma CountWithout<T>(s: seq<T>, k: nat, x: T)
    requires k < |s|
    ensures Count(s, x) == Count(Without(s, k), x) + if s[k] == x then 1 else 0
  {
    CountSplit(s, k, x);
    assert s[k..][1..] == s[k + 1..];
    CountAppend(s[..k], s[k + 1..], x);
  }

  lemma CountSplit<T>(s: seq<T>, k: nat, x: T)
    requires k <= |s|
    ensures Count(s, x) == Count(s[..k], x) + Count(s[k..], x)
  {
    assert s == s[..k] + s[k..];
    CountAppend(s[..k], s[k..], x);
  }

  lemma {:induction false} CountPositive<T>(s: seq<T>, k: nat)
    requires k < |s|
    ensures Count(s, s[k]) > 0
  {
    CountWithout(s, k, s[k]);
  }

  lemma {:induction false} CountFind<T>(s: seq<T>, x: T) returns (k: nat)
    requires Count(s, x) > 0
    ensures k < |s| && s[k] == x
  {
    if s[0] == x {
      k := 0;
    } else {
      var j := CountFind(s[1..], x);
      k := j + 1;
    }
  }

  /** How many elements of s satisfy p. */
  ghost function CountIf<T>(s: seq<T>, p: T -> bool): nat {
    if s == [] then 0 else (if p(s[0]) then 1 else 0) + CountIf(s[1..], p)
  }

  lemma {:induction false} CountIfAppend<T>(a: seq<T>, b: seq<T>, p: T -> bool)
    ensures CountIf(a + b, p) == CountIf(a, p) + CountIf(b, p)
  {
    if a == [] {
      assert a + b == b;
    } else {
      assert (a + b)[1..] == a[1..] + b;
      CountIfAppend(a[1..], b, p);
    }
  }

  lemma {:induction false} CountIfAtMostAll<T>(s: seq<T>, p: T -> bool)
    ensures CountIf(s, p) <= |s|
  {
    if s != [] {
      CountIfAtMostAll(s[1..], p);
    }
  }

  lemma CountIfWithout<T>(s: seq<T>, k: nat, p: T -> bool)
    requires k < |s|
    ensures CountIf(s, p) == CountIf(Without(s, k), p) + if p(s[k]) then 1 else 0
  {
    assert s == s[..k] + s[k..] && s[k..][1..] == s[k + 1..];
    CountIfAppend(s[..k], s[k..], p);
    CountIfAppend(s[..k], s[k + 1..], p);
  }

  /** The same elements, equally often. */
  ghost predicate Permuted<T(!new)>(a: seq<T>, b: seq<T>) {
    forall x :: Count(a, x) == Count(b, x)
  }

  lemma {:induction false} PermutedCountIf<T(!new)>(a: seq<T>, b: seq<T>, p: T -> bool)
    requires Permuted(a, b)
    ensures CountIf(a, p) == CountIf(b, p)
    decreases |a|
  {
    if a == [] {
      if b != [] {
        CountPositive(b, 0);
        assert false;
      }
    } else {
      CountPositive(a, 0);
      var k := CountFind(b, a[0]);
      forall x ensures Count(a[1..], x) == Count(Without(b, k), x) {
        CountWithout(b, k, x);
      }
      PermutedCountIf(a[1..], Without(b, k), p);
      CountIfWithout(b, k, p);
    }
  }
}
