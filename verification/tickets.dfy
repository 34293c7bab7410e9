/**
 * Orders that travel through a pipeline several times. A ticket is one lap of one order; when an order
 * goes round again its ticket is retired and the next lap is issued.
 */
module Tickets {
  import opened Common

  datatype Ticket<+I> = Ticket(id: I, lap: nat)

  /** How often ticket t was issued: on arrival for lap 0, on retiring the previous lap otherwise. */
  ghost function Issued<I>(arrived: seq<I>, retired: seq<Ticket<I>>, t: Ticket<I>): nat {
    if t.lap == 0 then Count(arrived, t.id) else Count(retired, Ticket(t.id, t.lap - 1))
  }

  ghost predicate BalancedAt<I>(
    present: seq<Ticket<I>>, arrived: seq<I>, retired: seq<Ticket<I>>, closed: seq<Ticket<I>>, t: Ticket<I>)
  {
    Count(present, t) + Count(retired, t) + Count(closed, t) == Issued(arrived, retired, t)
  }

  /** Every ticket issued is present somewhere, or was retired, or was closed for good. */
  ghost predicate Balanced<I(!new)>(
    present: seq<Ticket<I>>, arrived: seq<I>, retired: seq<Ticket<I>>, closed: seq<Ticket<I>>)
  {
    forall t :: BalancedAt(present, arrived, retired, closed, t)
  }

  ghost predicate Distinct<I(!new)>(arrived: seq<I>) {
    forall x :: Count(arrived, x) <= 1
  }

  /** With distinct arrivals no ticket is ever issued twice. */
  lemma {:induction false} IssuedOnce<I(!new)>(
    present: seq<Ticket<I>>, arrived: seq<I>, retired: seq<Ticket<I>>, closed: seq<Ticket<I>>, t: Ticket<I>)
    requires Balanced(present, arrived, retired, closed) && Distinct(arrived)
    ensures Issued(arrived, retired, t) <= 1
    ensures Count(present, t) + Count(retired, t) + Count(closed, t) <= 1
    decreases t.lap
  {
    assert BalancedAt(present, arrived, retired, closed, t);
    if t.lap > 0 {
      IssuedOnce(present, arrived, retired, closed, Ticket(t.id, t.lap - 1));
    }
  }

  /** Tickets of x in s, whatever their lap. */
  ghost function CountId<I>(s: seq<Ticket<I>>, x: I): nat {
    if s == [] then 0 else (if s[0].id == x then 1 else 0) + CountId(s[1..], x)
  }

  lemma {:induction false} CountIdAppend<I>(a: seq<Ticket<I>>, b: seq<Ticket<I>>, x: I)
    ensures CountId(a + b, x) == CountId(a, x) + CountId(b, x)
  {
    if a == [] {
      assert a + b == b;
    } else {
      assert (a + b)[1..] == a[1..] + b;
      CountIdAppend(a[1..], b, x);
    }
  }

  /** Tickets of x in s with laps below n. */
  ghost function SumLaps<I>(s: seq<Ticket<I>>, x: I, n: nat): nat {
    if n == 0 then 0 else SumLaps(s, x, n - 1) + Count(s, Ticket(x, n - 1))
  }

  ghost predicate LapsBelow<I>(s: seq<Ticket<I>>, n: nat) {
    forall i :: 0 <= i < |s| ==> s[i].lap < n
  }

  lemma {:induction false} SumLapsCons<I>(s: seq<Ticket<I>>, x: I, n: nat)
    requires s != []
    ensures SumLaps(s, x, n) == SumLaps(s[1..], x, n) + if s[0].id == x && s[0].lap < n then 1 else 0
  {
    if n > 0 {
      SumLapsCons(s, x, n - 1);
    }
  }

  lemma {:induction false} SumLapsIsCountId<I>(s: seq<Ticket<I>>, x: I, n: nat)
    requires LapsBelow(s, n)
    ensures SumLaps(s, x, n) == CountId(s, x)
    decreases |s|
  {
    if s == [] {
      SumLapsEmpty(x, n);
    } else {
      SumLapsCons(s, x, n);
      SumLapsIsCountId(s[1..], x, n);
    }
  }

  lemma {:induction false} SumLapsEmpty<I>(x: I, n: nat)
    ensures SumLaps<I>([], x, n) == 0
  {
    if n > 0 {
      SumLapsEmpty(x, n - 1);
    }
  }

  lemma {:induction false} SumLapsBound<I>(s: seq<Ticket<I>>, x: I, n: nat, c: nat)
    requires forall l: nat :: l < n ==> Count(s, Ticket(x, l)) <= c
    ensures SumLaps(s, x, n) <= c * n
  {
    if n > 0 {
      SumLapsBound(s, x, n - 1, c);
      assert c * n == c * (n - 1) + c;
    }
  }

  /** Retiring a lap cancels against issuing the next one. */
  lemma {:induction false} Telescope<I(!new)>(
    present: seq<Ticket<I>>, arrived: seq<I>, retired: seq<Ticket<I>>, closed: seq<Ticket<I>>, x: I, n: nat)
    requires Balanced(present, arrived, retired, closed)
    ensures SumLaps(present, x, n + 1) + SumLaps(closed, x, n + 1) + Count(retired, Ticket(x, n)) == Count(arrived, x)
  {
    var t := Ticket(x, n);
    assert BalancedAt(present, arrived, retired, closed, t);
    if n > 0 {
      Telescope(present, arrived, retired, closed, x, n - 1);
    }
  }

  ghost function HighestLap<I>(s: seq<Ticket<I>>): (n: nat)
    ensures LapsBelow(s, n)
  {
    if s == [] then 0
    else
      var n := HighestLap(s[1..]);
      assert forall i :: 0 < i < |s| ==> s[i] == s[1..][i - 1];
      if n > s[0].lap then n else s[0].lap + 1
  }

  lemma {:induction false} AbsentLap<I>(s: seq<Ticket<I>>, t: Ticket<I>)
    requires LapsBelow(s, t.lap)
    ensures Count(s, t) == 0
  {
    if s != [] {
      AbsentLap(s[1..], t);
    }
  }

  /** Over all laps, an order that arrived once is in exactly one place or closed exactly once. */
  lemma OnePlaceOverall<I(!new)>(
    present: seq<Ticket<I>>, arrived: seq<I>, retired: seq<Ticket<I>>, closed: seq<Ticket<I>>, x: I)
    requires Balanced(present, arrived, retired, closed)
    ensures CountId(present, x) + CountId(closed, x) == Count(arrived, x)
  {
    var n := HighestLap(present) + HighestLap(retired) + HighestLap(closed);
    Telescope(present, arrived, retired, closed, x, n);
    AbsentLap(retired, Ticket(x, n));
    SumLapsIsCountId(present, x, n + 1);
    SumLapsIsCountId(closed, x, n + 1);
  }

  /** If each ticket occurs at most c times and laps stay below n, an order occurs at most c * n times. */
  lemma OccurrencesBounded<I>(s: seq<Ticket<I>>, x: I, n: nat, c: nat)
    requires LapsBelow(s, n) && forall l: nat :: l < n ==> Count(s, Ticket(x, l)) <= c
    ensures CountId(s, x) <= c * n
  {
    SumLapsBound(s, x, n, c);
    SumLapsIsCountId(s, x, n);
  }

  /** A ticket leaves the pipeline at most as often as it was issued and not retired. */
  ghost predicate Leaves<I(!new)>(out: seq<Ticket<I>>, arrived: seq<I>, retired: seq<Ticket<I>>) {
    forall t :: Count(out, t) + Count(retired, t) <= Issued(arrived, retired, t)
  }

  lemma {:induction false} TelescopeOut<I(!new)>(
    out: seq<Ticket<I>>, arrived: seq<I>, retired: seq<Ticket<I>>, x: I, n: nat)
    requires Leaves(out, arrived, retired)
    ensures SumLaps(out, x, n + 1) + Count(retired, Ticket(x, n)) <= Count(arrived, x)
  {
    var t := Ticket(x, n);
    assert Count(out, t) + Count(retired, t) <= Issued(arrived, retired, t);
    if n > 0 {
      TelescopeOut(out, arrived, retired, x, n - 1);
    }
  }

  /** Over all laps, an order leaves the pipeline at most as often as it arrived. */
  lemma LeavesAtMostOnce<I(!new)>(out: seq<Ticket<I>>, arrived: seq<I>, retired: seq<Ticket<I>>, x: I)
    requires Leaves(out, arrived, retired)
    ensures CountId(out, x) <= Count(arrived, x)
  {
    var n := HighestLap(out);
    TelescopeOut(out, arrived, retired, x, n);
    SumLapsIsCountId(out, x, n + 1);
  }

  /** Every ticket occurs in a at most c times as often as in b. */
  ghost predicate Scaled<I(!new)>(a: seq<Ticket<I>>, b: seq<Ticket<I>>, c: nat) {
    forall t :: Count(a, t) <= c * Count(b, t)
  }

  lemma Distributes(c: nat, d: nat, e: nat)
    ensures c * (d + e) == c * d + c * e
  {
  }

  lemma {:induction false} SumLapsScale<I(!new)>(a: seq<Ticket<I>>, b: seq<Ticket<I>>, x: I, c: nat, n: nat)
    requires Scaled(a, b, c)
    ensures SumLaps(a, x, n) <= c * SumLaps(b, x, n)
  {
    if n > 0 {
      SumLapsScale(a, b, x, c, n - 1);
      Distributes(c, SumLaps(b, x, n - 1), Count(b, Ticket(x, n - 1)));
    }
  }

  /** If each ticket occurs in a at most c times as often as in b, so does each order. */
  lemma OccurrencesScale<I(!new)>(a: seq<Ticket<I>>, b: seq<Ticket<I>>, x: I, c: nat)
    requires Scaled(a, b, c)
    ensures CountId(a, x) <= c * CountId(b, x)
  {
    var n := HighestLap(a) + HighestLap(b);
    SumLapsScale(a, b, x, c, n);
    SumLapsIsCountId(a, x, n);
    SumLapsIsCountId(b, x, n);
  }
}
