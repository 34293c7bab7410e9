/** The submitter's queue of orders waiting for their time. */
module PendingQueue {

  /** `stamp` is history: the position of the entry among all entries ever made. */
  datatype Pending<+T> = Pending(order: T, processAt: int, stamp: nat)

  /** Earlier due time first; entered first on ties. */
  predicate Before<T>(a: Pending<T>, b: Pending<T>) {
    a.processAt < b.processAt || (a.processAt == b.processAt && a.stamp < b.stamp)
  }

  ghost predicate Sorted<T>(q: seq<Pending<T>>) {
    forall i, j :: 0 <= i < j < |q| ==> Before(q[i], q[j])
  }

  ghost predicate StampedBelow<T>(q: seq<Pending<T>>, n: nat) {
    forall i :: 0 <= i < |q| ==> q[i].stamp < n
  }

  /** `findIndex(order => order.processAt > processAt)`, the end of the queue standing for -1. */
  function InsertIndex<T>(q: seq<Pending<T>>, processAt: int): (k: nat)
    ensures k <= |q|
    ensures forall i :: 0 <= i < k ==> q[i].processAt <= processAt
    ensures k < |q| ==> q[k].processAt > processAt
  {
    if q == [] || q[0].processAt > processAt then 0 else 1 + InsertIndex(q[1..], processAt)
  }

  /** Insertion behind every entry due no later. */
  function Insert<T>(q: seq<Pending<T>>, p: Pending<T>): seq<Pending<T>> {
    if q == [] || q[0].processAt > p.processAt then [p] + q else [q[0]] + Insert(q[1..], p)
  }

  /** Splicing at the index found is insertion. */
  lemma {:induction false} SpliceInserts<T>(q: seq<Pending<T>>, p: Pending<T>)
    ensures var k := InsertIndex(q, p.processAt); Insert(q, p) == q[..k] + [p] + q[k..]
  {
    if q != [] && q[0].processAt <= p.processAt {
      SpliceInserts(q[1..], p);
      var k := InsertIndex(q[1..], p.processAt);
      assert q[..k + 1] == [q[0]] + q[1..][..k];
    }
  }

  lemma InsertKeepsSorted<T>(q: seq<Pending<T>>, p: Pending<T>)
    requires Sorted(q) && StampedBelow(q, p.stamp)
    ensures Sorted(Insert(q, p)) && StampedBelow(Insert(q, p), p.stamp + 1)
  {
    var k, r := InsertIndex(q, p.processAt), Insert(q, p);
    SpliceInserts(q, p);
    forall i, j | 0 <= i < j < |r| ensures Before(r[i], r[j]) {
      var a := if i < k then i else i - 1;
      var b := if j < k then j else j - 1;
      if i != k && j != k {
        assert r[i] == q[a] && r[j] == q[b];
      } else if j == k {
        assert r[i] == q[i] && r[j] == p;
      } else {
        assert r[i] == p && r[j] == q[b];
        if k < b {
          assert Before(q[k], q[b]);
        }
      }
    }
  }

  predicate IsDue<T>(p: Pending<T>, now: int) {
    p.processAt <= now
  }

  /** How many due orders the queue holds, wherever they stand. */
  function NumDue<T>(q: seq<Pending<T>>, now: int): nat {
    if q == [] then 0 else (if IsDue(q[0], now) then 1 else 0) + NumDue(q[1..], now)
  }

  /** All due orders if they fit the capacity, else as many as fit. */
  function TakeCount<T>(q: seq<Pending<T>>, now: int, capacity: nat): (k: nat)
    ensures k <= capacity && k <= NumDue(q, now)
    ensures k < capacity ==> k == NumDue(q, now)
  {
    if NumDue(q, now) < capacity then NumDue(q, now) else capacity
  }

  lemma {:induction false} NumDueAtMostAll<T>(q: seq<Pending<T>>, now: int)
    ensures NumDue(q, now) <= |q|
  {
    if q != [] {
      NumDueAtMostAll(q[1..], now);
    }
  }

  /** In a sorted queue the due orders are a prefix. */
  lemma {:induction false} DueIsPrefix<T>(q: seq<Pending<T>>, now: int)
    requires Sorted(q)
    ensures NumDue(q, now) <= |q|
    ensures forall i :: 0 <= i < |q| ==> (IsDue(q[i], now) <==> i < NumDue(q, now))
  {
    NumDueAtMostAll(q, now);
    if q != [] {
      DueIsPrefix(q[1..], now);
      if !IsDue(q[0], now) {
        assert forall i :: 0 < i < |q| ==> Before(q[0], q[i]);
        NoneDue(q, now);
      } else {
        assert forall i :: 0 < i < |q| ==> q[i] == q[1..][i - 1];
      }
    }
  }

  lemma {:induction false} NoneDue<T>(q: seq<Pending<T>>, now: int)
    requires forall i :: 0 <= i < |q| ==> !IsDue(q[i], now)
    ensures NumDue(q, now) == 0
  {
    if q != [] {
      NoneDue(q[1..], now);
    }
  }

  /** What is taken comes first: every order taken is due and stands before every order left; a due
      order is left only when the capacity ran out. */
  lemma TakesEarliestDue<T>(q: seq<Pending<T>>, now: int, capacity: nat, i: nat, j: nat)
    requires Sorted(q) && i < TakeCount(q, now, capacity) <= j < |q|
    ensures IsDue(q[i], now) && Before(q[i], q[j])
    ensures IsDue(q[j], now) ==> TakeCount(q, now, capacity) == capacity
  {
    DueIsPrefix(q, now);
  }
}
