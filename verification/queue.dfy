/**
  The scheduled-delivery queue: a sequence of package ids kept ordered by priority
  level. `std::sort` promises only that the result is an ordered permutation of
  its input, so that is all that is stated about `SortBy`; the particular order it
  gives to equal levels is not a property of the model.
 */
module DeliveryQueue {
  import opened Common

  /** Non-decreasing by `key`. */
  predicate SortedBy(q: seq<Id>, key: Id -> int) {
    forall i, j :: 0 <= i < j < |q| ==> key(q[i]) <= key(q[j])
  }

  function Insert(x: Id, q: seq<Id>, key: Id -> int): (r: seq<Id>)
    requires SortedBy(q, key)
    ensures SortedBy(r, key)
    ensures multiset(r) == multiset(q) + multiset{x}
    ensures |r| == |q| + 1
    decreases |q|
  {
    if q == [] || key(x) <= key(q[0]) then [x] + q
    else
      var rest := Insert(x, q[1..], key);
      assert q == [q[0]] + q[1..];
      HeadBelowRest(q, x, rest, key);
      ConsSorted(q[0], rest, key);
      assert multiset([q[0]] + rest) == multiset{q[0]} + multiset(rest);
      [q[0]] + rest
  }

  /** A head no higher than anything after it extends a sorted queue. */
  lemma ConsSorted(h: Id, rest: seq<Id>, key: Id -> int)
    requires SortedBy(rest, key)
    requires forall i :: 0 <= i < |rest| ==> key(h) <= key(rest[i])
    ensures SortedBy([h] + rest, key)
  {
    var q := [h] + rest;
    forall i, j | 0 <= i < j < |q| ensures key(q[i]) <= key(q[j]) {
      assert q[j] == rest[j - 1];
      if i > 0 { assert q[i] == rest[i - 1]; }
    }
  }

  /** Everything inserted after the head of a sorted queue ranks at least as high. */
  lemma HeadBelowRest(q: seq<Id>, x: Id, rest: seq<Id>, key: Id -> int)
    requires SortedBy(q, key) && q != [] && key(q[0]) < key(x)
    requires multiset(rest) == multiset(q[1..]) + multiset{x}
    ensures forall i :: 0 <= i < |rest| ==> key(q[0]) <= key(rest[i])
  {
    forall i | 0 <= i < |rest| ensures key(q[0]) <= key(rest[i]) {
      var y := rest[i];
      assert y in multiset(rest);
      if y != x {
        assert y in multiset(q[1..]);
        var k :| 0 <= k < |q[1..]| && q[1..][k] == y;
        assert q[k + 1] == y;
      }
    }
  }

  /** `sortScheduledDeliveries`: an ordering of the same packages by level. */
  function SortBy(q: seq<Id>, key: Id -> int): (r: seq<Id>)
    ensures SortedBy(r, key)
    ensures multiset(r) == multiset(q)
    ensures |r| == |q|
    decreases |q|
  {
    if q == [] then []
    else
      assert q == [q[0]] + q[1..];
      Insert(q[0], SortBy(q[1..], key), key)
  }

  /** Index of the first occurrence of `x`. */
  function FirstIndex(q: seq<Id>, x: Id): (k: nat)
    requires x in q
    ensures k < |q| && q[k] == x
    ensures forall j :: 0 <= j < k ==> q[j] != x
  {
    if q[0] == x then 0 else 1 + FirstIndex(q[1..], x)
  }

  /** Erasing the first occurrence of `x` (the `erase` + `break` loop): one copy of
      `x` fewer; a queue without `x` is unchanged. */
  function EraseFirst(q: seq<Id>, x: Id): (r: seq<Id>)
    ensures x !in q ==> r == q
    ensures multiset(r) == multiset(q) - multiset{x}
    decreases |q|
  {
    if q == [] then []
    else
      assert q == [q[0]] + q[1..];
      if q[0] == x then q[1..]
      else [q[0]] + EraseFirst(q[1..], x)
  }

  /** What is erased is the first occurrence and nothing else moves. */
  lemma {:induction false} EraseFirstSplices(q: seq<Id>, x: Id)
    requires x in q
    ensures EraseFirst(q, x) == q[..FirstIndex(q, x)] + q[FirstIndex(q, x) + 1..]
    decreases |q|
  {
    if q[0] != x {
      var t := q[1..];
      assert q == [q[0]] + t;
      EraseFirstSplices(t, x);
      var j := FirstIndex(t, x);
      assert FirstIndex(q, x) == j + 1;
      assert EraseFirst(q, x) == [q[0]] + EraseFirst(t, x);
      ConsSplice(q[0], t, j);
    }
  }

  /** Splicing one element out of `[h] + t` past the head splices it out of `t`. */
  lemma ConsSplice(h: Id, t: seq<Id>, j: nat)
    requires j < |t|
    ensures ([h] + t)[..j + 1] + ([h] + t)[j + 2..] == [h] + (t[..j] + t[j + 1..])
  {
    var q := [h] + t;
    assert q[..j + 1] == [h] + t[..j];
    assert q[j + 2..] == t[j + 1..];
  }

  /** Push at the back, then sort: the result holds exactly the old entries plus
      the new one, in level order. */
  function PushAndSort(q: seq<Id>, x: Id, key: Id -> int): (r: seq<Id>)
    ensures SortedBy(r, key)
    ensures multiset(r) == multiset(q) + multiset{x}
    ensures |r| == |q| + 1
  {
    SortBy(q + [x], key)
  }
}
