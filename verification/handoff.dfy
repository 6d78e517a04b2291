/**
  The leader's bookkeeping for a mid-flight handoff: the distances helpers report
  in answer to a "requesting handoff" broadcast, and the choice of the closest of
  them. The map is keyed by helper pointer; here by helper id, visited in
  ascending order.
 */
module Handoff {
  import opened Common

  /** `receiveHelperResponse(drone, distance)`: a null drone is ignored; otherwise
      the entry for the drone is created or overwritten. Nothing ever removes one. */
  function ReceiveHelperResponse(responses: map<Id, real>, drone: Option<Id>, distance: real): (r: map<Id, real>)
    ensures drone.None? ==> r == responses
    ensures drone.Some? ==>
      && r.Keys == responses.Keys + {drone.value}
      && r[drone.value] == distance
      && (forall k :: k in responses && k != drone.value ==> r[k] == responses[k])
  {
    match drone
    case None => responses
    case Some(h) => responses[h := distance]
  }

  /** The loop of `selectClosestHelperDrone`: `best` and `smallest` are the running
      choice and its distance, `smallest` starting at -1 as "nothing chosen yet". */
  function Scan(keys: seq<Id>, d: map<Id, real>, best: Option<Id>, smallest: real): (r: Option<Id>)
    requires forall i :: 0 <= i < |keys| ==> keys[i] in d
    ensures r.None? ==> best.None?
    ensures best.None? && smallest < 0.0 && keys != [] ==> r.Some?
    ensures r.Some? ==> r == best || r.value in keys
    decreases |keys|
  {
    if keys == [] then best
    else
      var k := keys[0];
      if smallest < 0.0 || d[k] < smallest then Scan(keys[1..], d, Some(k), d[k])
      else Scan(keys[1..], d, best, smallest)
  }

  /** `selectClosestHelperDrone`: null when no helper has answered, else one that has. */
  function SelectClosest(d: map<Id, real>): (r: Option<Id>)
    ensures r.None? <==> d == map[]
    ensures r.Some? ==> r.value in d
  {
    if d == map[] then None
    else
      var keys := Ascending(d.Keys);
      assert keys != [] by {
        var k := Pick(d.Keys);
        assert k in keys;
      }
      Scan(keys, d, None, -1.0)
  }

  /** `m` is the first entry, in visiting order, among those at the least distance in `s`. */
  predicate FirstClosest(m: Id, s: set<Id>, d: map<Id, real>)
    requires s <= d.Keys
  {
    && m in s
    && (forall k :: k in s ==> d[m] <= d[k])
    && (forall k :: k in s && k < m ==> d[m] < d[k])
  }

  predicate NonNegative(d: map<Id, real>) {
    forall k :: k in d ==> d[k] >= 0.0
  }

  lemma {:induction false} ScanFindsFirstClosest(keys: seq<Id>, d: map<Id, real>, best: Option<Id>,
                                                smallest: real, seen: set<Id>)
    requires forall i :: 0 <= i < |keys| ==> keys[i] in d
    requires NonNegative(d) && seen <= d.Keys
    requires StrictlyIncreasing(keys)
    requires forall s, i :: s in seen && 0 <= i < |keys| ==> s < keys[i]
    requires best.None? <==> seen == {}
    requires best.None? ==> smallest < 0.0
    requires best.Some? ==> FirstClosest(best.value, seen, d) && smallest == d[best.value]
    ensures var all := seen + (set i | 0 <= i < |keys| :: keys[i]);
      all != {} ==> Scan(keys, d, best, smallest).Some? && FirstClosest(Scan(keys, d, best, smallest).value, all, d)
    decreases |keys|
  {
    var all := seen + (set i | 0 <= i < |keys| :: keys[i]);
    if keys == [] {
      assert all == seen;
    } else {
      var k := keys[0];
      var seen' := seen + {k};
      var rest := keys[1..];
      assert all == seen' + (set i | 0 <= i < |rest| :: rest[i]) by {
        forall x | x in all ensures x in seen' + (set i | 0 <= i < |rest| :: rest[i]) {
          if x !in seen && x != k {
            var i :| 0 <= i < |keys| && keys[i] == x;
            assert rest[i - 1] == x;
          }
        }
      }
      if smallest < 0.0 || d[k] < smallest {
        assert FirstClosest(k, seen', d);
        ScanFindsFirstClosest(rest, d, Some(k), d[k], seen');
      } else {
        assert FirstClosest(best.value, seen', d);
        ScanFindsFirstClosest(rest, d, best, smallest, seen');
      }
    }
  }

  /** With genuine (non-negative) distances, the choice is a helper at the least
      distance, and the first in map order among several at that distance. */
  lemma SelectClosestIsFirstClosest(d: map<Id, real>)
    requires NonNegative(d) && d != map[]
    ensures SelectClosest(d).Some?
    ensures FirstClosest(SelectClosest(d).value, d.Keys, d)
  {
    var keys := Ascending(d.Keys);
    AscendingCovers(d.Keys);
    assert {} + (set i | 0 <= i < |keys| :: keys[i]) == d.Keys;
    ScanFindsFirstClosest(keys, d, None, -1.0, {});
    assert SelectClosest(d) == Scan(keys, d, None, -1.0);
  }

  /** The visiting order lists exactly the keys. */
  lemma AscendingCovers(s: set<Id>)
    ensures (set i | 0 <= i < |Ascending(s)| :: Ascending(s)[i]) == s
  {
    var keys := Ascending(s);
    forall k | k in s ensures k in (set i | 0 <= i < |keys| :: keys[i]) {
      assert k in keys;
      var i :| 0 <= i < |keys| && keys[i] == k;
    }
  }

  /** Answers accumulate: a helper that once answered stays selectable, whatever its
      later state, because nothing clears the map. */
  lemma ResponsesOnlyGrow(d: map<Id, real>, drone: Option<Id>, distance: real)
    ensures d.Keys <= ReceiveHelperResponse(d, drone, distance).Keys
    ensures d != map[] ==> SelectClosest(ReceiveHelperResponse(d, drone, distance)).Some?
  {
  }
}
