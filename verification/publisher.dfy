/**
  The observer fabric (IPublisher): every publisher keeps a set of ordinary
  observers and a separate set of helper-drone observers. Notifying produces the
  calls the publisher makes, in the order an ordered pointer set visits its
  members (ascending id here).
 */
module Publisher {
  import opened Common

  datatype Publisher = Publisher(observers: set<Id>, helperObservers: set<Id>)

  /** One observer callback made by a publisher. */
  datatype Delivery =
    | Notify(target: Id, msg: string)
    | NotifyWithPublisher(target: Id, msg: string, publisher: Id)

  function NoObservers(): (p: Publisher)
    ensures p.observers == {} && p.helperObservers == {}
  {
    Publisher({}, {})
  }

  /** `addObserver`: a set insert; the helper set is untouched. */
  function AddObserver(p: Publisher, o: Id): (r: Publisher)
    ensures r.observers == p.observers + {o}
    ensures r.helperObservers == p.helperObservers
  {
    p.(observers := p.observers + {o})
  }

  /** `addHelperDroneObserver`: a set insert; the ordinary set is untouched. */
  function AddHelperObserver(p: Publisher, o: Id): (r: Publisher)
    ensures r.helperObservers == p.helperObservers + {o}
    ensures r.observers == p.observers
  {
    p.(helperObservers := p.helperObservers + {o})
  }

  /** `removeObserver`: a set erase; the helper set is untouched. */
  function RemoveObserver(p: Publisher, o: Id): (r: Publisher)
    ensures r.observers == p.observers - {o}
    ensures r.helperObservers == p.helperObservers
  {
    p.(observers := p.observers - {o})
  }

  /** `removeHelperDroneObserver`: a set erase; the ordinary set is untouched. */
  function RemoveHelperObserver(p: Publisher, o: Id): (r: Publisher)
    ensures r.helperObservers == p.helperObservers - {o}
    ensures r.observers == p.observers
  {
    p.(helperObservers := p.helperObservers - {o})
  }

  /** Adding an observer twice is adding it once; removing an absent observer
      changes nothing. */
  lemma AddIdempotentRemoveAbsent(p: Publisher, o: Id)
    ensures AddObserver(AddObserver(p, o), o) == AddObserver(p, o)
    ensures AddHelperObserver(AddHelperObserver(p, o), o) == AddHelperObserver(p, o)
    ensures o !in p.observers ==> RemoveObserver(p, o) == p
    ensures o !in p.helperObservers ==> RemoveHelperObserver(p, o) == p
  {
  }

  /** One `notify(msg)` per id, in the given order. */
  function Notifies(order: seq<Id>, msg: string): (r: seq<Delivery>)
    ensures |r| == |order|
    ensures forall i :: 0 <= i < |r| ==> r[i] == Notify(order[i], msg)
  {
    seq(|order|, i requires 0 <= i < |order| => Notify(order[i], msg))
  }

  /** One `notifyWithPublisher(msg, self)` per id, in the given order. */
  function HelperNotifies(order: seq<Id>, msg: string, self: Id): (r: seq<Delivery>)
    ensures |r| == |order|
    ensures forall i :: 0 <= i < |r| ==> r[i] == NotifyWithPublisher(order[i], msg, self)
  {
    seq(|order|, i requires 0 <= i < |order| => NotifyWithPublisher(order[i], msg, self))
  }

  /** `notifyObservers(msg)`: one `notify(msg)` per member of the ordinary set, on
      nobody else, in set order. */
  function NotifyObservers(p: Publisher, msg: string): (r: seq<Delivery>)
    ensures |r| == |p.observers|
    ensures forall i :: 0 <= i < |r| ==> r[i] == Notify(r[i].target, msg) && r[i].target in p.observers
    ensures forall o :: o in p.observers ==> exists i :: 0 <= i < |r| && r[i].target == o
    ensures forall i, j :: 0 <= i < j < |r| ==> r[i].target != r[j].target
  {
    Notifies(Ascending(p.observers), msg)
  }

  /** The `notifyWithPublisher(msg, self)` calls of a helper broadcast: one per helper
      observer, on nobody else, in set order. */
  function HelperCalls(p: Publisher, msg: string, self: Id): (r: seq<Delivery>)
    ensures |r| == |p.helperObservers|
    ensures forall i :: 0 <= i < |r| ==>
      r[i] == NotifyWithPublisher(r[i].target, msg, self) && r[i].target in p.helperObservers
    ensures forall o :: o in p.helperObservers ==> exists i :: 0 <= i < |r| && r[i].target == o
    ensures forall i, j :: 0 <= i < j < |r| ==> r[i].target != r[j].target
    ensures p.helperObservers != {} ==> r[0].target == Least(p.helperObservers)
  {
    var r := HelperNotifies(Ascending(p.helperObservers), msg, self);
    HelperCallsFirst(p.helperObservers, msg, self, r);
    r
  }

  lemma HelperCallsFirst(s: set<Id>, msg: string, self: Id, r: seq<Delivery>)
    requires r == HelperNotifies(Ascending(s), msg, self)
    ensures s != {} ==> r[0].target == Least(s)
  {
    AscendingStartsAtLeast(s);
  }

  /** `notifyHelperDroneObservers(msg)`: the helper calls, then, when there is any
      helper observer, one plain `notify(msg)` on the first of them. */
  function NotifyHelperObservers(p: Publisher, msg: string, self: Id): (r: seq<Delivery>)
    ensures p.helperObservers == {} ==> r == []
    ensures p.helperObservers != {} ==>
      && |r| == |p.helperObservers| + 1
      && r[..|p.helperObservers|] == HelperCalls(p, msg, self)
      && r[|r| - 1] == Notify(Least(p.helperObservers), msg)
  {
    var calls := HelperCalls(p, msg, self);
    if calls == [] then [] else calls + [Notify(calls[0].target, msg)]
  }
}
