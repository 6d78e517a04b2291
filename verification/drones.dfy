/**
  The three drone behaviours: the plain drone, the helper that only ever takes a
  package handed to it, and the battery-powered leader that can ask helpers to
  take over its package. Each tick is a function of the world and the drone's own
  state; the drone's movement along its active leg is supplied as a `Motion`.
  Inside its own update the drone's state is the value threaded through; the
  entity map still holds the state it had before the tick.
 */
module Drones {
  import opened Common
  import opened Packages
  import opened Entities
  import opened Model
  import T = Telemetry
  import B = Battery
  import H = Handoff
  import P = Publisher
  import Roaming

  const PackagesDelivered: string := "packages_delivered"
  const HandoffRequests: string := "handoff_requests"
  const HandoffAccepts: string := "handoff_accepts"
  /** What a helper looks for in a broadcast before answering it. */
  const HandoffPhrase: string := "requesting handoff"
  const ChargingStation: Vec3 := Vec3(92.0, 254.0, -124.0)

  /** The world and the updated drone after a step. */
  datatype Outcome<E> = Outcome(world: World, drone: E)

  function HeadingTo(drone: string, pkg: string): string { drone + " heading to: " + pkg }
  function PickedUpMsg(drone: string, pkg: string): string { drone + " picked up: " + pkg }
  function DroppedOffMsg(drone: string, pkg: string): string { drone + " dropped off: " + pkg }
  function HandoffRequest(leader: string): string { leader + " " + HandoffPhrase }
  /** The second broadcast; the missing space is the simulator's. */
  function HandoffRetry(leader: string): string {
    leader + HandoffPhrase + " again, no helper drones available"
  }
  function HandoffAccepted(helper: string, leader: string): string {
    helper + " accepted handoff for " + leader
  }
  function EmergencyMsg(leader: string): string {
    leader + "going to charging station with package, no helpers available."
  }
  function AbandonMsg(leader: string): string {
    leader + " abandoning pickup due to critical battery level."
  }

  /** Both handoff broadcasts carry the phrase helpers answer to. */
  lemma BothBroadcastsAsk(leader: string)
    ensures Contains(HandoffRequest(leader), HandoffPhrase)
    ensures Contains(HandoffRetry(leader), HandoffPhrase)
  {
    ContainsInfix(leader + " ", HandoffPhrase, "");
    assert HandoffRequest(leader) == (leader + " ") + HandoffPhrase + "";
    ContainsInfix(leader, HandoffPhrase, " again, no helper drones available");
  }

  /** The first two calls of every drone tick: the timestep, and the running total
      of the distance travelled (passed as the delta). */
  function TickLogs(id: Id, total: real): seq<T.LogCall> {
    [Roaming.Timestep(id), T.LogCall(id, Roaming.DistanceTraveled, total)]
  }

  /** The distance travelled since the last tick, added to the running total. */
  function Travelled(g: Geometry, distance: real, last: Vec3, pos: Vec3): real {
    distance + Dist(g, last, pos)
  }

  /** The effect of `move` on the mover's body. */
  function Moved(b: Body, m: Motion): (r: Body)
    ensures r.position == m.position && r.direction == m.direction
    ensures r.(position := b.position, direction := b.direction) == b
  {
    b.(position := m.position, direction := m.direction)
  }

  /** Dereference the drone's package pointer. */
  function Held(p: Option<Id>, drone: Id): (r: Result<Id>)
    ensures r.Ok? <==> p.Some?
    ensures r.Ok? ==> r.value == p.value
    ensures r.Crash? ==> r.fault == NullPackage(drone)
  {
    match p
    case None => Crash(NullPackage(drone))
    case Some(id) => Ok(id)
  }

  /** `package->setPosition(position); package->setDirection(direction)`. */
  function Follow(w: World, pid: Id, b: Body): (r: Result<World>)
    ensures r.Ok? ==> SlotsKept(w, r.value)
    ensures r.Ok? <==> IsPackage(w, pid)
    ensures r.Ok? ==> r.value == PutPackage(w, pid,
      GetPackage(w, pid).value.(position := b.position, direction := b.direction))
  {
    var p :- GetPackage(w, pid);
    Ok(PutPackage(w, pid, p.(position := b.position, direction := b.direction)))
  }

  /** Every live package keeps its picked-up and delivered flags, and the queue and
      the set of entity ids are unchanged. */
  ghost predicate KeepsPackageFlags(w: World, w': World) {
    && w'.queue == w.queue
    && w'.entities.Keys == w.entities.Keys
    && (forall id :: IsPackage(w, id) ==>
          && IsPackage(w', id)
          && w'.entities[id].value.pkg.pickedUp == w.entities[id].value.pkg.pickedUp
          && w'.entities[id].value.pkg.delivered == w.entities[id].value.pkg.delivered)
  }

  lemma KeepsPackageFlagsTrans(w1: World, w2: World, w3: World)
    requires KeepsPackageFlags(w1, w2) && KeepsPackageFlags(w2, w3)
    ensures KeepsPackageFlags(w1, w3)
  {
  }

  // ---------------------------------------------------------------- plain drone

  /** `Drone::getNextDelivery`: when linked and the queue is not empty, take the
      front package, announce it and set out for it. */
  function GenericNextDelivery(w: World, d: Generic): (r: Result<Outcome<Generic>>)
    ensures r.Ok? ==> SlotsKept(w, r.value.world)
    ensures !d.body.linked || w.queue == [] ==> r == Ok(Outcome(w, d))
    ensures d.body.linked && w.queue != [] && !IsPackage(w, w.queue[0]) ==> r == Crash(Dangling(w.queue[0]))
    ensures (d.body.linked && w.queue != [] && IsPackage(w, w.queue[0])
             && d.body.pub.observers == {ModelObserver}) ==> r.Ok?
    ensures r.Ok? && d.body.linked && w.queue != [] ==>
      var p := w.entities[w.queue[0]].value.pkg;
      && r.value.world.queue == w.queue[1..]
      && r.value.world.entities == w.entities
      && r.value.drone == d.(base := DroneBase(false, false, Some(w.queue[0])),
                             toPackage := Some(Leg(d.body.position, p.position)),
                             toFinal := Some(Leg(p.position, p.destination)))
  {
    if !d.body.linked || w.queue == [] then Ok(Outcome(w, d))
    else
      var pid := w.queue[0];
      var w1 := w.(queue := w.queue[1..]);
      var p :- GetPackage(w1, pid);
      var w2 :- Announce(w1, d.body.pub, HeadingTo(d.body.name, p.name));
      Ok(Outcome(w2, d.(base := DroneBase(false, false, Some(pid)),
                        toPackage := Some(Leg(d.body.position, p.position)),
                        toFinal := Some(Leg(p.position, p.destination)))))
  }

  /** The pick-up or drop-off half of a plain drone's tick. */
  function GenericLegs(w: World, d: Generic, m: Motion): (r: Result<Outcome<Generic>>)
    ensures r.Ok? ==> SlotsKept(w, r.value.world)
    ensures r.Ok? ==> r.value.world.queue == w.queue
    ensures r.Ok? ==> r.value.drone.body.id == d.body.id
    ensures d.toPackage.Some? && m.completed && d.base.package.None? ==> r == Crash(NullPackage(d.body.id))
    ensures r.Ok? && d.toPackage.Some? ==> r.value.drone.base.package == d.base.package
    ensures r.Ok? && d.toPackage.Some? && m.completed ==>
      && r.value.drone.base.pickedUp && r.value.drone.toPackage.None?
    ensures r.Ok? && d.toPackage.None? && d.toFinal.Some? && m.completed ==>
      && r.value.drone.base == DroneBase(true, false, None) && r.value.drone.toFinal.None?
  {
    var id := d.body.id;
    if d.toPackage.Some? then
      var d1 := d.(body := Moved(d.body, m));
      if !m.completed then Ok(Outcome(w, d1))
      else
        var pid :- Held(d1.base.package, id);
        var p :- GetPackage(w, pid);
        var w1 :- Announce(w, d1.body.pub, PickedUpMsg(d1.body.name, p.name));
        Ok(Outcome(w1, d1.(toPackage := None, base := d1.base.(pickedUp := true))))
    else if d.toFinal.Some? then
      var d1 := d.(body := Moved(d.body, m));
      var w1 :- if d1.base.package.Some? && d1.base.pickedUp then Follow(w, d1.base.package.value, d1.body) else Ok(w);
      if !m.completed then Ok(Outcome(w1, d1))
      else
        var pid :- Held(d1.base.package, id);
        var p :- GetPackage(w1, pid);
        var w2 :- Announce(w1, d1.body.pub, DroppedOffMsg(d1.body.name, p.name));
        var w3 :- HandOff(w2, pid, p);
        var w4 := Log(w3, [T.LogCall(id, PackagesDelivered, 1.0)]);
        Ok(Outcome(w4, d1.(toFinal := None, base := DroneBase(true, false, None))))
    else Ok(Outcome(w, d))
  }

  /** The packages a drone holds a pointer to, as a bag. */
  /** The `Drone`-level flags are the same in both: the leader and helper never
      write them, so only their package pointer changes. */
  predicate SameFlags(a: DroneBase, b: DroneBase) {
    a.available == b.available && a.pickedUp == b.pickedUp
  }

  function Bag(p: Option<Id>): multiset<Id> {
    if p.Some? then multiset{p.value} else multiset{}
  }

  /** `Drone::update`: bookkeeping, then a new job when available, then one leg. */
  function GenericUpdate(w: World, d: Generic, g: Geometry, m: Motion): (r: Result<Outcome<Generic>>)
    ensures r.Ok? ==> SlotsKept(w, r.value.world)
    ensures r.Ok? ==> r.value.drone.body.id == d.body.id
    ensures r.Ok? && !d.base.available ==> r.value.world.queue == w.queue
    ensures r.Ok? ==> multiset(w.queue) <= multiset(r.value.world.queue) + Bag(r.value.drone.base.package)
  {
    var total := Travelled(g, d.distance, d.lastPosition, d.body.position);
    var w0 := Log(w, TickLogs(d.body.id, total));
    var d0 := d.(lastPosition := d.body.position, distance := total);
    var o :- GenericMaybeNext(w0, d0);
    var r := GenericLegs(o.world, o.drone, m);
    assert r.Ok? ==> multiset(w.queue) <= multiset(r.value.world.queue) + Bag(r.value.drone.base.package) by {
      if r.Ok? && o.world.queue != w.queue {
        assert multiset(w.queue) == multiset(o.world.queue) + Bag(o.drone.base.package);
      }
    }
    r
  }

  /** The `if (available) getNextDelivery()` step of a plain drone's tick. */
  function GenericMaybeNext(w: World, d: Generic): (r: Result<Outcome<Generic>>)
    ensures r.Ok? ==> SlotsKept(w, r.value.world)
    ensures !d.base.available ==> r == Ok(Outcome(w, d))
    ensures r.Ok? ==> r.value.drone.body.id == d.body.id
    ensures r.Ok? && r.value.world.queue != w.queue ==>
      && w.queue != []
      && multiset(w.queue) == multiset(r.value.world.queue) + Bag(r.value.drone.base.package)
      && r.value.drone.toPackage.Some?
  {
    if !d.base.available then Ok(Outcome(w, d))
    else
      var r := GenericNextDelivery(w, d);
      assert w.queue != [] ==> w.queue == [w.queue[0]] + w.queue[1..];
      r
  }

  // ---------------------------------------------------------------- helper drone

  /** The helper drone inside a live entity's decorator chain. */
  function HelperAt(w: World, h: Id): Helper
    requires IsHelperEntity(w, h)
  {
    Innermost(w.entities[h].value.chain).helper
  }

  /** Write a helper's state back into its chain, every layer kept. */
  function PutHelper(w: World, h: Id, hp: Helper): (r: World)
    requires IsHelperEntity(w, h)
    ensures IsHelperEntity(r, h) && HelperAt(r, h) == hp
    ensures r.entities.Keys == w.entities.Keys
    ensures forall k :: k in w.entities && k != h ==> r.entities[k] == w.entities[k]
    ensures r.(entities := w.entities) == w
  {
    PutChain(w, h, WithInnermost(w.entities[h].value.chain, HelperCore(hp)))
  }

  /** `HelperDrone::getNextDelivery(package)`: the helper takes the pointer it is
      given; a non-null package is announced and becomes its job. */
  function HelperNextDelivery(w: World, h: Id, p: Option<Id>): (r: Result<World>)
    ensures r.Ok? ==> SlotsKept(w, r.value)
    ensures !IsHelperEntity(w, h) ==> r == Crash(Dangling(h))
    ensures IsHelperEntity(w, h) && p.Some? && !IsPackage(w, p.value) ==> r == Crash(Dangling(p.value))
    ensures r.Ok? ==> && IsHelperEntity(w, h) && IsHelperEntity(r.value, h)
                      && HelperAt(r.value, h).base.package == p
                      && HelperAt(r.value, h).body == HelperAt(w, h).body
    ensures r.Ok? && p.Some? ==>
      var hp := HelperAt(r.value, h);
      var pkg := w.entities[p.value].value.pkg;
      && !hp.available && !hp.pickedUp
      && hp.toPackage == Some(Leg(HelperAt(w, h).body.position, pkg.position))
      && hp.toFinal == Some(Leg(pkg.position, pkg.destination))
    ensures r.Ok? ==> KeepsPackageFlags(w, r.value)
    ensures r.Ok? ==> forall k :: k in w.entities && k != h ==> r.value.entities[k] == w.entities[k]
  {
    if !IsHelperEntity(w, h) then Crash(Dangling(h))
    else
      var hp := HelperAt(w, h).(base := HelperAt(w, h).base.(package := p));
      match p
      case None => Ok(PutHelper(w, h, hp))
      case Some(pid) =>
        var pkg :- GetPackage(w, pid);
        var w1 :- Announce(w, hp.body.pub, HeadingTo(hp.body.name, pkg.name));
        assert w1.entities == w.entities;
        Ok(PutHelper(w1, h, hp.(available := false, pickedUp := false,
                                toPackage := Some(Leg(hp.body.position, pkg.position)),
                                toFinal := Some(Leg(pkg.position, pkg.destination)))))
  }

  lemma SameEntitiesKeep(w: World, w': World)
    requires w'.entities == w.entities && w'.queue == w.queue
    ensures KeepsPackageFlags(w, w')
  {
  }

  lemma FollowKeeps(w: World, pid: Id, b: Body)
    requires IsPackage(w, pid)
    ensures KeepsPackageFlags(w, Follow(w, pid, b).value)
  {
  }

  lemma HandOffKeeps(w: World, pid: Id, p: Package)
    requires HandOff(w, pid, p).Ok?
    ensures KeepsPackageFlags(w, HandOff(w, pid, p).value)
  {
  }

  /** The pick-up leg of a helper's tick; the helper has already moved. */
  function HelperPickup(w: World, h: Helper, m: Motion): (r: Result<Outcome<Helper>>)
    ensures r.Ok? ==> SlotsKept(w, r.value.world)
    ensures r.Ok? ==> KeepsPackageFlags(w, r.value.world)
    ensures r.Ok? ==> r.value.drone.body == h.body && r.value.drone.base == h.base
    ensures m.completed && h.base.package.None? ==> r == Crash(NullPackage(h.body.id))
    ensures !m.completed ==> r == Ok(Outcome(w, h))
    ensures r.Ok? && m.completed ==> r.value.drone == h.(toPackage := None, pickedUp := true)
  {
    if !m.completed then Ok(Outcome(w, h))
    else
      var pid :- Held(h.base.package, h.body.id);
      var p :- GetPackage(w, pid);
      var w1 :- Announce(w, h.body.pub, PickedUpMsg(h.body.name, p.name));
      SameEntitiesKeep(w, w1);
      Ok(Outcome(w1, h.(toPackage := None, pickedUp := true)))
  }

  /** The drop-off leg of a helper's tick; the helper has already moved. The
      package follows when it is carried; on arrival it is handed to its owner, but
      never marked delivered. */
  function HelperDropOff(w: World, h: Helper, m: Motion): (r: Result<Outcome<Helper>>)
    ensures r.Ok? ==> SlotsKept(w, r.value.world)
    ensures r.Ok? ==> KeepsPackageFlags(w, r.value.world)
    ensures r.Ok? ==> r.value.drone.body == h.body
    ensures r.Ok? && !m.completed ==> r.value.drone == h
    ensures r.Ok? && m.completed ==>
      r.value.drone == h.(toFinal := None, base := h.base.(package := None), available := true, pickedUp := false)
    ensures m.completed && h.base.package.None? ==> r == Crash(NullPackage(h.body.id))
  {
    var id := h.body.id;
    var w1 :- if h.base.package.Some? && h.pickedUp then Follow(w, h.base.package.value, h.body) else Ok(w);
    assert KeepsPackageFlags(w, w1) by {
      if h.base.package.Some? && h.pickedUp { FollowKeeps(w, h.base.package.value, h.body); }
    }
    if !m.completed then Ok(Outcome(w1, h))
    else
      var pid :- Held(h.base.package, id);
      var p :- GetPackage(w1, pid);
      var w2 := Log(w1, [T.LogCall(id, PackagesDelivered, 1.0)]);
      var w3 :- Announce(w2, h.body.pub, DroppedOffMsg(h.body.name, p.name));
      var w4 :- HandOff(w3, pid, p);
      SameEntitiesKeep(w1, w3);
      HandOffKeeps(w3, pid, p);
      KeepsPackageFlagsTrans(w1, w3, w4);
      KeepsPackageFlagsTrans(w, w1, w4);
      Ok(Outcome(w4, h.(toFinal := None, base := h.base.(package := None), available := true, pickedUp := false)))
  }

  /** `HelperDrone::update`: bookkeeping, then the pick-up or the drop-off leg. It
      never takes work on its own, never marks a package picked up or delivered, and
      never touches the queue. */
  function HelperUpdate(w: World, h: Helper, g: Geometry, m: Motion): (r: Result<Outcome<Helper>>)
    ensures r.Ok? ==> SlotsKept(w, r.value.world)
    ensures r.Ok? ==> KeepsPackageFlags(w, r.value.world)
    ensures r.Ok? ==> r.value.drone.body.id == h.body.id && r.value.drone.body.pub == h.body.pub
    ensures h.toPackage.Some? && m.completed && h.base.package.None? ==> r == Crash(NullPackage(h.body.id))
    ensures r.Ok? && h.toPackage.Some? && m.completed ==>
      r.value.drone.pickedUp && r.value.drone.toPackage.None? && r.value.drone.base == h.base
    ensures r.Ok? && h.toPackage.None? && h.toFinal.Some? && m.completed ==>
      && r.value.drone.available && !r.value.drone.pickedUp
      && r.value.drone.base.package.None? && r.value.drone.toFinal.None?
    ensures r.Ok? && h.toPackage.None? && h.toFinal.None? ==> r.value.drone.base == h.base
    ensures r.Ok? ==> SameFlags(h.base, r.value.drone.base)
  {
    var total := Travelled(g, h.distance, h.lastPosition, h.body.position);
    var w0 := Log(w, TickLogs(h.body.id, total));
    var h0 := h.(lastPosition := h.body.position, distance := total);
    var h1 := h0.(body := Moved(h0.body, m));
    SameEntitiesKeep(w, w0);
    if h0.toPackage.Some? then
      var r := HelperPickup(w0, h1, m);
      if r.Ok? then KeepsPackageFlagsTrans(w, w0, r.value.world); r else r
    else if h0.toFinal.Some? then
      var r := HelperDropOff(w0, h1, m);
      if r.Ok? then KeepsPackageFlagsTrans(w, w0, r.value.world); r else r
    else Ok(Outcome(w0, h0))
  }

  // ---------------------------------------------------------------- handoff broadcast

  /** Whether helper `h` answers broadcast `msg` with its distance: the message
      carries the handoff phrase and the helper is free. */
  predicate Answers(w: World, h: Id, msg: string) {
    IsHelperEntity(w, h) && HelperAt(w, h).available && Contains(msg, HandoffPhrase)
  }

  /** Some call in `ds` reaches `k` with a message it answers. */
  predicate Answered(w: World, ds: seq<P.Delivery>, k: Id) {
    exists i :: 0 <= i < |ds| && ds[i].target == k && Answers(w, k, ds[i].msg)
  }

  /** The `notifyWithPublisher(msg, leader)` calls on the helpers, in order: each
      answering helper files its distance from the leader at `at`; a helper that
      is no longer alive is a dangling pointer. */
  function Replies(w: World, g: Geometry, at: Vec3, ds: seq<P.Delivery>, resp: map<Id, real>): (r: Result<map<Id, real>>)
    ensures r.Ok? <==> forall i :: 0 <= i < |ds| ==> IsHelperEntity(w, ds[i].target)
    ensures r.Ok? ==> forall k :: k in r.value <==> k in resp || Answered(w, ds, k)
    ensures r.Ok? ==> forall k :: Answered(w, ds, k) ==> r.value[k] == Dist(g, at, HelperAt(w, k).body.position)
    ensures r.Ok? ==> forall k :: k in resp && !Answered(w, ds, k) ==> r.value[k] == resp[k]
    decreases |ds|
  {
    if ds == [] then Ok(resp)
    else
      var h := ds[0].target;
      if !IsHelperEntity(w, h) then Crash(Dangling(h))
      else
        var resp1 := if Answers(w, h, ds[0].msg) then resp[h := Dist(g, at, HelperAt(w, h).body.position)] else resp;
        var r := Replies(w, g, at, ds[1..], resp1);
        RepliesStep(w, ds);
        r
  }

  lemma RepliesStep(w: World, ds: seq<P.Delivery>)
    requires ds != []
    ensures (forall i :: 0 <= i < |ds| ==> IsHelperEntity(w, ds[i].target))
        <==> IsHelperEntity(w, ds[0].target) && forall i :: 0 <= i < |ds[1..]| ==> IsHelperEntity(w, ds[1..][i].target)
    ensures forall k :: Answered(w, ds, k) <==>
      (k == ds[0].target && Answers(w, k, ds[0].msg)) || Answered(w, ds[1..], k)
  {
    forall k | Answered(w, ds, k)
      ensures (k == ds[0].target && Answers(w, k, ds[0].msg)) || Answered(w, ds[1..], k)
    {
      var i :| 0 <= i < |ds| && ds[i].target == k && Answers(w, k, ds[i].msg);
      if i > 0 { assert ds[1..][i - 1] == ds[i]; }
    }
    forall k | Answered(w, ds[1..], k) ensures Answered(w, ds, k) {
      var i :| 0 <= i < |ds[1..]| && ds[1..][i].target == k && Answers(w, k, ds[1..][i].msg);
      assert ds[i + 1] == ds[1..][i];
    }
    if forall i :: 0 <= i < |ds[1..]| ==> IsHelperEntity(w, ds[1..][i].target) {
      forall i | 1 <= i < |ds| ensures IsHelperEntity(w, ds[i].target) {
        assert ds[i] == ds[1..][i - 1];
      }
    }
  }

  /** `notifyHelperDroneObservers(msg)` from leader `l`: every helper observer is
      asked, and answering helpers leave their distance in the leader's responses;
      then the first helper's `notify` passes the message on to the view. */
  function Broadcast(w: World, g: Geometry, l: Leader, msg: string): (r: Result<Outcome<Leader>>)
    ensures r.Ok? ==> SlotsKept(w, r.value.world)
    ensures l.body.pub.helperObservers == {} ==> r == Ok(Outcome(w, l))
    ensures r.Ok? <==> forall h :: h in l.body.pub.helperObservers ==> IsHelperEntity(w, h)
    ensures r.Ok? && l.body.pub.helperObservers != {} ==> r.value.world == Say(w, msg)
    ensures r.Ok? ==> r.value.drone == l.(responses := r.value.drone.responses)
    ensures r.Ok? ==> forall k :: k in r.value.drone.responses <==>
      k in l.responses || (k in l.body.pub.helperObservers && Answers(w, k, msg))
    ensures r.Ok? ==> forall k :: k in l.body.pub.helperObservers && Answers(w, k, msg) ==>
      r.value.drone.responses[k] == Dist(g, l.body.position, HelperAt(w, k).body.position)
    ensures r.Ok? ==> forall k :: k in l.responses && !(k in l.body.pub.helperObservers && Answers(w, k, msg)) ==>
      r.value.drone.responses[k] == l.responses[k]
  {
    var hs := l.body.pub.helperObservers;
    var ds := P.NotifyHelperObservers(l.body.pub, msg, l.body.id);
    if hs == {} then Ok(Outcome(w, l))
    else
      var calls := ds[..|hs|];
      assert calls == P.HelperCalls(l.body.pub, msg, l.body.id);
      BroadcastReaches(w, l.body.pub, msg, l.body.id);
      var resp :- Replies(w, g, l.body.position, calls, l.responses);
      var first := ds[|ds| - 1];
      assert first.target in hs && first.msg == msg;
      Ok(Outcome(Say(w, first.msg), l.(responses := resp)))
  }

  /** The helper calls of a broadcast reach exactly the helper observers, each with
      the broadcast message. */
  lemma BroadcastReaches(w: World, pub: P.Publisher, msg: string, self: Id)
    ensures var calls := P.HelperCalls(pub, msg, self);
      && ((forall i :: 0 <= i < |calls| ==> IsHelperEntity(w, calls[i].target))
          <==> forall h :: h in pub.helperObservers ==> IsHelperEntity(w, h))
      && forall k :: Answered(w, calls, k) <==> k in pub.helperObservers && Answers(w, k, msg)
  {
    var calls := P.HelperCalls(pub, msg, self);
    forall k | k in pub.helperObservers && Answers(w, k, msg) ensures Answered(w, calls, k) {
      var i :| 0 <= i < |calls| && calls[i].target == k;
      assert calls[i].msg == msg;
    }
    forall k | Answered(w, calls, k) ensures k in pub.helperObservers && Answers(w, k, msg) {
      var i :| 0 <= i < |calls| && calls[i].target == k && Answers(w, k, calls[i].msg);
      assert calls[i].msg == msg;
    }
  }

  // ---------------------------------------------------------------- leader drone

  /** `LeaderDrone::getNextDelivery`: like the plain drone's, but with the leader's
      own flags; the package pointer lives in the `Drone` part. */
  function LeaderNextDelivery(w: World, l: Leader): (r: Result<Outcome<Leader>>)
    ensures r.Ok? ==> SlotsKept(w, r.value.world)
    ensures !l.body.linked || w.queue == [] ==> r == Ok(Outcome(w, l))
    ensures l.body.linked && w.queue != [] && !IsPackage(w, w.queue[0]) ==> r == Crash(Dangling(w.queue[0]))
    ensures (l.body.linked && w.queue != [] && IsPackage(w, w.queue[0])
             && l.body.pub.observers == {ModelObserver}) ==> r.Ok?
    ensures r.Ok? && l.body.linked && w.queue != [] ==>
      var p := w.entities[w.queue[0]].value.pkg;
      && r.value.world.queue == w.queue[1..]
      && r.value.world.entities == w.entities
      && r.value.drone == l.(base := l.base.(package := Some(w.queue[0])),
                             available := false, pickedUp := false,
                             toPackage := Some(Leg(l.body.position, p.position)),
                             toFinal := Some(Leg(p.position, p.destination)))
  {
    if !l.body.linked || w.queue == [] then Ok(Outcome(w, l))
    else
      var pid := w.queue[0];
      var w1 := w.(queue := w.queue[1..]);
      var p :- GetPackage(w1, pid);
      var w2 :- Announce(w1, l.body.pub, HeadingTo(l.body.name, p.name));
      Ok(Outcome(w2, l.(base := l.base.(package := Some(pid)),
                        available := false, pickedUp := false,
                        toPackage := Some(Leg(l.body.position, p.position)),
                        toFinal := Some(Leg(p.position, p.destination)))))
  }

  /** The start of a leader's tick: the timestep, the distance bookkeeping and the
      first drain; a new job when free and above the critical level; a trip to the
      charger when free, at or below it, and not carrying. */
  function LeaderBegin(w: World, l: Leader, g: Geometry, dt: real): (r: Result<Outcome<Leader>>)
    ensures r.Ok? ==> SlotsKept(w, r.value.world)
    ensures r.Ok? ==> r.value.drone.battery == B.Deplete(l.battery, dt)
    ensures r.Ok? ==> r.value.drone.body == l.body && r.value.drone.responses == l.responses
    ensures r.Ok? && r.value.world.queue != w.queue ==>
      && w.queue != []
      && multiset(w.queue) == multiset(r.value.world.queue) + Bag(r.value.drone.base.package)
      && r.value.drone.toPackage.Some? && r.value.drone.battery > B.CriticalBattery
    ensures r.Ok? && r.value.world.queue == w.queue ==> r.value.drone.base == l.base
    ensures r.Ok? && l.available && B.Deplete(l.battery, dt) <= B.CriticalBattery && !l.pickedUp ==>
      && !r.value.drone.available
      && r.value.drone.toCharger == Some(Leg(l.body.position, ChargingStation))
    ensures r.Ok? ==> SameFlags(l.base, r.value.drone.base)
  {
    var total := Travelled(g, l.distance, l.lastPosition, l.body.position);
    var w0 := Log(w, TickLogs(l.body.id, total));
    var l0 := l.(lastPosition := l.body.position, distance := total, battery := B.Deplete(l.battery, dt));
    var o :- if l0.available && l0.battery > B.CriticalBattery then LeaderNextDelivery(w0, l0)
             else Ok(Outcome(w0, l0));
    assert w.queue != [] ==> w.queue == [w.queue[0]] + w.queue[1..];
    var l1 := o.drone;
    var l2 := if l1.available && l1.battery <= B.CriticalBattery && !l1.pickedUp
              then l1.(available := false, toCharger := Some(Leg(l1.body.position, ChargingStation)))
              else l1;
    Ok(Outcome(o.world, l2))
  }

  /** The pick-up branch; the leader has already moved. The message and the
      picked-up mark go to the package the leader held when its tick began. */
  function LeaderPickup(w: World, l: Leader, snapshot: Option<Id>, m: Motion): (r: Result<Outcome<Leader>>)
    ensures r.Ok? ==> SlotsKept(w, r.value.world)
    ensures !m.completed ==> r == Ok(Outcome(w, l))
    ensures m.completed && snapshot.None? ==> r == Crash(NullPackage(l.body.id))
    ensures r.Ok? ==> r.value.world.queue == w.queue
    ensures r.Ok? && m.completed ==>
      && r.value.drone == l.(toPackage := None, pickedUp := true)
      && snapshot.Some? && IsPackage(w, snapshot.value)
      && r.value.world.entities == w.entities[snapshot.value := Some(PackageEntity(
           MarkPickedUp(w.entities[snapshot.value].value.pkg)))]
  {
    if !m.completed then Ok(Outcome(w, l))
    else
      var pid :- Held(snapshot, l.body.id);
      var p :- GetPackage(w, pid);
      var w1 := PutPackage(w, pid, MarkPickedUp(p));
      var w2 :- Announce(w1, l.body.pub, PickedUpMsg(l.body.name, p.name));
      Ok(Outcome(w2, l.(toPackage := None, pickedUp := true)))
  }

  /** The delivery branch; the leader has already moved. A carried package follows
      and costs a second drain; on arrival the drop-off happens. */
  function LeaderDeliver(w: World, l: Leader, snapshot: Option<Id>, dt: real, m: Motion): (r: Result<Outcome<Leader>>)
    ensures r.Ok? ==> SlotsKept(w, r.value.world)
    ensures r.Ok? ==> r.value.world.queue == w.queue
    ensures r.Ok? ==> r.value.drone.battery == (if snapshot.Some? && l.pickedUp then B.Deplete(l.battery, dt) else l.battery)
    ensures r.Ok? && !m.completed ==> r.value.drone == l.(battery := r.value.drone.battery)
    ensures m.completed && snapshot.None? ==> r == Crash(NullPackage(l.body.id))
    ensures r.Ok? && m.completed ==>
      && r.value.drone == l.(battery := r.value.drone.battery, toFinal := None,
                             base := l.base.(package := None), available := true, pickedUp := false)
      && IsPackage(r.value.world, snapshot.value)
      && r.value.world.entities[snapshot.value].value.pkg.delivered
  {
    var carrying := snapshot.Some? && l.pickedUp;
    var l1 := if carrying then l.(battery := B.Deplete(l.battery, dt)) else l;
    var w1 :- if carrying then Follow(w, snapshot.value, l.body) else Ok(w);
    if !m.completed then Ok(Outcome(w1, l1)) else LeaderDropOff(w1, l1, snapshot)
  }

  /** The leader arrives at the destination: the drop-off is announced and logged,
      the owner receives the package, the package is marked delivered, and the
      leader lets go of it and is free again. */
  function LeaderDropOff(w: World, l: Leader, snapshot: Option<Id>): (r: Result<Outcome<Leader>>)
    ensures r.Ok? ==> SlotsKept(w, r.value.world)
    ensures snapshot.None? ==> r == Crash(NullPackage(l.body.id))
    ensures snapshot.Some? && !IsPackage(w, snapshot.value) ==> r == Crash(Dangling(snapshot.value))
    ensures r.Ok? ==> r.value.world.queue == w.queue
    ensures r.Ok? ==>
      && r.value.drone == l.(toFinal := None, base := l.base.(package := None), available := true, pickedUp := false)
      && IsPackage(r.value.world, snapshot.value)
      && r.value.world.entities[snapshot.value].value.pkg.delivered
  {
    var pid :- Held(snapshot, l.body.id);
    var p :- GetPackage(w, pid);
    var w1 :- LeaderHandOver(w, l, pid, p);
    Ok(Outcome(w1, l.(toFinal := None, base := l.base.(package := None), available := true, pickedUp := false)))
  }

  /** The world side of the leader's drop-off of package `pid`, read as `p`: the
      drop-off is announced and logged, the owner receives the package and it is
      marked delivered. */
  function LeaderHandOver(w: World, l: Leader, pid: Id, p: Package): (r: Result<World>)
    requires IsPackage(w, pid)
    ensures r.Ok? ==> SlotsKept(w, r.value) && r.value.queue == w.queue
    ensures r.Ok? ==> IsPackage(r.value, pid) && r.value.entities[pid].value.pkg == MarkDelivered(p)
  {
    var w3 :- ReportDropOff(w, l, p);
    assert IsPackage(w3, pid);
    Deliver(w3, pid, p)
  }

  /** `handOff` to the package's owner, then `DeliveredPackage`: the owner holds
      package `pid`, which is marked delivered; no slot or queue entry changes. */
  function Deliver(w: World, pid: Id, p: Package): (r: Result<World>)
    requires IsPackage(w, pid)
    ensures r.Ok? ==> SlotsKept(w, r.value) && r.value.queue == w.queue
    ensures r.Ok? ==> IsPackage(r.value, pid) && r.value.entities[pid].value.pkg == MarkDelivered(p)
    ensures r.Ok? <==> HandOff(w, pid, p).Ok?
  {
    var w1 :- HandOff(w, pid, p);
    Ok(PutPackage(w1, pid, MarkDelivered(p)))
  }

  /** The drop-off is announced to the leader's observers and counted in telemetry;
      only the view's messages and the telemetry store change. */
  function ReportDropOff(w: World, l: Leader, p: Package): (r: Result<World>)
    ensures r.Ok? ==> r.value.(notes := w.notes, log := w.log) == w
    ensures r.Ok? ==> r.value.log == T.LogAll(w.log, [T.LogCall(l.body.id, PackagesDelivered, 1.0)])
  {
    var w2 :- Announce(w, l.body.pub, DroppedOffMsg(l.body.name, p.name));
    Ok(Log(w2, [T.LogCall(l.body.id, PackagesDelivered, 1.0)]))
  }

  /** The charger branch; the leader has already moved. On arrival the battery is
      refilled, which never returns when `dt` is not positive. */
  function LeaderCharge(w: World, l: Leader, snapshot: Option<Id>, dt: real, m: Motion): (r: Result<Outcome<Leader>>)
    ensures r.Ok? ==> SlotsKept(w, r.value.world)
    ensures r.Ok? ==> r.value.world.queue == w.queue && r.value.drone.base == l.base
    ensures r.Ok? && !m.completed ==> r.value.drone == l
    ensures m.completed && !B.ChargeTerminates(l.battery, dt) ==> r.Crash?
    ensures r.Crash? ==> r.fault == ChargeHang(l.body.id) || (snapshot.Some? && r.fault == Dangling(snapshot.value))
    ensures r.Ok? && m.completed ==>
      && r.value.drone.battery == B.MaxBattery && r.value.drone.toCharger.None?
      && (r.value.drone.available <==> l.available || !l.pickedUp)
  {
    var w1 :- if snapshot.Some? && l.pickedUp then Follow(w, snapshot.value, l.body) else Ok(w);
    if !m.completed then Ok(Outcome(w1, l))
    else if !B.ChargeTerminates(l.battery, dt) then Crash(ChargeHang(l.body.id))
    else
      var charged := B.Charged(l.battery, dt);
      Ok(Outcome(w1, l.(toCharger := None, battery := charged, available := if !l.pickedUp then true else l.available)))
  }

  /** Giving up on a pick-up at critical battery: the view is told, the package the
      leader held is pushed back and the queue re-sorted, and the leg to it dropped. */
  function Abandon(w: World, l: Leader, snapshot: Option<Id>): (r: Result<Outcome<Leader>>)
    ensures r.Ok? ==> SlotsKept(w, r.value.world)
    ensures snapshot.None? ==> r == Ok(Outcome(Say(w, AbandonMsg(l.body.name)), l.(toPackage := None)))
    ensures r.Ok? && snapshot.Some? ==>
      && multiset(r.value.world.queue) == multiset(w.queue) + multiset{snapshot.value}
      && QueueSorted(r.value.world)
      && r.value.world.entities == w.entities
      && r.value.drone == l.(toPackage := None, base := l.base.(package := None))
    ensures r.Crash? ==> snapshot.Some? && |w.queue| >= 1
  {
    var w1 := Say(w, AbandonMsg(l.body.name));
    if snapshot.None? then Ok(Outcome(w1, l.(toPackage := None)))
    else
      var w2 :- SortQueue(w1.(queue := w1.queue + [snapshot.value]));
      Ok(Outcome(w2, l.(toPackage := None, base := l.base.(package := None))))
  }

  /** The handoff attempt at critical (but not emergency) battery while carrying:
      broadcast the request and log it, then hand the package to the closest helper
      that has ever answered; when none has, broadcast again. */
  function RequestHandoff(w: World, l: Leader, g: Geometry): (r: Result<Outcome<Leader>>)
    ensures r.Ok? ==> SlotsKept(w, r.value.world)
    ensures r.Ok? ==> r.value.world.queue == w.queue
    ensures r.Ok? ==> r.value.drone.(responses := l.responses, base := l.base) == l
    ensures r.Ok? ==> r.value.drone.base == l.base || r.value.drone.base == l.base.(package := None)
    ensures r.Ok? && r.value.drone.base != l.base ==>
      var h := H.SelectClosest(r.value.drone.responses);
      && h.Some? && IsHelperEntity(r.value.world, h.value)
      && HelperAt(r.value.world, h.value).base.package == l.base.package
    ensures r.Ok? && l.responses == map[]
         && (forall k :: k in l.body.pub.helperObservers && IsHelperEntity(w, k) ==> !HelperAt(w, k).available)
      ==> r.value.drone.base == l.base
    ensures r.Ok? ==> forall k :: k in l.responses ==> k in r.value.drone.responses
    ensures r.Ok? && (l.responses != map[]
                      || exists k :: k in l.body.pub.helperObservers && Answers(w, k, HandoffRequest(l.body.name)))
      ==> r.value.drone.base == l.base.(package := None)
  {
    var o :- Broadcast(w, g, l, HandoffRequest(l.body.name));
    AnsweredMeansResponses(w, l, HandoffRequest(l.body.name), o.drone.responses);
    var w1 := Log(o.world, [T.LogCall(l.body.id, HandoffRequests, 1.0)]);
    AcceptHandoff(w1, o.drone, g)
  }

  /** Earlier answers and fresh ones both leave an entry in the responses. */
  lemma AnsweredMeansResponses(w: World, l: Leader, msg: string, resp: map<Id, real>)
    requires forall k :: k in resp <==> k in l.responses || (k in l.body.pub.helperObservers && Answers(w, k, msg))
    ensures (l.responses != map[] || exists k :: k in l.body.pub.helperObservers && Answers(w, k, msg)) ==> resp != map[]
  {
    if l.responses != map[] {
      if forall k :: k !in l.responses {
        assert false;
      }
      var k :| k in l.responses;
      assert k in resp;
    } else if exists k :: k in l.body.pub.helperObservers && Answers(w, k, msg) {
      var k :| k in l.body.pub.helperObservers && Answers(w, k, msg);
      assert k in resp;
    }
  }

  /** After the request: the closest helper that has answered is told it accepted,
      logged, and given the package, which the leader lets go of; when no helper has
      ever answered, the leader broadcasts again and keeps the package. */
  function AcceptHandoff(w: World, l: Leader, g: Geometry): (r: Result<Outcome<Leader>>)
    ensures r.Ok? ==> SlotsKept(w, r.value.world) && r.value.world.queue == w.queue
    ensures r.Ok? ==> r.value.drone.(responses := l.responses, base := l.base) == l
    ensures r.Ok? ==> forall k :: k in l.responses ==> k in r.value.drone.responses
    ensures r.Ok? && l.responses != map[] ==>
      var h := H.SelectClosest(l.responses).value;
      && r.value.drone.responses == l.responses
      && r.value.drone.base == l.base.(package := None)
      && IsHelperEntity(r.value.world, h) && HelperAt(r.value.world, h).base.package == l.base.package
    ensures r.Ok? && l.responses == map[] ==> r.value.drone.base == l.base
    ensures l.responses != map[] && !IsHelperEntity(w, H.SelectClosest(l.responses).value) ==>
      r == Crash(Dangling(H.SelectClosest(l.responses).value))
  {
    match H.SelectClosest(l.responses)
    case Some(h) =>
      if !IsHelperEntity(w, h) then Crash(Dangling(h))
      else
        var w2 := Log(w, [T.LogCall(h, HandoffAccepts, 1.0)]);
        var w3 := Say(w2, HandoffAccepted(HelperAt(w, h).body.name, l.body.name));
        var w4 :- HelperNextDelivery(w3, h, l.base.package);
        Ok(Outcome(w4, l.(base := l.base.(package := None))))
    case None =>
      Broadcast(w, g, l, HandoffRetry(l.body.name))
  }

  /** What the critical branch does about the package: a carried package is handed
      off (or, at emergency level, kept while the view is told); a pick-up under
      way is abandoned. */
  function CriticalResponse(w: World, l: Leader, snapshot: Option<Id>, g: Geometry): (r: Result<Outcome<Leader>>)
    ensures r.Ok? ==> SlotsKept(w, r.value.world)
    ensures r.Ok? ==> r.value.drone.(responses := l.responses, base := l.base, toPackage := l.toPackage) == l
    ensures r.Ok? ==> multiset(w.queue) <= multiset(r.value.world.queue)
    ensures snapshot.Some? && l.pickedUp && l.battery <= B.EmergencyBattery ==>
      r == Ok(Outcome(Say(w, EmergencyMsg(l.body.name)), l))
    ensures r.Ok? && !l.pickedUp && l.toPackage.Some? ==>
      && r.value.drone.toPackage.None?
      && (snapshot.Some? ==> snapshot.value in r.value.world.queue && r.value.drone.base.package.None?)
    ensures r.Ok? ==> SameFlags(l.base, r.value.drone.base)
  {
    if snapshot.Some? && l.pickedUp then
      if l.battery > B.EmergencyBattery then RequestHandoff(w, l, g)
      else Ok(Outcome(Say(w, EmergencyMsg(l.body.name)), l))
    else if l.toPackage.Some? && !l.pickedUp then
      var r := Abandon(w, l, snapshot);
      assert r.Ok? && snapshot.Some? ==> snapshot.value in multiset(r.value.world.queue);
      r
    else Ok(Outcome(w, l))
  }

  /** The critical branch: the leader stops taking work, deals with its package,
      and heads for the charger with nothing in hand. */
  function LeaderCritical(w: World, l: Leader, snapshot: Option<Id>, g: Geometry): (r: Result<Outcome<Leader>>)
    ensures r.Ok? ==> SlotsKept(w, r.value.world)
    ensures r.Ok? ==>
      && !r.value.drone.available && !r.value.drone.pickedUp
      && r.value.drone.toCharger == Some(Leg(l.body.position, ChargingStation))
      && r.value.drone.battery == l.battery && r.value.drone.body == l.body
    ensures r.Ok? ==> multiset(w.queue) <= multiset(r.value.world.queue)
    ensures snapshot.Some? && l.pickedUp && l.battery <= B.EmergencyBattery ==>
      r == Ok(Outcome(Say(w, EmergencyMsg(l.body.name)),
                      l.(available := false, pickedUp := false,
                         toCharger := Some(Leg(l.body.position, ChargingStation)))))
    ensures r.Ok? && !l.pickedUp && l.toPackage.Some? ==>
      && r.value.drone.toPackage.None?
      && (snapshot.Some? ==> snapshot.value in r.value.world.queue && r.value.drone.base.package.None?)
    ensures r.Ok? ==> SameFlags(l.base, r.value.drone.base)
  {
    match CriticalResponse(w, l.(available := false), snapshot, g)
    case Crash(f) => Crash(f)
    case Ok(o) =>
      Ok(Outcome(o.world, o.drone.(pickedUp := false, toCharger := Some(Leg(o.drone.body.position, ChargingStation)))))
  }

  /** The second half of a leader's tick: exactly one of the pick-up, delivery,
      charger and critical branches, in that order of precedence. */
  function LeaderAct(w: World, l: Leader, snapshot: Option<Id>, g: Geometry, dt: real, m: Motion): (r: Result<Outcome<Leader>>)
    ensures r.Ok? ==> SlotsKept(w, r.value.world)
    ensures r.Ok? ==> multiset(w.queue) <= multiset(r.value.world.queue)
    ensures r.Ok? && l.toPackage.Some? && l.battery > B.CriticalBattery ==>
      r.value.world.queue == w.queue && r.value.drone.base == l.base
    ensures r.Ok? && 0.0 <= l.battery <= B.MaxBattery && dt >= 0.0 ==>
      0.0 <= r.value.drone.battery <= B.MaxBattery
    ensures r.Ok? ==> r.value.drone.body.id == l.body.id
    ensures r.Ok? ==> SameFlags(l.base, r.value.drone.base)
  {
    if l.toPackage.Some? && l.battery > B.CriticalBattery then
      LeaderPickup(w, l.(body := Moved(l.body, m)), snapshot, m)
    else if l.toFinal.Some? && l.battery > B.CriticalBattery && l.pickedUp then
      var r := LeaderDeliver(w, l.(body := Moved(l.body, m)), snapshot, dt, m);
      if r.Ok? && 0.0 <= l.battery <= B.MaxBattery && dt >= 0.0 then
        B.DepleteStaysInRange(l.battery, dt);
        r
      else r
    else if l.toCharger.Some? then
      LeaderCharge(w, l.(body := Moved(l.body, m)), snapshot, dt, m)
    else if l.battery <= B.CriticalBattery then
      LeaderCritical(w, l, snapshot, g)
    else Ok(Outcome(w, l))
  }

  /** `LeaderDrone::update`. The package pointer is read once at the start of the
      tick, and that reading is what the branches use. */
  function LeaderUpdate(w: World, l: Leader, g: Geometry, dt: real, m: Motion): (r: Result<Outcome<Leader>>)
    ensures r.Ok? ==> SlotsKept(w, r.value.world)
    ensures r.Ok? ==> r.value.drone.body.id == l.body.id
    ensures r.Ok? && 0.0 <= l.battery <= B.MaxBattery && dt >= 0.0 ==>
      0.0 <= r.value.drone.battery <= B.MaxBattery
    ensures r.Ok? ==> multiset(w.queue) <= multiset(r.value.world.queue) + Bag(r.value.drone.base.package)
    ensures r.Ok? ==> SameFlags(l.base, r.value.drone.base)
  {
    var o :- LeaderBegin(w, l, g, dt);
    assert 0.0 <= l.battery <= B.MaxBattery && dt >= 0.0 ==> 0.0 <= o.drone.battery <= B.MaxBattery by {
      if 0.0 <= l.battery <= B.MaxBattery && dt >= 0.0 { B.DepleteStaysInRange(l.battery, dt); }
    }
    var r := LeaderAct(o.world, o.drone, l.base.package, g, dt, m);
    assert r.Ok? ==> multiset(w.queue) <= multiset(r.value.world.queue) + Bag(r.value.drone.base.package) by {
      if r.Ok? && o.world.queue != w.queue {
        assert multiset(w.queue) == multiset(o.world.queue) + Bag(o.drone.base.package);
      }
    }
    r
  }
}
