/**
  One `update(dt)` call on one entity: down through its decorator layers to the
  concrete entity. An ATC layer with a pending reroute leg moves the entity along
  that leg and does not pass the tick on; otherwise it passes it on. A colour layer
  first passes the tick on and then recolours from what it reads back.
 */
module Dispatch {
  import opened Common
  import opened Entities
  import opened Model
  import P = Publisher
  import T = Telemetry
  import Colour
  import Reroute
  import Roaming
  import Drones

  /** One element of a chain's make-up, outermost first. */
  datatype Part = ColourPart | AtcPart(kind: Reroute.Kind) | CorePart(tag: nat)

  function CoreTag(k: Core): nat {
    match k
    case LeaderCore(_) => 0
    case HelperCore(_) => 1
    case DroneCore(_) => 2
    case HelicopterCore(_) => 3
    case HumanCore(_) => 4
    case AirplaneCore(_) => 5
    case StationCore(_) => 6
  }

  /** The layers of a chain and the kind of entity at its core. */
  function Shape(c: Chain): seq<Part> {
    match c
    case Bare(k) => [CorePart(CoreTag(k))]
    case Wrap(ColourLayer(_), s) => [ColourPart] + Shape(s)
    case Wrap(AtcLayer(kind, _, _), s) => [AtcPart(kind)] + Shape(s)
  }

  /** The `Drone` members of a drone; other entities have none. */
  function DroneBaseOf(k: Core): Option<DroneBase> {
    match k
    case LeaderCore(l) => Some(l.base)
    case HelperCore(h) => Some(h.base)
    case DroneCore(d) => Some(d.base)
    case _ => None
  }

  /** The package a chain's drone points at, if any. */
  function Carried(c: Chain): Option<Id> {
    var b := DroneBaseOf(Innermost(c));
    if b.Some? then b.value.package else None
  }

  /** What the colour decorator's `dynamic_cast`s find. */
  function KindOf(k: Core): Colour.DroneKind {
    match k
    case LeaderCore(_) => Colour.LeaderKind
    case HelperCore(_) => Colour.HelperKind
    case _ => Colour.GenericKind
  }

  /** The leader and the helper never write the `Drone`-level flags: whatever `b`
      holds in them, `a` held too. */
  predicate ShadowsKept(a: Core, b: Core) {
    (a.LeaderCore? || a.HelperCore?) ==>
      CoreTag(b) == CoreTag(a) && Drones.SameFlags(DroneBaseOf(a).value, DroneBaseOf(b).value)
  }

  /** `notifyObservers` once per message, in order. */
  function AnnounceAll(w: World, pub: P.Publisher, msgs: seq<string>): (r: Result<World>)
    ensures pub.observers == {ModelObserver} ==> r == Ok(w.(notes := w.notes + msgs))
    ensures r.Ok? ==> r.value.(notes := w.notes) == w
    decreases |msgs|
  {
    if msgs == [] then
      assert w.notes + msgs == w.notes;
      Ok(w)
    else
      match Announce(w, pub, msgs[0])
      case Crash(f) => Crash(f)
      case Ok(w1) =>
        var r := AnnounceAll(w1, pub, msgs[1..]);
        NotesOnly(w, w1, r);
        if pub.observers == {ModelObserver} then
          assert w.notes + msgs == (w.notes + [msgs[0]]) + msgs[1..];
          r
        else r
  }

  /** Two steps that each change only the messages change only the messages. */
  lemma NotesOnly(w: World, w1: World, r: Result<World>)
    requires w1.(notes := w.notes) == w
    requires r.Ok? ==> r.value.(notes := w1.notes) == w1
    ensures r.Ok? ==> r.value.(notes := w.notes) == w
  {
  }

  /** What a tick of an entity with no package logic does to the world: its log
      calls and its announcements. */
  function Effects(w: World, pub: P.Publisher, logs: seq<T.LogCall>, said: seq<string>): (r: Result<World>)
    ensures r.Ok? ==> r.value.(log := w.log, notes := w.notes) == w
    ensures r.Ok? ==> r.value.log == T.LogAll(w.log, logs)
    ensures pub.observers == {ModelObserver} ==> r.Ok? && r.value.notes == w.notes + said
  {
    AnnounceAll(Log(w, logs), pub, said)
  }

  /** The concrete entity's own `update(dt)`. */
  function UpdateCore(w: World, k: Core, t: Tick): (r: Result<Drones.Outcome<Core>>)
    ensures r.Ok? ==> SlotsKept(w, r.value.world)
    ensures r.Ok? ==> CoreTag(r.value.drone) == CoreTag(k) && CoreBody(r.value.drone).id == CoreBody(k).id
    ensures r.Ok? ==> ShadowsKept(k, r.value.drone)
    ensures r.Ok? ==>
      multiset(w.queue) <= multiset(r.value.world.queue) + Drones.Bag(Carried(Bare(r.value.drone)))
    ensures r.Ok? && DroneBaseOf(k).None? ==>
      r.value.world.(log := w.log, notes := w.notes) == w
    ensures DroneBaseOf(k).None? && CoreBody(k).pub.observers == {ModelObserver} ==> r.Ok?
  {
    var id := CoreBody(k).id;
    var m := t.motion(id);
    match k
    case LeaderCore(l) =>
      var o :- Drones.LeaderUpdate(w, l, t.geo, t.dt, m);
      Ok(Drones.Outcome(o.world, LeaderCore(o.drone)))
    case HelperCore(h) =>
      var o :- Drones.HelperUpdate(w, h, t.geo, m);
      Ok(Drones.Outcome(o.world, HelperCore(o.drone)))
    case DroneCore(d) =>
      var o :- Drones.GenericUpdate(w, d, t.geo, m);
      Ok(Drones.Outcome(o.world, DroneCore(o.drone)))
    case HelicopterCore(h) =>
      var s := Roaming.HelicopterUpdate(h, t.geo, m, t.draws(id));
      var w1 :- Effects(w, h.body.pub, s.logs, s.said);
      Ok(Drones.Outcome(w1, HelicopterCore(s.next)))
    case HumanCore(h) =>
      var s := Roaming.HumanUpdate(h, t.geo, m, t.draws(id));
      var w1 :- Effects(w, h.body.pub, s.logs, s.said);
      Ok(Drones.Outcome(w1, HumanCore(s.next)))
    case AirplaneCore(a) =>
      // the airplane announces nothing
      var s := Roaming.AirplaneUpdate(a, t.geo, m, t.draws(id));
      Ok(Drones.Outcome(Log(w, s.logs), AirplaneCore(s.next)))
    case StationCore(b) =>
      Ok(Drones.Outcome(Log(w, Roaming.LogOnlyUpdate(b.id)), k))
  }

  /** What the colour decorator reads from a package it holds a pointer to. */
  function Sighting(w: World, pkg: Option<Id>): (r: Result<Option<Colour.Tracked>>)
    ensures pkg.None? ==> r == Ok(None)
    ensures pkg.Some? ==> (r.Ok? <==> IsPackage(w, pkg.value))
    ensures r.Ok? && pkg.Some? ==>
      && r.value.Some?
      && r.value.value.position == w.entities[pkg.value].value.pkg.position
      && r.value.value.destination == w.entities[pkg.value].value.pkg.destination
  {
    match pkg
    case None => Ok(None)
    case Some(pid) =>
      var p :- GetPackage(w, pid);
      Ok(Some(Colour.Tracked(p.position, p.destination)))
  }

  /** The drone ATC decorator's look through its colour decorator at the drone's
      package. A wrapped entity that is not a colour-decorated drone gives a null
      pointer, which is then dereferenced. */
  function ReroutedPackage(sub: Chain, id: Id): (r: Result<Option<Id>>)
    ensures r.Ok? <==> sub.Wrap? && sub.layer.ColourLayer? && DroneBaseOf(Innermost(sub)).Some?
    ensures r.Ok? ==> r.value == Carried(sub)
  {
    if sub.Wrap? && sub.layer.ColourLayer? && DroneBaseOf(Innermost(sub)).Some? then Ok(Carried(sub))
    else Crash(Miswired(id))
  }

  /** The core of `sub` after a leg's `setPosition` and `setDirection`. */
  function Steered(sub: Chain, m: Motion): (r: Chain)
    ensures Shape(r) == Shape(sub) && Carried(r) == Carried(sub)
    ensures Innermost(r) == WithCoreBody(Innermost(sub),
      CoreBody(Innermost(sub)).(position := m.position, direction := m.direction))
    ensures GetId(r) == GetId(sub)
  {
    var k := WithCoreBody(Innermost(sub), CoreBody(Innermost(sub)).(position := m.position, direction := m.direction));
    ReplaceCoreKeepsShape(sub, k);
    GettersReachInnermost(sub);
    GettersReachInnermost(WithInnermost(sub, k));
    WithInnermost(sub, k)
  }

  /** Swapping the core for one of the same kind keeps the chain's make-up. */
  lemma {:induction false} ReplaceCoreKeepsShape(c: Chain, k: Core)
    requires CoreTag(k) == CoreTag(Innermost(c))
    ensures Shape(WithInnermost(c, k)) == Shape(c)
  {
    match c
    case Bare(_) =>
    case Wrap(_, s) => ReplaceCoreKeepsShape(s, k);
  }

  /** The text an ATC decorator sends when a reroute ends outside the window. */
  function FinishedReroute(name: string): string { name + " finished reroute" }

  /** `update(dt)` on a decorator chain. */
  function UpdateChain(w: World, c: Chain, t: Tick): (r: Result<Drones.Outcome<Chain>>)
    ensures r.Ok? ==> SlotsKept(w, r.value.world)
    ensures r.Ok? ==> Shape(r.value.drone) == Shape(c) && GetId(r.value.drone) == GetId(c)
    ensures r.Ok? ==> ShadowsKept(Innermost(c), Innermost(r.value.drone))
    ensures r.Ok? ==>
      multiset(w.queue) <= multiset(r.value.world.queue) + Drones.Bag(Carried(r.value.drone))
    ensures r.Ok? && c.Wrap? && c.layer.AtcLayer? && c.layer.atc.leg.Some? ==>
      var m := t.motion(GetId(c));
      && Innermost(r.value.drone) == WithCoreBody(Innermost(c),
           CoreBody(Innermost(c)).(position := m.position, direction := m.direction))
      && r.value.world.queue == w.queue && r.value.world.log == w.log
    ensures r.Ok? && c.Wrap? && c.layer.AtcLayer? ==>
      r.value.drone.Wrap? && r.value.drone.layer.AtcLayer? && r.value.drone.layer.ownPickedUp == c.layer.ownPickedUp
    ensures r.Ok? && c.Wrap? && c.layer.AtcLayer? && c.layer.atc.leg.None? ==>
      r.value.drone.Wrap? && r.value.drone.layer.AtcLayer? && r.value.drone.layer.atc == c.layer.atc.(timeSinceReroute := c.layer.atc.timeSinceReroute + t.dt)
    decreases c
  {
    match c
    case Bare(k) =>
      var o :- UpdateCore(w, k, t);
      Ok(Drones.Outcome(o.world, Bare(o.drone)))
    case Wrap(ColourLayer(col), sub) =>
      (match UpdateChain(w, sub, t)
       case Crash(f) => Crash(f)
       case Ok(o) => Recolour(o, col, t, GetId(c)))
    case Wrap(AtcLayer(kind, s, own), sub) =>
      var m := t.motion(GetId(c));
      match Reroute.Tick(s, t.dt, m.completed)
      case Delegate(s') =>
        (match UpdateChain(w, sub, t)
         case Crash(f) => Crash(f)
         case Ok(o) => Ok(Drones.Outcome(o.world, Wrap(AtcLayer(kind, s', own), o.drone))))
      case Rerouting(s', announce) => Deflect(w, kind, s', own, sub, m, announce, GetId(c))
  }

  /** The colour decorator's tick after the entity it wraps has moved: the colour is
      worked out from the drone's flags and a sighting of its package. A wrapped entity
      that is not a drone gives a null pointer. */
  function Recolour(o: Drones.Outcome<Chain>, col: Colour.State, t: Tick, id: Id): (r: Result<Drones.Outcome<Chain>>)
    ensures r.Ok? ==> r.value.world == o.world
    ensures r.Ok? ==> r.value.drone.Wrap? && r.value.drone.layer.ColourLayer? && r.value.drone.sub == o.drone
  {
    var k := Innermost(o.drone);
    if DroneBaseOf(k).None? then Crash(Miswired(id))
    else
      var base := DroneBaseOf(k).value;
      var seen :- Sighting(o.world, base.package);
      var col' := Colour.Update(col, KindOf(k), seen, base.available, base.pickedUp, t.geo, CoreBody(k).position);
      Ok(Drones.Outcome(o.world, Wrap(ColourLayer(col'), o.drone)))
  }

  /** An ATC decorator's tick while it reroutes: the entity is steered along the
      reroute leg, a drone's package follows it when this decorator did the pickup,
      and the end of the leg is announced. */
  function Deflect(w: World, kind: Reroute.Kind, s: Reroute.State, own: bool, sub: Chain, m: Motion,
                   announce: bool, id: Id): (r: Result<Drones.Outcome<Chain>>)
    ensures r.Ok? ==> SlotsKept(w, r.value.world)
    ensures r.Ok? ==> r.value.world.queue == w.queue && r.value.world.log == w.log
    ensures r.Ok? ==> r.value.drone == Wrap(AtcLayer(kind, s, own), Steered(sub, m))
  {
    var pkg :- if kind == Reroute.DroneAtc then ReroutedPackage(sub, id) else Ok(None);
    var moved := Steered(sub, m);
    var w1 :- if pkg.Some? && own then Drones.Follow(w, pkg.value, CoreBody(Innermost(moved))) else Ok(w);
    var w2 :- if announce then Announce(w1, CoreBody(Innermost(moved)).pub, FinishedReroute(GetName(moved)))
              else Ok(w1);
    Ok(Drones.Outcome(w2, Wrap(AtcLayer(kind, s, own), moved)))
  }

  /** A colour-decorated leader or helper whose `Drone`-level flags are as the
      constructor left them (available, not picked up) never shows purple or pink:
      without a package it shows blue (leader) or cyan (helper), with one only the
      red-to-yellow hues. */
  lemma ShadowedDroneColours(w: World, col: Colour.State, sub: Chain, t: Tick)
    requires Innermost(sub).LeaderCore? || Innermost(sub).HelperCore?
    requires DroneBaseOf(Innermost(sub)).value.available && !DroneBaseOf(Innermost(sub)).value.pickedUp
    requires UpdateChain(w, Wrap(ColourLayer(col), sub), t).Ok?
    ensures var c' := UpdateChain(w, Wrap(ColourLayer(col), sub), t).value.drone;
      && c'.Wrap? && c'.layer.ColourLayer?
      && c'.layer.colour.hue != 270.0 && c'.layer.colour.hue != 300.0
      && (Carried(c').None? && Innermost(sub).LeaderCore? ==> c'.layer.colour.hue == 240.0)
      && (Carried(c').None? && Innermost(sub).HelperCore? ==> c'.layer.colour.hue == 180.0)
      && (Carried(c').Some? ==> 0.0 <= c'.layer.colour.hue <= 60.0)
  {
    var o := UpdateChain(w, sub, t).value;
    var k := Innermost(o.drone);
    var seen := Sighting(o.world, DroneBaseOf(k).value.package).value;
    Colour.ShadowedFlagsPinColours(col, KindOf(k), seen, t.geo, CoreBody(k).position);
  }

  /** `update(dt)` on whatever a slot of the entity map holds. Robots log a
      timestep; packages log one in the team copy and do nothing in the service copy. */
  function UpdateEntity(w: World, id: Id, e: Entity, t: Tick): (r: Result<World>)
    ensures r.Ok? && Live(w, id) ==> SlotsKept(w, r.value)
    ensures !e.Active? ==> r.Ok? && r.value.(log := w.log) == w
    ensures e.RobotEntity? || (e.PackageEntity? && w.variant == Packages.Team) ==>
      r.Ok? && r.value.log == T.LogAll(w.log, Roaming.LogOnlyUpdate(id))
    ensures e.PackageEntity? && w.variant == Packages.Service ==> r == Ok(w)
    ensures r.Ok? && e.Active? ==>
      && id in r.value.entities && r.value.entities[id].Some? && r.value.entities[id].value.Active?
      && Shape(r.value.entities[id].value.chain) == Shape(e.chain)
      && multiset(w.queue) <= multiset(r.value.queue) + Drones.Bag(Carried(r.value.entities[id].value.chain))
  {
    match e
    case PackageEntity(_) => Ok(if w.variant == Packages.Team then Log(w, Roaming.LogOnlyUpdate(id)) else w)
    case RobotEntity(_) => Ok(Log(w, Roaming.LogOnlyUpdate(id)))
    case Active(c) =>
      var o :- UpdateChain(w, c, t);
      Ok(PutChain(o.world, id, o.drone))
  }
}
