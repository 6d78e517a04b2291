/**
  `SimulationModel`: creating entities from their JSON description, scheduling
  deliveries, changing a package's priority, deferred removal, and the tick that
  updates every entity, sweeps the removals and runs air-traffic control.
 */
module Simulation {
  import opened Common
  import opened Packages
  import opened Entities
  import opened Model
  import P = Publisher
  import T = Telemetry
  import Q = DeliveryQueue
  import Colour
  import Reroute
  import Dispatch
  import AirTraffic

  // ---------------------------------------------------------------- creation

  /** The fields of an entity's JSON description the model reads. */
  datatype Details = Details(kind: string, name: string, position: Vec3, direction: Vec3, speed: real)

  /** The `IEntity` part of a freshly constructed entity: no observers, no model yet. */
  function NewBody(id: Id, d: Details): (b: Body)
    ensures b.id == id && b.name == d.name && b.position == d.position
    ensures b.pub.observers == {} && b.pub.helperObservers == {} && !b.linked
  {
    Body(id, d.name, d.position, d.direction, d.speed, P.NoObservers(), false)
  }

  /** What `DroneFactory` builds around a drone: ATC over colour (hue 0, saturation 0,
      lightness 100) over the drone. */
  function DroneChain(k: Core): (c: Chain)
    ensures Innermost(c) == k
    ensures Layers(c) == [AtcLayer(Reroute.DroneAtc, Reroute.Initial(), false),
                          ColourLayer(Colour.Initial(0.0, 0.0, 100.0))]
  {
    var inner := Wrap(ColourLayer(Colour.Initial(0.0, 0.0, 100.0)), Bare(k));
    assert Innermost(inner) == k;
    assert Layers(inner) == [ColourLayer(Colour.Initial(0.0, 0.0, 100.0))] + Layers(Bare(k));
    Wrap(AtcLayer(Reroute.DroneAtc, Reroute.Initial(), false), inner)
  }

  /** A chain is fixed by its layers and its innermost entity. */
  lemma {:induction false} LayersDetermineChain(a: Chain, b: Chain)
    requires Layers(a) == Layers(b) && Innermost(a) == Innermost(b)
    ensures a == b
  {
    match a
    case Bare(_) =>
    case Wrap(l, s) =>
      assert Layers(a)[1..] == Layers(s) && Layers(b)[1..] == Layers(b.sub);
      LayersDetermineChain(s, b.sub);
  }

  /** The entity the composite factory builds for a description, with the number of
      `IEntity` objects its construction allocates ids for: a decorator constructs a
      fresh base object of its own, so each layer takes an id after its core's. */
  datatype Made = Made(entity: Entity, objects: nat)

  function Manufacture(d: Details, id: Id): (r: Option<Made>)
    ensures r.Some? <==> Known(d.kind)
    ensures r.Some? ==> r.value.objects >= 1
    ensures r.Some? && r.value.entity.Active? ==> CoreBody(Innermost(r.value.entity.chain)) == NewBody(id, d)
    ensures r.Some? && !r.value.entity.Active? ==> NameOf(r.value.entity) == d.name
  {
    var b := NewBody(id, d);
    if d.kind == "leader_drone" then Some(Made(Active(DroneChain(LeaderCore(NewLeader(b)))), 3))
    else if d.kind == "helper_drone" || d.kind == "drone" then
      Some(Made(Active(DroneChain(HelperCore(NewHelper(b)))), 3))
    else if d.kind == "charging_station" then Some(Made(Active(Bare(StationCore(b))), 1))
    else if d.kind == "package" then
      Some(Made(PackageEntity(NewPackage(id, d.name, d.position, d.direction)), 1))
    else if d.kind == "robot" then Some(Made(RobotEntity(Robot(id, d.name, d.position, true, None)), 1))
    else if d.kind == "human" then Some(Made(Active(Bare(HumanCore(NewHuman(b)))), 1))
    else if d.kind == "helicopter" then
      Some(Made(Active(Wrap(AtcLayer(Reroute.HelicopterAtc, Reroute.Initial(), false),
                            Bare(HelicopterCore(NewHelicopter(b))))), 2))
    else if d.kind == "airplane" then
      Some(Made(Active(Wrap(AtcLayer(Reroute.AirplaneAtc, Reroute.Initial(), false),
                            Bare(AirplaneCore(NewAirplane(b))))), 2))
    else None
  }

  /** The type strings some factory answers to. */
  predicate Known(kind: string) {
    kind in {"leader_drone", "helper_drone", "drone", "charging_station", "package",
             "robot", "human", "helicopter", "airplane"}
  }

  /** The name `getName` reports for whatever a slot holds. */
  function NameOf(e: Entity): string {
    match e
    case PackageEntity(p) => p.name
    case RobotEntity(r) => r.name
    case Active(c) => GetName(c)
  }

  /** Whether `dynamic_cast<Drone*>`, `<Helicopter*>` or `<Airplane*>` succeeds. */
  predicate Flying(e: Entity) {
    e.Active? && (var k := Innermost(e.chain);
                  k.LeaderCore? || k.HelperCore? || k.DroneCore? || k.HelicopterCore? || k.AirplaneCore?)
  }

  /** The drone ATC decorator over a colour decorator directly over a leader drone:
      what the three downcasts that find a leader see through. */
  predicate LeaderShaped(e: Option<Entity>) {
    && e.Some? && e.value.Active?
    && e.value.chain.Wrap? && e.value.chain.layer.AtcLayer? && e.value.chain.layer.kind == Reroute.DroneAtc
    && e.value.chain.sub.Wrap? && e.value.chain.sub.layer.ColourLayer?
    && e.value.chain.sub.sub.Bare? && e.value.chain.sub.sub.core.LeaderCore?
  }

  /** The publisher of the leader inside a leader-shaped slot. */
  function LeaderPub(e: Option<Entity>): P.Publisher
    requires LeaderShaped(e)
  {
    e.value.chain.sub.sub.core.leader.body.pub
  }

  /** `leaderDrone->addHelperDroneObserver(helper)` on a leader-shaped slot. */
  function Subscribe(e: Option<Entity>, h: Id): (r: Option<Entity>)
    requires LeaderShaped(e)
    ensures LeaderShaped(r)
    ensures LeaderPub(r) == P.AddHelperObserver(LeaderPub(e), h)
  {
    var c := e.value.chain;
    var l := c.sub.sub.core.leader;
    Some(Active(Wrap(c.layer, Wrap(c.sub.layer,
      Bare(LeaderCore(l.(body := l.body.(pub := P.AddHelperObserver(l.body.pub, h)))))))))
  }

  /** The loop of `createEntity` that connects a new helper drone to every leader. */
  function WireHelper(es: map<Id, Option<Entity>>, h: Id): (r: map<Id, Option<Entity>>)
    ensures r.Keys == es.Keys
    ensures forall k :: k in es && k != h && LeaderShaped(es[k]) ==>
      LeaderShaped(r[k]) && LeaderPub(r[k]).helperObservers == LeaderPub(es[k]).helperObservers + {h}
    ensures forall k :: k in es && (k == h || !LeaderShaped(es[k])) ==> r[k] == es[k]
  {
    map k | k in es :: if k != h && LeaderShaped(es[k]) then Subscribe(es[k], h) else es[k]
  }

  /** `linkModel(this)` then `addObserver(this)`. A package or robot carries no
      publisher in this model, so for them the calls change nothing observable. */
  function Attach(e: Entity): (r: Entity)
    ensures e.Active? <==> r.Active?
    ensures !e.Active? ==> r == e
    ensures e.Active? ==>
      && Layers(r.chain) == Layers(e.chain)
      && CoreBody(Innermost(r.chain)) == CoreBody(Innermost(e.chain)).(
           linked := true, pub := P.AddObserver(CoreBody(Innermost(e.chain)).pub, ModelObserver))
  {
    match e
    case Active(c) => Active(Entities.AddObserver(LinkModel(c), ModelObserver))
    case _ => e
  }

  /** `SimulationModel::createEntity`: the new entity's id, or `None` when no factory
      knows the type. */
  function CreateEntity(w: World, d: Details): (r: (World, Option<Id>))
    ensures r.1.None? <==> !Known(d.kind)
    ensures r.1.None? ==> r.0 == w
    ensures r.1.Some? ==> r.1.value == w.nextId && Live(r.0, w.nextId)
    ensures r.1.Some? ==>
      var e := r.0.entities[w.nextId].value;
      && NameOf(e) == d.name
      && r.0.nextId > w.nextId
      && r.0.atc == (if Flying(e) then w.atc + [w.nextId] else w.atc)
      && r.0.log == T.CreateLog(w.log, Some(T.Named(w.nextId, d.name)))
      && r.0.entities.Keys == w.entities.Keys + {w.nextId}
      && r.0.queue == w.queue && r.0.removed == w.removed && r.0.notes == w.notes
      && (e.Active? ==> var b := CoreBody(Innermost(e.chain));
                        b.id == w.nextId && b.linked && b.pub.observers == {ModelObserver})
    ensures r.1.Some? && d.kind == "leader_drone" ==>
      LeaderShaped(r.0.entities[w.nextId]) && LeaderPub(r.0.entities[w.nextId]).helperObservers == {}
    ensures r.1.Some? && d.kind == "helper_drone" ==>
      forall k :: k in w.entities && k != w.nextId && LeaderShaped(w.entities[k]) ==>
        && LeaderShaped(r.0.entities[k])
        && LeaderPub(r.0.entities[k]).helperObservers == LeaderPub(w.entities[k]).helperObservers + {w.nextId}
    ensures r.1.Some? ==>
      forall k :: k in w.entities && k != w.nextId && (d.kind != "helper_drone" || !LeaderShaped(w.entities[k])) ==>
        r.0.entities[k] == w.entities[k]
  {
    var id := w.nextId;
    match Manufacture(d, id)
    case None => (w, None)
    case Some(made) =>
      var e := Attach(made.entity);
      assert d.kind == "leader_drone" ==> e.chain == DroneChain(Innermost(e.chain)) by {
        if d.kind == "leader_drone" {
          var k := Innermost(made.entity.chain);
          assert Layers(DroneChain(Innermost(e.chain))) == Layers(DroneChain(k));
          LayersDetermineChain(e.chain, DroneChain(Innermost(e.chain)));
        }
      }
      assert e.Active? ==> GetName(e.chain) == d.name by {
        if e.Active? { GettersReachInnermost(e.chain); }
      }
      var es := w.entities[id := Some(e)];
      var es' := if d.kind == "helper_drone" then WireHelper(es, id) else es;
      var w1 := w.(entities := es', nextId := w.nextId + made.objects,
                   atc := if Flying(e) then w.atc + [id] else w.atc,
                   log := T.CreateLog(w.log, Some(T.Named(id, d.name))));
      (w1, Some(id))
  }

  /** No live entity has an id the counter has yet to hand out. */
  predicate IdsFresh(w: World) {
    forall k :: k in w.entities && Live(w, k) ==> k < w.nextId
  }

  /** Ids are handed out by a counter, so a new entity never lands on a live one and
      every entity alive before is alive after. */
  lemma CreateKeepsIdsFresh(w: World, d: Details)
    requires IdsFresh(w)
    ensures IdsFresh(CreateEntity(w, d).0)
    ensures CreateEntity(w, d).1.Some? ==> !Live(w, w.nextId)
    ensures forall k :: Live(w, k) ==> Live(CreateEntity(w, d).0, k)
  {
  }

  // ---------------------------------------------------------------- searches

  /** What the scans of `scheduleTrip` and `changePackagePriority` look for. Each
      compares the entity's name first, so every entry they pass is dereferenced. */
  datatype Query =
    | Receiver(name: string)      // a robot of that name still requesting a delivery
    | Parcel(name: string)        // a package named `name + "_package"` still requiring delivery
    | PackageNamed(name: string)  // any package of that name

  predicate Matches(q: Query, e: Entity) {
    match q
    case Receiver(n) => NameOf(e) == n && e.RobotEntity? && e.robot.requestedDelivery
    case Parcel(n) => NameOf(e) == n + "_package" && e.PackageEntity? && e.pkg.requiresDelivery
    case PackageNamed(n) => NameOf(e) == n && e.PackageEntity?
  }

  /** Every entry before index `i` of the scan is live and is not what is sought. */
  predicate Passed(w: World, q: Query, ks: seq<Id>, i: nat)
    requires i <= |ks|
    requires forall j :: 0 <= j < |ks| ==> ks[j] in w.entities
  {
    forall j :: 0 <= j < i ==> w.entities[ks[j]].Some? && !Matches(q, w.entities[ks[j]].value)
  }

  /** Some live entity is what is sought. */
  predicate Present(w: World, q: Query) {
    exists k :: k in w.entities && Live(w, k) && Matches(q, w.entities[k].value)
  }

  /** The map holds no null entry. */
  predicate NoNulls(w: World) {
    forall k :: k in w.entities ==> w.entities[k].Some?
  }

  /** A range-for over the map from index `i` that stops at the first match: the
      match's index, `None` when the scan runs out, or the null entry it reaches first. */
  function Find(w: World, q: Query, ks: seq<Id>, i: nat): (r: Result<Option<nat>>)
    requires i <= |ks|
    requires forall j :: 0 <= j < |ks| ==> ks[j] in w.entities
    requires Passed(w, q, ks, i)
    ensures r.Ok? && r.value.Some? ==>
      && i <= r.value.value < |ks| && Passed(w, q, ks, r.value.value)
      && Live(w, ks[r.value.value]) && Matches(q, w.entities[ks[r.value.value]].value)
    ensures r.Ok? && r.value.None? ==> Passed(w, q, ks, |ks|)
    ensures r.Crash? ==> exists j :: i <= j < |ks| && Passed(w, q, ks, j) && w.entities[ks[j]].None?
    decreases |ks| - i
  {
    if i == |ks| then Ok(None)
    else match w.entities[ks[i]]
      case None => Crash(NullEntity(ks[i]))
      case Some(e) => if Matches(q, e) then Ok(Some(i)) else Find(w, q, ks, i + 1)
  }

  /** Over the whole map in ascending order, a scan crashes only on a null entry and
      comes back empty exactly when nothing matches. */
  lemma FindOverMap(w: World, q: Query)
    ensures var ks := Ascending(w.entities.Keys);
      var r := Find(w, q, ks, 0);
      && (NoNulls(w) ==> r.Ok?)
      && (r.Ok? ==> (r.value.None? <==> !Present(w, q)))
  {
  }

  /** The live entries a query picks out. */
  function Hits(w: World, q: Query): (r: set<Id>)
    ensures r != {} <==> Present(w, q)
    ensures forall k :: k in r <==> k in w.entities && Live(w, k) && Matches(q, w.entities[k].value)
  {
    var r := set k | k in w.entities && Live(w, k) && Matches(q, w.entities[k].value);
    assert Present(w, q) ==> r != {} by {
      if Present(w, q) {
        var k :| k in w.entities && Live(w, k) && Matches(q, w.entities[k].value);
        assert k in r;
      }
    }
    r
  }

  /** The entry an ordered map visits first among those a query picks out. */
  function FirstHit(w: World, q: Query): (r: Id)
    requires Present(w, q)
    ensures Live(w, r) && Matches(q, w.entities[r].value)
    ensures forall k :: k in w.entities && Live(w, k) && Matches(q, w.entities[k].value) ==> r <= k
  {
    Least(Hits(w, q))
  }

  /** A scan of the map that finds something finds the first hit in id order. */
  lemma FindIsFirstHit(w: World, q: Query)
    ensures var ks := Ascending(w.entities.Keys);
      var r := Find(w, q, ks, 0);
      r.Ok? && r.value.Some? ==> Present(w, q) && ks[r.value.value] == FirstHit(w, q)
  {
    var ks := Ascending(w.entities.Keys);
    var r := Find(w, q, ks, 0);
    if r.Ok? && r.value.Some? {
      ScanHitIsFirst(w, q, ks, r.value.value);
    }
  }

  /** In a scan over every key in increasing order, a match with only non-matching
      entries before it is the least match. */
  lemma ScanHitIsFirst(w: World, q: Query, ks: seq<Id>, i: nat)
    requires forall j :: 0 <= j < |ks| ==> ks[j] in w.entities
    requires forall k :: k in w.entities ==> k in ks
    requires StrictlyIncreasing(ks)
    requires i < |ks| && Passed(w, q, ks, i)
    requires Live(w, ks[i]) && Matches(q, w.entities[ks[i]].value)
    ensures Present(w, q) && ks[i] == FirstHit(w, q)
  {
    var m := FirstHit(w, q);
    assert m in ks;
    var j :| 0 <= j < |ks| && ks[j] == m;
    if j < i {
      assert false;
    }
    assert ks[i] <= ks[j];
  }

  // ---------------------------------------------------------------- scheduling

  /** The priority strategy a name selects; an unknown name falls back to standard. */
  function Priority(c: Catalog, s: string): (r: Shipping)
    ensures s == "NoRush" ==> r == c.noRush
    ensures s == "Expedited" ==> r == c.expedited
    ensures s != "NoRush" && s != "Expedited" ==> r == c.standard
  {
    if s == "Standard" then c.standard
    else if s == "NoRush" then c.noRush
    else if s == "Expedited" then c.expedited
    else c.standard
  }

  /** `getDeliveryQueueInfo`: it reads every queued package, so a dangling entry is
      dereferenced. Only that read matters here; the report itself goes to nobody. */
  function QueueInfo(w: World): (r: Result<()>)
    ensures r.Ok? <==> QueueHealthy(w)
  {
    match FirstDangling(w, w.queue)
    case Some(id) => Crash(Dangling(id))
    case None => Ok(())
  }

  /** Package `pid` gets a priority if it has none, is bound to robot `rid` and
      marked scheduled. */
  function Claim(w: World, rid: Id, pid: Id, priority: string): (r: World)
    requires IsPackage(w, pid) && Live(w, rid) && w.entities[rid].value.RobotEntity?
    ensures r.(entities := w.entities) == w
    ensures r.entities.Keys == w.entities.Keys
    ensures forall k :: k in w.entities && k != pid && k != rid ==> r.entities[k] == w.entities[k]
    ensures forall k :: IsPackage(r, k) <==> IsPackage(w, k)
    ensures IsPackage(r, pid)
    ensures Live(r, rid) && r.entities[rid].value == RobotEntity(w.entities[rid].value.robot.(requestedDelivery := false))
    ensures var before := w.entities[pid].value.pkg;
      var after := r.entities[pid].value.pkg;
      && after.scheduled && !after.requiresDelivery && after.owner == Some(w.entities[rid].value.robot.id)
      && after.name == before.name
      && (before.priority.None? && Open(before) ==> after.priority == Some(Priority(w.catalog, priority)))
      && (before.priority.Some? ==> after.priority == before.priority)
  {
    var robot := w.entities[rid].value.robot;
    var p := w.entities[pid].value.pkg;
    var p1 := if p.priority.None? then SetPriority(p, Priority(w.catalog, priority)) else p;
    var b := InitDelivery(w.variant, p1, robot);
    PutRobot(PutPackage(w, pid, b.pkg.(scheduled := true)), rid, b.robot)
  }

  /** What scheduling leaves in a package: bound to an owner, scheduled, the search
      strategy recorded, and a priority installed only when it had none and could
      still take one. */
  predicate Booked(c: Catalog, priority: string, search: string, before: Package, after: Package) {
    && after.scheduled && !after.requiresDelivery && after.owner.Some?
    && after.strategyName == search && after.name == before.name
    && (before.priority.None? && Open(before) ==> after.priority == Some(Priority(c, priority)))
    && (before.priority.Some? ==> after.priority == before.priority)
  }

  /** The half of `scheduleTrip` after both scans succeed: package `pid` is bound to
      robot `rid`, the queue report reads the queue, and the package is queued. */
  function Bind(w: World, rid: Id, pid: Id, priority: string, search: string): (r: Result<World>)
    requires IsPackage(w, pid) && Live(w, rid) && w.entities[rid].value.RobotEntity?
    ensures r.Ok? <==> QueueHealthy(w)
    ensures r.Ok? ==> IsPackage(r.value, pid)
    ensures r.Ok? ==>
      var after := r.value.entities[pid].value.pkg;
      && Booked(w.catalog, priority, search, w.entities[pid].value.pkg, after)
      && after.owner == Some(w.entities[rid].value.robot.id)
    ensures r.Ok? ==> multiset(r.value.queue) == multiset(w.queue) + multiset{pid} && QueueSorted(r.value)
  {
    var w1 := Claim(w, rid, pid, priority);
    match QueueInfo(w1)
    case Crash(f) => Crash(f)
    case Ok(_) => SortQueue(Enqueue(w1, pid, search))
  }

  /** The search strategy is recorded in the package and the package joins the back
      of the queue. */
  function Enqueue(w: World, pid: Id, search: string): (r: World)
    requires IsPackage(w, pid)
    ensures IsPackage(r, pid)
    ensures r.entities[pid].value.pkg == w.entities[pid].value.pkg.(strategyName := search)
    ensures r.queue == w.queue + [pid]
    ensures r.catalog == w.catalog
    ensures QueueHealthy(w) ==> QueueHealthy(r)
  {
    var r := PutPackage(w, pid, w.entities[pid].value.pkg.(strategyName := search)).(queue := w.queue + [pid]);
    assert forall k :: IsPackage(w, k) ==> IsPackage(r, k);
    r
  }

  /** `scheduleTrip(details, priority)`: find the robot and its package; if both are
      there, give the package a priority if it has none, bind it to the robot, mark it
      scheduled, record the search strategy and queue it in priority order. The second
      component is the package that was scheduled, if any. */
  function ScheduleTrip(w: World, name: string, priority: string, search: string): (r: Result<(World, Option<Id>)>)
    ensures r.Ok? && r.value.1.None? ==> r.value.0 == w
    ensures r.Ok? && r.value.1.Some? ==>
      var pid := r.value.1.value;
      && IsPackage(w, pid) && Matches(Parcel(name), w.entities[pid].value)
      && IsPackage(r.value.0, pid)
      && Booked(w.catalog, priority, search, w.entities[pid].value.pkg, r.value.0.entities[pid].value.pkg)
    ensures r.Ok? && r.value.1.Some? ==>
      multiset(r.value.0.queue) == multiset(w.queue) + multiset{r.value.1.value} && QueueSorted(r.value.0)
    ensures NoNulls(w) && QueueHealthy(w) ==>
      r.Ok? && (r.value.1.Some? <==> Present(w, Receiver(name)) && Present(w, Parcel(name)))
    ensures r.Crash? ==> !NoNulls(w) || !QueueHealthy(w)
  {
    var ks := Ascending(w.entities.Keys);
    FindOverMap(w, Receiver(name));
    FindOverMap(w, Parcel(name));
    var ri :- Find(w, Receiver(name), ks, 0);
    var pi :- Find(w, Parcel(name), ks, 0);
    if ri.None? || pi.None? then Ok((w, None))
    else
      var w1 :- Bind(w, ks[ri.value], ks[pi.value], priority, search);
      Ok((w1, Some(ks[pi.value])))
  }

  /** The priority names `changePackagePriority` accepts. */
  predicate KnownPriority(s: string) {
    s == "Standard" || s == "NoRush" || s == "Expedited"
  }

  /** `setPriority` on package `pid`, then `sortScheduledDeliveries`. */
  function Reprioritise(w: World, pid: Id, s: Shipping): (r: Result<World>)
    requires IsPackage(w, pid)
    ensures r.Ok? <==> |w.queue| < 2 || QueueHealthy(w)
    ensures r.Ok? ==>
      && IsPackage(r.value, pid)
      && r.value.entities[pid].value.pkg == SetPriority(w.entities[pid].value.pkg, s)
      && r.value.entities.Keys == w.entities.Keys
      && (forall k :: k in w.entities && k != pid ==> r.value.entities[k] == w.entities[k])
      && multiset(r.value.queue) == multiset(w.queue) && QueueSorted(r.value)
  {
    var w1 := PutPackage(w, pid, SetPriority(w.entities[pid].value.pkg, s));
    assert forall k :: IsPackage(w1, k) <==> IsPackage(w, k);
    SortQueue(w1)
  }

  /** A range-for over the whole map that stops at the first entry the query picks
      out: that entry's id, `None` when there is none, or the null entry met first. */
  function Lookup(w: World, q: Query): (r: Result<Option<Id>>)
    ensures r.Ok? && r.value.Some? ==> Present(w, q) && r.value.value == FirstHit(w, q)
    ensures r.Ok? ==> (r.value.None? <==> !Present(w, q))
    ensures NoNulls(w) ==> r.Ok?
    ensures r.Crash? ==> !NoNulls(w)
  {
    var ks := Ascending(w.entities.Keys);
    FindOverMap(w, q);
    FindIsFirstHit(w, q);
    var i :- Find(w, q, ks, 0);
    if i.None? then Ok(None) else Ok(Some(ks[i.value]))
  }

  /** What `changePackagePriority` does with the package it found: a scheduled, not
      yet picked-up package takes a known priority and the queue is re-sorted; in
      every other case the simulator answers `false` and nothing changes. */
  function Retune(w: World, pid: Id, priority: string): (r: Result<(World, Option<Id>)>)
    requires IsPackage(w, pid)
    ensures r.Ok? && r.value.1.None? ==> r.value.0 == w
    ensures r.Ok? && r.value.1.Some? ==>
      && r.value.1.value == pid && IsPackage(r.value.0, pid)
      && r.value.0.entities[pid].value.pkg == SetPriority(w.entities[pid].value.pkg, Priority(w.catalog, priority))
      && r.value.0.entities.Keys == w.entities.Keys
      && (forall k :: k in w.entities && k != pid ==> r.value.0.entities[k] == w.entities[k])
      && multiset(r.value.0.queue) == multiset(w.queue) && QueueSorted(r.value.0)
    ensures var p := w.entities[pid].value.pkg;
      (r.Ok? && r.value.1.Some?) || r.Crash? <==> KnownPriority(priority) && p.scheduled && !p.pickedUp
    ensures r.Crash? <==> r != Ok((w, None)) && |w.queue| >= 2 && !QueueHealthy(w)
  {
    var p := w.entities[pid].value.pkg;
    if !p.scheduled then Ok((w, None))
    else if KnownPriority(priority) && !p.pickedUp then
      var w2 :- Reprioritise(w, pid, Priority(w.catalog, priority));
      Ok((w2, Some(pid)))
    else Ok((w, None))
  }

  /** `changePackagePriority(name, priority)`: the first package of that name (in id
      order) takes the new priority if it is scheduled, not yet picked up and the name
      is known, and the queue is re-sorted. The second component is that package when
      the simulator answers `true`, `None` when it answers `false`. */
  function ChangePackagePriority(w: World, name: string, priority: string): (r: Result<(World, Option<Id>)>)
    ensures r.Ok? && r.value.1.None? ==> r.value.0 == w
    ensures r.Ok? && r.value.1.Some? ==>
      var pid := r.value.1.value;
      && IsPackage(w, pid) && w.entities[pid].value.pkg.name == name
      && w.entities[pid].value.pkg.scheduled && !w.entities[pid].value.pkg.pickedUp && KnownPriority(priority)
      && IsPackage(r.value.0, pid)
      && r.value.0.entities[pid].value.pkg == SetPriority(w.entities[pid].value.pkg, Priority(w.catalog, priority))
    ensures r.Ok? && r.value.1.Some? ==>
      && r.value.0.entities.Keys == w.entities.Keys
      && (forall k :: k in w.entities && k != r.value.1.value ==> r.value.0.entities[k] == w.entities[k])
      && multiset(r.value.0.queue) == multiset(w.queue) && QueueSorted(r.value.0)
    ensures r.Ok? && r.value.1.Some? ==>
      Present(w, PackageNamed(name)) && r.value.1.value == FirstHit(w, PackageNamed(name))
    ensures NoNulls(w) && QueueHealthy(w) && Present(w, PackageNamed(name)) ==>
      var p := w.entities[FirstHit(w, PackageNamed(name))].value.pkg;
      r.Ok? && (r.value.1.Some? <==> KnownPriority(priority) && p.scheduled && !p.pickedUp)
    ensures NoNulls(w) && QueueHealthy(w) ==> r.Ok?
    ensures NoNulls(w) && !Present(w, PackageNamed(name)) ==> r == Ok((w, None))
    ensures !KnownPriority(priority) && r.Ok? ==> r.value == (w, None)
    ensures r.Crash? ==> !NoNulls(w) || !QueueHealthy(w)
  {
    var found :- Lookup(w, PackageNamed(name));
    if found.None? then Ok((w, None))
    else Retune(w, found.value, priority)
  }

  // ---------------------------------------------------------------- removal

  /** `removeEntity(id)`: only marks the id; the entity is removed at the end of the
      next update. */
  function RemoveEntity(w: World, id: Id): (r: World)
    ensures r.removed == w.removed + {id}
    ensures r.(removed := w.removed) == w
  {
    w.(removed := w.removed + {id})
  }

  /** `removeFromSim(id)`. `entities[id]` inserts a null entry for an id the map does
      not hold; a live entity leaves the queue (its first occurrence), the telemetry
      store and the map. */
  function RemoveFromSim(w: World, id: Id): (r: World)
    ensures !Live(r, id)
    ensures id !in w.entities ==> r == w.(entities := w.entities[id := None])
    ensures id in w.entities && w.entities[id].None? ==> r == w
    ensures Live(w, id) ==>
      && r.entities == w.entities - {id}
      && multiset(r.queue) == multiset(w.queue) - multiset{id}
      && id !in r.log.logs && r.log.logs.Keys == w.log.logs.Keys - {id}
      && r.(entities := w.entities, queue := w.queue, log := w.log) == w
  {
    if id !in w.entities then w.(entities := w.entities[id := None])
    else if w.entities[id].None? then w
    else w.(queue := Q.EraseFirst(w.queue, id), log := T.RemoveEntity(w.log, id), entities := w.entities - {id})
  }

  /** The removal loop of `update`: `removeFromSim` for each id in turn. */
  function Sweep(w: World, ids: seq<Id>): (r: World)
    requires forall i, j :: 0 <= i < j < |ids| ==> ids[i] != ids[j]
    ensures forall i :: 0 <= i < |ids| ==> !Live(r, ids[i])
    ensures forall i :: 0 <= i < |ids| && !Live(w, ids[i]) ==> ids[i] in r.entities
    ensures forall k :: k in r.entities && k in ids ==> r.entities[k].None?
    ensures forall k :: k !in ids ==> (k in r.entities <==> k in w.entities)
    ensures forall k :: k !in ids && k in w.entities ==> r.entities[k] == w.entities[k]
    ensures r.removed == w.removed && r.atc == w.atc && r.nextId == w.nextId
    decreases |ids|
  {
    if ids == [] then w
    else
      var w1 := RemoveFromSim(w, ids[0]);
      var r := Sweep(w1, ids[1..]);
      assert forall i :: 1 <= i < |ids| ==> ids[i] == ids[1..][i - 1] && ids[i] != ids[0];
      r
  }

  // ---------------------------------------------------------------- the tick

  /** The entity loop of `update`: every slot from index `i` on, in id order. A null
      entry is dereferenced. */
  function UpdateAll(w: World, ks: seq<Id>, i: nat, t: Tick): (r: Result<World>)
    requires i <= |ks|
    requires forall j :: 0 <= j < |ks| ==> ks[j] in w.entities
    ensures r.Ok? ==> SlotsKept(w, r.value)
    ensures r.Ok? ==> forall j :: i <= j < |ks| ==> w.entities[ks[j]].Some?
    decreases |ks| - i
  {
    if i == |ks| then Ok(w)
    else match w.entities[ks[i]]
      case None => Crash(NullEntity(ks[i]))
      case Some(e) =>
        var w1 :- Dispatch.UpdateEntity(w, ks[i], e, t);
        NextSlots(w, w1, ks, i);
        var r := UpdateAll(w1, ks, i + 1, t);
        if r.Ok? then SlotsKeptTrans(w, w1, r.value); r else r
  }

  lemma NextSlots(w: World, w1: World, ks: seq<Id>, i: nat)
    requires i < |ks| && SlotsKept(w, w1)
    requires forall j :: 0 <= j < |ks| ==> ks[j] in w.entities
    requires w.entities[ks[i]].Some?
    ensures forall j :: 0 <= j < |ks| ==> ks[j] in w1.entities
    ensures forall j :: i + 1 <= j < |ks| && w1.entities[ks[j]].Some? ==> w.entities[ks[j]].Some?
  {
    forall j | i + 1 <= j < |ks| && w1.entities[ks[j]].Some?
      ensures w.entities[ks[j]].Some?
    {
      var k := ks[j];
      assert k in w.entities;
      assert w1.entities[k].None? <==> w.entities[k].None?;
    }
  }

  lemma SlotsKeptTrans(w1: World, w2: World, w3: World)
    requires SlotsKept(w1, w2) && SlotsKept(w2, w3)
    ensures SlotsKept(w1, w3)
  {
  }

  /** The end of `update` before the air-traffic pass: the marked ids are removed in
      id order and the mark set is cleared. */
  function Settle(w: World): (r: World)
    ensures r.removed == {} && r.atc == w.atc && r.nextId == w.nextId
    ensures forall k :: k in w.removed ==> !Live(r, k)
    ensures forall k :: k in w.removed && !Live(w, k) ==> k in r.entities && r.entities[k].None?
    ensures forall k :: k !in w.removed ==> (k in r.entities <==> k in w.entities)
    ensures forall k :: k !in w.removed && k in w.entities ==> r.entities[k] == w.entities[k]
  {
    var ids := Ascending(w.removed);
    assert forall i, j :: 0 <= i < j < |ids| ==> ids[i] != ids[j];
    var s := Sweep(w, ids);
    assert forall k :: k in w.removed ==> k in ids;
    s.(removed := {})
  }

  /** The rest of a tick once every entity has been updated: the marked removals,
      then the air-traffic pass. */
  function Finish(w: World, g: Geometry): (r: Result<World>)
    ensures r.Ok? ==> r.value.removed == {} && r.value.nextId == w.nextId && r.value.atc == w.atc
    ensures r.Ok? ==> forall k :: k in w.removed ==> !Live(r.value, k)
    ensures r.Ok? ==> forall k :: k in r.value.entities && Live(r.value, k) ==> Live(w, k)
    ensures r.Ok? ==> forall k :: Live(w, k) && k !in w.removed ==> Live(r.value, k)
    ensures r.Ok? ==> forall k :: k in w.removed && k !in w.entities ==> k in r.value.entities
  {
    AirTraffic.Traffic(Settle(w), g)
  }

  /** `SimulationModel::update(dt)`: every entity's update in id order, then the marked
      removals in id order, then the air-traffic pass. */
  function Update(w: World, t: Tick): (r: Result<World>)
    ensures r.Ok? ==> NoNulls(w)
    ensures r.Ok? ==> r.value.removed == {} && r.value.nextId == w.nextId && r.value.atc == w.atc
    ensures r.Ok? ==> forall k :: k in w.removed ==> !Live(r.value, k)
    ensures r.Ok? ==> forall k :: k in r.value.entities && Live(r.value, k) ==> Live(w, k)
    ensures r.Ok? ==> forall k :: Live(w, k) && k !in w.removed ==> Live(r.value, k)
    ensures r.Ok? ==> forall k :: k in w.removed && k !in w.entities ==> k in r.value.entities
  {
    var ks := Ascending(w.entities.Keys);
    match UpdateAll(w, ks, 0, t)
    case Crash(f) => Crash(f)
    case Ok(w1) =>
      assert forall k :: k in w.entities ==> k in ks;
      Finish(w1, t.geo)
  }

  /** One turn of the entity loop. */
  method UpdateSlot(w: World, ks: seq<Id>, i: nat, t: Tick) returns (s: Result<World>)
    requires i < |ks|
    requires forall j :: 0 <= j < |ks| ==> ks[j] in w.entities
    ensures s.Crash? ==> UpdateAll(w, ks, i, t) == Crash(s.fault)
    ensures s.Ok? ==> forall j :: 0 <= j < |ks| ==> ks[j] in s.value.entities
    ensures s.Ok? ==> UpdateAll(w, ks, i, t) == UpdateAll(s.value, ks, i + 1, t)
  {
    match w.entities[ks[i]]
    case None =>
      s := Crash(NullEntity(ks[i]));
    case Some(e) =>
      s := Dispatch.UpdateEntity(w, ks[i], e, t);
      if s.Ok? {
        NextSlots(w, s.value, ks, i);
      }
  }

  lemma UpdateUnfold(w: World, t: Tick)
    ensures var u := UpdateAll(w, Ascending(w.entities.Keys), 0, t);
      && (u.Crash? ==> Update(w, t) == Crash(u.fault))
      && (u.Ok? ==> Update(w, t) == Finish(u.value, t.geo))
  {
  }

  /** The entity loop of `update` as the simulator writes it: a range-for over the map. */
  method RunEntities(w: World, ks: seq<Id>, t: Tick) returns (r: Result<World>)
    requires forall j :: 0 <= j < |ks| ==> ks[j] in w.entities
    ensures r == UpdateAll(w, ks, 0, t)
  {
    ghost var goal := UpdateAll(w, ks, 0, t);
    var cur := w;
    var i := 0;
    while i < |ks|
      invariant 0 <= i <= |ks|
      invariant forall j :: 0 <= j < |ks| ==> ks[j] in cur.entities
      invariant UpdateAll(cur, ks, i, t) == goal
    {
      var s := UpdateSlot(cur, ks, i, t);
      if s.Crash? {
        return Crash(s.fault);
      }
      cur := s.value;
      i := i + 1;
    }
    return Ok(cur);
  }

  /** `update` as the simulator writes it: a loop over the map, then the removal loop,
      then the air-traffic pass. */
  method RunUpdate(w: World, t: Tick) returns (r: Result<World>)
    ensures r == Update(w, t)
  {
    var ks := Ascending(w.entities.Keys);
    UpdateUnfold(w, t);
    var u := RunEntities(w, ks, t);
    if u.Crash? {
      return Crash(u.fault);
    }
    r := Finish(u.value, t.geo);
  }

  /** Marking an id the map does not hold is not harmless: the sweep inserts a null
      entry for it, and every later update dereferences that entry. */
  lemma UnknownRemovalPoisons(w: World, id: Id, t: Tick, t': Tick)
    requires id !in w.entities
    ensures Update(RemoveEntity(w, id), t).Ok? ==>
      var w' := Update(RemoveEntity(w, id), t).value;
      id in w'.entities && w'.entities[id].None? && Update(w', t').Crash?
  {
  }

  /** A marked entity is updated once more and is gone after the tick. */
  lemma RemovalIsDeferred(w: World, id: Id, t: Tick)
    requires Live(w, id)
    ensures Update(RemoveEntity(w, id), t).Ok? ==> !Live(Update(RemoveEntity(w, id), t).value, id)
  {
  }

  /** A tick constructs nothing, so ids stay fresh. */
  lemma UpdateKeepsIdsFresh(w: World, t: Tick)
    requires IdsFresh(w) && Update(w, t).Ok?
    ensures IdsFresh(Update(w, t).value)
  {
  }

  /** Wiring is one-way in time: a helper created before a leader is never connected
      to it, since only helper creation runs the wiring loop. */
  lemma LateLeaderMissesHelper(w: World, helper: Details, leader: Details)
    requires helper.kind == "helper_drone" && leader.kind == "leader_drone"
    ensures var (w1, h) := CreateEntity(w, helper);
      var (w2, l) := CreateEntity(w1, leader);
      && h == Some(w.nextId) && l == Some(w1.nextId)
      && Live(w2, w.nextId) && w.nextId !in LeaderPub(w2.entities[w1.nextId]).helperObservers
  {
  }
}
