/**
  The state of a running simulation: the entity map, the scheduled-delivery queue,
  the ids marked for removal, the ATC registry, the telemetry store and the
  notifications sent to the view. Reads through pointers that may be null or
  dangling in the simulator return a `Result`, whose `Crash` records the
  undefined behaviour the simulator would run into.
 */
module Model {
  import opened Common
  import opened Packages
  import opened Entities
  import P = Publisher
  import T = Telemetry
  import Q = DeliveryQueue

  /** What a slot of the entity map holds. Packages and robots are never decorated;
      everything else is a decorator chain. */
  datatype Entity =
    | PackageEntity(pkg: Package)
    | RobotEntity(robot: Robot)
    | Active(chain: Chain)

  datatype World = World(
    variant: Variant,
    catalog: Catalog,
    /** `std::map<int, IEntity*>`: `None` is a null entry. */
    entities: map<Id, Option<Entity>>,
    /** `scheduledDeliveries`, front first. */
    queue: seq<Id>,
    removed: set<Id>,
    /** The ATC's `flyingEntities`, in registration order. */
    atc: seq<Id>,
    log: T.Manager,
    /** Every message passed to `SimulationModel::notify`, in order. */
    notes: seq<string>,
    /** The id the next constructed entity receives. */
    nextId: nat)

  /** The undefined behaviour a step runs into. */
  datatype Fault =
    | NullEntity(id: Id)        // a null entry of the entity map is updated or named
    | NullPackage(drone: Id)    // a drone dereferences its null package
    | Dangling(id: Id)          // a pointer to a deleted entity is followed
    | ChargeHang(drone: Id)     // `chargeBattery` loops forever
    | Miswired(id: Id)          // a decorator's downcast of what it wraps yields null

  datatype Result<+T> = Ok(value: T) | Crash(fault: Fault) {
    predicate IsFailure() { Crash? }
    function PropagateFailure<U>(): Result<U> requires Crash? { Crash(fault) }
    function Extract(): T requires Ok? { value }
  }

  /** The simulation model as an observer: every entity's only ordinary observer. */
  const ModelObserver: Id := -1

  /** What one `update(dt)` is given from outside: the time step, the geometry, the
      movement each entity's active leg makes this tick, and each entity's random draws. */
  datatype Tick = Tick(dt: real, geo: Geometry, motion: Id -> Motion, draws: Id -> Draws)

  function EmptyWorld(v: Variant, c: Catalog): (w: World)
    ensures w.entities == map[] && w.queue == [] && w.atc == [] && w.notes == [] && w.removed == {}
  {
    World(v, c, map[], [], {}, [], T.Fresh(), [], 0)
  }

  /** The entity a pointer refers to, if it is still alive. */
  predicate Live(w: World, id: Id) {
    id in w.entities && w.entities[id].Some?
  }

  predicate IsPackage(w: World, id: Id) {
    Live(w, id) && w.entities[id].value.PackageEntity?
  }

  /** Dereference a `Package*`. */
  function GetPackage(w: World, id: Id): (r: Result<Package>)
    ensures r.Ok? <==> IsPackage(w, id)
    ensures r.Ok? ==> r.value == w.entities[id].value.pkg
    ensures r.Crash? ==> r.fault == Dangling(id)
  {
    if IsPackage(w, id) then Ok(w.entities[id].value.pkg) else Crash(Dangling(id))
  }

  function PutPackage(w: World, id: Id, p: Package): (r: World)
    ensures r.entities == w.entities[id := Some(PackageEntity(p))]
    ensures r.(entities := w.entities) == w
  {
    w.(entities := w.entities[id := Some(PackageEntity(p))])
  }

  /** Dereference a `Robot*`. */
  function GetRobot(w: World, id: Id): (r: Result<Robot>)
    ensures r.Ok? <==> Live(w, id) && w.entities[id].value.RobotEntity?
    ensures r.Ok? ==> r.value == w.entities[id].value.robot
  {
    if Live(w, id) && w.entities[id].value.RobotEntity? then Ok(w.entities[id].value.robot)
    else Crash(Dangling(id))
  }

  function PutRobot(w: World, id: Id, r: Robot): (w': World)
    ensures w'.entities == w.entities[id := Some(RobotEntity(r))]
    ensures w'.(entities := w.entities) == w
  {
    w.(entities := w.entities[id := Some(RobotEntity(r))])
  }

  /** Dereference a pointer to a decorated entity. */
  function GetChain(w: World, id: Id): (r: Result<Chain>)
    ensures r.Ok? <==> Live(w, id) && w.entities[id].value.Active?
    ensures r.Ok? ==> r.value == w.entities[id].value.chain
  {
    if Live(w, id) && w.entities[id].value.Active? then Ok(w.entities[id].value.chain)
    else Crash(Dangling(id))
  }

  function PutChain(w: World, id: Id, c: Chain): (r: World)
    ensures r.entities == w.entities[id := Some(Active(c))]
    ensures r.(entities := w.entities) == w
  {
    w.(entities := w.entities[id := Some(Active(c))])
  }

  /** `Package::handOff`: the owner, if any, receives the package. */
  function HandOff(w: World, pid: Id, p: Package): (r: Result<World>)
    ensures p.owner.None? ==> r == Ok(w)
    ensures p.owner.Some? ==> (r.Ok? <==> GetRobot(w, p.owner.value).Ok?)
    ensures p.owner.Some? && r.Ok? ==>
      r.value == PutRobot(w, p.owner.value, Receive(GetRobot(w, p.owner.value).value, pid))
    ensures r.Ok? ==> SlotsKept(w, r.value)
  {
    match p.owner
    case None => Ok(w)
    case Some(o) =>
      var robot :- GetRobot(w, o);
      Ok(PutRobot(w, o, Receive(robot, pid)))
  }

  /** Apply a batch of `logEvent` calls. */
  function Log(w: World, calls: seq<T.LogCall>): (r: World)
    ensures r.(log := w.log) == w
    ensures r.log == T.LogAll(w.log, calls)
  {
    w.(log := T.LogAll(w.log, calls))
  }

  /** `SimulationModel::notify`: the message goes to the view. */
  function Say(w: World, msg: string): (r: World)
    ensures r.notes == w.notes + [msg]
    ensures r.(notes := w.notes) == w
  {
    w.(notes := w.notes + [msg])
  }

  /** Whether the entity is the undecorated-core helper drone `HelperDrone`. */
  predicate IsHelperEntity(w: World, id: Id) {
    Live(w, id) && w.entities[id].value.Active? && Innermost(w.entities[id].value.chain).HelperCore?
  }

  /** The messages of a batch of deliveries, in order. */
  function Messages(ds: seq<P.Delivery>): (r: seq<string>)
    ensures |r| == |ds|
    ensures forall i :: 0 <= i < |ds| ==> r[i] == ds[i].msg
  {
    if ds == [] then [] else [ds[0].msg] + Messages(ds[1..])
  }

  /** Carry out plain `notify` calls. The model forwards to the view; a helper
      drone's `notify` forwards to the model too; nothing else observes. */
  function DeliverNotes(w: World, ds: seq<P.Delivery>): (r: Result<World>)
    ensures r.Ok? ==> r.value.(notes := w.notes) == w
    ensures (forall i :: 0 <= i < |ds| ==> ds[i].target == ModelObserver) ==>
      r == Ok(w.(notes := w.notes + Messages(ds)))
    decreases |ds|
  {
    if ds == [] then
      assert w.notes + Messages(ds) == w.notes;
      Ok(w)
    else
      var d := ds[0];
      if !(d.target == ModelObserver || Live(w, d.target)) then Crash(Dangling(d.target))
      else
        var w1 := if d.target == ModelObserver || IsHelperEntity(w, d.target) then Say(w, d.msg) else w;
        DeliverNotesStep(w, ds, w1);
        DeliverNotes(w1, ds[1..])
  }

  lemma DeliverNotesStep(w: World, ds: seq<P.Delivery>, w1: World)
    requires ds != []
    requires w1 == Say(w, ds[0].msg) || w1 == w
    requires ds[0].target == ModelObserver ==> w1 == Say(w, ds[0].msg)
    ensures w1.(notes := w.notes) == w
    ensures ds[0].target == ModelObserver ==> w1.notes + Messages(ds[1..]) == w.notes + Messages(ds)
  {
    var m := Messages(ds[1..]);
    assert Messages(ds) == [ds[0].msg] + m;
    if ds[0].target == ModelObserver {
      calc {
        w1.notes + m;
        (w.notes + [ds[0].msg]) + m;
        w.notes + ([ds[0].msg] + m);
      }
    }
  }

  /** `notifyObservers(msg)` from an entity with publisher `pub`. */
  function Announce(w: World, pub: P.Publisher, msg: string): (r: Result<World>)
    ensures pub.observers == {ModelObserver} ==> r == Ok(Say(w, msg))
    ensures r.Ok? ==> r.value.(notes := w.notes) == w
  {
    var ds := P.NotifyObservers(pub, msg);
    if pub.observers == {ModelObserver} then
      assert ds == [P.Notify(ModelObserver, msg)] by {
        assert |ds| == 1 && ds[0].target in pub.observers;
      }
      assert Messages(ds) == [msg];
      DeliverNotes(w, ds)
    else
      DeliverNotes(w, ds)
  }

  /** No slot of the entity map is added, dropped, filled or emptied, nothing is
      constructed, registered with the ATC or marked for removal: an entity's
      `update` rewrites only the objects the slots point to. */
  ghost predicate SlotsKept(w: World, w': World) {
    && w'.entities.Keys == w.entities.Keys
    && w'.removed == w.removed && w'.atc == w.atc && w'.nextId == w.nextId
    && forall k :: k in w.entities ==> (w'.entities[k].None? <==> w.entities[k].None?)
  }

  /** The level `sortScheduledDeliveries` compares: the package's priority level. */
  function LevelOf(w: World, id: Id): int {
    if IsPackage(w, id) then Level(w.entities[id].value.pkg) else 0
  }

  function KeyOf(w: World): Id -> int {
    (id: Id) => LevelOf(w, id)
  }

  /** The first queue entry that does not refer to a live package. */
  function FirstDangling(w: World, q: seq<Id>): (r: Option<Id>)
    ensures r.None? <==> forall i :: 0 <= i < |q| ==> IsPackage(w, q[i])
    ensures r.Some? ==> r.value in q && !IsPackage(w, r.value)
    decreases |q|
  {
    if q == [] then None
    else if !IsPackage(w, q[0]) then Some(q[0])
    else
      var r := FirstDangling(w, q[1..]);
      assert forall i :: 1 <= i < |q| ==> q[i] == q[1..][i - 1];
      r
  }

  /** The queue is in non-decreasing order of priority level. */
  predicate QueueSorted(w: World) {
    forall i, j :: 0 <= i < j < |w.queue| ==> LevelOf(w, w.queue[i]) <= LevelOf(w, w.queue[j])
  }

  /** `sortScheduledDeliveries`: the queue reordered by priority level. Sorting two or
      more entries compares each of them, so a dangling entry is dereferenced. */
  function SortQueue(w: World): (r: Result<World>)
    ensures r.Ok? ==> r.value.(queue := w.queue) == w
    ensures r.Ok? ==> QueueSorted(r.value) && multiset(r.value.queue) == multiset(w.queue)
    ensures r.Crash? <==> |w.queue| >= 2 && exists i :: 0 <= i < |w.queue| && !IsPackage(w, w.queue[i])
  {
    var bad := FirstDangling(w, w.queue);
    if |w.queue| >= 2 && bad.Some? then Crash(Dangling(bad.value))
    else
      var q := Q.SortBy(w.queue, KeyOf(w));
      assert forall i, j :: 0 <= i < j < |q| ==> KeyOf(w)(q[i]) <= KeyOf(w)(q[j]);
      Ok(w.(queue := q))
  }

  /** Every queue entry is a live package. */
  predicate QueueHealthy(w: World) {
    forall i :: 0 <= i < |w.queue| ==> IsPackage(w, w.queue[i])
  }
}
