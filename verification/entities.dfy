/**
  The simulated entities and the decorator chains that wrap them. An entity that
  the factories decorate is a `Chain`: layers (colour, air-traffic control) around
  one concrete core. Every getter and mutator a layer does not override is passed
  down to the wrapped entity, so the state those calls touch lives in the core.
 */
module Entities {
  import opened Common
  import P = Publisher
  import Colour
  import Reroute

  /** The state every entity carries through IEntity: identity, kinematics, its
      observers and whether the simulation model has been linked to it. */
  datatype Body = Body(id: Id, name: string, position: Vec3, direction: Vec3, speed: real,
                       pub: P.Publisher, linked: bool)

  /** The members `Drone` declares. The leader and helper redeclare `available` and
      `pickedUp` and only ever update their own copies; `package` they share. */
  datatype DroneBase = DroneBase(available: bool, pickedUp: bool, package: Option<Id>)

  datatype Leader = Leader(
    body: Body,
    base: DroneBase,
    available: bool,
    pickedUp: bool,
    toPackage: Option<Leg>,
    toFinal: Option<Leg>,
    toCharger: Option<Leg>,
    battery: real,
    responses: map<Id, real>,
    distance: real,
    lastPosition: Vec3)

  datatype Helper = Helper(
    body: Body,
    base: DroneBase,
    available: bool,
    pickedUp: bool,
    toPackage: Option<Leg>,
    toFinal: Option<Leg>,
    distance: real,
    lastPosition: Vec3)

  /** A plain `Drone`, which uses the `Drone`-level flags. */
  datatype Generic = Generic(
    body: Body,
    base: DroneBase,
    toPackage: Option<Leg>,
    toFinal: Option<Leg>,
    distance: real,
    lastPosition: Vec3)

  /** Helicopter and human test their leg for completion before moving along it,
      so the last completion report is kept with the leg. */
  datatype Helicopter = Helicopter(
    body: Body,
    movement: Option<Leg>,
    movementDone: bool,
    distance: real,
    mileCounter: nat,
    lastPosition: Vec3)

  datatype Human = Human(
    body: Body,
    movement: Option<Leg>,
    movementDone: bool,
    atKeller: bool,
    distance: real,
    lastPosition: Vec3)

  datatype Airplane = Airplane(
    body: Body,
    toDestination: Option<Leg>,
    distance: real,
    lastPosition: Vec3)

  datatype Core =
    | LeaderCore(leader: Leader)
    | HelperCore(helper: Helper)
    | DroneCore(drone: Generic)
    | HelicopterCore(helicopter: Helicopter)
    | HumanCore(human: Human)
    | AirplaneCore(airplane: Airplane)
    | StationCore(station: Body)

  /** A decorator layer. The drone ATC decorator is itself a `Drone`, and its own
      inherited `pickedUp` (never assigned) is what its package-follow test reads. */
  datatype Layer =
    | ColourLayer(colour: Colour.State)
    | AtcLayer(kind: Reroute.Kind, atc: Reroute.State, ownPickedUp: bool)

  datatype Chain = Bare(core: Core) | Wrap(layer: Layer, sub: Chain)

  /** `Vector3()`, the position members start from when a constructor does not set them. */
  function Origin(): Vec3 { Vec3(0.0, 0.0, 0.0) }

  /** What the `Drone` constructor leaves in the `Drone` members. */
  function FreshDroneBase(): (b: DroneBase)
    ensures b.available && !b.pickedUp && b.package.None?
  {
    DroneBase(true, false, None)
  }

  function NewLeader(b: Body): (l: Leader)
    ensures l.body == b && l.base == FreshDroneBase()
    ensures l.available && !l.pickedUp
    ensures l.toPackage.None? && l.toFinal.None? && l.toCharger.None?
    ensures l.battery == 100.0 && l.responses == map[]
  {
    Leader(b, FreshDroneBase(), true, false, None, None, None, 100.0, map[], 0.0, Origin())
  }

  function NewHelper(b: Body): (h: Helper)
    ensures h.body == b && h.base == FreshDroneBase()
    ensures h.available && !h.pickedUp && h.toPackage.None? && h.toFinal.None?
  {
    Helper(b, FreshDroneBase(), true, false, None, None, 0.0, Origin())
  }

  function NewGeneric(b: Body): (d: Generic)
    ensures d.body == b && d.base == FreshDroneBase() && d.toPackage.None? && d.toFinal.None?
  {
    Generic(b, FreshDroneBase(), None, None, 0.0, Origin())
  }

  function NewHelicopter(b: Body): (h: Helicopter)
    ensures h.body == b && h.movement.None? && h.mileCounter == 0 && h.distance == 0.0
    ensures h.lastPosition == b.position
  {
    Helicopter(b, None, false, 0.0, 0, b.position)
  }

  function NewHuman(b: Body): (h: Human)
    ensures h.body == b && h.movement.None? && !h.atKeller && h.distance == 0.0
  {
    Human(b, None, false, false, 0.0, Origin())
  }

  function NewAirplane(b: Body): (a: Airplane)
    ensures a.body == b && a.toDestination.None? && a.distance == 0.0
    ensures a.lastPosition == b.position
  {
    Airplane(b, None, 0.0, b.position)
  }

  function CoreBody(k: Core): Body {
    match k
    case LeaderCore(l) => l.body
    case HelperCore(h) => h.body
    case DroneCore(d) => d.body
    case HelicopterCore(h) => h.body
    case HumanCore(h) => h.body
    case AirplaneCore(a) => a.body
    case StationCore(b) => b
  }

  function WithCoreBody(k: Core, b: Body): (r: Core)
    ensures CoreBody(r) == b
  {
    match k
    case LeaderCore(l) => LeaderCore(l.(body := b))
    case HelperCore(h) => HelperCore(h.(body := b))
    case DroneCore(d) => DroneCore(d.(body := b))
    case HelicopterCore(h) => HelicopterCore(h.(body := b))
    case HumanCore(h) => HumanCore(h.(body := b))
    case AirplaneCore(a) => AirplaneCore(a.(body := b))
    case StationCore(_) => StationCore(b)
  }

  function Innermost(c: Chain): Core {
    match c
    case Bare(k) => k
    case Wrap(_, s) => Innermost(s)
  }

  function Layers(c: Chain): seq<Layer> {
    match c
    case Bare(_) => []
    case Wrap(l, s) => [l] + Layers(s)
  }

  /** `getId`, `getName`, `getPosition`, `getDirection`, `getSpeed`: each layer asks
      the entity it wraps. */
  function GetId(c: Chain): Id {
    match c
    case Bare(k) => CoreBody(k).id
    case Wrap(_, s) => GetId(s)
  }

  function GetName(c: Chain): string {
    match c
    case Bare(k) => CoreBody(k).name
    case Wrap(_, s) => GetName(s)
  }

  function GetPosition(c: Chain): Vec3 {
    match c
    case Bare(k) => CoreBody(k).position
    case Wrap(_, s) => GetPosition(s)
  }

  function GetDirection(c: Chain): Vec3 {
    match c
    case Bare(k) => CoreBody(k).direction
    case Wrap(_, s) => GetDirection(s)
  }

  function GetSpeed(c: Chain): real {
    match c
    case Bare(k) => CoreBody(k).speed
    case Wrap(_, s) => GetSpeed(s)
  }

  /** Through any chain, the getters answer with the innermost entity's values. */
  lemma {:induction false} GettersReachInnermost(c: Chain)
    ensures var b := CoreBody(Innermost(c));
      && GetId(c) == b.id && GetName(c) == b.name && GetPosition(c) == b.position
      && GetDirection(c) == b.direction && GetSpeed(c) == b.speed
  {
    match c
    case Bare(_) =>
    case Wrap(_, s) => GettersReachInnermost(s);
  }

  /** Replace the innermost entity, keeping every layer: how a forwarded mutator
      reaches the core. */
  function WithInnermost(c: Chain, k: Core): (r: Chain)
    ensures Innermost(r) == k
    ensures Layers(r) == Layers(c)
  {
    match c
    case Bare(_) => Bare(k)
    case Wrap(l, s) => Wrap(l, WithInnermost(s, k))
  }

  /** Apply a change to the innermost entity's body. */
  function WithInnermostBody(c: Chain, b: Body): (r: Chain)
    ensures Layers(r) == Layers(c)
    ensures CoreBody(Innermost(r)) == b
    ensures Innermost(r) == WithCoreBody(Innermost(c), b)
  {
    WithInnermost(c, WithCoreBody(Innermost(c), b))
  }

  /** `setPosition`: only the innermost entity moves; every layer is unchanged. */
  function SetPosition(c: Chain, p: Vec3): (r: Chain)
    ensures Layers(r) == Layers(c)
    ensures GetPosition(r) == p
    ensures GetId(r) == GetId(c) && GetName(r) == GetName(c) && GetDirection(r) == GetDirection(c)
  {
    GettersReachInnermost(c);
    var r := WithInnermostBody(c, CoreBody(Innermost(c)).(position := p));
    GettersReachInnermost(r);
    r
  }

  /** `setDirection`: only the innermost entity turns; every layer is unchanged. */
  function SetDirection(c: Chain, d: Vec3): (r: Chain)
    ensures Layers(r) == Layers(c)
    ensures GetDirection(r) == d
    ensures GetId(r) == GetId(c) && GetName(r) == GetName(c) && GetPosition(r) == GetPosition(c)
  {
    GettersReachInnermost(c);
    var r := WithInnermostBody(c, CoreBody(Innermost(c)).(direction := d));
    GettersReachInnermost(r);
    r
  }

  /** `linkModel`: the link is recorded on the innermost entity. */
  function LinkModel(c: Chain): (r: Chain)
    ensures Layers(r) == Layers(c)
    ensures CoreBody(Innermost(r)) == CoreBody(Innermost(c)).(linked := true)
  {
    WithInnermostBody(c, CoreBody(Innermost(c)).(linked := true))
  }

  /** `addObserver`: the subscription is recorded on the innermost entity. */
  function AddObserver(c: Chain, o: Id): (r: Chain)
    ensures Layers(r) == Layers(c)
    ensures CoreBody(Innermost(r)).pub == P.AddObserver(CoreBody(Innermost(c)).pub, o)
    ensures o in CoreBody(Innermost(r)).pub.observers
    ensures CoreBody(Innermost(r)).(pub := CoreBody(Innermost(c)).pub) == CoreBody(Innermost(c))
  {
    var b := CoreBody(Innermost(c));
    WithInnermostBody(c, b.(pub := P.AddObserver(b.pub, o)))
  }

  /** `removeObserver`: the subscription is dropped from the innermost entity. */
  function RemoveObserver(c: Chain, o: Id): (r: Chain)
    ensures Layers(r) == Layers(c)
    ensures CoreBody(Innermost(r)).pub == P.RemoveObserver(CoreBody(Innermost(c)).pub, o)
    ensures o !in CoreBody(Innermost(r)).pub.observers
    ensures CoreBody(Innermost(r)).(pub := CoreBody(Innermost(c)).pub) == CoreBody(Innermost(c))
  {
    var b := CoreBody(Innermost(c));
    WithInnermostBody(c, b.(pub := P.RemoveObserver(b.pub, o)))
  }

  /** `isRerouted` as the ATC sees it: the outermost layer's flag when it is an ATC
      decorator; an undecorated entity reports false. */
  function IsRerouted(c: Chain): bool {
    c.Wrap? && c.layer.AtcLayer? && c.layer.atc.rerouted
  }
}
