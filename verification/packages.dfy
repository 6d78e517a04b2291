/**
  Packages and the robots that receive them. The repository carries two copies of
  the package logic that disagree: the team copy leaves `pickedUp` alone when a
  delivery is initialised and names the default priority "Standard"; the service
  copy sets `pickedUp` in `initDelivery` and names the default "Stanard". Both are
  kept, selected by `Variant`.
 */
module Packages {
  import opened Common

  datatype Variant = Team | Service

  /** A priority strategy object: the name and level it reports (lower is more
      urgent). The concrete levels are not part of this model; only their order matters. */
  datatype Shipping = Shipping(name: string, level: int)

  /** The three priority strategies the scheduler can install. */
  datatype Catalog = Catalog(standard: Shipping, noRush: Shipping, expedited: Shipping)

  datatype Package = Package(
    id: Id,
    name: string,
    requiresDelivery: bool,
    owner: Option<Id>,
    destination: Vec3,
    position: Vec3,
    direction: Vec3,
    priority: Option<Shipping>,
    pickedUp: bool,
    delivered: bool,
    scheduled: bool,
    strategyName: string)

  datatype Robot = Robot(id: Id, name: string, position: Vec3, requestedDelivery: bool, received: Option<Id>)

  /** A package as constructed: it still requires delivery, has no owner and no
      priority, and is neither picked up, delivered nor scheduled. */
  function NewPackage(id: Id, name: string, position: Vec3, direction: Vec3): (p: Package)
    ensures p.id == id && p.name == name && p.position == position
    ensures p.destination == Vec3(0.0, 0.0, 0.0)
    ensures p.requiresDelivery && p.owner.None? && p.priority.None?
    ensures !p.pickedUp && !p.delivered && !p.scheduled
  {
    // the destination is a default-constructed vector until `initDelivery` sets it
    Package(id, name, true, None, Vec3(0.0, 0.0, 0.0), position, direction, None, false, false, false, "")
  }

  /** Whether the priority may still change. */
  predicate Open(p: Package) {
    !p.pickedUp && !p.delivered
  }

  /** `setPriority`: installs the new strategy only while the package is neither
      picked up nor delivered; otherwise the package is unchanged. */
  function SetPriority(p: Package, s: Shipping): (r: Package)
    ensures Open(p) ==> r.priority == Some(s)
    ensures !Open(p) ==> r == p
    ensures r.(priority := p.priority) == p
  {
    if Open(p) then p.(priority := Some(s)) else p
  }

  /** `getPriorityLevel`: the strategy's level, or 1 when none is set. */
  function Level(p: Package): (r: int)
    ensures p.priority.None? ==> r == 1
    ensures p.priority.Some? ==> r == p.priority.value.level
  {
    match p.priority
    case None => 1
    case Some(s) => s.level
  }

  /** The name reported when no strategy is set: the service copy misspells it. */
  function DefaultPriorityName(v: Variant): string {
    match v
    case Team => "Standard"
    case Service => "Stanard"
  }

  /** `getPriorityName`: the strategy's name, or the variant's default. */
  function PriorityName(v: Variant, p: Package): (r: string)
    ensures p.priority.None? && v == Team ==> r == "Standard"
    ensures p.priority.None? && v == Service ==> r == "Stanard"
    ensures p.priority.Some? ==> r == p.priority.value.name
  {
    match p.priority
    case None => DefaultPriorityName(v)
    case Some(s) => s.name
  }

  /** `isPickedUp`: sets the flag; nothing else changes. */
  function MarkPickedUp(p: Package): (r: Package)
    ensures r.pickedUp && r.(pickedUp := p.pickedUp) == p
  {
    p.(pickedUp := true)
  }

  /** `DeliveredPackage`: sets the flag; nothing else changes. */
  function MarkDelivered(p: Package): (r: Package)
    ensures r.delivered && r.(delivered := p.delivered) == p
  {
    p.(delivered := true)
  }

  /** A package bound to its receiving robot. */
  datatype Binding = Binding(pkg: Package, robot: Robot)

  /** `initDelivery(owner)`: the package takes the robot as owner, no longer requires
      delivery and heads for the robot's position; the robot stops requesting a
      delivery. The service copy also marks the package picked up. */
  function InitDelivery(v: Variant, p: Package, owner: Robot): (b: Binding)
    ensures b.pkg.owner == Some(owner.id)
    ensures !b.pkg.requiresDelivery
    ensures b.pkg.destination == owner.position
    ensures b.robot == owner.(requestedDelivery := false)
    ensures v == Team ==> b.pkg.pickedUp == p.pickedUp
    ensures v == Service ==> b.pkg.pickedUp
    ensures b.pkg.priority == p.priority && b.pkg.delivered == p.delivered
    ensures b.pkg.scheduled == p.scheduled && b.pkg.id == p.id && b.pkg.name == p.name
    ensures b.pkg.position == p.position
  {
    var q := p.(owner := Some(owner.id), requiresDelivery := false, destination := owner.position);
    Binding(if v == Service then q.(pickedUp := true) else q, owner.(requestedDelivery := false))
  }

  /** `Robot::receive`: the robot now holds the package. */
  function Receive(r: Robot, pkg: Id): (r': Robot)
    ensures r'.received == Some(pkg)
    ensures r'.(received := r.received) == r
  {
    r.(received := Some(pkg))
  }

  /** In the service copy, once a delivery is initialised no later `setPriority`
      has any effect. */
  lemma ServiceInitFreezesPriority(p: Package, owner: Robot, s: Shipping)
    ensures SetPriority(InitDelivery(Service, p, owner).pkg, s) == InitDelivery(Service, p, owner).pkg
  {
  }

  /** In the team copy, initialising a delivery leaves an open package open. */
  lemma TeamInitKeepsPriorityOpen(p: Package, owner: Robot, s: Shipping)
    requires Open(p)
    ensures SetPriority(InitDelivery(Team, p, owner).pkg, s).priority == Some(s)
  {
  }

  /** The operations the rest of the simulation performs on a package. */
  datatype PackageOp =
    | SetPriorityOp(s: Shipping)
    | PickUpOp
    | DeliverOp
    | ScheduleOp(scheduled: bool)
    | InitOp(v: Variant, owner: Robot)
    | MoveOp(position: Vec3, direction: Vec3)
    | StrategyOp(strategyName: string)

  function Apply(p: Package, op: PackageOp): Package {
    match op
    case SetPriorityOp(s) => SetPriority(p, s)
    case PickUpOp => MarkPickedUp(p)
    case DeliverOp => MarkDelivered(p)
    case ScheduleOp(b) => p.(scheduled := b)
    case InitOp(v, o) => InitDelivery(v, p, o).pkg
    case MoveOp(pos, dir) => p.(position := pos, direction := dir)
    case StrategyOp(n) => p.(strategyName := n)
  }

  function ApplyAll(p: Package, ops: seq<PackageOp>): Package
    decreases |ops|
  {
    if ops == [] then p else ApplyAll(Apply(p, ops[0]), ops[1..])
  }

  /** Nothing resets `pickedUp` or `delivered`, so once either holds the priority
      is frozen for good, whatever operations follow. */
  lemma {:induction false} PriorityFrozenOnceCarried(p: Package, ops: seq<PackageOp>)
    requires !Open(p)
    ensures !Open(ApplyAll(p, ops))
    ensures ApplyAll(p, ops).priority == p.priority
    decreases |ops|
  {
    if ops != [] {
      PriorityFrozenOnceCarried(Apply(p, ops[0]), ops[1..]);
    }
  }
}
