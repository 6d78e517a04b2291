/**
  The colour decorator of a drone: after the wrapped drone's tick it picks a hue
  from the drone's kind, whether it has a package and the two delivery flags it
  reads, and, while a package is assigned, from the progress made towards the
  package or towards its destination.
 */
module Colour {
  import opened Common

  /** What `dynamic_cast` finds inside the decorator. */
  datatype DroneKind = LeaderKind | HelperKind | GenericKind

  datatype State = State(hue: real, saturation: real, light: real,
                         distToPackage: real, distToDestination: real)

  /** The positions the gradient is measured against. */
  datatype Tracked = Tracked(position: Vec3, destination: Vec3)

  /** A new decorator: the given colour and no reference distances yet (-1). */
  function Initial(h: real, s: real, l: real): (c: State)
    ensures c.hue == h && c.saturation == s && c.light == l
    ensures c.distToPackage < 0.0 && c.distToDestination < 0.0
  {
    State(h, s, l, -1.0, -1.0)
  }

  /** `std::max(0.0, std::min(1.0, 1 - remaining / reference))` in IEEE doubles: a zero
      reference makes a positive remainder infinite (progress 0) and a zero or
      negative one give progress 1, `std::min` returning its first argument when the
      comparison with NaN fails. */
  function Progress(remaining: real, reference: real): (p: real)
    ensures 0.0 <= p <= 1.0
    ensures reference != 0.0 ==> p == Clamp01(1.0 - remaining / reference)
    ensures reference == 0.0 ==> (p == 0.0 <==> remaining > 0.0)
    ensures reference == 0.0 ==> (p == 1.0 <==> remaining <= 0.0)
  {
    if reference == 0.0 then (if remaining > 0.0 then 0.0 else 1.0)
    else Clamp01(1.0 - remaining / reference)
  }

  /** The hue shown with no package: purple (leader, generic) or pink (helper) when the
      flag reads unavailable, blue (leader, generic) or cyan (helper) when it reads available. */
  function IdleHue(kind: DroneKind, available: bool): (h: real)
    ensures !available ==> (h == 300.0 <==> kind == HelperKind) && (h == 270.0 <==> kind != HelperKind)
    ensures available ==> (h == 180.0 <==> kind == HelperKind) && (h == 240.0 <==> kind != HelperKind)
  {
    if !available then (if kind == HelperKind then 300.0 else 270.0)
    else (if kind == HelperKind then 180.0 else 240.0)
  }

  /** `DroneColorDecorator::update` after the wrapped drone has ticked, given what it
      reads back: the package (if any), the `available`/`pickedUp` flags it sees and
      the drone's position. */
  function Update(c: State, kind: DroneKind, pkg: Option<Tracked>, available: bool, pickedUp: bool,
                  g: Geometry, pos: Vec3): (r: State)
    ensures r.saturation == 100.0 && r.light == 50.0
    ensures pkg.None? ==> r.distToPackage == -1.0 && r.distToDestination == -1.0
    ensures pkg.None? ==> r.hue == IdleHue(kind, available)
    ensures pkg.Some? && !pickedUp ==> 0.0 <= r.hue <= 60.0
    ensures pkg.Some? && pickedUp ==> 60.0 <= r.hue <= 120.0
    ensures pkg.Some? && c.distToPackage >= 0.0 ==> r.distToPackage == c.distToPackage
    ensures pkg.Some? && c.distToPackage < 0.0 ==> r.distToPackage == Dist(g, pos, pkg.value.position)
    ensures pkg.Some? && c.distToDestination >= 0.0 ==> r.distToDestination == c.distToDestination
    ensures pkg.Some? && c.distToDestination < 0.0 ==>
      r.distToDestination == Dist(g, pkg.value.position, pkg.value.destination)
  {
    match pkg
    case None => State(IdleHue(kind, available), 100.0, 50.0, -1.0, -1.0)
    case Some(p) =>
      var toPackage := if c.distToPackage < 0.0 then Dist(g, pos, p.position) else c.distToPackage;
      var toDestination :=
        if c.distToDestination < 0.0 then Dist(g, p.position, p.destination) else c.distToDestination;
      var hue :=
        if pickedUp then 60.0 + 60.0 * Progress(Dist(g, pos, p.destination), toDestination)
        else 60.0 * Progress(Dist(g, pos, p.position), toPackage);
      State(hue, 100.0, 50.0, toPackage, toDestination)
  }

  /** What the decorator actually shows for a leader or helper: it reads the
      `Drone`-level flags, which the leader and helper never touch (they update their
      own same-named members), so they stay at `available = true`, `pickedUp = false`.
      Hence only blue (leader) or cyan (helper) without a package, and only the
      red-to-yellow hues [0, 60] with one: never purple, pink, or yellow-to-green. */
  lemma ShadowedFlagsPinColours(c: State, kind: DroneKind, pkg: Option<Tracked>, g: Geometry, pos: Vec3)
    requires kind != GenericKind
    ensures var r := Update(c, kind, pkg, true, false, g, pos);
      && (pkg.None? && kind == LeaderKind ==> r.hue == 240.0)
      && (pkg.None? && kind == HelperKind ==> r.hue == 180.0)
      && (pkg.Some? ==> 0.0 <= r.hue <= 60.0)
      && r.hue != 270.0 && r.hue != 300.0
  {
  }
}
