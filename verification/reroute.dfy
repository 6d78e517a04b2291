/**
  The air-traffic reroute state every flying decorator carries: whether it is
  rerouted, the pending reroute leg, and the time since the last announced reroute.
  The three ATC decorators (drone, helicopter, airplane) differ only in how far and
  at what angle they deflect; their per-tick state machine is the same.
 */
module Reroute {
  import opened Common

  datatype Kind = DroneAtc | HelicopterAtc | AirplaneAtc

  datatype State = State(rerouted: bool, leg: Option<Leg>, timeSinceReroute: real)

  /** The debounce window: a finished reroute is announced only when more than this
      much un-rerouted time has passed since the last announcement. */
  const AnnounceGap: real := 5.0

  /** A freshly built decorator: not rerouted, no reroute leg, and a clock of 500,
      far past the debounce window. */
  function Initial(): (s: State)
    ensures !s.rerouted && s.leg.None?
    ensures s.timeSinceReroute > AnnounceGap
  {
    State(false, None, 500.0)
  }

  /** Deflection angle in degrees, turning in the x-z plane. */
  function Angle(k: Kind): real {
    match k
    case DroneAtc => 90.0
    case HelicopterAtc => 20.0
    case AirplaneAtc => 15.0
  }

  /** How far along the deflected direction the reroute target lies. */
  function Reach(k: Kind): real {
    match k
    case DroneAtc => 40.0
    case HelicopterAtc => 100.0
    case AirplaneAtc => 400.0
  }

  /** The direction rotated by the kind's angle in the x-z plane; the drone flattens
      it to y = 0, the others keep the vertical component. */
  function Deflect(k: Kind, g: Geometry, dir: Vec3): Vec3 {
    var c := g.cosDeg(Angle(k));
    var s := g.sinDeg(Angle(k));
    Vec3(dir.x * c - dir.z * s, if k == DroneAtc then 0.0 else dir.y, dir.x * s + dir.z * c)
  }

  /** The point the reroute leg heads for. */
  function Target(k: Kind, g: Geometry, pos: Vec3, dir: Vec3): (t: Vec3)
    ensures k == DroneAtc ==> t.y == pos.y
    ensures k != DroneAtc ==> t.y == pos.y + dir.y * Reach(k)
    ensures t.x == pos.x + Deflect(k, g, dir).x * Reach(k)
    ensures t.z == pos.z + Deflect(k, g, dir).z * Reach(k)
  {
    Plus(pos, Scale(Deflect(k, g, dir), Reach(k)))
  }

  /** `reroute()`: a new leg from the current position to the deflected target
      replaces any pending one, and the decorator is marked rerouted. The clock is
      left alone. */
  function Reroute(k: Kind, g: Geometry, s: State, pos: Vec3, dir: Vec3): (r: State)
    ensures r.rerouted
    ensures r.leg == Some(Leg(pos, Target(k, g, pos, dir)))
    ensures r.timeSinceReroute == s.timeSinceReroute
  {
    State(true, Some(Leg(pos, Target(k, g, pos, dir))), s.timeSinceReroute)
  }

  /** What one `update(dt)` of an ATC decorator does. */
  datatype Step =
      /** The reroute leg moved the entity; the wrapped entity was not updated. */
    | Rerouting(state: State, announce: bool)
      /** No reroute leg: the clock advanced and the wrapped entity must be updated. */
    | Delegate(state: State)

  /** `update(dt)`: with a pending leg, move along it only (`completed` is whether the
      leg reports completion after the move); on completion announce if the clock is
      past the window (resetting it), and drop the leg and the flag either way. With
      no leg, add `dt` to the clock and hand the tick to the wrapped entity. */
  function Tick(s: State, dt: real, completed: bool): (r: Step)
    ensures s.leg.None? <==> r.Delegate?
    ensures r.Delegate? ==> r.state == s.(timeSinceReroute := s.timeSinceReroute + dt)
    ensures r.Rerouting? && !completed ==> r.state == s && !r.announce
    ensures r.Rerouting? && completed ==>
      && r.state.leg.None? && !r.state.rerouted
      && r.announce == (s.timeSinceReroute > AnnounceGap)
      && r.state.timeSinceReroute == (if r.announce then 0.0 else s.timeSinceReroute)
  {
    match s.leg
    case None => Delegate(s.(timeSinceReroute := s.timeSinceReroute + dt))
    case Some(_) =>
      if !completed then Rerouting(s, false)
      else
        var announce := s.timeSinceReroute > AnnounceGap;
        Rerouting(State(false, None, if announce then 0.0 else s.timeSinceReroute), announce)
  }

  /** The first reroute a decorator ever completes is always announced. */
  lemma FirstRerouteAnnounced(k: Kind, g: Geometry, pos: Vec3, dir: Vec3, dt: real)
    ensures var s := Reroute(k, g, Initial(), pos, dir);
      Tick(s, dt, true) == Rerouting(State(false, None, 0.0), true)
  {
  }

  /** The state after a run of ticks, each given by its `dt` and whether the
      reroute leg reports completion on it. */
  function ClockAfter(s: State, run: seq<(real, bool)>): State
    decreases |run|
  {
    if run == [] then s
    else ClockAfter(Tick(s, run[0].0, run[0].1).state, run[1..])
  }

  /** Sum of the `dt`s of the ticks of `run` that, started from `s`, delegate. */
  function DelegatedTime(s: State, run: seq<(real, bool)>): real
    decreases |run|
  {
    if run == [] then 0.0
    else
      var step := Tick(s, run[0].0, run[0].1);
      (if step.Delegate? then run[0].0 else 0.0) + DelegatedTime(step.state, run[1..])
  }

  /** Whether a run started from `s` announces at some tick. */
  predicate Announces(s: State, run: seq<(real, bool)>)
    decreases |run|
  {
    run != [] &&
    var step := Tick(s, run[0].0, run[0].1);
    (step.Rerouting? && step.announce) || Announces(step.state, run[1..])
  }

  /** Over any run without an announcement, the clock grows by exactly the delegated
      time: rerouting ticks contribute nothing. */
  lemma {:induction false} ClockCountsDelegatedTime(s: State, run: seq<(real, bool)>)
    requires !Announces(s, run)
    ensures ClockAfter(s, run).timeSinceReroute == s.timeSinceReroute + DelegatedTime(s, run)
    decreases |run|
  {
    if run != [] {
      ClockCountsDelegatedTime(Tick(s, run[0].0, run[0].1).state, run[1..]);
    }
  }

  lemma {:induction false} DelegatedTimeNonNegative(s: State, run: seq<(real, bool)>)
    requires forall i :: 0 <= i < |run| ==> run[i].0 >= 0.0
    ensures DelegatedTime(s, run) >= 0.0
    decreases |run|
  {
    if run != [] {
      DelegatedTimeNonNegative(Tick(s, run[0].0, run[0].1).state, run[1..]);
    }
  }

  /** The debounce: a run whose delegated time keeps the clock within `AnnounceGap`
      announces nothing, however many reroutes complete in it. In particular, right
      after an announcement (clock 0) the next one needs more than `AnnounceGap` of
      un-rerouted time. */
  lemma {:induction false} SilentWithinGap(s: State, run: seq<(real, bool)>)
    requires forall i :: 0 <= i < |run| ==> run[i].0 >= 0.0
    requires s.timeSinceReroute + DelegatedTime(s, run) <= AnnounceGap
    ensures !Announces(s, run)
    decreases |run|
  {
    if run != [] {
      var step := Tick(s, run[0].0, run[0].1);
      DelegatedTimeNonNegative(step.state, run[1..]);
      SilentWithinGap(step.state, run[1..]);
    }
  }
}
