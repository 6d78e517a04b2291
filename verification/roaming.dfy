/**
  The per-tick rules of the entities that roam on their own: the helicopter with
  its mile counter, the human with the edge-triggered Keller hall event, and the
  airplane that crosses the map edge to edge. Each tick is a pure step giving the
  new entity, the telemetry calls it makes and the messages it sends its observers.
 */
module Roaming {
  import opened Common
  import opened Entities
  import T = Telemetry

  /** What one `update(dt)` produced. */
  datatype Stepped<E> = Stepped(next: E, logs: seq<T.LogCall>, said: seq<string>)

  const Timesteps: string := "timesteps_of_entity"
  const DistanceTraveled: string := "distance_traveled"
  const MilesTraveled: string := "miles_traveled"
  const VisitedKeller: string := "visited_keller"
  const ReachedDest: string := "reached_dest"

  /** The accumulated distance after which the helicopter counts a mile. */
  const MileLength: real := 1625.0
  /** `mileCounter` is an `unsigned int`. */
  const CounterModulus: nat := 0x1_0000_0000

  const Keller: Vec3 := Vec3(64.0, 254.0, -210.0)
  const KellerRadius: real := 85.0

  /** The cruising altitude and the z edges of the airplane's crossings. */
  const FlightLevel: real := 700.0
  const EdgeZ: real := 800.0

  function Timestep(id: Id): T.LogCall { T.LogCall(id, Timesteps, 1.0) }

  /** A random point at the same altitude: x in [-1400, 1500], z in [-800, 800]. */
  function RandomDestination(pos: Vec3, d: Draws): (t: Vec3)
    ensures t.y == pos.y
    ensures Fractions(d) ==> -1400.0 <= t.x <= 1500.0 && -800.0 <= t.z <= 800.0
  {
    Vec3(d.first * 2900.0 - 1400.0, pos.y, d.second * 1600.0 - 800.0)
  }

  function MileMessage(name: string, count: nat): string {
    name + " has traveled " + DecimalString(count) + " miles"
  }

  /** Sums over the calls of one moving tick: two fixed calls and at most one more. */
  lemma SumForTick(a: T.LogCall, b: T.LogCall, extra: seq<T.LogCall>, id: Id, metric: string)
    ensures T.SumFor([a, b] + extra, id, metric)
         == T.SumFor([a], id, metric) + T.SumFor([b], id, metric) + T.SumFor(extra, id, metric)
  {
    T.SumForAppend([a, b], extra, id, metric);
    T.SumForAppend([a], [b], id, metric);
    assert [a, b] == [a] + [b];
  }

  // ---------------------------------------------------------------- helicopter

  /** The helicopter moves on a tick exactly when it has a leg not yet completed. */
  predicate HelicopterMoves(h: Helicopter) { h.movement.Some? && !h.movementDone }

  /** `Helicopter::update`, given the leg's movement `m` and two random draws. */
  function HelicopterUpdate(h: Helicopter, g: Geometry, m: Motion, d: Draws): (r: Stepped<Helicopter>)
    ensures r.next.body.id == h.body.id && r.next.body.name == h.body.name
    ensures |r.logs| >= 1 && r.logs[0] == Timestep(h.body.id)
    ensures forall i :: 0 <= i < |r.logs| ==> r.logs[i].id == h.body.id
    ensures !HelicopterMoves(h) ==>
      && r.next.body == h.body && r.next.distance == h.distance && r.next.mileCounter == h.mileCounter
      && r.next.movement == Some(Leg(h.body.position, RandomDestination(h.body.position, d)))
      && !r.next.movementDone
      && r.logs == [Timestep(h.body.id)] && r.said == []
    ensures HelicopterMoves(h) ==>
      && r.next.body.position == m.position && r.next.lastPosition == m.position
      && r.next.movement == h.movement && r.next.movementDone == m.completed
      && |r.logs| >= 2
      && r.logs[1] == T.LogCall(h.body.id, DistanceTraveled, h.distance + Dist(g, h.lastPosition, m.position))
    ensures HelicopterMoves(h) && h.distance + Dist(g, h.lastPosition, m.position) > MileLength ==>
      && r.next.mileCounter == (h.mileCounter + 1) % CounterModulus
      && r.next.distance == 0.0
      && r.said == [MileMessage(h.body.name, r.next.mileCounter)]
      && |r.logs| == 3 && r.logs[2] == T.LogCall(h.body.id, MilesTraveled, 1.0)
    ensures HelicopterMoves(h) && h.distance + Dist(g, h.lastPosition, m.position) <= MileLength ==>
      && r.next.mileCounter == h.mileCounter
      && r.next.distance == h.distance + Dist(g, h.lastPosition, m.position)
      && r.said == [] && |r.logs| == 2
    ensures T.SumFor(r.logs, h.body.id, MilesTraveled) == |r.said| as real
    ensures T.SumFor(r.logs, h.body.id, Timesteps) == 1.0
  {
    var id := h.body.id;
    if HelicopterMoves(h) then
      var moved := h.body.(position := m.position, direction := m.direction);
      var total := h.distance + Dist(g, h.lastPosition, m.position);
      var logs := [Timestep(id), T.LogCall(id, DistanceTraveled, total)];
      var h' := h.(body := moved, movementDone := m.completed, lastPosition := m.position);
      var extra := if total > MileLength then [T.LogCall(id, MilesTraveled, 1.0)] else [];
      SumForTick(logs[0], logs[1], extra, id, MilesTraveled);
      SumForTick(logs[0], logs[1], extra, id, Timesteps);
      assert logs == [logs[0], logs[1]];
      if total > MileLength then
        var count := (h.mileCounter + 1) % CounterModulus;
        Stepped(h'.(distance := 0.0, mileCounter := count), logs + extra, [MileMessage(h.body.name, count)])
      else
        assert logs + extra == logs;
        Stepped(h'.(distance := total), logs, [])
    else
      var leg := Leg(h.body.position, RandomDestination(h.body.position, d));
      Stepped(h.(movement := Some(leg), movementDone := false), [Timestep(id)], [])
  }

  /** A run of helicopter ticks, one `(movement, draws)` pair per tick. */
  function HelicopterRun(h: Helicopter, g: Geometry, ticks: seq<(Motion, Draws)>): (r: Stepped<Helicopter>)
    ensures r.next.body.id == h.body.id && r.next.body.name == h.body.name
    decreases |ticks|
  {
    if ticks == [] then Stepped(h, [], [])
    else
      var s := HelicopterUpdate(h, g, ticks[0].0, ticks[0].1);
      var rest := HelicopterRun(s.next, g, ticks[1..]);
      Stepped(rest.next, s.logs + rest.logs, s.said + rest.said)
  }

  /** Counting one more then `k` more, modulo 2^32, is counting `k + 1` more. */
  lemma CountOnThenOn(a: nat, k: nat)
    requires a < CounterModulus
    ensures ((a + 1) % CounterModulus + k) % CounterModulus == (a + 1 + k) % CounterModulus
  {
    if a + 1 == CounterModulus {
      assert (a + 1) % CounterModulus == 0;
      assert (a + 1 + k) == CounterModulus + k;
      assert (CounterModulus + k) % CounterModulus == k % CounterModulus;
    }
  }

  /** Over any run the mile counter, the `miles_traveled` metric and the mile
      messages agree: each message is one more mile, counted modulo 2^32, and one
      more unit of the metric. Every tick logs exactly one timestep. */
  lemma {:induction false} HelicopterMilesAgree(h: Helicopter, g: Geometry, ticks: seq<(Motion, Draws)>)
    requires h.mileCounter < CounterModulus
    ensures var r := HelicopterRun(h, g, ticks);
      && r.next.mileCounter == (h.mileCounter + |r.said|) % CounterModulus
      && T.SumFor(r.logs, h.body.id, MilesTraveled) == |r.said| as real
      && T.SumFor(r.logs, h.body.id, Timesteps) == |ticks| as real
    decreases |ticks|
  {
    HelicopterCounterAgrees(h, g, ticks);
    if ticks != [] {
      var s := HelicopterUpdate(h, g, ticks[0].0, ticks[0].1);
      var rest := HelicopterRun(s.next, g, ticks[1..]);
      assert HelicopterRun(h, g, ticks) == Stepped(rest.next, s.logs + rest.logs, s.said + rest.said);
      HelicopterSays(h, g, ticks[0].0, ticks[0].1);
      HelicopterMilesAgree(s.next, g, ticks[1..]);
      T.SumForAppend(s.logs, rest.logs, h.body.id, MilesTraveled);
      T.SumForAppend(s.logs, rest.logs, h.body.id, Timesteps);
    }
  }

  /** The counter half of `HelicopterMilesAgree`. */
  lemma {:induction false} HelicopterCounterAgrees(h: Helicopter, g: Geometry, ticks: seq<(Motion, Draws)>)
    requires h.mileCounter < CounterModulus
    ensures HelicopterRun(h, g, ticks).next.mileCounter
         == (h.mileCounter + |HelicopterRun(h, g, ticks).said|) % CounterModulus
    decreases |ticks|
  {
    if ticks == [] {
      assert HelicopterRun(h, g, ticks) == Stepped(h, [], []);
    } else {
      var s := HelicopterUpdate(h, g, ticks[0].0, ticks[0].1);
      var rest := HelicopterRun(s.next, g, ticks[1..]);
      assert HelicopterRun(h, g, ticks) == Stepped(rest.next, s.logs + rest.logs, s.said + rest.said);
      HelicopterSays(h, g, ticks[0].0, ticks[0].1);
      HelicopterCounterAgrees(s.next, g, ticks[1..]);
      var said := s.said + rest.said;
      assert |said| == |s.said| + |rest.said|;
      CounterStep(h.mileCounter, s.next.mileCounter, |s.said|, |rest.said|, rest.next.mileCounter, |said|);
    }
  }

  /** A counter that stayed put or counted one, then counted `k` more, has counted
      `said + k` in all, modulo 2^32. */
  lemma CounterStep(c0: nat, c1: nat, said: nat, k: nat, c: nat, total: nat)
    requires c0 < CounterModulus
    requires (said == 0 && c1 == c0) || (said == 1 && c1 == (c0 + 1) % CounterModulus)
    requires c == (c1 + k) % CounterModulus
    requires total == said + k
    ensures c == (c0 + total) % CounterModulus
  {
    if said == 1 {
      CountOnThenOn(c0, k);
    }
  }

  /** One tick either says nothing and leaves the counter alone or says one mile
      message and counts one more mile. */
  lemma HelicopterSays(h: Helicopter, g: Geometry, m: Motion, d: Draws)
    ensures var s := HelicopterUpdate(h, g, m, d);
      || (|s.said| == 0 && s.next.mileCounter == h.mileCounter)
      || (|s.said| == 1 && s.next.mileCounter == (h.mileCounter + 1) % CounterModulus)
    ensures h.mileCounter < CounterModulus ==> HelicopterUpdate(h, g, m, d).next.mileCounter < CounterModulus
  {
  }

  /** The accumulator never holds more than a mile after a tick: the bound is an
      invariant of every run that starts within it. */
  lemma {:induction false} HelicopterAccumulatorBounded(h: Helicopter, g: Geometry, ticks: seq<(Motion, Draws)>)
    requires h.distance <= MileLength
    ensures HelicopterRun(h, g, ticks).next.distance <= MileLength
    decreases |ticks|
  {
    if ticks != [] {
      var s := HelicopterUpdate(h, g, ticks[0].0, ticks[0].1);
      HelicopterAccumulatorBounded(s.next, g, ticks[1..]);
    }
  }

  // ---------------------------------------------------------------- human

  predicate HumanMoves(h: Human) { h.movement.Some? && !h.movementDone }

  function KellerMessage(name: string): string { name + " visited Keller hall" }

  /** `Human::update`. Without a linked model no new leg is made. The simulator then
      deletes the old leg but keeps the dangling pointer; the model records no leg
      instead, which no run reaches, since `createEntity` links every human before
      its first update. */
  function HumanUpdate(h: Human, g: Geometry, m: Motion, d: Draws): (r: Stepped<Human>)
    ensures r.next.body.id == h.body.id && r.next.body.name == h.body.name
    ensures |r.logs| >= 1 && r.logs[0] == Timestep(h.body.id)
    ensures forall i :: 0 <= i < |r.logs| ==> r.logs[i].id == h.body.id
    ensures !HumanMoves(h) ==>
      && r.next.body == h.body && r.next.atKeller == h.atKeller && r.next.distance == h.distance
      && r.next.movement == (if h.body.linked then Some(Leg(h.body.position, RandomDestination(h.body.position, d))) else None)
      && r.logs == [Timestep(h.body.id)] && r.said == []
    ensures HumanMoves(h) ==>
      && r.next.body.position == m.position
      && r.next.distance == h.distance + Dist(g, h.lastPosition, m.position)
      && r.next.atKeller == (Dist(g, m.position, Keller) < KellerRadius)
      && |r.logs| >= 2 && r.logs[1] == T.LogCall(h.body.id, DistanceTraveled, r.next.distance)
    ensures r.said != [] <==> HumanMoves(h) && r.next.atKeller && !h.atKeller
    ensures r.said != [] ==>
      r.said == [KellerMessage(h.body.name)] && |r.logs| == 3 && r.logs[2] == T.LogCall(h.body.id, VisitedKeller, 1.0)
    ensures r.said == [] ==> |r.logs| <= 2
    ensures T.SumFor(r.logs, h.body.id, VisitedKeller) == |r.said| as real
  {
    var id := h.body.id;
    if HumanMoves(h) then
      var total := h.distance + Dist(g, h.lastPosition, m.position);
      var logs := [Timestep(id), T.LogCall(id, DistanceTraveled, total)];
      var near := Dist(g, m.position, Keller) < KellerRadius;
      var h' := h.(body := h.body.(position := m.position, direction := m.direction),
                   movementDone := m.completed, lastPosition := m.position,
                   distance := total, atKeller := near);
      var extra := if near && !h.atKeller then [T.LogCall(id, VisitedKeller, 1.0)] else [];
      SumForTick(logs[0], logs[1], extra, id, VisitedKeller);
      assert logs == [logs[0], logs[1]];
      if near && !h.atKeller then
        Stepped(h', logs + extra, [KellerMessage(h.body.name)])
      else
        assert logs + extra == logs;
        Stepped(h', logs, [])
    else
      var leg := if h.body.linked then Some(Leg(h.body.position, RandomDestination(h.body.position, d))) else None;
      Stepped(h.(movement := leg, movementDone := false), [Timestep(id)], [])
  }

  function HumanRun(h: Human, g: Geometry, ticks: seq<(Motion, Draws)>): (r: Stepped<Human>)
    ensures r.next.body.id == h.body.id && r.next.body.name == h.body.name
    decreases |ticks|
  {
    if ticks == [] then Stepped(h, [], [])
    else
      var s := HumanUpdate(h, g, ticks[0].0, ticks[0].1);
      var rest := HumanRun(s.next, g, ticks[1..]);
      Stepped(rest.next, s.logs + rest.logs, s.said + rest.said)
  }

  /** Over any run the `visited_keller` metric counts exactly the Keller messages,
      and every message sent is the Keller one. */
  lemma {:induction false} HumanVisitsAgree(h: Human, g: Geometry, ticks: seq<(Motion, Draws)>)
    ensures var r := HumanRun(h, g, ticks);
      && T.SumFor(r.logs, h.body.id, VisitedKeller) == |r.said| as real
      && (forall i :: 0 <= i < |r.said| ==> r.said[i] == KellerMessage(h.body.name))
    decreases |ticks|
  {
    if ticks != [] {
      var s := HumanUpdate(h, g, ticks[0].0, ticks[0].1);
      HumanVisitsAgree(s.next, g, ticks[1..]);
      var rest := HumanRun(s.next, g, ticks[1..]);
      T.SumForAppend(s.logs, rest.logs, h.body.id, VisitedKeller);
    }
  }

  /** The event is edge-triggered: two moving ticks in a row near Keller hall
      announce at most once. */
  lemma StayingNearIsSilent(h: Human, g: Geometry, m1: Motion, m2: Motion, d1: Draws, d2: Draws)
    requires HumanMoves(h) && !m1.completed
    requires Dist(g, m1.position, Keller) < KellerRadius && Dist(g, m2.position, Keller) < KellerRadius
    ensures |HumanUpdate(h, g, m1, d1).said| + |HumanUpdate(HumanUpdate(h, g, m1, d1).next, g, m2, d2).said| <= 1
    ensures HumanUpdate(HumanUpdate(h, g, m1, d1).next, g, m2, d2).said == []
  {
  }

  // ---------------------------------------------------------------- airplane

  /** Where an arriving airplane reappears and heads: the z edge opposite the sign of
      its arrival z, and the other edge, both at the flight level. */
  function Respawn(arrival: Vec3, d: Draws): (leg: Leg)
    ensures leg.start.y == FlightLevel && leg.target.y == FlightLevel
    ensures leg.start.z == (if arrival.z > 0.0 then -EdgeZ else EdgeZ)
    ensures leg.target.z == -leg.start.z
    ensures Fractions(d) ==> -1400.0 <= leg.start.x <= 1500.0 && -1400.0 <= leg.target.x <= 1500.0
  {
    var z := if arrival.z > 0.0 then -EdgeZ else EdgeZ;
    Leg(Vec3(d.first * 2900.0 - 1400.0, FlightLevel, z), Vec3(d.second * 2900.0 - 1400.0, FlightLevel, -z))
  }

  /** The first leg: to (-1600, 700, 800) from positive z, else to (1600, 700, -800). */
  function FirstDestination(pos: Vec3): (t: Vec3)
    ensures t.y == FlightLevel
    ensures pos.z > 0.0 ==> t.x == -1600.0 && t.z == EdgeZ
    ensures pos.z <= 0.0 ==> t.x == 1600.0 && t.z == -EdgeZ
  {
    if pos.z > 0.0 then Vec3(-1600.0, FlightLevel, EdgeZ) else Vec3(1600.0, FlightLevel, -EdgeZ)
  }

  /** `Airplane::update`. The "arrived at: destination" text is built and never sent. */
  function AirplaneUpdate(a: Airplane, g: Geometry, m: Motion, d: Draws): (r: Stepped<Airplane>)
    ensures r.next.body.id == a.body.id && r.next.body.name == a.body.name
    ensures r.said == []
    ensures r.next.toDestination.Some?
    ensures |r.logs| >= 1 && r.logs[0] == Timestep(a.body.id)
    ensures forall i :: 0 <= i < |r.logs| ==> r.logs[i].id == a.body.id
    ensures a.toDestination.None? ==>
      && r.next.body == a.body && r.next.distance == a.distance
      && r.next.toDestination == Some(Leg(a.body.position, FirstDestination(a.body.position)))
      && r.logs == [Timestep(a.body.id)]
    ensures a.toDestination.Some? ==>
      && r.next.lastPosition == m.position
      && r.next.distance == a.distance + Dist(g, a.lastPosition, m.position)
      && |r.logs| >= 2 && r.logs[1] == T.LogCall(a.body.id, DistanceTraveled, r.next.distance)
    ensures a.toDestination.Some? && !m.completed ==>
      r.next.body.position == m.position && r.next.toDestination == a.toDestination && |r.logs| == 2
    ensures a.toDestination.Some? && m.completed ==>
      && r.next.toDestination == Some(Respawn(m.position, d))
      && r.next.body.position == Respawn(m.position, d).start
      && |r.logs| == 3 && r.logs[2] == T.LogCall(a.body.id, ReachedDest, 1.0)
    ensures T.SumFor(r.logs, a.body.id, ReachedDest) == if a.toDestination.Some? && m.completed then 1.0 else 0.0
  {
    var id := a.body.id;
    match a.toDestination
    case None =>
      Stepped(a.(toDestination := Some(Leg(a.body.position, FirstDestination(a.body.position)))), [Timestep(id)], [])
    case Some(_) =>
      var total := a.distance + Dist(g, a.lastPosition, m.position);
      var logs := [Timestep(id), T.LogCall(id, DistanceTraveled, total)];
      var a' := a.(body := a.body.(position := m.position, direction := m.direction),
                   lastPosition := m.position, distance := total);
      var extra := if m.completed then [T.LogCall(id, ReachedDest, 1.0)] else [];
      SumForTick(logs[0], logs[1], extra, id, ReachedDest);
      assert logs == [logs[0], logs[1]];
      if m.completed then
        var leg := Respawn(m.position, d);
        Stepped(a'.(body := a'.body.(position := leg.start), toDestination := Some(leg)), logs + extra, [])
      else
        assert logs + extra == logs;
        Stepped(a', logs, [])
  }

  function AirplaneRun(a: Airplane, g: Geometry, ticks: seq<(Motion, Draws)>): (r: Stepped<Airplane>)
    ensures r.next.body.id == a.body.id
    decreases |ticks|
  {
    if ticks == [] then Stepped(a, [], [])
    else
      var s := AirplaneUpdate(a, g, ticks[0].0, ticks[0].1);
      var rest := AirplaneRun(s.next, g, ticks[1..]);
      Stepped(rest.next, s.logs + rest.logs, s.said + rest.said)
  }

  /** Arrivals in a run: ticks on which a leg existed and reported completion. */
  function Arrivals(a: Airplane, g: Geometry, ticks: seq<(Motion, Draws)>): nat
    decreases |ticks|
  {
    if ticks == [] then 0
    else
      (if a.toDestination.Some? && ticks[0].0.completed then 1 else 0)
      + Arrivals(AirplaneUpdate(a, g, ticks[0].0, ticks[0].1).next, g, ticks[1..])
  }

  /** `reached_dest` counts arrivals exactly, and the airplane never tells its
      observers anything. */
  lemma {:induction false} AirplaneArrivalsCounted(a: Airplane, g: Geometry, ticks: seq<(Motion, Draws)>)
    ensures var r := AirplaneRun(a, g, ticks);
      && T.SumFor(r.logs, a.body.id, ReachedDest) == Arrivals(a, g, ticks) as real
      && r.said == []
    decreases |ticks|
  {
    if ticks != [] {
      var s := AirplaneUpdate(a, g, ticks[0].0, ticks[0].1);
      AirplaneArrivalsCounted(s.next, g, ticks[1..]);
      var rest := AirplaneRun(s.next, g, ticks[1..]);
      T.SumForAppend(s.logs, rest.logs, a.body.id, ReachedDest);
    }
  }

  /** After its first tick the airplane always has a leg, so it moves on every
      later tick: it never again waits a tick for a new leg. */
  lemma {:induction false} AirplaneAlwaysUnderway(a: Airplane, g: Geometry, ticks: seq<(Motion, Draws)>)
    requires ticks != []
    ensures AirplaneRun(a, g, ticks).next.toDestination.Some?
    decreases |ticks|
  {
    var s := AirplaneUpdate(a, g, ticks[0].0, ticks[0].1);
    if |ticks| > 1 {
      AirplaneAlwaysUnderway(s.next, g, ticks[1..]);
    } else {
      assert ticks[1..] == [];
    }
  }

  // ---------------------------------------------------------------- loggers

  /** `Robot::update`, `ChargingStation::update` and the team `Package::update`: one
      timestep and nothing else. */
  function LogOnlyUpdate(id: Id): (r: seq<T.LogCall>)
    ensures T.SumFor(r, id, Timesteps) == 1.0
    ensures forall metric :: metric != Timesteps ==> T.SumFor(r, id, metric) == 0.0
  {
    [Timestep(id)]
  }
}
