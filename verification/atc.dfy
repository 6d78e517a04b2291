/**
  The air-traffic controller's pass over every pair of registered flying entities
  (`ATC::update`). Each pair predicted to collide is logged; the first of the two
  that is not already rerouted is sent on a reroute leg, and a pair where both
  already are is logged as unavoidable. The controller never forgets an entity, so
  a registered entity that has since been removed is a dangling pointer.
 */
module AirTraffic {
  import opened Common
  import opened Entities
  import opened Model
  import T = Telemetry
  import Collision
  import Reroute

  const PotentialCollisions: string := "potential_collisions"
  const RerouteCount: string := "reroute_count"
  const CollisionUnavoidable: string := "collision_unavoidable"

  /** What the predictor reads of an entity through its decorators. */
  function TrackOf(c: Chain): (t: Collision.Track)
    ensures t.position == CoreBody(Innermost(c)).position && t.speed == CoreBody(Innermost(c)).speed
  {
    GettersReachInnermost(c);
    Collision.Track(GetPosition(c), GetDirection(c), GetSpeed(c))
  }

  /** `reroute()` on a registered entity: an ATC decorator deflects from where the
      entity it wraps is and heads; anything else ignores the call. */
  function RerouteChain(c: Chain, g: Geometry): (r: Chain)
    ensures c.Wrap? && c.layer.AtcLayer? ==> IsRerouted(r) && r.sub == c.sub
    ensures !(c.Wrap? && c.layer.AtcLayer?) ==> r == c
    ensures TrackOf(r) == TrackOf(c)
  {
    match c
    case Wrap(AtcLayer(kind, s, own), sub) =>
      Wrap(AtcLayer(kind, Reroute.Reroute(kind, g, s, GetPosition(sub), GetDirection(sub)), own), sub)
    case _ => c
  }

  /** The slot holds a live decorated entity the controller can dereference. */
  predicate Flies(w: World, id: Id) {
    Live(w, id) && w.entities[id].value.Active?
  }

  /** How one slot may change during a pass: not at all, or a single reroute of an
      entity that was not rerouted. */
  predicate EntryStep(g: Geometry, e: Option<Entity>, e': Option<Entity>) {
    e' == e || (e.Some? && e.value.Active? && !IsRerouted(e.value.chain)
                && e' == Some(Active(RerouteChain(e.value.chain, g))))
  }

  /** The pass changes nothing but the telemetry and, slot by slot, as `EntryStep` allows. */
  ghost predicate RerouteOnly(g: Geometry, w: World, w': World) {
    && w'.(entities := w.entities, log := w.log) == w
    && w'.entities.Keys == w.entities.Keys
    && forall id :: id in w.entities ==> EntryStep(g, w.entities[id], w'.entities[id])
  }

  lemma RerouteOnlyRefl(g: Geometry, w: World, w': World)
    requires w'.entities == w.entities && w'.(log := w.log) == w
    ensures RerouteOnly(g, w, w')
  {
  }

  lemma RerouteOnlyTrans(g: Geometry, w1: World, w2: World, w3: World)
    requires RerouteOnly(g, w1, w2) && RerouteOnly(g, w2, w3)
    ensures RerouteOnly(g, w1, w3)
  {
    forall id | id in w1.entities ensures EntryStep(g, w1.entities[id], w3.entities[id]) {
      assert EntryStep(g, w1.entities[id], w2.entities[id]);
      assert EntryStep(g, w2.entities[id], w3.entities[id]);
    }
  }

  lemma RerouteOnlyKeepsFlying(g: Geometry, w: World, w': World, id: Id)
    requires RerouteOnly(g, w, w')
    ensures Flies(w', id) == Flies(w, id)
  {
    if id in w.entities {
      assert EntryStep(g, w.entities[id], w'.entities[id]);
    }
  }

  function LogOf(id: Id, metric: string): T.LogCall { T.LogCall(id, metric, 1.0) }

  /** What the controller does about a pair predicted to collide. */
  function Resolve(w: World, g: Geometry, a: Id, b: Id): (r: World)
    requires Flies(w, a) && Flies(w, b)
    ensures RerouteOnly(g, w, r)
    ensures var ca, cb := w.entities[a].value.chain, w.entities[b].value.chain;
      && (!IsRerouted(ca) ==>
           && r.entities == w.entities[a := Some(Active(RerouteChain(ca, g)))]
           && r.log == T.LogAll(w.log, [LogOf(a, PotentialCollisions), LogOf(b, PotentialCollisions),
                                        LogOf(b, RerouteCount)]))
      && (IsRerouted(ca) && !IsRerouted(cb) ==>
           && r.entities == w.entities[b := Some(Active(RerouteChain(cb, g)))]
           && r.log == T.LogAll(w.log, [LogOf(a, PotentialCollisions), LogOf(b, PotentialCollisions),
                                        LogOf(b, RerouteCount)]))
      && (IsRerouted(ca) && IsRerouted(cb) ==>
           && r.entities == w.entities
           && r.log == T.LogAll(w.log, [LogOf(a, PotentialCollisions), LogOf(b, PotentialCollisions),
                                        LogOf(a, CollisionUnavoidable)]))
  {
    var ca, cb := w.entities[a].value.chain, w.entities[b].value.chain;
    var pa, pb := LogOf(a, PotentialCollisions), LogOf(b, PotentialCollisions);
    if !IsRerouted(ca) then
      Log(PutChain(w, a, RerouteChain(ca, g)), [pa, pb, LogOf(b, RerouteCount)])
    else if !IsRerouted(cb) then
      Log(PutChain(w, b, RerouteChain(cb, g)), [pa, pb, LogOf(b, RerouteCount)])
    else
      Log(w, [pa, pb, LogOf(a, CollisionUnavoidable)])
  }

  /** The body of the inner loop for the pair (`a`, `b`), `a` registered first. */
  function PairStep(w: World, g: Geometry, a: Id, b: Id): (r: Result<World>)
    ensures r.Ok? <==> Flies(w, a) && Flies(w, b)
    ensures r.Ok? ==> RerouteOnly(g, w, r.value)
    ensures r.Ok? ==>
      r.value == if Collision.WillCollide(g, TrackOf(w.entities[a].value.chain), TrackOf(w.entities[b].value.chain))
                 then Resolve(w, g, a, b) else w
  {
    var ca :- GetChain(w, a);
    var cb :- GetChain(w, b);
    if !Collision.WillCollide(g, TrackOf(ca), TrackOf(cb)) then
      RerouteOnlyRefl(g, w, w);
      Ok(w)
    else Ok(Resolve(w, g, a, b))
  }

  /** The inner loop for entry `i`, from partner `j` on. */
  function Partners(w: World, g: Geometry, atc: seq<Id>, i: nat, j: nat): (r: Result<World>)
    ensures r.Ok? ==> RerouteOnly(g, w, r.value)
    ensures r.Ok? <==>
      i >= |atc| || j >= |atc| || (Flies(w, atc[i]) && forall k :: j <= k < |atc| ==> Flies(w, atc[k]))
    decreases |atc| - j
  {
    if i >= |atc| || j >= |atc| then
      RerouteOnlyRefl(g, w, w);
      Ok(w)
    else
      var w1 :- PairStep(w, g, atc[i], atc[j]);
      var r := Partners(w1, g, atc, i, j + 1);
      RerouteOnlyKeepsFlying(g, w, w1, atc[i]);
      forall k | j < k < |atc| ensures Flies(w1, atc[k]) == Flies(w, atc[k]) {
        RerouteOnlyKeepsFlying(g, w, w1, atc[k]);
      }
      if r.Ok? then
        RerouteOnlyTrans(g, w, w1, r.value);
        r
      else r
  }

  /** `ATC::update` from entry `i` on: each entry against every later one. */
  function Pass(w: World, g: Geometry, atc: seq<Id>, i: nat): (r: Result<World>)
    ensures r.Ok? ==> RerouteOnly(g, w, r.value)
    ensures r.Ok? <==> |atc| < i + 2 || forall k :: i <= k < |atc| ==> Flies(w, atc[k])
    decreases |atc| - i
  {
    if i >= |atc| then
      RerouteOnlyRefl(g, w, w);
      Ok(w)
    else
      var w1 :- Partners(w, g, atc, i, i + 1);
      var r := Pass(w1, g, atc, i + 1);
      forall k | i < k < |atc| ensures Flies(w1, atc[k]) == Flies(w, atc[k]) {
        RerouteOnlyKeepsFlying(g, w, w1, atc[k]);
      }
      if r.Ok? then
        RerouteOnlyTrans(g, w, w1, r.value);
        r
      else r
  }

  /** The controller's tick over its registry. */
  function Traffic(w: World, g: Geometry): (r: Result<World>)
    ensures r.Ok? ==> RerouteOnly(g, w, r.value)
    ensures r.Crash? <==> |w.atc| >= 2 && exists k :: 0 <= k < |w.atc| && !Flies(w, w.atc[k])
  {
    Pass(w, g, w.atc, 0)
  }

  /** `ATC::update` as written: two nested index loops. */
  method CheckTraffic(w: World, g: Geometry) returns (r: Result<World>)
    ensures r == Traffic(w, g)
  {
    ghost var goal := Pass(w, g, w.atc, 0);
    var cur := w;
    var i := 0;
    while i < |w.atc|
      invariant 0 <= i <= |w.atc|
      invariant Pass(cur, g, w.atc, i) == goal
    {
      var s := CheckPartners(cur, g, w.atc, i);
      PassUnfold(cur, g, w.atc, i);
      if s.Crash? {
        return s;
      }
      assert Pass(s.value, g, w.atc, i + 1) == goal;
      cur := s.value;
      i := i + 1;
    }
    return Ok(cur);
  }

  /** The inner loop of `ATC::update` for entry `i`. */
  method CheckPartners(w: World, g: Geometry, atc: seq<Id>, i: nat) returns (r: Result<World>)
    requires i < |atc|
    ensures r == Partners(w, g, atc, i, i + 1)
  {
    ghost var goal := Partners(w, g, atc, i, i + 1);
    var cur := w;
    var j := i + 1;
    while j < |atc|
      invariant i + 1 <= j <= |atc|
      invariant Partners(cur, g, atc, i, j) == goal
    {
      var s := CheckPair(cur, g, atc, i, j);
      if s.Crash? {
        return Crash(s.fault);
      }
      assert Partners(s.value, g, atc, i, j + 1) == goal;
      cur := s.value;
      j := j + 1;
    }
    return Ok(cur);
  }

  /** The body of the inner loop: one pair. */
  method CheckPair(w: World, g: Geometry, atc: seq<Id>, i: nat, j: nat) returns (s: Result<World>)
    requires i < |atc| && j < |atc|
    ensures s == PairStep(w, g, atc[i], atc[j])
    ensures s.Crash? ==> Partners(w, g, atc, i, j) == Crash(s.fault)
    ensures s.Ok? ==> Partners(w, g, atc, i, j) == Partners(s.value, g, atc, i, j + 1)
  {
    s := PairStep(w, g, atc[i], atc[j]);
    PartnersUnfold(w, g, atc, i, j);
  }

  /** One step of the inner loop. */
  lemma PartnersUnfold(w: World, g: Geometry, atc: seq<Id>, i: nat, j: nat)
    requires i < |atc| && j < |atc|
    ensures var s := PairStep(w, g, atc[i], atc[j]);
      && (s.Crash? ==> Partners(w, g, atc, i, j) == Crash(s.fault))
      && (s.Ok? ==> Partners(w, g, atc, i, j) == Partners(s.value, g, atc, i, j + 1))
  {
  }

  /** One step of the outer loop. */
  lemma PassUnfold(w: World, g: Geometry, atc: seq<Id>, i: nat)
    requires i < |atc|
    ensures var s := Partners(w, g, atc, i, i + 1);
      && (s.Crash? ==> Pass(w, g, atc, i) == Crash(s.fault))
      && (s.Ok? ==> Pass(w, g, atc, i) == Pass(s.value, g, atc, i + 1))
  {
  }

  /** No two registered entities are predicted to collide. */
  predicate Calm(w: World, g: Geometry, atc: seq<Id>) {
    forall a, b :: 0 <= a < b < |atc| && Flies(w, atc[a]) && Flies(w, atc[b]) ==>
      !Collision.WillCollide(g, TrackOf(w.entities[atc[a]].value.chain), TrackOf(w.entities[atc[b]].value.chain))
  }

  lemma {:induction false} CalmPartnersChangeNothing(w: World, g: Geometry, atc: seq<Id>, i: nat, j: nat)
    requires Calm(w, g, atc) && i < j
    requires forall k :: 0 <= k < |atc| ==> Flies(w, atc[k])
    ensures Partners(w, g, atc, i, j) == Ok(w)
    decreases |atc| - j
  {
    if i < |atc| && j < |atc| {
      assert PairStep(w, g, atc[i], atc[j]) == Ok(w);
      CalmPartnersChangeNothing(w, g, atc, i, j + 1);
    }
  }

  lemma {:induction false} CalmPassChangesNothing(w: World, g: Geometry, atc: seq<Id>, i: nat)
    requires Calm(w, g, atc)
    requires forall k :: 0 <= k < |atc| ==> Flies(w, atc[k])
    ensures Pass(w, g, atc, i) == Ok(w)
    decreases |atc| - i
  {
    if i < |atc| {
      CalmPartnersChangeNothing(w, g, atc, i, i + 1);
      CalmPassChangesNothing(w, g, atc, i + 1);
    }
  }

  /** When every registered entity is alive and no pair is predicted to collide,
      the controller's tick changes nothing at all, not even the telemetry. */
  lemma CalmTrafficChangesNothing(w: World, g: Geometry)
    requires Calm(w, g, w.atc)
    requires forall k :: 0 <= k < |w.atc| ==> Flies(w, w.atc[k])
    ensures Traffic(w, g) == Ok(w)
  {
    CalmPassChangesNothing(w, g, w.atc, 0);
  }

  /** A pass never re-targets an entity that is already on a reroute leg, and never
      moves anything: after it, each entity is as it was or freshly rerouted from
      where it stood. */
  lemma TrafficReroutesOnlyIdle(w: World, g: Geometry, id: Id)
    requires Traffic(w, g).Ok? && Flies(w, id)
    ensures var c := w.entities[id].value.chain;
      var c' := Traffic(w, g).value.entities[id].value.chain;
      && (IsRerouted(c) ==> c' == c)
      && (c' != c ==> c'.Wrap? && c'.layer.AtcLayer? && IsRerouted(c') && c'.sub == c.sub)
      && TrackOf(c') == TrackOf(c)
  {
    assert EntryStep(g, w.entities[id], Traffic(w, g).value.entities[id]);
  }
}
