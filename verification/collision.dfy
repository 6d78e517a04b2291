/**
  The ATC collision predictor (`willCollide`). The arithmetic is single-precision in
  the simulator and exact here; lengths and normalisation come from the supplied
  `Geometry`. What is stated is the structure of its early exits.
 */
module Collision {
  import opened Common

  const AltitudeThreshold: real := 50.0
  const BaseCollisionTime: real := 5.0
  const CollisionDistance: real := 50.0

  /** What the predictor reads of an entity. */
  datatype Track = Track(position: Vec3, direction: Vec3, speed: real)

  function Abs(x: real): real { if x < 0.0 then -x else x }

  function Max(a: real, b: real): real { if a < b then b else a }

  /** The look-ahead horizon: `5 * maxSpeed^2 * 0.05`. */
  function Horizon(a: Track, b: Track): real {
    var m := Max(a.speed, b.speed);
    BaseCollisionTime * (m * m) * 0.05
  }

  /** Velocity of `b` relative to `a`. */
  function RelativeVelocity(g: Geometry, a: Track, b: Track): Vec3 {
    Minus(Scale(g.unit(b.direction), b.speed), Scale(g.unit(a.direction), a.speed))
  }

  /** Time of closest approach on straight-line extrapolation. */
  function ClosestTime(g: Geometry, a: Track, b: Track): real {
    var v := RelativeVelocity(g, a, b);
    if Dot(v, v) == 0.0 then 0.0
    else -Dot(Minus(b.position, a.position), v) / Dot(v, v)
  }

  /** `willCollide(a, b)`. */
  function WillCollide(g: Geometry, a: Track, b: Track): (r: bool)
    ensures Abs(a.position.y - b.position.y) > AltitudeThreshold ==> !r
    ensures Dist(g, a.position, b.position) > 0.5 * Horizon(a, b) ==> !r
    ensures Abs(a.position.y - b.position.y) <= AltitudeThreshold
         && Dist(g, a.position, b.position) <= 0.5 * Horizon(a, b)
         && Dot(RelativeVelocity(g, a, b), RelativeVelocity(g, a, b)) < 1.0
         ==> (r <==> Dist(g, a.position, b.position) < CollisionDistance)
    ensures Dot(RelativeVelocity(g, a, b), RelativeVelocity(g, a, b)) >= 1.0
         && (ClosestTime(g, a, b) < 0.0 || ClosestTime(g, a, b) > Horizon(a, b))
         ==> !r
  {
    if Abs(a.position.y - b.position.y) > AltitudeThreshold then false
    else
      var horizon := Horizon(a, b);
      var current := Dist(g, a.position, b.position);
      if current > 0.5 * horizon then false
      else
        var v := RelativeVelocity(g, a, b);
        if Dot(v, v) < 1.0 then current < CollisionDistance
        else
          var t := ClosestTime(g, a, b);
          if t < 0.0 || t > horizon then false
          else
            var futureA := Plus(a.position, Scale(g.unit(a.direction), a.speed * t));
            var futureB := Plus(b.position, Scale(g.unit(b.direction), b.speed * t));
            g.mag(Minus(futureA, futureB)) < CollisionDistance
  }

  /** Two stationary entities apart from each other are never predicted to collide:
      with both speeds zero the horizon is zero, so any positive distance fails the
      range check. */
  lemma StationaryNeverCollide(g: Geometry, a: Track, b: Track)
    requires a.speed == 0.0 && b.speed == 0.0
    requires Dist(g, a.position, b.position) > 0.0
    ensures !WillCollide(g, a, b)
  {
  }
}
