/**
  The leader drone's battery: a level in percent that drains with simulated time
  and is refilled at the charging station.
 */
module Battery {

  const MaxBattery: real := 100.0
  const CriticalBattery: real := 25.0
  const EmergencyBattery: real := 13.0
  /** Percent drained per unit of simulated time. */
  const DrainRate: real := 0.01

  /** `depleteBattery(dt)`: drains `DrainRate * dt` and floors the level at zero. */
  function Deplete(b: real, dt: real): (r: real)
    ensures r >= 0.0
    ensures b - DrainRate * dt >= 0.0 ==> r == b - DrainRate * dt
    ensures b - DrainRate * dt < 0.0 ==> r == 0.0
  {
    var next := b - DrainRate * dt;
    if next < 0.0 then 0.0 else next
  }

  /** Draining never leaves the range [0, 100] and never raises the level, as long
      as time does not run backwards. */
  lemma DepleteStaysInRange(b: real, dt: real)
    requires 0.0 <= b <= MaxBattery && dt >= 0.0
    ensures 0.0 <= Deplete(b, dt) <= b
  {
  }

  /** Draining twice by `dt` (a carrying tick) is draining once by `2 * dt`. */
  lemma DepleteTwice(b: real, dt: real)
    requires dt >= 0.0
    ensures Deplete(Deplete(b, dt), dt) == Deplete(b, 2.0 * dt)
  {
  }

  /** Whether `chargeBattery(dt)` returns at all: its loop only makes progress when
      `dt` is positive, so it spins forever on a level below the maximum otherwise. */
  predicate ChargeTerminates(b: real, dt: real) {
    dt > 0.0 || b >= MaxBattery
  }

  /** `chargeBattery(dt)`: adds `DrainRate * dt` until the level reaches the maximum,
      then clamps the overshoot. When the loop would never end, `done` is false and
      `r` carries no meaning. */
  method ChargeBattery(b: real, dt: real) returns (r: real, done: bool)
    ensures done <==> ChargeTerminates(b, dt)
    ensures done ==> r == MaxBattery && r == Charged(b, dt)
  {
    if !ChargeTerminates(b, dt) {
      return b, false;
    }
    var level := b;
    var step := DrainRate * dt;
    while level < MaxBattery
      invariant level < MaxBattery ==> step > 0.0
      decreases if level < MaxBattery then ((MaxBattery - level) / step).Floor + 1 else 0
    {
      StepQuotient(MaxBattery - level, step);
      level := level + step;
    }
    if level > MaxBattery {
      level := MaxBattery;
    }
    return level, true;
  }

  /** One charging step lowers the number of steps still needed by exactly one. */
  lemma StepQuotient(gap: real, step: real)
    requires step > 0.0
    ensures (gap - step) / step == gap / step - 1.0
  {
    var q := gap / step;
    var x := (gap - step) / step;
    assert q * step == gap;
    assert x * step == gap - step;
    var d := x - (q - 1.0);
    assert d * step == 0.0;
    if d != 0.0 {
      assert false;
    }
  }

  /** The value `chargeBattery(dt)` leaves behind when it returns: the loop's steps
      of `DrainRate * dt` taken one call at a time, then the clamp of the overshoot.
      Whatever the starting level, the steps end exactly at the maximum. */
  function Charged(b: real, dt: real): (r: real)
    requires ChargeTerminates(b, dt)
    ensures r == MaxBattery
    decreases if b < MaxBattery then ((MaxBattery - b) / (DrainRate * dt)).Floor + 1 else 0
  {
    if b < MaxBattery then
      StepQuotient(MaxBattery - b, DrainRate * dt);
      Charged(b + DrainRate * dt, dt)
    else if b > MaxBattery then MaxBattery
    else b
  }
}
