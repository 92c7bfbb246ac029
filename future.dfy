/** Dead-reckoning laws: a value stored at an origin instant is extrapolated
    over an elapsed duration. Durations are in nanoseconds, as Go's
    time.Duration; every law converts them to seconds first. */
module Future {

  const NanosPerSecond: real := 1_000_000_000.0
  /** One fuel unit every three seconds. */
  const FuelRechargeRate: real := 1.0 / 3.0
  const FuelMax: real := 10.0

  /** The elapsed duration `elap` (nanoseconds) expressed in seconds. */
  function Seconds(elap: real): (s: real)
    ensures elap >= 0.0 ==> s >= 0.0
    ensures s * NanosPerSecond == elap
  {
    elap / NanosPerSecond
  }

  /** Fuel level after `elap`: linear recharge from `initial`, capped at FuelMax.
      The law only caps from above; a level below zero is returned as it is. */
  function Fuel(initial: real, elap: real): (f: real)
    ensures f <= FuelMax
    ensures f == FuelMax || f == initial + FuelRechargeRate * Seconds(elap)
    ensures initial + FuelRechargeRate * Seconds(elap) <= FuelMax ==> f == initial + FuelRechargeRate * Seconds(elap)
  {
    var fuel := initial + FuelRechargeRate * elap / NanosPerSecond;
    if fuel > 10.0 then 10.0 else fuel
  }

  /** The cannon position before any reflection is applied. */
  function Unreflected(initial: real, rate: real, elap: real): real
  {
    // Go multiplies before dividing by 1e9; over the reals the two agree.
    initial + rate * Seconds(elap)
  }

  function Abs(r: real): real { if r < 0.0 then -r else r }

  /** Cannon position and speed after `elap`: linear motion with a single
      reflection at the nearer edge of [0,1], which also reverses the speed. */
  function CannonX(initial: real, rate: real, elap: real): (r: (real, real))
    ensures Abs(r.1) == Abs(rate)
    ensures 0.0 <= Unreflected(initial, rate, elap) <= 1.0 ==> r == (Unreflected(initial, rate, elap), rate)
    ensures Unreflected(initial, rate, elap) < 0.0 ==> r == (-Unreflected(initial, rate, elap), -rate)
    ensures Unreflected(initial, rate, elap) > 1.0 ==> r == (2.0 - Unreflected(initial, rate, elap), -rate)
    ensures 0.0 <= r.0 <= 1.0 <==> -1.0 <= Unreflected(initial, rate, elap) <= 2.0
  {
    var x := Unreflected(initial, rate, elap);
    if x < 0.0 then (-x, -rate)
    else if x > 1.0 then (2.0 - x, -rate)
    else (x, rate)
  }

  /** Missile vertical progress after `elap`: linear, never reflected. */
  function MissileY(initial: real, rate: real, elap: real): (y: real)
    ensures rate >= 0.0 && elap >= 0.0 ==> y >= initial
    ensures y - initial == rate * Seconds(elap)
  {
    initial + rate * elap / NanosPerSecond
  }

  /** Fuel never decreases on its own. */
  lemma FuelMonotone(initial: real, e1: real, e2: real)
    requires e1 <= e2
    ensures Fuel(initial, e1) <= Fuel(initial, e2)
  {
  }

  /** Re-basing a cannon whose motion did not reflect reproduces the original
      trajectory: extrapolating from the new origin over `e2` gives the same
      answer as extrapolating from the old origin over `e1 + e2`. */
  lemma CannonXRebase(initial: real, rate: real, e1: real, e2: real)
    requires 0.0 <= Unreflected(initial, rate, e1) <= 1.0
    ensures var r1 := CannonX(initial, rate, e1);
      CannonX(r1.0, r1.1, e2) == CannonX(initial, rate, e1 + e2)
  {
    assert Seconds(e1) + Seconds(e2) == Seconds(e1 + e2);
    assert rate * Seconds(e1) + rate * Seconds(e2) == rate * Seconds(e1 + e2);
    var x1 := Unreflected(initial, rate, e1);
    assert CannonX(initial, rate, e1) == (x1, rate);
    assert Unreflected(x1, rate, e2) == Unreflected(initial, rate, e1 + e2);
  }

  /** Past the second edge a single reflection leaves the cannon off the field. */
  lemma CannonXSingleReflection()
    ensures CannonX(0.5, 1.0, 3.0 * NanosPerSecond).0 == -1.5
    ensures CannonX(0.5, -1.0, 3.0 * NanosPerSecond).0 == 2.5
  {
  }

  /** The values the package's own tests expect. */
  lemma TestValues()
    ensures Fuel(1.0, 3.0 * NanosPerSecond) == 2.0
    ensures CannonX(0.1, 0.5, NanosPerSecond).0 == 0.6
    ensures MissileY(0.2, 0.5, 0.5 * NanosPerSecond) == 0.45
    ensures MissileY(0.1, 0.5, NanosPerSecond) == 0.6
  {
  }
}
