/** The arena's per-player record and the helpers that extrapolate and
    re-base its fuel and cannon motion. */
module Players {
  import opened Future
  import opened Msg

  /** Identity of a connected session; stands for the player's pointer. */
  type Handle = nat

  /** A connected player. Fuel is not stored: it is extrapolated from the
      fuel origin `fuelStart`. The cannon moves from `cannonCoordX` at
      instant `cannonStart` with signed speed `cannonSpeed`. */
  datatype Player = Player(
    handle: Handle,
    fuelStart: real,
    cannonStart: real,
    cannonSpeed: real,
    cannonCoordX: real,
    cannonLife: real,
    cannonID: int,
    team: int)

  /** The player as handed over by a new session: every field at its zero value. */
  function NewPlayer(h: Handle): (p: Player)
    ensures p.handle == h && p.team == 0 && p.cannonID == 0
    ensures p.fuelStart == 0.0 && p.cannonStart == 0.0 && p.cannonSpeed == 0.0
    ensures p.cannonCoordX == 0.0 && p.cannonLife == 0.0
  {
    Player(h, 0.0, 0.0, 0.0, 0.0, 0.0, 0, 0)
  }

  /** Fuel level of player `p` at instant `now`, recharging from zero at `fuelStart`. */
  function PlayerFuel(p: Player, now: real): (f: real)
    ensures f <= FuelMax
    ensures now >= p.fuelStart ==> f >= 0.0
  {
    Fuel(0.0, now - p.fuelStart)
  }

  /** Origin rewrite: moves the fuel origin into the past so that the level
      read at `now` is exactly `fuel`. Nothing else changes. */
  function PlayerFuelSet(p: Player, now: real, fuel: real): (q: Player)
    ensures fuel <= FuelMax ==> PlayerFuel(q, now) == fuel
    ensures fuel >= 0.0 ==> q.fuelStart <= now
    ensures q == p.(fuelStart := q.fuelStart)
  {
    p.(fuelStart := now - NanosPerSecond * fuel / FuelRechargeRate)
  }

  /** Consumes `amount` units of fuel at `now`. */
  function PlayerFuelConsume(p: Player, now: real, amount: real): (q: Player)
    ensures amount >= 0.0 ==> PlayerFuel(q, now) == PlayerFuel(p, now) - amount
    ensures q == p.(fuelStart := q.fuelStart)
  {
    var fuel := PlayerFuel(p, now);
    PlayerFuelSet(p, now, fuel - amount)
  }

  /** Where the cannon of `p` stands at instant `t`. */
  function CannonPosition(p: Player, t: real): real
  {
    CannonX(p.cannonCoordX, p.cannonSpeed, t - p.cannonStart).0
  }

  /** Re-bases the cannon motion to `now`: position and speed become their
      extrapolated values and the motion origin becomes `now`. */
  function UpdateCannon(p: Player, now: real): (q: Player)
    ensures q.cannonStart == now
    ensures q.cannonCoordX == CannonPosition(p, now)
    ensures Abs(q.cannonSpeed) == Abs(p.cannonSpeed)
    ensures q.cannonSpeed == CannonX(p.cannonCoordX, p.cannonSpeed, now - p.cannonStart).1
    ensures q == p.(cannonCoordX := q.cannonCoordX, cannonSpeed := q.cannonSpeed, cannonStart := now)
  {
    var r := CannonX(p.cannonCoordX, p.cannonSpeed, now - p.cannonStart);
    p.(cannonCoordX := r.0, cannonSpeed := r.1, cannonStart := now)
  }

  /** Re-basing is only an optimisation: when the cannon did not bounce
      before `now`, the re-based record predicts the same position at every
      later (or earlier) instant. */
  lemma UpdateCannonKeepsTrajectory(p: Player, now: real, t: real)
    requires 0.0 <= Unreflected(p.cannonCoordX, p.cannonSpeed, now - p.cannonStart) <= 1.0
    ensures CannonPosition(UpdateCannon(p, now), t) == CannonPosition(p, t)
  {
    CannonXRebase(p.cannonCoordX, p.cannonSpeed, now - p.cannonStart, t - now);
    assert (now - p.cannonStart) + (t - now) == t - p.cannonStart;
  }

  /** The snapshot entry describing the cannon of `p`; `self` marks the recipient's own. */
  function CannonOf(p: Player, self: bool): (c: Cannon)
    ensures c.id == p.cannonID && c.team == p.team && c.player == self
  {
    Cannon(p.cannonID, p.cannonStart, p.cannonCoordX, p.cannonSpeed, p.team, p.cannonLife, self)
  }
}
