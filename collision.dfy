/** The server's collision sweep: every live missile against the cannon of
    every player of the other team, with positions extrapolated to `now`. */
module Collision {
  import opened Future
  import opened Unit
  import opened Msg
  import opened Players

  /** The playfield used by the sweep: x in [-1,1], y in [-1,1]. */
  const GameMinX: real := -1.0
  const GameMaxX: real := 1.0
  const FieldTop: real := 1.0
  const CannonBottom: real := -1.0

  /** The cannon's bounding box, by (gameMinX, gameMaxX, x, fieldTop,
      cannonBottom, up); its definition is not part of this model. */
  type CannonBoxFn = (real, real, real, real, real, bool) -> Rect

  /** Box intersection as the server has it: a stub that never reports one. */
  function Intersect(a: Rect, b: Rect): (hit: bool)
    ensures !hit
  {
    false
  }

  /** Intersect is symmetric. */
  lemma IntersectSymmetric(a: Rect, b: Rect)
    ensures Intersect(a, b) == Intersect(b, a)
  {
  }

  /** A missile flies up exactly when it belongs to team 0. */
  function Upward(m: Missile): bool
  {
    m.team == 0
  }

  /** The missile's box at `now`, its progress extrapolated from its origin. */
  function MissileRect(m: Missile, now: real): Rect
  {
    MissileBox(GameMinX, GameMaxX, m.coordX, MissileY(m.coordY, m.speed, now - m.start),
               FieldTop, CannonBottom, Upward(m))
  }

  /** The cannon's box at `now`, with the same direction flag as the missile it is tested against. */
  function CannonRect(p: Player, now: real, up: bool, cannonBox: CannonBoxFn): Rect
  {
    cannonBox(GameMinX, GameMaxX, CannonPosition(p, now), FieldTop, CannonBottom, up)
  }

  /** Missile `m` hits the cannon of `p`: different teams and overlapping boxes. */
  predicate Hits(m: Missile, p: Player, now: real, cannonBox: CannonBoxFn)
  {
    m.team != p.team && Intersect(MissileRect(m, now), CannonRect(p, now, Upward(m), cannonBox))
  }

  /** The sweep reports whether some missile hits some opposing cannon. The
      ghost `probed` lists, in order, the (missile, player) index pairs whose
      cannon box was computed, with the two boxes tested: exactly the pairs of
      different teams, each with the missile's box at `now` and the cannon's
      box at `now` under the missile's direction flag. */
  method DetectCollision(missiles: seq<Missile>, players: seq<Player>, now: real, cannonBox: CannonBoxFn)
    returns (hit: bool, ghost probed: seq<(nat, nat, Rect, Rect)>)
    ensures hit <==> exists i, j :: 0 <= i < |missiles| && 0 <= j < |players| && Hits(missiles[i], players[j], now, cannonBox)
    ensures !hit
    ensures forall k :: 0 <= k < |probed| ==>
              probed[k].0 < |missiles| && probed[k].1 < |players| &&
              missiles[probed[k].0].team != players[probed[k].1].team &&
              probed[k].2 == MissileRect(missiles[probed[k].0], now) &&
              probed[k].3 == CannonRect(players[probed[k].1], now, Upward(missiles[probed[k].0]), cannonBox)
    ensures forall i, j :: 0 <= i < |missiles| && 0 <= j < |players| && missiles[i].team != players[j].team ==>
              (i, j, MissileRect(missiles[i], now), CannonRect(players[j], now, Upward(missiles[i]), cannonBox)) in probed
  {
    hit := false;
    probed := [];
    var i := 0;
    while i < |missiles|
      invariant 0 <= i <= |missiles|
      invariant hit <==> exists a, b :: 0 <= a < i && 0 <= b < |players| && Hits(missiles[a], players[b], now, cannonBox)
      invariant forall k :: 0 <= k < |probed| ==>
                  probed[k].0 < i && probed[k].1 < |players| &&
                  missiles[probed[k].0].team != players[probed[k].1].team &&
                  probed[k].2 == MissileRect(missiles[probed[k].0], now) &&
                  probed[k].3 == CannonRect(players[probed[k].1], now, Upward(missiles[probed[k].0]), cannonBox)
      invariant forall a, b :: 0 <= a < i && 0 <= b < |players| && missiles[a].team != players[b].team ==>
                  (a, b, MissileRect(missiles[a], now), CannonRect(players[b], now, Upward(missiles[a]), cannonBox)) in probed
    {
      var hitM, probedM := SweepMissile(missiles, i, players, now, cannonBox);
      hit := hit || hitM;
      probed := probed + probedM;
      i := i + 1;
    }
  }

  /** The inner loop of the sweep for missile `i`: its box is computed once
      and tested against the cannon of every player of the other team. */
  method SweepMissile(missiles: seq<Missile>, i: nat, players: seq<Player>, now: real, cannonBox: CannonBoxFn)
    returns (hit: bool, ghost probed: seq<(nat, nat, Rect, Rect)>)
    requires i < |missiles|
    ensures hit <==> exists b :: 0 <= b < |players| && Hits(missiles[i], players[b], now, cannonBox)
    ensures forall k :: 0 <= k < |probed| ==>
              probed[k].0 == i && probed[k].1 < |players| &&
              missiles[i].team != players[probed[k].1].team &&
              probed[k].2 == MissileRect(missiles[i], now) &&
              probed[k].3 == CannonRect(players[probed[k].1], now, Upward(missiles[i]), cannonBox)
    ensures forall b :: 0 <= b < |players| && missiles[i].team != players[b].team ==>
              (i, b, MissileRect(missiles[i], now), CannonRect(players[b], now, Upward(missiles[i]), cannonBox)) in probed
  {
    var m := missiles[i];
    var mY := MissileY(m.coordY, m.speed, now - m.start);
    var up := m.team == 0;
    var mr := MissileBox(GameMinX, GameMaxX, m.coordX, mY, FieldTop, CannonBottom, up);
    assert mr == MissileRect(m, now) && up == Upward(m);
    hit := false;
    probed := [];
    var j := 0;
    while j < |players|
      invariant 0 <= j <= |players|
      invariant hit <==> exists b :: 0 <= b < j && Hits(m, players[b], now, cannonBox)
      invariant forall k :: 0 <= k < |probed| ==>
                  probed[k].0 == i && probed[k].1 < j &&
                  m.team != players[probed[k].1].team &&
                  probed[k].2 == mr && probed[k].3 == CannonRect(players[probed[k].1], now, up, cannonBox)
      invariant forall b :: 0 <= b < j && m.team != players[b].team ==>
                  (i, b, mr, CannonRect(players[b], now, up, cannonBox)) in probed
    {
      var p := players[j];
      if m.team != p.team {
        var cX := CannonX(p.cannonCoordX, p.cannonSpeed, now - p.cannonStart).0;
        var cr := cannonBox(GameMinX, GameMaxX, cX, FieldTop, CannonBottom, up);
        probed := probed + [(i, j, mr, cr)];
        if Intersect(mr, cr) {
          // the server only logs the colliding pair here
          hit := true;
        }
      }
      j := j + 1;
    }
  }
}
