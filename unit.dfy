/** Playfield geometry shared by server and client: object sizes and the
    mapping of normalised missile coordinates to a bounding box. */
module Unit {

  const MissileWidth: real := 0.03
  const MissileHeight: real := 0.07
  const CannonWidth: real := 0.1
  const CannonHeight: real := 0.1

  /** Axis-aligned bounding box. */
  datatype Rect = Rect(x1: real, y1: real, x2: real, y2: real)

  lemma ProductNonneg(p: real, q: real)
    requires 0.0 <= p && 0.0 <= q
    ensures 0.0 <= p * q
  {
  }

  lemma ProductPos(p: real, q: real)
    requires 0.0 < p && 0.0 < q
    ensures 0.0 < p * q
  {
  }

  /** The point t*(b - a) + a on the way from a (t = 0) to b (t = 1). */
  function Lerp(t: real, a: real, b: real): real
  {
    t * (b - a) + a
  }

  /** For t in [0,1] the point lies between the two ends, in either order. */
  lemma LerpWithin(t: real, a: real, b: real)
    ensures 0.0 <= t <= 1.0 && a <= b ==> a <= Lerp(t, a, b) <= b
    ensures 0.0 <= t <= 1.0 && b <= a ==> b <= Lerp(t, a, b) <= a
  {
    if 0.0 <= t <= 1.0 {
      var d := if a <= b then b - a else a - b;
      ProductNonneg(t, d);
      ProductNonneg(1.0 - t, d);
      assert (1.0 - t) * d == d - t * d;
    }
  }

  /** Lerp moves strictly from a towards b as t grows. */
  lemma LerpStrict(t: real, t': real, a: real, b: real)
    requires t < t' && a != b
    ensures a < b ==> Lerp(t, a, b) < Lerp(t', a, b)
    ensures b < a ==> Lerp(t', a, b) < Lerp(t, a, b)
  {
    var d, e := t' - t, b - a;
    assert d * e == t' * e - t * e;
    assert Lerp(t', a, b) - Lerp(t, a, b) == d * e;
    if a < b {
      ProductPos(d, e);
    } else {
      ProductPos(d, -e);
      assert d * (-e) == -(d * e);
    }
  }

  /** Left edge of the missile box for normalised x: the missile is centred on
      a cannon whose left edge sweeps the field from gameMinX to gameMaxX - CannonWidth. */
  function MissileLeft(gameMinX: real, gameMaxX: real, x: real): real
  {
    var minX := gameMinX + 0.5 * CannonWidth - 0.5 * MissileWidth;
    var maxX := gameMaxX - 0.5 * CannonWidth - 0.5 * MissileWidth;
    Lerp(x, minX, maxX)
  }

  /** Bottom edge of the missile box for normalised progress y. An upward
      missile travels from the top of the bottom cannon to the field top; a
      downward one from just below the top cannon down to the field bottom. */
  function MissileBottom(y: real, fieldTop: real, cannonBottom: real, up: bool): real
  {
    if up then
      var minY := cannonBottom + CannonHeight;
      var maxY := fieldTop - MissileHeight;
      Lerp(y, minY, maxY)
    else
      var minY := cannonBottom;
      var maxY := fieldTop - CannonHeight;
      Lerp(y, maxY, minY)
  }

  /** The missile's bounding box: a fixed-size rectangle inside the field. */
  function MissileBox(gameMinX: real, gameMaxX: real, x: real, y: real,
                      fieldTop: real, cannonBottom: real, up: bool): (r: Rect)
    ensures r.x2 - r.x1 == MissileWidth && r.y2 - r.y1 == MissileHeight
    ensures 0.0 <= x <= 1.0 && gameMaxX - gameMinX >= CannonWidth ==>
              gameMinX <= r.x1 && r.x2 <= gameMaxX
    ensures up && 0.0 <= y <= 1.0 && fieldTop - cannonBottom >= CannonHeight + MissileHeight ==>
              cannonBottom + CannonHeight <= r.y1 && r.y2 <= fieldTop
    ensures !up && 0.0 <= y <= 1.0 && fieldTop - cannonBottom >= CannonHeight ==>
              cannonBottom <= r.y1 && r.y2 <= fieldTop
  {
    var fx := MissileLeft(gameMinX, gameMaxX, x);
    var fy := MissileBottom(y, fieldTop, cannonBottom, up);
    LerpWithin(x, gameMinX + 0.5 * CannonWidth - 0.5 * MissileWidth, gameMaxX - 0.5 * CannonWidth - 0.5 * MissileWidth);
    LerpWithin(y, cannonBottom + CannonHeight, fieldTop - MissileHeight);
    LerpWithin(y, fieldTop - CannonHeight, cannonBottom);
    Rect(fx, fy, fx + MissileWidth, fy + MissileHeight)
  }

  /** Horizontal end points: x = 0 and x = 1 put the missile at the centre of
      a cannon standing at either edge of the field. */
  lemma MissileBoxEnds(gameMinX: real, gameMaxX: real, y: real, fieldTop: real, cannonBottom: real, up: bool)
    ensures MissileBox(gameMinX, gameMaxX, 0.0, y, fieldTop, cannonBottom, up).x1
            == gameMinX + 0.5 * CannonWidth - 0.5 * MissileWidth
    ensures MissileBox(gameMinX, gameMaxX, 1.0, y, fieldTop, cannonBottom, up).x1
            == gameMaxX - 0.5 * CannonWidth - 0.5 * MissileWidth
  {
  }

  /** The box moves right as x grows, when the field is wider than a cannon. */
  lemma MissileBoxRightward(gameMinX: real, gameMaxX: real, x: real, x': real,
                            y: real, fieldTop: real, cannonBottom: real, up: bool)
    requires gameMaxX - gameMinX > CannonWidth && x < x'
    ensures MissileBox(gameMinX, gameMaxX, x, y, fieldTop, cannonBottom, up).x1
          < MissileBox(gameMinX, gameMaxX, x', y, fieldTop, cannonBottom, up).x1
  {
    LerpStrict(x, x', gameMinX + 0.5 * CannonWidth - 0.5 * MissileWidth,
               gameMaxX - 0.5 * CannonWidth - 0.5 * MissileWidth);
  }

  /** Vertical end points of an upward missile: y = 0 sits on top of the
      bottom cannon, y = 1 touches the field top. */
  lemma MissileBoxUpEnds(gameMinX: real, gameMaxX: real, x: real, fieldTop: real, cannonBottom: real)
    ensures MissileBox(gameMinX, gameMaxX, x, 0.0, fieldTop, cannonBottom, true).y1 == cannonBottom + CannonHeight
    ensures MissileBox(gameMinX, gameMaxX, x, 1.0, fieldTop, cannonBottom, true).y1 == fieldTop - MissileHeight
    ensures MissileBox(gameMinX, gameMaxX, x, 1.0, fieldTop, cannonBottom, true).y2 == fieldTop
  {
  }

  /** Vertical end points of a downward missile: y = 0 sits just below the
      top cannon, y = 1 touches the field bottom. */
  lemma MissileBoxDownEnds(gameMinX: real, gameMaxX: real, x: real, fieldTop: real, cannonBottom: real)
    ensures MissileBox(gameMinX, gameMaxX, x, 0.0, fieldTop, cannonBottom, false).y1 == fieldTop - CannonHeight
    ensures MissileBox(gameMinX, gameMaxX, x, 1.0, fieldTop, cannonBottom, false).y1 == cannonBottom
  {
  }

  /** A downward missile's box descends as its progress grows. */
  lemma MissileBoxDownward(gameMinX: real, gameMaxX: real, x: real, y: real, y': real,
                           fieldTop: real, cannonBottom: real)
    requires fieldTop - cannonBottom > CannonHeight && y < y'
    ensures MissileBox(gameMinX, gameMaxX, x, y', fieldTop, cannonBottom, false).y1
          < MissileBox(gameMinX, gameMaxX, x, y, fieldTop, cannonBottom, false).y1
  {
    LerpStrict(y, y', fieldTop - CannonHeight, cannonBottom);
  }

  /** An upward missile's box climbs as its progress grows. */
  lemma MissileBoxUpward(gameMinX: real, gameMaxX: real, x: real, y: real, y': real,
                         fieldTop: real, cannonBottom: real)
    requires fieldTop - cannonBottom > CannonHeight + MissileHeight && y < y'
    ensures MissileBox(gameMinX, gameMaxX, x, y, fieldTop, cannonBottom, true).y1
          < MissileBox(gameMinX, gameMaxX, x, y', fieldTop, cannonBottom, true).y1
  {
    LerpStrict(y, y', cannonBottom + CannonHeight, fieldTop - MissileHeight);
  }
}
