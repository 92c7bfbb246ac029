/** The mobile client's game logic: mapping the window to game coordinates,
    turning a press into a button message for the server, and merging each
    server snapshot into the client's entity tables without letting an
    entity step back in time. */
module Invader {
  import opened Future
  import opened Unit
  import opened Msg

  /** Number of on-screen buttons across the bottom strip. */
  const Buttons: int := 5
  /** Update period assumed until the first snapshot: 2 s, in nanoseconds. */
  const InitialUpdateInterval: real := 2.0 * NanosPerSecond

  /** Conversion of a float to an integer: truncation toward zero. */
  function Trunc(x: real): (r: int)
    ensures 0.0 <= x ==> 0 <= r && r as real <= x < r as real + 1.0
    ensures x < 0.0 ==> r <= 0 && r as real - 1.0 < x <= r as real
  {
    if x >= 0.0 then x.Floor else -((-x).Floor)
  }

  /** Division by a positive number is undone by multiplication, and keeps order. */
  lemma QuotientTimes(a: real, b: real)
    requires b > 0.0
    ensures a / b * b == a
    ensures a >= b ==> a / b >= 1.0
    ensures a > b ==> a / b > 1.0
  {
  }

  /** Game-coordinate bounds (minX, maxX, minY, maxY) of a `w` x `h` pixel
      window: the shorter side spans [-1, 1], the longer one is stretched by
      the aspect ratio, and both ranges are centred on 0. */
  function ViewBounds(w: int, h: int): (r: (real, real, real, real))
    requires w > 0 && h > 0
    ensures r.0 == -r.1 && r.2 == -r.3
    ensures h >= w ==> r.1 == 1.0 && r.3 >= 1.0
    ensures h < w ==> r.3 == 1.0 && r.1 > 1.0
    ensures r.1 * h as real == r.3 * w as real
  {
    if h >= w then
      var aspect := h as real / w as real;
      QuotientTimes(h as real, w as real);
      (-1.0, 1.0, -aspect, aspect)
    else
      var aspect := w as real / h as real;
      QuotientTimes(w as real, h as real);
      (-aspect, aspect, -1.0, 1.0)
  }

  /** Game y of pixel row `pixelY`: row 0 is the top (maxY), the last row the bottom (minY). */
  function ScreenY(pixelY: real, height: int, minY: real, maxY: real): (y: real)
    requires height > 1
    ensures pixelY == 0.0 ==> y == maxY
    ensures pixelY == (height - 1) as real ==> y == minY
  {
    Lerp(pixelY / (height - 1) as real, maxY, minY)
  }

  /** Lower pixel rows map to lower game y. */
  lemma ScreenYDecreasing(p1: real, p2: real, height: int, minY: real, maxY: real)
    requires height > 1 && p1 < p2 && minY < maxY
    ensures ScreenY(p2, height, minY, maxY) < ScreenY(p1, height, minY, maxY)
  {
    var d := (height - 1) as real;
    assert p1 / d < p2 / d;
    LerpStrict(p1 / d, p2 / d, maxY, minY);
  }

  /** The button under pixel column `pixelX` of a `width`-pixel window. */
  function ButtonAt(pixelX: real, width: int): int
    requires width > 0
  {
    Trunc(pixelX / (width as real / Buttons as real))
  }

  /** Scaling by a positive factor keeps the order of two reals. */
  lemma ScaleOrder(x: real, y: real, u: real)
    requires u > 0.0
    ensures x <= y <==> x * u <= y * u
  {
    if x <= y {
      ProductNonneg(y - x, u);
      assert (y - x) * u == y * u - x * u;
    } else {
      ProductPos(x - y, u);
      assert (x - y) * u == x * u - y * u;
    }
  }

  /** Bounds on a product give bounds on the quotient. */
  lemma QuotientBounds(p: real, u: real, lo: real, hi: real)
    requires u > 0.0 && lo * u <= p < hi * u
    ensures lo <= p / u < hi
  {
    var q := p / u;
    assert q * u == p;
    ScaleOrder(lo, q, u);
    ScaleOrder(hi, q, u);
  }

  /** The window is split into five equal bands; a column in band `b` presses button `b`. */
  lemma ButtonAtBand(pixelX: real, width: int, b: int)
    requires width > 0 && 0 <= b < Buttons
    requires b as real * (width as real / Buttons as real) <= pixelX < (b + 1) as real * (width as real / Buttons as real)
    ensures ButtonAt(pixelX, width) == b
  {
    var u := width as real / Buttons as real;
    QuotientBounds(pixelX, u, b as real, (b + 1) as real);
    var q := pixelX / u;
    assert q.Floor == b;
  }

  /** Every column inside the window presses one of the five buttons. */
  lemma ButtonAtRange(pixelX: real, width: int)
    requires width > 0 && 0.0 <= pixelX < width as real
    ensures 0 <= ButtonAt(pixelX, width) < Buttons
  {
    var u := width as real / Buttons as real;
    assert Buttons as real * u == width as real;
    QuotientBounds(pixelX, u, 0.0, Buttons as real);
  }

  // ---------------------------------------------------------------------
  // Snapshot merge

  /** The record kept for an incoming entity `x`: the previous one, if known
      and `keepOld` says so, else `x`. */
  function Chosen<T>(prev: map<int, T>, x: T, key: T -> int, keepOld: T -> bool): T
  {
    if key(x) in prev && keepOld(x) then prev[key(x)] else x
  }

  /** The table rebuilt from the incoming entities `xs`, in order, each
      keyed by its id (a later entry with the same id wins). */
  function Merged<T>(prev: map<int, T>, xs: seq<T>, key: T -> int, keepOld: T -> bool): map<int, T>
  {
    if |xs| == 0 then map[]
    else
      var x := xs[|xs| - 1];
      Merged(prev, xs[..|xs| - 1], key, keepOld)[key(x) := Chosen(prev, x, key, keepOld)]
  }

  /** The merge loop: a fresh table filled from the incoming entities. */
  method BuildMap<T>(prev: map<int, T>, xs: seq<T>, key: T -> int, keepOld: T -> bool) returns (r: map<int, T>)
    ensures r == Merged(prev, xs, key, keepOld)
  {
    r := map[];
    var i := 0;
    while i < |xs|
      invariant 0 <= i <= |xs|
      invariant r == Merged(prev, xs[..i], key, keepOld)
    {
      var x := xs[i];
      assert xs[..i + 1][..i] == xs[..i];
      if key(x) in prev && keepOld(x) {
        r := r[key(x) := prev[key(x)]];
      } else {
        r := r[key(x) := x];
      }
      i := i + 1;
    }
    assert xs[..i] == xs;
  }

  /** The ids of the entities `xs`. */
  function KeysOf<T>(xs: seq<T>, key: T -> int): set<int>
  {
    set i | 0 <= i < |xs| :: key(xs[i])
  }

  /** The merged table holds exactly the ids of the incoming entities:
      entities missing from the snapshot are dropped. */
  lemma {:induction false} MergedKeys<T>(prev: map<int, T>, xs: seq<T>, key: T -> int, keepOld: T -> bool)
    ensures Merged(prev, xs, key, keepOld).Keys == KeysOf(xs, key)
    decreases |xs|
  {
    if |xs| > 0 {
      var n := |xs|;
      var init := xs[..n - 1];
      MergedKeys(prev, init, key, keepOld);
      forall k | k in KeysOf(xs, key)
        ensures k in KeysOf(init, key) + {key(xs[n - 1])}
      {
        var i :| 0 <= i < n && key(xs[i]) == k;
        if i < n - 1 {
          assert init[i] == xs[i];
        }
      }
      forall k | k in KeysOf(init, key)
        ensures k in KeysOf(xs, key)
      {
        var i :| 0 <= i < n - 1 && key(init[i]) == k;
        assert init[i] == xs[i];
      }
    }
  }

  /** The entry for an id is decided by its last occurrence in the snapshot. */
  lemma {:induction false} MergedLast<T>(prev: map<int, T>, xs: seq<T>, key: T -> int, keepOld: T -> bool, j: nat)
    requires j < |xs|
    requires forall i :: j < i < |xs| ==> key(xs[i]) != key(xs[j])
    ensures key(xs[j]) in Merged(prev, xs, key, keepOld)
    ensures Merged(prev, xs, key, keepOld)[key(xs[j])] == Chosen(prev, xs[j], key, keepOld)
    decreases |xs|
  {
    var n := |xs|;
    if j < n - 1 {
      assert xs[..n - 1][j] == xs[j];
      MergedLast(prev, xs[..n - 1], key, keepOld, j);
    }
  }

  /** Every entry of the merged table is the record chosen for some incoming entity with that id. */
  lemma {:induction false} MergedSource<T>(prev: map<int, T>, xs: seq<T>, key: T -> int, keepOld: T -> bool, id: int)
    requires id in Merged(prev, xs, key, keepOld)
    ensures exists j :: 0 <= j < |xs| && key(xs[j]) == id && Merged(prev, xs, key, keepOld)[id] == Chosen(prev, xs[j], key, keepOld)
    decreases |xs|
  {
    var n := |xs|;
    if key(xs[n - 1]) != id {
      MergedSource(prev, xs[..n - 1], key, keepOld, id);
      var j :| 0 <= j < n - 1 && key(xs[..n - 1][j]) == id &&
               Merged(prev, xs[..n - 1], key, keepOld)[id] == Chosen(prev, xs[..n - 1][j], key, keepOld);
      assert xs[..n - 1][j] == xs[j];
    }
  }

  /** A known missile keeps its previous record when the snapshot would put
      it lower than the previous record does. */
  function MissileKeep(prev: map<int, Missile>, elap: real): Missile -> bool
  {
    (m: Missile) => m.id in prev && MissileY(m.coordY, m.speed, elap) < MissileY(prev[m.id].coordY, prev[m.id].speed, elap)
  }

  /** Cannon `c` would put the cannon behind record `o` in `o`'s direction of travel. */
  predicate CannonBehind(o: Cannon, c: Cannon, elap: real)
  {
    var oldX := CannonX(o.coordX, o.speed, elap).0;
    var newX := CannonX(c.coordX, c.speed, elap).0;
    (o.speed >= 0.0 && newX < oldX) || (o.speed < 0.0 && newX > oldX)
  }

  /** A known cannon keeps its previous record when its speed is unchanged
      and the snapshot would put it behind. */
  function CannonKeep(prev: map<int, Cannon>, elap: real): Cannon -> bool
  {
    (c: Cannon) => c.id in prev && prev[c.id].speed == c.speed && CannonBehind(prev[c.id], c, elap)
  }

  /** Bricks never keep a previous record. */
  function NoKeep(b: Brick): bool
  {
    false
  }

  /** The missile table after a snapshot: merged with the never-back rule. */
  function MissilesMerged(prev: map<int, Missile>, ms: seq<Missile>, elap: real): map<int, Missile>
  {
    Merged(prev, ms, MissileIdOf, MissileKeep(prev, elap))
  }

  /** The cannon table after a snapshot: merged with the never-back rule. */
  function CannonsMerged(prev: map<int, Cannon>, cs: seq<Cannon>, elap: real): map<int, Cannon>
  {
    Merged(prev, cs, CannonEntryIdOf, CannonKeep(prev, elap))
  }

  /** The brick table after a snapshot: replaced by the snapshot's bricks. */
  function BricksMerged(prev: map<int, Brick>, bs: seq<Brick>): map<int, Brick>
  {
    Merged(prev, bs, BrickIdOf, NoKeep)
  }

  /** Missiles never move back: a missile known before and after the merge
      is predicted at least as high as before. */
  lemma MissilesNeverBack(prev: map<int, Missile>, ms: seq<Missile>, elap: real)
    ensures var r := MissilesMerged(prev, ms, elap);
      forall id :: id in prev && id in r ==>
        MissileY(r[id].coordY, r[id].speed, elap) >= MissileY(prev[id].coordY, prev[id].speed, elap)
  {
    var r := Merged(prev, ms, MissileIdOf, MissileKeep(prev, elap));
    forall id | id in prev && id in r
      ensures MissileY(r[id].coordY, r[id].speed, elap) >= MissileY(prev[id].coordY, prev[id].speed, elap)
    {
      MergedSource(prev, ms, MissileIdOf, MissileKeep(prev, elap), id);
    }
  }

  /** Cannons never move back: a cannon known before and after the merge
      with an unchanged speed is not behind its previous record. */
  lemma CannonsNeverBack(prev: map<int, Cannon>, cs: seq<Cannon>, elap: real)
    ensures var r := CannonsMerged(prev, cs, elap);
      forall id :: id in prev && id in r && r[id].speed == prev[id].speed ==> !CannonBehind(prev[id], r[id], elap)
  {
    var r := Merged(prev, cs, CannonEntryIdOf, CannonKeep(prev, elap));
    forall id | id in prev && id in r && r[id].speed == prev[id].speed
      ensures !CannonBehind(prev[id], r[id], elap)
    {
      MergedSource(prev, cs, CannonEntryIdOf, CannonKeep(prev, elap), id);
    }
  }

  /** Bricks are replaced wholesale: every brick in the table comes from the snapshot. */
  lemma BricksReplaced(prev: map<int, Brick>, bs: seq<Brick>)
    ensures var r := BricksMerged(prev, bs);
      forall id :: id in r ==> exists j :: 0 <= j < |bs| && bs[j].id == id && r[id] == bs[j]
  {
    var r := Merged(prev, bs, BrickIdOf, NoKeep);
    forall id | id in r
      ensures exists j :: 0 <= j < |bs| && bs[j].id == id && r[id] == bs[j]
    {
      MergedSource(prev, bs, BrickIdOf, NoKeep, id);
    }
  }

  /** The three merge loops of a snapshot. */
  method MergeSnapshot(missiles: map<int, Missile>, bricks: map<int, Brick>, cannons: map<int, Cannon>, u: Update, elap: real)
    returns (ms: map<int, Missile>, bs: map<int, Brick>, cs: map<int, Cannon>)
    ensures ms == MissilesMerged(missiles, u.worldMissiles, elap)
    ensures bs == BricksMerged(bricks, u.bricks)
    ensures cs == CannonsMerged(cannons, u.cannons, elap)
  {
    ms := BuildMap(missiles, u.worldMissiles, MissileIdOf, MissileKeep(missiles, elap));
    bs := BuildMap(bricks, u.bricks, BrickIdOf, NoKeep);
    cs := BuildMap(cannons, u.cannons, CannonEntryIdOf, CannonKeep(cannons, elap));
  }

  // ---------------------------------------------------------------------
  // The client state

  class GameState {
    var width: int
    var height: int
    var minX: real
    var maxX: real
    var minY: real
    var maxY: real
    /** Button ids sent to the server, oldest first. */
    var serverOutput: seq<int>
    var playerFuel: real
    var playerTeam: int
    var updateInterval: real
    var updateLast: real
    var missiles: map<int, Missile>
    var cannons: map<int, Cannon>
    var bricks: map<int, Brick>

    /** A fresh client: view bounds [-1,1] x [-1,1], nothing sent, no
        entities, no fuel, team 0, default update period. */
    constructor(now: real)
      ensures minX == -1.0 && maxX == 1.0 && minY == -1.0 && maxY == 1.0
      ensures playerFuel == 0.0 && playerTeam == 0
      ensures width == 0 && height == 0 && serverOutput == []
      ensures updateInterval == InitialUpdateInterval && updateLast == now
      ensures missiles == map[] && cannons == map[] && bricks == map[]
    {
      width := 0;
      height := 0;
      minX, maxX, minY, maxY := -1.0, 1.0, -1.0, 1.0;
      serverOutput := [];
      playerFuel := 0.0;
      playerTeam := 0;
      updateInterval := InitialUpdateInterval;
      updateLast := now;
      missiles := map[];
      cannons := map[];
      bricks := map[];
    }

    /** The window became `w` x `h` pixels. */
    method Resize(w: int, h: int)
      requires w > 0 && h > 0
      modifies this
      ensures width == w && height == h
      ensures (minX, maxX, minY, maxY) == ViewBounds(w, h)
      ensures serverOutput == old(serverOutput)
      ensures playerFuel == old(playerFuel) && playerTeam == old(playerTeam)
      ensures updateInterval == old(updateInterval) && updateLast == old(updateLast)
      ensures missiles == old(missiles) && cannons == old(cannons) && bricks == old(bricks)
    {
      width := w;
      height := h;
      if h >= w {
        var aspect := h as real / w as real;
        minX := -1.0;
        maxX := 1.0;
        minY := -aspect;
        maxY := aspect;
      } else {
        var aspect := w as real / h as real;
        minX := -aspect;
        maxX := aspect;
        minY := -1.0;
        maxY := 1.0;
      }
    }

    /** Height of the button strip: one fifth of the screen width, so five square buttons fill it. */
    function ButtonEdge(): (e: real)
      reads this
      ensures e * Buttons as real == maxX - minX
    {
      (maxX - minX) / Buttons as real
    }

    /** A pointer event: a press inside the bottom strip sends the button
        under the pointer; anything else sends nothing. */
    method Input(press: bool, release: bool, pixelX: real, pixelY: real)
      requires height > 1 && width > 0
      modifies this
      ensures width == old(width) && height == old(height)
      ensures minX == old(minX) && maxX == old(maxX) && minY == old(minY) && maxY == old(maxY)
      ensures serverOutput == old(serverOutput) +
                (if press && ScreenY(pixelY, height, minY, maxY) < minY + ButtonEdge() then [ButtonAt(pixelX, width)] else [])
      ensures missiles == old(missiles) && cannons == old(cannons) && bricks == old(bricks)
      ensures playerFuel == old(playerFuel) && playerTeam == old(playerTeam)
      ensures updateInterval == old(updateInterval) && updateLast == old(updateLast)
    {
      if press {
        var y := pixelY / (height - 1) as real * (minY - maxY) + maxY;
        if y < minY + ButtonEdge() {
          var pixelsPerButton := width as real / Buttons as real;
          var b := pixelX / pixelsPerButton;
          serverOutput := serverOutput + [Trunc(b)];
        }
      }
    }

    /** A snapshot from the server, received at `now`; `elap` is the time
        the client then measures since `now`. */
    method OnUpdate(u: Update, now: real, elap: real)
      modifies this
      ensures playerTeam == u.team && playerFuel == u.fuel && updateInterval == u.interval && updateLast == now
      ensures missiles == MissilesMerged(old(missiles), u.worldMissiles, elap)
      ensures bricks == BricksMerged(old(bricks), u.bricks)
      ensures cannons == CannonsMerged(old(cannons), u.cannons, elap)
      ensures width == old(width) && height == old(height) && serverOutput == old(serverOutput)
      ensures minX == old(minX) && maxX == old(maxX) && minY == old(minY) && maxY == old(maxY)
    {
      var ms, bs, cs := MergeSnapshot(missiles, bricks, cannons, u, elap);
      assert ms == MissilesMerged(old(missiles), u.worldMissiles, elap);
      assert bs == BricksMerged(old(bricks), u.bricks);
      assert cs == CannonsMerged(old(cannons), u.cannons, elap);
      playerTeam, playerFuel, updateInterval, updateLast := u.team, u.fuel, u.interval, now;
      missiles, bricks, cannons := ms, bs, cs;
    }
  }
}
