/** The arena server's world as a value, and one transition function per
    event of its service loop. The `World` class in module Arena performs
    these transitions in place; the lemmas here state what they promise. */
module ArenaState {
  import opened Future
  import opened Msg
  import opened Players

  /** Broadcast period: 1000 ms, in nanoseconds. */
  const UpdateInterval: real := 1000.0 * 1000000.0
  /** A joining player's fuel (half of FuelMax), cannon speed, position and life. */
  const JoinFuel: real := 5.0
  const JoinCannonSpeed: real := 0.15
  const JoinCannonCoordX: real := 0.5
  const JoinCannonLife: real := 1.0
  /** A fired missile climbs half the field per second. */
  const MissileSpeed: real := 0.5
  const FireCost: real := 1.0
  const BrickCost: real := 2.0
  /** The brick pattern spawned by one press: rows by columns. */
  const BrickRows: nat := 1
  const BrickCols: nat := 1

  datatype Team = Team(count: int, score: int)

  /** The two teams, indexed 0 and 1. */
  datatype Teams = Teams(zero: Team, one: Team)

  predicate IsTeam(t: int)
  {
    t == 0 || t == 1
  }

  function TeamAt(ts: Teams, t: int): Team
    requires IsTeam(t)
  {
    if t == 0 then ts.zero else ts.one
  }

  /** Adds `delta` to the player count of team `t`. */
  function CountAdjusted(ts: Teams, t: int, delta: int): (r: Teams)
    requires IsTeam(t)
    ensures TeamAt(r, t).count == TeamAt(ts, t).count + delta
    ensures TeamAt(r, 1 - t) == TeamAt(ts, 1 - t)
    ensures r.zero.score == ts.zero.score && r.one.score == ts.one.score
  {
    if t == 0 then ts.(zero := ts.zero.(count := ts.zero.count + delta))
    else ts.(one := ts.one.(count := ts.one.count + delta))
  }

  /** The world: player table, live missiles and bricks, teams, the three
      id counters and each session's queue of sent updates. */
  datatype WorldState = WorldState(
    players: seq<Player>,
    missiles: seq<Missile>,
    bricks: seq<Brick>,
    teams: Teams,
    brickID: int,
    missileID: int,
    cannonID: int,
    outbox: map<Handle, seq<Update>>)

  // ---------------------------------------------------------------------
  // Sequences keyed by an id

  predicate KeysDistinct<T>(s: seq<T>, key: T -> int)
  {
    forall i, j :: 0 <= i < j < |s| ==> key(s[i]) != key(s[j])
  }

  predicate KeysBelow<T>(s: seq<T>, key: T -> int, bound: int)
  {
    forall i :: 0 <= i < |s| ==> key(s[i]) < bound
  }

  function HandleOf(p: Player): int { p.handle }
  function CannonIdOf(p: Player): int { p.cannonID }

  /** Appending an element keyed by the counter keeps keys distinct and below the bumped counter. */
  lemma FreshAppend<T>(s: seq<T>, x: T, key: T -> int, bound: int)
    requires KeysDistinct(s, key) && KeysBelow(s, key, bound) && key(x) == bound
    ensures KeysDistinct(s + [x], key) && KeysBelow(s + [x], key, bound + 1)
  {
  }

  /** Swap-with-last removal: the last element moves into slot `i` and the
      sequence shrinks by one. */
  function SwapRemove<T>(s: seq<T>, i: nat): (r: seq<T>)
    requires i < |s|
    ensures |r| == |s| - 1
    ensures forall k :: 0 <= k < |r| ==> r[k] == s[if k == i then |s| - 1 else k]
    ensures multiset(r) == multiset(s) - multiset{s[i]}
  {
    var t := if i < |s| - 1 then s[i := s[|s| - 1]] else s;
    assert t == t[..|s| - 1] + [t[|s| - 1]];
    assert t[..|s| - 1] == (if i < |s| - 1 then s[..|s| - 1][i := s[|s| - 1]] else s[..|s| - 1]);
    assert s == s[..|s| - 1] + [s[|s| - 1]];
    t[..|s| - 1]
  }

  /** Removal keeps keys distinct, and bounded when they were. */
  lemma SwapRemoveKeys<T>(s: seq<T>, i: nat, key: T -> int, bound: int)
    requires i < |s| && KeysDistinct(s, key)
    ensures KeysDistinct(SwapRemove(s, i), key)
    ensures KeysBelow(s, key, bound) ==> KeysBelow(SwapRemove(s, i), key, bound)
  {
    var r := SwapRemove(s, i);
    forall a, b | 0 <= a < b < |r|
      ensures key(r[a]) != key(r[b])
    {
      assert r[a] == s[if a == i then |s| - 1 else a];
      assert r[b] == s[if b == i then |s| - 1 else b];
    }
  }

  // ---------------------------------------------------------------------
  // The player table

  /** Every player belongs to team 0 or team 1. */
  predicate TeamsOk(tab: seq<Player>)
  {
    forall i :: 0 <= i < |tab| ==> IsTeam(tab[i].team)
  }

  /** Number of players of team `t` in `tab`. */
  function CountTeam(tab: seq<Player>, t: int): nat
  {
    if |tab| == 0 then 0
    else CountTeam(tab[..|tab| - 1], t) + (if tab[|tab| - 1].team == t then 1 else 0)
  }

  /** Position of the first player with handle `h`, or -1 when there is none. */
  function FindPlayer(tab: seq<Player>, h: Handle): (r: int)
    ensures -1 <= r < |tab|
    ensures r >= 0 ==> tab[r].handle == h
    ensures forall j :: 0 <= j < |tab| && (r < 0 || j < r) ==> tab[j].handle != h
  {
    if |tab| == 0 then -1
    else if tab[0].handle == h then 0
    else
      var r := FindPlayer(tab[1..], h);
      if r < 0 then -1 else r + 1
  }

  /** Counting distributes over concatenation. */
  lemma {:induction false} CountTeamConcat(a: seq<Player>, b: seq<Player>, t: int)
    ensures CountTeam(a + b, t) == CountTeam(a, t) + CountTeam(b, t)
    decreases |b|
  {
    if |b| == 0 {
      assert a + b == a;
    } else {
      assert (a + b)[..|a + b| - 1] == a + b[..|b| - 1];
      CountTeamConcat(a, b[..|b| - 1], t);
    }
  }

  /** Two tables with the same teams, position by position, count alike. */
  lemma {:induction false} CountTeamSameTeams(a: seq<Player>, b: seq<Player>, t: int)
    requires |a| == |b|
    requires forall k :: 0 <= k < |a| ==> a[k].team == b[k].team
    ensures CountTeam(a, t) == CountTeam(b, t)
    decreases |a|
  {
    if |a| > 0 {
      CountTeamSameTeams(a[..|a| - 1], b[..|b| - 1], t);
    }
  }

  /** Swap-with-last removal uncounts exactly the removed player. */
  lemma CountTeamSwapRemove(tab: seq<Player>, i: nat, t: int)
    requires i < |tab|
    ensures CountTeam(SwapRemove(tab, i), t) + (if tab[i].team == t then 1 else 0) == CountTeam(tab, t)
  {
    var n := |tab|;
    var r := SwapRemove(tab, i);
    if i == n - 1 {
      assert r == tab[..n - 1];
    } else {
      var mid := tab[i + 1..n - 1];
      assert tab == tab[..i] + ([tab[i]] + (mid + [tab[n - 1]]));
      assert r == tab[..i] + ([tab[n - 1]] + mid);
      CountTeamConcat(tab[..i], [tab[i]] + (mid + [tab[n - 1]]), t);
      CountTeamConcat([tab[i]], mid + [tab[n - 1]], t);
      CountTeamConcat(mid, [tab[n - 1]], t);
      CountTeamConcat(tab[..i], [tab[n - 1]] + mid, t);
      CountTeamConcat([tab[n - 1]], mid, t);
      assert [tab[i]][..0] == [];
      assert [tab[n - 1]][..0] == [];
    }
  }

  /** The two team counts add up to the table size. */
  lemma {:induction false} CountTeamTotal(tab: seq<Player>)
    requires TeamsOk(tab)
    ensures CountTeam(tab, 0) + CountTeam(tab, 1) == |tab|
    decreases |tab|
  {
    if |tab| > 0 {
      CountTeamTotal(tab[..|tab| - 1]);
    }
  }

  /** The world's own invariant: team counts match the table, every player is
      on team 0 or 1, handles are distinct, and every id in use is distinct
      and below its counter (so the next id handed out is fresh). */
  predicate Consistent(s: WorldState)
  {
    TeamsOk(s.players)
    && s.teams.zero.count == CountTeam(s.players, 0)
    && s.teams.one.count == CountTeam(s.players, 1)
    && KeysDistinct(s.players, HandleOf)
    && KeysDistinct(s.players, CannonIdOf) && KeysBelow(s.players, CannonIdOf, s.cannonID)
    && KeysDistinct(s.missiles, MissileIdOf) && KeysBelow(s.missiles, MissileIdOf, s.missileID)
    && KeysDistinct(s.bricks, BrickIdOf) && KeysBelow(s.bricks, BrickIdOf, s.brickID)
  }

  /** Both team scores. */
  function Scores(s: WorldState): (int, int)
  {
    (s.teams.zero.score, s.teams.one.score)
  }

  /** The world before any event: no players, zero counters, zero scores. */
  function Initial(): (s: WorldState)
    ensures Consistent(s) && |s.players| == 0 && Scores(s) == (0, 0)
  {
    WorldState([], [], [], Teams(Team(0, 0), Team(0, 0)), 0, 0, 0, map[])
  }

  // ---------------------------------------------------------------------
  // Join and leave

  /** The team a joining player is put on. */
  function JoinTeam(s: WorldState): int
  {
    if s.teams.zero.count > s.teams.one.count then 1 else 0
  }

  /** The joining player, fully initialised at instant `now`. */
  function Joined(h: Handle, team: int, id: int, now: real): Player
  {
    var p := PlayerFuelSet(NewPlayer(h).(team := team), now, JoinFuel);
    p.(cannonStart := p.fuelStart, cannonSpeed := JoinCannonSpeed, cannonCoordX := JoinCannonCoordX,
       cannonID := id, cannonLife := JoinCannonLife)
  }

  /** A session joins: appended to the table, on the smaller team (team 0 on a tie). */
  function JoinSpec(s: WorldState, h: Handle, now: real): WorldState
  {
    var team := JoinTeam(s);
    s.(players := s.players + [Joined(h, team, s.cannonID, now)],
       cannonID := s.cannonID + 1,
       teams := CountAdjusted(s.teams, team, 1))
  }

  /** A session leaves: its player is swap-removed and its team uncounted;
      an unknown session changes nothing. */
  function LeaveSpec(s: WorldState, h: Handle): WorldState
    requires TeamsOk(s.players)
  {
    var k := FindPlayer(s.players, h);
    if k < 0 then s
    else s.(players := SwapRemove(s.players, k), teams := CountAdjusted(s.teams, s.players[k].team, -1))
  }

  // ---------------------------------------------------------------------
  // The periodic world update

  /** Every cannon re-based to `now`. */
  function Rebased(tab: seq<Player>, now: real): (r: seq<Player>)
    ensures |r| == |tab|
    ensures forall k :: 0 <= k < |r| ==> r[k] == UpdateCannon(tab[k], now)
  {
    seq(|tab|, k requires 0 <= k < |tab| => UpdateCannon(tab[k], now))
  }

  /** The missile's progress re-based to `now`. */
  function Advance(m: Missile, now: real): Missile
  {
    m.(coordY := MissileY(m.coordY, m.speed, now - m.start), start := now)
  }

  /** The retirement pass from position `i` on: each missile is advanced; one
      that reached the top is swap-removed and the missile moved into its slot
      is examined next; the others stay in place. */
  function RetireFrom(ms: seq<Missile>, i: nat, now: real): seq<Missile>
    decreases |ms| - i
  {
    if i >= |ms| then ms
    else
      var m := Advance(ms[i], now);
      if m.coordY >= 1.0 then RetireFrom(SwapRemove(ms[i := m], i), i, now)
      else RetireFrom(ms[i := m], i + 1, now)
  }

  /** Reference definition: the advanced missiles that are still below the top, in order. */
  function Survivors(ms: seq<Missile>, now: real): seq<Missile>
  {
    if |ms| == 0 then []
    else
      var m := Advance(ms[0], now);
      (if m.coordY < 1.0 then [m] else []) + Survivors(ms[1..], now)
  }

  /** Recipient `h`'s view of the cannons: one entry per player, in table
      order, flagged as its own exactly when it is `h`'s. */
  function CannonsFor(tab: seq<Player>, h: Handle): (r: seq<Cannon>)
    ensures |r| == |tab|
  {
    seq(|tab|, k requires 0 <= k < |tab| => CannonOf(tab[k], tab[k].handle == h))
  }

  /** The update sent to player `p`. */
  function Snapshot(s: WorldState, p: Player, now: real, fire: bool): Update
  {
    Update(PlayerFuel(p, now), UpdateInterval, s.missiles, s.bricks, p.team, Scores(s), fire,
           CannonsFor(s.players, p.handle))
  }

  /** Updates queued so far for session `h`. */
  function Mailbox(outbox: map<Handle, seq<Update>>, h: Handle): seq<Update>
  {
    if h in outbox then outbox[h] else []
  }

  /** Queues update `u` for session `h`. */
  function Send(outbox: map<Handle, seq<Update>>, h: Handle, u: Update): map<Handle, seq<Update>>
  {
    outbox[h := Mailbox(outbox, h) + [u]]
  }

  /** Queues a snapshot of `s` for each of `rs`, in order. */
  function SendAll(outbox: map<Handle, seq<Update>>, rs: seq<Player>, s: WorldState, now: real, fire: bool): map<Handle, seq<Update>>
  {
    if |rs| == 0 then outbox
    else Send(SendAll(outbox, rs[..|rs| - 1], s, now, fire), rs[|rs| - 1].handle, Snapshot(s, rs[|rs| - 1], now, fire))
  }

  /** The world update: cannons re-based, missiles advanced and retired, and
      one snapshot queued for every player. */
  function BroadcastSpec(s: WorldState, now: real, fire: bool): WorldState
  {
    var s1 := s.(players := Rebased(s.players, now), missiles := RetireFrom(s.missiles, 0, now));
    s1.(outbox := SendAll(s.outbox, s1.players, s1, now, fire))
  }

  // ---------------------------------------------------------------------
  // Button input

  /** `n` bricks numbered from `id0`, all at `x`, height 0, owned by `team`. */
  function BrickRun(id0: int, n: nat, x: real, team: int): (r: seq<Brick>)
    ensures |r| == n
  {
    if n == 0 then [] else BrickRun(id0, n - 1, x, team) + [Brick(id0 + n - 1, x, 0.0, team)]
  }

  /** Player `k` spawns its brick pattern at its cannon's current position. */
  function SpawnBricksSpec(s: WorldState, k: nat, now: real): WorldState
    requires k < |s.players|
  {
    var p := UpdateCannon(s.players[k], now);
    s.(players := s.players[k := p],
       bricks := s.bricks + BrickRun(s.brickID, BrickRows * BrickCols, p.cannonCoordX, p.team),
       brickID := s.brickID + BrickRows * BrickCols)
  }

  /** The missile launched by `p` at `now` from its cannon's position. */
  function Launched(p: Player, id: int, now: real): Missile
  {
    Missile(id, p.cannonCoordX, 0.0, MissileSpeed, p.team, now)
  }

  /** Turn: the cannon is re-based to `now` and reversed; then the world update runs. */
  function TurnSpec(s: WorldState, k: nat, now: real): WorldState
    requires k < |s.players|
  {
    var q := UpdateCannon(s.players[k], now);
    BroadcastSpec(s.(players := s.players[k := q.(cannonSpeed := -q.cannonSpeed)]), now, false)
  }

  /** Brick: with at least BrickCost fuel, the fuel is consumed and the brick pattern spawned. */
  function BrickSpec(s: WorldState, k: nat, now: real): WorldState
    requires k < |s.players|
  {
    var p := s.players[k];
    if PlayerFuel(p, now) < BrickCost then s
    else SpawnBricksSpec(s.(players := s.players[k := PlayerFuelConsume(p, now, BrickCost)]), k, now)
  }

  /** Fire: with at least FireCost fuel, the fuel is consumed, the cannon
      re-based, one missile launched, and the world update runs with fire sound. */
  function FireSpec(s: WorldState, k: nat, now: real): WorldState
    requires k < |s.players|
  {
    var p := s.players[k];
    if PlayerFuel(p, now) < FireCost then s
    else
      var q := UpdateCannon(PlayerFuelConsume(p, now, FireCost), now);
      BroadcastSpec(s.(players := s.players[k := q],
                       missiles := s.missiles + [Launched(q, s.missileID, now)],
                       missileID := s.missileID + 1), now, true)
  }

  /** A button press from session `h`: nothing happens for a destroyed
      cannon or an unknown button. */
  function InputSpec(s: WorldState, h: Handle, button: int, now: real): WorldState
    requires FindPlayer(s.players, h) >= 0
  {
    var k := FindPlayer(s.players, h);
    if s.players[k].cannonLife <= 0.0 then s
    else if button == ButtonTurn then TurnSpec(s, k, now)
    else if button == ButtonBrick then BrickSpec(s, k, now)
    else if button == ButtonFire then FireSpec(s, k, now)
    else s
  }
}
