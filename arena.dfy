/** The arena server's world actor: one method per case of its service
    loop, each changing the world in place. Every method is proved to perform
    the matching transition of module ArenaState and to keep the world's
    invariant; what those transitions promise is proved in ArenaFacts. */
module Arena {
  import opened Future
  import opened Msg
  import opened Players
  import opened Unit
  import opened Collision
  import opened ArenaState
  import opened ArenaFacts

  class World {
    var playerTab: seq<Player>
    var missileList: seq<Missile>
    var brickList: seq<Brick>
    var teams: Teams
    var brickID: int
    /** Next missile and cannon ids (locals of the service loop in the server). */
    var missileID: int
    var cannonID: int
    /** Updates sent to each session, oldest first. */
    var outbox: map<Handle, seq<Update>>

    function State(): WorldState
      reads this
    {
      WorldState(playerTab, missileList, brickList, teams, brickID, missileID, cannonID, outbox)
    }

    predicate Valid()
      reads this
    {
      Consistent(State())
    }

    /** The world before the service loop starts. */
    constructor()
      ensures State() == Initial() && Valid()
    {
      playerTab := [];
      missileList := [];
      brickList := [];
      teams := Teams(Team(0, 0), Team(0, 0));
      brickID := 0;
      missileID := 0;
      cannonID := 0;
      outbox := map[];
    }

    /** A new session registers its player. */
    method Join(h: Handle, now: real)
      requires Valid() && FindPlayer(playerTab, h) < 0
      modifies this
      ensures State() == JoinSpec(old(State()), h, now) && Valid()
    {
      JoinPreserves(State(), h, now);
      var team := 0;
      if teams.zero.count > teams.one.count {
        team := 1;
      }
      var p := NewPlayer(h).(team := team);
      p := PlayerFuelSet(p, now, JoinFuel);
      p := p.(cannonStart := p.fuelStart, cannonSpeed := JoinCannonSpeed, cannonCoordX := JoinCannonCoordX,
              cannonID := cannonID, cannonLife := JoinCannonLife);
      playerTab := playerTab + [p];
      cannonID := cannonID + 1;
      teams := CountAdjusted(teams, team, 1);
    }

    /** A session deregisters: its player is swap-removed if present. */
    method Leave(h: Handle)
      requires Valid()
      modifies this
      ensures State() == LeaveSpec(old(State()), h) && Valid()
    {
      LeavePreserves(State(), h);
      ghost var s0 := State();
      var i := 0;
      while i < |playerTab| && playerTab[i].handle != h
        invariant 0 <= i <= |playerTab|
        invariant forall j :: 0 <= j < i ==> playerTab[j].handle != h
      {
        i := i + 1;
      }
      if i < |playerTab| {
        assert FindPlayer(s0.players, h) == i;
        RemovePlayer(i);
      } else {
        assert FindPlayer(s0.players, h) < 0;
      }
    }

    /** Swap-with-last removal of player `i`, whose team loses one member. */
    method RemovePlayer(i: nat)
      requires i < |playerTab| && IsTeam(playerTab[i].team)
      modifies this
      ensures State() == old(State()).(players := SwapRemove(old(playerTab), i),
                                       teams := CountAdjusted(old(teams), old(playerTab)[i].team, -1))
    {
      var t := playerTab[i].team;
      var last := |playerTab| - 1;
      if i < last {
        playerTab := playerTab[i := playerTab[last]];
      }
      playerTab := playerTab[..last];
      teams := CountAdjusted(teams, t, -1);
    }

    /** Swap-with-last removal of missile `i`. */
    method RemoveMissile(i: nat)
      requires i < |missileList|
      modifies this
      ensures State() == old(State()).(missiles := SwapRemove(old(missileList), i))
    {
      var last := |missileList| - 1;
      if i < last {
        missileList := missileList[i := missileList[last]];
      }
      missileList := missileList[..last];
    }

    /** Queues for `p` the snapshot of the world, with one cannon entry per
        player, flagged for `p`'s own. */
    method SendUpdatesToPlayer(p: Player, now: real, fire: bool)
      modifies this
      ensures State() == old(State()).(outbox := Send(old(outbox), p.handle, Snapshot(old(State()), p, now, fire)))
    {
      var cannons: seq<Cannon> := [];
      var i := 0;
      while i < |playerTab|
        invariant 0 <= i <= |playerTab|
        invariant cannons == CannonsFor(playerTab[..i], p.handle)
      {
        var p1 := playerTab[i];
        cannons := cannons + [CannonOf(p1, p1.handle == p.handle)];
        i := i + 1;
      }
      assert playerTab[..i] == playerTab;
      var update := Update(PlayerFuel(p, now), UpdateInterval, missileList, brickList, p.team,
                           (teams.zero.score, teams.one.score), fire, cannons);
      outbox := Send(outbox, p.handle, update);
    }

    /** The world update: re-base every cannon, advance and retire missiles,
        then send every player its snapshot. */
    method UpdateWorld(now: real, fire: bool)
      modifies this
      ensures State() == BroadcastSpec(old(State()), now, fire)
    {
      RebaseCannons(now);
      RetireMissiles(now);
      ghost var s1 := State();
      assert s1 == old(State()).(players := Rebased(old(playerTab), now), missiles := RetireFrom(old(missileList), 0, now));
      SendAllUpdates(now, fire);
    }

    /** First loop of the world update: every cannon re-based to `now`. */
    method RebaseCannons(now: real)
      modifies this
      ensures State() == old(State()).(players := Rebased(old(playerTab), now))
    {
      var j := 0;
      while j < |playerTab|
        invariant 0 <= j <= |playerTab| == |old(playerTab)|
        invariant forall k :: 0 <= k < j ==> playerTab[k] == UpdateCannon(old(playerTab)[k], now)
        invariant forall k :: j <= k < |playerTab| ==> playerTab[k] == old(playerTab)[k]
        invariant State() == old(State()).(players := playerTab)
      {
        playerTab := playerTab[j := UpdateCannon(playerTab[j], now)];
        j := j + 1;
      }
    }

    /** Second loop of the world update: each missile advanced to `now` and
        swap-removed once it reaches the top; `i` steps back after a removal
        so that the swapped-in missile is examined too. */
    method RetireMissiles(now: real)
      modifies this
      ensures State() == old(State()).(missiles := RetireFrom(old(missileList), 0, now))
    {
      var i := 0;
      while i < |missileList|
        invariant 0 <= i <= |missileList|
        invariant RetireFrom(missileList, i, now) == RetireFrom(old(missileList), 0, now)
        invariant State() == old(State()).(missiles := missileList)
        decreases |missileList| - i
      {
        var m := missileList[i];
        m := m.(coordY := MissileY(m.coordY, m.speed, now - m.start), start := now);
        missileList := missileList[i := m];
        if m.coordY >= 1.0 {
          RemoveMissile(i);
          i := i - 1;
        }
        i := i + 1;
      }
    }

    /** Third loop of the world update: every player, in table order, is
        sent its snapshot. */
    method SendAllUpdates(now: real, fire: bool)
      modifies this
      ensures State() == old(State()).(outbox := SendAll(old(outbox), old(playerTab), old(State()), now, fire))
    {
      var k := 0;
      while k < |playerTab|
        invariant 0 <= k <= |playerTab|
        invariant State() == old(State()).(outbox := SendAll(old(outbox), playerTab[..k], old(State()), now, fire))
      {
        SendUpdatesToPlayer(playerTab[k], now, fire);
        assert playerTab[..k + 1][..k] == playerTab[..k];
        k := k + 1;
      }
      assert playerTab[..k] == playerTab;
    }

    /** Spawns player `k`'s brick pattern at its re-based cannon position. */
    method SpawnBricks(k: nat, now: real)
      requires k < |playerTab|
      modifies this
      ensures State() == SpawnBricksSpec(old(State()), k, now)
    {
      var p := UpdateCannon(playerTab[k], now);
      playerTab := playerTab[k := p];
      ghost var bricks0 := brickList;
      ghost var id0 := brickID;
      var rows := BrickRows;
      var cols := BrickCols;
      var r := 0;
      while r < rows
        invariant 0 <= r <= rows
        invariant brickList == bricks0 + BrickRun(id0, r * cols, p.cannonCoordX, p.team)
        invariant brickID == id0 + r * cols
        invariant playerTab == old(playerTab)[k := p]
        invariant State() == old(State()).(players := playerTab, bricks := brickList, brickID := brickID)
      {
        var c := 0;
        while c < cols
          invariant 0 <= c <= cols
          invariant brickList == bricks0 + BrickRun(id0, r * cols + c, p.cannonCoordX, p.team)
          invariant brickID == id0 + r * cols + c
          invariant playerTab == old(playerTab)[k := p]
          invariant State() == old(State()).(players := playerTab, bricks := brickList, brickID := brickID)
        {
          var br := Brick(brickID, p.cannonCoordX, 0.0, p.team);
          brickID := brickID + 1;
          brickList := brickList + [br];
          c := c + 1;
        }
        r := r + 1;
      }
      assert r * cols == BrickRows * BrickCols;
    }

    /** A button press from session `h`, whose player is registered. */
    method Input(h: Handle, button: int, now: real)
      requires Valid() && FindPlayer(playerTab, h) >= 0
      modifies this
      ensures State() == InputSpec(old(State()), h, button, now) && Valid()
    {
      InputPreserves(State(), h, button, now);
      var k := FindPlayer(playerTab, h);
      if playerTab[k].cannonLife <= 0.0 {
        return;
      }
      if button == ButtonTurn {
        Turn(k, now);
      } else if button == ButtonBrick {
        BrickButton(k, now);
      } else if button == ButtonFire {
        Fire(k, now);
      }
    }

    /** The turn button: the cannon is re-based and reversed, then the world update runs. */
    method Turn(k: nat, now: real)
      requires k < |playerTab|
      modifies this
      ensures State() == TurnSpec(old(State()), k, now)
    {
      var p := UpdateCannon(playerTab[k], now);
      p := p.(cannonSpeed := -p.cannonSpeed);
      playerTab := playerTab[k := p];
      UpdateWorld(now, false);
    }

    /** The brick button: with enough fuel, the cost is consumed and the bricks spawned. */
    method BrickButton(k: nat, now: real)
      requires k < |playerTab|
      modifies this
      ensures State() == BrickSpec(old(State()), k, now)
    {
      var p := playerTab[k];
      var fuel := PlayerFuel(p, now);
      if fuel < BrickCost {
        return;
      }
      playerTab := playerTab[k := PlayerFuelConsume(p, now, BrickCost)];
      SpawnBricks(k, now);
    }

    /** The fire button: with enough fuel, the cost is consumed, the cannon
        re-based, one missile launched, and the world update runs with fire sound. */
    method Fire(k: nat, now: real)
      requires k < |playerTab|
      modifies this
      ensures State() == FireSpec(old(State()), k, now)
    {
      var p := playerTab[k];
      var fuel := PlayerFuel(p, now);
      if fuel < FireCost {
        return;
      }
      p := PlayerFuelConsume(p, now, FireCost);
      p := UpdateCannon(p, now);
      playerTab := playerTab[k := p];
      var miss := Missile(missileID, p.cannonCoordX, 0.0, MissileSpeed, p.team, now);
      missileID := missileID + 1;
      missileList := missileList + [miss];
      UpdateWorld(now, true);
    }

    /** The periodic update tick. */
    method UpdateTick(now: real)
      requires Valid()
      modifies this
      ensures State() == BroadcastSpec(old(State()), now, false) && Valid()
    {
      BroadcastPreserves(State(), now, false);
      UpdateWorld(now, false);
    }

    /** The collision tick: a world update only if the sweep reports a hit,
        which, with the stub intersection test, it never does. */
    method CollisionTick(now: real, cannonBox: CannonBoxFn)
      requires Valid()
      modifies this
      ensures State() == old(State()) && Valid()
    {
      var hit: bool;
      ghost var probed: seq<(nat, nat, Rect, Rect)>;
      hit, probed := DetectCollision(missileList, playerTab, now, cannonBox);
      UpdateWorldIf(hit, now);
    }

    /** Runs the world update, without fire sound, exactly when `cond` holds. */
    method UpdateWorldIf(cond: bool, now: real)
      modifies this
      ensures State() == if cond then BroadcastSpec(old(State()), now, false) else old(State())
    {
      if cond {
        UpdateWorld(now, false);
      }
    }
  }
}
