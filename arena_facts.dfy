/** What the arena's transitions promise: the world invariant is kept by
    every event, joins balance the teams, leaving removes exactly one player,
    the world update retires exactly the missiles that reached the top and
    sends one snapshot to each player, and button presses are gated by life
    and fuel. */
module ArenaFacts {
  import opened Future
  import opened Msg
  import opened Players
  import opened ArenaState

  // ---------------------------------------------------------------------
  // Missile retirement

  /** The reference filter distributes over concatenation. */
  lemma {:induction false} SurvivorsConcat(a: seq<Missile>, b: seq<Missile>, now: real)
    ensures Survivors(a + b, now) == Survivors(a, now) + Survivors(b, now)
    decreases |a|
  {
    if |a| == 0 {
      assert a + b == b;
    } else {
      assert (a + b)[1..] == a[1..] + b;
      SurvivorsConcat(a[1..], b, now);
    }
  }

  /** The filter applied to a single missile. */
  lemma SurvivorsSingle(m: Missile, now: real)
    ensures Survivors([m], now) == if Advance(m, now).coordY < 1.0 then [Advance(m, now)] else []
  {
    assert [m][1..] == [];
  }

  /** Members of the reference filter are exactly the advanced missiles below the top. */
  lemma {:induction false} SurvivorsMembers(ms: seq<Missile>, now: real, x: Missile)
    ensures x in Survivors(ms, now) <==> exists j :: 0 <= j < |ms| && x == Advance(ms[j], now) && x.coordY < 1.0
    decreases |ms|
  {
    if |ms| > 0 {
      SurvivorsMembers(ms[1..], now, x);
      if x in Survivors(ms[1..], now) {
        var j :| 0 <= j < |ms[1..]| && x == Advance(ms[1..][j], now) && x.coordY < 1.0;
        assert x == Advance(ms[j + 1], now);
      }
      if exists j :: 0 <= j < |ms| && x == Advance(ms[j], now) && x.coordY < 1.0 {
        var j :| 0 <= j < |ms| && x == Advance(ms[j], now) && x.coordY < 1.0;
        if j > 0 {
          assert ms[1..][j - 1] == ms[j];
        }
      }
    }
  }

  /** Swap-with-last removal from the middle, as a concatenation. */
  lemma SwapRemoveShape<T>(s: seq<T>, i: nat)
    requires i < |s| - 1
    ensures SwapRemove(s, i) == s[..i] + [s[|s| - 1]] + s[i + 1..|s| - 1]
  {
  }

  /** Advancing the missile at `i` and removing it from the middle puts
      the last missile in its place. */
  lemma RetireRemoveShape(ms: seq<Missile>, i: nat, now: real)
    requires i < |ms| - 1
    ensures var t := SwapRemove(ms[i := Advance(ms[i], now)], i);
      t[..i] == ms[..i] && t[i..] == [ms[|ms| - 1]] + ms[i + 1..|ms| - 1]
  {
    var n := |ms|;
    var u := ms[i := Advance(ms[i], now)];
    SwapRemoveShape(u, i);
    assert u[..i] == ms[..i] && u[n - 1] == ms[n - 1] && u[i + 1..n - 1] == ms[i + 1..n - 1];
  }

  /** One removal step of the retirement pass: the prefix is untouched and
      the rest still has the same survivors, as a multiset. */
  lemma RetireRemoveStep(ms: seq<Missile>, i: nat, now: real)
    requires i < |ms| && Advance(ms[i], now).coordY >= 1.0
    ensures var t := SwapRemove(ms[i := Advance(ms[i], now)], i);
      i <= |t| && t[..i] == ms[..i] &&
      multiset(Survivors(t[i..], now)) == multiset(Survivors(ms[i..], now))
  {
    var n := |ms|;
    var t := SwapRemove(ms[i := Advance(ms[i], now)], i);
    SurvivorsSingle(ms[i], now);
    if i == n - 1 {
      assert t == ms[..i];
      assert t[i..] == [];
      assert ms[i..] == [ms[i]];
    } else {
      RetireRemoveShape(ms, i, now);
      RetireRemoveSurvivors(ms, i, now);
    }
  }

  /** Swapping two blocks keeps the survivors, as a multiset. */
  lemma SurvivorsRotate(a: seq<Missile>, b: seq<Missile>, now: real)
    ensures multiset(Survivors(a + b, now)) == multiset(Survivors(b + a, now))
  {
    SurvivorsConcat(a, b, now);
    SurvivorsConcat(b, a, now);
    var sa, sb := Survivors(a, now), Survivors(b, now);
    assert multiset(sa + sb) == multiset(sa) + multiset(sb) == multiset(sb + sa);
  }

  /** A missile that does not survive contributes nothing to the survivors. */
  lemma SurvivorsDropHead(ms: seq<Missile>, i: nat, now: real)
    requires i < |ms| && Advance(ms[i], now).coordY >= 1.0
    ensures Survivors(ms[i..], now) == Survivors(ms[i + 1..], now)
  {
    assert ms[i..][1..] == ms[i + 1..];
  }

  /** Dropping a missile that does not survive and moving the last one to
      the front keeps the survivors of the rest, as a multiset. */
  lemma RetireRemoveSurvivors(ms: seq<Missile>, i: nat, now: real)
    requires i < |ms| - 1 && Advance(ms[i], now).coordY >= 1.0
    ensures multiset(Survivors([ms[|ms| - 1]] + ms[i + 1..|ms| - 1], now)) == multiset(Survivors(ms[i..], now))
  {
    var last, mid := ms[|ms| - 1], ms[i + 1..|ms| - 1];
    LastSplit(ms, i);
    SurvivorsDropHead(ms, i, now);
    SurvivorsRotate([last], mid, now);
  }

  /** The missiles after `i` are the middle block followed by the last one. */
  lemma LastSplit(ms: seq<Missile>, i: nat)
    requires i < |ms| - 1
    ensures ms[i + 1..] == ms[i + 1..|ms| - 1] + [ms[|ms| - 1]]
  {
  }

  /** One keeping step of the retirement pass: the advanced missile joins the
      examined prefix and is the first survivor of the rest. */
  lemma RetireKeepStep(ms: seq<Missile>, i: nat, now: real)
    requires i < |ms| && Advance(ms[i], now).coordY < 1.0
    ensures var t := ms[i := Advance(ms[i], now)];
      t[..i + 1] == ms[..i] + [Advance(ms[i], now)] &&
      multiset(Survivors(ms[i..], now)) == multiset{Advance(ms[i], now)} + multiset(Survivors(t[i + 1..], now))
  {
    var t := ms[i := Advance(ms[i], now)];
    SurvivorsSingle(ms[i], now);
    assert t[i + 1..] == ms[i + 1..];
    assert ms[i..] == [ms[i]] + ms[i + 1..];
    SurvivorsConcat([ms[i]], ms[i + 1..], now);
  }

  /** The retirement pass from `i` keeps the examined prefix and leaves the
      survivors of the rest, in some order. */
  lemma {:induction false} RetireFromMultiset(ms: seq<Missile>, i: nat, now: real)
    requires i <= |ms|
    ensures multiset(RetireFrom(ms, i, now)) == multiset(ms[..i]) + multiset(Survivors(ms[i..], now))
    decreases |ms| - i
  {
    if i == |ms| {
      assert ms[..i] == ms;
      assert ms[i..] == [];
    } else {
      var m := Advance(ms[i], now);
      if m.coordY >= 1.0 {
        RetireRemoveStep(ms, i, now);
        RetireFromMultiset(SwapRemove(ms[i := m], i), i, now);
      } else {
        RetireKeepStep(ms, i, now);
        RetireFromMultiset(ms[i := m], i + 1, now);
      }
    }
  }

  /** After the world update's retirement loop: the list is a permutation of
      the reference survivors; every remaining missile is below the top and
      re-based to `now`; each missile whose advanced position is below the
      top remains, and nothing else does. */
  lemma Retired(ms: seq<Missile>, now: real)
    ensures multiset(RetireFrom(ms, 0, now)) == multiset(Survivors(ms, now))
    ensures forall x :: x in RetireFrom(ms, 0, now) ==> x.coordY < 1.0 && x.start == now
    ensures forall j :: 0 <= j < |ms| && Advance(ms[j], now).coordY < 1.0 ==> Advance(ms[j], now) in RetireFrom(ms, 0, now)
    ensures forall x :: x in RetireFrom(ms, 0, now) ==> exists j :: 0 <= j < |ms| && x == Advance(ms[j], now)
  {
    var r := RetireFrom(ms, 0, now);
    RetireFromMultiset(ms, 0, now);
    assert ms[..0] == [] && ms[0..] == ms;
    forall x | x in r
      ensures x.coordY < 1.0 && x.start == now
      ensures exists j :: 0 <= j < |ms| && x == Advance(ms[j], now)
    {
      assert x in multiset(r);
      assert x in multiset(Survivors(ms, now));
      SurvivorsMembers(ms, now, x);
    }
    forall j | 0 <= j < |ms| && Advance(ms[j], now).coordY < 1.0
      ensures Advance(ms[j], now) in r
    {
      SurvivorsMembers(ms, now, Advance(ms[j], now));
      assert Advance(ms[j], now) in multiset(Survivors(ms, now));
      assert Advance(ms[j], now) in multiset(r);
    }
  }

  /** Retirement keeps missile ids distinct and below the counter. */
  lemma {:induction false} RetireFromKeys(ms: seq<Missile>, i: nat, now: real, bound: int)
    requires KeysDistinct(ms, MissileIdOf) && KeysBelow(ms, MissileIdOf, bound)
    ensures KeysDistinct(RetireFrom(ms, i, now), MissileIdOf) && KeysBelow(RetireFrom(ms, i, now), MissileIdOf, bound)
    decreases |ms| - i
  {
    if i < |ms| {
      var m := Advance(ms[i], now);
      var t := ms[i := m];
      assert forall k :: 0 <= k < |t| ==> MissileIdOf(t[k]) == MissileIdOf(ms[k]);
      if m.coordY >= 1.0 {
        SwapRemoveKeys(t, i, MissileIdOf, bound);
        RetireFromKeys(SwapRemove(t, i), i, now, bound);
      } else {
        RetireFromKeys(t, i + 1, now, bound);
      }
    }
  }

  // ---------------------------------------------------------------------
  // Snapshots

  /** Queueing for one session leaves every other session's queue alone. */
  lemma MailboxSend(outbox: map<Handle, seq<Update>>, h0: Handle, u: Update, h: Handle)
    ensures Mailbox(Send(outbox, h0, u), h) == if h == h0 then Mailbox(outbox, h) + [u] else Mailbox(outbox, h)
  {
  }

  /** A session with no player in `rs` receives nothing. */
  lemma {:induction false} SendAllOthers(outbox: map<Handle, seq<Update>>, rs: seq<Player>, s: WorldState, now: real, fire: bool, h: Handle)
    requires forall j :: 0 <= j < |rs| ==> rs[j].handle != h
    ensures Mailbox(SendAll(outbox, rs, s, now, fire), h) == Mailbox(outbox, h)
    decreases |rs|
  {
    if |rs| > 0 {
      var n := |rs|;
      SendAllOthers(outbox, rs[..n - 1], s, now, fire, h);
      MailboxSend(SendAll(outbox, rs[..n - 1], s, now, fire), rs[n - 1].handle, Snapshot(s, rs[n - 1], now, fire), h);
    }
  }

  /** With distinct handles, player `k` of `rs` receives exactly one snapshot. */
  lemma {:induction false} SendAllOne(outbox: map<Handle, seq<Update>>, rs: seq<Player>, s: WorldState, now: real, fire: bool, k: nat)
    requires KeysDistinct(rs, HandleOf) && k < |rs|
    ensures Mailbox(SendAll(outbox, rs, s, now, fire), rs[k].handle) == Mailbox(outbox, rs[k].handle) + [Snapshot(s, rs[k], now, fire)]
    decreases |rs|
  {
    var n := |rs|;
    var pre := rs[..n - 1];
    var h := rs[k].handle;
    MailboxSend(SendAll(outbox, pre, s, now, fire), rs[n - 1].handle, Snapshot(s, rs[n - 1], now, fire), h);
    if k == n - 1 {
      forall j | 0 <= j < |pre|
        ensures pre[j].handle != h
      {
        assert HandleOf(rs[j]) != HandleOf(rs[k]);
      }
      SendAllOthers(outbox, pre, s, now, fire, h);
    } else {
      assert HandleOf(rs[k]) != HandleOf(rs[n - 1]);
      assert pre[k] == rs[k];
      SendAllOne(outbox, pre, s, now, fire, k);
    }
  }

  /** In the snapshot for player `j`, entry `k` describes player `k` and is
      flagged as the recipient's own exactly when `k == j`. */
  lemma CannonsForRecipient(tab: seq<Player>, j: nat)
    requires KeysDistinct(tab, HandleOf) && j < |tab|
    ensures forall k :: 0 <= k < |tab| ==> CannonsFor(tab, tab[j].handle)[k] == CannonOf(tab[k], k == j)
  {
    forall k | 0 <= k < |tab|
      ensures CannonsFor(tab, tab[j].handle)[k] == CannonOf(tab[k], k == j)
    {
      if k < j {
        assert HandleOf(tab[k]) != HandleOf(tab[j]);
      } else if j < k {
        assert HandleOf(tab[j]) != HandleOf(tab[k]);
      }
    }
  }

  // ---------------------------------------------------------------------
  // The world update

  /** Replacing one player by a record with the same handle, team and cannon
      id keeps the world consistent. */
  lemma ReplacePlayer(s: WorldState, k: nat, q: Player)
    requires Consistent(s) && k < |s.players|
    requires q.handle == s.players[k].handle && q.team == s.players[k].team && q.cannonID == s.players[k].cannonID
    ensures Consistent(s.(players := s.players[k := q]))
  {
    var t := s.players[k := q];
    assert forall i :: 0 <= i < |t| ==> HandleOf(t[i]) == HandleOf(s.players[i]) && CannonIdOf(t[i]) == CannonIdOf(s.players[i]);
    CountTeamSameTeams(t, s.players, 0);
    CountTeamSameTeams(t, s.players, 1);
  }

  /** The world update keeps the world consistent and touches no brick,
      counter or score. */
  lemma BroadcastPreserves(s: WorldState, now: real, fire: bool)
    requires Consistent(s)
    ensures Consistent(BroadcastSpec(s, now, fire))
    ensures BroadcastSpec(s, now, fire).bricks == s.bricks && Scores(BroadcastSpec(s, now, fire)) == Scores(s)
    ensures BroadcastSpec(s, now, fire).teams == s.teams
    ensures BroadcastSpec(s, now, fire).brickID == s.brickID && BroadcastSpec(s, now, fire).missileID == s.missileID
    ensures BroadcastSpec(s, now, fire).cannonID == s.cannonID
  {
    var t := Rebased(s.players, now);
    assert forall i :: 0 <= i < |t| ==> HandleOf(t[i]) == HandleOf(s.players[i]) && CannonIdOf(t[i]) == CannonIdOf(s.players[i]) && t[i].team == s.players[i].team;
    CountTeamSameTeams(t, s.players, 0);
    CountTeamSameTeams(t, s.players, 1);
    RetireFromKeys(s.missiles, 0, now, s.missileID);
  }

  /** After the world update every player has exactly one more update
      queued, the snapshot of the updated world built for it; sessions without
      a player receive nothing. */
  lemma BroadcastDelivers(s: WorldState, now: real, fire: bool)
    requires Consistent(s)
    ensures var s1 := BroadcastSpec(s, now, fire);
      |s1.players| == |s.players| &&
      (forall k :: 0 <= k < |s.players| ==>
         s1.players[k].handle == s.players[k].handle &&
         Mailbox(s1.outbox, s.players[k].handle) == Mailbox(s.outbox, s.players[k].handle) + [Snapshot(s1, s1.players[k], now, fire)]) &&
      (forall h :: FindPlayer(s.players, h) < 0 ==> Mailbox(s1.outbox, h) == Mailbox(s.outbox, h))
  {
    var s1 := BroadcastSpec(s, now, fire);
    forall k | 0 <= k < |s.players|
      ensures Mailbox(s1.outbox, s.players[k].handle) == Mailbox(s.outbox, s.players[k].handle) + [Snapshot(s1, s1.players[k], now, fire)]
    {
      BroadcastDeliversTo(s, now, fire, k);
    }
    forall h | FindPlayer(s.players, h) < 0
      ensures Mailbox(s1.outbox, h) == Mailbox(s.outbox, h)
    {
      BroadcastSkips(s, now, fire, h);
    }
  }

  /** Player `k` receives exactly one snapshot of the updated world. */
  lemma BroadcastDeliversTo(s: WorldState, now: real, fire: bool, k: nat)
    requires Consistent(s) && k < |s.players|
    ensures var s1 := BroadcastSpec(s, now, fire);
      |s1.players| == |s.players| && s1.players[k].handle == s.players[k].handle &&
      Mailbox(s1.outbox, s.players[k].handle) == Mailbox(s.outbox, s.players[k].handle) + [Snapshot(s1, s1.players[k], now, fire)]
  {
    var t := Rebased(s.players, now);
    var mid := s.(players := t, missiles := RetireFrom(s.missiles, 0, now));
    var s1 := BroadcastSpec(s, now, fire);
    assert s1 == mid.(outbox := SendAll(s.outbox, t, mid, now, fire));
    assert KeysDistinct(t, HandleOf) by {
      assert forall i :: 0 <= i < |t| ==> HandleOf(t[i]) == HandleOf(s.players[i]);
    }
    SendAllOne(s.outbox, t, mid, now, fire, k);
    assert Snapshot(mid, t[k], now, fire) == Snapshot(s1, t[k], now, fire);
  }

  /** A session outside the table receives nothing. */
  lemma BroadcastSkips(s: WorldState, now: real, fire: bool, h: Handle)
    requires FindPlayer(s.players, h) < 0
    ensures Mailbox(BroadcastSpec(s, now, fire).outbox, h) == Mailbox(s.outbox, h)
  {
    var t := Rebased(s.players, now);
    var mid := s.(players := t, missiles := RetireFrom(s.missiles, 0, now));
    assert BroadcastSpec(s, now, fire).outbox == SendAll(s.outbox, t, mid, now, fire);
    assert forall j :: 0 <= j < |t| ==> t[j].handle == s.players[j].handle != h;
    SendAllOthers(s.outbox, t, mid, now, fire, h);
  }

  /** In the snapshot sent to player `k`, cannon entry `j` describes player
      `j` of the updated table and is flagged exactly when `j == k`. */
  lemma BroadcastCannons(s: WorldState, now: real, fire: bool, k: nat)
    requires Consistent(s) && k < |s.players|
    ensures var s1 := BroadcastSpec(s, now, fire);
      var c := Snapshot(s1, s1.players[k], now, fire).cannons;
      |c| == |s.players| && forall j :: 0 <= j < |c| ==> c[j] == CannonOf(s1.players[j], j == k)
  {
    var s1 := BroadcastSpec(s, now, fire);
    var t := s1.players;
    assert forall i :: 0 <= i < |t| ==> HandleOf(t[i]) == HandleOf(s.players[i]);
    assert KeysDistinct(t, HandleOf);
    CannonsForRecipient(t, k);
  }

  // ---------------------------------------------------------------------
  // Join

  /** Joining keeps the world consistent when the session is new, and leaves scores alone. */
  lemma JoinPreserves(s: WorldState, h: Handle, now: real)
    requires Consistent(s) && FindPlayer(s.players, h) < 0
    ensures Consistent(JoinSpec(s, h, now)) && Scores(JoinSpec(s, h, now)) == Scores(s)
  {
    var p := Joined(h, JoinTeam(s), s.cannonID, now);
    var t := s.players + [p];
    assert t[..|t| - 1] == s.players;
    FreshAppend(s.players, p, CannonIdOf, s.cannonID);
    assert forall i :: 0 <= i < |s.players| ==> HandleOf(s.players[i]) != HandleOf(p);
  }

  /** The joining player: on team 1 exactly when team 0 has more players;
      fuel reads 5 at the join instant; the cannon starts at the middle with
      speed .15 and full life, its motion origin is the (past) fuel origin, and
      its id is the counter, which then advances. */
  lemma JoinInitialises(s: WorldState, h: Handle, now: real)
    ensures var s1 := JoinSpec(s, h, now);
      var p := s1.players[|s1.players| - 1];
      |s1.players| == |s.players| + 1 && s1.players[..|s.players|] == s.players &&
      p.handle == h && (p.team == 1 <==> s.teams.zero.count > s.teams.one.count) && IsTeam(p.team) &&
      PlayerFuel(p, now) == JoinFuel &&
      p.cannonCoordX == JoinCannonCoordX && p.cannonSpeed == JoinCannonSpeed && p.cannonLife == JoinCannonLife &&
      p.cannonStart == p.fuelStart && p.fuelStart < now &&
      p.cannonID == s.cannonID && s1.cannonID == s.cannonID + 1 &&
      TeamAt(s1.teams, p.team).count == TeamAt(s.teams, p.team).count + 1 &&
      TeamAt(s1.teams, 1 - p.team) == TeamAt(s.teams, 1 - p.team)
  {
    var s1 := JoinSpec(s, h, now);
    var p0 := NewPlayer(h).(team := JoinTeam(s));
    var p1 := PlayerFuelSet(p0, now, JoinFuel);
    assert p1.fuelStart == now - NanosPerSecond * JoinFuel / FuelRechargeRate;
    assert s1.players[..|s.players|] == s.players;
  }

  /** Joins keep the team sizes within one of each other, team 0 never behind. */
  lemma JoinBalance(s: WorldState, h: Handle, now: real)
    requires 0 <= s.teams.zero.count - s.teams.one.count <= 1
    ensures 0 <= JoinSpec(s, h, now).teams.zero.count - JoinSpec(s, h, now).teams.one.count <= 1
  {
  }

  /** A run of joins, one per handle, all at `now`. */
  function JoinAll(s: WorldState, hs: seq<Handle>, now: real): WorldState
    decreases |hs|
  {
    if |hs| == 0 then s else JoinAll(JoinSpec(s, hs[0], now), hs[1..], now)
  }

  /** From an empty world, any run of joins leaves 0 <= count0 - count1 <= 1. */
  lemma {:induction false} JoinsBalanced(s: WorldState, hs: seq<Handle>, now: real)
    requires 0 <= s.teams.zero.count - s.teams.one.count <= 1
    ensures 0 <= JoinAll(s, hs, now).teams.zero.count - JoinAll(s, hs, now).teams.one.count <= 1
    decreases |hs|
  {
    if |hs| > 0 {
      JoinBalance(s, hs[0], now);
      JoinsBalanced(JoinSpec(s, hs[0], now), hs[1..], now);
    }
  }

  // ---------------------------------------------------------------------
  // Leave

  /** Leaving keeps the world consistent and leaves scores alone. */
  lemma LeavePreserves(s: WorldState, h: Handle)
    requires Consistent(s)
    ensures Consistent(LeaveSpec(s, h)) && Scores(LeaveSpec(s, h)) == Scores(s)
  {
    var k := FindPlayer(s.players, h);
    if k >= 0 {
      var t := SwapRemove(s.players, k);
      SwapRemoveKeys(s.players, k, HandleOf, 0);
      SwapRemoveKeys(s.players, k, CannonIdOf, s.cannonID);
      CountTeamSwapRemove(s.players, k, 0);
      CountTeamSwapRemove(s.players, k, 1);
      assert forall i :: 0 <= i < |t| ==> t[i] == s.players[if i == k then |s.players| - 1 else i];
    }
  }

  /** A known session's player is removed and no other: the table shrinks by
      one, the handle is gone, the rest is kept as a multiset, and its team
      count drops by one. An unknown session changes nothing. */
  lemma LeaveRemoves(s: WorldState, h: Handle)
    requires Consistent(s)
    ensures var k := FindPlayer(s.players, h);
      var s1 := LeaveSpec(s, h);
      (k < 0 ==> s1 == s) &&
      (k >= 0 ==>
         |s1.players| == |s.players| - 1 && FindPlayer(s1.players, h) < 0 &&
         multiset(s1.players) == multiset(s.players) - multiset{s.players[k]} &&
         TeamAt(s1.teams, s.players[k].team).count == TeamAt(s.teams, s.players[k].team).count - 1)
  {
    var k := FindPlayer(s.players, h);
    if k >= 0 {
      var t := SwapRemove(s.players, k);
      forall i | 0 <= i < |t|
        ensures t[i].handle != h
      {
        var src := if i == k then |s.players| - 1 else i;
        assert t[i] == s.players[src] && src != k;
        assert HandleOf(s.players[src]) != HandleOf(s.players[k]);
      }
    }
  }

  // ---------------------------------------------------------------------
  // Button input

  /** A just-launched missile re-based at its launch instant is unchanged. */
  lemma LaunchedAdvance(q: Player, id: int, now: real)
    ensures Advance(Launched(q, id, now), now) == Launched(q, id, now)
  {
  }

  /** Re-basing a cannon that stands inside the field, at its own origin
      instant, changes nothing. */
  lemma UpdateCannonAtOrigin(p: Player)
    requires 0.0 <= p.cannonCoordX <= 1.0
    ensures UpdateCannon(p, p.cannonStart) == p
  {
    assert Seconds(0.0) == 0.0;
  }

  /** Bricks numbered from the counter keep brick ids distinct and fresh. */
  lemma {:induction false} BrickRunKeys(bs: seq<Brick>, id0: int, n: nat, x: real, team: int)
    requires KeysDistinct(bs, BrickIdOf) && KeysBelow(bs, BrickIdOf, id0)
    ensures KeysDistinct(bs + BrickRun(id0, n, x, team), BrickIdOf) && KeysBelow(bs + BrickRun(id0, n, x, team), BrickIdOf, id0 + n)
    decreases n
  {
    if n > 0 {
      BrickRunKeys(bs, id0, n - 1, x, team);
      assert bs + BrickRun(id0, n, x, team) == (bs + BrickRun(id0, n - 1, x, team)) + [Brick(id0 + n - 1, x, 0.0, team)];
      FreshAppend(bs + BrickRun(id0, n - 1, x, team), Brick(id0 + n - 1, x, 0.0, team), BrickIdOf, id0 + n - 1);
    }
  }

  /** Turn keeps the world consistent. */
  lemma TurnPreserves(s: WorldState, k: nat, now: real)
    requires Consistent(s) && k < |s.players|
    ensures Consistent(TurnSpec(s, k, now)) && Scores(TurnSpec(s, k, now)) == Scores(s)
  {
    var q := UpdateCannon(s.players[k], now);
    var q1 := q.(cannonSpeed := -q.cannonSpeed);
    ReplacePlayer(s, k, q1);
    BroadcastPreserves(s.(players := s.players[k := q1]), now, false);
  }

  /** Brick keeps the world consistent. */
  lemma BrickPreserves(s: WorldState, k: nat, now: real)
    requires Consistent(s) && k < |s.players|
    ensures Consistent(BrickSpec(s, k, now)) && Scores(BrickSpec(s, k, now)) == Scores(s)
  {
    var p := s.players[k];
    if PlayerFuel(p, now) >= BrickCost {
      var c := PlayerFuelConsume(p, now, BrickCost);
      var s1 := s.(players := s.players[k := c]);
      ReplacePlayer(s, k, c);
      var q := UpdateCannon(c, now);
      ReplacePlayer(s1, k, q);
      BrickRunKeys(s.bricks, s.brickID, BrickRows * BrickCols, q.cannonCoordX, q.team);
    }
  }

  /** Fire keeps the world consistent. */
  lemma FirePreserves(s: WorldState, k: nat, now: real)
    requires Consistent(s) && k < |s.players|
    ensures Consistent(FireSpec(s, k, now)) && Scores(FireSpec(s, k, now)) == Scores(s)
  {
    var p := s.players[k];
    if PlayerFuel(p, now) >= FireCost {
      var q := UpdateCannon(PlayerFuelConsume(p, now, FireCost), now);
      ReplacePlayer(s, k, q);
      FreshAppend(s.missiles, Launched(q, s.missileID, now), MissileIdOf, s.missileID);
      BroadcastPreserves(s.(players := s.players[k := q],
                            missiles := s.missiles + [Launched(q, s.missileID, now)],
                            missileID := s.missileID + 1), now, true);
    }
  }

  /** Every button press keeps the world consistent and leaves scores alone. */
  lemma InputPreserves(s: WorldState, h: Handle, button: int, now: real)
    requires Consistent(s) && FindPlayer(s.players, h) >= 0
    ensures Consistent(InputSpec(s, h, button, now)) && Scores(InputSpec(s, h, button, now)) == Scores(s)
  {
    var k := FindPlayer(s.players, h);
    if s.players[k].cannonLife > 0.0 {
      if button == ButtonTurn {
        TurnPreserves(s, k, now);
      } else if button == ButtonBrick {
        BrickPreserves(s, k, now);
      } else if button == ButtonFire {
        FirePreserves(s, k, now);
      }
    }
  }

  /** A press on a destroyed cannon or an unknown button changes nothing; a
      brick or fire press without enough fuel changes nothing either. */
  lemma InputGated(s: WorldState, h: Handle, button: int, now: real)
    requires FindPlayer(s.players, h) >= 0
    ensures var k := FindPlayer(s.players, h);
      var fuel := PlayerFuel(s.players[k], now);
      (s.players[k].cannonLife <= 0.0 ==> InputSpec(s, h, button, now) == s) &&
      (button != ButtonTurn && button != ButtonBrick && button != ButtonFire ==> InputSpec(s, h, button, now) == s) &&
      (fuel < BrickCost ==> BrickSpec(s, k, now) == s) &&
      (fuel < FireCost ==> FireSpec(s, k, now) == s)
  {
  }

  /** Turn costs no fuel, re-bases the cannon to `now`, keeps its speed's
      magnitude and, for a cannon inside the field, reverses the direction
      it was moving in; then every player is sent an update without fire sound. */
  lemma TurnEffect(s: WorldState, k: nat, now: real)
    requires Consistent(s) && k < |s.players|
    ensures var p := s.players[k];
      var s1 := TurnSpec(s, k, now);
      var q := s1.players[k];
      |s1.players| == |s.players| &&
      q.fuelStart == p.fuelStart && q.cannonStart == now && Abs(q.cannonSpeed) == Abs(p.cannonSpeed) &&
      (0.0 <= CannonPosition(p, now) <= 1.0 ==>
         q.cannonCoordX == CannonPosition(p, now) && q.cannonSpeed == -UpdateCannon(p, now).cannonSpeed) &&
      s1.bricks == s.bricks && s1.missileID == s.missileID &&
      Mailbox(s1.outbox, p.handle) == Mailbox(s.outbox, p.handle) + [Snapshot(s1, q, now, false)]
  {
    var p := s.players[k];
    var u := UpdateCannon(p, now);
    var q0 := u.(cannonSpeed := -u.cannonSpeed);
    var s0 := s.(players := s.players[k := q0]);
    var s1 := TurnSpec(s, k, now);
    assert s1 == BroadcastSpec(s0, now, false);
    assert s1.players[k] == UpdateCannon(q0, now) && |s1.players| == |s.players|;
    ReplacePlayer(s, k, q0);
    assert Mailbox(s1.outbox, p.handle) == Mailbox(s.outbox, p.handle) + [Snapshot(s1, s1.players[k], now, false)] by {
      BroadcastDeliversTo(s0, now, false, k);
    }
    assert s1.bricks == s.bricks && s1.missileID == s.missileID by {
      BroadcastPreserves(s0, now, false);
    }
    assert q0.cannonCoordX == CannonPosition(p, now) && q0.cannonStart == now;
    if 0.0 <= CannonPosition(p, now) <= 1.0 {
      UpdateCannonAtOrigin(q0);
    }
  }

  /** Brick with enough fuel consumes exactly 2 units and appends exactly one
      brick, with the fresh id, at the cannon's current position, height 0,
      owned by the player's team; nothing is sent. */
  lemma BrickEffect(s: WorldState, k: nat, now: real)
    requires k < |s.players| && PlayerFuel(s.players[k], now) >= BrickCost
    ensures var p := s.players[k];
      var s1 := BrickSpec(s, k, now);
      s1.bricks == s.bricks + [Brick(s.brickID, CannonPosition(p, now), 0.0, p.team)] &&
      s1.brickID == s.brickID + 1 &&
      PlayerFuel(s1.players[k], now) == PlayerFuel(p, now) - BrickCost &&
      s1.missiles == s.missiles && s1.outbox == s.outbox
  {
    var p := s.players[k];
    assert BrickRun(s.brickID, 1, CannonPosition(p, now), p.team) == [Brick(s.brickID, CannonPosition(p, now), 0.0, p.team)];
  }

  /** Fire with enough fuel consumes exactly 1 unit and launches one missile
      with the fresh id from the cannon's current position, at speed .5, for
      the player's team, starting now; then every player is sent an update
      with fire sound. */
  lemma FireEffect(s: WorldState, k: nat, now: real)
    requires Consistent(s) && k < |s.players| && PlayerFuel(s.players[k], now) >= FireCost
    ensures var p := s.players[k];
      var s1 := FireSpec(s, k, now);
      Missile(s.missileID, CannonPosition(p, now), 0.0, MissileSpeed, p.team, now) in s1.missiles &&
      s1.missileID == s.missileID + 1 &&
      PlayerFuel(s1.players[k], now) == PlayerFuel(p, now) - FireCost &&
      s1.bricks == s.bricks &&
      Mailbox(s1.outbox, p.handle) == Mailbox(s.outbox, p.handle) + [Snapshot(s1, s1.players[k], now, true)]
  {
    var p := s.players[k];
    var q := UpdateCannon(PlayerFuelConsume(p, now, FireCost), now);
    var m := Launched(q, s.missileID, now);
    var ms := s.missiles + [m];
    var s0 := s.(players := s.players[k := q], missiles := ms, missileID := s.missileID + 1);
    var s1 := FireSpec(s, k, now);
    assert s1 == BroadcastSpec(s0, now, true);
    assert m in s1.missiles by {
      LaunchedAdvance(q, s.missileID, now);
      assert ms[|ms| - 1] == m;
      Retired(ms, now);
    }
    assert PlayerFuel(s1.players[k], now) == PlayerFuel(p, now) - FireCost by {
      assert s1.players[k] == UpdateCannon(q, now);
      assert PlayerFuel(s1.players[k], now) == PlayerFuel(q, now);
    }
    assert Mailbox(s1.outbox, p.handle) == Mailbox(s.outbox, p.handle) + [Snapshot(s1, s1.players[k], now, true)] by {
      ReplacePlayer(s, k, q);
      FreshAppend(s.missiles, m, MissileIdOf, s.missileID);
      assert Consistent(s0);
      BroadcastDelivers(s0, now, true);
    }
  }
}
