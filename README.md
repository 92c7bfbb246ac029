# fugo in Dafny

A model of the core of fugo, a small two-team multiplayer shooting game.
An authoritative server (the arena) keeps the world:
- players on two teams, each with a cannon sliding along the bottom edge;
- a fuel gauge per player that recharges over time;
- missiles flying up or down the field;
- bricks.

Players join, leave and press buttons: turn, brick and fire. On every update tick the server advances the world to the current time and sends each player a snapshot. Clients extrapolate positions between snapshots with the same dead-reckoning laws.

The model covers:

- **Motion laws** (`Future`):
  - fuel as a clamped linear recharge;
  - cannon motion with one reflection at the edges of [0, 1];
  - missile motion.
- **Playfield geometry** (`Unit`): the missile bounding box, with its upward and downward branches.
- **Players** (`Players`): the server-side player record, the fuel origin rewrite and the cannon rebase.
- **Collision sweep** (`Collision`): the read-only traversal of missiles against opposing players, with the box intersection as written (always `false`).
- **World** (`ArenaState`, `ArenaFacts`, `Arena`): the server's world.
  - `Arena.World` is a class with one method per event of the service loop: join, leave, button input, update tick and collision tick. It also has the helpers that loop over the world: retirement of missiles with swap-with-last removal, per-recipient snapshots and brick spawning.
  - Each method is proved against a transition function on a `WorldState` value.
  - `ArenaFacts` proves what the transitions promise: team counts, fresh ids, gating on life and fuel, retirement and delivery. It also proves that every event preserves the world's consistency invariant.
- **Client** (`Invader`, `Image`, `Font`):
  - the aspect-ratio view bounds;
  - the button hit-test;
  - the snapshot merge that refuses to move entities back in time;
  - the in-place vertical image flip;
  - the quad and index arrays generated for a line of text, and the atlas glyph string.

Time is kept in nanoseconds as reals; `Future.Seconds` converts to seconds. All other quantities are reals. Pointer identity of a server-side player is modelled by a `handle` number. Each player's channel of outgoing updates is modelled by a mailbox, a sequence in `World.outbox`.

Where descriptions of the game and the code differ, the model follows the code:
- The server's collision sweep is modelled as returning a result, which is always `false`. `arena/collision.go:19` declares no result, but `arena/main.go:215` tests one.
- Missile motion is linear. The library's function body is not part of this model; the law used is the simplest one consistent with its tests (`future/future_test.go:8-11`), which only check values below the top of the field.

## Model

| member | source | states |
|---|---|---|
| Future.Seconds | arena/main.go:306 | a duration in nanoseconds scaled back is the duration; non-negative durations give non-negative seconds |
| Future.Fuel | future/future.go:8-15 | fuel never exceeds 10; it is either the cap or initial + 1/3 per second; below the cap it is exactly initial + elapsed/3 s |
| Future.FuelMonotone | future/future.go:10-14 | for a fixed initial value, more elapsed time never gives less fuel |
| Future.CannonX | future/future.go:18-29 | the speed's magnitude is kept; inside [0,1] position and speed are the unreflected ones; below 0 the result is (−x, −rate), above 1 it is (2−x, −rate); the result lies in [0,1] exactly when the unreflected x lies in [−1,2] |
| Future.CannonXRebase | future/future.go:18-29 | restarting the motion from a position reached without reflection gives the same position and speed as one uninterrupted motion |
| Future.CannonXSingleReflection | future/future.go:20-27 | a single reflection does not bring a far-off position back into [0,1] (concrete values −1.5 and 2.5) |
| Future.MissileY | future/future_test.go:8-11 | the missile moves linearly: displacement = speed × elapsed seconds, never downward for a non-negative speed |
| Future.TestValues | future/future_test.go:8-19 | the library's test values: Fuel(1, 3 s) = 2, CannonX(.1, .5, 1 s) = .6, MissileY(.2, .5, 500 ms) = .45, MissileY(.1, .5, 1 s) = .6 |
| Unit.LerpWithin | unit/unit.go:23 | the linear map t·(b−a)+a sends [0,1] into the interval between a and b |
| Unit.LerpStrict | unit/unit.go:29 | the linear map is strictly increasing towards b when a < b and strictly decreasing when b < a |
| Unit.ProductNonneg | unit/unit.go:23 | helper: a product of non-negative reals is non-negative |
| Unit.ProductPos | unit/unit.go:29 | helper: a product of positive reals is positive |
| Unit.MissileBox | unit/unit.go:20-43 | the box is MissileWidth × MissileHeight; for x in [0,1] it lies horizontally within the field; for y in [0,1] it lies vertically between the cannon row and the field top, upward or downward |
| Unit.MissileBoxEnds | unit/unit.go:21-23 | x = 0 puts the box at gameMinX + CannonWidth/2 − MissileWidth/2; x = 1 at gameMaxX − CannonWidth/2 − MissileWidth/2 |
| Unit.MissileBoxRightward | unit/unit.go:21-23 | the box moves strictly right as x grows, when the field is wider than a cannon |
| Unit.MissileBoxUpEnds | unit/unit.go:25-29 | upward: y = 0 starts just above the cannon, y = 1 ends at the field top |
| Unit.MissileBoxDownEnds | unit/unit.go:30-35 | downward: y = 0 starts one cannon height below the top, y = 1 at the cannon bottom |
| Unit.MissileBoxUpward | unit/unit.go:25-29 | upward missiles rise strictly as y grows |
| Unit.MissileBoxDownward | unit/unit.go:30-35 | downward missiles fall strictly as y grows |
| Players.NewPlayer | arena/main.go:377-380 | a new session's player carries its handle and every game field (fuel origin, cannon start, speed, position, life, cannon id, team) is zero |
| Players.PlayerFuel | arena/main.go:301-303 | a player's fuel is at most 10, and non-negative once its origin is in the past |
| Players.PlayerFuelSet | arena/main.go:305-307 | right after setting fuel f ≤ 10 the player reads f; only the fuel origin changes; a non-negative f puts the origin in the past |
| Players.PlayerFuelConsume | arena/main.go:309-312 | consuming an amount lowers the fuel read at that instant by exactly that amount; only the fuel origin changes |
| Players.UpdateCannon | arena/main.go:266-269 | the cannon is rebased to `now` at its extrapolated position with the signed speed of the reflection law (same magnitude, reversed after a bounce); nothing else changes |
| Players.UpdateCannonKeepsTrajectory | arena/main.go:266-269 | rebasing a cannon that has not reflected leaves its extrapolated position unchanged at every instant |
| Players.CannonOf | arena/main.go:326-334 | a snapshot cannon entry carries the player's cannon id and team and marks the recipient |
| Collision.Intersect | arena/collision.go:15-17 | the intersection test returns false for every pair of boxes |
| Collision.IntersectSymmetric | arena/collision.go:15-17 | the intersection test is symmetric |
| Collision.DetectCollision | arena/collision.go:19-41 | the sweep reports a hit iff some missile intersects an opposing player's cannon box (so never); it probes exactly the missile × player pairs of different teams, skipping same-team pairs before computing a cannon box, and tests the missile's box at `now` against the cannon's box at `now`, both with the missile's team-0 direction flag |
| Collision.SweepMissile | arena/collision.go:26-39 | the inner loop for one missile: its box is computed once, at `now` with the team-0 flag, and tested against the box at `now` of every opposing cannon with the same flag; a hit iff one of them intersects |
| ArenaState.CountAdjusted | arena/main.go:137 | adjusting one team's count changes that count by delta and leaves the other team and both scores alone |
| ArenaState.FreshAppend | arena/main.go:134-136 | appending an entity whose id is the counter keeps ids distinct and below the bumped counter |
| ArenaState.SwapRemove | arena/main.go:271-277 | swap-with-last removal shrinks the list by one, moves the last element into the hole, keeps every other position, and removes exactly one copy of the element as a multiset |
| ArenaState.SwapRemoveKeys | arena/main.go:143-146 | swap-with-last removal keeps ids distinct and below their bound |
| ArenaState.FindPlayer | arena/main.go:140-141 | the search returns the first position holding the handle, or −1 when no entry holds it |
| ArenaState.CountTeamConcat | arena/main.go:128 | a team's head count over a concatenation is the sum of the parts |
| ArenaState.CountTeamSameTeams | arena/main.go:282-284 | tables whose entries have the same teams position by position have the same head counts |
| ArenaState.CountTeamSwapRemove | arena/main.go:143-147 | removing a player lowers its team's head count by one and no other |
| ArenaState.CountTeamTotal | arena/main.go:123-126 | with every player on team 0 or 1 the two head counts add up to the table size |
| ArenaState.Initial | arena/main.go:70-76 | the empty world is consistent, with no players and scores (0, 0) |
| ArenaState.JoinSpec | arena/main.go:122-137 | defines the join: the new player appended, on team 1 iff team 0 has more players, the cannon counter bumped and the team counted |
| ArenaState.LeaveSpec | arena/main.go:138-152 | defines the leave: an unknown session changes nothing, otherwise the first matching player is swap-removed and its team uncounted |
| ArenaState.Rebased | arena/main.go:282-284 | every cannon is rebased to now, in place, table size unchanged |
| ArenaState.Advance | arena/main.go:287-289 | defines one missile's progress re-based to now: y extrapolated, start set to now |
| ArenaState.RetireFrom | arena/main.go:286-294 | defines the retirement loop from position i: advance; at y ≥ 1 swap-remove and re-examine the same slot, otherwise move on |
| ArenaState.Survivors | arena/main.go:286-294 | defines the reference result of retirement: the advanced missiles below the top, in order |
| ArenaState.CannonsFor | arena/main.go:325-336 | a snapshot has one cannon entry per table entry |
| ArenaState.Snapshot | arena/main.go:314-336 | defines the update sent to a player: its fuel, the interval, the world's missiles and bricks, its team, the scores, the fire flag and the cannon entries |
| ArenaState.BroadcastSpec | arena/main.go:279-299 | defines the world update: cannons rebased, missiles retired, then one snapshot of the updated world queued per player in table order |
| ArenaState.BrickRun | arena/main.go:226-237 | the brick loop appends rows × cols bricks |
| ArenaState.SpawnBricksSpec | arena/main.go:222-238 | defines brick spawning: the cannon rebased, rows × cols bricks with consecutive fresh ids at its x, height 0 and its team |
| ArenaState.TurnSpec | arena/main.go:164-170 | defines the turn button: the cannon rebased and its speed negated, then the world update without fire sound |
| ArenaState.BrickSpec | arena/main.go:172-181 | defines the brick button: below 2 fuel nothing, otherwise 2 fuel consumed and bricks spawned |
| ArenaState.FireSpec | arena/main.go:172-207 | defines the fire button: below 1 fuel nothing, otherwise 1 fuel consumed, the cannon rebased, a missile with the fresh id launched, then the world update with fire sound |
| ArenaState.InputSpec | arena/main.go:153-208 | defines button dispatch: a destroyed cannon or an unknown button changes nothing, otherwise turn, brick or fire |
| ArenaFacts.SurvivorsConcat | arena/main.go:286-294 | the survivors of a concatenation are the survivors of the parts |
| ArenaFacts.SurvivorsSingle | arena/main.go:287-293 | a missile survives, advanced to now, iff its advanced y is below 1 |
| ArenaFacts.SurvivorsMembers | arena/main.go:286-294 | the survivors are exactly the advanced missiles whose y is below 1 |
| ArenaFacts.SwapRemoveShape | arena/main.go:271-277 | removal before the end is prefix, then last, then the middle |
| ArenaFacts.RetireRemoveShape | arena/main.go:271-277 | advancing and removing a missile before the end leaves the prefix, then the last missile, then the middle block |
| ArenaFacts.SurvivorsRotate | arena/main.go:286-294 | exchanging two blocks of missiles keeps their survivors, as a multiset |
| ArenaFacts.SurvivorsDropHead | arena/main.go:290-292 | a missile whose advanced y reaches the top adds nothing to the survivors |
| ArenaFacts.RetireRemoveSurvivors | arena/main.go:290-292 | dropping such a missile and moving the last one into its place keeps the survivors of the rest, as a multiset |
| ArenaFacts.LastSplit | arena/main.go:290-292 | helper: the missiles after position i are the middle block followed by the last one |
| ArenaFacts.RetireRemoveStep | arena/main.go:290-292 | removing the advanced missile at i keeps the prefix and the survivors of the rest; the `i--` re-examines the swapped-in missile |
| ArenaFacts.RetireKeepStep | arena/main.go:287-289 | keeping the advanced missile at i adds it to the kept prefix and the survivors |
| ArenaFacts.RetireFromMultiset | arena/main.go:286-294 | the retirement loop from position i leaves the prefix plus the survivors of the rest, as a multiset |
| ArenaFacts.Retired | arena/main.go:286-294 | after the loop the list is a permutation of the survivors: each has y < 1 and start = now, every advanced missile with y < 1 is kept, and nothing else appears |
| ArenaFacts.RetireFromKeys | arena/main.go:286-294 | retirement keeps missile ids distinct and below the counter |
| ArenaFacts.MailboxSend | arena/main.go:340 | a send appends the update to the recipient's mailbox only |
| ArenaFacts.SendAllOthers | arena/main.go:296-298 | the broadcast leaves the mailbox of a handle outside the table untouched |
| ArenaFacts.SendAllOne | arena/main.go:296-298 | with distinct handles, each player receives exactly one snapshot |
| ArenaFacts.CannonsForRecipient | arena/main.go:325-336 | the cannons of a snapshot are the table's cannons in order, with the player flag set exactly for the recipient |
| ArenaFacts.ReplacePlayer | arena/main.go:266-269 | replacing a player by one with the same handle, team and cannon id keeps the world consistent |
| ArenaFacts.BroadcastPreserves | arena/main.go:279-299 | the world update keeps the world consistent and does not touch bricks, teams, scores or id counters |
| ArenaFacts.BroadcastDelivers | arena/main.go:296-298 | every player gets exactly one new snapshot of the updated world; mailboxes of handles not in the table are unchanged |
| ArenaFacts.BroadcastDeliversTo | arena/main.go:296-298 | each player in the table receives exactly the one snapshot built for it |
| ArenaFacts.BroadcastSkips | arena/main.go:296-298 | a handle outside the table keeps its mailbox unchanged |
| ArenaFacts.BroadcastCannons | arena/main.go:325-336 | each snapshot lists one cannon per player, in table order, flagging the recipient only |
| ArenaFacts.JoinPreserves | arena/main.go:122-137 | a join of a new handle keeps the world consistent and the scores unchanged |
| ArenaFacts.JoinInitialises | arena/main.go:122-137 | the joiner is appended on team 1 iff team 0 has more players; fuel reads 5 at the join; cannon at .5, speed .15, life 1; cannon start = fuel start, in the past; fresh cannon id, counter bumped; its team count goes up by one |
| ArenaFacts.JoinBalance | arena/main.go:123-126 | a join keeps 0 ≤ count0 − count1 ≤ 1 |
| ArenaFacts.JoinsBalanced | arena/main.go:123-137 | any sequence of joins from a balanced world stays balanced |
| ArenaFacts.LeavePreserves | arena/main.go:138-152 | a leave keeps the world consistent and the scores unchanged |
| ArenaFacts.LeaveRemoves | arena/main.go:138-152 | an unknown player changes nothing; otherwise the table shrinks by one, the handle is gone, the others are kept as a multiset, and the team count drops by one |
| ArenaFacts.LaunchedAdvance | arena/main.go:195-201 | a missile launched now does not move when advanced to now |
| ArenaFacts.UpdateCannonAtOrigin | arena/main.go:266-269 | rebasing a cannon to its own start time changes nothing |
| ArenaFacts.BrickRunKeys | arena/main.go:226-237 | spawned bricks get fresh, distinct ids below the bumped counter |
| ArenaFacts.TurnPreserves | arena/main.go:164-170 | the turn button keeps the world consistent and the scores unchanged |
| ArenaFacts.BrickPreserves | arena/main.go:175-182 | the brick button keeps the world consistent and the scores unchanged |
| ArenaFacts.FirePreserves | arena/main.go:184-207 | the fire button keeps the world consistent and the scores unchanged |
| ArenaFacts.InputPreserves | arena/main.go:153-208 | every button event keeps the world consistent and the scores unchanged |
| ArenaFacts.InputGated | arena/main.go:160-190 | a destroyed cannon or an unknown button changes nothing; brick with fuel < 2 and fire with fuel < 1 change nothing |
| ArenaFacts.TurnEffect | arena/main.go:164-170 | turn costs no fuel, rebases the cannon to now and negates the rebased speed, adds no brick or missile, and sends the player a snapshot |
| ArenaFacts.BrickEffect | arena/main.go:175-182 | brick consumes exactly 2 fuel and appends one brick with the fresh id at the cannon's x, y 0, the owner's team; no missile and no message |
| ArenaFacts.FireEffect | arena/main.go:188-207 | fire consumes exactly 1 fuel, adds the missile with the fresh id at the cannon's x, y 0, speed .5, the owner's team and start now, and sends a snapshot with the fire sound |
| Arena.World.constructor | arena/main.go:70-76 | a new world is the empty consistent world |
| Arena.World.Join | arena/main.go:122-137 | the join event performs the join transition and keeps the world valid |
| Arena.World.Leave | arena/main.go:138-152 | the leave event's search and swap-with-last removal perform the leave transition and keep the world valid |
| Arena.World.RemovePlayer | arena/main.go:143-147 | the table becomes its swap-with-last removal and the removed player's team count drops by one; nothing else changes |
| Arena.World.RemoveMissile | arena/main.go:271-277 | the missile list becomes its swap-with-last removal; nothing else changes |
| Arena.World.SendUpdatesToPlayer | arena/main.go:314-341 | the player's mailbox receives the snapshot built by the cannon loop; nothing else changes |
| Arena.World.UpdateWorld | arena/main.go:279-299 | the rebase, retire and send loops, in that order, perform the broadcast transition |
| Arena.World.RebaseCannons | arena/main.go:282-284 | every cannon in the table is rebased to now; nothing else changes |
| Arena.World.RetireMissiles | arena/main.go:286-294 | the loop, with `i--` after each removal, leaves the reference retirement of the missile list; nothing else changes |
| Arena.World.SendAllUpdates | arena/main.go:296-298 | every player, in table order, is sent its snapshot of the world as it stands; nothing else changes |
| Arena.World.SpawnBricks | arena/main.go:222-238 | the rebase and the nested brick loops perform the brick-spawning transition |
| Arena.World.Input | arena/main.go:153-208 | a button event performs the input transition and keeps the world valid |
| Arena.World.Turn | arena/main.go:164-170 | the turn button performs the turn transition: rebase, reversed speed, world update |
| Arena.World.BrickButton | arena/main.go:173-181 | the brick button performs the brick transition: nothing below 2 fuel, otherwise 2 fuel consumed and bricks spawned |
| Arena.World.Fire | arena/main.go:173-207 | the fire button performs the fire transition: nothing below 1 fuel, otherwise 1 fuel consumed, the cannon rebased, one missile appended and the world updated with fire sound |
| Arena.World.UpdateTick | arena/main.go:210-213 | an update tick broadcasts without fire sound and keeps the world valid |
| Arena.World.CollisionTick | arena/main.go:214-217 | a collision tick leaves the world unchanged, since the sweep never reports a hit |
| Arena.World.UpdateWorldIf | arena/main.go:215-216 | the world is broadcast exactly when the condition holds |
| Image.Reversed | demo/invader/main.go:199-206 | the reversal has the same length and puts row h−1−i at row i |
| Image.ReversedTwice | demo/invader/main.go:196-207 | flipping twice is the identity |
| Image.ReversedMultiset | demo/invader/main.go:199-206 | a flip keeps each column's multiset of colours |
| Image.FlipY | demo/invader/main.go:196-207 | for bounds at the origin, pixel (x, y) afterwards is the original pixel (x, h−1−y), so each column is reversed and an odd middle row stays put |
| Image.FlipColumn | demo/invader/main.go:199-206 | a column mirrored point-wise is the reversed column, with the same colours, and reversing it gives back the original |
| Image.FlipYAsWritten | demo/invader/main.go:196-207 | the loop as written, for bounds starting at row minY, takes each pixel from the source row that AsWrittenSource computes |
| Image.FlipColumnAsWritten | demo/invader/main.go:199-206 | the inner loop as written swaps the rows of one column that AsWrittenSource names and leaves its other rows and every other column unchanged |
| Image.AsWrittenAtOrigin | demo/invader/main.go:198-201 | at the origin the as-written source row is the mirrored row |
| Image.AsWrittenMisflips | demo/invader/main.go:198-201 | for 4 rows starting at row 1 the top row receives the third row instead of the bottom one, and two rows are left unflipped |
| Invader.Trunc | demo/invader/main.go:438 | float-to-int conversion truncates toward zero, for both signs |
| Invader.ViewBounds | demo/invader/main.go:404-416 | the ranges are symmetric about 0; a tall window spans x in [−1,1] and y over ±h/w; a wide one spans y in [−1,1] and x over ±w/h; the ranges keep the window's aspect ratio |
| Invader.ScreenY | demo/invader/main.go:432 | pixel row 0 maps to maxY and the last row to minY |
| Invader.ScreenYDecreasing | demo/invader/main.go:432 | lower pixel rows map to strictly lower game y |
| Invader.ButtonAt | demo/invader/main.go:436-438 | defines the button id under the pointer: the x pixel divided by one fifth of the width, truncated toward zero |
| Invader.ButtonAtBand | demo/invader/main.go:436-438 | a pointer in the b-th fifth of the window presses button b |
| Invader.ButtonAtRange | demo/invader/main.go:436-438 | any pointer inside the window presses one of the five buttons |
| Invader.QuotientTimes | demo/invader/main.go:404-416 | helper: dividing by a positive real and multiplying back gives the number; quotients of larger numbers exceed 1 |
| Invader.ScaleOrder | demo/invader/main.go:436-438 | helper: scaling by a positive real keeps order, both ways |
| Invader.QuotientBounds | demo/invader/main.go:436-438 | helper: a number between two multiples of a positive unit has its quotient between the factors |
| Invader.BuildMap | demo/invader/main.go:316-329 | the merge loop builds the merged table |
| Invader.Merged | demo/invader/main.go:316-353 | defines the merged table: the entities in snapshot order, each stored under its id, the old record kept when the keep rule says so |
| Invader.MissileKeep | demo/invader/main.go:318-326 | defines the missile keep rule: known, and the snapshot would put it lower than the old record |
| Invader.CannonKeep | demo/invader/main.go:340-349 | defines the cannon keep rule: known, same speed, and the snapshot would put it behind in its direction of travel |
| Invader.MissilesMerged | demo/invader/main.go:316-330 | defines the missile table after a snapshot: merged with the missile keep rule |
| Invader.BricksMerged | demo/invader/main.go:332-336 | defines the brick table after a snapshot: merged with no keep rule |
| Invader.CannonsMerged | demo/invader/main.go:338-354 | defines the cannon table after a snapshot: merged with the cannon keep rule |
| Invader.MergedKeys | demo/invader/main.go:316-330 | the merged table's keys are exactly the ids in the snapshot; absent ids are dropped |
| Invader.MergedLast | demo/invader/main.go:317-329 | an id's entry is the record chosen for its last occurrence in the snapshot |
| Invader.MergedSource | demo/invader/main.go:317-329 | every entry is the record chosen for some snapshot entity with that id |
| Invader.MissilesNeverBack | demo/invader/main.go:318-328 | a missile known before and after the merge is never predicted lower than its old record |
| Invader.CannonsNeverBack | demo/invader/main.go:338-353 | a cannon known before and after the merge with an unchanged speed is never behind its old record in its direction of travel |
| Invader.BricksReplaced | demo/invader/main.go:332-336 | every brick entry comes from the snapshot, keyed by its id |
| Invader.GameState.constructor | demo/invader/main.go:126-191 | a new client has view bounds [−1, 1] × [−1, 1], no fuel, team 0, has sent nothing, knows no entities and assumes a 2 s update period |
| Invader.GameState.Resize | demo/invader/main.go:397-416 | the window size is stored and the bounds become the aspect-ratio view bounds; sent buttons, entities, fuel, team and update timing are unchanged |
| Invader.GameState.ButtonEdge | demo/invader/main.go:623-626 | five button edges span the screen width |
| Invader.GameState.Input | demo/invader/main.go:428-441 | a press whose game y lies below minY + buttonEdge sends exactly the button under the pointer; any other event sends nothing; the view, entities, fuel, team and update timing are unchanged |
| Invader.GameState.OnUpdate | demo/invader/main.go:307-354 | the team, fuel, interval and receive time are taken from the snapshot; missiles and cannons are merged with their never-back rules; bricks are replaced; window size, view bounds and sent buttons are unchanged |
| Invader.MergeSnapshot | demo/invader/main.go:316-354 | the three merge loops give the merged missile, brick and cannon tables |
| Font.RuneLen | demo/invader/font.go:39 | a character's UTF-8 width is 1 to 4 bytes, and 1 exactly for ASCII |
| Font.ByteLen | demo/invader/font.go:39 | a string has at least as many bytes as characters |
| Font.ByteLenAscii | demo/invader/font.go:39 | for ASCII text byte offsets equal character positions |
| Font.U32 | demo/invader/font.go:58 | unsigned 32-bit wrap-around is the identity on in-range values |
| Font.Quad | demo/invader/font.go:41-56 | defines the 20 floats of the quad at a byte offset: four (x, y, z, s, t) vertices over the unit cell and the character's atlas cell |
| Font.QuadIndices | demo/invader/font.go:58-63 | defines the six 32-bit indices of the quad at a byte offset, with wrap-around |
| Font.VerticesOf | demo/invader/font.go:36-56 | defines the vertex array of a text: the quads of its characters at their byte offsets, in order |
| Font.IndicesOf | demo/invader/font.go:37-63 | defines the index array of a text: the index sextets of its characters at their byte offsets, in order |
| Font.WriteSizes | demo/invader/font.go:36-66 | the text yields 20 floats and 6 indices per character |
| Font.VerticesAt | demo/invader/font.go:39-56 | for ASCII text character k owns floats [20k, 20k+20), holding its quad |
| Font.VerticesPrefix | demo/invader/font.go:39-56 | the vertex array of a prefix of the text is a prefix of the text's vertex array |
| Font.VerticesLast | demo/invader/font.go:39-56 | for ASCII text the last character's quad closes the vertex array |
| Font.GlyphCell | demo/invader/font.go:41-56 | for ASCII text character k is drawn over x in [k, k+1], y in [0,1], z = 0 |
| Font.QuadCell | demo/invader/font.go:41-56 | the quad at offset i is the unit square [i, i+1] × [0, 1] at z = 0 |
| Font.TexRange | demo/invader/font.go:44-47 | an atlas character gets a texture s-range of width 1/95 inside [0, 1] |
| Font.IndicesAt | demo/invader/font.go:58-63 | for ASCII text character k owns indices 4k, 4k+1, 4k+2, 4k+2, 4k+3, 4k |
| Font.IndicesLast | demo/invader/font.go:58-63 | the last character's indices, as above |
| Font.LastQuadIndices | demo/invader/font.go:58-63 | the last character's six indices are those of the quad at its byte offset |
| Font.QuadIndicesNoWrap | demo/invader/font.go:58-63 | away from the 32-bit limit a quad's indices do not wrap |
| Font.IndicesInRange | demo/invader/font.go:58-63 | for ASCII text every index names one of the 4·len vertices written |
| Font.IndexAt | demo/invader/font.go:58-63 | for ASCII text each of character k's six indices lies in [4k, 4k+3] |
| Font.SplitSix | demo/invader/font.go:58-63 | helper: a position among 6n indices splits into character k < n and slot t < 6 |
| Font.PrefixSlice | demo/invader/font.go:39-56 | helper: a window inside a prefix is the same window of the whole sequence |
| Font.NonAsciiOverrun | demo/invader/font.go:39-58 | with a two-byte character the byte offset makes an index overrun the vertices written |
| Font.FontAtlas.constructor | demo/invader/font.go:22-30 | a new text object holds no vertices and no indices |
| Font.FontAtlas.Write | demo/invader/font.go:32-76 | the write loop leaves the text's vertex and index arrays in the buffers, and the draw count equals the number of indices, 6 per character |
| Font.GlyphString | demo/invader/font.go:110-125 | the atlas glyph string is the 95 characters 32..126, in ascending order |

## Left out

- Networking and concurrency: the TCP listener, session handlers, LAN discovery, gob encoding and the channel `select`. Each `select` case is a separate method of `Arena.World`. A send on a player's channel appends to that player's mailbox.
- Clocks: every `time.Now()` and `time.Since(...)` is a `now` parameter. One `now` is used throughout an event, where the server reads the clock several times.
- Float32 rounding and the truncation of durations to whole nanoseconds: all arithmetic is on reals.
- Loading image sizes from asset files: the box sizes are constants.
- Logging.
- Pointer aliasing: snapshots carry copies of the missile and brick lists, while the server shares the pointers.
- Arena.World.Input: requires the pressing player to be in the table. The server would still act on the player record of a session whose leave was already processed; that input is not modelled.
- Collision.DetectCollision: the cannon box function is not part of this model. It is a parameter of the sweep.
- Future.MissileY: the body is not part of this model. The linear law is consistent with its tests, which check only values below 1; a clamp at 1 is not modelled, so any behaviour of the library above the top of the field is not captured. The retirement test `>= 1` gives the same result either way.
- Invader.GameState.Resize: requires a non-empty window. A zero size gives float infinities.
- Invader.GameState.Input: requires a window at least 2 pixels high and 1 wide, for the same reason.
- Invader.GameState.OnUpdate: the elapsed time since receipt is a parameter (the client measures it right after storing the receipt time). Text formatting of fuel and scores and the laser sound are not modelled.
- Image.FlipYAsWritten: only bounds starting at a non-negative row, with columns indexed from 0, are modelled.
- Font.FontAtlas.Write: the text is a sequence of decoded code points. Invalid UTF-8 is not modelled. The GL buffer upload and the byte encoding of the arrays are represented by the stored arrays.
- The GL, audio, asset and app-lifecycle parts of the client: painting, textures, shaders, `draw`, `delete` and pixfont rendering.
- Missing message constants: the button ids for fire, turn and brick are fixed at 0, 1 and 2.
- Missing library constants: the fuel recharge rate is 1/3 per second.
- Team scores: no code path writes a score. The model keeps them, and every event is proved to leave them unchanged.

## Findings

| source | as written | input that shows it | evidently intended | confidence | as-written member | corrected member |
|---|---|---|---|---|---|---|
| demo/invader/main.go:198-200 | the half height is computed relative to the bounds, but the row loop starts at the absolute row `Min.Y`, so images whose bounds do not start at row 0 are flipped only partly, or not at all | an image 4 rows high whose bounds start at row 1: top row 0 receives row 2 instead of row 3, and rows 1 and 3 stay put | each row y receives row h−1−y of its column | not executed | Image.FlipYAsWritten, Image.AsWrittenMisflips | Image.FlipY |
