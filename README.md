# Koukaton Survivor, modelled in Dafny

This project models the game rules of the two snapshots of the pygame survival game:
- `koukaton_survivor.py`, the later snapshot: homing beams, clowns, power-ups, gravity items and a boss;
- `kokaton_survivor.py`, the earlier snapshot: gravity fields bought with score, a five-beam fan, a skill screen after every kill.

The player (the "bird") moves with the arrow keys. Enemies spawn on a ring outside the screen. Beams, companions (a durian and a soccer ball, chosen at a skill screen) and screen-wide gravity fields kill enemies for points. In the later snapshot a boss appears at 1000 points.

One pass of each `while True` loop of `main` is one call to a `Tick` method:
- `Game.GameState.Tick` for the later snapshot;
- `EarlyGame.EarlyState.Tick` for the earlier one.

Each `Tick` runs the loop body in the source's order, with one exception in the later snapshot. `Game.GameState.UpdateAndMove` runs `AnimateSprites` (koukaton_survivor.py:857-861) before `MovePhase` (koukaton_survivor.py:850-855 and 866-867). The two change disjoint state, so the result is the same as in the source's order.

The loop body is split into methods in layers:
- A leaf method does one step of the body. Each is proved against a specification function or a closed form.
- A composite method only calls other methods. Most composites pass their callees' exact effect up. Some, mostly the upper layers, state fewer facts: the ones their callers need, and the frame's stops. "## Left out" has a line for each of these, naming the methods that state the rest.
- `Game.GameState.Play` states the whole frame up to the skill pause through the two-state predicate `Played`. It covers auto-fire, the ramp, the spawns, the contact test and the beams against the enemies. A paused frame has done all of these before it stops, as at koukaton_survivor.py:743-752.
- `EarlyGame.EarlyState.Round` states the same for the earlier snapshot's ramp and spawn.

The classes whose `update` changes their own fields are Dafny classes:
- `Bird`, `Gravity`, `Explosion`, `Durian`, `Soccerball`, `Boss`, `Appearance`.

Their step rules are also written as functions on values, and the properties are proved about those functions. Examples:
- a durian never leaves its arena;
- a sprite with lifetime `n` survives exactly `n` updates;
- the boss explodes at most once;
- the boss appears exactly once;
- each run of collisions partitions its targets.

Modules, one per file:
- `Geometry`: integer rectangles, `check_bound`, pygame's `colliderect`, and the corner test that removes beams.
- `Player`: the key table, the eight facings, and `Bird.update` in both versions.
- `Sprites`: `Gravity`, `Explosion`, `Durian`, `Soccerball`.
- `Fan`: `NeoBeam.gen_beams`.
- `Targeting`: `Beam._find_nearest_enemy`.
- `Spawn`: the spawn schedules and the clown's corner snapping.
- `Scoring`: the counters of the later loop as values.
- `BossRules`: `Boss` and `Appearance`.
- `Collide`: `spritecollide` and `groupcollide`.
- `Game`: the later `main`.
- `EarlyGame`: the earlier `main`.
- `Wrappers`: `Option`.

Some behaviours are modelled as the code is written, because they are what the game does:
- A durian or soccer ball that kills a clown places its explosion at `cemy`, a variable that loop does not bind (koukaton_survivor.py:758-760 and 770-772). The explosion goes to the clown the last beam or gravity loop left bound. If no clown was ever bound, the program stops with an error: the `Crashed` outcome, reached only when `lastClown` is `None`.
- The embedded-ball correction at koukaton_survivor.py:837-839 asks for a centre strictly below and strictly above the boss's top edge. It never runs (`Sprites.EmbeddedTestNeverHolds`).
- The later ramp adds 100 to `enemies_per_spawn`, which nothing reads (koukaton_survivor.py:696).
- `gen_beams` with one beam gives it the offset -50, not 0 (koukaton_survivor.py:309-313).
- In the earlier snapshot the test `score % 1 == 0` always passes, so every beam kill opens the skill screen. No bomb is ever created there, because the spawn is commented out, so every bomb rule has no effect; `EarlyGame.EarlyState.Tick` proves the bomb group stays empty.

## Model

| member | source | states |
|---|---|---|
| Geometry.CheckBoundSpans | koukaton_survivor.py:16-27 | the horizontal flag of `check_bound` is true exactly when every column the rectangle spans, edges included, is on screen; likewise vertically |
| Geometry.CheckBoundAxesIndependent | koukaton_survivor.py:22-27 | each flag of `check_bound` depends only on its own axis |
| Geometry.CheckBoundInsideScreen | koukaton_survivor.py:16-27 | both flags hold exactly when the rectangle lies inside the screen rectangle |
| Geometry.OverlapsIffSharedPoint | koukaton_survivor.py:815 | `colliderect` holds exactly when some pixel lies inside both rectangles |
| Geometry.OverlapsSymmetric | koukaton_survivor.py:815 | the overlap test is symmetric |
| Geometry.BeamGoneOnlyInCorners | koukaton_survivor.py:248-249 | a homing beam is removed exactly when its centre is at or past a vertical edge and at or past a horizontal edge, so only in the four corner regions |
| Geometry.BeamBelowScreenSurvives | koukaton_survivor.py:282-283 | a boss beam far below the screen but horizontally centred is never removed |
| Player.KeyVectorComponents | koukaton_survivor.py:144-148 | the summed key vector is (right minus left, down minus up), whatever the table's order |
| Player.KeyVectorFacing | koukaton_survivor.py:152-154 | a non-zero summed vector is one of the eight directions that have an image, so the image lookup never fails |
| Player.OppositeKeysCancel | koukaton_survivor.py:144-148 | pressing both keys of an axis cancels that axis |
| Player.AnyPressedDelta | kokaton_survivor.py:123-130 | the speed is set in the key loop exactly when some movement key is pressed |
| Player.Bird.constructor | koukaton_survivor.py:97-125 | the bird starts centred on the given point, facing right, at speed 10, with no skill choice pending |
| Player.Bird.Update | koukaton_survivor.py:138-155 | the bird moves by speed times the key vector; the move is undone when it leaves the screen; the bird faces the vector when it is non-zero; a bird on screen stays on screen |
| Player.Bird.UpdateWithShift | kokaton_survivor.py:116-139 | as `Update`, but with the speed first set to 20 with left shift and 10 without, whenever a movement key is pressed |
| Sprites.AliveAfterExactly | koukaton_survivor.py:61-67 | a sprite with lifetime `n` survives exactly `n` updates |
| Sprites.ImageIndexAlternates | koukaton_survivor.py:339-342 | the explosion's image index is always 0 or 1, including for the final negative lifetime, and it alternates every ten updates |
| Sprites.Gravity.constructor | koukaton_survivor.py:48-58 | a gravity field starts with the given lifetime |
| Sprites.Gravity.Update | koukaton_survivor.py:61-67 | the field counts down and dies exactly when its lifetime goes negative |
| Sprites.Explosion.constructor | koukaton_survivor.py:325-331 | an explosion starts at the object's centre with the given lifetime and the first image |
| Sprites.Explosion.Update | koukaton_survivor.py:334-342 | the explosion counts down, shows image `life // 10 % 2` (a valid index) and dies below zero |
| Sprites.DurianStaysInArena | koukaton_survivor.py:363-373 | the durian's arena invariant (unit direction signs, at most one step past a wall and then heading back) holds after every update |
| Sprites.DurianStartsBounded | koukaton_survivor.py:352-360 | a durian launched inside the screen, moving down-right, satisfies the arena invariant |
| Sprites.DurianStuckInCorner | koukaton_survivor.py:363-373 | the position is never clamped: a durian more than a step past a corner flips on every update and shakes there |
| Sprites.Durian.constructor | koukaton_survivor.py:352-360 | a durian starts at the player's centre, moving down-right, not yet having damaged the boss |
| Sprites.Durian.Update | koukaton_survivor.py:363-373 | the durian's new position and direction are `DurianStep` of the old ones |
| Sprites.EnemyHitTests | koukaton_survivor.py:401-405 | for an enemy the ball overlaps, the horizontal test always passes and the vertical test never does |
| Sprites.EmbeddedTestNeverHolds | koukaton_survivor.py:837-838 | no ball and boss ever pass the embedded-ball test |
| Sprites.BossBounceSpec | koukaton_survivor.py:826-835 | the boss bounce never moves the ball; a ball clear of the boss keeps its direction; a touching one reverses exactly one component, the horizontal one exactly when the centres are further apart horizontally |
| Sprites.Soccerball.constructor | koukaton_survivor.py:382-389 | a ball starts at the player's centre, moving down-right |
| Sprites.Soccerball.Update | koukaton_survivor.py:392-405 | the ball takes the wall step; then `vx` is reversed once per enemy the moved ball overlaps, and `vy` is unchanged by the enemies |
| Sprites.Soccerball.BounceOffBoss | koukaton_survivor.py:825-838 | `hit` tells whether the ball touches the boss, and the new direction is `BossBounce` of the old |
| Fan.GenBeams | koukaton_survivor.py:300-317 | the angles are `FanAngles(base, num)`: `num` of them, the `i`-th at base plus `-50 + i * 100 / (num - 1)`; for more than one beam the first is at -50 and the last at +50; a single beam gets -50 |
| Fan.FanEndpoints | koukaton_survivor.py:308-313 | for more than one beam the offsets run from -50 to +50 |
| Fan.FanEvenlySpaced | koukaton_survivor.py:309-313 | neighbouring offsets differ by the same step, and the steps fill the 100 degree arc |
| Fan.FanWithinArc | koukaton_survivor.py:309-313 | every offset lies in [-50, 50] |
| Fan.ThreeBeamFan | koukaton_survivor.py:715-716 | the boss's fan of three is at -50, 0 and +50 |
| Fan.FiveBeamFan | kokaton_survivor.py:220-233 | the player's fan of five is at -50, -25, 0, 25 and 50 |
| Targeting.FindNearestEnemy | koukaton_survivor.py:193-212 | the result is none exactly when both groups are empty, and otherwise the first of the enemies nearest the player in `emys + cemys` |
| Targeting.FirstNearestUnique | koukaton_survivor.py:201-212 | exactly one enemy is the first nearest |
| Targeting.TiesGoToOrdinaryEnemies | koukaton_survivor.py:205-210 | an ordinary enemy as near as every clown is chosen over all clowns |
| Spawn.ScheduleNesting | koukaton_survivor.py:700-716 | every clown frame is an enemy frame; every gravity-item frame is an item frame; before the boss every item frame brings a clown; after it the item frames are exactly the fan frames |
| Spawn.ClownCorner | koukaton_survivor.py:474-485 | a clown is snapped to the off-screen corner on its side of the screen's centre |
| Spawn.ClownStartsOffScreen | koukaton_survivor.py:465-485 | a clown at a snapped corner fails `check_bound` on both axes, and a clown at most 100 pixels wide and high does not touch the screen |
| Scoring.LevelMonotone | koukaton_survivor.py:739-741 | a higher score never has a lower level |
| Scoring.BeamKillsClosedForm | koukaton_survivor.py:734-741 | after `k` beam kills the score grows by `10k`; `level_save` is the larger of the old value and the new level; a skill choice is pending exactly when one was before or the level passed `level_save` |
| Scoring.BeamKillsKeepLevel | koukaton_survivor.py:739-741 | `level_save` never decreases and never passes the score's level |
| Scoring.PickupsClosedForm | koukaton_survivor.py:790-798 | after `k` power-ups: `k` more items, `beam_span` up by one per two items counted, `xbeam` up by `0.2k`, the score up by `10k` |
| Scoring.PickupsKeepSpan | koukaton_survivor.py:795-797 | `beam_span` stays between 0 and half the item count |
| Scoring.AutofireInterval | koukaton_survivor.py:684-689 | the clamped span is at most 29; from a reset timer, the next beam fires exactly on the `(30 - span)`-th frame |
| BossRules.BossDescent | koukaton_survivor.py:551-555 | while descending the boss moves down one pixel per update and stops with its top exactly on line 150; then it never moves again |
| BossRules.BossHealthRule | koukaton_survivor.py:561-571 | after an update the health is never negative and never 1; the boss is defeated exactly when it already was or its health was at most 1; the explosion comes exactly on the update that first defeats it |
| BossRules.BossStartPlaced | koukaton_survivor.py:537-546 | a new boss is placed above its rest line |
| BossRules.BossStepPlaced | koukaton_survivor.py:549-555 | updates keep the boss placed, whatever its health |
| BossRules.BossArrivalTime | koukaton_survivor.py:551-555 | a boss `d` pixels above the rest line reaches it in exactly `d` updates |
| BossRules.BossExplodesOnce | koukaton_survivor.py:561-571 | whatever the damage, a run of updates yields at most one explosion, exactly when it defeats an undefeated boss; a defeat is never undone |
| BossRules.DefeatedWhileAppearing | koukaton_survivor.py:549-566 | every descending boss with at most 1 health is defeated by its update, and is still descending afterwards when its top is more than a pixel above the rest line |
| BossRules.Boss.constructor | koukaton_survivor.py:537-546 | the boss starts centred on the top edge's midpoint, with 300 health, descending |
| BossRules.Boss.Update | koukaton_survivor.py:549-587 | the fields follow `BossStep`; on the defeating update a new explosion of lifetime 100 at the boss's centre is returned; the game ends on a later update once five seconds have passed |
| BossRules.Boss.Hit | koukaton_survivor.py:816 | `health -= n` |
| BossRules.AppearStepSpec | koukaton_survivor.py:602-626 | one step keeps the controller's invariant; the enemies are purged exactly on the step that brings the boss in, which is exactly when the score first reaches 1000; the boss is never replaced; the game ends only through a boss already defeated |
| BossRules.AppearsOnce | koukaton_survivor.py:604-613 | over any run the boss appears at most once, and exactly once from the start when some frame's score reaches 1000 |
| BossRules.Appearance.constructor | koukaton_survivor.py:592-599 | no boss has appeared, the flash counter is 0, and nothing is visible |
| BossRules.Appearance.Update | koukaton_survivor.py:602-626 | the controller's new fields, the purge and the exit are those of `AppearStep`; an existing boss object is kept, and a new one is new |
| Collide.Touching | koukaton_survivor.py:790 | the members a rectangle overlaps, in group order: exactly those of the group it overlaps |
| Collide.Untouched | koukaton_survivor.py:790 | the members left by `spritecollide(..., True)`: exactly those it does not overlap |
| Collide.TouchingSplit | koukaton_survivor.py:790 | splitting a group by one rectangle loses and invents nothing |
| Collide.ConsumeCounts | koukaton_survivor.py:734 | `groupcollide(targets, beams, True, True)` splits the targets into survivors and killed; each kill uses up at least one beam; beams are only removed |
| Collide.ConsumeSeparates | koukaton_survivor.py:734 | no surviving target overlaps a beam that is left |
| Collide.ConsumeSound | koukaton_survivor.py:734 | `groupcollide(targets, beams, True, True)` partitions the targets; it spends at least one beam per kill; no survivor touches a beam that is left; every beam no target touches is kept |
| Collide.ConsumeKeepsUntouched | koukaton_survivor.py:734 | a beam that no target overlaps is never used up |
| Collide.ConsumeShrinks | koukaton_survivor.py:734 | there are never more survivors than targets |
| Collide.ConsumeKillsOnContact | koukaton_survivor.py:734 | every killed target overlapped one of the original beams |
| Collide.StrikePartition | koukaton_survivor.py:754 | `groupcollide(targets, hazards, True, False)` splits the targets into spared and struck, losing and inventing none |
| Collide.StrikeSeparates | koukaton_survivor.py:754 | no spared target overlaps a hazard, and every struck one overlaps one |
| Collide.StrikeNothing | koukaton_survivor.py:754 | without hazards nothing dies |
| Game.EventsChooseOnce | koukaton_survivor.py:663-681 | a companion is chosen exactly when a choice was pending and a skill key comes before any quit; the first such key decides; the choice is then no longer pending; the window closes exactly on a quit |
| Game.QuitSticks | koukaton_survivor.py:664-665 | after a quit, later events change nothing |
| Game.Advance | koukaton_survivor.py:246-249 | after a beam group's update, no remaining beam passes the corner test, there are no more beams than before, and every survivor is one of the beams moved by its own displacement |
| Game.AdvanceKeepsInnerBeams | koukaton_survivor.py:246-249 | a beam whose moved centre is strictly inside the screen on either axis survives |
| Geometry.Shift | koukaton_survivor.py:430-432 | every enemy moves by its displacement; none is added or removed |
| Game.LastBound | koukaton_survivor.py:774-780 | the loop variable is bound to the last clown the loop visited, or keeps its old binding when it visited none |
| Game.SurvivorsMembers | koukaton_survivor.py:857-860 | the survivors of a countdown are sprites of the group, and every sprite whose lifetime stays non-negative survives |
| Game.SurvivorsDistinct | koukaton_survivor.py:857-860 | the survivors of a group of distinct sprites are distinct |
| Game.CountDownExplosions | koukaton_survivor.py:857 | every explosion counts down and shows the image for its new lifetime; the survivors are kept in order |
| Game.CountDownGravities | koukaton_survivor.py:859 | every gravity field counts down; the survivors are kept in order |
| Game.GameState.constructor | koukaton_survivor.py:630-659 | the state `main` sets up before its loop |
| Game.GameState.AddDurian | koukaton_survivor.py:676-678 | key 1 appends one new durian at the player and ends the choice |
| Game.GameState.AddBall | koukaton_survivor.py:679-681 | key 2 appends one new ball at the player and ends the choice |
| Game.GameState.ChooseSkill | koukaton_survivor.py:674-681 | one event has the effect `EventStep` gives it on the groups and the pending flag |
| Game.GameState.HandleEvents | koukaton_survivor.py:663-681 | the window closes exactly when a quit event came; the pending flag and the added companion are those of `Events`; the groups grow only by new companions launched from the player |
| Game.GameState.FireTimer | koukaton_survivor.py:684-689 | the timer and the clamped span follow `Autofire`; when it fires, exactly one beam centred on the player is appended |
| Game.GameState.Ramp | koukaton_survivor.py:693-698 | every five seconds before the boss: two more spawn directions, 100 more enemies per spawn, and the ramp time saved; otherwise the three counters are unchanged (`RampStep`) |
| Game.GameState.SpawnEnemies | koukaton_survivor.py:700-704 | an enemy at the given position every 20 frames and a corner-snapped clown every 100 frames, both only before the boss, each appended to its group |
| Game.GameState.SpawnItems | koukaton_survivor.py:706-712 | a power-up every 100 frames and a gravity item every 1000, neither on frame 0, each appended at its given position |
| Game.GameState.BossFan | koukaton_survivor.py:714-716 | once the boss is in, every 100 frames exactly three boss beams are appended at the boss's centre; the `i`-th has the rotated size for the heading base plus -50, 0 or +50 degrees |
| Game.GameState.AddExplosion | koukaton_survivor.py:735 | one new explosion of lifetime 100 at the given centre is appended |
| Game.GameState.BeamKillScore | koukaton_survivor.py:736-741 | the counters take one `BeamKill` step |
| Game.GameState.RecordBeamKills | koukaton_survivor.py:734-741 | the counters take `k` `BeamKill` steps, and one new explosion is appended per centre, in order |
| Game.GameState.RecordKills | koukaton_survivor.py:754-756 | `points` per kill, and one new explosion per centre, in order |
| Game.GameState.BallsBounce | koukaton_survivor.py:762-763 | every ball takes the `Soccerball.update` step against the group |
| Game.GameState.PickItems | koukaton_survivor.py:790-798 | the item counters follow `Pickups` |
| Game.GameState.PickGravityItems | koukaton_survivor.py:800-804 | one new 80-frame field per gravity item, and 20 boss health per item once the boss is in |
| Game.GameState.BeamsHitEnemies | koukaton_survivor.py:734-741 | enemies and beams are what `Consume` leaves; the counters follow `BeamKills`; explosions are at the killed enemies' centres |
| Game.GameState.BeamsHitClowns | koukaton_survivor.py:774-780 | as `BeamsHitEnemies` for clowns, and the loop variable is bound to the last clown killed |
| Game.GameState.ConsumeClowns | koukaton_survivor.py:774-776 | clowns and beams are what `Consume` leaves, the killed clowns are returned, and the loop variable is bound to the last one killed |
| Game.GameState.StrikeEnemies | koukaton_survivor.py:754-756 | the enemies left are the spared ones; `points` and an explosion for each struck enemy |
| Game.GameState.StrikeClowns | koukaton_survivor.py:786-788 | as `StrikeEnemies` for clowns in a gravity field, binding the loop variable to the last one struck |
| Game.GameState.StrikeClownsStale | koukaton_survivor.py:758-760 | the clowns left are the spared ones; the frame crashes exactly when a clown is struck and no clown was ever bound; otherwise each kill scores 5 with its explosion at the stale clown |
| Game.GameState.BeamsHitBoss | koukaton_survivor.py:814-817 | every beam touching the boss is removed and takes one health point |
| Game.GameState.DuriansHitBoss | koukaton_survivor.py:818-824 | a durian takes one health point only on the first frame of a contact, and its flag records whether it touches the boss |
| Game.GameState.BallsHitBoss | koukaton_survivor.py:825-839 | every touching ball bounces off the boss and takes one health point |
| Game.BallsBounceOffBoss | koukaton_survivor.py:825-839 | every ball bounces off the boss as `BossBounce` says, and the boss loses one health point per touching ball |
| Game.GameState.CompanionsHitBoss | koukaton_survivor.py:818-839 | the boss loses one health point per fresh durian contact and per touching ball; each durian's flag records whether it touches the boss; every ball bounces off the boss as `BossBounce` says |
| Game.GameState.BossUpdate | koukaton_survivor.py:843-845 | the boss takes `BossStep`; its explosion joins the group; the game ends once it was already defeated and five seconds have passed |
| Game.GameState.UpdateExplosions | koukaton_survivor.py:857 | explosions count down and the group keeps the survivors |
| Game.GameState.UpdateGravities | koukaton_survivor.py:859 | fields count down and the group keeps the survivors |
| Game.GameState.UpdateDurians | koukaton_survivor.py:861 | every durian takes `DurianStep` |
| Game.GameState.FadeSprites | koukaton_survivor.py:857-860 | every explosion and field counts down by one, explosions show the image for their new lifetime, and each group keeps its survivors |
| Game.GameState.DuriansStrike | koukaton_survivor.py:754-760 | a crash needs no clown ever bound; the score never drops; no enemy or clown is added |
| Game.GameState.BallsStrike | koukaton_survivor.py:762-772 | a crash needs no clown ever bound; the score never drops; no enemy or clown is added |
| Game.GameState.BeamsAndFields | koukaton_survivor.py:774-788 | the score and saved level never drop; no enemy or clown is added |
| Game.GameState.FieldsStrike | koukaton_survivor.py:782-788 | the enemies and clowns left are those touching no gravity field; 10 points per enemy and clown struck; the clown loop variable is bound to the last clown struck, or keeps its old binding |
| Game.GameState.CompanionsFight | koukaton_survivor.py:754-788 | a crash needs that no clown was bound before; the score and saved level never drop; no enemy or clown is added |
| Game.GameState.CollectItems | koukaton_survivor.py:790-798 | the touched power-ups are removed and counted by `Pickups` |
| Game.GameState.CollectGravityItems | koukaton_survivor.py:800-804 | the touched gravity items are removed; one new 80-frame field each, appended after the old fields; once the boss is in, it loses 20 health each |
| Game.GameState.PickupPhase | koukaton_survivor.py:790-804 | both kinds of touched item are removed and the score never drops |
| Game.GameState.BossHits | koukaton_survivor.py:813-839 | the boss loses one health point per touching beam, fresh durian contact and touching ball; the beams on it are removed; each durian's flag records whether it touches the boss; every ball bounces off the boss as `BossBounce` says |
| Game.GameState.BossUpdateAfterHits | koukaton_survivor.py:843-845 | as `BossUpdate`, and an exit leaves a defeated boss |
| Game.GameState.BossBlock | koukaton_survivor.py:813-845 | the boss's new state is `BossStep` after the hits, with one new explosion at its centre exactly when that step explodes; the beams, durian flags and ball bounces are as `BossHits` leaves them; the game ends only through a boss already defeated |
| Game.GameState.AnimateSprites | koukaton_survivor.py:857-862 | explosions and fields keep their survivors; every durian takes `DurianStep` and keeps its boss-contact flag |
| Game.GameState.MovePhase | koukaton_survivor.py:850-868 | the player moves as `Bird.update`; beams fly; enemies and clowns move |
| Game.GameState.AppearPhase | koukaton_survivor.py:869 | the controller follows `AppearStep`; a purge empties both enemy groups |
| Game.GameState.Prepare | koukaton_survivor.py:683-716 | the timer and span follow `Autofire`, with the beam it fires appended; the counters take `RampStep`; each due enemy, clown, item, gravity item and boss fan is appended, and nothing else |
| Game.GameState.Opening | koukaton_survivor.py:663-752 | it stops with `Quitted` exactly on a quit event; a pause needs a pending choice; the score and saved level never drop |
| Game.GameState.Engage | koukaton_survivor.py:719-752 | `Defeated` exactly when the player touched an enemy or a clown, and then the enemies, beams, score, saved level and skill flag are unchanged; otherwise (`Fought`) enemies and beams are what `Consume` leaves, the score, saved level and skill flag take `BeamKills`, and one new explosion marks each kill in order; `Paused` exactly when a choice is then pending |
| Game.GameState.Play | koukaton_survivor.py:683-752 | `Played`: auto-fire, the ramp and every spawn have their exact effect; `Defeated` exactly when the player touches a spawned enemy or a clown, with the enemies, beams and counters left as spawned and fired; otherwise the beams have hit the enemies as `Consume` does, the counters take `BeamKills` and each kill leaves an explosion; `Paused` exactly when not defeated and a choice is pending |
| Game.GameState.PickupsAndBoss | koukaton_survivor.py:790-845 | `Cleared` needs a defeated boss; the score never drops |
| Game.GameState.BossPhase | koukaton_survivor.py:806-845 | `Defeated` exactly when a boss beam touches the player; `Cleared` needs a defeated boss |
| Game.GameState.BossBeamsStrike | koukaton_survivor.py:806-811 | the boss beams on the player are removed, and the result says whether there were any |
| Game.GameState.BossShown | koukaton_survivor.py:813-845 | `Cleared` exactly when the boss is shown, was already defeated, and five seconds have passed; a shown boss takes `BossStep` after the hits, with the beams on it removed and its explosion added; a hidden boss leaves the beams, explosions and boss unchanged |
| Game.GameState.UpdateAndMove | koukaton_survivor.py:850-868 | no enemy or clown is added or removed |
| Game.GameState.Closing | koukaton_survivor.py:850-873 | the game ends only through a defeated boss; otherwise the frame counter steps; the boss has appeared exactly when it had or the score reached 1000; on its arrival both enemy groups are empty |
| Game.GameState.Finish | koukaton_survivor.py:790-873 | `Cleared` needs a defeated boss; on `Running` the frame counter steps and the boss has appeared exactly when it had or the score reached 1000; the score never drops |
| Game.GameState.Rest | koukaton_survivor.py:754-873 | a crash needs that no clown was bound before; `Cleared` needs a defeated boss; on `Running` the frame counter steps; the score and saved level never drop |
| Game.GameState.Tick | koukaton_survivor.py:661-873 | one pass of the loop: `Quitted` exactly on a quit; a pause freezes the frame counter; a crash needs that no clown was ever bound; `Cleared` needs a defeated boss; the score and saved level never drop; once the boss is in, no enemy or clown is added, and on its arrival both groups are emptied |
| EarlyGame.Volley | kokaton_survivor.py:421-428 | one SPACE press fires five beams with left shift held and one without |
| EarlyGame.VolleyAngles | kokaton_survivor.py:421-428 | the single beam flies along the facing angle; the five fan out at -50, -25, 0, 25 and 50 degrees from it |
| EarlyGame.EarlyEventsSpend | kokaton_survivor.py:414-419 | the window closes exactly on a quit; each gravity field bought costs exactly 200 points; no more fields are bought than R was pressed; the score never goes negative |
| EarlyGame.EarlyEventsFire | kokaton_survivor.py:421-428 | every SPACE press before the quit fires one beam, or five with shift held; earlier beams are kept |
| EarlyGame.EarlyEventsQuit | kokaton_survivor.py:414-416 | the window closes exactly when a quit event came |
| EarlyGame.EarlyEventsChooseOnce | kokaton_survivor.py:438-445 | the skill screen closes exactly when key 1 or 2 is pressed while it is up, and then exactly one companion is added |
| EarlyGame.EarlyQuitSticks | kokaton_survivor.py:414-416 | after a quit, later events change nothing |
| EarlyGame.Fly | kokaton_survivor.py:198-205 | after a beam or bomb group's update, every survivor lies fully inside the screen and is one of the sprites moved by its own displacement; there are no more than before |
| EarlyGame.FlyKeepsInside | kokaton_survivor.py:198-205 | a beam whose moved rectangle is fully inside the screen survives |
| EarlyGame.FadeBlasts | kokaton_survivor.py:252-260 | every surviving explosion has a non-negative lifetime one below an explosion of the group |
| EarlyGame.FadeLives | kokaton_survivor.py:56-62 | every surviving field has a non-negative lifetime one below a field of the group |
| EarlyGame.FadeBlastsKeeps | kokaton_survivor.py:252-260 | every explosion whose lifetime stays non-negative survives, one lifetime lower |
| EarlyGame.FadeLivesKeeps | kokaton_survivor.py:56-62 | every field whose lifetime stays non-negative survives, one lifetime lower |
| EarlyGame.EarlyState.constructor | kokaton_survivor.py:391-411 | the state the earlier `main` sets up: score 0, four spawn directions, one enemy per spawn, all groups empty |
| EarlyGame.EarlyState.OnEvent | kokaton_survivor.py:417-445 | one event's R, SPACE and skill-screen rules have the effect `EarlyStep` gives them on the score, the pending flag and every group |
| EarlyGame.EarlyState.Buy | kokaton_survivor.py:417-419 | R buys a 200-point field exactly when the score is at least 200, as `BuyStep` says |
| EarlyGame.EarlyState.Fire | kokaton_survivor.py:421-428 | SPACE appends one beam per heading of the volley at the player, each with the size its heading gives, as `FireStep` says |
| EarlyGame.EarlyState.Aim | kokaton_survivor.py:421-428 | the headings are `Volley`: the facing alone, or the five-beam fan around it with left shift |
| EarlyGame.EarlyState.Choose | kokaton_survivor.py:438-445 | at the skill screen key 1 adds a durian and key 2 a ball at the player and close it, as `ChooseStep` says |
| EarlyGame.EarlyState.HandleEvents | kokaton_survivor.py:414-445 | the event loop's quit, score, pending flag, fired beams and added fields and companions are those of `EarlyEvents` |
| EarlyGame.EarlyState.Ramp | kokaton_survivor.py:449-453 | every five seconds, two more enemies per spawn and two more directions, keeping the two counters in step |
| EarlyGame.EarlyState.Spawn | kokaton_survivor.py:455-456 | one enemy every 200 frames |
| EarlyGame.EarlyState.Explode | kokaton_survivor.py:477-479 | one explosion per centre, in order, and `points` per kill |
| EarlyGame.EarlyState.BeamKills | kokaton_survivor.py:466-472 | enemies and beams are what `Consume` leaves; 10 points and an explosion per kill; the skill screen opens exactly when something was killed or it was already open |
| EarlyGame.EarlyState.Celebrate | kokaton_survivor.py:467-472 | per kill: an explosion, 10 points, and the skill screen |
| EarlyGame.EarlyState.StrikeEnemies | kokaton_survivor.py:477-479 | the enemies left are the spared ones; `points` and an explosion for each struck enemy |
| EarlyGame.EarlyState.BombKills | kokaton_survivor.py:491-497 | bombs are shot by beams and then caught by fields, 1 point and a short explosion each |
| EarlyGame.EarlyState.BounceBalls | kokaton_survivor.py:484 | every ball takes the `Soccerball.update` step against the enemies |
| EarlyGame.EarlyState.Advance | kokaton_survivor.py:522-533 | the player moves with the shift speed; beams and bombs fly and die off screen; enemies move; explosions, fields and durians take their step |
| EarlyGame.EarlyState.MoveGroups | kokaton_survivor.py:523-533 | the group updates of `Advance` |
| EarlyGame.EarlyState.MoveSprites | kokaton_survivor.py:523-528 | beams and bombs follow `Fly`; enemies follow `Shift` |
| EarlyGame.EarlyState.AgeSprites | kokaton_survivor.py:529-533 | explosions and fields count down; durians bounce |
| EarlyGame.EarlyState.Fight | kokaton_survivor.py:466-501 | the score never drops, and an empty bomb group stays empty |
| EarlyGame.EarlyState.Battle | kokaton_survivor.py:466-540 | unless a bomb touches the player, the frame pauses exactly when a choice is pending, and the pause freezes the frame counter; otherwise the frame steps; with no bombs the player is never `Defeated` here; the score never drops; the ramp counters are unchanged; an empty bomb group stays empty |
| EarlyGame.EarlyState.Tick | kokaton_survivor.py:412-540 | one pass of the loop: `Quitted` exactly on a quit; the score drops by at most 200 per R press and never goes negative; a pause needs a pending choice and freezes the frame counter; a running frame steps one frame and leaves no choice pending; the bomb group stays empty |
| EarlyGame.EarlyState.Round | kokaton_survivor.py:449-540 | the ramp takes its exact step; a player touching an enemy, including the one just spawned, is `Defeated`, and with no bombs only such a player is; unless defeated, the frame pauses exactly when a choice is pending, after the ramp and the spawn have run, and the pause freezes the frame counter; the score never drops; the bomb group stays empty |

## Left out

- Floating point: the later homing beam's heading, the pursuit of enemies and clowns, the clown's zig-zag and the boss beams' headings are inputs. Each frame gives one integer displacement per sprite of a group. Angles in `Fan` are exact rationals, and the facing angle of the eight directions is tabulated.
- The random generator, the wall clock and the image sizes are inputs: spawn positions, the boss's base angle, the four-second warning, the five seconds after the boss's defeat, and the sprite sizes.
- `Beam.__init__` in the earlier snapshot launches a beam one player width ahead along its heading; the model launches every beam from the player's centre, because the offset needs the heading's cosine and sine.
- `bird.speed *= 1.1` on a power-up (koukaton_survivor.py:793-794): the speed stays an integer and is not changed by items, because the product is a float.
- Drawing, fonts, `change_img`, `pg.display.update`, `time.sleep` and `clock.tick` are left out: they change nothing the rules read.
- `Enemy.update` and `ClownEnemy.update` are modelled only through their displacement inputs (`Geometry.Shift`), because their steering is floating point.
- The order in which a pygame group visits its sprites is the order they were added.
- `calc_orientation` divides by the distance between two centres, so the program stops with a division by zero when the player and its target share a centre: in the earlier snapshot at kokaton_survivor.py:525 (the enemies' update, after the player's at :522), and in the later one at koukaton_survivor.py:855 and at the beam launch at koukaton_survivor.py:688 through koukaton_survivor.py:186. Once the boss has appeared, the launch at koukaton_survivor.py:181 aims every beam at the point (550, 250), so a player centred there also stops the program; it can get there from its start at (900, 400) by 35 steps left and 15 up at speed 10. The headings are inputs here, so the model goes on with `Running` where the program raises.
- Game.GameState.PickupPhase: states only what its two pickups leave behind and that the score does not drop; the exact counters are stated by `CollectItems` and `CollectGravityItems`.
- Game.GameState.DuriansStrike: states only the crash condition, score monotonicity and that no enemy is added; the exact effect is stated by `StrikeEnemies` and `StrikeClownsStale`.
- Game.GameState.BallsStrike: states only the crash condition, score monotonicity and that no enemy is added; the exact effect is stated by `BallsBounce`, `StrikeEnemies` and `StrikeClownsStale`.
- Game.GameState.BeamsAndFields: states only score and level monotonicity and that no enemy is added; the exact effect is stated by `BeamsHitClowns` and `FieldsStrike`.
- Game.GameState.CompanionsFight: states only the crash condition, monotonicity and that no enemy is added; the exact effect is stated by `StrikeEnemies`, `StrikeClownsStale`, `BallsBounce`, `BeamsHitClowns` and `FieldsStrike`.
- Game.GameState.FieldsStrike: does not state the explosions of the enemies and clowns it strikes; they are stated by `StrikeEnemies` and `StrikeClowns`.
- Game.GameState.BossShown: does not state the durians' boss-contact flags or the balls' bounces off the boss; they are stated by `BossBlock` and `BossHits`.
- Game.GameState.BossPhase: states the stops but not the boss's new state; that is stated by `BossShown`, `BossBlock`, `BossHits` and `BossUpdate`.
- Game.GameState.PickupsAndBoss: states only the stops and that the score does not drop; the exact effect is stated by `CollectItems`, `CollectGravityItems`, `BossPhase` and `BossBlock`.
- Game.GameState.AnimateSprites: states the survivors and the durians' step but not each lifetime; the countdowns are stated by `FadeSprites`.
- Game.GameState.UpdateAndMove: states only that no enemy or clown is added or removed; the exact effect is stated by `AnimateSprites` and `MovePhase`.
- Game.GameState.Closing: states the stops, the frame counter and the boss's arrival; the movements are stated by `MovePhase`, the sprite updates by `AnimateSprites`, and the controller's step by `AppearPhase`.
- Game.GameState.Finish: states only the stops, the frame counter, the boss's arrival and monotonicity; the exact effect is stated by `PickupsAndBoss` and `Closing` and the methods they name.
- Game.GameState.Rest: states only the stops, the frame counter, the boss's arrival and monotonicity; the exact effect is stated by `CompanionsFight` and `Finish` and the methods they name.
- Game.GameState.Opening: states the quit, the pause's pending choice and monotonicity; what the frame does before a stop is stated by `HandleEvents` and by `Play` through `Played`.
- Game.GameState.Tick: states the stops, the frame counter, the boss's arrival and monotonicity; the partial frame before a pause is stated by `Play` (`Played`), the rest by the methods named above.
- EarlyGame.EarlyState.Fight: states only score monotonicity and that bombs stay absent; the exact effect is stated by `BeamKills`, `StrikeEnemies`, `BounceBalls` and `BombKills`.
- EarlyGame.EarlyState.Battle: states the stops, the frame counter and monotonicity; the exact effect is stated by `Fight` and `Advance`.
- EarlyGame.EarlyState.Round: states the ramp exactly, the contact with the spawned enemies, the stops and monotonicity; the exact spawn is stated by `Spawn`, the rest by `Battle`.
- EarlyGame.EarlyState.Tick: the score bound counts every R press before the quit, not only the ones that bought a field; the exact spend is stated by `EarlyEventsSpend`, the partial frame before a pause by `Round`.
