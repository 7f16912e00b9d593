# HalfLifeGame simulation core in Dafny

This project models the integer rules of HalfLifeGame, a pygame wave shooter, and proves properties of them. Rendering, asset loading and floating-point trigonometry are abstracted away; what remains is a set of small state machines over integers and lists.

- **Entities.** The player, the practice target, the melee enemy, the fluid enemy (a melee enemy that also lights a flame) and the ranged enemy are classes. Their fields change in place:
  - health, and the destroyed and killed flags;
  - attack, splat, flame and hit-effect timers;
  - the splat marker;
  - the position and facing.
- **Kill counters.** The two class-level counters are one shared `KillCounters` object.
- **Projectiles.** Each projectile is a class with a constant velocity; each pygame sprite group is a `ProjectileGroup`. A group holds an ordered sequence with no repeats; it supports add and remove, and updates every member in place.
- **Geometry on integers.** Rectangles use pygame's `colliderect` as a strict overlap of half-open spans. The model also covers:
  - the per-axis push-out of `avoid_overlap` and the avoidance pass of `move_towards`;
  - the facing rules and the screen clamp.
- **Pure timer rules.** The counting rules are pure step functions (module `Timers`). Lemmas state what repeated updates do: attacks on every cooldown-th update, shots exactly a cooldown apart, and when the splat and hit effects end.
- **The wave director of `Main.py`:**
  - the per-stage spawn counts, where a negative `range` spawns nothing;
  - the spawn positions on the diagonal;
  - `spawn_wave` appending to the three enemy lists;
  - the end-of-frame bookkeeping of defeat, victory and wave advance on the global wave number and the kill counters.

Frame-level inputs are parameters, because the model cannot compute them:
- the normalised movement step, a speed-scaled unit vector;
- each projectile's velocity;
- the rectangles of the other enemies;
- the cursor position;
- the image sizes (a function from archetype to size in `Games.Game`).

Speeds are stored in tenths of a pixel per frame; the source passes 0.4, 0.7 and 6.5, for example. Distances are compared squared.

Modules are spread one or two per file:
- `Options` and `Geometry` (geometry.dfy);
- `Timers`, `Scores`, `Projectiles`, `Players`, `Targets`;
- `Enemies`, `FluidEnemies`, `ProjectileEnemies`;
- `Waves`, `Runs`, `Games`.

## Model

| member | source | states |
|---|---|---|
| Projectiles.Projectile.constructor | Projectile.py:7-23 | the rectangle, velocity and damage are the ones given |
| Projectiles.Projectile.Update | Projectile.py:25-30 | the rectangle moves by exactly the velocity; the velocity is a constant, so never modified |
| Projectiles.FlownClosedForm | Projectile.py:25-30 | after n updates the position is start + n × velocity, size unchanged |
| Projectiles.Projectile.GetDamage | Projectile.py:48-55 | always the damage given at construction |
| Projectiles.Projectile.HandleCollision | Projectile.py:38-46 | the projectile leaves its group if and only if it overlaps the target; otherwise the group is unchanged |
| Projectiles.Without | Projectile.py:46 | removing an absent element changes nothing, and removal never grows the sequence |
| Projectiles.WithoutContents | Projectile.py:46 | after removal every element left is an original one other than p, and every original other than p is still there |
| Projectiles.WithoutDistinct | Enemy.py:186 | in a group without repeats, removing the element at index i removes exactly that position and keeps the group without repeats |
| Projectiles.DeleteKeepsDistinct | Enemy.py:186 | deleting one position keeps a sequence without repeats |
| Projectiles.FirstHit | Enemy.py:183-187 | the index found overlaps, no earlier rectangle overlaps, and nothing is found exactly when no rectangle overlaps |
| Projectiles.ProjectileGroup.FirstOverlap | Enemy.py:183-184 | the search loop over the group stops at exactly `FirstHit` of the members' rectangles |
| Projectiles.ProjectileGroup.constructor | ProjectileEnemy.py:47 | a new group is empty |
| Projectiles.ProjectileGroup.Add | ProjectileEnemy.py:164 | adding appends a new projectile at the end, leaves an existing member where it is, and keeps the group without repeats |
| Projectiles.ProjectileGroup.Remove | Enemy.py:186 | removal takes out exactly the position holding p, keeps the order of the rest, and keeps the group without repeats |
| Projectiles.ProjectileGroup.UpdateAll | ProjectileEnemy.py:144 | every member moves by its own velocity exactly once; membership and order are unchanged |
| Projectiles.Misses | ProjectileEnemy.py:187-190 | the projectiles kept are drawn from the group, so there are never more of them than it held |
| Projectiles.HitCount | ProjectileEnemy.py:187-190 | there are never more hits than projectiles |
| Projectiles.MissesCount | ProjectileEnemy.py:187-190 | every owned projectile is either kept (a miss) or counted as a hit |
| Projectiles.HitCountZero | ProjectileEnemy.py:187-190 | no hits exactly when no projectile overlaps the player |
| Projectiles.MissesContents | ProjectileEnemy.py:187-190 | the kept projectiles are exactly those that do not overlap the player |
| Geometry.CenteredAt | Target.py:20 | `get_rect(center=c)` has the requested size and its `center` is c |
| Geometry.OverlapsSymmetric | ProjectileEnemy.py:188 | `colliderect` does not depend on which rectangle asks |
| Geometry.DistSq | Enemy.py:158 | the squared distance is zero exactly at the same point |
| Geometry.WithinDistance | Enemy.py:158-160 | the range test (also used at ProjectileEnemy.py:132-136) holds whenever abs(dx) + abs(dy) is at most the limit, and implies abs(dx) and abs(dy) are both within it |
| Geometry.PushOut | Enemy.py:91-98 | left of the obstacle goes to left − width, past right − width goes to right, inside the band stays, and any move clears the obstacle on that axis |
| Geometry.AvoidOverlap | Enemy.py:79-100 | both axes are pushed out independently; a moved rectangle no longer overlaps the obstacle; a position inside both bands is unchanged |
| Geometry.ResolveEdges | Enemy.py:66-68 | the avoidance pass leaves each coordinate either where the step put it or flush against an edge of one of the other enemies (left − width, right, top − height or bottom) |
| Geometry.ResolveWithoutContact | Enemy.py:66-68 | a candidate touching no other enemy is left where it is |
| Geometry.ResolveIgnoresSelf | Enemy.py:67 | the moving enemy's own entry in the list never affects the result |
| Geometry.Turn | Enemy.py:74-77 | face right when moving right, left when moving left, keep the facing when the horizontal direction is 0 |
| Geometry.Approach | Enemy.py:54-77 | a target at the current position changes nothing; otherwise the step is taken, pushed out of the others, and the facing follows the horizontal sign |
| Geometry.Clamp | Main.py:221-222 | the result lies within [lo, hi] when lo ≤ hi, and in-range values are kept |
| Timers.AttackTick | Enemy.py:163-165 | the melee timer fires exactly when the counted timer reaches the cooldown, then resets; from [0, cooldown) it stays there |
| Timers.AttackTimerIsRemainder | Enemy.py:163-165 | from 0, the attack timer after n updates is n mod cooldown, so it stays in [0, cooldown) |
| Timers.AttackOnEveryCooldownth | Enemy.py:163-166 | `deal_damage_to_player` is called on exactly every cooldown-th update |
| Timers.FireTick | ProjectileEnemy.py:139-143 | a shot happens exactly when the player is in range and the timer has reached the cooldown; then the timer ends at 1 |
| Timers.FireTimerClosedForm | ProjectileEnemy.py:139-143 | with the player in range, the fire timer after n ≥ 1 updates is ((n − 1) mod cooldown) + 1 |
| Timers.FiresExactly | ProjectileEnemy.py:139-143 | the first shot is on update cooldown + 1, then one shot on every cooldown-th update |
| Timers.ShotsAreCooldownApart | ProjectileEnemy.py:139-143 | after a shot, the next one is exactly cooldown updates later, with none in between |
| Timers.SplatTick | Enemy.py:168-171 | a running countdown drops by one, never below 0, and the marker is cleared on the update that reaches 0 |
| Timers.SplatCountdown | Enemy.py:168-171 | a countdown started at t > 0 stands at t − n with the marker kept for n < t updates, and is at 0 with the marker cleared from the t-th on; a countdown at 0 changes nothing |
| Timers.TargetTick | Target.py:40-43 | a live hit effect counts down; otherwise the hit flag is cleared and the timer is kept |
| Timers.HitEffectCountdown | Target.py:40-41 | started at t, the effect timer goes down by one per update, never below 0 |
| Timers.HitEffectLasts | Target.py:29-43 | after a hit, `is_hit` holds for the next 30 (in general t) updates; from the 31st on, the effect stays over, with the flag false and the timer at 0 |
| Players.Press | Player.py:109-126 | a key press raises only its own flag, a release lowers only its own flag, and any other event or key leaves all four flags unchanged |
| Players.PressRelease | Player.py:109-126 | releasing a key undoes pressing it, and pressing twice is the same as pressing once |
| Players.Steered | Player.py:91-100 | x changes by speed × (right − left) and y by speed × (down − up), so opposite flags cancel out |
| Players.FacingTowards | Player.py:51-57 | the angle to the cursor lies in [−90°, 90°] exactly when the cursor is not left of the centre |
| Players.Hurt | Player.py:184-188 | health drops by exactly the damage; killed is set at or below zero and never cleared |
| Players.HurtTimesClosedForm | ProjectileEnemy.py:187-189 | n hits take n × damage; a killed player stays killed; with non-negative damage the killed flag is exactly "already killed, or hit and at or below zero" |
| Players.Player.constructor | Player.py:10-42 | centred on the screen, 30000 health, not killed, no splat, facing left, all flags down, empty projectile group |
| Players.Player.Update | Player.py:44-64 | faces the cursor, flies every projectile once with membership unchanged, and counts the splat down |
| Players.Player.MovePlayer | Player.py:91-100 | the position moves as `Steered` from the current flags at speed 2 |
| Players.Player.HandleMovement | Player.py:102-126 | the flags become `Press` of the old flags and the event |
| Players.Player.Shoot | Player.py:128-145 | exactly one new projectile is appended, centred on the player, with damage 50 and the given velocity; the earlier ones are kept |
| Players.Player.HandleDamage | Player.py:177-188 | health drops by the damage, killed is set at or below zero, the marker goes to the centre, and the splat timer goes to 360 |
| Players.Player.SetHealth | Player.py:232-234 | only the health changes |
| Players.Player.Draw | Player.py:85-89 | drawing consumes the splat marker |
| Players.Player.IsDestroyed | Player.py:199-206 | the player is destroyed exactly when killed |
| Scores.KillCounters.constructor | Enemy.py:8 | both counters start at 0 |
| Scores.KillCounters.Reset | Main.py:201-202 | both counters go back to 0 |
| Targets.Target.constructor | Target.py:7-27 | the rectangle is centred on (x, y), with the given health, intact and unhit |
| Targets.Target.Hit | Target.py:29-34 | the effect timer goes to 30 and `is_hit` to true |
| Targets.Target.Update | Target.py:36-43 | the hit effect takes one `TargetTick` step |
| Targets.Target.Shown | Target.py:45-58 | the hit image shows exactly while the timer runs on an intact target, the destroyed image exactly once destroyed, otherwise none |
| Targets.Target.IsTargetHit | Target.py:60-67 | reports the hit flag |
| Targets.Target.IsTargetDestroyed | Target.py:69-76 | reports the destroyed flag |
| Targets.Target.ReceiveDamage | Target.py:78-87 | health drops by the damage; destroyed is set at or below zero and never cleared |
| Enemies.Enemy.constructor | Enemy.py:10-43 | the given position, stats and size; timers at 0, no marker, intact, facing left |
| Enemies.Enemy.MoveTowards | Enemy.py:45-77 | the avoidance loop over the other enemies computes exactly `Approach`: push-out from each overlapped enemy in list order, skipping itself, then the facing rule |
| Enemies.Enemy.ReceiveDamage | Enemy.py:126-145 | health drops by exactly the damage; the marker is recorded in both branches; destroyed is set and `enemies_killed` rises by exactly 1 at or below zero; neither changes otherwise |
| Enemies.Enemy.DealDamageToPlayer | Enemy.py:189-200 | on overlap, the player takes this enemy's damage, and both splats start at the player's centre (the enemy's lasting 120 updates); otherwise nothing changes |
| Enemies.Enemy.ConsumeAt | Enemy.py:184-187 | member i leaves the group, its damage is received, and the marker is its centre |
| Enemies.Enemy.CheckCollision | Enemy.py:175-187 | at most one projectile is removed, namely the first overlapping one in group order, and its damage is applied; with no overlap, health and the group are unchanged |
| Enemies.Enemy.Act | Enemy.py:157-171 | moves only within the tracking radius; counts the attack cooldown and attacks on its expiry; counts the splat down |
| Enemies.Enemy.Update | Enemy.py:147-173 | the movement, attack and splat part, followed by `check_collision` on the resulting state |
| Enemies.Enemy.Draw | Enemy.py:109-113 | drawing consumes the splat marker |
| Enemies.Enemy.IsEnemyDestroyed | Enemy.py:117-124 | reports the destroyed flag |
| FluidEnemies.FluidEnemy.constructor | FluidEnemy.py:10-35 | a fresh melee base with the given stats; flame timer 0 |
| FluidEnemies.FluidEnemy.Update | FluidEnemy.py:50-64 | the whole melee update runs first (kills counted in `enemies_killed`); then the flame timer is set to the duration when the attack timer is 0 and kept otherwise, so it is always 0 or the duration |
| FluidEnemies.FluidEnemy.ShownFlame | FluidEnemy.py:37-46 | a flame shows exactly when the flame timer is set and the attack timer is 0, in the variant of the current facing |
| ProjectileEnemies.ProjectileEnemy.constructor | ProjectileEnemy.py:11-49 | the speed stored is the bullet speed, not the speed argument; an empty projectile group |
| ProjectileEnemies.ProjectileEnemy.MoveTowards | ProjectileEnemy.py:51-75 | `Approach` with no other enemies to avoid |
| ProjectileEnemies.ProjectileEnemy.FireProjectile | ProjectileEnemy.py:148-164 | exactly one new projectile is appended, centred on the enemy, carrying this enemy's damage and the given velocity |
| ProjectileEnemies.ProjectileEnemy.ReceiveDamage | ProjectileEnemy.py:101-120 | as the melee enemy's, but the kill is counted in `projectile_enemies_killed` |
| ProjectileEnemies.ProjectileEnemy.ConsumeAt | ProjectileEnemy.py:175-178 | member i leaves the player's group, and its damage is received at its centre; the enemy's position, timer and own projectiles do not change |
| ProjectileEnemies.ProjectileEnemy.CheckCollision | ProjectileEnemy.py:166-178 | at most one player projectile is removed: the first overlapping one, whose damage is received; with no overlap nothing changes; the enemy's position, timer and own projectiles do not change |
| ProjectileEnemies.ProjectileEnemy.Aim | ProjectileEnemy.py:131-143 | the movement and firing half: moves only within range and beyond the 100 threshold; fires (one new projectile, centred on the enemy, not yet flown) exactly when in range with the timer at the cooldown; the earlier projectiles stay where they are |
| ProjectileEnemies.ProjectileEnemy.FlyAfterAim | ProjectileEnemy.py:144 | aiming and then flying every owned projectile once gives the outcome stated by `Advance` |
| ProjectileEnemies.ProjectileEnemy.Advance | ProjectileEnemy.py:131-144 | moves only within range and beyond the 100 threshold; fires (one projectile, timer to 1) exactly when in range with the timer at the cooldown; every owned projectile flies once |
| ProjectileEnemies.ProjectileEnemy.Update | ProjectileEnemy.py:122-146 | `Advance`, followed by `check_collision` on the player's projectiles |
| ProjectileEnemies.TallyIsMisses | ProjectileEnemy.py:187-190 | the loop's running tally over the first i projectiles is exactly the misses and the hit count of that prefix |
| ProjectileEnemies.ProjectileEnemy.HitPlayer | ProjectileEnemy.py:188-190 | one iteration takes the loop state from i projectiles to i + 1: on overlap, the player is hurt by this enemy's damage, the splat restarts and the projectile leaves the group; otherwise nothing changes |
| ProjectileEnemies.ProjectileEnemy.DealDamageToPlayer | ProjectileEnemy.py:180-190 | the group keeps exactly the misses, in order; the player takes this enemy's damage once per hit; the splat is restarted exactly when there was a hit |
| ProjectileEnemies.ProjectileEnemy.Draw | ProjectileEnemy.py:84-88 | drawing consumes the splat marker |
| ProjectileEnemies.ProjectileEnemy.IsEnemyDestroyed | ProjectileEnemy.py:92-99 | reports the destroyed flag |
| Waves.ParamsOf | Main.py:583-645 | only ranged archetypes have a bullet speed and only the fluid one a flame duration; every offset is 100, 200, 300 or 400; health, speed, damage and cooldown are positive |
| Waves.Plan | Main.py:583-645 | the plan is empty exactly from wave 18 on, and no archetype's loop runs twice in one wave |
| Waves.Instances | Main.py:590-592 | one `range(n)` loop with n ≥ 0 yields exactly n instances |
| Waves.InstancesPositions | Main.py:590-592 | the i-th instance (from 0) of an archetype starts at (k·(i+1), k·(i+1)), k being its offset |
| Waves.InstancesOnDiagonal | Main.py:590-592 | every instance stands on the diagonal at a positive multiple of its offset |
| Waves.RoleSpawnsOnDiagonal | Main.py:590-645 | every spawned enemy starts on the diagonal at a positive multiple of its archetype's offset (100, 200, 300 or 400) |
| Waves.RoleSpawnsKinds | Main.py:590-645 | every spawned enemy goes to the list of its kind (melee, ranged or fluid) |
| Waves.FourLoops | Main.py:590-604 | a four-loop stage puts into each list the loops' contributions, in loop order |
| Waves.ThreeLoops | Main.py:612-622 | a three-loop stage puts into each list the loops' contributions, in loop order |
| Waves.StageOnePlan | Main.py:584-604 | waves up to 8: the melee loop, then the regular, grunt and elite loops; no fluid enemies |
| Waves.StageTwoPlan | Main.py:607-622 | waves 9 to 13: the worker loop into the fluid list, the two hazmat loops into the ranged list; no melee enemies |
| Waves.StageThreePlan | Main.py:625-645 | waves 14 to 17: four ranged loops and nothing else |
| Waves.StageOneCounts | Main.py:584-604 | max(0, w+3) melee; max(0, w+2) + max(0, w−3) + max(0, w−5) ranged; 0 fluid |
| Waves.StageTwoCounts | Main.py:607-622 | max(0, 3w−20) fluid; max(0, w+3) + max(0, w−5) ranged; 0 melee |
| Waves.StageThreeCounts | Main.py:625-645 | max(0, w−5) + max(0, w−8) + max(0, w−7) + max(0, w−8) ranged, nothing else |
| Waves.BeyondLastStage | Main.py:625 | waves from 18 on spawn nothing |
| Waves.WaveZero | Main.py:584-596 | wave 0, spawned after a victory, is exactly 3 melee instances and 2 regular ranged instances, and no fluid enemies |
| Games.Game.constructor | Main.py:101-109 | a run starts with empty lists, running, at the current global wave number |
| Games.Game.SpawnMelee | Main.py:590-592 | the loop appends exactly `range(n)` fresh melee enemies of the archetype, at their diagonal positions, keeping the list's old elements |
| Games.Game.SpawnRanged | Main.py:594-596 | the loop appends exactly `range(n)` fresh ranged enemies of the archetype, moving at the bullet speed, keeping the old elements |
| Games.Game.SpawnFluid | Main.py:612-614 | the loop appends exactly `range(n)` fresh fluid enemies of the archetype, keeping the old elements |
| Games.Game.RangedJoin | Main.py:594-604 | two consecutive loops' enemies line up with the two loops' spawns |
| Games.Game.SpawnStageOne | Main.py:584-604 | stage one's lists grow by exactly the stage-one plan |
| Games.Game.SpawnStageOneRanged | Main.py:594-604 | the three ranged loops of stage one, in order |
| Games.Game.SpawnStageTwo | Main.py:607-622 | stage two's lists grow by exactly the stage-two plan |
| Games.Game.SpawnStageTwoRanged | Main.py:616-622 | the two hazmat loops, in order |
| Games.Game.SpawnStageThree | Main.py:625-645 | stage three's lists grow by exactly the stage-three plan |
| Games.Game.SpawnStageThreeRanged | Main.py:631-645 | the four stage-three loops, in order |
| Games.Game.SpawnWave | Main.py:583-645 | each list keeps its elements and gains exactly that wave's spawns; waves from 18 on add nothing |
| Games.Game.ClampPlayer | Main.py:207-222 | the flag-driven step is clamped per axis, so 0 ≤ x ≤ 800 − width and 0 ≤ y ≤ 600 − height when the player fits the screen |
| Games.Game.EndFrame | Main.py:198-286 | implements the corrected frame: the run state becomes `Runs.Frame` of the old state, and the lists gain exactly the spawned wave's enemies. The source as written is `Runs.FrameAsWritten`, where a defeat on a frame with empty lists leaves the wave number at 1 and spawns wave 1 (see Findings) |
| Runs.Defeat | Main.py:198-205 | the run stops exactly on a defeat; a defeat below wave 18 sets both counters and the wave number to 0; from wave 18 on the wave number is kept; without a defeat nothing changes |
| Runs.Advance | Main.py:232-286 | a wave is spawned exactly when all three lists are empty, and it is the new wave number; the wave number rises by 1, except that clearing wave 17 resets the run to wave 0 and stops it; with enemies left nothing changes |
| Runs.FrameAsWritten | Main.py:198-286 | the frame as written: a wave is spawned whenever the lists are empty, even on a defeat, and a defeat below wave 18 on such a frame leaves the wave number at 1; a defeat still stops the run |
| Runs.Frame | Main.py:198-286 | the corrected frame: a wave is spawned exactly when the player survives and the lists are empty, and it is the new wave number; a defeat below wave 18 leaves the reset state, with the wave number and both counters at 0 and the run stopped |
| Runs.DefeatResets | Main.py:198-205 | a defeat below wave 18 resets both counters and the wave number to 0 and stops the run; the next run starts at wave 1 |
| Runs.WaveAdvances | Main.py:271-286 | with all lists empty and wave ≠ 17, the wave number rises by exactly 1 and that wave is spawned (the `clear()` calls are no-ops) |
| Runs.Victory | Main.py:233-239 | clearing wave 17 resets the counters, stops the run, and leaves the wave number at 0 after a spawn of wave 0 |
| Runs.QuietFrame | Main.py:232 | while enemies remain and the player lives, the frame changes nothing |
| Runs.WaveInRange | Main.py:232-286 | the wave number, and any wave spawned, stay within 0 to 17 |
| Runs.ClearsClosedForm | Main.py:232-286 | a run from wave 0 stands at wave n after n clears, up to 17; the 18th clear is victory |
| Runs.FramesAgreeOtherwise | Main.py:198-286 | the frame as written and the corrected frame differ exactly on a defeat that coincides with empty lists |
| Runs.DefeatOnClearedFrameAsWritten | Main.py:198-286 | as written, that frame leaves the wave number at 1, and the next run starts at wave 2 |

## Left out

- Rendering, images, fonts and the display: `draw` and `blit`, `draw_projectiles`, `render_health`, `draw_flame`'s blit, the splat images, `get_orientation`'s image and the background choice. The state `draw` changes is kept: it clears the splat marker.
- UI loops and time: the main menu, the pause screen, the game-over and tutorial screens, event polling, `pygame.time.delay` and `clock.tick`. `Scores.KillCounters.Reset` is only the counter part of the reset that the pause menu and window close perform. They also set the global wave number to 0 (Main.py:142, 158, 163), which is not modelled.
- Floating point: the `math.sqrt` normalisation in both `move_towards`, and the `atan2`/`cos`/`sin` velocities in `fire_projectile` and `shoot`. The step and every velocity are integer inputs; distances are compared squared. pygame's float-to-int rectangle coercion is not modelled; positions stay integers.
- Geometry.Approach and the two `MoveTowards`: whether the step points towards the target and has length `speed` is not modelled, because the step is an input.
- Players.Player.Shoot and ProjectileEnemies.ProjectileEnemy.FireProjectile: the projectile's velocity is an input, so its direction towards the target is not proved.
- `Player.check_collision`: dead code that calls `receive_damage` with the wrong number of arguments; it is not modelled.
- The frame order in `Main.py` is not modelled as a whole:
  - removing enemies from the lists while iterating, which skips the next one;
  - the extra `deal_damage_to_player` call every frame;
  - the double projectile update per frame;
  - the player moving twice per frame: `move_player` at Main.py:167, then the flag-driven step before the clamp at Main.py:208-222, of which only the second is `Games.Game.ClampPlayer`.
  Each operation is modelled on its own. `Games.Game.ClampPlayer` and `Games.Game.EndFrame` are the frame pieces named above.
- `handle_shooting`, `get_health`, `update_projectiles` and `get_coords` are thin wrappers. They appear inside the members that use them: `Player.Update` flies the projectiles, and `Centre` and `Coords` give the centres.
- pygame `sprite.Group` internals: a group is a sequence without repeats. In `deal_damage_to_player`, iterating a group while killing members visits a snapshot of the group, and so does the model.
- The `others` rectangles given to `Enemies.Enemy.MoveTowards` are read once, before the move. The source reads them from the live enemy objects, but nothing else moves during the call.
- The `clear()` calls at waves 9, 13 and 18 are kept in `Games.Game.EndFrame`. They run only when all three lists are already empty, so they remove nothing.

## Findings

| source | as written | input that shows it | evidently intended | confidence | as-written member | corrected member |
|---|---|---|---|---|---|---|
| Main.py:198-286 | after a defeat sets the wave number to 0, the same frame still runs the all-lists-empty wave check, which raises it to 1 and spawns wave 1 | wave 5, player destroyed on the frame the last enemies die, all three lists empty | a defeat resets the wave number to 0, so the next run starts at wave 1 | not executed | Runs.FrameAsWritten, Runs.DefeatOnClearedFrameAsWritten | Runs.Frame, Runs.DefeatResets (used by Games.Game.EndFrame) |
