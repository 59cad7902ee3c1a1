# zombii — a verified model of the per-frame simulation

zombii is a top-down zombie shooter written with pygame. This project
models the part of it that decides what happens in a frame. Drawing is not
modelled.

- **Player.** The weapon state machine: a magazine per weapon, switching,
  reload, and a fire-rate gate. Also the health clamp and movement inside
  the world.
- **Firing.** `fire_weapon` consumes one round and fans out
  `bullets_per_shot` bullets, each with a bounded spread.
- **Wave scheduler.** `LevelManager`: announcements, the spawn cadence, wave
  completion and the break between waves.
- **Zombies.** Stats derived from the type and the difficulty, the attack
  cooldown, damage, the chase step, and where a new zombie is placed.
- **Obstacles.** Rejection-sampled placement, the minimum-depth push-out of
  an entity, and the line-of-sight cover test.
- **Bullets and camera.** Bullet flight and the removal test. The camera's
  clamped, eased offset and its world/screen conversions.
- **Game.** The ESC/R key state machine, the start of a session, and
  `Game._update` with its passes in their fixed order: player, camera,
  player–obstacle push-out, firing, bullet flight, spawning, zombie AI with
  push-out, bullet–obstacle, bullet–zombie, zombie–player, level update.

Modelling conventions:

- **Time.** The clock is a parameter `now`. One frame uses one value.
- **Randomness.** Every random draw is an input. The spread draws, the
  draws of a spawn (in `Games.FrameInput`) and the obstacle candidates
  (`Obstacles.Candidate`) are values in `[0, 1)` or already-drawn integers.
- **Trigonometry and image rotation.** These are opaque functions in
  `Environment.Env`, so every property holds whatever they return.
- **Rects.** pygame `Rect` is the datatype `Geometry.Rect(x, y, w, h)`.
  `colliderect` is strict overlap with positive area. `center =` uses
  integer halving. `int()` of a float truncates toward zero
  (`Geometry.Trunc`).
- **Numbers.** Floats are modelled as `real`, without rounding.
- **Distances.** Distance tests compare squares (`hypot(a, b) <= d` becomes
  `a*a + b*b <= d*d`). Lemmas show that this is the source's test.
- **Objects.** Objects the source updates in place are classes:
  `Player`, `Bullet`, `Zombie`, `LevelManager`, `Camera`, `Game`. pygame
  sprite groups are `seq`s in insertion order, and `sprite.kill()` drops the
  element. Each method is proved against a function on values, and the
  properties are lemmas about those functions.

## Model

| member | source | states |
|---|---|---|
| Geometry.CenteredAtCentre | src/player.py:70 | placing a rect by its centre keeps its size, and the centre getters give that centre back |
| Geometry.InflateKeepsCentre | src/obstacle.py:22 | `inflate` by an even amount changes the size by that amount, moves the corner by half of it, and keeps the centre |
| Geometry.OverlapsSymmetric | src/main.py:240 | `colliderect` does not depend on the order of its arguments |
| Geometry.Trunc | src/player.py:70 | `int()` of a float rounds toward zero: the result has the sign of the input and lies within 1 of it, on the side of zero |
| Geometry.TruncShift | src/obstacle.py:155 | truncation commutes with adding an integer when the value is integral or the sign is kept |
| Geometry.ClampReal | src/player.py:67-68 | `max(lo, min(v, hi))` lies in `[lo, hi]` and is `v` when `v` is already inside |
| Geometry.ClampInt | src/camera.py:29-30 | the integer clamp lies in `[lo, hi]` and is `v` when `v` is already inside |
| Geometry.CompareBySquares | src/obstacle.py:62-69 | for non-negative lengths, `s <= t` and `s < t` hold exactly when they hold for the squares |
| Choice.Pick | src/zombie.py:99 | a weighted choice returns an index whose cumulative weight band contains the draw |
| Choice.PickInInterval | src/obstacle.py:53 | for a draw below the total weight, the chosen index is the one whose band `[prefix, prefix + weight)` contains it |
| Players.NewGun | src/player.py:25-35 | a new inventory holds every weapon with a full magazine, selects the pistol, and is not reloading |
| Players.SwitchToEffect | src/player.py:91-95 | switching to another weapon selects it and cancels a reload; switching to the current one changes nothing; magazines are untouched |
| Players.BeginReloadEffect | src/player.py:121-125 | a reload starts, with `reload_start = now`, exactly when not already reloading and the magazine is below its size; otherwise nothing changes |
| Players.FireGateWhileReloading | src/player.py:100-105 | during a reload that has not lasted `reload_time`, the gate is false and nothing changes |
| Players.FireGateFinishesReload | src/player.py:100-114 | once `reload_time` has passed, the gate refills the current magazine and clears the reload, then opens exactly when the fire-rate delay has passed |
| Players.FireGateEmptyStartsReload | src/player.py:107-109 | with an empty magazine, the gate is false and starts a reload at `now` |
| Players.FireGateOpens | src/player.py:97-114 | an open gate means not reloading, a round loaded and the fire-rate delay passed; with a loaded magazine and no reload, the gate changes nothing and opens exactly when the delay has passed |
| Players.ConsumeRoundEffect | src/player.py:116-119 | `shoot` removes exactly one round from the current magazine only, and records `last_shot_time = now` |
| Players.StepKeepsMagazinesInRange | src/player.py:91-125 | every weapon operation keeps every magazine in `[0, mag_size]` |
| Players.RunKeepsMagazinesInRange | src/player.py:91-125 | any sequence of weapon operations keeps every magazine in `[0, mag_size]` |
| Players.Damage | src/player.py:127-133 | the new hp is never negative; death is reported exactly when `hp - amount <= 0`, and then hp is 0; otherwise hp drops by exactly `amount` |
| Players.Healed | src/player.py:135-137 | healing never goes above `max_hp`; it is `hp + amount` or `max_hp`; and when `0 <= hp <= max_hp` and `amount >= 0` it never lowers hp |
| Players.HpStaysInRange | src/player.py:127-137 | any sequence of non-negative hits and heals keeps hp in `[0, max_hp]` |
| Players.MoveDelta | src/player.py:48-61 | the step has the sign of the pressed keys (right and down win over left and up), is 4 on one axis, and is 4·0.7071 on each axis diagonally |
| Players.Player.constructor | src/player.py:12-39 | a new player is at the given position with `hp == max_hp == player_hp`, a fresh inventory, and zero score and kills |
| Players.Player.SwitchWeapon | src/player.py:91-95 | the weapon state becomes the `SwitchTo` of the old one |
| Players.Player.StartReload | src/player.py:121-125 | the weapon state becomes the `BeginReload` of the old one; magazines stay in range |
| Players.Player.CanShoot | src/player.py:97-114 | the result and the new weapon state are those of the `FireGate` function |
| Players.Player.Shoot | src/player.py:116-119 | the new weapon state is the `ConsumeRound` of the old one |
| Players.Player.TakeDamage | src/player.py:127-133 | hp and the result are those of `Damage`; a non-negative hit keeps hp in `[0, max_hp]` |
| Players.Player.Heal | src/player.py:135-137 | hp becomes `Healed`; a non-negative amount keeps hp in `[0, max_hp]` |
| Players.Player.HandleInput | src/player.py:45-89 | the position moves by the key step, clamped to `[PLAYER_SIZE, WORLD - PLAYER_SIZE]` on both axes; the angle aims at the mouse; the rect is re-centred on the truncated position; the number keys switch weapon |
| Bullets.SurvivalRegion | src/bullet.py:37-46 | a bullet survives exactly when both coordinates are in `[-50, WORLD + 50]` and its age is at most 2000; the boundary values survive and age 2001 does not |
| Bullets.TravelEffect | src/bullet.py:34-35 | a step adds the velocity to the position once and re-centres the rect on the truncated position, keeping its size |
| Bullets.Bullet.constructor | src/bullet.py:12-30 | a bullet carries its weapon's `damage` and `bullet_speed`, the spawn time, its heading and the velocity for that heading |
| Bullets.Bullet.Update | src/bullet.py:32-46 | the flight takes one `Travel` step, and the bullet is killed exactly when it is out of play afterwards |
| Weapons.Spread | src/weapon.py:25 | a draw in `[0, 1]` gives an offset in `[-spread, spread]`, and a zero spread gives 0 |
| Weapons.FireRoundAccounting | src/weapon.py:13-16 | one fire attempt removes exactly one round from the current magazine when it fires and none when it does not, whatever `bullets_per_shot` is; other magazines are untouched |
| Weapons.FireWeapon | src/weapon.py:11-37 | a closed gate returns no bullets and only applies the gate's own change; an open one consumes one round and returns `bullets_per_shot` distinct new bullets, each with the weapon's damage and speed, a heading within `±spread` of the aim, and the muzzle offset of 25 along it |
| Weapons.Pellets | src/weapon.py:23-35 | the loop builds exactly `bullets_per_shot` distinct new bullets, bullet `i` using spread draw `i` |
| Levels.InitialIsFirstWave | src/level.py:11-41 | a new scheduler is at wave 1 with `zombies_per_wave_base` to spawn, nothing spawned or killed, active, not complete, not between waves, and announcing |
| Levels.NextWaveEffect | src/level.py:29-41 | the next wave raises `wave` by one, sets the size `base + (wave-1)·growth`, resets both counters, sets active, clears complete and between, and records the announce time |
| Levels.SpawnGateRefusals | src/level.py:43-56 | no spawn, and no change, outside an active wave, during the 2000-tick announcement, and within `spawn_interval` of the last spawn |
| Levels.SpawnGateExact | src/level.py:43-67 | a spawn happens exactly when all five conditions hold; it then raises `spawned` by one and records the time, so `spawned <= to_spawn`; a refusal changes nothing |
| Levels.KillRecordedEffect | src/level.py:69-78 | a kill always raises `killed`; it completes the wave, and starts the break at `now`, exactly when `killed >= to_spawn` and the count is at most 1 |
| Levels.AdvanceEffect | src/level.py:80-85 | the next wave starts exactly when the break of a complete wave has lasted 3000 ticks; otherwise nothing changes |
| Levels.Remaining | src/level.py:98-100 | the number left is never negative, never above the wave size, and is 0 exactly when the kills reach the wave size |
| Levels.ApplyKeepsConsistent | src/level.py:29-85 | each scheduler operation keeps the wave at least 1 with its own wave size, `0 <= spawned <= to_spawn`, `killed >= 0`, and the phase flags in step (active exactly when not between waves, complete exactly when between), and raises the wave by at most one |
| Levels.ApplyAllKeepsConsistent | src/level.py:29-85 | any sequence of scheduler operations keeps those invariants |
| Levels.LevelManager.constructor | src/level.py:11-27 | the fields hold the `Initial` state |
| Levels.LevelManager.StartNextWave | src/level.py:29-41 | the fields become the `NextWave` state |
| Levels.LevelManager.ShouldSpawn | src/level.py:43-67 | the result and the new fields are those of `SpawnGate`, and the invariants hold |
| Levels.LevelManager.OnZombieKilled | src/level.py:69-78 | the fields become `KillRecorded`, and the invariants hold |
| Levels.LevelManager.Update | src/level.py:80-85 | the fields become `Advance`, and the invariants hold |
| Levels.LevelManager.IsAnnouncing | src/level.py:87-92 | true exactly while the wave is active and less than 2000 ticks have passed since its announcement |
| Levels.LevelManager.ZombiesRemaining | src/level.py:98-100 | returns `Remaining`, which is never negative |
| Zombies.StatsOrdering | src/zombie.py:23-28 | derived stats are positive; the score does not depend on the difficulty; fast zombies are the quickest and frailest, and tanks the slowest, toughest and hardest-hitting |
| Zombies.AttackGateCooldown | src/zombie.py:63-69 | an attack is allowed exactly when 800 ticks have passed, and then records `now`; a refusal keeps the old time; two attacks at the same `now` are impossible, and two attacks are at least 800 ticks apart |
| Zombies.KindWeights | src/zombie.py:97-98 | the weights are those of the type table, in its order, and add up to 100 |
| Zombies.PickKindBands | src/zombie.py:96-99 | a draw below 0.60 gives a normal zombie, one in `[0.60, 0.85)` a fast one, and the rest a tank |
| Zombies.SpawnPosition | src/zombie.py:104-111 | a spawn position lies in `[20, WORLD - 20]` on both axes and is the unclamped position when that is inside |
| Zombies.ChaseEffect | src/zombie.py:38-61 | a zombie on the target does not move; otherwise it moves by `speed` times the steering direction, advances its wobble timer, and re-centres its rect |
| Zombies.Zombie.constructor | src/zombie.py:13-36 | a new zombie's speed, hp, damage and score are the derived stats, with `hp == max_hp` and no attack yet |
| Zombies.Zombie.Update | src/zombie.py:38-61 | the motion state becomes the `Chase` of the old one |
| Zombies.Zombie.CanAttack | src/zombie.py:63-69 | the result and the new attack time are those of `AttackGate` |
| Zombies.Zombie.TakeDamage | src/zombie.py:71-74 | hp drops by exactly `amount`, with no floor, and death is reported exactly when hp is then at most 0 |
| Zombies.SpawnZombie | src/zombie.py:94-114 | the new zombie has the drawn type, the clamped spawn position inside `[20, WORLD - 20]`, and that type's stats |
| Obstacles.MakeObstacle | src/obstacle.py:14-22 | an obstacle has its type's size centred on its position, and a collision rect 6 smaller in each dimension |
| Obstacles.MakeObstacleGeometry | src/obstacle.py:18-22 | the collision rect is the visual rect moved in by 3 on each side, with the same centre |
| Obstacles.KindWeights | src/obstacle.py:46-47 | the weights are those of the obstacle table, in its order, and add up to 100 |
| Obstacles.AttemptKeepsWellSpread | src/obstacle.py:52-82 | one attempt adds at most one obstacle and keeps the field well spread: at most `OBSTACLE_COUNT` obstacles, centres in `[150, WORLD - 150]`, at least 200 from the start, pairwise at least `OBSTACLE_MIN_DIST` apart, none of a type without an asset |
| Obstacles.GenerateFromKeepsWellSpread | src/obstacle.py:42-84 | the remaining attempts keep the field well spread |
| Obstacles.GenerateWellSpread | src/obstacle.py:37-84 | a generated field is well spread |
| Obstacles.GenerateFromReadsPrefix | src/obstacle.py:42-50 | the remaining attempts read no candidate past the attempt budget |
| Obstacles.GenerateUsesAtMostMaxAttempts | src/obstacle.py:42-50 | generation uses at most `20·OBSTACLE_COUNT` candidates: two candidate streams that agree on those give the same field |
| Obstacles.TooClose | src/obstacle.py:66-73 | the loop finds a placed obstacle too close exactly when one exists |
| Obstacles.GenerateObstacles | src/obstacle.py:37-84 | the `while` loop computes the generated field, which is well spread |
| Obstacles.FirstShield | src/obstacle.py:104-124 | the search over obstacles is true exactly when some obstacle shields the player |
| Obstacles.BehindCover | src/obstacle.py:87-126 | cover holds exactly when the player and zombie are at least 1 apart and some obstacle shields; it is false with no obstacles or with the two closer than 1 |
| Obstacles.CheckBehindCover | src/obstacle.py:87-126 | the loop with its early returns computes `BehindCover` |
| Obstacles.RatioBySquares | src/obstacle.py:120-123 | `cross / dist < t` is the same test as `cross² < t²·dist²` |
| Obstacles.SquaredTestIsLengthTest | src/obstacle.py:104-124 | the squared form of the three cover conditions is equivalent to the source's test on lengths |
| Obstacles.ShieldsIsSourceTest | src/obstacle.py:104-124 | for an obstacle, the model's shield test is equivalent to the source's `hypot`-based conditions |
| Obstacles.CoverExamples | src/obstacle.py:87-126 | example only, a sanity check beside `ShieldsIsSourceTest`: an obstacle halfway between zombie and player gives cover; one far off the line does not |
| Obstacles.Min4 | src/obstacle.py:144 | `min` of the four depths is one of them and no larger than any |
| Obstacles.PushOutMinimal | src/obstacle.py:136-155 | on overlap, the entity moves along one axis only, by the smallest of the four overlap depths, keeping its size, and the collision is recorded |
| Obstacles.PushOutSeparates | src/obstacle.py:130-155 | with the rect centred on the truncated position, and none of the four candidate pushes carrying a fractional coordinate across 0 (`ShiftSafe`, which holds for every integral position), after the push that obstacle no longer overlaps the entity's rect |
| Obstacles.PushOutExample | src/obstacle.py:136-155 | example only, a sanity check beside `PushOutSeparates`: a 10×10 box at the origin against one at (5, 5) moves left by 5 and no longer overlaps |
| Obstacles.ResolveAllCollided | src/obstacle.py:129-157 | the result reports a collision exactly when some obstacle overlapped the entity at its turn in iteration order; with none the entity is unchanged |
| Obstacles.ResolveCollision | src/obstacle.py:129-157 | the loop computes `ResolveAll`; with no collision, position and rect are unchanged |
| Cameras.TargetOffset | src/camera.py:24-30 | the target offset centres the point and is clamped to `[0, WORLD - SCREEN]` on both axes |
| Cameras.ApproachContracts | src/camera.py:32-34 | each step removes a tenth of the distance to the target, lands between the old offset and the target, and so keeps the offset in the clamp box |
| Cameras.Camera.constructor | src/camera.py:11-13 | a new camera is at offset (0, 0), follows nothing, and is in the box |
| Cameras.Camera.Follow | src/camera.py:15-17 | the target is set |
| Cameras.Camera.Update | src/camera.py:19-34 | without a target nothing changes; otherwise each offset takes one easing step towards the clamped target; an offset in the box stays in it |
| Cameras.Camera.Apply | src/camera.py:36-43 | `apply` keeps width and height and shifts the corner like `apply_pos` |
| Cameras.RoundTrip | src/camera.py:45-54 | `reverse(apply_pos(p)) == p` and `apply_pos(reverse(p)) == p` for the same offset |
| Cameras.ApplyShifts | src/camera.py:36-47 | with the offset in the box, the conversions shift by `-int(offset)` within the box, and `apply` keeps whether two rects overlap |
| Combat.Unblocked | src/main.py:208-214 | the bullets kept are exactly those, in order, that overlap no obstacle |
| Combat.UnblockedWithoutObstacles | src/main.py:208-214 | with no obstacles every bullet is kept |
| Combat.UnblockedDistinct | src/main.py:208-214 | removing blocked bullets keeps each bullet in the group once |
| Combat.FirstTouched | src/main.py:218-219 | the search returns the first zombie, in group order, that the bullet overlaps, or none |
| Combat.VolleySnoc | src/main.py:217-236 | the bullet pass handles the bullets one at a time, in group order |
| Combat.VolleyAccounting | src/main.py:217-236 | every bullet is either kept or spent on one hit; kills are at most hits; the zombies alive drop by the kills; the count passed for the k-th kill is the count after removing it |
| Combat.VolleyScore | src/main.py:231 | the score gained is the total score value of the zombies killed |
| Combat.VolleyKept | src/main.py:217-236 | the bullets kept are among those at the start |
| Combat.StrikeFoes | src/main.py:217-236 | one bullet keeps the zombies distinct and adds none |
| Combat.VolleyDistinct | src/main.py:217-236 | the pass keeps bullets and zombies distinct and only removes zombies |
| Combat.StrikeMissOrHit | src/main.py:217-236 | a bullet touching no zombie is kept and changes nothing else; one that touches is removed, and removes its zombie exactly when the damage is lethal |
| Combat.HitDamage | src/main.py:244 | a covered hit does `damage·(1 - 0.8)`, an uncovered one the full damage |
| Combat.OnslaughtLasts | src/main.py:239-241 | a zombie's attack time changes only when it touches the player and its cooldown has passed, and then becomes `now` |
| Combat.OnslaughtHp | src/main.py:243-245 | without a death, hp drops by the sum of the hits; with one, hp is 0; with non-negative damage, hp stays in `[0, hp]` |
| Combat.OnslaughtAfterDeath | src/main.py:251-253 | after a lethal hit no later zombie attacks or changes |
| Combat.AttackGuards | src/main.py:239-253 | a zombie that does not touch, is still cooling down, or comes after a death does nothing; otherwise it hits for `HitDamage` with cover decided by `check_player_behind_cover` |
| Combat.KillsRecordedSnoc | src/main.py:234 | recording kills one at a time is `on_zombie_killed` repeated in order |
| Sessions.CensusAfterSpawnCheck | src/main.py:197-200 | a spawn check keeps the scheduler's invariants, and `spawned - killed` equals the zombies alive when the spawn, if any, is added |
| Sessions.CensusAfterKills | src/main.py:231-234 | recording the kills of the bullet pass, each with the post-removal count, keeps the invariants and the census |
| Sessions.CensusAfterAdvance | src/main.py:256 | the level update keeps the invariants and the census |
| Sessions.LastKillCompletesWave | src/main.py:234 | with the post-removal count, a kill completes the wave exactly when it removes the last zombie after the whole wave has spawned |
| Games.AfterKeyTransitions | src/main.py:155-163 | ESC toggles playing and paused and sends the difficulty screen to the menu; other keys and states are unchanged |
| Games.InPlay | src/main.py:193-194 | the bullets left after the flight pass are exactly those, in order, not out of play |
| Games.InPlayDistinct | src/main.py:193-194 | the flight pass keeps each bullet in the group once |
| Games.KeptDistinct | src/main.py:217-236 | the bullets kept by the bullet–zombie pass are distinct |
| Games.Game.constructor | src/main.py:29-61 | a new game is on the menu, with no session objects and empty groups |
| Games.Game.StartGame | src/main.py:66-97 | a session starts playing with a new player at the world's centre with full hp and inventory, a camera at (0, 0) following it, a first-wave scheduler, empty groups, and the generated obstacle field |
| Games.Game.Begin | src/main.py:97 | the session's objects are installed and the state is playing |
| Games.Game.SteerPlayer | src/main.py:175 | the player moves by the clamped key step, aims at the mouse converted to world coordinates, and switches weapon with the number keys |
| Games.Game.FollowPlayer | src/main.py:178 | the camera eases towards the clamped offset centring the player |
| Games.Game.PlayerVsObstacles | src/main.py:181-182 | the player's position and rect are those of `ResolveAll` over the obstacles |
| Games.Game.FireStep | src/main.py:185-190 | without the button nothing changes; with it, the gate decides, and the new bullets are appended to the group |
| Games.Game.MoveBullets | src/main.py:193-194 | every bullet takes one step, and the group becomes the bullets still in play |
| Games.Game.StepAll | src/main.py:193-194 | the loop steps every bullet and keeps exactly those in play, in order |
| Games.Game.SpawnStep | src/main.py:197-200 | the scheduler's gate decides with the group size; a spawn appends one new zombie with the drawn type, clamped position and stats |
| Games.Game.ZombieAI | src/main.py:203-206 | every zombie chases the player and is then pushed out of the obstacles |
| Games.Game.Pursue | src/main.py:203-206 | the loop moves each zombie once, then resolves its collisions |
| Games.Game.BulletsVsObstacles | src/main.py:209-214 | the group becomes the bullets that overlap no obstacle |
| Games.Game.Unobstructed | src/main.py:209-214 | the nested loop with `break` keeps exactly the unblocked bullets |
| Games.Game.Collides | src/main.py:210-211 | the inner loop finds an overlapping obstacle exactly when one exists |
| Games.Game.BulletsVsZombies | src/main.py:217-236 | bullets, zombies, score, kills and the scheduler are those of `Volley` over the groups; the zombies drop by the kills and none is added |
| Games.Game.Sweep | src/main.py:217-236 | the bullet–zombie pass keeps the session invariant and the census |
| Games.Game.Shootout | src/main.py:217-236 | the outer loop over bullets computes `Volley` |
| Games.Game.Impact | src/main.py:218-236 | one bullet computes one `Strike` |
| Games.Game.Wound | src/main.py:225-236 | a hit computes `HitFoe`: damage, and on a kill the score, kills, removal and notification |
| Games.Game.Slay | src/main.py:231-234 | a kill adds the score value and one kill, removes the zombie, and notifies the scheduler with the count after removal |
| Games.Game.Touching | src/main.py:218-219 | the inner loop finds the first zombie the bullet overlaps |
| Games.Game.ZombiesVsPlayer | src/main.py:239-253 | attack times, the player's hp and the death are those of `Onslaught`; a death leaves hp 0 |
| Games.Game.Brawl | src/main.py:239-253 | the loop with its early return computes `Onslaught` and keeps hp in range |
| Games.Game.Engage | src/main.py:240-253 | one zombie computes one `Attack` |
| Games.Game.Play | src/main.py:196-256 | the passes from the spawn on, the level update included: the same statements as `Frame` about the state at the spawn |
| Games.Game.Conclude | src/main.py:251-256 | a death sets game over and skips the level update; otherwise the level update runs and play continues |
| Games.Game.Fight | src/main.py:196-253 | the bullet pass is `Volley` of the groups as they stand after the spawn (`shots`, `foes`: the zombies alive at the start plus the one spawned, if any); the spawn check, then that pass's kills with their post-removal counts, drive the scheduler; score, kills, bullets and zombies are those of the pass |
| Games.Game.Gather | src/main.py:196-214 | the spawn check decides whether one zombie is added |
| Games.Game.Clash | src/main.py:216-253 | the bullet–zombie pass is `Volley` of the groups on entry; bullets and zombies become the pass's survivors; its kills drive score, kills and the scheduler; a death leaves hp 0 |
| Games.Game.Frame | src/main.py:174-256 | one frame: the bullet pass is `Volley` of the groups after the spawn, and the groups end as its survivors; the state becomes game over exactly on a death; the scheduler is spawn check, then that pass's kills, then the level update unless the player died; score, kills and the zombie count follow |
| Games.Game.Update | src/main.py:169-259 | outside play nothing changes: neither the game's fields, nor the player, camera, scheduler, zombies or bullets; in play, the frame above |
| Games.Game.HandleKey | src/main.py:155-167 | the state follows the ESC machine; R starts a reload only while playing, changing only the weapon state (position, rect, angle, hp, score and kills kept); otherwise the player is unchanged |

## Left out

- Rendering, fonts, the HUD, menus and particles: `_draw`, `_draw_game_world`, `draw`, `draw_health_bar` and `ParticleManager` have no effect on the simulation. The particle `emit` calls inside the collision passes are dropped.
- `run`, `_handle_events`, `_handle_click` and the QUIT event: the event loop and the UI buttons. `Game.HandleKey` and `Game.Update` are the entry points instead, and the mouse and keyboard state come from `Games.FrameInput`.
- The `running` flag and `STATE_*` screens' menu clicks: leaving the menu is only through `Game.StartGame`.
- `LevelManager.get_wave_text`: it only formats a string for the HUD.
- `all_sprites`: the group used for drawing only. `zombies` and `bullets` are kept as sequences in insertion order.
- Asset surfaces: `AssetManager.get` becomes the `hasAsset` parameter of obstacle generation. Sprite sizes are `PLAYER_SIZE` and each zombie type's `size` from the settings tables, and `BULLET_SIZE` = 6, the default `size` of `create_bullet_surface` (src/assets_manager.py:405, called at 486).
- Floating-point rounding: floats are real numbers.
- `math.hypot` and `math.sqrt`: every test on distances is compared on squares. Lemmas show this gives the same decision.
- Trigonometry and image rotation: `atan2`, `cos`/`sin`, the zombie's normalised wobble step and the rotated rect size are opaque functions of `Environment.Env`.
- Zombies.SpawnZombie: the polar offset `cos(angle)·dist`, `sin(angle)·dist` arrives as the drawn offset `(ox, oy)`. That its length lies in `[400, 800]` is not modelled.
- The wobble draws of a new zombie (`uniform(-0.5, 0.5)` and the phase) are inputs that the model keeps but does not constrain.
- The wall clock: `pygame.time.get_ticks()` is read several times per frame in the source. In the model one frame uses one `now`.
- Games.Game.Maneuver and Games.Game.Roam: these split a frame into parts to keep the proofs small. Their contracts keep only the session invariant; the parts they call state the effects.

## Design notes

- **Pass order.** Spawning runs after the player, camera, push-out, firing and bullet passes (src/main.py:174-200). The model keeps this order (`Game.Frame`).
- **Spawn refusal.** `should_spawn` refuses when the wave is inactive or between waves (src/level.py:45). Both flags are modelled (`Levels.SpawnGateRefusals`).
- **The `count <= 1` test.** `zombie.kill()` runs before `on_zombie_killed(len(self.zombies))` (src/main.py:233-234), so the count is taken after the removal. The model passes the post-removal count too. With the census invariant (`spawned - killed` equals the zombies alive), a count of exactly 1 together with all kills done cannot occur. The wave therefore completes exactly when the last zombie of a fully spawned wave dies (`Sessions.LastKillCompletesWave`). The `<= 1` allowance would matter only if the count were taken before the removal; as written it never decides anything, which is a redundancy, not a misbehaviour.
- **Push-out residue.** The push-out handles each obstacle once, in order, without re-checking earlier ones. `Obstacles.PushOutSeparates` is stated per obstacle, which matches this.
