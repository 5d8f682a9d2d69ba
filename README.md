# Sentaur Survivors: player and Starfish combat bookkeeping in Dafny

This project models the per-frame combat bookkeeping of the game's player
(`Assets/Scripts/Characters/Player.cs`) and of its orbiting Starfish weapon
(`Assets/Scripts/Projectiles/Starfish.cs`), and proves properties of it.

- `numeric.dfy` (`Numeric`): the C# `(int)` cast of a float as truncation
  toward zero, and sums of frame times.
- `timers.dfy` (`Timers`): the two timer shapes the player drives. One is a
  cooldown that fires and restarts at zero (Raven, Starfish). The other is a
  running timer that expires once (the skateboard and umbrella pickups, and a
  starfish's lifetime). Each has a one-frame step, a multi-frame run, and
  lemmas about the run.
- `player_rules.dfy` (`PlayerRules`): hit-point arithmetic after a hit and
  after healing, and the dart, Raven and Starfish gates, as pure functions.
- `starfish_rules.dfy` (`StarfishRules`): Starfish damage and cooldown, cohort
  spacing and starting angles, rotation, and the upgrade table.
- `weapons.dfy` (`Weapons`): class `World` holds the static fields of `Dart`,
  `Raven` and `Starfish`. These are shared mutable state in the game. It also
  holds the live starfish and the enemy hits they dealt. Its methods are
  `Starfish.Fire`, the per-instance `Start`, `Update` and `LateUpdate`,
  `OnTriggerEnter2D`/`DamageEnemy` and `UpgradeStarfish`. A starfish instance
  is a value (`Orbiter`) in `World.live`. A Unity callback on one instance
  becomes a `World` method that takes that instance's index.
- `player.dfy` (`PlayerModel`): class `Player` has the fields `Player.cs`
  updates in place. It refers to the `World`. Each method states the whole new
  state. The frame's time and the game manager's `IsPlaying` flag are
  parameters of `Update`.

Floats are `real`. Angles are degrees from the starting direction, to the
right of the player.

Behaviour of the code worth knowing:
- `TakeDamage` and `HealDamage` do not check whether the player is already
  dead.
- `HealDamage` caps at the literal 100, not at `_maxHitPoints`.
- The Starfish cohort's `IsActive` flag is cleared by the first starfish that
  expires, not by the last one.
- Cooldowns and pickups compare with a strict `>`. Frames whose total is
  exactly the threshold do not fire.
- Cohort spacing is integer division. Beyond 360 starfish, every starfish
  starts at the same angle.

A cohort size of zero makes `360 / n` raise a division by zero. The model
treats this as a fault: `Fire` returns `ok == false`. `Player.Update` then
ends the frame before the pickups, as the exception would.

## Model

| member | source | states |
|---|---|---|
| `Numeric.Trunc` | Assets/Scripts/Characters/Player.cs:242 | the `(int)` cast truncates toward zero: for x ≥ 0 the result is the largest whole number ≤ x; for x < 0 the smallest ≥ x |
| `PlayerRules.HitPointsAfterDamage` | Assets/Scripts/Characters/Player.cs:242-243 | hit points after a hit are never negative. They are 0 exactly when the mitigated damage is at least the hit points, and otherwise drop by exactly the mitigated damage |
| `PlayerRules.MitigationBounds` | Assets/Scripts/Characters/Player.cs:242-243 | with reduction in [0,1] and damage ≥ 0, the loss is between 0 and the raw damage. It is the whole raw damage at reduction 0 and nothing at reduction 1, so a hit never raises hit points |
| `PlayerRules.OverMitigationHeals` | Assets/Scripts/Characters/Player.cs:242-243 | a reduction above 1 makes the cast negative, so a hit adds hit points (10 damage at 1.5 takes 50 to 55) |
| `PlayerRules.DamageExamples` | Assets/Scripts/Characters/Player.cs:242-247 | 30 damage on 100 leaves 70. At reduction 0.5 it costs 15 (70 to 55). 1000 damage on 10 leaves 0, and a later hit on 0 stays 0 |
| `PlayerRules.HitPointsAfterHeal` | Assets/Scripts/Characters/Player.cs:262-263 | healed hit points never exceed 100 or hit points plus the amount, and equal one of the two |
| `PlayerRules.HealUndoesDamage` | Assets/Scripts/Characters/Player.cs:240-263 | healing by the mitigated damage restores the hit points before the hit. This holds when the hit did not kill and the start was at most 100 |
| `PlayerRules.KillingHitIsNotUndone` | Assets/Scripts/Characters/Player.cs:242-263 | the boundary case: a hit of 30 on 10 hit points leaves 0, and healing 30 then gives 30, not the 10 before the hit |
| `PlayerModel.HealPastConfiguredMaximum` | Assets/Scripts/Characters/Player.cs:260-263 | a player configured with a maximum of 50 and holding 40 hit points has 70 after `HealDamage(30)`, above its maximum, because the cap is the literal 100 |
| `PlayerRules.DartFrozenWhileShooting` | Assets/Scripts/Characters/Player.cs:146-151 | over any frames while a volley is being shot, the dart timer stays put and no volley is requested |
| `PlayerRules.DartAccumulatesWhenIdle` | Assets/Scripts/Characters/Player.cs:154-158 | when not shooting, the dart timer grows by exactly the frame times. No volley is requested while it stays at or below the cooldown |
| `PlayerRules.DartRequestsEveryFramePastCooldown` | Assets/Scripts/Characters/Player.cs:154-158 | the player never resets the dart timer. Past the cooldown, every frame requests a volley until the shooting flag rises |
| `PlayerRules.GatedWeaponsAreFrozen` | Assets/Scripts/Characters/Player.cs:163-191 | a summary of the two gate definitions: a disabled Raven, and a Starfish that is disabled or orbiting, neither move their timer nor fire. Otherwise the weapon takes one cooldown step |
| `PlayerRules.UnlockedStarfishFiresAfterOneSecond` | Assets/Scripts/Projectiles/Starfish.cs:99-103 | after unlocking presets the timer to cooldown − 1, the first cohort fires exactly once. It fires in the first frame that brings the elapsed total past one second |
| `PlayerRules.RefreshedPickupLasts` | Assets/Scripts/Characters/Player.cs:280-284 | a pickup just taken stays in force through frames totalling at most the duration |
| `PlayerRules.RefreshedPickupExpiresOnce` | Assets/Scripts/Characters/Player.cs:205-215 | after frames totalling more than the duration since the last pickup, the pickup has expired exactly once and its timer is stopped at 0, whatever the timer held before the refresh |
| `Timers.CooldownStepFiresOnCrossing` | Assets/Scripts/Characters/Player.cs:168-175 | a summary of the step definition: one frame fires exactly when the timer strictly exceeds the cooldown. Firing resets it to 0, dropping any excess, so an overshoot of several periods fires once |
| `Timers.CooldownQuietUntilCrossing` | Assets/Scripts/Characters/Player.cs:168-175 | while the total stays at or below the cooldown, no frame fires and the timer holds the total |
| `Timers.CooldownFiresOnceOnCrossing` | Assets/Scripts/Characters/Player.cs:168-175 | the frame that first takes the total past the cooldown fires. No other frame fires, and the timer ends at 0 |
| `Timers.CooldownExactTotalDoesNotFire` | Assets/Scripts/Characters/Player.cs:169 | frames whose total equals the cooldown exactly do not fire |
| `Timers.CooldownThreeFramesOfTwo` | Assets/Scripts/Characters/Player.cs:191-199 | with a cooldown of 5, frames of 2 and 2 leave 4 without firing. A third frame of 2 fires once and resets to 0 |
| `Timers.StoppedTimerIsFrozen` | Assets/Scripts/Characters/Player.cs:205-207 | a pickup that is not held never advances and never expires. So `SpeedUp`/`ReduceDamage` with a false flag cancel a pending expiry |
| `Timers.ExpiresAtMostOnce` | Assets/Scripts/Characters/Player.cs:205-229 | over any frames, a pickup timer expires at most once, so at most one `PickupExpired` per pickup |
| `Timers.RunningWithinLimit` | Assets/Scripts/Characters/Player.cs:205-209 | a held pickup whose total stays at or below the duration stays held, and its timer holds the total |
| `Timers.ExpiresOncePastLimit` | Assets/Scripts/Characters/Player.cs:205-215 | a held pickup that has not yet expired, and whose total then exceeds the duration, expires exactly once and stops at 0 |
| `StarfishRules.Damage` | Assets/Scripts/Projectiles/Starfish.cs:8 | for non-negative inputs, the damage is the whole part of base damage × damage percentage |
| `StarfishRules.Spacing` | Assets/Scripts/Projectiles/Starfish.cs:29 | for n > 0, the spacing is the largest whole number s with s·n ≤ 360 |
| `StarfishRules.Cohort` | Assets/Scripts/Projectiles/Starfish.cs:28-36 | one firing yields exactly n starfish. Number i has identifier i, the shared spacing, no elapsed time, and is not yet started |
| `StarfishRules.CohortStartAngles` | Assets/Scripts/Projectiles/Starfish.cs:28-51 | starfish i of a cohort of n has identifier i and starts at spacing × i degrees, a whole number in [0, 360) |
| `StarfishRules.CohortStartAnglesDistinct` | Assets/Scripts/Projectiles/Starfish.cs:29-50 | in a cohort of 1 to 360 starfish, the starting angles are pairwise different |
| `StarfishRules.LargeCohortsCoincide` | Assets/Scripts/Projectiles/Starfish.cs:29 | above 360 starfish the spacing is 0, and every starfish starts at angle 0 |
| `StarfishRules.CohortExamples` | Assets/Scripts/Projectiles/Starfish.cs:29-35 | a cohort of 4 starts at 0, 90, 180 and 270. A cohort of 7 is spaced 51 apart |
| `StarfishRules.SpinIsUniform` | Assets/Scripts/Projectiles/Starfish.cs:65-72 | after any frames, a starfish has turned by `DegreesPerFrame` × the total frame time |
| `StarfishRules.SpinKeepsSeparation` | Assets/Scripts/Projectiles/Starfish.cs:65-72 | two starfish rotated through the same frames keep the angle between them |
| `StarfishRules.UpgradePath` | Assets/Scripts/Projectiles/Starfish.cs:97-114 | levels 1, 2, 3 from the initial tuning unlock the weapon and preset the timer to cooldown − 1. They also give a 9-second lifetime, damage percentage 1.2 and a starting cooldown of 3.5 |
| `StarfishRules.DamagePercentageIsAssigned` | Assets/Scripts/Projectiles/Starfish.cs:104-108 | level 2 assigns the damage percentage 1.2 rather than scaling it. It scales the lifetime, so applying it twice gives ×1.44 |
| `StarfishRules.OtherLevelsChangeNothing` | Assets/Scripts/Projectiles/Starfish.cs:97-114 | a summary of the table's fall-through: any level other than 1, 2 or 3 leaves the tuning unchanged |
| `StarfishRules.Level3ShortensCooldown` | Assets/Scripts/Projectiles/Starfish.cs:109-112 | level 3 makes the cooldown (`BaseCooldownPercentage` × starting cooldown) 70% of what it was |
| `StarfishRules.Level2NeverLowersDamage` | Assets/Scripts/Projectiles/Starfish.cs:104-108 | from a damage percentage in [0, 1.2], level 2 never lowers the damage of a non-negative base damage |
| `Weapons.World.constructor` | Assets/Scripts/Projectiles/Starfish.cs:9-17 | the Starfish statics start at percentage 0.9, starting cooldown 5, lifetime 5, 180 degrees per second. It starts disabled and inactive with no extra starfish. The Dart and Raven cooldowns are given; nothing is promised about the Dart and Raven timers and flags |
| `Weapons.World.Fire` | Assets/Scripts/Projectiles/Starfish.cs:26-37 | a cohort size of 0 faults before spawning. A negative size spawns nothing. Otherwise exactly the cohort is appended to the live starfish and the prefab keeps the spacing and the last identifier |
| `Weapons.World.Start` | Assets/Scripts/Projectiles/Starfish.cs:39-52 | starting a starfish marks the cohort active and sets its angle to spacing × identifier. Every other starfish is unchanged |
| `Weapons.World.Update` | Assets/Scripts/Projectiles/Starfish.cs:55-63 | a starfish's time grows by the frame time. Strictly past `Duration`, that starfish alone is removed and `IsActive` becomes false; otherwise the flag is unchanged |
| `Weapons.World.LateUpdate` | Assets/Scripts/Projectiles/Starfish.cs:65-72 | one starfish turns by `DegreesPerFrame` × the frame time, and nothing else changes |
| `Weapons.World.OnTriggerEnter2D` | Assets/Scripts/Projectiles/Starfish.cs:74-89 | called for a live starfish only. Its touching an "Enemy" records exactly one hit of the current starfish damage on that enemy. A "Barrier" or any other tag deals nothing. No starfish is removed |
| `Weapons.World.DamageEnemy` | Assets/Scripts/Projectiles/Starfish.cs:92-95 | the enemy takes one hit of `Damage` |
| `Weapons.World.UpgradeStarfish` | Assets/Scripts/Projectiles/Starfish.cs:97-114 | the tuning becomes the upgrade table's entry for that level. Nothing outside the tuning changes |
| `PlayerModel.Player.constructor` | Assets/Scripts/Characters/Player.cs:21-62 | the serialized hit points, maximum, move rate, pickup duration and reduction are taken as given (declared as 100, 100, 2.5, 10 and 0). The player starts alive, with no pickups, both pickup timers at 0, base move rate 0 and no events |
| `PlayerModel.Player.Start` | Assets/Scripts/Characters/Player.cs:89-99 | the base move rate becomes the current one, and the dart timer is preset to its cooldown − 1 |
| `PlayerModel.Player.Update` | Assets/Scripts/Characters/Player.cs:102-142 | while dead or not playing, nothing changes and nothing fires. Otherwise the dart, Raven and Starfish timers take their steps. A Starfish firing spawns a cohort, and the pickups advance unless spawning faulted |
| `PlayerModel.Player.UpdateDarts` | Assets/Scripts/Characters/Player.cs:144-159 | the dart timer is frozen while shooting, else grows by the frame time. A volley is requested exactly when it then strictly exceeds the cooldown |
| `PlayerModel.Player.UpdateRavens` | Assets/Scripts/Characters/Player.cs:161-176 | a disabled Raven's timer is unchanged. An enabled one takes a cooldown step: it fires exactly on a strict crossing and then holds 0 |
| `PlayerModel.Player.UpdateStarfish` | Assets/Scripts/Characters/Player.cs:178-200 | the timer is unchanged while disabled or while a cohort is active, and otherwise takes a cooldown step. Firing calls `Fire` once, and only then do the live starfish change |
| `PlayerModel.Player.UpdatePickups` | Assets/Scripts/Characters/Player.cs:202-230 | each held pickup's timer takes an expiry step. On expiry the skateboard restores the base move rate, the umbrella sets the reduction to 0, and each publishes one `PickupExpired` |
| `PlayerModel.Player.TakeDamage` | Assets/Scripts/Characters/Player.cs:240-258 | hit points become those after the mitigated hit, floored at 0. The player is dead afterwards exactly when already dead or now at 0; a dead player is still hit |
| `PlayerModel.Player.HealDamage` | Assets/Scripts/Characters/Player.cs:260-269 | hit points become those after healing, capped at 100 whatever `maxHitPoints` is |
| `PlayerModel.Player.SpeedUp` | Assets/Scripts/Characters/Player.cs:271-285 | the move rate is overwritten and the skateboard flag set from the argument. Picking up restarts the timer at 0, so a refresh replaces rather than stacks; otherwise the timer keeps its value, stopped |
| `PlayerModel.Player.ReduceDamage` | Assets/Scripts/Characters/Player.cs:287-304 | the damage reduction is overwritten and the umbrella flag set from the argument. Picking up restarts the timer at 0; otherwise the timer keeps its value, stopped |

## Left out

- Input polling, rigid-body velocity, facing direction and animator parameters in `Player.Update` (Assets/Scripts/Characters/Player.cs:115-136): engine input and animation, not bookkeeping.
- Audio (the damage sound, the hit sound), the health-bar fraction and the floating text of `HealDamage`, `SpeedUp` and `ReduceDamage`: output to the user only.
- The `Dead` animator trigger, the 1.2-second wait and the later `PlayerDeath` event. Only the coroutine's immediate `_isDead = true` is modelled.
- `Dart.ShootDarts` and `Raven.Fire`: their code is not part of this model. A frame reports that it requested a dart volley or fired a Raven (`Shots`), and the dart shooting flag and cooldown stay whatever the host set.
- `ProjectileBase`: its code is not part of this model. `BaseDamage`, `BaseCount` and `BaseCooldownPercentage` are constructor parameters of `World`, and the Dart and Raven cooldowns are too.
- Object lookups, the `Instance` singleton, `Instantiate`/`Destroy` and parenting: engine plumbing. A spawned starfish is a value appended to `World.live`, and a destroyed one is removed from it at once.
- The initial values of `Dart.IsShooting`, `Dart.TimeElapsedSinceLastDart`, `Raven.IsEnabled` and `Raven.TimeElapsedSinceLastRaven`: they are set in code that is not part of this model, so `World`'s constructor leaves them unconstrained.
- Inspector overrides of the player's serialized fields: `Player`'s constructor takes their values as parameters, so any scene's values are covered, but the model does not know which values a scene uses.
- `Physics2D.IgnoreCollision` for barriers and the vector geometry of `RotateAround`: angles are reals in degrees, and positions are not modelled.
- `EventManager`: only the sequence of `PickupExpired` events the player publishes is kept.
- IEEE float rounding: times, rates and multipliers are exact reals.
- `PlayerModel.Player.TakeDamage`: does not model 32-bit `int` overflow or an out-of-range float-to-int cast; integers are unbounded.
- `PlayerModel.Player.HealDamage`: does not model 32-bit `int` overflow; integers are unbounded.
