# Pulse Arena — a Dafny model of the game core

Pulse Arena is a top-down arena shooter. One player moves with the keyboard,
aims with the mouse and fires one of five weapons (rifle, SMG, shotgun,
charged railgun, burst rifle) at waves of enemies. There are seven enemy
kinds (rusher, shooter, tank, hunter, sniper, swarm, support), each with its
own steering rule. Every fifth wave brings a boss. The end of each wave
offers three upgrades drawn from a pool of seven. Kills build a combo that
multiplies the score. Killed enemies may drop power-ups (health, damage
boost, speed boost, shield, ammo). When the player dies, the run's figures
are committed once to a persistent profile of personal bests.

This project models the game logic of one frame and of the systems it drives:
- the player, enemy, enemy-bullet and power-up entities;
- the weapon system (fire-rate gate, burst queue, railgun charge, shotgun
  spread, cone ray-cast);
- the combat system (damage, criticals, combo, kill score, lifesteal,
  power-up drops);
- the collision pass; the spawner and the wave manager;
- the upgrade pool and its effects;
- the stats tracker;
- the game manager's frame loop, reload and restart.

Module layout:

| module | file | models |
|---|---|---|
| `Common` | common.dfy | Option, clamping, Python's `int()` truncation, countdowns, `list.remove`, filtered copies |
| `Powerups` | powerup.dfy | entities/powerup.py |
| `Bullets` | bullet.dfy | entities/bullet.py |
| `Players` | player.dfy | entities/player.py |
| `Enemies` | enemy.dfy | entities/enemy.py |
| `UpgradePool` | upgrade_pool.dfy | the pool, `roll_upgrades` and the effect formulas of systems/upgrade_system.py |
| `WorldState` | world.dfy | the plain data fields of core/game_manager.py's `GameManager` |
| `Stats` | stats_tracker.dfy | core/stats_tracker.py |
| `Combat` | combat.dfy | systems/combat.py |
| `Weapons` | weapon_system.dfy | systems/weapon_system.py |
| `Collisions` | collision.dfy | systems/collision.py |
| `Spawner` | spawner.dfy | systems/spawner.py |
| `Waves` | wave_manager.dfy | systems/wave_manager.py, driven by core/modes/survival_mode.py |
| `UpgradeSystem` | upgrade_system.dfy | `apply_upgrade` of systems/upgrade_system.py |
| `Game` | game_manager.dfy | `GameManager.__init__`, `update`, `reload` and `restart` |

The Python `GameManager` is both the store of the game's data and the
caller of every subsystem, and each subsystem takes the whole game as its
argument. Dafny modules cannot import each other in a cycle, so the data
fields live in the class `WorldState.World`. The subsystems take that
`World` (plus the other objects they change) as parameters. `Game.GameManager`
owns a `World`, a `WeaponSystem`, a `CombatSystem` and a `StatsTracker`.

Entities and subsystems whose fields the source updates in place are classes.
Their methods carry `modifies` frames naming the fields they may change:
- The entity and subsystem methods state the new value of each field they
  change, except where "Left out" says otherwise (the shotgun's summed kill
  effects, the enemy's laser target and state timer).
- The frame-level methods of `Game.GameManager` state less. "Left out" names
  what each of them leaves to the members it calls.
- Removing from a list is modelled as assigning the filtered list. `RemoveWhere`
  is the filter used by loops over a copy of a list; `RemoveFirst` is the
  filter used by `list.remove`.
- The enemy, bullet and power-up lists hold distinct objects. That is part of
  the world's invariant.

Randomness, geometry and wall-clock time are inputs:
- each random roll is a parameter;
- the angle, distance and unit vector the source computes with
  `atan2`/`hypot` are parameters;
- overlap tests are parameters;
- the millisecond clock is a parameter.

Fractional quantities are fixed-point integers:
- the damage boost is in thousandths (`BOOST_ONE = 1000`);
- the critical chance is in hundredths.

In these places the model follows the code literally:
- A sniper that is cooling down strafes without resetting its aim timer.
- The kill score is truncated with `int()`, not rounded.
- Player and enemy health is not clamped at zero.
- The Rapid Fire upgrade changes the shared rifle preset. A restart keeps the
  reduced fire rate (`Game.GameManager.Restart` states this).

## Model

| member | source | states |
|---|---|---|
| Common.ClampR | entities/player.py:67-68 | the clamped value lies in [lo, hi]; a value already inside is unchanged |
| Common.TruncDiv | systems/combat.py:159-160 | Python's `int(n / d)`: the quotient truncated toward zero, bounded on both sides for either sign of n |
| Common.TickDown | entities/enemy.py:113-120 | a guarded countdown never goes below zero from a non-negative start; it decreases by exactly one or stays put, and stays put exactly when it is not positive |
| Common.RemoveFirst | systems/combat.py:177 | `list.remove`: the result is one shorter and its multiset is the input's minus one copy of x |
| Common.RemoveFirstDistinct | systems/combat.py:177 | removing from a list of distinct objects removes the object entirely and keeps the rest distinct |
| Common.RemoveWhereMembers | systems/collision.py:32-39 | filtering a copy of a list keeps exactly the entries the test does not select |
| Common.RemoveWhereDistinct | systems/collision.py:41-58 | filtering a list of distinct objects keeps them distinct |
| Common.RemoveFirstMembers | systems/combat.py:177 | in a list of distinct objects, removing x leaves exactly the other elements |
| Powerups.Powerup.constructor | entities/powerup.py:16-30 | a new power-up sits at the given point with size 25, a lifetime of 600 ticks, a colour for every kind, and is not expired |
| Powerups.Powerup.Update | entities/powerup.py:32-34 | each tick takes one from the lifetime and advances the pulse phase by 0.1 |
| Powerups.Powerup.IsExpired | entities/powerup.py:66-67 | expired exactly when no lifetime is left; a fresh power-up (lifetime 600) is not |
| Powerups.LifetimeCountsDown | entities/powerup.py:32-34 | n updates take exactly n ticks off the lifetime |
| Powerups.PowerupLasts | entities/powerup.py:66-67 | a power-up with t ticks of lifetime is expired after n updates iff n >= t; a fresh one (600) expires on exactly the 600th update |
| Powerups.Powerup.GetRect | entities/powerup.py:58-64 | the pick-up rectangle is a square of side twice the size, centred on the power-up |
| Bullets.EnemyBullet.constructor | entities/bullet.py:7-14 | a bullet starts at its origin with its direction, radius and speed |
| Bullets.EnemyBullet.Update | entities/bullet.py:16-18 | one tick moves the bullet by speed times its direction |
| Bullets.EnemyBullet.IsOffScreen | entities/bullet.py:29-35 | a bullet on the screen is never off-screen, one more than 50 beyond any edge always is, and an off-screen bullet lies outside the screen |
| Players.TimedEffectLasts | entities/player.py:75-78 | a timed effect (damage boost, shield) keeps its value for exactly its timer's number of ticks, then falls back to the default with the timer at zero |
| Players.ExpiredEffectStays | entities/player.py:75-78 | an expired effect stays expired |
| Players.InvulnerabilityLasts | entities/player.py:70-73 | after a hit, the invulnerability window is open for exactly the first t ticks |
| Players.ClosedWindowStays | entities/player.py:70-73 | a closed invulnerability window stays closed and its timer is untouched |
| Players.Player.constructor | entities/player.py:29-55 | the initial player: 100 health, base speed, no boosts, no shield, base crit chance, no lifesteal, no dash |
| Players.Displacement | entities/player.py:58-65 | each axis moves by the speed toward the one key held on it, and not at all when both or neither of its keys are held |
| Players.Player.Update | entities/player.py:57-92 | the player moves by the key displacement and is clamped to the arena; every timer ticks as the timed-effect functions say; speed is 1.5 times base exactly while the speed boost was running |
| Players.Player.Move | entities/player.py:58-68 | the position after the key displacement, clamped to [0, width - size] by [0, height - size] |
| Players.Player.TickTimers | entities/player.py:70-92 | invulnerability, damage boost, shield, speed boost and damage indicator each advance by one tick of their rule |
| Players.Player.TakeDamage | entities/player.py:94-107 | the Struck rule: damage is accepted iff there is no shield and no invulnerability; a shield absorbs the hit, is consumed and its timer zeroed; an accepted hit subtracts the amount, opens a 30-tick invulnerability window and a 30-tick damage indicator, and records the direction; a refused hit changes nothing else |
| Players.Player.ApplyPowerup | entities/player.py:109-119 | the Powered rule: health heals 30 capped at max health; the damage boost is set to 2.0 for 300 ticks; speed boost and shield last 300 ticks; ammo leaves the player unchanged; nothing else changes |
| Players.Player.IsAlive | entities/player.py:187-188 | alive iff at least one health point is left; a player at full health is alive |
| Players.StruckAllOnce | entities/player.py:94-107 | from any starting state, a window partly run down included, in one series of blows (one collision pass) at most one gets through (an invulnerable player loses nothing): health drops by exactly one blow's amount or not at all; after a blow got through the 30-tick window and indicator are full; the player ends invulnerable iff it was or a blow got through |
| Players.StruckAllHurts | entities/player.py:94-107 | a series of blows gets through iff the player was vulnerable and there were more blows than an active shield absorbs (one); after any blow the shield is down |
| Players.PoweredAllHealth | entities/player.py:110-111 | health pickups in one batch add 30 each, capped at max health |
| Players.PoweredAllBoost | entities/player.py:112-114 | after a batch holding a damage pickup the boost is 2.0; without one it is unchanged |
| Players.PoweredAllShield | entities/player.py:117-119 | after a batch the shield is on iff it was on or a shield was picked |
| Players.PoweredAllKeepsHits | entities/player.py:109-119 | pickups never change the invulnerability window or the damage indicator |
| Enemies.ScaledHealth | entities/enemy.py:59-62 | health scales by 10% per wave, truncated, never below the base |
| Enemies.CycleCounts | entities/enemy.py:377-381 | a cyclic counter fires once every `period` ticks: over n ticks the count of firings and the final counter are given exactly |
| Enemies.ShooterMode | entities/enemy.py:265-270 | a shooter chases beyond 200, retreats within 150 and strafes in between, each iff |
| Enemies.SniperMode | entities/enemy.py:331-350 | a sniper chases beyond 350; within range it strafes while cooling down and aims otherwise, each iff |
| Enemies.SupportMode | entities/enemy.py:366-375 | a support keeps away within 250 and chases otherwise, each iff |
| Enemies.Enemy.constructor | entities/enemy.py:44-84 | a new enemy takes its kind's stats, its speed grows 0.08 per wave, its health is the wave-scaled health, and all timers start at zero in the chase state |
| Enemies.Enemy.IsAlive | entities/enemy.py:256-257 | alive iff at least one health point is left; an enemy at full health is alive |
| Enemies.EffectiveSpeed | entities/enemy.py:123 | 70% of the speed while the slow timer runs, the full speed otherwise, so never faster than the speed |
| Enemies.Enemy.TakeDamage | entities/enemy.py:152-156 | a hit subtracts the amount, flashes, slows, and reports lethal iff the enemy is no longer alive |
| Enemies.Enemy.Update | entities/enemy.py:90-150 | one enemy tick (Stepped): the four timers count down; the kind's AI moves the enemy by the movement rule at the slowed speed; the position is clamped to [-size, width] by [-size, height]; a direction is returned exactly when it fires, and it is the perceived direction toward the player; only a support changes other enemies' health; the counters of the other kinds' AIs (strafe direction, flank side and timer, aim timer, heal tick) are kept |
| Enemies.Enemy.TickTimers | entities/enemy.py:113-120 | the four cooldown and effect timers each count down once |
| Enemies.Enemy.Act | entities/enemy.py:128-144 | dispatch by kind: shooter, sniper, hunter and support follow their AI; rusher, tank and swarm only chase and never fire; only a support changes other enemies' health; each kind changes only its own AI counters |
| Enemies.Enemy.AiDirect | entities/enemy.py:141-144 | rushers, tanks and swarmers move straight toward the player by the effective speed |
| Enemies.Enemy.AiShooter | entities/enemy.py:263-290 | the shooter picks its mode by distance, moves accordingly, may flip its strafe direction while strafing, and fires iff its cooldown has run out and the player is within 400, restarting a 90-tick cooldown |
| Enemies.Enemy.AiHunter | entities/enemy.py:292-325 | the hunter flanks toward the predicted position and switches flank side on its timer; it never fires |
| Enemies.Enemy.AiSniper | entities/enemy.py:327-360 | the sniper chases, strafes or aims; while strafing it keeps its aim timer; it fires on the 60th aim tick and then starts a 120-tick cooldown |
| Enemies.Enemy.AiSupport | entities/enemy.py:362-389 | the support keeps its distance and, every 60th tick, heals every other enemy within 120 by 2, capped at its max health |
| Enemies.Enemy.HealPulse | entities/enemy.py:383-389 | one heal pulse: every other enemy within 120 gets min(max health, health + 2); the support itself and enemies out of reach are unchanged |
| WorldState.World.constructor | core/game_manager.py:22-58 | Initial: a fresh player (entities/player.py:29-55) centred (top-left at width // 2 - 22, height // 2 - 22) at 100 health and base speed, with no damage or speed boost, no shield, no invulnerability window, no damage indicator, the dash locked with no cooldown, base crit chance and no lifesteal; no enemies, bullets or power-ups, wave 1, score and kills 0, the rifle's full magazine and reload time, no reload, the mouse at the centre, spawn interval 120, five enemies per wave, nothing spawned, playing, no shake, no upgrade offer |
| UpgradePool.PoolIsComplete | systems/upgrade_system.py:9-60 | the pool holds each of the seven upgrades exactly once |
| UpgradePool.RollUpgrades | systems/upgrade_system.py:63-65 | `random.sample`: min(n, 7) distinct upgrades from the pool |
| UpgradePool.SurgedBoost | systems/upgrade_system.py:11-16 | Damage Surge: the boost times 1.15, rounded to the nearest thousandth, never smaller for a non-negative boost |
| UpgradePool.LoadedReloadTime | systems/upgrade_system.py:18-24 | Speed Loader: the reload time times 0.75, truncated, strictly smaller when positive |
| UpgradePool.RapidFireRate | systems/upgrade_system.py:52-59 | Rapid Fire: the fire rate times 0.9, truncated, floored at 1, strictly smaller when at least 2 |
| UpgradePool.RapidFireBottomsOut | systems/upgrade_system.py:52-59 | repeated Rapid Fire never drops below 1 and reaches 1 after at most fire_rate - 1 picks |
| Stats.MergeDefaults | core/stats_tracker.py:59-62 | the `setdefault` merge keeps every loaded key's value and adds exactly the missing default keys at their defaults |
| Stats.Commit | core/stats_tracker.py:37-42 | committing a run adds one game and the run's kills and raises each best to the run's figure when larger, keeping other keys |
| Stats.CommitAllCounts | core/stats_tracker.py:37-42 | over any series of runs, games played grows by the number of runs and total kills by their sum |
| Stats.CommitAllBests | core/stats_tracker.py:37-42 | over any series of runs the bests never decrease and end at least as large as every run's figures |
| Stats.StatsTracker.constructor | core/stats_tracker.py:54-65 | LoadedFrom: the defaults without a file; with one, every key of the file keeps its value and exactly the missing default keys are added at their defaults; the guard starts clear |
| Stats.StatsTracker.CommitRun | core/stats_tracker.py:27-44 | the first commit after a reset applies the run and sets the guard; a second commit changes nothing |
| Stats.StatsTracker.ResetGuard | core/stats_tracker.py:46-48 | the guard is cleared and the profile is kept |
| Combat.DropsPowerup | systems/combat.py:192 | of the rolls in [0, 1), exactly those below 0.3 drop a power-up |
| Combat.IsCritical | systems/combat.py:125 | a roll in [0, 1) is always critical at 100% chance and never at 0% |
| Combat.HitDamage | systems/combat.py:121-127 | damage is base times boost, truncated, and doubled on a critical |
| Combat.HitDamageMonotone | systems/combat.py:121-127 | a larger damage boost never yields less damage |
| Combat.KillScore | systems/combat.py:158-160 | the kill score is the enemy's value times (1 + 0.1 x combo), truncated, at least the base value |
| Combat.KillScoreGrowsWithCombo | systems/combat.py:158-160 | a longer combo never yields a smaller kill score |
| Combat.Lifesteal | systems/combat.py:163-164 | lifesteal heals by the amount, capped at max health, and never lowers health that was within max |
| Combat.ComboExpires | systems/combat.py:79-82 | a combo lasts exactly its timer's number of ticks, then resets to zero |
| Combat.NoComboStays | systems/combat.py:79-82 | without a combo the state stays put |
| Combat.CombatSystem.constructor | systems/combat.py:28-32 | combat starts with no combo and no feedback timers running |
| Combat.CombatSystem.Update | systems/combat.py:77-88 | the combo ticks by the combo rule; hit-marker and screen-flash timers count down |
| Combat.CombatSystem.ApplyHit | systems/combat.py:117-148 | HitResolved: the enemy loses base damage times boost, truncated and doubled on a critical, then flashes and slows; a lethal hit runs the kill (one more kill, combo + 1 with a 180-tick timer, the combo-scaled score, lifesteal, a drop on a successful roll at the enemy's centre, the enemy removed, shake 6); a survived hit changes only the shake; the hit-marker and screen flash start either way; the result says whether the hit was lethal |
| Combat.CombatSystem.Feedback | systems/combat.py:146-148 | every hit, lethal or not, sets the hit-marker to 10 ticks and the screen flash to 5 |
| Combat.CombatSystem.OnKill | systems/combat.py:150-178 | a kill adds one kill and the combo-scaled score, extends the combo, heals by lifesteal, removes the enemy, shakes the screen, and adds a power-up exactly when the drop roll succeeds |
| Weapons.Weapon.constructor | systems/weapon_system.py:21-49 | a weapon preset carries its given stats |
| Weapons.Raycast | systems/weapon_system.py:232-255 | the hit is the nearest enemy inside the cone, or none when no enemy is inside |
| Weapons.WeaponSystem.constructor | systems/weapon_system.py:68-78 | the weapon system starts on the given weapon with no charge, no burst and no shot |
| Weapons.WeaponSystem.GetChargePct | systems/weapon_system.py:157-161 | the charge fraction is charge held over charge frames, 0 for uncharged weapons, always within [0, 1] |
| Weapons.WeaponSystem.Equip | systems/weapon_system.py:84-93 | equipping resets charge and burst and refills ammo, max ammo and reload time from the weapon, cancelling a reload |
| Weapons.WeaponSystem.Update | systems/weapon_system.py:95-107 | BurstTicked: a running burst counts its tick down; when the tick reaches zero with ammo and no reload, one shot fires (queue - 1, tick back to the interval, one ammo, the shot time, the closest enemy in the 0.1 rad cone hit as HitResolved says, every other enemy untouched); otherwise nothing is hit and ammo is kept; the crosshair spread then decays by one |
| Weapons.WeaponSystem.HandleShoot | systems/weapon_system.py:109-151 | the mouse position is stored, then Pulled: while reloading or empty nothing else changes (the weapon state, ammo, every enemy, the player and combat are as they were); the railgun Charged; any other weapon Triggered |
| Weapons.WeaponSystem.Pull | systems/weapon_system.py:117-151 | Pulled: the reload or empty magazine guard, then the railgun branch or the fire-rate branch |
| Weapons.WeaponSystem.Charge | systems/weapon_system.py:123-131 | Charged: while held the charge grows by one up to the charge frames and nothing fires; on release a full charge fires the railgun shot and a partial one fires nothing; the charge then restarts from 0 |
| Weapons.WeaponSystem.Trigger | systems/weapon_system.py:133-151 | Triggered: before the fire rate allows the next shot nothing changes; the burst rifle fires one shot and queues burstCount - 1 more when no burst runs, and does nothing while one runs; the shotgun fires a blast (VolleyResolved) for one ammo with spread 14; any other weapon fires one shot |
| Weapons.WeaponSystem.FireSingle | systems/weapon_system.py:167-180 | Shot: one ammo spent, the shot time and spread 8 set, and RayResolved: the closest enemy in the 0.1 rad cone takes the hit as HitResolved says and every other enemy is untouched; with no enemy in the cone nothing is hit and the lists, score, player and combat are unchanged |
| Weapons.WeaponSystem.FireBurstShot | systems/weapon_system.py:98-103 | a queued burst shot: the given queue and a tick of burstInterval, then the same Shot as a single shot |
| Weapons.WeaponSystem.FireRay | systems/weapon_system.py:176-180 | RayResolved for ray 0 of the aim in the given cone with the current weapon's damage |
| Weapons.WeaponSystem.FireRailgun | systems/weapon_system.py:208-226 | Shot with the 0.05 rad cone and no crosshair spread: one ammo, the shot time, and the closest enemy in that cone hit as HitResolved says, every other enemy untouched |
| Weapons.WeaponSystem.FireShotgun | systems/weapon_system.py:182-206 | one ammo, the shot time, spread 14, then VolleyResolved over spreadCount rays: each ray is cast over the list the earlier rays left and picks its closest enemy in the 0.1 rad cone; each enemy picked a first time loses one hit's damage, flashes and slows; an enemy leaves the list iff such a hit killed it; each kill is counted; unpicked enemies are untouched; the hits are distinct and no more than the rays |
| Weapons.WeaponSystem.Blast | systems/weapon_system.py:197-206 | VolleyResolved for the given number of rays; the hits are distinct and no more than the rays |
| Weapons.WeaponSystem.BlastNext | systems/weapon_system.py:198-206 | one more ray extends the per-ray record by the list it left, and keeps the hits equal to the first-time picks and the blast state |
| Weapons.WeaponSystem.BlastRay | systems/weapon_system.py:199-206 | ray i picks the closest in-cone enemy of the list as it stands; the hits grow by that enemy iff it was not hit before in the blast |
| Weapons.WeaponSystem.BlastHit | systems/weapon_system.py:204-206 | a first-time hit: the enemy loses one hit's damage and leaves the list only when that kills it |
| Weapons.FirstHits | systems/weapon_system.py:197-205 | a blast never hits more enemies than it has rays |
| Weapons.FirstHitsExact | systems/weapon_system.py:197-205 | the hits hold every picked enemy exactly once and nothing else |
| Collisions.CheckCollisions | systems/collision.py:6-58 | enemies stay; exactly the struck bullets and picked power-ups are removed, the rest kept in order; the player's Vitals are the contact blows, then the bullet blows (StruckAll), then the picked power-ups (PoweredAll), each in list order; hurt iff a blow got through, and only then the combo is 0; the shake is 8 if a bullet hurt, else 12 if a contact hurt, else unchanged; ammo refills iff an ammo power-up was picked |
| Collisions.DamagePasses | systems/collision.py:10-39 | contacts, then bullets: the player's Vitals are both series of blows folded in order; hurt iff either pass hurt; the struck bullets are removed |
| Collisions.ContactPass | systems/collision.py:10-30 | the touching enemies' blows (their damage, from the player's centre toward theirs) are taken in list order; hurt iff one got through; only then the combo is 0 and the shake 12 |
| Collisions.BulletPass | systems/collision.py:32-39 | the struck bullets' blows (8 damage, along their flight) are taken in list order; every struck bullet is removed whether or not it hurt, the others kept in order; a hurt resets the combo and shakes by 8 |
| Collisions.PickupPass | systems/collision.py:41-58 | the picked power-ups are applied in list order (PoweredAll) and removed, the rest kept in order; ammo refills iff an ammo power-up was picked |
| Collisions.Hurt | systems/collision.py:19-21 | the blow follows the Struck rule; only an accepted blow shakes the screen and resets the combo |
| Collisions.NextBlow | systems/collision.py:36-38 | one more blow of a pass keeps the player's Vitals and the hurt flag equal to StruckAll one blow further |
| Collisions.Pickup | systems/collision.py:43-46 | the power-up's Powered effect on the player; ammo refills exactly for an ammo power-up |
| Collisions.NextPickup | systems/collision.py:43-46 | one more pickup keeps the player's Vitals equal to PoweredAll one kind further and the magazine full iff an ammo kind was among them |
| Collisions.PickedAmmo | systems/collision.py:45-46 | an ammo kind is among the picked kinds iff some overlapping power-up is an ammo pick-up |
| Collisions.ContactBlows | systems/collision.py:10-17 | at most one blow per enemy, in list order |
| Collisions.BulletBlows | systems/collision.py:32-36 | at most one blow per bullet, in list order |
| Collisions.PickedKinds | systems/collision.py:41-43 | at most one kind per power-up, in list order |
| Spawner.TierTypes | systems/spawner.py:10-35 | rushers and shooters always; hunters and tanks from wave 5; snipers and swarms from wave 8; supports from wave 11; no kind twice |
| Spawner.TierWeights | systems/spawner.py:10-35 | one weight per enemy kind of the tier |
| Spawner.TiersAreWellFormed | systems/spawner.py:10-35 | every tier's weights are positive and sum to 100 |
| Spawner.PickIndexInSlice | systems/spawner.py:12-16 | the weighted pick returns the kind whose cumulative-weight slice holds the roll |
| Spawner.EveryWeightReachable | systems/spawner.py:10-35 | every kind of a tier is picked by some roll |
| Spawner.ChooseType | systems/spawner.py:10-35 | the chosen kind belongs to the wave's tier |
| Spawner.EarlyWavesAreBasic | systems/spawner.py:12-16 | up to wave 4, a roll below 0.6 gives a rusher and any other a shooter |
| Spawner.SpawnPoint | systems/spawner.py:37-50 | the spawn point lies 50 pixels beyond the chosen edge |
| Spawner.SpawnIsOffScreen | systems/spawner.py:37-50 | every spawn point lies outside the visible arena |
| Spawner.SpawnEnemy | systems/spawner.py:7-53 | Spawned: exactly one fresh enemy is appended, of the kind the roll picks from the wave's tier, for the current wave, at the chosen edge point, with the wave-scaled health as health and max health, chasing; the wave's spawn count grows by one |
| Waves.NextInterval | systems/wave_manager.py:11 | the spawn interval shrinks by 3 per wave but never below 60 |
| Waves.IntervalAfterWaves | systems/wave_manager.py:11 | after n waves the interval is max(60, interval - 3n) |
| Waves.NextWave | systems/wave_manager.py:7-24 | WaveStarted: the wave grows by one, the quota by 2, the spawned count resets, the interval becomes max(60, interval - 3); on a multiple of five the boss is appended, otherwise the enemies are unchanged; three distinct upgrades are offered, the hover resets and play pauses for the choice |
| Waves.SpawnBoss | systems/wave_manager.py:14-19 | the boss is a fresh tank of the current wave whose top-left corner is at x = width // 2 and y = -100, with twice the wave-scaled tank health as health and max health and size 70 |
| Waves.HandleSpawning | systems/wave_manager.py:27-35 | the spawn timer counts up; below the interval nothing else changes; once due (SpawnDue) one enemy spawns while the quota is not met, else an empty arena starts the next wave, else only the timer has counted; the timer resets exactly on a spawn or a new wave; the quota, interval, offer and hover change only with a new wave |
| Waves.Spawn | systems/wave_manager.py:29-35 | SpawnDue for the timer as it stands |
| Waves.SpawnOne | systems/wave_manager.py:30-32 | below quota: one enemy Spawned and the timer reset |
| Waves.StartWave | systems/wave_manager.py:33-35 | quota met and arena clear: WaveStarted and the timer reset |
| UpgradeSystem.ApplyUpgrade | systems/upgrade_system.py:68-71 | each upgrade changes exactly its own stat by its formula, and no other stat |
| Game.GameManager.constructor | core/game_manager.py:22-70 | the world is Initial for the rifle (a fresh player with every effect timer at 0 and the dash locked, quota 5, interval 120, wave 1, full magazine, playing); the rifle is equipped with no charge, no burst, no shot and no spread; combat is at rest; the profile is LoadedFrom the parsed file and the guard is clear |
| Game.GameManager.Restart | core/game_manager.py:147-151 | a fresh world (Initial: the player back at full health and base speed, the dash locked, every boost, shield, window and indicator timer at 0), weapon system and combat state exactly as at construction; the same stats tracker keeps its profile with the guard cleared; a fire rate lowered by Rapid Fire stays lowered |
| Game.GameManager.Reload | core/game_manager.py:72-75 | a reload starts, with the clock stamped, only when not reloading and ammo is short |
| Game.GameManager.FinishReload | core/game_manager.py:84-87 | a running reload finishes and refills ammo once the reload time has elapsed |
| Game.GameManager.UpdateEnemies | core/game_manager.py:95-107 | every enemy takes its turn; at most one fresh bullet per enemy is appended; no shooter or sniper means no new bullet |
| Game.GameManager.EnemyTurn | core/game_manager.py:96-107 | the enemy's tick follows Enemy.Stepped over the whole enemy list; a bullet is made iff it fires; the bullet is fresh, appended last, starts at the enemy's centre after its move and flies along the fired direction; otherwise the bullets are unchanged; the other kinds' AI counters are kept |
| Game.GameManager.Fire | core/game_manager.py:99-107 | a fresh bullet from the given origin along the given direction is appended to the enemy bullets |
| Game.GameManager.UpdateBullets | core/game_manager.py:110-113 | every bullet advances; exactly the off-screen ones are dropped |
| Game.GameManager.UpdatePowerups | core/game_manager.py:115-118 | every power-up ages one tick; exactly the expired ones are dropped |
| Game.GameManager.CheckGameOver | core/game_manager.py:139-142 | the game ends exactly when the player has died, and the run is then committed once |
| Game.GameManager.Update | core/game_manager.py:77-145 | outside play nothing changes (the world, the player, the weapon system, combat, the profile, and every enemy, bullet and power-up); in play the game is over iff the player is dead, the run is committed once at game over and the profile is otherwise untouched, and a running reload ends exactly when its time has elapsed |
| Game.GameManager.Play | core/game_manager.py:89-137 | movement, spawning, collisions, weapon and combat keep the game consistent and never end it |
| Game.GameManager.EndFrame | core/game_manager.py:139-145 | after the frame the game is over iff the player is dead; otherwise the state and the profile are unchanged |
| Game.GameManager.TickShake | core/game_manager.py:144-145 | the screen shake counts down once and the run's figures are kept |
| Game.GameManager.Advance | core/game_manager.py:89-130 | movement and spawning keep the game consistent, never end it, keep the reload flag, and only append fresh enemies to the list |
| Game.GameManager.Move | core/game_manager.py:89-118 | player, enemy, bullet and power-up updates keep the game consistent |
| Game.GameManager.Resolve | core/game_manager.py:131-137 | collisions, weapon and combat keep the game consistent and do not change the run state |
| Game.GameManager.Collide | core/game_manager.py:131 | the collision pass keeps the game consistent and keeps the run state and reload flag |
| Game.GameManager.TickWeapons | core/game_manager.py:133-137 | the weapon tick and the combat timers keep the game consistent and keep the run state and reload flag |

## Left out

- Rendering, sound, the HUD, menus, particles, damage numbers and the crosshair are not modelled. They only read the game state.
- The event bus is not modelled. `apply_upgrade`'s emit is left out with it.
- main.py's input handling is not modelled. Neither is its upgrade-menu glue that calls `apply_upgrade` with the chosen offer.
- The JSON data files are not modelled. Enemy stats and weapon presets are parameters: `catalog` and the `Weapon` objects. core/data_loader.py is not part of this model.
- The stats tracker's file is modelled only as an input. The parsed file contents are a parameter, or `None` when it is missing or unreadable. `_save` and all file I/O are left out.
- Floating point is left out. The damage boost and the crit chance are fixed-point integers. Positions, speeds and distances are reals.
- Trigonometry and square roots are left out. Angles, distances, unit vectors and overlap tests are inputs computed outside the model.
- Randomness is left out. Rolls are parameters with their documented ranges.
- Combat.HitDamage: truncates the exact product base × boost / 1000, while Python truncates a binary-float product that can fall just below the integer. For example, `int(20 * 1.15)` is 22 in Python, but the model gives 23.
- Enemies.ScaledHealth and Combat.KillScore: truncate the exact product (× (10 + n) / 10). Python truncates a binary-float product that can fall just below the integer. For example, `int(45 * (1 + 4 * 0.1))` is 62 in Python, but both model functions give 63 for (45, 4).
- UpgradePool.SurgedBoost: rounds a boost to the nearest thousandth and allows either neighbour at an exact half. It does not model Python's round-half-even on binary floats.
- The player list is modelled as a single player. The source keeps a list but always creates one player.
- Enemies.Enemy.Update: the laser target is not modelled. It is only drawn.
- Enemies.Enemy.Update: the state timer is not modelled. It is only set and never read.
- Players.Player.Update: the dash cooldown is kept as a field but the dash itself is not modelled. It lives in main.py's input handling.
- `CombatSystem.handle_shoot` and `_find_hit_enemy` in systems/combat.py are not modelled. The game never calls them; firing goes through the weapon system.
- Removals are modelled as reassigning the filtered list rather than deleting in place. Every list holds distinct objects, so the two agree.
- Game.GameManager.UpdateBullets: states which bullets remain, not their order.
- Game.GameManager.UpdatePowerups: states which power-ups remain, not their order.
- Game.GameManager.Move: states only that the game stays consistent. Each sub-step's own contract gives the detail.
- Game.GameManager.Play: states only consistency, that the game does not end, and that a running reload is untouched. The effects of each phase are stated by the phase members.
- Game.GameManager.Resolve: states only consistency and that the run state and reload flag are kept. The effects are stated by Collisions.CheckCollisions, Weapons.WeaponSystem.Update and Combat.CombatSystem.Update. Trigger pulls (`handle_shoot`) come from main.py's input loop, which is not modelled.
- Game.GameManager.UpdateEnemies: each enemy's tick uses the whole enemy list as its neighbours, as the source does. The inputs computed from geometry are given per enemy.
- Game.GameManager.UpdateEnemies: does not state each enemy's fields after the loop. A support later in the list can heal an enemy that already had its turn, so each enemy's tick is stated per turn by Game.GameManager.EnemyTurn (Enemies.Enemy.Stepped) instead.
- Game.GameManager.Advance: states only consistency, that the game does not end, and that enemies are only appended. It does not pass HandleSpawning's SpawnDue through, because the movement before it changes the state that SpawnDue is measured against.
- Game.GameManager.Collide: states only consistency and that the run state is kept. Collisions.CheckCollisions states the effects.
- Game.GameManager.TickWeapons: states only consistency and that the run state is kept. Weapons.WeaponSystem.Update and Combat.CombatSystem.Update state the effects.
- Weapons.WeaponSystem.FireSingle, FireBurstShot, FireRailgun and FireShotgun spend the ammo and set the shot time, the crosshair spread and the burst counters after the ray rather than before it. The ray reads none of them, so the resulting state is the same.
- Weapons.WeaponSystem.FireShotgun: states each enemy's damage and removal and the kill count of a blast. It does not sum the score, combo, lifesteal, screen shake or drops of several kills in one blast; Combat.CombatSystem.ApplyHit states them for each single hit.
- Weapons.WeaponSystem.HandleShoot stores the mouse position after the shot rather than before it. The shot reads the aim as a parameter, not the stored position.
