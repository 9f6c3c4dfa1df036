/** systems/wave_manager.py: wave progression. Each tick of survival play
    advances the spawn timer; when it reaches the spawn interval the next
    enemy of the wave's quota spawns, or, once the quota is spawned and every
    enemy is dead, the next wave starts: a larger quota, a shorter interval
    (never below 60 ticks), a boss every fifth wave, and an offer of three
    upgrades that pauses play. */
module Waves {
  import opened Common
  import opened Enemies
  import opened UpgradePool
  import opened WorldState
  import opened Spawner

  const MIN_SPAWN_INTERVAL: int := 60
  const INTERVAL_STEP: int := 3
  const QUOTA_STEP: int := 2
  const BOSS_EVERY: int := 5
  const BOSS_Y: int := -100
  const BOSS_SIZE: int := 70
  const BOSS_HEALTH_FACTOR: int := 2
  const UPGRADE_OFFER: nat := 3

  /** The spawn interval after one more wave. */
  function NextInterval(interval: int): (r: int)
    ensures r >= MIN_SPAWN_INTERVAL
    ensures interval > MIN_SPAWN_INTERVAL ==> r < interval
    ensures interval >= MIN_SPAWN_INTERVAL + INTERVAL_STEP ==> r == interval - INTERVAL_STEP
  {
    Max(MIN_SPAWN_INTERVAL, interval - INTERVAL_STEP)
  }

  function IntervalAfter(interval: int, n: nat): int
    decreases n
  {
    if n == 0 then interval else IntervalAfter(NextInterval(interval), n - 1)
  }

  /** After n waves the interval is max(60, start - 3n): the interval of the
      initial 120 ticks reaches its floor of 60 at wave 21. */
  lemma {:induction false} IntervalAfterWaves(interval: int, n: nat)
    requires interval >= MIN_SPAWN_INTERVAL
    ensures IntervalAfter(interval, n) == Max(MIN_SPAWN_INTERVAL, interval - INTERVAL_STEP * n)
    decreases n
  {
    if n > 0 {
      IntervalAfterWaves(NextInterval(interval), n - 1);
    }
  }

  /** Boss waves are the multiples of five. */
  predicate IsBossWave(wave: int)
  {
    wave % BOSS_EVERY == 0
  }

  /** The next wave was started: the wave number up by one, a quota two
      larger with nothing of it spawned yet, a shorter spawn interval, on a
      boss wave the boss appended (a Tank with twice the wave's scaled Tank
      health, larger, its top-left corner at the screen's horizontal middle
      and 100 above the top edge), and an offer of three upgrades drawn from
      the pool that pauses play. */
  twostate predicate WaveStarted(world: World, order: seq<int>)
    requires IsDraw(order, UPGRADE_OFFER as int)
    reads world`wave, world`enemiesPerWave, world`enemiesSpawnedThisWave, world`spawnInterval
    reads world`enemies, world`pendingUpgrades, world`upgradeHovered, world`state, world.enemies
  {
    && world.wave == old(world.wave) + 1
    && world.enemiesPerWave == old(world.enemiesPerWave) + QUOTA_STEP
    && world.enemiesSpawnedThisWave == 0
    && world.spawnInterval == NextInterval(old(world.spawnInterval))
    && (!IsBossWave(world.wave) ==> world.enemies == old(world.enemies))
    && (IsBossWave(world.wave) ==>
          && |world.enemies| == |old(world.enemies)| + 1
          && world.enemies[..|old(world.enemies)|] == old(world.enemies)
          && var boss := world.enemies[|old(world.enemies)|];
             && fresh(boss) && boss.kind == Tank && boss.wave == world.wave
             && boss.x == (world.width / 2) as real && boss.y == BOSS_Y as real
             && boss.health == BOSS_HEALTH_FACTOR * ScaledHealth(world.catalog(Tank).health, world.wave)
             && boss.maxHealth == boss.health && boss.size == BOSS_SIZE)
    && world.pendingUpgrades == RollUpgrades(UPGRADE_OFFER, order)
    && world.upgradeHovered == 0 && world.state == ChoosingUpgrade
  }

  /** Start the next wave (WaveStarted). The random choices are inputs: the
      pool positions of the upgrade offer and the boss's two +-1 side
      choices. */
  method NextWave(world: World, order: seq<int>, bossStrafe: int, bossFlank: int)
    requires Distinct(world.enemies) && world.EnemiesValid()
    requires IsDraw(order, UPGRADE_OFFER as int)
    requires bossStrafe == 1 || bossStrafe == -1
    requires bossFlank == 1 || bossFlank == -1
    modifies world`wave, world`enemiesPerWave, world`enemiesSpawnedThisWave, world`spawnInterval
    modifies world`enemies, world`pendingUpgrades, world`upgradeHovered, world`state
    ensures Distinct(world.enemies) && world.EnemiesValid()
    ensures WaveStarted(world, order)
  {
    world.wave := world.wave + 1;
    world.enemiesPerWave := world.enemiesPerWave + QUOTA_STEP;
    world.enemiesSpawnedThisWave := 0;
    world.spawnInterval := NextInterval(world.spawnInterval);

    if IsBossWave(world.wave) {
      SpawnBoss(world, bossStrafe, bossFlank);
    }

    world.pendingUpgrades := RollUpgrades(UPGRADE_OFFER, order);
    world.upgradeHovered := 0;
    world.state := ChoosingUpgrade;
  }

  /** Append the boss of the current wave: a Tank whose top-left corner is
      at the screen's horizontal middle and 100 above the top edge, with
      twice the wave's scaled Tank health and a larger size. */
  method SpawnBoss(world: World, strafe: int, flank: int)
    requires Distinct(world.enemies) && world.EnemiesValid()
    requires strafe == 1 || strafe == -1
    requires flank == 1 || flank == -1
    modifies world`enemies
    ensures Distinct(world.enemies) && world.EnemiesValid()
    ensures |world.enemies| == |old(world.enemies)| + 1
    ensures world.enemies[..|old(world.enemies)|] == old(world.enemies)
    ensures var boss := world.enemies[|old(world.enemies)|];
      && fresh(boss) && boss.kind == Tank && boss.wave == world.wave
      && boss.x == (world.width / 2) as real && boss.y == BOSS_Y as real
      && boss.health == BOSS_HEALTH_FACTOR * ScaledHealth(world.catalog(Tank).health, world.wave)
      && boss.maxHealth == boss.health && boss.size == BOSS_SIZE
  {
    var boss := new Enemy((world.width / 2) as real, BOSS_Y as real, world.wave, Tank,
                          world.catalog(Tank), strafe, flank);
    boss.health := boss.health * BOSS_HEALTH_FACTOR;
    boss.maxHealth := boss.health;
    boss.size := BOSS_SIZE;
    AppendDistinct(world.enemies, boss);
    world.enemies := world.enemies + [boss];
  }

  /** The random draws one spawning tick may need. */
  datatype WaveRolls = WaveRolls(spawn: SpawnRoll, order: seq<int>, bossStrafe: int, bossFlank: int)

  predicate RollsInRange(r: WaveRolls)
  {
    && 0.0 <= r.spawn.typeRoll < 1.0
    && (r.spawn.strafe == 1 || r.spawn.strafe == -1)
    && (r.spawn.flank == 1 || r.spawn.flank == -1)
    && (r.bossStrafe == 1 || r.bossStrafe == -1)
    && (r.bossFlank == 1 || r.bossFlank == -1)
  }

  /** One tick of wave spawning. The timer counts up; once it reaches the
      interval, an enemy spawns while the wave's quota is not yet spawned,
      otherwise the next wave starts once no enemy is left. The timer resets
      only when one of those two happens, so a wave waiting for its last
      enemies to die keeps counting. A wave never spawns more than its
      quota. */
  method HandleSpawning(world: World, rolls: WaveRolls)
    requires world.Valid() && world.EnemiesValid()
    requires RollsInRange(rolls) && IsDraw(rolls.order, UPGRADE_OFFER as int)
    modifies world`spawnTimer, world`wave, world`enemiesPerWave, world`enemiesSpawnedThisWave
    modifies world`spawnInterval, world`enemies, world`pendingUpgrades, world`upgradeHovered
    modifies world`state
    ensures world.Valid() && world.EnemiesValid()
    ensures |old(world.enemies)| <= |world.enemies|
    ensures world.enemies[..|old(world.enemies)|] == old(world.enemies)
    ensures forall k :: |old(world.enemies)| <= k < |world.enemies| ==> fresh(world.enemies[k])
    ensures old(world.spawnTimer) + 1 < old(world.spawnInterval) ==>
      && world.spawnTimer == old(world.spawnTimer) + 1
      && unchanged(world`wave, world`enemiesPerWave, world`enemiesSpawnedThisWave, world`spawnInterval)
      && unchanged(world`enemies, world`pendingUpgrades, world`upgradeHovered, world`state)
    ensures old(world.spawnTimer) + 1 >= old(world.spawnInterval) ==>
      var due := SpawnDue(world, rolls, old(world.spawnTimer) + 1); due
  {
    world.spawnTimer := world.spawnTimer + 1;
    if world.spawnTimer >= world.spawnInterval {
      Spawn(world, rolls);
    }
  }

  /** What a spawning tick whose timer has reached the interval did: an
      enemy spawned while the wave's quota was not yet spawned, else the next
      wave started if no enemy was left, else nothing happened but the count
      up to `timer`. Only a spawn or a new wave resets the timer. */
  twostate predicate SpawnDue(world: World, rolls: WaveRolls, timer: int)
    requires RollsInRange(rolls) && IsDraw(rolls.order, UPGRADE_OFFER as int)
    reads world`spawnTimer, world`wave, world`enemiesPerWave, world`enemiesSpawnedThisWave
    reads world`spawnInterval, world`enemies, world`pendingUpgrades, world`upgradeHovered
    reads world`state, world.enemies
  {
    var spawns := old(world.enemiesSpawnedThisWave) < old(world.enemiesPerWave);
    var advances := !spawns && old(world.enemies) == [];
    && (spawns ==> && Spawned(world, rolls.spawn)
                   && world.wave == old(world.wave) && world.state == old(world.state))
    && (advances ==> WaveStarted(world, rolls.order))
    && (spawns || advances ==> world.spawnTimer == 0)
    && (!spawns && !advances ==>
          && world.spawnTimer == timer
          && world.enemies == old(world.enemies)
          && world.wave == old(world.wave)
          && world.enemiesSpawnedThisWave == old(world.enemiesSpawnedThisWave)
          && world.state == old(world.state))
    && (!advances ==>
          && world.enemiesPerWave == old(world.enemiesPerWave)
          && world.spawnInterval == old(world.spawnInterval)
          && world.pendingUpgrades == old(world.pendingUpgrades)
          && world.upgradeHovered == old(world.upgradeHovered))
  }

  /** The due part of a spawning tick (SpawnDue). */
  method Spawn(world: World, rolls: WaveRolls)
    requires world.Valid() && world.EnemiesValid()
    requires RollsInRange(rolls) && IsDraw(rolls.order, UPGRADE_OFFER as int)
    modifies world`spawnTimer, world`wave, world`enemiesPerWave, world`enemiesSpawnedThisWave
    modifies world`spawnInterval, world`enemies, world`pendingUpgrades, world`upgradeHovered
    modifies world`state
    ensures world.Valid() && world.EnemiesValid()
    ensures |old(world.enemies)| <= |world.enemies|
    ensures world.enemies[..|old(world.enemies)|] == old(world.enemies)
    ensures forall k :: |old(world.enemies)| <= k < |world.enemies| ==> fresh(world.enemies[k])
    ensures var due := SpawnDue(world, rolls, old(world.spawnTimer)); due
  {
    if world.enemiesSpawnedThisWave < world.enemiesPerWave {
      SpawnOne(world, rolls.spawn);
    } else if |world.enemies| == 0 {
      StartWave(world, rolls);
    }
  }

  /** The wave's quota is not yet spawned: one enemy more (Spawned) and the
      timer starts over. */
  method SpawnOne(world: World, roll: SpawnRoll)
    requires world.Valid() && world.EnemiesValid()
    requires world.enemiesSpawnedThisWave < world.enemiesPerWave
    requires 0.0 <= roll.typeRoll < 1.0
    requires roll.strafe == 1 || roll.strafe == -1
    requires roll.flank == 1 || roll.flank == -1
    modifies world`spawnTimer, world`enemies, world`enemiesSpawnedThisWave
    ensures world.Valid() && world.EnemiesValid()
    ensures Spawned(world, roll) && world.spawnTimer == 0
  {
    SpawnEnemy(world, roll);
    world.spawnTimer := 0;
  }

  /** The quota is spawned and the arena is clear: the next wave starts
      (WaveStarted) and the timer starts over. */
  method StartWave(world: World, rolls: WaveRolls)
    requires world.Valid() && world.EnemiesValid()
    requires RollsInRange(rolls) && IsDraw(rolls.order, UPGRADE_OFFER as int)
    modifies world`spawnTimer, world`wave, world`enemiesPerWave, world`enemiesSpawnedThisWave
    modifies world`spawnInterval, world`enemies, world`pendingUpgrades, world`upgradeHovered
    modifies world`state
    ensures world.Valid() && world.EnemiesValid()
    ensures WaveStarted(world, rolls.order) && world.spawnTimer == 0
  {
    NextWave(world, rolls.order, rolls.bossStrafe, rolls.bossFlank);
    world.spawnTimer := 0;
  }
}
