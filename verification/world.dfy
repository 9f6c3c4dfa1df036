/** The run state that core/game_manager.py keeps on the game object and that
    every subsystem reads and writes: the player, the enemy, enemy-bullet and
    powerup lists, score and kills, the wave counters, the ammo and reload
    state, the run state, screen shake and the pending upgrade offer. The
    subsystems (weapon, combat, collision, spawner, wave manager) take this
    object as their `game` argument; the manager that owns them is in module
    Game. Screen size and the enemy stats table are configuration read at
    start-up. */
module WorldState {
  import opened Common
  import opened Players
  import opened Enemies
  import opened Bullets
  import opened Powerups
  import opened UpgradePool

  datatype RunState = Playing | ChoosingUpgrade | GameOver

  const INITIAL_WAVE: int := 1
  const INITIAL_SPAWN_INTERVAL: int := 120
  const INITIAL_ENEMIES_PER_WAVE: int := 5

  class World {
    const width: int
    const height: int
    /** The enemy configuration table, one row per enemy type. */
    const catalog: EnemyType -> EnemyStats

    var player: Player
    var enemies: seq<Enemy>
    var enemyBullets: seq<EnemyBullet>
    var powerups: seq<Powerup>
    var score: int
    var kills: int
    var wave: int
    var maxAmmo: int
    var currentAmmo: int
    var reloadTime: int
    var lastReload: int
    var isReloading: bool
    var lastMousePos: (real, real)
    var spawnTimer: int
    var spawnInterval: int
    var enemiesPerWave: int
    var enemiesSpawnedThisWave: int
    var state: RunState
    var screenShake: int
    var pendingUpgrades: seq<Upgrade>
    var upgradeHovered: int

    /** Every list holds each object once (each entry is appended when it is
        created), and a wave never spawns more than its quota. */
    ghost predicate Valid()
      reads this
    {
      && Distinct(enemies) && Distinct(enemyBullets) && Distinct(powerups)
      && 0 <= enemiesSpawnedThisWave <= enemiesPerWave
    }

    /** Every enemy keeps its timer ranges. */
    ghost predicate EnemiesValid()
      reads this, enemies
    {
      forall e :: e in enemies ==> e.Valid()
    }

    /** The state of a fresh run: the player centred at full health and base
        speed with no upgrades, no dash, no boost, shield, invulnerability or
        damage indicator running, no enemies, bullets or powerups, wave 1 with a quota of 5
        and a 120-tick spawn interval, the rifle's full magazine, playing. */
    ghost predicate Initial(rifleMaxAmmo: int, rifleReloadTime: int)
      reads this, player
    {
      && player.x == (width / 2 - 22) as real && player.y == (height / 2 - 22) as real
      && player.health == PLAYER_MAX_HEALTH && player.maxHealth == PLAYER_MAX_HEALTH
      && player.damageBoost == BOOST_ONE && player.critChance == BASE_CRIT_CHANCE
      && player.lifesteal == 0 && !player.shieldActive && !player.isInvulnerable
      && player.size == PLAYER_SIZE && player.baseSpeed == PLAYER_BASE_SPEED
      && player.speed == player.baseSpeed && !player.dashUnlocked && player.dashCooldown == 0
      && player.damageBoostTimer == 0 && player.speedBoostTimer == 0 && player.shieldTimer == 0
      && player.invulnerableTime == 0 && player.damageIndicatorTimer == 0
      && player.damageDirection == None
      && enemies == [] && enemyBullets == [] && powerups == []
      && score == 0 && kills == 0 && wave == INITIAL_WAVE
      && maxAmmo == rifleMaxAmmo && currentAmmo == rifleMaxAmmo
      && reloadTime == rifleReloadTime && lastReload == 0 && !isReloading
      && lastMousePos == ((width / 2) as real, (height / 2) as real)
      && spawnTimer == 0 && spawnInterval == INITIAL_SPAWN_INTERVAL
      && enemiesPerWave == INITIAL_ENEMIES_PER_WAVE && enemiesSpawnedThisWave == 0
      && state == Playing && screenShake == 0
      && pendingUpgrades == [] && upgradeHovered == 0
    }

    /** A fresh run (Initial) on a screen of the given size. */
    constructor (width: int, height: int, catalog: EnemyType -> EnemyStats,
                 rifleMaxAmmo: int, rifleReloadTime: int)
      ensures Valid() && EnemiesValid()
      ensures this.width == width && this.height == height && this.catalog == catalog
      ensures fresh(player) && Initial(rifleMaxAmmo, rifleReloadTime)
    {
      this.width := width;
      this.height := height;
      this.catalog := catalog;
      player := new Player((width / 2 - 22) as real, (height / 2 - 22) as real);
      enemies := [];
      enemyBullets := [];
      powerups := [];
      score := 0;
      kills := 0;
      wave := INITIAL_WAVE;
      maxAmmo := rifleMaxAmmo;
      currentAmmo := rifleMaxAmmo;
      reloadTime := rifleReloadTime;
      lastReload := 0;
      isReloading := false;
      lastMousePos := ((width / 2) as real, (height / 2) as real);
      spawnTimer := 0;
      spawnInterval := INITIAL_SPAWN_INTERVAL;
      enemiesPerWave := INITIAL_ENEMIES_PER_WAVE;
      enemiesSpawnedThisWave := 0;
      state := Playing;
      screenShake := 0;
      pendingUpgrades := [];
      upgradeHovered := 0;
    }
  }
}
