/** core/game_manager.py: the game object that owns the run state and the
    subsystems and advances one frame at a time. The frame's inputs that the
    source reads from pygame (clock, keys) or from the random module, and the
    geometry the subsystems compute (what each enemy perceives, what the
    player's rays and rectangle touch), are parameters. The game has a single
    player. */
module Game {
  import opened Common
  import opened Players
  import opened Enemies
  import opened Bullets
  import opened Powerups
  import opened Stats
  import opened UpgradePool
  import opened WorldState
  import opened Combat
  import opened Weapons
  import opened Collisions
  import opened Waves

  /** Everything one frame reads from outside the model. */
  datatype Frame = Frame(
    now: int,                    // pygame clock, milliseconds
    keys: Keys,                  // movement keys held
    senses: Enemy -> Senses,     // what each enemy perceives this frame
    waveRolls: WaveRolls,        // random draws for spawning and the next wave
    overlaps: Overlaps,          // what touches the player this frame
    aim: Aim,                    // where each burst ray points relative to each enemy
    rolls: Enemy -> Rolls)       // critical, drop and drop-type draws per enemy hit

  ghost predicate FrameInRange(f: Frame)
  {
    RollsInRange(f.waveRolls) && IsDraw(f.waveRolls.order, UPGRADE_OFFER as int)
  }

  class GameManager {
    const width: int
    const height: int
    const catalog: EnemyType -> EnemyStats
    /** The rifle preset every run starts with. */
    const rifle: Weapon

    var world: World
    var weaponSystem: WeaponSystem
    var combat: CombatSystem
    var stats: StatsTracker

    ghost predicate Valid()
      reads this, world, world.enemies, weaponSystem, stats
    {
      && world.Valid() && world.EnemiesValid() && weaponSystem.Valid() && stats.Valid()
      && world.width == width && world.height == height && world.catalog == catalog
    }

    /** A new game: a fresh run with the rifle equipped and the profile
        loaded from the parsed profile file (None when it is missing). */
    constructor (width: int, height: int, catalog: EnemyType -> EnemyStats, rifle: Weapon,
                 file: Option<map<string, int>>)
      ensures Valid()
      ensures this.rifle == rifle && weaponSystem.currentWeapon == rifle
      ensures world.Initial(rifle.maxAmmo, rifle.reloadTime)
      ensures weaponSystem.chargeHeld == 0 && weaponSystem.burstQueue == 0 && weaponSystem.burstTick == 0
      ensures weaponSystem.lastShot == 0 && weaponSystem.crosshairSpread == 0
      ensures combat.combo == 0 && combat.comboTimer == 0 && combat.hitmarkerTimer == 0
      ensures combat.screenFlash == 0 && !stats.committed && LoadedFrom(stats.profile, file)
    {
      this.width := width;
      this.height := height;
      this.catalog := catalog;
      this.rifle := rifle;
      world := new World(width, height, catalog, rifle.maxAmmo, rifle.reloadTime);
      weaponSystem := new WeaponSystem(rifle);
      combat := new CombatSystem();
      stats := new StatsTracker(file);
    }

    /** Start a new run after a game over: the world, the weapon system
        and the combat state are rebuilt as at construction, while the same
        stats tracker is kept with its profile and its commit guard re-armed.
        The rifle preset is the same object, so a fire rate an upgrade
        lowered stays lowered. */
    method Restart()
      requires Valid()
      modifies this`world, this`weaponSystem, this`combat, stats`committed
      ensures Valid()
      ensures fresh(world) && fresh(weaponSystem) && fresh(combat)
      ensures weaponSystem.currentWeapon == rifle && rifle.fireRate == old(rifle.fireRate)
      ensures world.Initial(rifle.maxAmmo, rifle.reloadTime)
      ensures weaponSystem.chargeHeld == 0 && weaponSystem.burstQueue == 0 && weaponSystem.burstTick == 0
      ensures weaponSystem.lastShot == 0 && weaponSystem.crosshairSpread == 0
      ensures combat.combo == 0 && combat.comboTimer == 0 && combat.hitmarkerTimer == 0
      ensures combat.screenFlash == 0
      ensures stats == old(stats) && stats.profile == old(stats.profile) && !stats.committed
    {
      world := new World(width, height, catalog, rifle.maxAmmo, rifle.reloadTime);
      weaponSystem := new WeaponSystem(rifle);
      combat := new CombatSystem();
      stats.ResetGuard();
    }

    /** Start a reload at clock `now`, unless one is running or the magazine
        is full. */
    method Reload(now: int)
      modifies world`isReloading, world`lastReload
      ensures var starts := !old(world.isReloading) && old(world.currentAmmo) < old(world.maxAmmo);
        && (starts ==> world.isReloading && world.lastReload == now)
        && (!starts ==> world.isReloading == old(world.isReloading)
                        && world.lastReload == old(world.lastReload))
    {
      if !world.isReloading && world.currentAmmo < world.maxAmmo {
        world.isReloading := true;
        world.lastReload := now;
      }
    }

    /** Finish a running reload once `reloadTime` ms have passed since it
        started: the magazine is full again. */
    method FinishReload(now: int)
      requires Valid()
      modifies world`currentAmmo, world`isReloading
      ensures Valid()
      ensures var done := old(world.isReloading) && now - world.lastReload >= world.reloadTime;
        && (done ==> world.currentAmmo == world.maxAmmo && !world.isReloading)
        && (!done ==> world.currentAmmo == old(world.currentAmmo)
                      && world.isReloading == old(world.isReloading))
    {
      if world.isReloading {
        if now - world.lastReload >= world.reloadTime {
          world.currentAmmo := world.maxAmmo;
          world.isReloading := false;
        }
      }
    }

    /** Every enemy, in list order, runs its AI; each shot it fires becomes
        a new bullet from its centre, appended in that order. Only Shooters
        and Snipers fire. */
    method UpdateEnemies(senses: Enemy -> Senses)
      requires Valid()
      modifies world.enemies, world`enemyBullets
      ensures Valid()
      ensures |old(world.enemyBullets)| <= |world.enemyBullets| <= |old(world.enemyBullets)| + |world.enemies|
      ensures world.enemyBullets[..|old(world.enemyBullets)|] == old(world.enemyBullets)
      ensures forall k :: |old(world.enemyBullets)| <= k < |world.enemyBullets| ==> fresh(world.enemyBullets[k])
      ensures (forall e :: e in world.enemies ==> e.kind != Shooter && e.kind != Sniper) ==>
        world.enemyBullets == old(world.enemyBullets)
    {
      var enemies := world.enemies;
      ghost var made: seq<EnemyBullet> := [];
      for i := 0 to |enemies|
        invariant Valid()
        invariant world.enemyBullets == old(world.enemyBullets) + made && |made| <= i
        invariant forall b :: b in made ==> fresh(b)
        invariant (forall j :: 0 <= j < i ==> enemies[j].kind != Shooter && enemies[j].kind != Sniper) ==>
          made == []
      {
        var _, _, shot := EnemyTurn(enemies[i], senses(enemies[i]));
        if shot.Some? {
          made := made + [shot.value];
        }
      }
      assert forall k :: |old(world.enemyBullets)| <= k < |world.enemyBullets| ==>
        world.enemyBullets[k] in made;
    }

    /** One enemy's AI step (Enemy.Stepped); a shot becomes a new bullet
        from the enemy's centre after its move, flying along the shot's
        direction, appended to the enemy bullets. */
    method EnemyTurn(enemy: Enemy, s: Senses)
      returns (shoot: bool, dir: Option<(real, real)>, shot: Option<EnemyBullet>)
      requires Valid() && enemy in world.enemies
      modifies world.enemies, world`enemyBullets
      ensures Valid()
      ensures var stepped := enemy.Stepped(s, old(world.enemies), width, height, shoot, dir); stepped
      ensures enemy.KeptOthers(old(enemy.strafeDirection), old(enemy.flankSide), old(enemy.flankSwitchTimer),
                               old(enemy.aimTimer), old(enemy.healTick))
      ensures shot.Some? <==> shoot
      ensures world.enemyBullets == old(world.enemyBullets) + if shoot then [shot.value] else []
      ensures shoot ==> var b := shot.value;
        fresh(b) && (b.x, b.y) == enemy.GetCenter() && (b.dx, b.dy) == (s.dx, s.dy)
    {
      shoot, dir := enemy.Update(s, world.enemies, width, height);
      assert Valid();
      shot := None;
      if shoot && dir.Some? {
        var b := Fire(enemy.GetCenter(), dir.value);
        shot := Some(b);
      }
    }

    /** A new enemy bullet from `origin` along `dir`, appended to the enemy
        bullets. */
    method Fire(origin: (real, real), dir: (real, real)) returns (b: EnemyBullet)
      requires Valid()
      modifies world`enemyBullets
      ensures Valid()
      ensures fresh(b) && (b.x, b.y) == origin && (b.dx, b.dy) == dir
      ensures world.enemyBullets == old(world.enemyBullets) + [b]
    {
      b := new EnemyBullet(origin.0, origin.1, dir.0, dir.1);
      AppendDistinct(world.enemyBullets, b);
      world.enemyBullets := world.enemyBullets + [b];
    }

    /** Every enemy bullet moves one step; those now off the screen (plus
        the 50-unit margin) are removed and the rest stay. */
    method UpdateBullets()
      requires Valid()
      modifies world.enemyBullets, world`enemyBullets
      ensures Valid()
      ensures forall b :: b in old(world.enemyBullets) ==> b.AdvancedFrom(old(b.x), old(b.y))
      ensures forall b :: b in world.enemyBullets <==>
        b in old(world.enemyBullets) && !b.IsOffScreen(width, height)
    {
      var bullets := world.enemyBullets;
      var kept := [];
      for i := 0 to |bullets|
        invariant forall j :: 0 <= j < i ==> bullets[j].AdvancedFrom(old(bullets[j].x), old(bullets[j].y))
        invariant forall j :: i <= j < |bullets| ==> unchanged(bullets[j])
        invariant Distinct(kept)
        invariant forall b :: b in kept <==> b in bullets[..i] && !b.IsOffScreen(width, height)
      {
        var b := bullets[i];
        b.Update();
        assert bullets[..i + 1] == bullets[..i] + [b];
        if !b.IsOffScreen(width, height) {
          AppendDistinct(kept, b);
          kept := kept + [b];
        }
      }
      assert bullets[..|bullets|] == bullets;
      world.enemyBullets := kept;
    }

    /** Every powerup ages one tick; the expired ones are removed and the
        rest stay. */
    method UpdatePowerups()
      requires Valid()
      modifies world.powerups, world`powerups
      ensures Valid()
      ensures forall p :: p in old(world.powerups) ==> p.lifetime == old(p.lifetime) - 1
      ensures forall p :: p in world.powerups <==> p in old(world.powerups) && !p.IsExpired()
    {
      var items := world.powerups;
      var kept := [];
      for i := 0 to |items|
        invariant forall j :: 0 <= j < i ==> items[j].lifetime == old(items[j].lifetime) - 1
        invariant forall j :: i <= j < |items| ==> unchanged(items[j])
        invariant Distinct(kept)
        invariant forall p :: p in kept <==> p in items[..i] && !p.IsExpired()
      {
        var p := items[i];
        p.Update();
        assert items[..i + 1] == items[..i] + [p];
        if !p.IsExpired() {
          AppendDistinct(kept, p);
          kept := kept + [p];
        }
      }
      assert items[..|items|] == items;
      world.powerups := kept;
    }

    /** The figures of the current run that a commit records. */
    function CurrentRun(): (r: RunResult)
      reads this, world, combat
      ensures r.wave == world.wave && r.kills == world.kills
      ensures r.score == world.score && r.combo == combat.combo
    {
      RunResult(world.wave, world.kills, world.score, combat.combo)
    }

    /** A dead player ends the run: the state turns to game over and the run
        is committed to the profile, once. */
    method CheckGameOver()
      requires Valid()
      modifies world`state, stats
      ensures Valid()
      ensures var ends := !world.player.IsAlive() && old(world.state) != GameOver;
        && (ends ==> && world.state == GameOver && stats.committed
                     && stats.profile == (if old(stats.committed) then old(stats.profile)
                                          else Commit(old(stats.profile), CurrentRun())))
        && (!ends ==> world.state == old(world.state) && unchanged(stats))
      ensures world.isReloading == old(world.isReloading)
    {
      var alive := world.player.IsAlive();
      if !alive && world.state != GameOver {
        world.state := GameOver;
        stats.CommitRun(CurrentRun());
      }
    }

    /** One frame of play. Nothing happens outside the Playing state. In
        order: reload completion, player movement, enemy AI and fire, bullet
        and powerup ageing, wave spawning, collisions, the weapon's burst
        and crosshair tick, the combat timers, the game-over check, and the
        screen-shake decay. */
    method Update(f: Frame)
      requires Valid() && FrameInRange(f)
      modifies world, world.player, world.enemies, world.enemyBullets, world.powerups
      modifies weaponSystem, combat, stats
      ensures Valid()
      ensures old(world.state) != Playing ==>
        && unchanged(world) && unchanged(world.player) && unchanged(weaponSystem)
        && unchanged(combat) && unchanged(stats)
        && (forall e :: e in world.enemies ==> unchanged(e))
        && (forall b :: b in world.enemyBullets ==> unchanged(b))
        && (forall p :: p in world.powerups ==> unchanged(p))
      ensures old(world.state) == Playing ==>
        && (world.state == GameOver <==> !world.player.IsAlive())
        && (world.state == GameOver ==>
              && stats.committed
              && stats.profile == (if old(stats.committed) then old(stats.profile)
                                   else Commit(old(stats.profile), CurrentRun())))
        && (world.state != GameOver ==> unchanged(stats))
        && (old(world.isReloading) && f.now - old(world.lastReload) >= old(world.reloadTime) ==>
              !world.isReloading)
        && (old(world.isReloading) && f.now - old(world.lastReload) < old(world.reloadTime) ==>
              world.isReloading)
        && (!old(world.isReloading) ==> !world.isReloading)
    {
      if world.state != Playing {
        return;
      }
      FinishReload(f.now);
      Play(f);
      EndFrame();
    }

    /** The body of a frame between the reload check and the game-over
        check: movement and spawning, then collisions, weapon and combat. */
    method Play(f: Frame)
      requires Valid() && FrameInRange(f) && world.state == Playing
      modifies world.player, world.enemies, world.enemyBullets, world.powerups
      modifies world`enemyBullets, world`powerups, world`spawnTimer, world`wave, world`enemiesPerWave
      modifies world`enemiesSpawnedThisWave, world`spawnInterval, world`enemies
      modifies world`pendingUpgrades, world`upgradeHovered, world`state
      modifies world`screenShake, world`currentAmmo, world`kills, world`score
      modifies weaponSystem`burstQueue, weaponSystem`burstTick, weaponSystem`lastShot
      modifies weaponSystem`crosshairSpread, combat
      ensures Valid() && world.state != GameOver
      ensures world.isReloading == old(world.isReloading)
    {
      Advance(f);
      Resolve(f);
    }

    /** The end of a frame: the game-over check, then the screen-shake
        decay. */
    method EndFrame()
      requires Valid() && world.state != GameOver
      modifies world`state, world`screenShake, stats
      ensures Valid()
      ensures world.state == GameOver <==> !world.player.IsAlive()
      ensures world.state == GameOver ==>
        && stats.committed
        && stats.profile == (if old(stats.committed) then old(stats.profile)
                             else Commit(old(stats.profile), CurrentRun()))
      ensures world.state != GameOver ==> world.state == old(world.state) && unchanged(stats)
      ensures world.isReloading == old(world.isReloading)
    {
      CheckGameOver();
      TickShake();
    }

    /** The screen shake decays by one per frame down to zero. */
    method TickShake()
      requires Valid()
      modifies world`screenShake
      ensures Valid() && world.screenShake == TickDown(old(world.screenShake))
      ensures world.state == old(world.state) && world.isReloading == old(world.isReloading)
      ensures CurrentRun() == old(CurrentRun())
    {
      if world.screenShake > 0 {
        world.screenShake := world.screenShake - 1;
      }
    }

    /** The movement half of a frame: the player, the enemies, the enemy
        bullets and the powerups move or age, then the wave spawner runs.
        Play may pause for an upgrade offer, but the run does not end here. */
    method Advance(f: Frame)
      requires Valid() && FrameInRange(f) && world.state == Playing
      modifies world.player, world.enemies, world.enemyBullets, world.powerups
      modifies world`enemyBullets, world`powerups, world`spawnTimer, world`wave, world`enemiesPerWave
      modifies world`enemiesSpawnedThisWave, world`spawnInterval, world`enemies
      modifies world`pendingUpgrades, world`upgradeHovered, world`state
      ensures Valid() && world.state != GameOver
      ensures world.isReloading == old(world.isReloading)
      ensures |old(world.enemies)| <= |world.enemies|
      ensures world.enemies[..|old(world.enemies)|] == old(world.enemies)
      ensures forall k :: |old(world.enemies)| <= k < |world.enemies| ==> fresh(world.enemies[k])
    {
      Move(f);
      if world.state == Playing {
        HandleSpawning(world, f.waveRolls);
      }
    }

    /** The player moves, every enemy runs its AI, the enemy bullets
        advance and the powerups age. */
    method Move(f: Frame)
      requires Valid()
      modifies world.player, world.enemies, world.enemyBullets, world.powerups
      modifies world`enemyBullets, world`powerups
      ensures Valid()
    {
      world.player.Update(f.keys, width, height);
      UpdateEnemies(f.senses);
      UpdateBullets();
      UpdatePowerups();
    }

    /** The resolution half of a frame: collisions with the player, the
        weapon's burst and crosshair tick, and the combat timers. */
    method Resolve(f: Frame)
      requires Valid()
      modifies world.player, world.enemies
      modifies world`screenShake, world`enemyBullets, world`powerups, world`currentAmmo
      modifies world`kills, world`score, world`enemies
      modifies weaponSystem`burstQueue, weaponSystem`burstTick, weaponSystem`lastShot
      modifies weaponSystem`crosshairSpread, combat
      ensures Valid()
      ensures world.state == old(world.state) && world.isReloading == old(world.isReloading)
    {
      Collide(f);
      TickWeapons(f);
    }

    /** Collisions between the player and the enemies, the enemy bullets
        and the powerups. */
    method Collide(f: Frame)
      requires Valid()
      modifies world.player, world`screenShake, world`enemyBullets, world`powerups, world`currentAmmo
      modifies combat
      ensures Valid()
      ensures world.state == old(world.state) && world.isReloading == old(world.isReloading)
    {
      var _ := CheckCollisions(world, combat, f.overlaps);
    }

    /** The weapon's burst and crosshair tick, then the combat timers. */
    method TickWeapons(f: Frame)
      requires Valid()
      modifies world.player, world.enemies
      modifies world`screenShake, world`powerups, world`currentAmmo, world`kills, world`score, world`enemies
      modifies weaponSystem`burstQueue, weaponSystem`burstTick, weaponSystem`lastShot
      modifies weaponSystem`crosshairSpread, combat
      ensures Valid()
      ensures world.state == old(world.state) && world.isReloading == old(world.isReloading)
    {
      ghost var _ := weaponSystem.Update(world, combat, f.now, f.aim, f.rolls);
      combat.Update();
    }
  }
}
