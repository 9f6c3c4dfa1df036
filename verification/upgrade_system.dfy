/** systems/upgrade_system.py, the effects: applying a chosen upgrade to the
    player, to the game's reload time and to the equipped weapon. Each
    upgrade changes its own attributes and nothing else. The event the
    source emits afterwards is not modelled. */
module UpgradeSystem {
  import opened Common
  import opened Players
  import opened UpgradePool
  import opened WorldState
  import opened Weapons

  /** Apply one upgrade. Damage Surge scales the damage boost, Speed Loader
      the reload time and Rapid Fire the equipped weapon's fire rate (that
      weapon object is the shared preset, so the change outlives the run);
      Lifesteal, Crit Focus and Iron Skin add fixed amounts, Iron Skin also
      healing to the new maximum; Dash unlocks the dash. */
  method ApplyUpgrade(u: Upgrade, player: Player, world: World, weapons: WeaponSystem)
    modifies player`damageBoost, player`lifesteal, player`dashUnlocked, player`critChance
    modifies player`maxHealth, player`health
    modifies world`reloadTime, weapons.currentWeapon`fireRate
    ensures player.damageBoost == if u == DamageSurge then SurgedBoost(old(player.damageBoost))
                                  else old(player.damageBoost)
    ensures world.reloadTime == if u == SpeedLoader then LoadedReloadTime(old(world.reloadTime))
                                else old(world.reloadTime)
    ensures player.lifesteal == old(player.lifesteal) + if u == Lifesteal then LIFESTEAL_STEP else 0
    ensures player.dashUnlocked == (u == Dash || old(player.dashUnlocked))
    ensures player.critChance == old(player.critChance) + if u == CritFocus then CRIT_STEP else 0
    ensures player.maxHealth == old(player.maxHealth) + if u == IronSkin then IRON_SKIN_HEALTH else 0
    ensures player.health == if u == IronSkin then player.maxHealth else old(player.health)
    ensures weapons.currentWeapon.fireRate ==
      if u == RapidFire then RapidFireRate(old(weapons.currentWeapon.fireRate))
      else old(weapons.currentWeapon.fireRate)
  {
    match u
    case DamageSurge =>
      player.damageBoost := SurgedBoost(player.damageBoost);
    case SpeedLoader =>
      world.reloadTime := LoadedReloadTime(world.reloadTime);
    case Lifesteal =>
      player.lifesteal := player.lifesteal + LIFESTEAL_STEP;
    case Dash =>
      player.dashUnlocked := true;
    case CritFocus =>
      player.critChance := player.critChance + CRIT_STEP;
    case IronSkin =>
      player.maxHealth := player.maxHealth + IRON_SKIN_HEALTH;
      player.health := player.maxHealth;
    case RapidFire =>
      var w := weapons.currentWeapon;
      w.fireRate := RapidFireRate(w.fireRate);
  }
}
