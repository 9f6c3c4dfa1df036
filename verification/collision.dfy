/** systems/collision.py: the per-tick collision pass between the player and
    the enemies, the enemy bullets and the powerups. Which entities overlap
    the player (rectangle and point tests) is an input; particles are not
    modelled. */
module Collisions {
  import opened Common
  import opened Players
  import opened Enemies
  import opened Bullets
  import opened Powerups
  import opened WorldState
  import opened Combat

  const CONTACT_SHAKE: int := 12
  const BULLET_SHAKE: int := 8
  /** Every enemy bullet does this much damage. */
  const BULLET_DAMAGE: int := 8

  /** Which enemies, bullets and powerups overlap the player this tick. */
  datatype Overlaps = Overlaps(enemy: Enemy -> bool, bullet: EnemyBullet -> bool, powerup: Powerup -> bool)

  /** The blows the touching enemies offer, in list order: each its damage,
      from the direction of its centre seen from the player's centre `pc`. */
  function ContactBlows(enemies: seq<Enemy>, touching: Enemy -> bool, pc: (real, real)): (r: seq<Blow>)
    reads enemies
    ensures |r| <= |enemies|
    decreases |enemies|
  {
    if enemies == [] then []
    else
      var e := enemies[|enemies| - 1];
      var ec := e.GetCenter();
      ContactBlows(enemies[..|enemies| - 1], touching, pc) +
        if touching(e) then [Blow(e.damage, Some((ec.0 - pc.0, ec.1 - pc.1)))] else []
  }

  /** The blows the overlapping bullets offer, in list order: 8 damage each,
      from the bullet's flight direction. */
  function BulletBlows(bullets: seq<EnemyBullet>, struck: EnemyBullet -> bool): (r: seq<Blow>)
    ensures |r| <= |bullets|
    decreases |bullets|
  {
    if bullets == [] then []
    else
      var b := bullets[|bullets| - 1];
      BulletBlows(bullets[..|bullets| - 1], struck) +
        if struck(b) then [Blow(BULLET_DAMAGE, Some((b.dx, b.dy)))] else []
  }

  /** The kinds of the overlapping powerups, in list order. */
  function PickedKinds(items: seq<Powerup>, picked: Powerup -> bool): (r: seq<PowerupType>)
    ensures |r| <= |items|
    decreases |items|
  {
    if items == [] then []
    else
      var p := items[|items| - 1];
      PickedKinds(items[..|items| - 1], picked) + if picked(p) then [p.kind] else []
  }

  lemma BulletBlowsSnoc(bullets: seq<EnemyBullet>, b: EnemyBullet, struck: EnemyBullet -> bool)
    ensures BulletBlows(bullets + [b], struck) == BulletBlows(bullets, struck) +
      if struck(b) then [Blow(BULLET_DAMAGE, Some((b.dx, b.dy)))] else []
  {
    assert (bullets + [b])[..|bullets|] == bullets;
  }

  lemma PickedKindsSnoc(items: seq<Powerup>, p: Powerup, picked: Powerup -> bool)
    ensures PickedKinds(items + [p], picked) == PickedKinds(items, picked) + if picked(p) then [p.kind] else []
  {
    assert (items + [p])[..|items|] == items;
  }

  /** One more bullet looked at: it is either removed and its blow
      offered, or kept. */
  lemma BulletStep(bullets: seq<EnemyBullet>, i: nat, struck: EnemyBullet -> bool)
    requires i < |bullets|
    ensures RemoveWhere(bullets[..i + 1], struck) ==
      RemoveWhere(bullets[..i], struck) + if struck(bullets[i]) then [] else [bullets[i]]
    ensures BulletBlows(bullets[..i + 1], struck) == BulletBlows(bullets[..i], struck) +
      if struck(bullets[i]) then [Blow(BULLET_DAMAGE, Some((bullets[i].dx, bullets[i].dy)))] else []
  {
    assert bullets[..i + 1] == bullets[..i] + [bullets[i]];
    RemoveWhereSnoc(bullets[..i], bullets[i], struck);
    BulletBlowsSnoc(bullets[..i], bullets[i], struck);
  }

  /** One more powerup looked at: it is either removed and its kind
      picked, or kept. */
  lemma PickupStep(items: seq<Powerup>, i: nat, picked: Powerup -> bool)
    requires i < |items|
    ensures RemoveWhere(items[..i + 1], picked) ==
      RemoveWhere(items[..i], picked) + if picked(items[i]) then [] else [items[i]]
    ensures PickedKinds(items[..i + 1], picked) ==
      PickedKinds(items[..i], picked) + if picked(items[i]) then [items[i].kind] else []
  {
    assert items[..i + 1] == items[..i] + [items[i]];
    RemoveWhereSnoc(items[..i], items[i], picked);
    PickedKindsSnoc(items[..i], items[i], picked);
  }

  /** An ammo kind is among the picked kinds exactly when an overlapping
      powerup is an ammo pickup. */
  lemma {:induction false} PickedAmmo(items: seq<Powerup>, picked: Powerup -> bool)
    ensures Ammo in PickedKinds(items, picked) <==>
      exists i :: 0 <= i < |items| && picked(items[i]) && items[i].kind == Ammo
    decreases |items|
  {
    if items != [] {
      var init := items[..|items| - 1];
      PickedAmmo(init, picked);
      if exists i :: 0 <= i < |init| && picked(init[i]) && init[i].kind == Ammo {
        var i :| 0 <= i < |init| && picked(init[i]) && init[i].kind == Ammo;
        assert items[i] == init[i];
      }
      if exists i :: 0 <= i < |items| && picked(items[i]) && items[i].kind == Ammo {
        var i :| 0 <= i < |items| && picked(items[i]) && items[i].kind == Ammo;
        if i < |init| {
          assert init[i] == items[i];
        }
      }
    }
  }

  /** The whole pass: contacts, then bullets, then pickups, each folding its
      blows or powerups into the player's Vitals in list order. Enemies are
      never removed; overlapping bullets and powerups are. `hurt` says
      whether any damage got through; only then is the combo reset, and the
      screen shakes by the last accepted hit's amount. */
  method CheckCollisions(world: World, combat: CombatSystem, overlaps: Overlaps) returns (hurt: bool)
    requires world.Valid()
    modifies world.player`health, world.player`shieldActive, world.player`shieldTimer,
      world.player`isInvulnerable, world.player`invulnerableTime, world.player`damageDirection,
      world.player`damageIndicatorTimer, world.player`damageBoost, world.player`damageBoostTimer,
      world.player`speedBoostTimer
    modifies world`screenShake, world`enemyBullets, world`powerups, world`currentAmmo, combat`combo
    ensures world.Valid()
    ensures world.enemies == old(world.enemies)
    ensures world.enemyBullets == RemoveWhere(old(world.enemyBullets), overlaps.bullet)
    ensures world.powerups == RemoveWhere(old(world.powerups), overlaps.powerup)
    ensures var contact := StruckAll(old(world.player.Status()),
                                     old(ContactBlows(world.enemies, overlaps.enemy, world.player.GetCenter())));
      var shot := StruckAll(contact.0, BulletBlows(old(world.enemyBullets), overlaps.bullet));
      && world.player.Status() ==
           PoweredAll(shot.0, world.player.maxHealth, PickedKinds(old(world.powerups), overlaps.powerup))
      && hurt == (contact.1 || shot.1)
      && world.screenShake == (if shot.1 then BULLET_SHAKE else if contact.1 then CONTACT_SHAKE
                               else old(world.screenShake))
    ensures combat.combo == if hurt then 0 else old(combat.combo)
    ensures world.currentAmmo ==
      if Ammo in PickedKinds(old(world.powerups), overlaps.powerup) then world.maxAmmo
      else old(world.currentAmmo)
  {
    hurt := DamagePasses(world, combat, overlaps);
    RemoveWhereDistinct(world.powerups, overlaps.powerup);
    PickupPass(world, overlaps.powerup);
  }

  /** The two passes that can hurt: contacts, then bullets. */
  method DamagePasses(world: World, combat: CombatSystem, overlaps: Overlaps) returns (hurt: bool)
    requires world.Valid()
    modifies world.player`health, world.player`shieldActive, world.player`shieldTimer,
      world.player`isInvulnerable, world.player`invulnerableTime, world.player`damageDirection,
      world.player`damageIndicatorTimer
    modifies world`screenShake, world`enemyBullets, combat`combo
    ensures world.Valid()
    ensures world.enemyBullets == RemoveWhere(old(world.enemyBullets), overlaps.bullet)
    ensures var contact := StruckAll(old(world.player.Status()),
                                     old(ContactBlows(world.enemies, overlaps.enemy, world.player.GetCenter())));
      var shot := StruckAll(contact.0, BulletBlows(old(world.enemyBullets), overlaps.bullet));
      && world.player.Status() == shot.0
      && hurt == (contact.1 || shot.1)
      && world.screenShake == (if shot.1 then BULLET_SHAKE else if contact.1 then CONTACT_SHAKE
                               else old(world.screenShake))
    ensures combat.combo == if hurt then 0 else old(combat.combo)
  {
    var contactHurt := ContactPass(world, combat, overlaps.enemy);
    RemoveWhereDistinct(world.enemyBullets, overlaps.bullet);
    var bulletHurt := BulletPass(world, combat, overlaps.bullet);
    hurt := contactHurt || bulletHurt;
  }

  /** Enemy contact: each overlapping enemy, in list order, offers its
      damage from the direction of its centre (ContactBlows). At most one
      contact gets through per tick (StruckAllOnce), and only an accepted
      hit resets the combo and shakes the screen. */
  method ContactPass(world: World, combat: CombatSystem, touching: Enemy -> bool) returns (hurt: bool)
    modifies world.player`shieldActive, world.player`shieldTimer, world.player`health,
      world.player`isInvulnerable, world.player`invulnerableTime, world.player`damageDirection,
      world.player`damageIndicatorTimer
    modifies world`screenShake, combat`combo
    ensures var r := StruckAll(old(world.player.Status()),
                               old(ContactBlows(world.enemies, touching, world.player.GetCenter())));
      world.player.Status() == r.0 && hurt == r.1
    ensures combat.combo == if hurt then 0 else old(combat.combo)
    ensures world.screenShake == if hurt then CONTACT_SHAKE else old(world.screenShake)
  {
    var player := world.player;
    var enemies := world.enemies;
    var pc := player.GetCenter();
    ghost var v0 := player.Status();
    hurt := false;
    for i := 0 to |enemies|
      invariant (player.Status(), hurt) == StruckAll(v0, old(ContactBlows(enemies[..i], touching, pc)))
      invariant combat.combo == if hurt then 0 else old(combat.combo)
      invariant world.screenShake == if hurt then CONTACT_SHAKE else old(world.screenShake)
    {
      var enemy := enemies[i];
      assert enemies[..i + 1][..i] == enemies[..i];
      ghost var blows := old(ContactBlows(enemies[..i], touching, pc));
      if touching(enemy) {
        var ec := enemy.GetCenter();
        assert ec == old(enemy.GetCenter());
        var blow := Blow(enemy.damage, Some((ec.0 - pc.0, ec.1 - pc.1)));
        assert old(ContactBlows(enemies[..i + 1], touching, pc)) == blows + [blow];
        hurt := NextBlow(world, combat, v0, blows, blow, CONTACT_SHAKE, hurt);
      } else {
        assert old(ContactBlows(enemies[..i + 1], touching, pc)) == blows + [];
        assert blows + [] == blows;
      }
    }
    assert enemies[..|enemies|] == enemies;
  }

  /** Enemy bullets: every overlapping bullet, in list order, offers 8
      damage from its flight direction (BulletBlows) and is removed whether
      or not the damage got through; the others stay. */
  method BulletPass(world: World, combat: CombatSystem, struck: EnemyBullet -> bool) returns (hurt: bool)
    modifies world.player`shieldActive, world.player`shieldTimer, world.player`health,
      world.player`isInvulnerable, world.player`invulnerableTime, world.player`damageDirection,
      world.player`damageIndicatorTimer
    modifies world`screenShake, world`enemyBullets, combat`combo
    ensures world.enemyBullets == RemoveWhere(old(world.enemyBullets), struck)
    ensures var r := StruckAll(old(world.player.Status()), BulletBlows(old(world.enemyBullets), struck));
      world.player.Status() == r.0 && hurt == r.1
    ensures combat.combo == if hurt then 0 else old(combat.combo)
    ensures world.screenShake == if hurt then BULLET_SHAKE else old(world.screenShake)
  {
    var player := world.player;
    var bullets := world.enemyBullets;
    ghost var v0 := player.Status();
    var kept := [];
    hurt := false;
    for i := 0 to |bullets|
      invariant world.enemyBullets == bullets
      invariant kept == RemoveWhere(bullets[..i], struck)
      invariant (player.Status(), hurt) == StruckAll(v0, BulletBlows(bullets[..i], struck))
      invariant combat.combo == if hurt then 0 else old(combat.combo)
      invariant world.screenShake == if hurt then BULLET_SHAKE else old(world.screenShake)
    {
      var b := bullets[i];
      BulletStep(bullets, i, struck);
      if struck(b) {
        hurt := NextBlow(world, combat, v0, BulletBlows(bullets[..i], struck),
                         Blow(BULLET_DAMAGE, Some((b.dx, b.dy))), BULLET_SHAKE, hurt);
      } else {
        assert BulletBlows(bullets[..i + 1], struck) == BulletBlows(bullets[..i], struck);
        kept := kept + [b];
      }
    }
    assert bullets[..|bullets|] == bullets;
    world.enemyBullets := kept;
  }

  /** Powerups: every overlapping powerup, in list order, is applied to the
      player and removed; an ammo pickup also refills the magazine. */
  method PickupPass(world: World, picked: Powerup -> bool)
    modifies world.player`health, world.player`damageBoost, world.player`damageBoostTimer,
      world.player`speedBoostTimer, world.player`shieldActive, world.player`shieldTimer
    modifies world`powerups, world`currentAmmo
    ensures world.powerups == RemoveWhere(old(world.powerups), picked)
    ensures world.player.Status() ==
      PoweredAll(old(world.player.Status()), world.player.maxHealth, PickedKinds(old(world.powerups), picked))
    ensures world.currentAmmo ==
      if Ammo in PickedKinds(old(world.powerups), picked) then world.maxAmmo else old(world.currentAmmo)
  {
    var player := world.player;
    var items := world.powerups;
    ghost var v0, maxHealth, ammo0 := player.Status(), player.maxHealth, world.currentAmmo;
    ghost var kinds := [];
    var kept := [];
    for i := 0 to |items|
      invariant world.powerups == items
      invariant kept == RemoveWhere(items[..i], picked)
      invariant kinds == PickedKinds(items[..i], picked)
      invariant Collected(world, v0, maxHealth, ammo0, kinds)
    {
      var p := items[i];
      PickupStep(items, i, picked);
      if picked(p) {
        NextPickup(world, v0, maxHealth, ammo0, kinds, p);
        kinds := kinds + [p.kind];
      } else {
        assert PickedKinds(items[..i + 1], picked) == kinds;
        kept := kept + [p];
      }
    }
    assert items[..|items|] == items;
    world.powerups := kept;
  }

  /** One more blow of a pass: the player's state and whether any blow got
      through follow the StruckAll fold one step further. */
  method NextBlow(world: World, combat: CombatSystem, ghost v0: Vitals, ghost blows: seq<Blow>, blow: Blow,
                  shake: int, hurt: bool) returns (hurtNow: bool)
    requires (world.player.Status(), hurt) == StruckAll(v0, blows)
    requires hurt ==> combat.combo == 0 && world.screenShake == shake
    modifies world.player`shieldActive, world.player`shieldTimer, world.player`health,
      world.player`isInvulnerable, world.player`invulnerableTime, world.player`damageDirection,
      world.player`damageIndicatorTimer
    modifies world`screenShake, combat`combo
    ensures (world.player.Status(), hurtNow) == StruckAll(v0, blows + [blow])
    ensures combat.combo == if hurtNow then 0 else old(combat.combo)
    ensures world.screenShake == if hurtNow then shake else old(world.screenShake)
  {
    StruckAllSnoc(v0, blows, blow);
    var accepted := Hurt(world, combat, blow.amount, blow.direction, shake);
    hurtNow := hurt || accepted;
  }

  /** Damage offered to the player (the Struck rule); when it is accepted
      the screen shakes by `shake` and the combo streak ends. */
  method Hurt(world: World, combat: CombatSystem, amount: int, direction: Option<(real, real)>,
              shake: int) returns (accepted: bool)
    modifies world.player`shieldActive, world.player`shieldTimer, world.player`health,
      world.player`isInvulnerable, world.player`invulnerableTime, world.player`damageDirection,
      world.player`damageIndicatorTimer
    modifies world`screenShake, combat`combo
    ensures (world.player.Status(), accepted) == Struck(old(world.player.Status()), Blow(amount, direction))
    ensures world.screenShake == if accepted then shake else old(world.screenShake)
    ensures combat.combo == if accepted then 0 else old(combat.combo)
  {
    accepted := world.player.TakeDamage(amount, direction);
    if accepted {
      world.screenShake := shake;
      combat.combo := 0;
    }
  }

  /** The player and the magazine after the pickups of `kinds`, starting
      from vitals `v0` and magazine `ammo0`. */
  ghost predicate Collected(world: World, v0: Vitals, maxHealth: int, ammo0: int, kinds: seq<PowerupType>)
    reads world`player, world`currentAmmo, world`maxAmmo, world.player
  {
    && world.player.maxHealth == maxHealth
    && world.player.Status() == PoweredAll(v0, maxHealth, kinds)
    && world.currentAmmo == if Ammo in kinds then world.maxAmmo else ammo0
  }

  /** One more pickup of the pass: Collected one step further. */
  method NextPickup(world: World, ghost v0: Vitals, ghost maxHealth: int, ghost ammo0: int,
                    ghost kinds: seq<PowerupType>, p: Powerup)
    requires Collected(world, v0, maxHealth, ammo0, kinds)
    modifies world.player`health, world.player`damageBoost, world.player`damageBoostTimer,
      world.player`speedBoostTimer, world.player`shieldActive, world.player`shieldTimer
    modifies world`currentAmmo
    ensures Collected(world, v0, maxHealth, ammo0, kinds + [p.kind])
  {
    PoweredAllSnoc(v0, maxHealth, kinds, p.kind);
    Pickup(world, p);
  }

  /** One pickup: its effect on the player (the Powered rule), and a full
      magazine for ammo. */
  method Pickup(world: World, p: Powerup)
    modifies world.player`health, world.player`damageBoost, world.player`damageBoostTimer,
      world.player`speedBoostTimer, world.player`shieldActive, world.player`shieldTimer
    modifies world`currentAmmo
    ensures world.player.Status() == Powered(old(world.player.Status()), world.player.maxHealth, p.kind)
    ensures world.currentAmmo == if p.kind == Ammo then world.maxAmmo else old(world.currentAmmo)
  {
    world.player.ApplyPowerup(p.kind);
    if p.kind == Ammo {
      world.currentAmmo := world.maxAmmo;
    }
  }
}
