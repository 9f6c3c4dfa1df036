/** systems/weapon_system.py: the firing pipeline. A weapon is a preset of
    numbers; the weapon system holds the railgun charge, the burst queue and
    its countdown, the time of the last shot and the crosshair spread, and
    spends the world's ammo. Target selection is the closest enemy inside an
    aim cone. The angle between the aim and each enemy and the distance to
    it are inputs (a Sighting per ray and enemy), the clock is an input in
    milliseconds, and muzzle-flash particles are not modelled. */
module Weapons {
  import opened Common
  import opened Players
  import opened Enemies
  import opened WorldState
  import opened Combat

  /** Milliseconds per frame in the fire-rate gate: 1000 // 60. */
  const FRAME_MS: int := 16
  const SINGLE_SPREAD: int := 8
  const SHOTGUN_SPREAD: int := 14
  const RAILGUN_SPREAD: int := 0
  /** Aim-cone half angles in radians. */
  const DEFAULT_CONE: real := 0.1
  const RAILGUN_CONE: real := 0.05

  /** How an enemy appears along one ray: the angle between the ray and the
      direction to the enemy's centre, folded into [0, pi], and the distance
      to the centre. */
  datatype Sighting = Sighting(angleDiff: real, distance: real)

  /** Sighting of each enemy along ray i of a shot; single-ray shots use ray 0. */
  type Aim = (nat, Enemy) -> Sighting

  class Weapon {
    const key: string
    const name: string
    const maxAmmo: int
    const damage: int
    /** Minimum frames between shots; the Rapid Fire upgrade lowers it in place. */
    var fireRate: int
    /** Milliseconds. */
    const reloadTime: int
    const spreadCount: int
    const spreadAngle: real
    const chargeFrames: int
    const burstCount: int
    const burstInterval: int

    constructor (key: string, name: string, maxAmmo: int, damage: int, fireRate: int,
                 reloadTime: int, spreadCount: int, spreadAngle: real, chargeFrames: int,
                 burstCount: int, burstInterval: int)
      ensures this.key == key && this.name == name && this.maxAmmo == maxAmmo
      ensures this.damage == damage && this.fireRate == fireRate && this.reloadTime == reloadTime
      ensures this.spreadCount == spreadCount && this.spreadAngle == spreadAngle
      ensures this.chargeFrames == chargeFrames && this.burstCount == burstCount
      ensures this.burstInterval == burstInterval
    {
      this.key := key;
      this.name := name;
      this.maxAmmo := maxAmmo;
      this.damage := damage;
      this.fireRate := fireRate;
      this.reloadTime := reloadTime;
      this.spreadCount := spreadCount;
      this.spreadAngle := spreadAngle;
      this.chargeFrames := chargeFrames;
      this.burstCount := burstCount;
      this.burstInterval := burstInterval;
    }
  }

  predicate InCone(s: Sighting, cone: real)
  {
    s.angleDiff < cone
  }

  /** `hit` is the position of the in-cone enemy with the smallest distance,
      the earliest one among equals, or None when no enemy is in the cone. */
  ghost predicate Closest(enemies: seq<Enemy>, sight: Enemy -> Sighting, cone: real, hit: Option<nat>)
  {
    && (hit.None? <==> forall j :: 0 <= j < |enemies| ==> !InCone(sight(enemies[j]), cone))
    && (hit.Some? ==>
          && hit.value < |enemies|
          && InCone(sight(enemies[hit.value]), cone)
          && (forall j :: 0 <= j < |enemies| && InCone(sight(enemies[j]), cone) ==>
                sight(enemies[hit.value]).distance <= sight(enemies[j]).distance)
          && (forall j :: 0 <= j < hit.value && InCone(sight(enemies[j]), cone) ==>
                sight(enemies[hit.value]).distance < sight(enemies[j]).distance))
  }

  /** The running-minimum scan: an enemy replaces the current pick only when
      it is in the cone and strictly closer. */
  method Raycast(enemies: seq<Enemy>, sight: Enemy -> Sighting, cone: real) returns (hit: Option<nat>)
    ensures Closest(enemies, sight, cone, hit)
  {
    hit := None;
    var best: real := 0.0;
    for i := 0 to |enemies|
      invariant hit.None? <==> forall j :: 0 <= j < i ==> !InCone(sight(enemies[j]), cone)
      invariant hit.Some? ==> hit.value < i && InCone(sight(enemies[hit.value]), cone)
      invariant hit.Some? ==> best == sight(enemies[hit.value]).distance
      invariant hit.Some? ==> forall j :: 0 <= j < i && InCone(sight(enemies[j]), cone) ==>
        best <= sight(enemies[j]).distance
      invariant hit.Some? ==> forall j :: 0 <= j < hit.value && InCone(sight(enemies[j]), cone) ==>
        best < sight(enemies[j]).distance
    {
      var s := sight(enemies[i]);
      if InCone(s, cone) && (hit.None? || s.distance < best) {
        hit := Some(i);
        best := s.distance;
      }
    }
  }

  /** Ray i of a shot: how each enemy appears along it. */
  function Ray(aim: Aim, i: nat): Enemy -> Sighting
  {
    (e: Enemy) => aim(i, e)
  }

  /** No hit was resolved: the lists, score, kills and shake, the player,
      the combat state and every enemy of `before` are as they were. */
  twostate predicate NoHit(world: World, combat: CombatSystem, before: seq<Enemy>)
    reads world`enemies, world`player, world`powerups, world`kills, world`score, world`screenShake,
      world.player, combat, before
  {
    && world.player == old(world.player)
    && world.enemies == before && world.powerups == old(world.powerups)
    && world.kills == old(world.kills) && world.score == old(world.score)
    && world.screenShake == old(world.screenShake)
    && unchanged(world.player) && unchanged(combat)
    && forall e :: e in before ==> unchanged(e)
  }

  /** What a one-ray shot did to the enemies `before` it: `hit` is the
      closest enemy in the cone; when there is one, exactly that enemy took
      the hit and every other enemy is untouched, and otherwise nothing was
      hit at all. */
  twostate predicate RayResolved(world: World, combat: CombatSystem, baseDamage: int,
                                 sight: Enemy -> Sighting, cone: real, rolls: Enemy -> Rolls,
                                 before: seq<Enemy>, new hit: Option<nat>)
    reads world`enemies, world`player, world`powerups, world`kills, world`score, world`screenShake,
      world.player, world.powerups, combat, before
  {
    && Closest(before, sight, cone, hit)
    && (hit.None? ==> NoHit(world, combat, before))
    && (hit.Some? ==>
          && combat.HitResolved(world, baseDamage, before[hit.value], rolls(before[hit.value]))
          && forall k :: 0 <= k < |before| && k != hit.value ==> unchanged(before[k]))
  }

  /** The enemy a ray picked out of the list it was cast over. */
  function Target(list: seq<Enemy>, pick: Option<nat>): (t: Option<Enemy>)
    ensures t.Some? ==> t.value in list
    ensures pick.Some? && pick.value < |list| <==> t.Some?
  {
    if pick.Some? && pick.value < |list| then Some(list[pick.value]) else None
  }

  /** The enemies the rays of one shot picked, each the first time it was
      picked, in ray order: the `hits` set of a shotgun blast. */
  function FirstHits(targets: seq<Option<Enemy>>): (r: seq<Enemy>)
    ensures |r| <= |targets|
  {
    if targets == [] then []
    else
      var acc := FirstHits(targets[..|targets| - 1]);
      var t := targets[|targets| - 1];
      if t.Some? && t.value !in acc then acc + [t.value] else acc
  }

  /** The blast's hits hold every picked enemy exactly once and nothing
      else. */
  lemma {:induction false} FirstHitsExact(targets: seq<Option<Enemy>>)
    ensures Distinct(FirstHits(targets))
    ensures forall e :: e in FirstHits(targets) <==> Some(e) in targets
    decreases |targets|
  {
    if targets != [] {
      var init := targets[..|targets| - 1];
      assert targets == init + [targets[|targets| - 1]];
      FirstHitsExact(init);
    }
  }

  /** The per-ray record of a shotgun blast: the enemy list each ray was
      cast over (and the list after the last ray), each ray's pick and the
      enemy it names. It exists only to state what the blast did. */
  datatype Volley = Volley(seen: seq<seq<Enemy>>, picks: seq<Option<nat>>, targets: seq<Option<Enemy>>)

  /** One ray of a blast, cast over `list` as the earlier rays left it: it
      picks the closest enemy in the 0.1 rad cone, and the list after it is
      the same or has lost the picked enemy (killed by its hit). */
  ghost predicate RayStep(list: seq<Enemy>, next: seq<Enemy>, sight: Enemy -> Sighting,
                          pick: Option<nat>, t: Option<Enemy>)
  {
    && Closest(list, sight, DEFAULT_CONE, pick)
    && t == Target(list, pick)
    && (next == list || (t.Some? && t.value in list && next == RemoveFirst(list, t.value)))
  }

  /** `v` records the first `rays` rays of a blast, each cast over the list
      the ray before it left. */
  ghost predicate Recorded(v: Volley, aim: Aim, rays: nat)
  {
    && |v.seen| == rays + 1 && |v.picks| == rays && |v.targets| == rays
    && forall i {:trigger v.picks[i]} :: 0 <= i < rays ==>
         RayStep(v.seen[i], v.seen[i + 1], Ray(aim, i), v.picks[i], v.targets[i])
  }

  /** Recording one more ray. */
  lemma RecordRay(v: Volley, aim: Aim, rays: nat, next: seq<Enemy>, pick: Option<nat>, t: Option<Enemy>)
    requires Recorded(v, aim, rays)
    requires RayStep(v.seen[rays], next, Ray(aim, rays), pick, t)
    ensures Recorded(Volley(v.seen + [next], v.picks + [pick], v.targets + [t]), aim, rays + 1)
    ensures var acc := FirstHits(v.targets);
      FirstHits(v.targets + [t]) == if t.Some? && t.value !in acc then acc + [t.value] else acc
  {
    assert (v.targets + [t])[..|v.targets|] == v.targets;
    var w := Volley(v.seen + [next], v.picks + [pick], v.targets + [t]);
    forall j | 0 <= j < rays + 1
      ensures RayStep(w.seen[j], w.seen[j + 1], Ray(aim, j), w.picks[j], w.targets[j])
    {
      if j < rays {
        assert w.picks[j] == v.picks[j];
      }
    }
  }

  /** What a blast of `rays` rays did to the enemies `before` it: the rays
      are recorded in `v`, `hits` are their first-time picks, each enemy hit
      lost one hit's damage and flashes and slows, an enemy hit leaves the
      list exactly when the hit killed it, each kill is counted, and the
      enemies no ray hit are untouched. */
  twostate predicate VolleyResolved(world: World, baseDamage: int, aim: Aim, rays: nat,
                                    rolls: Enemy -> Rolls, before: seq<Enemy>, new v: Volley,
                                    new hits: seq<Enemy>)
    reads world`enemies, world`player, world`kills, world.player, before
  {
    && Recorded(v, aim, rays)
    && v.seen[0] == before && v.seen[rays] == world.enemies
    && hits == FirstHits(v.targets)
    && world.player == old(world.player)
    && (forall e :: e in before && e in hits ==>
          && e.health == old(e.health) - HitDamage(baseDamage, world.player.damageBoost,
                                                     IsCritical(rolls(e).critRoll, world.player.critChance))
          && e.hitFlash == HIT_FLASH_TICKS && e.slowTimer == SLOW_TICKS)
    && (forall e :: e in before && e !in hits ==>
          e.health == old(e.health) && e.hitFlash == old(e.hitFlash) && e.slowTimer == old(e.slowTimer))
    && (forall e :: e in before ==> (e in world.enemies <==> !(e in hits && e.health <= 0)))
    && world.kills == old(world.kills) + (|before| - |world.enemies|)
  }

  /** An enemy's health, hit flash and slow timer. */
  type Marking = (int, int, int)

  /** The marking of every enemy of `pool`. */
  ghost function Marks(pool: seq<Enemy>): (m: map<Enemy, Marking>)
    reads pool
    ensures m.Keys == set e | e in pool
  {
    map e | e in pool :: (e.health, e.hitFlash, e.slowTimer)
  }

  /** Where a blast stands after some of its rays, given the enemy list,
      the kill count and the markings `marks` of the enemies `pool` it
      started with, their `start` markings and the kill count `kills0` it
      started from: every enemy hit so far lost one hit's damage and
      flashes and slows, the others are as they started, an enemy has left
      the list exactly when a hit killed it, and each kill is counted. */
  ghost predicate BlastState(enemies: seq<Enemy>, kills: int, marks: map<Enemy, Marking>,
                             pool: seq<Enemy>, start: map<Enemy, Marking>, kills0: int,
                             hits: seq<Enemy>, baseDamage: int, boost: int, crit: int,
                             rolls: Enemy -> Rolls)
  {
    && (forall e :: e in enemies ==> e in pool)
    && (forall e :: e in pool ==> e in start && e in marks)
    && (forall e :: e in pool && e in hits ==>
          marks[e] == (start[e].0 - HitDamage(baseDamage, boost, IsCritical(rolls(e).critRoll, crit)),
                       HIT_FLASH_TICKS, SLOW_TICKS))
    && (forall e :: e in pool && e !in hits ==> marks[e] == start[e])
    && (forall e :: e in pool ==> (e in enemies <==> !(e in hits && marks[e].0 <= 0)))
    && kills == kills0 + (|pool| - |enemies|)
  }

  /** A blast ray that hits an enemy not hit before, which loses one hit's
      damage and leaves the list when that kills it, keeps BlastState with
      that enemy added to the hits. */
  lemma BlastStep(enemies: seq<Enemy>, kills: int, marks: map<Enemy, Marking>,
                  enemies': seq<Enemy>, kills': int, marks': map<Enemy, Marking>,
                  pool: seq<Enemy>, start: map<Enemy, Marking>, kills0: int, hits: seq<Enemy>,
                  target: Enemy, baseDamage: int, boost: int, crit: int, rolls: Enemy -> Rolls)
    requires BlastState(enemies, kills, marks, pool, start, kills0, hits, baseDamage, boost, crit, rolls)
    requires Distinct(enemies) && target in enemies && target !in hits
    requires forall e :: e in pool ==> e in marks' && (e != target ==> marks'[e] == marks[e])
    requires target in marks'
    requires marks'[target] == (marks[target].0 - HitDamage(baseDamage, boost, IsCritical(rolls(target).critRoll, crit)),
                                HIT_FLASH_TICKS, SLOW_TICKS)
    requires marks'[target].0 <= 0 ==> enemies' == RemoveFirst(enemies, target) && kills' == kills + 1
    requires marks'[target].0 > 0 ==> enemies' == enemies && kills' == kills
    ensures BlastState(enemies', kills', marks', pool, start, kills0, hits + [target],
                       baseDamage, boost, crit, rolls)
  {
    if marks'[target].0 <= 0 {
      RemoveFirstMembers(enemies, target);
    }
  }

  class WeaponSystem {
    var currentWeapon: Weapon
    var chargeHeld: int
    var burstQueue: int
    var burstTick: int
    /** Clock reading (ms) of the last shot fired. */
    var lastShot: int
    var crosshairSpread: int

    /** The charge stays within [0, chargeFrames] (0 for weapons that do not
        charge) and the burst queue is never negative. */
    ghost predicate Valid()
      reads this`chargeHeld, this`currentWeapon, this`burstQueue
    {
      && 0 <= chargeHeld
      && (currentWeapon.chargeFrames > 0 ==> chargeHeld <= currentWeapon.chargeFrames)
      && (currentWeapon.chargeFrames <= 0 ==> chargeHeld == 0)
      && 0 <= burstQueue
    }

    constructor (weapon: Weapon)
      ensures Valid() && currentWeapon == weapon
      ensures chargeHeld == 0 && burstQueue == 0 && burstTick == 0
      ensures lastShot == 0 && crosshairSpread == 0
    {
      currentWeapon := weapon;
      chargeHeld := 0;
      burstQueue := 0;
      burstTick := 0;
      lastShot := 0;
      crosshairSpread := 0;
    }

    /** Railgun charge progress in [0, 1]; 0 for weapons that do not charge. */
    function GetChargePct(): (r: real)
      reads this
      ensures Valid() ==> 0.0 <= r <= 1.0
      ensures currentWeapon.chargeFrames == 0 ==> r == 0.0
      ensures currentWeapon.chargeFrames != 0 ==> r * currentWeapon.chargeFrames as real == chargeHeld as real
    {
      if currentWeapon.chargeFrames == 0 then 0.0
      else chargeHeld as real / currentWeapon.chargeFrames as real
    }

    /** Switch weapons: charge and burst state cleared, a full magazine of the
        new weapon, its reload time, and any reload cancelled. */
    method Equip(weapon: Weapon, world: World)
      modifies this`currentWeapon, this`chargeHeld, this`burstQueue, this`burstTick
      modifies world`currentAmmo, world`maxAmmo, world`reloadTime, world`isReloading
      ensures Valid() && currentWeapon == weapon
      ensures chargeHeld == 0 && burstQueue == 0 && burstTick == 0
      ensures world.currentAmmo == weapon.maxAmmo && world.maxAmmo == weapon.maxAmmo
      ensures world.reloadTime == weapon.reloadTime && !world.isReloading
    {
      currentWeapon := weapon;
      chargeHeld := 0;
      burstQueue := 0;
      burstTick := 0;
      world.currentAmmo := weapon.maxAmmo;
      world.maxAmmo := weapon.maxAmmo;
      world.reloadTime := weapon.reloadTime;
      world.isReloading := false;
    }

    /** Only the mouse position may have changed: the weapon state, the
        ammo and everything a hit touches are as they were. */
    twostate predicate Idle(world: World, combat: CombatSystem, before: seq<Enemy>)
      reads this, world`currentAmmo, world`enemies, world`player, world`powerups, world`kills,
        world`score, world`screenShake, world.player, combat, before
    {
      unchanged(this) && world.currentAmmo == old(world.currentAmmo) && NoHit(world, combat, before)
    }

    /** A one-ray shot of the current weapon was fired at clock `now`: one
        ammo spent, the shot time and the crosshair spread set, and the ray
        resolved against the enemies `before` it. */
    twostate predicate Shot(world: World, combat: CombatSystem, now: int, spread: int,
                            cone: real, aim: Aim, rolls: Enemy -> Rolls, before: seq<Enemy>,
                            new hit: Option<nat>)
      reads this`currentWeapon, this`lastShot, this`crosshairSpread
      reads world`currentAmmo, world`enemies, world`player, world`powerups, world`kills, world`score,
        world`screenShake, world.player, world.powerups, combat, before
    {
      && currentWeapon == old(currentWeapon)
      && world.currentAmmo == old(world.currentAmmo) - 1
      && lastShot == now && crosshairSpread == spread
      && RayResolved(world, combat, currentWeapon.damage, Ray(aim, 0), cone, rolls, before, hit)
    }

    /** Whether a queued burst shot fires this tick. */
    static predicate BurstFires(queue: int, tick: int, ammo: int, reloading: bool)
    {
      queue > 0 && tick - 1 <= 0 && ammo > 0 && !reloading
    }

    /** The burst part of a tick: a running burst counts down, and when its
        countdown reaches zero with ammo and no reload one ray toward the
        cursor fires and the countdown restarts; otherwise nothing is shot. */
    twostate predicate BurstTicked(world: World, combat: CombatSystem, now: int, aim: Aim,
                                   rolls: Enemy -> Rolls, before: seq<Enemy>, new hit: Option<nat>)
      reads this`currentWeapon, this`burstQueue, this`burstTick, this`lastShot, currentWeapon
      reads world`currentAmmo, world`isReloading, world`enemies, world`player, world`powerups, world`kills,
        world`score, world`screenShake, world.player, world.powerups, combat, before
    {
      var fires := BurstFires(old(burstQueue), old(burstTick), old(world.currentAmmo), old(world.isReloading));
      && (old(burstQueue) <= 0 ==> burstQueue == old(burstQueue) && burstTick == old(burstTick))
      && (fires ==> && burstQueue == old(burstQueue) - 1
                    && burstTick == currentWeapon.burstInterval
                    && world.currentAmmo == old(world.currentAmmo) - 1
                    && lastShot == now
                    && RayResolved(world, combat, currentWeapon.damage, Ray(aim, 0), DEFAULT_CONE,
                                   rolls, before, hit))
      && (old(burstQueue) > 0 && !fires ==> && burstQueue == old(burstQueue)
                                            && burstTick == old(burstTick) - 1)
      && (!fires ==> && world.currentAmmo == old(world.currentAmmo)
                     && lastShot == old(lastShot)
                     && NoHit(world, combat, before))
    }

    /** Per-frame tick: a queued burst shot fires once its countdown reaches
        zero, if there is ammo and no reload; then the crosshair spread
        decays. `hit` names the enemy a burst shot picked. */
    method Update(world: World, combat: CombatSystem, now: int, aim: Aim, rolls: Enemy -> Rolls)
      returns (ghost hit: Option<nat>)
      requires Valid() && world.Valid() && world.EnemiesValid()
      modifies this`burstQueue, this`burstTick, this`lastShot, this`crosshairSpread
      modifies world`currentAmmo, world`kills, world`score, world`enemies, world`powerups,
        world`screenShake, world.player`health
      modifies world.enemies`health, world.enemies`hitFlash, world.enemies`slowTimer
      modifies combat`combo, combat`comboTimer, combat`hitmarkerTimer, combat`screenFlash
      ensures Valid() && world.Valid() && world.EnemiesValid()
      ensures var burst := BurstTicked(world, combat, now, aim, rolls, old(world.enemies), hit);
        burst
      ensures crosshairSpread == TickDown(if BurstFires(old(burstQueue), old(burstTick), old(world.currentAmmo),
                                                        old(world.isReloading))
                                          then SINGLE_SPREAD else old(crosshairSpread))
    {
      hit := None;
      if burstQueue > 0 {
        if BurstFires(burstQueue, burstTick, world.currentAmmo, world.isReloading) {
          hit := FireBurstShot(world, combat, now, aim, rolls, burstQueue - 1);
        } else {
          burstTick := burstTick - 1;
        }
      }
      if crosshairSpread > 0 {
        crosshairSpread := crosshairSpread - 1;
      }
    }

    /** What the railgun did this frame: it charges while the trigger is
        held, and on release fires only when fully charged; the charge then
        starts over. */
    twostate predicate Charged(world: World, combat: CombatSystem, held: bool, now: int, aim: Aim,
                               rolls: Enemy -> Rolls, before: seq<Enemy>, new hit: Option<nat>)
      reads this, world`currentAmmo, world`enemies, world`player, world`powerups, world`kills,
        world`score, world`screenShake, world.player, world.powerups, combat, before
    {
      && burstQueue == old(burstQueue) && burstTick == old(burstTick)
      && (held ==> && chargeHeld == Min(currentWeapon.chargeFrames, old(chargeHeld) + 1)
                   && lastShot == old(lastShot) && crosshairSpread == old(crosshairSpread)
                   && world.currentAmmo == old(world.currentAmmo)
                   && NoHit(world, combat, before))
      && (!held ==> chargeHeld == 0)
      && (!held && old(chargeHeld) >= currentWeapon.chargeFrames ==>
            Shot(world, combat, now, RAILGUN_SPREAD, RAILGUN_CONE, aim, rolls, before, hit))
      && (!held && old(chargeHeld) < currentWeapon.chargeFrames ==>
            && lastShot == old(lastShot) && crosshairSpread == old(crosshairSpread)
            && world.currentAmmo == old(world.currentAmmo)
            && NoHit(world, combat, before))
    }

    /** What a trigger pull of a weapon without charge did: nothing before
        the fire rate allows the next shot; otherwise the burst rifle starts
        a burst when none is running, the shotgun fires a blast of
        spreadCount rays for one ammo, and any other weapon one ray toward
        the cursor. */
    twostate predicate Triggered(world: World, combat: CombatSystem, now: int, aim: Aim,
                                 rolls: Enemy -> Rolls, before: seq<Enemy>, new hit: Option<nat>,
                                 new volley: Volley, new hits: seq<Enemy>)
      reads this, currentWeapon, world`currentAmmo, world`enemies, world`player, world`powerups, world`kills,
        world`score, world`screenShake, world.player, world.powerups, combat, before
    {
      if now - old(lastShot) < currentWeapon.fireRate * FRAME_MS then
        Idle(world, combat, before)
      else if currentWeapon.burstCount > 1 then
        if old(burstQueue) == 0 then
          && chargeHeld == old(chargeHeld)
          && burstQueue == currentWeapon.burstCount - 1 && burstTick == currentWeapon.burstInterval
          && Shot(world, combat, now, SINGLE_SPREAD, DEFAULT_CONE, aim, rolls, before, hit)
        else
          Idle(world, combat, before)
      else if currentWeapon.spreadCount > 1 then
        && chargeHeld == old(chargeHeld) && burstQueue == old(burstQueue) && burstTick == old(burstTick)
        && world.currentAmmo == old(world.currentAmmo) - 1
        && lastShot == now && crosshairSpread == SHOTGUN_SPREAD
        && VolleyResolved(world, currentWeapon.damage, aim, currentWeapon.spreadCount, rolls,
                          before, volley, hits)
      else
        && chargeHeld == old(chargeHeld) && burstQueue == old(burstQueue) && burstTick == old(burstTick)
        && Shot(world, combat, now, SINGLE_SPREAD, DEFAULT_CONE, aim, rolls, before, hit)
    }

    /** What a pull of the trigger (or a held trigger) did, apart from
        storing the mouse position: nothing while reloading or empty; else
        the railgun Charged and any other weapon Triggered. */
    twostate predicate Pulled(world: World, combat: CombatSystem, held: bool, now: int, aim: Aim,
                              rolls: Enemy -> Rolls, before: seq<Enemy>, new hit: Option<nat>,
                              new volley: Volley, new hits: seq<Enemy>)
      reads this, currentWeapon, world`currentAmmo, world`isReloading, world`enemies, world`player,
        world`powerups, world`kills, world`score, world`screenShake, world.player, world.powerups,
        combat, before
    {
      if old(world.isReloading) || old(world.currentAmmo) <= 0 then
        Idle(world, combat, before)
      else if currentWeapon.chargeFrames > 0 then
        Charged(world, combat, held, now, aim, rolls, before, hit)
      else
        Triggered(world, combat, now, aim, rolls, before, hit, volley, hits)
    }

    /** A pull of the trigger (or a held trigger) this frame: the mouse
        position is stored and the shot Pulled. The ghost results name what
        the shot hit: `hit` for a one-ray shot, `volley` and `hits` for a
        shotgun blast. The mouse position is stored after the shot, which
        reads no mouse position of the world. */
    method HandleShoot(world: World, combat: CombatSystem, mousePos: (real, real), held: bool,
                       now: int, aim: Aim, rolls: Enemy -> Rolls)
      returns (ghost hit: Option<nat>, ghost volley: Volley, ghost hits: seq<Enemy>)
      requires Valid() && world.Valid() && world.EnemiesValid()
      modifies this`chargeHeld, this`burstQueue, this`burstTick, this`lastShot, this`crosshairSpread
      modifies world`lastMousePos
      modifies world`currentAmmo, world`kills, world`score, world`enemies, world`powerups,
        world`screenShake, world.player`health
      modifies world.enemies`health, world.enemies`hitFlash, world.enemies`slowTimer
      modifies combat`combo, combat`comboTimer, combat`hitmarkerTimer, combat`screenFlash
      ensures Valid() && world.Valid() && world.EnemiesValid()
      ensures world.lastMousePos == mousePos
      ensures var pulled := Pulled(world, combat, held, now, aim, rolls, old(world.enemies), hit, volley, hits);
        pulled
    {
      hit, volley, hits := Pull(world, combat, held, now, aim, rolls);
      world.lastMousePos := mousePos;
    }

    /** Everything a trigger pull does but store the mouse position. */
    method Pull(world: World, combat: CombatSystem, held: bool, now: int, aim: Aim, rolls: Enemy -> Rolls)
      returns (ghost hit: Option<nat>, ghost volley: Volley, ghost hits: seq<Enemy>)
      requires Valid() && world.Valid() && world.EnemiesValid()
      modifies this`chargeHeld, this`burstQueue, this`burstTick, this`lastShot, this`crosshairSpread
      modifies world`currentAmmo, world`kills, world`score, world`enemies, world`powerups,
        world`screenShake, world.player`health
      modifies world.enemies`health, world.enemies`hitFlash, world.enemies`slowTimer
      modifies combat`combo, combat`comboTimer, combat`hitmarkerTimer, combat`screenFlash
      ensures Valid() && world.Valid() && world.EnemiesValid()
      ensures Pulled(world, combat, held, now, aim, rolls, old(world.enemies), hit, volley, hits)
    {
      hit, volley, hits := None, Volley([], [], []), [];
      if world.isReloading || world.currentAmmo <= 0 {
      } else if currentWeapon.chargeFrames > 0 {
        hit := Charge(world, combat, held, now, aim, rolls);
      } else {
        hit, volley, hits := Trigger(world, combat, now, aim, rolls);
      }
    }

    /** The railgun's part of a trigger pull. */
    method Charge(world: World, combat: CombatSystem, held: bool, now: int, aim: Aim, rolls: Enemy -> Rolls)
      returns (ghost hit: Option<nat>)
      requires Valid() && world.Valid() && world.EnemiesValid() && currentWeapon.chargeFrames > 0
      modifies this`chargeHeld, this`lastShot, this`crosshairSpread
      modifies world`currentAmmo, world`kills, world`score, world`enemies, world`powerups,
        world`screenShake, world.player`health
      modifies world.enemies`health, world.enemies`hitFlash, world.enemies`slowTimer
      modifies combat`combo, combat`comboTimer, combat`hitmarkerTimer, combat`screenFlash
      ensures Valid() && world.Valid() && world.EnemiesValid()
      ensures var charged := Charged(world, combat, held, now, aim, rolls, old(world.enemies), hit);
        charged
    {
      hit := None;
      if held {
        chargeHeld := Min(currentWeapon.chargeFrames, chargeHeld + 1);
      } else {
        if chargeHeld >= currentWeapon.chargeFrames {
          hit := FireRailgun(world, combat, now, aim, rolls);
        }
        chargeHeld := 0;
      }
    }

    /** The part of a trigger pull for weapons without charge. */
    method Trigger(world: World, combat: CombatSystem, now: int, aim: Aim, rolls: Enemy -> Rolls)
      returns (ghost hit: Option<nat>, ghost volley: Volley, ghost hits: seq<Enemy>)
      requires Valid() && world.Valid() && world.EnemiesValid()
      modifies this`burstQueue, this`burstTick, this`lastShot, this`crosshairSpread
      modifies world`currentAmmo, world`kills, world`score, world`enemies, world`powerups,
        world`screenShake, world.player`health
      modifies world.enemies`health, world.enemies`hitFlash, world.enemies`slowTimer
      modifies combat`combo, combat`comboTimer, combat`hitmarkerTimer, combat`screenFlash
      ensures Valid() && world.Valid() && world.EnemiesValid()
      ensures var triggered := Triggered(world, combat, now, aim, rolls, old(world.enemies), hit, volley, hits);
        triggered
    {
      hit, volley, hits := None, Volley([], [], []), [];
      var w := currentWeapon;
      if now - lastShot < w.fireRate * FRAME_MS {
        return;
      }
      if w.burstCount > 1 {
        if burstQueue == 0 {
          hit := FireBurstShot(world, combat, now, aim, rolls, w.burstCount - 1);
        }
        return;
      }
      if w.spreadCount > 1 {
        var blast;
        blast, volley := FireShotgun(world, combat, now, aim, rolls);
        hits := blast;
        return;
      }
      hit := FireSingle(world, combat, now, aim, rolls);
    }

    /** One ray toward the cursor: one ammo, and the closest enemy in the
        0.1 rad cone (if any) is hit. Returns its position in the list. */
    method FireSingle(world: World, combat: CombatSystem, now: int, aim: Aim, rolls: Enemy -> Rolls)
      returns (hit: Option<nat>)
      requires world.Valid() && world.EnemiesValid()
      modifies this`lastShot, this`crosshairSpread
      modifies world`currentAmmo, world`kills, world`score, world`enemies, world`powerups,
        world`screenShake, world.player`health
      modifies world.enemies`health, world.enemies`hitFlash, world.enemies`slowTimer
      modifies combat`combo, combat`comboTimer, combat`hitmarkerTimer, combat`screenFlash
      ensures world.Valid() && world.EnemiesValid()
      ensures Shot(world, combat, now, SINGLE_SPREAD, DEFAULT_CONE, aim, rolls, old(world.enemies), hit)
    {
      hit := FireRay(world, combat, DEFAULT_CONE, aim, rolls);
      Spend(world, now, SINGLE_SPREAD);
    }

    /** One shot of a burst: a single ray toward the cursor, after which
        `queue` shots stay queued and the next one waits burstInterval
        frames. */
    method FireBurstShot(world: World, combat: CombatSystem, now: int, aim: Aim, rolls: Enemy -> Rolls,
                         queue: nat)
      returns (hit: Option<nat>)
      requires world.Valid() && world.EnemiesValid()
      modifies this`burstQueue, this`burstTick, this`lastShot, this`crosshairSpread
      modifies world`currentAmmo, world`kills, world`score, world`enemies, world`powerups,
        world`screenShake, world.player`health
      modifies world.enemies`health, world.enemies`hitFlash, world.enemies`slowTimer
      modifies combat`combo, combat`comboTimer, combat`hitmarkerTimer, combat`screenFlash
      ensures world.Valid() && world.EnemiesValid()
      ensures burstQueue == queue && burstTick == currentWeapon.burstInterval
      ensures Shot(world, combat, now, SINGLE_SPREAD, DEFAULT_CONE, aim, rolls, old(world.enemies), hit)
    {
      hit := FireSingle(world, combat, now, aim, rolls);
      burstQueue := queue;
      burstTick := currentWeapon.burstInterval;
    }

    /** Fully charged railgun shot: one ammo, a 0.05 rad cone, no crosshair
        spread. Returns the position of the enemy hit. */
    method FireRailgun(world: World, combat: CombatSystem, now: int, aim: Aim, rolls: Enemy -> Rolls)
      returns (hit: Option<nat>)
      requires world.Valid() && world.EnemiesValid()
      modifies this`lastShot, this`crosshairSpread
      modifies world`currentAmmo, world`kills, world`score, world`enemies, world`powerups,
        world`screenShake, world.player`health
      modifies world.enemies`health, world.enemies`hitFlash, world.enemies`slowTimer
      modifies combat`combo, combat`comboTimer, combat`hitmarkerTimer, combat`screenFlash
      ensures world.Valid() && world.EnemiesValid()
      ensures Shot(world, combat, now, RAILGUN_SPREAD, RAILGUN_CONE, aim, rolls, old(world.enemies), hit)
    {
      hit := FireRay(world, combat, RAILGUN_CONE, aim, rolls);
      Spend(world, now, RAILGUN_SPREAD);
    }

    /** The bookkeeping of a shot: one round spent, the shot time stamped
        and the crosshair spread set. */
    method Spend(world: World, now: int, spread: int)
      modifies this`lastShot, this`crosshairSpread, world`currentAmmo
      ensures world.currentAmmo == old(world.currentAmmo) - 1
      ensures lastShot == now && crosshairSpread == spread
    {
      world.currentAmmo := world.currentAmmo - 1;
      lastShot := now;
      crosshairSpread := spread;
    }

    /** The ray of a one-ray shot: the closest enemy in the cone, if any,
        takes the current weapon's hit. Returns its position in the list. */
    method FireRay(world: World, combat: CombatSystem, cone: real, aim: Aim, rolls: Enemy -> Rolls)
      returns (hit: Option<nat>)
      requires world.Valid() && world.EnemiesValid()
      modifies world`kills, world`score, world`enemies, world`powerups, world`screenShake, world.player`health
      modifies world.enemies`health, world.enemies`hitFlash, world.enemies`slowTimer
      modifies combat`combo, combat`comboTimer, combat`hitmarkerTimer, combat`screenFlash
      ensures world.Valid() && world.EnemiesValid()
      ensures RayResolved(world, combat, currentWeapon.damage, Ray(aim, 0), cone, rolls, old(world.enemies), hit)
    {
      hit := Raycast(world.enemies, Ray(aim, 0), cone);
      if hit.Some? {
        var target := world.enemies[hit.value];
        var _ := combat.ApplyHit(world, currentWeapon.damage, target, rolls(target));
      }
    }

    /** spreadCount rays in a cone for one ammo; each ray's closest enemy is
        hit unless an earlier ray of this blast already hit it. Returns the
        enemies hit, in order, and the per-ray record. */
    method FireShotgun(world: World, combat: CombatSystem, now: int, aim: Aim, rolls: Enemy -> Rolls)
      returns (hits: seq<Enemy>, ghost volley: Volley)
      requires world.Valid() && world.EnemiesValid()
      modifies this`lastShot, this`crosshairSpread
      modifies world`currentAmmo, world`kills, world`score, world`enemies, world`powerups,
        world`screenShake, world.player`health
      modifies world.enemies`health, world.enemies`hitFlash, world.enemies`slowTimer
      modifies combat`combo, combat`comboTimer, combat`hitmarkerTimer, combat`screenFlash
      ensures world.Valid() && world.EnemiesValid()
      ensures world.currentAmmo == old(world.currentAmmo) - 1
      ensures lastShot == now && crosshairSpread == SHOTGUN_SPREAD
      ensures VolleyResolved(world, currentWeapon.damage, aim, Max(0, currentWeapon.spreadCount),
                             rolls, old(world.enemies), volley, hits)
      ensures Distinct(hits) && |hits| <= Max(0, currentWeapon.spreadCount)
    {
      hits, volley := Blast(world, combat, Max(0, currentWeapon.spreadCount), aim, rolls);
      world.currentAmmo := world.currentAmmo - 1;
      lastShot := now;
      crosshairSpread := SHOTGUN_SPREAD;
    }

    /** The rays of a blast, one after the other. */
    method Blast(world: World, combat: CombatSystem, rays: nat, aim: Aim, rolls: Enemy -> Rolls)
      returns (hits: seq<Enemy>, ghost volley: Volley)
      requires world.Valid() && world.EnemiesValid()
      modifies world`kills, world`score, world`enemies, world`powerups, world`screenShake, world.player`health
      modifies world.enemies`health, world.enemies`hitFlash, world.enemies`slowTimer
      modifies combat`combo, combat`comboTimer, combat`hitmarkerTimer, combat`screenFlash
      ensures world.Valid() && world.EnemiesValid()
      ensures var resolved := VolleyResolved(world, currentWeapon.damage, aim, rays, rolls,
                                             old(world.enemies), volley, hits);
        resolved
      ensures Distinct(hits) && |hits| <= rays
    {
      hits := [];
      ghost var pool, kills0 := world.enemies, world.kills;
      ghost var boost, crit := world.player.damageBoost, world.player.critChance;
      ghost var start := Marks(pool);
      ghost var seen := [pool];
      ghost var picks: seq<Option<nat>> := [];
      ghost var targets: seq<Option<Enemy>> := [];
      for i := 0 to rays
        invariant world.Valid() && world.EnemiesValid()
        invariant Recorded(Volley(seen, picks, targets), aim, i)
        invariant seen[0] == pool && seen[i] == world.enemies
        invariant hits == FirstHits(targets)
        invariant BlastState(world.enemies, world.kills, Marks(pool), pool, start, kills0, hits,
                             currentWeapon.damage, boost, crit, rolls)
      {
        hits, seen, picks, targets :=
          BlastNext(world, combat, i, aim, rolls, hits, seen, picks, targets, pool, start, kills0, boost, crit);
      }
      volley := Volley(seen, picks, targets);
      FirstHitsExact(targets);
      BlastDone(world, currentWeapon.damage, aim, rays, rolls, start, volley, hits);
    }

    /** A blast whose BlastState is measured against the enemies' marks on
        entry has resolved its volley. */
    twostate lemma BlastDone(world: World, new baseDamage: int, new aim: Aim, new rays: nat,
                             new rolls: Enemy -> Rolls, new start: map<Enemy, Marking>, new v: Volley,
                             new hits: seq<Enemy>)
      requires world.player == old(world.player)
      requires unchanged(world.player`damageBoost, world.player`critChance)
      requires start == old(Marks(world.enemies))
      requires Recorded(v, aim, rays) && v.seen[0] == old(world.enemies) && v.seen[rays] == world.enemies
      requires hits == FirstHits(v.targets)
      requires BlastState(world.enemies, world.kills, Marks(old(world.enemies)), old(world.enemies), start,
                          old(world.kills), hits, baseDamage, world.player.damageBoost,
                          world.player.critChance, rolls)
      ensures VolleyResolved(world, baseDamage, aim, rays, rolls, old(world.enemies), v, hits)
    {
    }

    /** One more ray of a blast, recorded in the volley. */
    method BlastNext(world: World, combat: CombatSystem, i: nat, aim: Aim, rolls: Enemy -> Rolls,
                     hits: seq<Enemy>, ghost seen: seq<seq<Enemy>>, ghost picks: seq<Option<nat>>,
                     ghost targets: seq<Option<Enemy>>, ghost pool: seq<Enemy>,
                     ghost start: map<Enemy, Marking>, ghost kills0: int, ghost boost: int, ghost crit: int)
      returns (hits': seq<Enemy>, ghost seen': seq<seq<Enemy>>, ghost picks': seq<Option<nat>>,
               ghost targets': seq<Option<Enemy>>)
      requires world.Valid() && world.EnemiesValid()
      requires world.player.damageBoost == boost && world.player.critChance == crit
      requires Recorded(Volley(seen, picks, targets), aim, i)
      requires seen[i] == world.enemies && hits == FirstHits(targets)
      requires BlastState(world.enemies, world.kills, Marks(pool), pool, start, kills0, hits,
                          currentWeapon.damage, boost, crit, rolls)
      modifies world`kills, world`score, world`enemies, world`powerups, world`screenShake, world.player`health
      modifies pool`health, pool`hitFlash, pool`slowTimer
      modifies combat`combo, combat`comboTimer, combat`hitmarkerTimer, combat`screenFlash
      ensures world.Valid() && world.EnemiesValid()
      ensures Recorded(Volley(seen', picks', targets'), aim, i + 1)
      ensures seen' == seen + [world.enemies] && hits' == FirstHits(targets')
      ensures BlastState(world.enemies, world.kills, Marks(pool), pool, start, kills0, hits',
                         currentWeapon.damage, boost, crit, rolls)
    {
      var pick;
      pick, hits' := BlastRay(world, combat, i, aim, rolls, hits, pool, start, kills0, boost, crit);
      ghost var t := Target(seen[i], pick);
      RecordRay(Volley(seen, picks, targets), aim, i, world.enemies, pick, t);
      seen', picks', targets' := seen + [world.enemies], picks + [pick], targets + [t];
    }

    /** Ray i of a blast, cast over the enemy list as the earlier rays left
        it: its closest enemy in the 0.1 rad cone is hit unless it is among
        the `hits` of the blast so far. Returns the pick and the updated
        hits; the ghost parameters describe the blast so far. */
    method BlastRay(world: World, combat: CombatSystem, i: nat, aim: Aim, rolls: Enemy -> Rolls,
                    hits: seq<Enemy>, ghost pool: seq<Enemy>, ghost start: map<Enemy, Marking>,
                    ghost kills0: int, ghost boost: int, ghost crit: int)
      returns (pick: Option<nat>, hits': seq<Enemy>)
      requires world.Valid() && world.EnemiesValid()
      requires world.player.damageBoost == boost && world.player.critChance == crit
      requires BlastState(world.enemies, world.kills, Marks(pool), pool, start, kills0, hits,
                          currentWeapon.damage, boost, crit, rolls)
      modifies world`kills, world`score, world`enemies, world`powerups, world`screenShake, world.player`health
      modifies pool`health, pool`hitFlash, pool`slowTimer
      modifies combat`combo, combat`comboTimer, combat`hitmarkerTimer, combat`screenFlash
      ensures world.Valid() && world.EnemiesValid()
      ensures var t := Target(old(world.enemies), pick);
        && RayStep(old(world.enemies), world.enemies, Ray(aim, i), pick, t)
        && hits' == (if t.Some? && t.value !in hits then hits + [t.value] else hits)
      ensures BlastState(world.enemies, world.kills, Marks(pool), pool, start, kills0, hits',
                         currentWeapon.damage, boost, crit, rolls)
    {
      var list := world.enemies;
      pick := Raycast(list, Ray(aim, i), DEFAULT_CONE);
      hits' := hits;
      if pick.Some? {
        var target := list[pick.value];
        if target !in hits {
          assert target in pool;
          BlastHit(world, combat, target, rolls, hits, pool, start, kills0, boost, crit);
          hits' := hits + [target];
        }
      }
    }

    /** The hit of a blast ray on an enemy not hit before in the blast. */
    method BlastHit(world: World, combat: CombatSystem, target: Enemy, rolls: Enemy -> Rolls,
                    hits: seq<Enemy>, ghost pool: seq<Enemy>, ghost start: map<Enemy, Marking>,
                    ghost kills0: int, ghost boost: int, ghost crit: int)
      requires world.Valid() && world.EnemiesValid()
      requires world.player.damageBoost == boost && world.player.critChance == crit
      requires target in world.enemies && target in pool && target !in hits
      requires BlastState(world.enemies, world.kills, Marks(pool), pool, start, kills0, hits,
                          currentWeapon.damage, boost, crit, rolls)
      modifies world`kills, world`score, world`enemies, world`powerups, world`screenShake, world.player`health
      modifies target`health, target`hitFlash, target`slowTimer
      modifies combat`combo, combat`comboTimer, combat`hitmarkerTimer, combat`screenFlash
      ensures world.Valid() && world.EnemiesValid()
      ensures world.enemies == old(world.enemies) || world.enemies == RemoveFirst(old(world.enemies), target)
      ensures BlastState(world.enemies, world.kills, Marks(pool), pool, start, kills0, hits + [target],
                         currentWeapon.damage, boost, crit, rolls)
    {
      ghost var marks, kills := Marks(pool), world.kills;
      var killed := combat.ApplyHit(world, currentWeapon.damage, target, rolls(target));
      BlastStep(old(world.enemies), kills, marks, world.enemies, world.kills, Marks(pool), pool, start, kills0,
                hits, target, currentWeapon.damage, boost, crit, rolls);
    }
  }
}
