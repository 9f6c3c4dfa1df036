/** entities/player.py: the player's health, one-hit shield, 30-tick
    invulnerability window and timed powerup effects. Drawing is not
    modelled; keyboard state is an input. */
module Players {
  import opened Common
  import opened Powerups

  const PLAYER_SIZE: int := 45
  const PLAYER_BASE_SPEED: real := 6.0
  const PLAYER_MAX_HEALTH: int := 100
  /** damage_boost is kept in thousandths: 1000 stands for 1.0. */
  const BOOST_ONE: int := 1000
  /** crit_chance is kept in hundredths: 15 stands for 0.15. */
  const BASE_CRIT_CHANCE: int := 15
  /** Length of the invulnerability window and of the damage indicator. */
  const INVULNERABILITY_TICKS: int := 30
  /** Duration of the damage, speed and shield powerups. */
  const POWERUP_TICKS: int := 300
  const HEALTH_PICKUP: int := 30

  /** The movement keys W, S, A, D held during this tick. */
  datatype Keys = Keys(up: bool, down: bool, left: bool, right: bool)

  /** A value that holds while its timer runs and falls back to a default when
      the timer, counting down by one per tick, reaches zero. */
  datatype Timed<V> = Timed(value: V, timer: int)

  function TimedTick<V>(e: Timed<V>, default: V): Timed<V>
  {
    if e.timer > 0 then
      Timed(if e.timer - 1 == 0 then default else e.value, e.timer - 1)
    else e
  }

  function TimedAfter<V>(e: Timed<V>, default: V, n: nat): Timed<V>
    decreases n
  {
    if n == 0 then e else TimedAfter(TimedTick(e, default), default, n - 1)
  }

  /** A timed effect started with timer t keeps its value for exactly t ticks,
      then holds the default with the timer at zero. */
  lemma {:induction false} TimedEffectLasts<V>(e: Timed<V>, default: V, n: nat)
    requires e.timer >= 1
    ensures TimedAfter(e, default, n) ==
      if n < e.timer then Timed(e.value, e.timer - n) else Timed(default, 0)
    decreases n
  {
    if n > 0 {
      var next := TimedTick(e, default);
      if e.timer == 1 {
        ExpiredEffectStays(next, default, n - 1);
      } else {
        TimedEffectLasts(next, default, n - 1);
      }
    }
  }

  lemma {:induction false} ExpiredEffectStays<V>(e: Timed<V>, default: V, n: nat)
    requires e == Timed(default, 0)
    ensures TimedAfter(e, default, n) == e
    decreases n
  {
    if n > 0 {
      ExpiredEffectStays(TimedTick(e, default), default, n - 1);
    }
  }

  /** One tick of the invulnerability window (is_invulnerable,
      invulnerable_time). */
  function InvulnerabilityTick(on: bool, t: int): (bool, int)
  {
    if on then (t - 1 > 0, t - 1) else (on, t)
  }

  function InvulnerabilityAfter(on: bool, t: int, n: nat): (bool, int)
  {
    if n == 0 then (on, t)
    else
      var next := InvulnerabilityTick(on, t);
      InvulnerabilityAfter(next.0, next.1, n - 1)
  }

  /** A window opened with t ticks left is still open after n ticks exactly
      when n < t; in particular an accepted hit (t = 30) protects the player
      for the next 29 updates and the 30th closes the window. */
  lemma {:induction false} InvulnerabilityLasts(t: int, n: nat)
    requires t >= 1
    ensures InvulnerabilityAfter(true, t, n).0 <==> n < t
  {
    if n > 0 {
      if t == 1 {
        ClosedWindowStays(0, n - 1);
      } else {
        InvulnerabilityLasts(t - 1, n - 1);
      }
    }
  }

  lemma {:induction false} ClosedWindowStays(t: int, n: nat)
    ensures InvulnerabilityAfter(false, t, n) == (false, t)
  {
    if n > 0 {
      ClosedWindowStays(t, n - 1);
    }
  }

  /** Horizontal and vertical displacement for the held keys. */
  function Displacement(keys: Keys, speed: real): (d: (real, real))
    ensures keys.left == keys.right ==> d.0 == 0.0
    ensures keys.right && !keys.left ==> d.0 == speed
    ensures keys.left && !keys.right ==> d.0 == -speed
    ensures keys.up == keys.down ==> d.1 == 0.0
    ensures keys.down && !keys.up ==> d.1 == speed
    ensures keys.up && !keys.down ==> d.1 == -speed
  {
    ((if keys.right then speed else 0.0) - (if keys.left then speed else 0.0),
     (if keys.down then speed else 0.0) - (if keys.up then speed else 0.0))
  }

  /** The part of the player's state that hits and pickups change. */
  datatype Vitals = Vitals(health: int, shieldActive: bool, shieldTimer: int,
                           isInvulnerable: bool, invulnerableTime: int,
                           damageDirection: Option<(real, real)>, damageIndicatorTimer: int,
                           damageBoost: int, damageBoostTimer: int, speedBoostTimer: int)

  /** Damage offered to the player, and where it came from. */
  datatype Blow = Blow(amount: int, direction: Option<(real, real)>)

  /** The take_damage rule: an active shield absorbs the blow and is used
      up; else a vulnerable player loses the amount, turns invulnerable and
      shows the indicator toward the blow for 30 ticks; else nothing
      happens. The flag says whether the damage got through. */
  function Struck(v: Vitals, b: Blow): (r: (Vitals, bool))
  {
    if v.shieldActive then (v.(shieldActive := false, shieldTimer := 0), false)
    else if !v.isInvulnerable then
      (v.(health := v.health - b.amount, isInvulnerable := true,
          invulnerableTime := INVULNERABILITY_TICKS, damageDirection := b.direction,
          damageIndicatorTimer := INVULNERABILITY_TICKS), true)
    else (v, false)
  }

  /** Blows taken one after the other; the flag says whether any got
      through. */
  function StruckAll(v: Vitals, blows: seq<Blow>): (r: (Vitals, bool))
    decreases |blows|
  {
    if blows == [] then (v, false)
    else
      var before := StruckAll(v, blows[..|blows| - 1]);
      var last := Struck(before.0, blows[|blows| - 1]);
      (last.0, before.1 || last.1)
  }

  /** One more blow at the end of a series. */
  lemma StruckAllSnoc(v: Vitals, blows: seq<Blow>, b: Blow)
    ensures var before := StruckAll(v, blows);
      var last := Struck(before.0, b);
      StruckAll(v, blows + [b]) == (last.0, before.1 || last.1)
  {
    assert (blows + [b])[..|blows|] == blows;
  }

  /** Within one series of blows (one collision pass) at most one gets
      through, from any starting state, including a window already partly
      run down: the player loses exactly one blow's amount, or nothing (so
      an invulnerable player loses nothing), and after a blow that got
      through is invulnerable with a full window. */
  lemma {:induction false} StruckAllOnce(v: Vitals, blows: seq<Blow>)
    ensures var r := StruckAll(v, blows);
      && (!r.1 ==> r.0.health == v.health)
      && (r.1 ==> exists i :: 0 <= i < |blows| && r.0.health == v.health - blows[i].amount)
      && (r.1 ==> r.0.isInvulnerable && r.0.invulnerableTime == INVULNERABILITY_TICKS
                  && r.0.damageIndicatorTimer == INVULNERABILITY_TICKS)
      && (r.0.isInvulnerable <==> v.isInvulnerable || r.1)
    decreases |blows|
  {
    if blows != [] {
      var init := blows[..|blows| - 1];
      StruckAllOnce(v, init);
      var before := StruckAll(v, init);
      if before.1 {
        var i :| 0 <= i < |init| && before.0.health == v.health - init[i].amount;
        assert blows[i] == init[i];
      }
    }
  }

  /** A series of blows gets through exactly when the player was vulnerable
      and there was one blow more than the shield could absorb: an active
      shield takes the first blow and the second one hurts. */
  lemma {:induction false} StruckAllHurts(v: Vitals, blows: seq<Blow>)
    ensures StruckAll(v, blows).1 <==>
      !v.isInvulnerable && |blows| > (if v.shieldActive then 1 else 0)
    ensures blows != [] ==> !StruckAll(v, blows).0.shieldActive
    decreases |blows|
  {
    if blows != [] {
      StruckAllHurts(v, blows[..|blows| - 1]);
    }
  }

  /** The apply_powerup rule: health heals by 30 up to the maximum, the
      damage and speed boosts and the shield start their 300-tick timers,
      and ammo does nothing to the player. */
  function Powered(v: Vitals, maxHealth: int, kind: PowerupType): (r: Vitals)
  {
    match kind
    case Health => v.(health := Min(maxHealth, v.health + HEALTH_PICKUP))
    case DamageBoost => v.(damageBoost := 2 * BOOST_ONE, damageBoostTimer := POWERUP_TICKS)
    case SpeedBoost => v.(speedBoostTimer := POWERUP_TICKS)
    case Shield => v.(shieldActive := true, shieldTimer := POWERUP_TICKS)
    case Ammo => v
  }

  /** Powerups applied one after the other. */
  function PoweredAll(v: Vitals, maxHealth: int, kinds: seq<PowerupType>): (r: Vitals)
    decreases |kinds|
  {
    if kinds == [] then v
    else Powered(PoweredAll(v, maxHealth, kinds[..|kinds| - 1]), maxHealth, kinds[|kinds| - 1])
  }

  /** One more powerup at the end of a batch. */
  lemma PoweredAllSnoc(v: Vitals, maxHealth: int, kinds: seq<PowerupType>, k: PowerupType)
    ensures PoweredAll(v, maxHealth, kinds + [k]) == Powered(PoweredAll(v, maxHealth, kinds), maxHealth, k)
  {
    assert (kinds + [k])[..|kinds|] == kinds;
  }

  function CountKind(kinds: seq<PowerupType>, kind: PowerupType): nat
    decreases |kinds|
  {
    if kinds == [] then 0
    else CountKind(kinds[..|kinds| - 1], kind) + (if kinds[|kinds| - 1] == kind then 1 else 0)
  }

  /** Picking up several powerups at once, health pickups add up (30 each)
      to at most the maximum. */
  lemma {:induction false} PoweredAllHealth(v: Vitals, maxHealth: int, kinds: seq<PowerupType>)
    requires v.health <= maxHealth
    ensures PoweredAll(v, maxHealth, kinds).health ==
      Min(maxHealth, v.health + HEALTH_PICKUP * CountKind(kinds, Health))
    decreases |kinds|
  {
    if kinds != [] {
      var init := kinds[..|kinds| - 1];
      PoweredAllHealth(v, maxHealth, init);
      var c := CountKind(init, Health);
      assert HEALTH_PICKUP * (c + 1) == HEALTH_PICKUP * c + HEALTH_PICKUP;
    }
  }

  /** The shield is on after a batch of pickups exactly when it was on
      before or one of them was a shield. */
  lemma {:induction false} PoweredAllShield(v: Vitals, maxHealth: int, kinds: seq<PowerupType>)
    ensures PoweredAll(v, maxHealth, kinds).shieldActive <==> v.shieldActive || Shield in kinds
    decreases |kinds|
  {
    if kinds != [] {
      var init := kinds[..|kinds| - 1];
      PoweredAllShield(v, maxHealth, init);
      assert kinds == init + [kinds[|kinds| - 1]];
    }
  }

  /** The damage boost is doubled after a batch with a damage pickup and
      kept otherwise. */
  lemma {:induction false} PoweredAllBoost(v: Vitals, maxHealth: int, kinds: seq<PowerupType>)
    ensures var r := PoweredAll(v, maxHealth, kinds);
      && (DamageBoost in kinds ==> r.damageBoost == 2 * BOOST_ONE)
      && (DamageBoost !in kinds ==> r.damageBoost == v.damageBoost)
    decreases |kinds|
  {
    if kinds != [] {
      var init := kinds[..|kinds| - 1];
      PoweredAllBoost(v, maxHealth, init);
      assert kinds == init + [kinds[|kinds| - 1]];
    }
  }

  /** Pickups never touch the state that only hits change: the
      invulnerability window and the damage indicator. */
  lemma {:induction false} PoweredAllKeepsHits(v: Vitals, maxHealth: int, kinds: seq<PowerupType>)
    ensures var r := PoweredAll(v, maxHealth, kinds);
      && r.isInvulnerable == v.isInvulnerable && r.invulnerableTime == v.invulnerableTime
      && r.damageDirection == v.damageDirection && r.damageIndicatorTimer == v.damageIndicatorTimer
    decreases |kinds|
  {
    if kinds != [] {
      PoweredAllKeepsHits(v, maxHealth, kinds[..|kinds| - 1]);
    }
  }

  class Player {
    var x: real
    var y: real
    const size: int
    const baseSpeed: real
    var speed: real
    var health: int
    var maxHealth: int
    var invulnerableTime: int
    var isInvulnerable: bool
    var damageBoost: int
    var damageBoostTimer: int
    var speedBoostTimer: int
    var shieldActive: bool
    var shieldTimer: int
    var critChance: int
    var lifesteal: int
    var dashUnlocked: bool
    var dashCooldown: int
    var damageDirection: Option<(real, real)>
    var damageIndicatorTimer: int

    constructor (x: real, y: real)
      ensures this.x == x && this.y == y
      ensures size == PLAYER_SIZE && baseSpeed == PLAYER_BASE_SPEED && speed == baseSpeed
      ensures health == PLAYER_MAX_HEALTH && maxHealth == PLAYER_MAX_HEALTH
      ensures !isInvulnerable && invulnerableTime == 0
      ensures damageBoost == BOOST_ONE && damageBoostTimer == 0 && speedBoostTimer == 0
      ensures !shieldActive && shieldTimer == 0
      ensures critChance == BASE_CRIT_CHANCE && lifesteal == 0 && !dashUnlocked && dashCooldown == 0
      ensures damageDirection == None && damageIndicatorTimer == 0
    {
      this.x := x;
      this.y := y;
      size := PLAYER_SIZE;
      baseSpeed := PLAYER_BASE_SPEED;
      speed := PLAYER_BASE_SPEED;
      health := PLAYER_MAX_HEALTH;
      maxHealth := PLAYER_MAX_HEALTH;
      invulnerableTime := 0;
      isInvulnerable := false;
      damageBoost := BOOST_ONE;
      damageBoostTimer := 0;
      speedBoostTimer := 0;
      shieldActive := false;
      shieldTimer := 0;
      critChance := BASE_CRIT_CHANCE;
      lifesteal := 0;
      dashUnlocked := false;
      dashCooldown := 0;
      damageDirection := None;
      damageIndicatorTimer := 0;
    }

    /** One tick: move with the current speed, clamp to the play area
        [0, width - size] x [0, height - size], then run every timer. */
    method Update(keys: Keys, width: int, height: int)
      modifies this`x, this`y, this`speed, this`isInvulnerable, this`invulnerableTime,
        this`damageBoost, this`damageBoostTimer, this`speedBoostTimer,
        this`shieldActive, this`shieldTimer, this`damageIndicatorTimer
      ensures var d := Displacement(keys, old(speed));
        x == ClampR(old(x) + d.0, 0.0, (width - size) as real) &&
        y == ClampR(old(y) + d.1, 0.0, (height - size) as real)
      ensures 0.0 <= x && 0.0 <= y
      ensures width >= size ==> x <= (width - size) as real
      ensures height >= size ==> y <= (height - size) as real
      ensures (isInvulnerable, invulnerableTime) ==
        InvulnerabilityTick(old(isInvulnerable), old(invulnerableTime))
      ensures Timed(damageBoost, damageBoostTimer) ==
        TimedTick(Timed(old(damageBoost), old(damageBoostTimer)), BOOST_ONE)
      ensures Timed(shieldActive, shieldTimer) ==
        TimedTick(Timed(old(shieldActive), old(shieldTimer)), false)
      ensures speedBoostTimer == TickDown(old(speedBoostTimer))
      ensures speed == if old(speedBoostTimer) > 0 then baseSpeed * 1.5 else baseSpeed
      ensures damageIndicatorTimer == TickDown(old(damageIndicatorTimer))
    {
      Move(keys, width, height);
      TickTimers();
    }

    method Move(keys: Keys, width: int, height: int)
      modifies this`x, this`y
      ensures var d := Displacement(keys, speed);
        x == ClampR(old(x) + d.0, 0.0, (width - size) as real) &&
        y == ClampR(old(y) + d.1, 0.0, (height - size) as real)
      ensures 0.0 <= x && 0.0 <= y
      ensures width >= size ==> x <= (width - size) as real
      ensures height >= size ==> y <= (height - size) as real
    {
      if keys.up { y := y - speed; }
      if keys.down { y := y + speed; }
      if keys.left { x := x - speed; }
      if keys.right { x := x + speed; }
      x := MaxR(0.0, MinR((width - size) as real, x));
      y := MaxR(0.0, MinR((height - size) as real, y));
    }

    method TickTimers()
      modifies this`speed, this`isInvulnerable, this`invulnerableTime,
        this`damageBoost, this`damageBoostTimer, this`speedBoostTimer,
        this`shieldActive, this`shieldTimer, this`damageIndicatorTimer
      ensures (isInvulnerable, invulnerableTime) ==
        InvulnerabilityTick(old(isInvulnerable), old(invulnerableTime))
      ensures Timed(damageBoost, damageBoostTimer) ==
        TimedTick(Timed(old(damageBoost), old(damageBoostTimer)), BOOST_ONE)
      ensures Timed(shieldActive, shieldTimer) ==
        TimedTick(Timed(old(shieldActive), old(shieldTimer)), false)
      ensures speedBoostTimer == TickDown(old(speedBoostTimer))
      ensures speed == if old(speedBoostTimer) > 0 then baseSpeed * 1.5 else baseSpeed
      ensures damageIndicatorTimer == TickDown(old(damageIndicatorTimer))
    {
      if isInvulnerable {
        invulnerableTime := invulnerableTime - 1;
        if invulnerableTime <= 0 {
          isInvulnerable := false;
        }
      }
      assert (isInvulnerable, invulnerableTime) == InvulnerabilityTick(old(isInvulnerable), old(invulnerableTime));

      if damageBoostTimer > 0 {
        damageBoostTimer := damageBoostTimer - 1;
        if damageBoostTimer == 0 {
          damageBoost := BOOST_ONE;
        }
      }
      assert Timed(damageBoost, damageBoostTimer) == TimedTick(Timed(old(damageBoost), old(damageBoostTimer)), BOOST_ONE);

      if speedBoostTimer > 0 {
        speedBoostTimer := speedBoostTimer - 1;
        speed := baseSpeed * 1.5;
      } else {
        speed := baseSpeed;
      }

      if shieldTimer > 0 {
        shieldTimer := shieldTimer - 1;
        if shieldTimer == 0 {
          shieldActive := false;
        }
      }

      if damageIndicatorTimer > 0 {
        damageIndicatorTimer := damageIndicatorTimer - 1;
      }
    }

    /** A hit of `amount`. An active shield absorbs it and is used up; an
        unshielded, vulnerable player loses exactly `amount` (health is not
        clamped at zero) and becomes invulnerable for 30 ticks; otherwise
        nothing happens. The result says whether the damage was accepted. */
    method TakeDamage(amount: int, direction: Option<(real, real)>) returns (accepted: bool)
      modifies this`shieldActive, this`shieldTimer, this`health, this`isInvulnerable,
        this`invulnerableTime, this`damageDirection, this`damageIndicatorTimer
      ensures accepted <==> !old(shieldActive) && !old(isInvulnerable)
      ensures !shieldActive
      ensures shieldTimer == if old(shieldActive) then 0 else old(shieldTimer)
      ensures health == if accepted then old(health) - amount else old(health)
      ensures accepted ==> (isInvulnerable && invulnerableTime == INVULNERABILITY_TICKS &&
        damageIndicatorTimer == INVULNERABILITY_TICKS && damageDirection == direction)
      ensures !accepted ==> (isInvulnerable == old(isInvulnerable) &&
        invulnerableTime == old(invulnerableTime) &&
        damageIndicatorTimer == old(damageIndicatorTimer) && damageDirection == old(damageDirection))
      ensures (Status(), accepted) == Struck(old(Status()), Blow(amount, direction))
    {
      if shieldActive {
        shieldActive := false;
        shieldTimer := 0;
        return false;
      }
      if !isInvulnerable {
        health := health - amount;
        isInvulnerable := true;
        invulnerableTime := INVULNERABILITY_TICKS;
        damageDirection := direction;
        damageIndicatorTimer := INVULNERABILITY_TICKS;
        return true;
      }
      return false;
    }

    /** The effect of picking up a powerup on the player. AMMO has no effect
        here; the collision pass refills the magazine. */
    method ApplyPowerup(kind: PowerupType)
      modifies this`health, this`damageBoost, this`damageBoostTimer, this`speedBoostTimer,
        this`shieldActive, this`shieldTimer
      ensures health == if kind == Health then Min(maxHealth, old(health) + HEALTH_PICKUP) else old(health)
      ensures kind == Health ==> health <= maxHealth
      ensures damageBoost == if kind == DamageBoost then 2 * BOOST_ONE else old(damageBoost)
      ensures damageBoostTimer == if kind == DamageBoost then POWERUP_TICKS else old(damageBoostTimer)
      ensures speedBoostTimer == if kind == SpeedBoost then POWERUP_TICKS else old(speedBoostTimer)
      ensures shieldActive == (kind == Shield || old(shieldActive))
      ensures shieldTimer == if kind == Shield then POWERUP_TICKS else old(shieldTimer)
      ensures Status() == Powered(old(Status()), maxHealth, kind)
    {
      match kind
      case Health =>
        health := Min(maxHealth, health + HEALTH_PICKUP);
      case DamageBoost =>
        damageBoost := 2 * BOOST_ONE;
        damageBoostTimer := POWERUP_TICKS;
      case SpeedBoost =>
        speedBoostTimer := POWERUP_TICKS;
      case Shield =>
        shieldActive := true;
        shieldTimer := POWERUP_TICKS;
      case Ammo =>
    }

    /** The player's current Vitals. */
    function Status(): Vitals
      reads this
    {
      Vitals(health, shieldActive, shieldTimer, isInvulnerable, invulnerableTime,
             damageDirection, damageIndicatorTimer, damageBoost, damageBoostTimer, speedBoostTimer)
    }

    function GetCenter(): (c: (real, real))
      reads this
    {
      (x + (size / 2) as real, y + (size / 2) as real)
    }

    /** Alive while any health is left; a player at full health is alive. */
    predicate IsAlive(): (alive: bool)
      reads this
      ensures alive <==> health >= 1
      ensures 1 <= maxHealth == health ==> alive
    {
      health > 0
    }
  }
}
