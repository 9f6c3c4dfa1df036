/** entities/enemy.py: an enemy's wave-scaled stats, its hit reaction, its
    per-tick timers and the per-type AI modes (Shooter, Hunter, Sniper,
    Support; Rusher, Tank and Swarm simply chase). The geometry an enemy
    perceives each tick (unit vector and distance to the player, the Hunter's
    predicted approach vector, distances to other enemies) and the Shooter's
    2% strafe flip are inputs. Drawing is not modelled. */
module Enemies {
  import opened Common

  datatype EnemyType = Rusher | Tank | Shooter | Swarm | Hunter | Sniper | Support

  datatype AIState = Chase | Attack | Retreat | Strafe | Flank | Aim | SupportIdle

  /** One row of the enemy configuration table. */
  datatype EnemyStats = EnemyStats(size: int, baseSpeed: real, health: int, damage: int,
                                   color: Color, scoreValue: int)

  /** What an enemy perceives during one tick: the unit vector (dx, dy) and the
      distance to the player's centre, the unit vector (pdx, pdy) towards the
      Hunter's predicted player position, whether the Shooter's 2% strafe flip
      roll succeeded, and the distance from this enemy's centre (after it
      moved) to each other enemy's centre. */
  datatype Senses = Senses(dx: real, dy: real, distance: real, pdx: real, pdy: real,
                           strafeFlip: bool, reach: Enemy -> real)

  const SHOOTER_CHASE_BEYOND: real := 200.0
  const SHOOTER_RETREAT_WITHIN: real := 150.0
  const SHOOTER_RANGE: real := 400.0
  const SHOOTER_COOLDOWN: int := 90
  /** The Hunter flips sides once its counter exceeds this value. */
  const FLANK_SWITCH_AFTER: int := 120
  const SNIPER_RANGE: real := 350.0
  const AIM_TICKS: int := 60
  const SNIPER_COOLDOWN: int := 120
  const SUPPORT_KEEP_AWAY: real := 250.0
  const HEAL_TICKS: int := 60
  const HEAL_RADIUS: real := 120.0
  const HEAL_AMOUNT: int := 2
  const HIT_FLASH_TICKS: int := 10
  const SLOW_TICKS: int := 5

  /** Spawn health: int(base * (1 + 0.1 * wave)). */
  function ScaledHealth(base: int, wave: int): (h: int)
    ensures 0 <= base && 0 <= wave ==> base <= h && 10 * h <= base * (10 + wave) < 10 * h + 10
  {
    ScaleByTenths(base, wave)
  }

  /** A counter that counts ticks and wraps to 0 when it reaches `period`,
      reporting the wrap: the Sniper's aim timer (60), the Support's heal tick
      (60) and the Hunter's flank switch timer (which wraps when it exceeds 120,
      i.e. on reaching 121). */
  function CycleTick(t: int, period: int): (int, bool)
  {
    if t + 1 >= period then (0, true) else (t + 1, false)
  }

  /** The counter after n ticks and the number of wraps on the way. */
  function CycleAfter(t: int, period: int, n: nat): (int, nat)
    decreases n
  {
    if n == 0 then (t, 0)
    else
      var next := CycleTick(t, period);
      var rest := CycleAfter(next.0, period, n - 1);
      (rest.0, rest.1 + if next.1 then 1 else 0)
  }

  /** Starting from t in [0, period), n ticks leave the counter at c and
      wrap w times where t + n == w * period + c and 0 <= c < period, i.e. the
      counter is (t + n) mod period and there is exactly one shot, heal pulse
      or side switch per full period. */
  lemma {:induction false} CycleCounts(t: int, period: int, n: nat)
    requires 0 <= t < period
    ensures var r := CycleAfter(t, period, n);
      t + n == r.1 * period + r.0 && 0 <= r.0 < period
    decreases n
  {
    if n > 0 {
      if t + 1 >= period {
        CycleCounts(0, period, n - 1);
        var r := CycleAfter(0, period, n - 1);
        assert (r.1 + 1) * period == r.1 * period + period;
      } else {
        CycleCounts(t + 1, period, n - 1);
      }
    }
  }

  /** Shooter mode by distance to the player. */
  function ShooterMode(distance: real): (m: AIState)
    ensures m == Chase <==> distance > SHOOTER_CHASE_BEYOND
    ensures m == Retreat <==> distance < SHOOTER_RETREAT_WITHIN
    ensures m == Strafe <==> SHOOTER_RETREAT_WITHIN <= distance <= SHOOTER_CHASE_BEYOND
  {
    if distance > SHOOTER_CHASE_BEYOND then Chase
    else if distance < SHOOTER_RETREAT_WITHIN then Retreat
    else Strafe
  }

  /** Sniper mode by distance and by the post-shot cooldown. */
  function SniperMode(distance: real, cooldown: int): (m: AIState)
    ensures m == Chase <==> distance > SNIPER_RANGE
    ensures m == Strafe <==> distance <= SNIPER_RANGE && cooldown > 0
    ensures m == Aim <==> distance <= SNIPER_RANGE && cooldown <= 0
  {
    if distance > SNIPER_RANGE then Chase
    else if cooldown > 0 then Strafe
    else Aim
  }

  /** Support mode by distance to the player. */
  function SupportMode(distance: real): (m: AIState)
    ensures m == SupportIdle <==> distance < SUPPORT_KEEP_AWAY
    ensures m == Chase <==> distance >= SUPPORT_KEEP_AWAY
  {
    if distance < SUPPORT_KEEP_AWAY then SupportIdle else Chase
  }

  /** Speed after the hit slow: 70% while the slow timer runs. */
  function EffectiveSpeed(speed: real, slowTimer: int): (s: real)
    ensures 0.0 <= speed ==> 0.0 <= s <= speed
    ensures slowTimer <= 0 ==> s == speed
    ensures slowTimer > 0 ==> 10.0 * s == 7.0 * speed
  {
    speed * (if slowTimer > 0 then 0.7 else 1.0)
  }

  /** The displacement an enemy of this kind makes in the given mode. */
  function Movement(kind: EnemyType, mode: AIState, s: Senses, speed: real,
                    strafe: int, flank: int): (real, real)
  {
    match kind
    case Shooter =>
      if mode == Chase then (s.dx * speed, s.dy * speed)
      else if mode == Retreat then (-(s.dx * speed * 0.7), -(s.dy * speed * 0.7))
      else (-s.dy * speed * strafe as real, s.dx * speed * strafe as real)
    case Hunter =>
      ((s.pdx * 0.6 + (-s.pdy * flank as real) * 0.4) * speed,
       (s.pdy * 0.6 + (s.pdx * flank as real) * 0.4) * speed)
    case Sniper =>
      if mode == Chase then (s.dx * speed, s.dy * speed)
      else if mode == Strafe then (-s.dy * speed * 0.5, s.dx * speed * 0.5)
      else (0.0, 0.0)
    case Support =>
      if mode == SupportIdle then (-(s.dx * speed * 0.5), -(s.dy * speed * 0.5))
      else (s.dx * speed * 0.3, s.dy * speed * 0.3)
    case _ => (s.dx * speed, s.dy * speed)
  }

  class Enemy {
    var x: real
    var y: real
    const kind: EnemyType
    const wave: int
    var size: int
    const baseSpeed: real
    var health: int
    const damage: int
    const color: Color
    const scoreValue: int
    const speed: real
    var maxHealth: int
    var state: AIState
    var shootCooldown: int
    var strafeDirection: int
    var flankSide: int
    var flankSwitchTimer: int
    var aimTimer: int
    var sniperCooldown: int
    var healTick: int
    var hitFlash: int
    var slowTimer: int

    /** The ranges every tick keeps: timers never negative, the three cyclic
        counters below their wrap points, the strafe and flank sides +-1. */
    ghost predicate Valid()
      reads this
    {
      && 0 <= shootCooldown && 0 <= sniperCooldown && 0 <= hitFlash && 0 <= slowTimer
      && 0 <= aimTimer < AIM_TICKS
      && 0 <= healTick < HEAL_TICKS
      && 0 <= flankSwitchTimer <= FLANK_SWITCH_AFTER
      && (strafeDirection == 1 || strafeDirection == -1)
      && (flankSide == 1 || flankSide == -1)
    }

    /** A new enemy of `kind` for wave `waveNumber`: speed grows by 0.08 per
        wave and health by 10% per wave (truncated), with max health equal to
        the scaled health. The two random side choices are inputs. */
    constructor (x: real, y: real, waveNumber: int, kind: EnemyType, stats: EnemyStats,
                 strafeDirection: int, flankSide: int)
      requires strafeDirection == 1 || strafeDirection == -1
      requires flankSide == 1 || flankSide == -1
      ensures Valid()
      ensures this.x == x && this.y == y && this.kind == kind && wave == waveNumber
      ensures size == stats.size && baseSpeed == stats.baseSpeed && damage == stats.damage
      ensures color == stats.color && scoreValue == stats.scoreValue
      ensures speed == stats.baseSpeed + waveNumber as real * 0.08
      ensures health == ScaledHealth(stats.health, waveNumber) && maxHealth == health
      ensures state == Chase && shootCooldown == 0 && sniperCooldown == 0
      ensures this.strafeDirection == strafeDirection && this.flankSide == flankSide
      ensures flankSwitchTimer == 0 && aimTimer == 0 && healTick == 0
      ensures hitFlash == 0 && slowTimer == 0
    {
      this.x := x;
      this.y := y;
      this.kind := kind;
      wave := waveNumber;
      size := stats.size;
      baseSpeed := stats.baseSpeed;
      damage := stats.damage;
      color := stats.color;
      scoreValue := stats.scoreValue;
      speed := stats.baseSpeed + waveNumber as real * 0.08;
      health := ScaledHealth(stats.health, waveNumber);
      maxHealth := ScaledHealth(stats.health, waveNumber);
      state := Chase;
      shootCooldown := 0;
      this.strafeDirection := strafeDirection;
      this.flankSide := flankSide;
      flankSwitchTimer := 0;
      aimTimer := 0;
      sniperCooldown := 0;
      healTick := 0;
      hitFlash := 0;
      slowTimer := 0;
    }

    /** A hit: health drops by exactly `amount`, the hit flash and the slow
        start; the result says whether the hit was lethal. */
    method TakeDamage(amount: int) returns (lethal: bool)
      modifies this`health, this`hitFlash, this`slowTimer
      ensures health == old(health) - amount
      ensures hitFlash == HIT_FLASH_TICKS && slowTimer == SLOW_TICKS
      ensures lethal <==> health <= 0
      ensures lethal <==> !IsAlive()
    {
      health := health - amount;
      hitFlash := HIT_FLASH_TICKS;
      slowTimer := SLOW_TICKS;
      lethal := health <= 0;
    }

    /** Alive while any health is left; an enemy at full health is alive. */
    predicate IsAlive(): (alive: bool)
      reads this
      ensures alive <==> health >= 1
      ensures 1 <= maxHealth == health ==> alive
    {
      health > 0
    }

    function GetCenter(): (real, real)
      reads this
    {
      (x + (size / 2) as real, y + (size / 2) as real)
    }

    /** What one AI tick did: the four cooldown-style timers dropped by one
        while positive, the type's AI ran with the (possibly slowed) speed,
        and the position was clamped to [-size, width] x [-size, height].
        `dir` is present exactly when the enemy fires, and is then its aim. */
    twostate predicate Stepped(s: Senses, nearby: seq<Enemy>, width: int, height: int,
                               new shoot: bool, new dir: Option<(real, real)>)
      reads this, nearby
    {
      && hitFlash == TickDown(old(hitFlash)) && slowTimer == TickDown(old(slowTimer))
      && (kind != Shooter ==> shootCooldown == TickDown(old(shootCooldown)))
      && (kind != Sniper ==> sniperCooldown == TickDown(old(sniperCooldown)))
      && (var mv := Movement(kind, state, s, EffectiveSpeed(speed, slowTimer),
                             old(strafeDirection), flankSide);
          && x == ClampR(old(x) + mv.0, -(size as real), width as real)
          && y == ClampR(old(y) + mv.1, -(size as real), height as real))
      && (dir.Some? <==> shoot)
      && (shoot ==> dir.value == (s.dx, s.dy))
      && (kind == Shooter ==> ShooterTick(TickDown(old(shootCooldown)), old(strafeDirection), s, shoot))
      && (kind == Sniper ==> SniperTick(old(aimTimer), TickDown(old(sniperCooldown)), s, shoot))
      && (kind == Hunter ==> HunterTick(old(flankSide), old(flankSwitchTimer), shoot))
      && (kind == Support ==> state == SupportMode(s.distance) && !shoot)
      && (kind == Support ==> healTick == CycleTick(old(healTick), HEAL_TICKS).0)
      && (kind == Support ==> forall e :: e in nearby ==>
            (e.health == if CycleTick(old(healTick), HEAL_TICKS).1 && e != this && s.reach(e) <= HEAL_RADIUS
                         then Min(e.maxHealth, old(e.health) + HEAL_AMOUNT) else old(e.health)))
      && (kind != Support ==> forall e :: e in nearby ==> e.health == old(e.health))
      && (kind in {Rusher, Tank, Swarm} ==> state == old(state) && !shoot)
    }

    /** The counters of the other kinds' AIs are as they were: only a
        Shooter flips its strafe direction, only a Hunter changes its flank,
        only a Sniper its aim timer and only a Support its heal tick. */
    ghost predicate KeptOthers(strafe0: int, flank0: int, flankTimer0: int, aim0: int, heal0: int)
      reads this`strafeDirection, this`flankSide, this`flankSwitchTimer, this`aimTimer, this`healTick
    {
      && (kind != Shooter ==> strafeDirection == strafe0)
      && (kind != Hunter ==> flankSide == flank0 && flankSwitchTimer == flankTimer0)
      && (kind != Sniper ==> aimTimer == aim0)
      && (kind != Support ==> healTick == heal0)
    }

    /** One AI tick (see Stepped). The clamp keeps the enemy within
        [-size, width] x [-size, height] whenever that box is not empty. */
    method Update(s: Senses, nearby: seq<Enemy>, width: int, height: int)
      returns (shoot: bool, dir: Option<(real, real)>)
      requires Valid() && Distinct(nearby)
      modifies this`x, this`y, this`state, this`strafeDirection, this`shootCooldown,
        this`flankSide, this`flankSwitchTimer, this`aimTimer, this`sniperCooldown,
        this`healTick, this`hitFlash, this`slowTimer, nearby`health
      ensures Valid()
      ensures var stepped := Stepped(s, nearby, width, height, shoot, dir); stepped
      ensures KeptOthers(old(strafeDirection), old(flankSide), old(flankSwitchTimer), old(aimTimer), old(healTick))
      ensures -size <= width ==> -(size as real) <= x <= width as real
      ensures -size <= height ==> -(size as real) <= y <= height as real
    {
      TickTimers();
      shoot, dir := Act(s, EffectiveSpeed(speed, slowTimer), nearby);
      x := MaxR(-(size as real), MinR(width as real, x));
      y := MaxR(-(size as real), MinR(height as real, y));
    }

    method TickTimers()
      requires Valid()
      modifies this`shootCooldown, this`sniperCooldown, this`hitFlash, this`slowTimer
      ensures Valid()
      ensures shootCooldown == TickDown(old(shootCooldown))
      ensures sniperCooldown == TickDown(old(sniperCooldown))
      ensures hitFlash == TickDown(old(hitFlash)) && slowTimer == TickDown(old(slowTimer))
    {
      if shootCooldown > 0 { shootCooldown := shootCooldown - 1; }
      if sniperCooldown > 0 { sniperCooldown := sniperCooldown - 1; }
      if hitFlash > 0 { hitFlash := hitFlash - 1; }
      if slowTimer > 0 { slowTimer := slowTimer - 1; }
    }

    /** The type-specific part of a tick, before the clamp. */
    method Act(s: Senses, effective: real, nearby: seq<Enemy>)
      returns (shoot: bool, dir: Option<(real, real)>)
      requires Valid() && Distinct(nearby)
      modifies this`x, this`y, this`state, this`strafeDirection, this`shootCooldown,
        this`flankSide, this`flankSwitchTimer, this`aimTimer, this`sniperCooldown,
        this`healTick, nearby`health
      ensures Valid()
      ensures kind != Shooter ==> shootCooldown == old(shootCooldown)
      ensures kind != Sniper ==> sniperCooldown == old(sniperCooldown)
      ensures var mv := Movement(kind, state, s, effective, old(strafeDirection), flankSide);
        x == old(x) + mv.0 && y == old(y) + mv.1
      ensures dir.Some? <==> shoot
      ensures shoot ==> dir.value == (s.dx, s.dy)
      ensures kind == Shooter ==> ShooterTick(old(shootCooldown), old(strafeDirection), s, shoot)
      ensures kind == Sniper ==> SniperTick(old(aimTimer), old(sniperCooldown), s, shoot)
      ensures kind == Hunter ==> HunterTick(old(flankSide), old(flankSwitchTimer), shoot)
      ensures kind == Support ==> state == SupportMode(s.distance) && !shoot
      ensures kind == Support ==> healTick == CycleTick(old(healTick), HEAL_TICKS).0
      ensures kind == Support ==> forall e :: e in nearby ==>
        (e.health == if CycleTick(old(healTick), HEAL_TICKS).1 && e != this && s.reach(e) <= HEAL_RADIUS
                     then Min(e.maxHealth, old(e.health) + HEAL_AMOUNT) else old(e.health))
      ensures kind != Support ==> forall e :: e in nearby ==> e.health == old(e.health)
      ensures kind in {Rusher, Tank, Swarm} ==> state == old(state) && !shoot
      ensures KeptOthers(old(strafeDirection), old(flankSide), old(flankSwitchTimer), old(aimTimer), old(healTick))
    {
      shoot, dir := false, None;
      match kind {
        case Shooter =>
          shoot, dir := AiShooter(s, effective);
        case Hunter =>
          AiHunter(s, effective);
        case Sniper =>
          shoot, dir := AiSniper(s, effective);
        case Support =>
          AiSupport(s, effective, nearby);
        case _ =>
          AiDirect(s, effective);
      }
    }

    /** Rushers, tanks and swarmers run straight at the player. */
    method AiDirect(s: Senses, speed: real)
      requires Valid() && kind in {Rusher, Tank, Swarm}
      modifies this`x, this`y
      ensures Valid()
      ensures var mv := Movement(kind, state, s, speed, strafeDirection, flankSide);
        x == old(x) + mv.0 && y == old(y) + mv.1
    {
      x := x + s.dx * speed;
      y := y + s.dy * speed;
    }

    /** What a Shooter tick did to the Shooter's own state. */
    ghost predicate ShooterTick(cooldown: int, strafe0: int, s: Senses, shoot: bool)
      reads this
    {
      && state == ShooterMode(s.distance)
      && (shoot <==> cooldown == 0 && s.distance < SHOOTER_RANGE)
      && shootCooldown == (if shoot then SHOOTER_COOLDOWN else cooldown)
      && strafeDirection == (if state == Strafe && s.strafeFlip then -strafe0 else strafe0)
    }

    /** What a Sniper tick did: chase and drop the aim beyond range, strafe
        while cooling down (the aim timer is kept), otherwise aim, firing on
        the 60th aim tick. */
    ghost predicate SniperTick(aim0: int, cooldown: int, s: Senses, shoot: bool)
      reads this
    {
      var aimed := CycleTick(aim0, AIM_TICKS);
      && state == SniperMode(s.distance, cooldown)
      && (shoot <==> state == Aim && aimed.1)
      && aimTimer == (if state == Chase then 0 else if state == Strafe then aim0 else aimed.0)
      && sniperCooldown == (if shoot then SNIPER_COOLDOWN else cooldown)
    }

    /** What a Hunter tick did: always flanking, never firing, switching sides
        once its counter passes 120. */
    ghost predicate HunterTick(flank0: int, timer0: int, shoot: bool)
      reads this
    {
      var cycled := CycleTick(timer0, FLANK_SWITCH_AFTER + 1);
      && state == Flank && !shoot
      && flankSwitchTimer == cycled.0
      && flankSide == (if cycled.1 then -flank0 else flank0)
    }

    method AiShooter(s: Senses, speed: real) returns (shoot: bool, dir: Option<(real, real)>)
      requires Valid()
      modifies this`x, this`y, this`state, this`strafeDirection, this`shootCooldown
      ensures Valid() && ShooterTick(old(shootCooldown), old(strafeDirection), s, shoot)
      ensures var mv := Movement(Shooter, state, s, speed, old(strafeDirection), flankSide);
        x == old(x) + mv.0 && y == old(y) + mv.1
      ensures dir == if shoot then Some((s.dx, s.dy)) else None
    {
      state := ShooterMode(s.distance);
      var mv := Movement(Shooter, state, s, speed, strafeDirection, flankSide);
      x := x + mv.0;
      y := y + mv.1;
      if state == Strafe && s.strafeFlip {
        strafeDirection := -strafeDirection;
      }
      shoot := false;
      if shootCooldown == 0 && s.distance < SHOOTER_RANGE {
        shoot := true;
        shootCooldown := SHOOTER_COOLDOWN;
      }
      dir := if shoot then Some((s.dx, s.dy)) else None;
    }

    method AiHunter(s: Senses, speed: real)
      requires Valid()
      modifies this`x, this`y, this`state, this`flankSide, this`flankSwitchTimer
      ensures Valid() && HunterTick(old(flankSide), old(flankSwitchTimer), false)
      ensures var mv := Movement(Hunter, state, s, speed, strafeDirection, flankSide);
        x == old(x) + mv.0 && y == old(y) + mv.1
    {
      state := Flank;
      flankSwitchTimer := flankSwitchTimer + 1;
      if flankSwitchTimer > FLANK_SWITCH_AFTER {
        flankSide := -flankSide;
        flankSwitchTimer := 0;
      }
      var perpX := -s.pdy * flankSide as real;
      var perpY := s.pdx * flankSide as real;
      var moveX := s.pdx * 0.6 + perpX * 0.4;
      var moveY := s.pdy * 0.6 + perpY * 0.4;
      x := x + moveX * speed;
      y := y + moveY * speed;
    }

    method AiSniper(s: Senses, speed: real) returns (shoot: bool, dir: Option<(real, real)>)
      requires Valid()
      modifies this`x, this`y, this`state, this`aimTimer, this`sniperCooldown
      ensures Valid() && SniperTick(old(aimTimer), old(sniperCooldown), s, shoot)
      ensures var mv := Movement(Sniper, state, s, speed, strafeDirection, flankSide);
        x == old(x) + mv.0 && y == old(y) + mv.1
      ensures dir == if shoot then Some((s.dx, s.dy)) else None
    {
      shoot, dir := false, None;
      if s.distance > SNIPER_RANGE {
        state := Chase;
        x := x + s.dx * speed;
        y := y + s.dy * speed;
        aimTimer := 0;
      } else if sniperCooldown > 0 {
        state := Strafe;
        x := x + -s.dy * speed * 0.5;
        y := y + s.dx * speed * 0.5;
      } else {
        state := Aim;
        aimTimer := aimTimer + 1;
        if aimTimer >= AIM_TICKS {
          shoot := true;
          dir := Some((s.dx, s.dy));
          sniperCooldown := SNIPER_COOLDOWN;
          aimTimer := 0;
        }
      }
    }

    method AiSupport(s: Senses, speed: real, nearby: seq<Enemy>)
      requires Valid() && Distinct(nearby)
      modifies this`x, this`y, this`state, this`healTick, nearby`health
      ensures Valid()
      ensures state == SupportMode(s.distance)
      ensures var mv := Movement(Support, state, s, speed, strafeDirection, flankSide);
        x == old(x) + mv.0 && y == old(y) + mv.1
      ensures var pulse := CycleTick(old(healTick), HEAL_TICKS);
        healTick == pulse.0 &&
        forall e :: e in nearby ==>
          (e.health == if pulse.1 && e != this && s.reach(e) <= HEAL_RADIUS
                       then Min(e.maxHealth, old(e.health) + HEAL_AMOUNT) else old(e.health))
    {
      if s.distance < SUPPORT_KEEP_AWAY {
        state := SupportIdle;
        x := x - s.dx * speed * 0.5;
        y := y - s.dy * speed * 0.5;
      } else {
        state := Chase;
        x := x + s.dx * speed * 0.3;
        y := y + s.dy * speed * 0.3;
      }
      healTick := healTick + 1;
      if healTick >= HEAL_TICKS {
        healTick := 0;
        HealPulse(nearby, s.reach);
      }
    }

    /** Heal every other enemy within HEAL_RADIUS by HEAL_AMOUNT, capped at
        its max health; the supporter itself is skipped. */
    method HealPulse(nearby: seq<Enemy>, reach: Enemy -> real)
      requires Distinct(nearby)
      modifies nearby`health
      ensures forall e :: e in nearby ==>
        (e.health == if e != this && reach(e) <= HEAL_RADIUS
                     then Min(e.maxHealth, old(e.health) + HEAL_AMOUNT) else old(e.health))
    {
      for i := 0 to |nearby|
        invariant forall j :: 0 <= j < i ==>
          (nearby[j].health == if nearby[j] != this && reach(nearby[j]) <= HEAL_RADIUS
                               then Min(nearby[j].maxHealth, old(nearby[j].health) + HEAL_AMOUNT)
                               else old(nearby[j].health))
        invariant forall j :: i <= j < |nearby| ==> nearby[j].health == old(nearby[j].health)
      {
        var other := nearby[i];
        if other == this {
          continue;
        }
        if reach(other) <= HEAL_RADIUS {
          other.health := Min(other.maxHealth, other.health + HEAL_AMOUNT);
        }
      }
    }
  }
}
