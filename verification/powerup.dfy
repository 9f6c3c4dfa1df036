/** entities/powerup.py: a pickup dropped by a killed enemy, alive for 600
    ticks. Drawing is not modelled. */
module Powerups {
  import opened Common

  datatype PowerupType = Health | Ammo | DamageBoost | SpeedBoost | Shield

  /** An axis-aligned rectangle given by its top-left corner and its size. */
  datatype Rect = Rect(left: real, top: real, width: real, height: real)

  /** Ticks a powerup stays on the floor. */
  const LIFETIME: int := 600
  /** Half the side of a powerup's pickup square. */
  const POWERUP_SIZE: int := 25

  /** The lifetime left after n updates, each taking one tick off it as
      Powerup.Update does. */
  function LifetimeAfter(lifetime: int, n: nat): int
    decreases n
  {
    if n == 0 then lifetime else LifetimeAfter(lifetime - 1, n - 1)
  }

  /** n updates take exactly n ticks off the lifetime. */
  lemma {:induction false} LifetimeCountsDown(lifetime: int, n: nat)
    ensures LifetimeAfter(lifetime, n) == lifetime - n
    decreases n
  {
    if n > 0 {
      LifetimeCountsDown(lifetime - 1, n - 1);
    }
  }

  /** A power-up starting with lifetime t >= 1 is expired (lifetime below 1)
      after n updates exactly when n >= t; a fresh one (t = 600) stays on
      the floor for 599 updates and the 600th expires it. */
  lemma PowerupLasts(t: int, n: nat)
    requires t >= 1
    ensures LifetimeAfter(t, n) < 1 <==> n >= t
    ensures t == LIFETIME ==> (LifetimeAfter(t, n) < 1 <==> n >= 600)
  {
    LifetimeCountsDown(t, n);
  }

  class Powerup {
    var x: real
    var y: real
    const kind: PowerupType
    const size: int
    var lifetime: int
    var pulse: real
    /** Display colour per type; the pickup particles read it. */
    const colors: map<PowerupType, Color>

    constructor (x: real, y: real, kind: PowerupType)
      ensures this.x == x && this.y == y && this.kind == kind
      ensures size == POWERUP_SIZE && lifetime == LIFETIME && pulse == 0.0
      ensures forall t: PowerupType :: t in colors
      ensures !IsExpired()
    {
      this.x := x;
      this.y := y;
      this.kind := kind;
      size := POWERUP_SIZE;
      lifetime := LIFETIME;
      pulse := 0.0;
      colors := map[
        Health := Color(100, 255, 100),
        Ammo := Color(255, 200, 100),
        DamageBoost := Color(255, 100, 100),
        SpeedBoost := Color(100, 200, 255),
        Shield := Color(200, 100, 255)];
      new;
      forall t: PowerupType ensures t in colors {
        match t
        case Health =>
        case Ammo =>
        case DamageBoost =>
        case SpeedBoost =>
        case Shield =>
      }
    }

    /** One tick: the lifetime drops by exactly one, the pulse phase advances. */
    method Update()
      modifies this`lifetime, this`pulse
      ensures lifetime == old(lifetime) - 1
      ensures pulse == old(pulse) + 0.1
    {
      lifetime := lifetime - 1;
      pulse := pulse + 0.1;
    }

    /** Out of lifetime: a fresh power-up is not, and one expires on the
        update that takes its lifetime to zero. */
    predicate IsExpired(): (expired: bool)
      reads this
      ensures lifetime == LIFETIME ==> !expired
      ensures expired <==> lifetime < 1
    {
      lifetime <= 0
    }

    /** The pickup area: a square of side 2 * size centred on (x, y). */
    function GetRect(): (r: Rect)
      reads this
      ensures r.width == r.height == 2.0 * size as real
      ensures r.left + r.width / 2.0 == x && r.top + r.height / 2.0 == y
    {
      Rect(x - size as real, y - size as real, (size * 2) as real, (size * 2) as real)
    }
  }
}
