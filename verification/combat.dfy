/** systems/combat.py: resolving a hit on an enemy. Damage is the weapon's
    base damage scaled by the player's damage boost (thousandths) and
    truncated, doubled on a critical hit; a lethal hit counts a kill, extends
    the combo streak, scores with the combo multiplier, heals by lifesteal,
    may drop a powerup and removes the enemy. The combat timers tick once per
    frame. The random rolls are inputs; particles and floating damage numbers
    are not modelled. */
module Combat {
  import opened Common
  import opened Powerups
  import opened Players
  import opened Enemies
  import opened WorldState

  /** Ticks a combo streak survives without a further kill. */
  const COMBO_TICKS: int := 180
  const HITMARKER_TICKS: int := 10
  const SCREEN_FLASH_TICKS: int := 5
  const KILL_SHAKE: int := 6
  const HIT_SHAKE: int := 2
  /** A kill drops a powerup when the drop roll is below 0.3. */
  const DROP_CHANCE: real := 0.3

  /** The random draws made while resolving one hit, each in [0, 1) as
      `random.random()` gives them, and the powerup type a drop would have. */
  datatype Rolls = Rolls(critRoll: real, dropRoll: real, dropKind: PowerupType)

  /** The crit roll succeeds when it is below the crit chance (hundredths). */
  function IsCritical(roll: real, critChance: int): (c: bool)
    ensures 0.0 <= roll < 1.0 && critChance >= 100 ==> c
    ensures 0.0 <= roll && critChance <= 0 ==> !c
  {
    roll * 100.0 < critChance as real
  }

  /** The drop roll: of the rolls in [0, 1), exactly those below 0.3 drop
      a power-up, so three in ten on a uniform roll. */
  predicate DropsPowerup(roll: real): (drop: bool)
    ensures 0.0 <= roll < 1.0 ==> (drop <==> 10.0 * roll < 3.0)
    ensures drop ==> roll < 1.0
  {
    roll < DROP_CHANCE
  }

  /** floor(base * boost), doubled on a critical hit. */
  function HitDamage(baseDamage: int, boost: int, crit: bool): (d: int)
    ensures 0 <= baseDamage * boost ==> 0 <= d
    ensures crit ==> d % 2 == 0
    ensures 0 <= baseDamage * boost ==>
      var plain := if crit then d / 2 else d;
      BOOST_ONE * plain <= baseDamage * boost < BOOST_ONE * plain + BOOST_ONE
  {
    var plain := TruncDiv(baseDamage * boost, BOOST_ONE);
    if crit then plain * 2 else plain
  }

  /** A larger damage boost never lowers the damage of a hit. */
  lemma HitDamageMonotone(baseDamage: int, b1: int, b2: int, crit: bool)
    requires 0 <= baseDamage && 0 <= b1 <= b2
    ensures HitDamage(baseDamage, b1, crit) <= HitDamage(baseDamage, b2, crit)
  {
    assert baseDamage * b1 <= baseDamage * b2 by {
      assert baseDamage * b2 - baseDamage * b1 == baseDamage * (b2 - b1);
    }
    assert 0 <= baseDamage * b1;
  }

  /** Score for a kill at (already incremented) combo c:
      floor(scoreValue * (1 + 0.1 * c)). */
  function KillScore(scoreValue: int, combo: int): (r: int)
    ensures 0 <= scoreValue && 0 <= combo ==>
      scoreValue <= r && 10 * r <= scoreValue * (10 + combo) < 10 * r + 10
  {
    ScaleByTenths(scoreValue, combo)
  }

  /** Later kills in one streak score at least as much as earlier ones. */
  lemma KillScoreGrowsWithCombo(scoreValue: int, c1: int, c2: int)
    requires 0 <= scoreValue && 0 <= c1 <= c2
    ensures KillScore(scoreValue, c1) <= KillScore(scoreValue, c2)
  {
    assert scoreValue * (10 + c1) <= scoreValue * (10 + c2) by {
      assert scoreValue * (10 + c2) - scoreValue * (10 + c1) == scoreValue * (c2 - c1);
    }
  }

  /** Player health after a kill with the given lifesteal: healed by it, but
      never past max health. */
  function Lifesteal(health: int, maxHealth: int, amount: int): (h: int)
    ensures amount <= 0 ==> h == health
    ensures amount > 0 ==> h <= maxHealth && (h == maxHealth || h == health + amount)
    ensures amount > 0 && health <= maxHealth ==> health <= h
  {
    if amount > 0 then Min(maxHealth, health + amount) else health
  }

  /** One tick of the combo streak: while a streak runs its timer drops, and
      the streak ends when the timer reaches zero. */
  function ComboTick(combo: int, timer: int): (int, int)
  {
    if combo > 0 then
      if timer - 1 <= 0 then (0, timer - 1) else (combo, timer - 1)
    else (combo, timer)
  }

  function ComboAfter(combo: int, timer: int, n: nat): (int, int)
    decreases n
  {
    if n == 0 then (combo, timer)
    else
      var next := ComboTick(combo, timer);
      ComboAfter(next.0, next.1, n - 1)
  }

  /** A streak with t ticks left survives exactly t - 1 further ticks: after n
      ticks without a kill it is intact while n < t and zero from then on.
      After a kill (t = 180) the streak lasts 180 ticks. */
  lemma {:induction false} ComboExpires(combo: int, timer: int, n: nat)
    requires combo > 0 && timer >= 1
    ensures ComboAfter(combo, timer, n).0 == if n < timer then combo else 0
    decreases n
  {
    if n > 0 {
      if timer - 1 <= 0 {
        NoComboStays(timer - 1, n - 1);
      } else {
        ComboExpires(combo, timer - 1, n - 1);
      }
    }
  }

  lemma {:induction false} NoComboStays(timer: int, n: nat)
    ensures ComboAfter(0, timer, n) == (0, timer)
    decreases n
  {
    if n > 0 {
      NoComboStays(timer, n - 1);
    }
  }

  class CombatSystem {
    var combo: int
    var comboTimer: int
    var hitmarkerTimer: int
    var screenFlash: int

    constructor ()
      ensures combo == 0 && comboTimer == 0 && hitmarkerTimer == 0 && screenFlash == 0
    {
      combo := 0;
      comboTimer := 0;
      hitmarkerTimer := 0;
      screenFlash := 0;
    }

    /** The per-frame tick of the combo streak and the two feedback timers. */
    method Update()
      modifies this
      ensures (combo, comboTimer) == ComboTick(old(combo), old(comboTimer))
      ensures hitmarkerTimer == TickDown(old(hitmarkerTimer))
      ensures screenFlash == TickDown(old(screenFlash))
    {
      if combo > 0 {
        comboTimer := comboTimer - 1;
        if comboTimer <= 0 {
          combo := 0;
        }
      }
      if hitmarkerTimer > 0 {
        hitmarkerTimer := hitmarkerTimer - 1;
      }
      if screenFlash > 0 {
        screenFlash := screenFlash - 1;
      }
    }

    /** What resolving one hit on `enemy` did: the enemy lost the hit's
        damage and flashes and slows; the hitmarker and the screen flash
        start; a lethal hit counts the kill, extends the combo, scores,
        heals by lifesteal, may drop a powerup at the enemy's centre and
        removes the enemy, while a survived hit only shakes the screen. */
    twostate predicate HitResolved(world: World, baseDamage: int, enemy: Enemy, rolls: Rolls)
      reads this`combo, this`comboTimer, this`hitmarkerTimer, this`screenFlash
      reads world`enemies, world`player, world`powerups, world`kills, world`score, world`screenShake
      reads world.player, enemy, world.powerups
    {
      var killed := enemy.health <= 0;
      var drops := killed && DropsPowerup(rolls.dropRoll);
      && world.player == old(world.player)
      && enemy.health == old(enemy.health) - HitDamage(baseDamage, world.player.damageBoost,
                                                      IsCritical(rolls.critRoll, world.player.critChance))
      && enemy.hitFlash == HIT_FLASH_TICKS && enemy.slowTimer == SLOW_TICKS
      && hitmarkerTimer == HITMARKER_TICKS && screenFlash == SCREEN_FLASH_TICKS
      && (killed ==> && world.kills == old(world.kills) + 1
                     && combo == old(combo) + 1 && comboTimer == COMBO_TICKS
                     && world.score == old(world.score) + KillScore(enemy.scoreValue, combo)
                     && world.player.health == Lifesteal(old(world.player.health),
                                                         world.player.maxHealth, world.player.lifesteal)
                     && enemy in old(world.enemies)
                     && world.enemies == RemoveFirst(old(world.enemies), enemy)
                     && world.screenShake == KILL_SHAKE)
      && (drops ==> && |world.powerups| == |old(world.powerups)| + 1
                    && world.powerups[..|old(world.powerups)|] == old(world.powerups)
                    && var p := world.powerups[|old(world.powerups)|];
                       fresh(p) && p.kind == rolls.dropKind && (p.x, p.y) == enemy.GetCenter()
                       && p.lifetime == LIFETIME)
      && (!drops ==> world.powerups == old(world.powerups))
      && (!killed ==> && world.kills == old(world.kills) && world.score == old(world.score)
                      && combo == old(combo) && comboTimer == old(comboTimer)
                      && world.player.health == old(world.player.health)
                      && world.enemies == old(world.enemies)
                      && world.screenShake == HIT_SHAKE)
    }

    /** Resolve a hit of a weapon with `baseDamage` on `enemy`, an enemy of
        the world. Returns whether the hit was lethal; a lethal hit leaves
        the enemy out of the list. */
    method ApplyHit(world: World, baseDamage: int, enemy: Enemy, rolls: Rolls) returns (killed: bool)
      requires world.Valid() && world.EnemiesValid() && enemy in world.enemies
      modifies this`combo, this`comboTimer, this`hitmarkerTimer, this`screenFlash
      modifies world`kills, world`score, world`enemies, world`powerups, world`screenShake
      modifies world.player`health
      modifies enemy`health, enemy`hitFlash, enemy`slowTimer
      ensures world.Valid() && world.EnemiesValid()
      ensures HitResolved(world, baseDamage, enemy, rolls)
      ensures killed <==> enemy.health <= 0
      ensures killed ==> enemy !in world.enemies
    {
      var player := world.player;
      var crit := IsCritical(rolls.critRoll, player.critChance);
      var damage := HitDamage(baseDamage, player.damageBoost, crit);
      killed := enemy.TakeDamage(damage);
      if killed {
        RemoveFirstMembers(world.enemies, enemy);
        OnKill(world, enemy, rolls);
      } else {
        world.screenShake := HIT_SHAKE;
      }
      Feedback();
    }

    /** The per-shot feedback every hit shows, lethal or not. */
    method Feedback()
      modifies this`hitmarkerTimer, this`screenFlash
      ensures hitmarkerTimer == HITMARKER_TICKS && screenFlash == SCREEN_FLASH_TICKS
    {
      hitmarkerTimer := HITMARKER_TICKS;
      screenFlash := SCREEN_FLASH_TICKS;
    }

    /** Kill bookkeeping: kill count, combo, score, lifesteal, the drop and
        the removal of the enemy. */
    method OnKill(world: World, enemy: Enemy, rolls: Rolls)
      requires world.Valid() && enemy in world.enemies
      modifies this`combo, this`comboTimer
      modifies world`kills, world`score, world`enemies, world`powerups, world`screenShake
      modifies world.player`health
      ensures world.Valid()
      ensures world.kills == old(world.kills) + 1
      ensures combo == old(combo) + 1 && comboTimer == COMBO_TICKS
      ensures world.score == old(world.score) + KillScore(enemy.scoreValue, combo)
      ensures world.player.health ==
        Lifesteal(old(world.player.health), world.player.maxHealth, world.player.lifesteal)
      ensures world.enemies == RemoveFirst(old(world.enemies), enemy) && enemy !in world.enemies
      ensures world.screenShake == KILL_SHAKE
      ensures DropsPowerup(rolls.dropRoll) ==>
        && |world.powerups| == |old(world.powerups)| + 1
        && world.powerups[..|old(world.powerups)|] == old(world.powerups)
        && var p := world.powerups[|old(world.powerups)|];
           fresh(p) && p.kind == rolls.dropKind && (p.x, p.y) == enemy.GetCenter() && p.lifetime == LIFETIME
      ensures !DropsPowerup(rolls.dropRoll) ==> world.powerups == old(world.powerups)
    {
      world.kills := world.kills + 1;
      combo := combo + 1;
      comboTimer := COMBO_TICKS;
      world.score := world.score + KillScore(enemy.scoreValue, combo);
      var player := world.player;
      player.health := Lifesteal(player.health, player.maxHealth, player.lifesteal);
      var center := enemy.GetCenter();
      if DropsPowerup(rolls.dropRoll) {
        var p := new Powerup(center.0, center.1, rolls.dropKind);
        AppendDistinct(world.powerups, p);
        world.powerups := world.powerups + [p];
      }
      RemoveFirstDistinct(world.enemies, enemy);
      world.enemies := RemoveFirst(world.enemies, enemy);
      world.screenShake := KILL_SHAKE;
    }
  }
}
