/** systems/upgrade_system.py, the pool: the seven mid-match upgrades, the
    draw of distinct offers and the arithmetic of each effect. Damage boost is
    kept in thousandths and reload time in milliseconds, so the effects are
    integer formulas. */
module UpgradePool {
  import opened Common

  datatype Upgrade = DamageSurge | SpeedLoader | Lifesteal | Dash | CritFocus | IronSkin | RapidFire

  /** The pool, in the order the source lists it. */
  const POOL: seq<Upgrade> := [DamageSurge, SpeedLoader, Lifesteal, Dash, CritFocus, IronSkin, RapidFire]

  /** Damage Surge: +15% damage boost, rounded to the nearest thousandth. */
  const SURGE_PERCENT: int := 115
  /** Speed Loader: reload time scaled by 3/4, truncated. */
  const LOADER_NUM: int := 3
  const LOADER_DEN: int := 4
  const LIFESTEAL_STEP: int := 5
  /** Crit Focus: +10 hundredths of crit chance. */
  const CRIT_STEP: int := 10
  const IRON_SKIN_HEALTH: int := 20

  function Name(u: Upgrade): string
  {
    match u
    case DamageSurge => "Damage Surge"
    case SpeedLoader => "Speed Loader"
    case Lifesteal => "Lifesteal"
    case Dash => "Dash"
    case CritFocus => "Crit Focus"
    case IronSkin => "Iron Skin"
    case RapidFire => "Rapid Fire"
  }

  lemma PoolIsComplete()
    ensures |POOL| == 7 && Distinct(POOL)
    ensures forall u: Upgrade :: u in POOL
  {
    forall u: Upgrade ensures u in POOL {
      match u
      case DamageSurge => assert POOL[0] == u;
      case SpeedLoader => assert POOL[1] == u;
      case Lifesteal => assert POOL[2] == u;
      case Dash => assert POOL[3] == u;
      case CritFocus => assert POOL[4] == u;
      case IronSkin => assert POOL[5] == u;
      case RapidFire => assert POOL[6] == u;
    }
  }

  /** A valid outcome of drawing k pool positions without replacement. */
  ghost predicate IsDraw(order: seq<int>, k: int)
  {
    k <= |order| && Distinct(order) && forall i :: 0 <= i < |order| ==> 0 <= order[i] < |POOL|
  }

  /** `random.sample(POOL, min(n, 7))`; the positions drawn are the input
      `order`. The offer holds min(n, 7) pool entries, no two alike. */
  function RollUpgrades(n: nat, order: seq<int>): (offer: seq<Upgrade>)
    requires IsDraw(order, Min(n, |POOL|))
    ensures |offer| == Min(n, |POOL|)
    ensures Distinct(offer)
    ensures forall i :: 0 <= i < |offer| ==> offer[i] == POOL[order[i]]
  {
    PoolIsComplete();
    seq(Min(n, |POOL|), i requires 0 <= i < Min(n, |POOL|) => POOL[order[i]])
  }

  /** Damage Surge on a boost b (thousandths): the nearest thousandth to
      1.15 * b, halves rounded away from zero. The boost grows in size and
      keeps its sign. */
  function SurgedBoost(b: int): (r: int)
    ensures 0 <= b ==> b <= r
    ensures b <= 0 ==> r <= b
    ensures 100 * r - 50 <= SURGE_PERCENT * b <= 100 * r + 50
  {
    if b >= 0 then RoundDiv(b * SURGE_PERCENT, 100) else -RoundDiv(-b * SURGE_PERCENT, 100)
  }

  /** Speed Loader on a reload time: floor(0.75 * rt). */
  function LoadedReloadTime(rt: int): (r: int)
    ensures 0 <= rt ==> 0 <= r <= rt && LOADER_DEN * r <= LOADER_NUM * rt < LOADER_DEN * r + LOADER_DEN
    ensures 0 < rt ==> r < rt
  {
    TruncDiv(rt * LOADER_NUM, LOADER_DEN)
  }

  /** Rapid Fire on a fire rate: max(1, floor(0.9 * fr)). Never below one
      frame, strictly faster while above one frame, fixed at one frame. */
  function RapidFireRate(fr: int): (r: int)
    ensures r >= 1
    ensures fr >= 2 ==> r < fr
    ensures fr <= 1 ==> r == 1
    ensures fr >= 0 ==> (r == 1 || 10 * r <= 9 * fr < 10 * r + 10)
  {
    Max(1, TruncDiv(fr * 9, 10))
  }

  function RapidFireAfter(fr: int, n: nat): int
    decreases n
  {
    if n == 0 then fr else RapidFireAfter(RapidFireRate(fr), n - 1)
  }

  /** Taking Rapid Fire n times from a fire rate fr >= 1 gives a rate in
      [1, fr], and it reaches exactly one frame after at most fr - 1 picks. */
  lemma {:induction false} RapidFireBottomsOut(fr: int, n: nat)
    requires fr >= 1
    ensures 1 <= RapidFireAfter(fr, n) <= fr
    ensures n >= fr - 1 ==> RapidFireAfter(fr, n) == 1
    decreases n
  {
    if n > 0 {
      RapidFireBottomsOut(RapidFireRate(fr), n - 1);
    }
  }
}
