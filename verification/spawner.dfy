/** systems/spawner.py: one enemy spawn. The wave number picks a weighted
    pool of enemy types (more types join at waves 5, 8 and 11), a weighted
    draw picks the type, and the enemy appears just outside one of the four
    screen edges. The random draws are inputs. */
module Spawner {
  import opened Common
  import opened Enemies
  import opened WorldState

  datatype Edge = Top | Bottom | Left | Right

  /** How far outside the screen a spawned enemy appears, and the margin
      kept from the far end of the edge. */
  const EDGE_OFFSET: int := 50

  /** The random draws of one spawn: `typeRoll` is `random.random()` in
      [0, 1) as used by `random.choices`, `edge` the chosen side, `along` the
      `random.randint` position along that side, and the two +-1 side choices
      the new enemy's constructor draws. */
  datatype SpawnRoll = SpawnRoll(typeRoll: real, edge: Edge, along: int, strafe: int, flank: int)

  /** The enemy types a wave may spawn, in the order the weights follow. */
  function TierTypes(wave: int): (types: seq<EnemyType>)
    ensures Rusher in types && Shooter in types
    ensures Hunter in types <==> wave >= 5
    ensures Tank in types <==> wave >= 5
    ensures Sniper in types <==> wave >= 8
    ensures Swarm in types <==> wave >= 8
    ensures Support in types <==> wave >= 11
    ensures Distinct(types)
  {
    if wave >= 11 then [Rusher, Tank, Shooter, Swarm, Hunter, Sniper, Support]
    else if wave >= 8 then [Rusher, Tank, Shooter, Swarm, Hunter, Sniper]
    else if wave >= 5 then [Rusher, Tank, Shooter, Hunter]
    else [Rusher, Shooter]
  }

  /** The weights of TierTypes(wave), position by position. */
  function TierWeights(wave: int): (weights: seq<int>)
    ensures |weights| == |TierTypes(wave)|
  {
    if wave >= 11 then [20, 10, 15, 10, 20, 15, 10]
    else if wave >= 8 then [25, 15, 15, 10, 20, 15]
    else if wave >= 5 then [35, 15, 30, 20]
    else [60, 40]
  }

  function Sum(w: seq<int>): int
    decreases |w|
  {
    if w == [] then 0 else w[0] + Sum(w[1..])
  }

  /** Every tier gives each of its types a positive weight, and the weights
      of every tier add up to 100. */
  lemma TiersAreWellFormed(wave: int)
    ensures forall i :: 0 <= i < |TierWeights(wave)| ==> TierWeights(wave)[i] > 0
    ensures Sum(TierWeights(wave)) == 100
  {
    var w := TierWeights(wave);
    assert w[0..] == w;
    SumTail(w, 0); SumTail(w, 1); SumTail(w, 2);
    if wave >= 11 {
      SumTail(w, 3); SumTail(w, 4); SumTail(w, 5); SumTail(w, 6); SumTail(w, 7);
    } else if wave >= 8 {
      SumTail(w, 3); SumTail(w, 4); SumTail(w, 5); SumTail(w, 6);
    } else if wave >= 5 {
      SumTail(w, 3); SumTail(w, 4);
    }
  }

  /** The sum of a suffix: the entry at its head plus the rest. */
  lemma {:induction false} SumTail(w: seq<int>, i: nat)
    requires i <= |w|
    ensures Sum(w[i..]) == if i == |w| then 0 else w[i] + Sum(w[i + 1..])
  {
    if i < |w| {
      assert w[i..][1..] == w[i + 1..];
    }
  }

  /** `random.choices` on cumulative weights: the first position whose
      running total exceeds x, or the last position when none does. */
  function PickIndex(weights: seq<int>, x: real): (i: nat)
    requires |weights| > 0
    ensures i < |weights|
    decreases |weights|
  {
    if |weights| == 1 || x < weights[0] as real then 0
    else 1 + PickIndex(weights[1..], x - weights[0] as real)
  }

  /** With positive weights and 0 <= x < Sum(weights), the picked position i
      is the one whose slice of the running total holds x. */
  lemma {:induction false} PickIndexInSlice(weights: seq<int>, x: real)
    requires |weights| > 0 && 0.0 <= x < Sum(weights) as real
    requires forall k :: 0 <= k < |weights| ==> weights[k] > 0
    ensures var i := PickIndex(weights, x);
      Sum(weights[..i]) as real <= x < Sum(weights[..i + 1]) as real
    decreases |weights|
  {
    var i := PickIndex(weights, x);
    if |weights| == 1 {
      assert weights[..1] == weights;
      assert weights[..0] == [];
    } else if x < weights[0] as real {
      assert weights[..0] == [];
      assert weights[..1] == [weights[0]];
    } else {
      var rest := weights[1..];
      var x' := x - weights[0] as real;
      PickIndexInSlice(rest, x');
      var j := PickIndex(rest, x');
      assert i == j + 1;
      assert weights[..i][1..] == rest[..j];
      assert weights[..i + 1][1..] == rest[..j + 1];
    }
  }

  /** Each position of a tier is picked for some draw: every type the tier
      lists can spawn. */
  lemma {:induction false} EveryWeightReachable(weights: seq<int>, i: nat)
    requires i < |weights|
    requires forall k :: 0 <= k < |weights| ==> weights[k] > 0
    ensures PickIndex(weights, Sum(weights[..i]) as real) == i
    decreases i
  {
    if i > 0 {
      var rest := weights[1..];
      assert weights[..i][1..] == rest[..i - 1];
      EveryWeightReachable(rest, i - 1);
      assert Sum(weights[..i]) == weights[0] + Sum(rest[..i - 1]);
      assert Sum(rest[..i - 1]) >= 0 by { SumOfPositives(rest[..i - 1]); }
    } else {
      assert weights[..0] == [];
    }
  }

  lemma {:induction false} SumOfPositives(w: seq<int>)
    requires forall k :: 0 <= k < |w| ==> w[k] > 0
    ensures Sum(w) >= |w|
    decreases |w|
  {
    if w != [] {
      SumOfPositives(w[1..]);
    }
  }

  /** The type a wave's spawn draws for a roll in [0, 1). */
  function ChooseType(wave: int, roll: real): (t: EnemyType)
    requires 0.0 <= roll < 1.0
    ensures t in TierTypes(wave)
  {
    TiersAreWellFormed(wave);
    TierTypes(wave)[PickIndex(TierWeights(wave), roll * Sum(TierWeights(wave)) as real)]
  }

  /** Waves 1 to 4 spawn only Rushers and Shooters, Rushers for a roll below
      0.6 and Shooters from 0.6 on. */
  lemma EarlyWavesAreBasic(wave: int, roll: real)
    requires wave <= 4 && 0.0 <= roll < 1.0
    ensures ChooseType(wave, roll) == if roll < 0.6 then Rusher else Shooter
  {
    TiersAreWellFormed(wave);
  }

  /** The spawn position for an edge and the position drawn along it: 50
      units beyond the chosen edge. */
  function SpawnPoint(edge: Edge, along: int, width: int, height: int): (p: (int, int))
    ensures edge == Top ==> p == (along, -EDGE_OFFSET)
    ensures edge == Bottom ==> p == (along, height + EDGE_OFFSET)
    ensures edge == Left ==> p == (-EDGE_OFFSET, along)
    ensures edge == Right ==> p == (width + EDGE_OFFSET, along)
  {
    match edge
    case Top => (along, -EDGE_OFFSET)
    case Bottom => (along, height + EDGE_OFFSET)
    case Left => (-EDGE_OFFSET, along)
    case Right => (width + EDGE_OFFSET, along)
  }

  /** The position drawn along an edge lies in [0, width - 50] for the top
      and bottom edges and in [0, height - 50] for the sides. */
  predicate AlongInRange(edge: Edge, along: int, width: int, height: int)
  {
    0 <= along <= (if edge == Top || edge == Bottom then width else height) - EDGE_OFFSET
  }

  /** Every spawn point lies off the screen [0, width] x [0, height], 50
      units beyond exactly one edge, and within that edge's span. */
  lemma SpawnIsOffScreen(edge: Edge, along: int, width: int, height: int)
    requires AlongInRange(edge, along, width, height)
    ensures var p := SpawnPoint(edge, along, width, height);
      && (p.0 < 0 || p.0 > width || p.1 < 0 || p.1 > height)
      && (edge == Top || edge == Bottom ==> 0 <= p.0 <= width - EDGE_OFFSET)
      && (edge == Left || edge == Right ==> 0 <= p.1 <= height - EDGE_OFFSET)
  {
  }

  /** One enemy was spawned: a new enemy of the drawn type for the current
      wave, at the drawn edge position and at its type's health scaled to
      the wave, was appended, and the spawned count went up by one. */
  twostate predicate Spawned(world: World, roll: SpawnRoll)
    requires 0.0 <= roll.typeRoll < 1.0
    reads world`enemies, world`enemiesSpawnedThisWave, world`wave, world.enemies
  {
    && |world.enemies| == |old(world.enemies)| + 1
    && world.enemies[..|old(world.enemies)|] == old(world.enemies)
    && world.enemiesSpawnedThisWave == old(world.enemiesSpawnedThisWave) + 1
    && var e := world.enemies[|old(world.enemies)|];
       var kind := ChooseType(world.wave, roll.typeRoll);
       var p := SpawnPoint(roll.edge, roll.along, world.width, world.height);
       && fresh(e) && e.kind == kind && e.wave == world.wave
       && e.x == p.0 as real && e.y == p.1 as real
       && e.health == ScaledHealth(world.catalog(kind).health, world.wave)
       && e.maxHealth == e.health && e.state == Chase
  }

  /** Spawn one enemy (Spawned). */
  method SpawnEnemy(world: World, roll: SpawnRoll)
    requires Distinct(world.enemies) && world.EnemiesValid()
    requires 0.0 <= roll.typeRoll < 1.0
    requires roll.strafe == 1 || roll.strafe == -1
    requires roll.flank == 1 || roll.flank == -1
    modifies world`enemies, world`enemiesSpawnedThisWave
    ensures Distinct(world.enemies) && world.EnemiesValid()
    ensures Spawned(world, roll)
  {
    var kind := ChooseType(world.wave, roll.typeRoll);
    var p := SpawnPoint(roll.edge, roll.along, world.width, world.height);
    var e := new Enemy(p.0 as real, p.1 as real, world.wave, kind, world.catalog(kind),
                       roll.strafe, roll.flank);
    AppendDistinct(world.enemies, e);
    world.enemies := world.enemies + [e];
    world.enemiesSpawnedThisWave := world.enemiesSpawnedThisWave + 1;
  }
}
