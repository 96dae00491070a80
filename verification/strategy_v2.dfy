/**
 * Variant v2: attack only once the whole defensive line stands, sending
 * sacrificial interceptors at [3, 10] sized by the danger at that cell and
 * by the strength of the enemy corner, then scouts with the remaining
 * mobile points.
 */
module StrategyV2 {
  import opened Numeric
  import opened Game
  import opened Damage

  const EnemyCornerInner := Point(1, 14)
  const EnemyCornerOuter := Point(0, 14)
  const InterceptorLocation := Point(3, 10)
  const ScoutLocation := Point(14, 0)
  const CornerGap := Point(1, 13)

  /**
   * The largest health among the enemy corner cells [1, 14] and [0, 14]
   * that hold a unit, or 0 when neither does.
   */
  function MaxHealth(g: GameState): (h: real)
    ensures 0.0 <= h
    ensures g.occupied(EnemyCornerInner) ==> g.health(EnemyCornerInner) <= h
    ensures g.occupied(EnemyCornerOuter) ==> g.health(EnemyCornerOuter) <= h
    ensures h == 0.0
      || (g.occupied(EnemyCornerInner) && h == g.health(EnemyCornerInner))
      || (g.occupied(EnemyCornerOuter) && h == g.health(EnemyCornerOuter))
  {
    var inner := if g.occupied(EnemyCornerInner) then g.health(EnemyCornerInner) else 0.0;
    if g.occupied(EnemyCornerOuter) && g.health(EnemyCornerOuter) > inner
    then g.health(EnemyCornerOuter) else inner
  }

  /**
   * The interceptor count for a whole-path damage at [3, 10] and a corner
   * health: 6 or 7 above 30 damage, 3 or 4 otherwise, the larger one for a
   * stronger corner.
   */
  function InterceptorCount(damage: nat, maxHealth: real): (n: nat)
    ensures n in {3, 4, 6, 7}
    ensures 6 <= n <==> 30 < damage
    ensures n == 7 <==> 30 < damage && 50.0 < maxHealth
    ensures n == 4 <==> damage <= 30 && 60.0 < maxHealth
  {
    if damage > 30 then (if maxHealth <= 50.0 then 6 else 7)
    else if maxHealth <= 60.0 then 3 else 4
  }

  /** More danger or a stronger corner never means fewer interceptors. */
  lemma InterceptorCountMonotone(d1: nat, h1: real, d2: nat, h2: real)
    requires d1 <= d2 && h1 <= h2
    ensures InterceptorCount(d1, h1) <= InterceptorCount(d2, h2)
  {
  }

  /** `get_num_interceptors`, with `max_health` updated step by step. */
  method NumInterceptors(g: GameState) returns (n: nat)
    ensures n == InterceptorCount(Estimate(g, InterceptorLocation, WholePath), MaxHealth(g))
  {
    var maxHealth: real := 0.0;
    if g.occupied(EnemyCornerInner) {
      maxHealth := g.health(EnemyCornerInner);
    }
    if g.occupied(EnemyCornerOuter) {
      var h := g.health(EnemyCornerOuter);
      maxHealth := if h > maxHealth then h else maxHealth;
    }
    var damage := DamageAtSpawn(g, InterceptorLocation, WholePath);
    if damage > 30 {
      if maxHealth <= 50.0 {
        return 6;
      }
      return 7;
    }
    n := if maxHealth <= 60.0 then 3 else 4;
  }

  /** `get_num_scouts`: the whole mobile points left after the interceptors. */
  function NumScouts(mp: real, interceptorNum: nat): int
  {
    Trunc(mp - interceptorNum as real)
  }

  /** With enough mobile points, interceptors plus scouts use up every whole mobile point. */
  lemma InterceptorsAndScoutsSpendAll(mp: real, interceptorNum: nat)
    requires interceptorNum as real <= mp
    ensures interceptorNum + NumScouts(mp, interceptorNum) == Trunc(mp)
  {
    TruncShift(mp, interceptorNum);
  }

  /** The 27 cells of the defensive line that must all stand before an attack. */
  const StructureLocations: seq<Point> := [
    Point(0, 13), Point(2, 13), Point(3, 13), Point(4, 12), Point(5, 11), Point(6, 11),
    Point(7, 10), Point(8, 10), Point(9, 10), Point(10, 10), Point(11, 9), Point(12, 8),
    Point(13, 8), Point(15, 8), Point(27, 13), Point(26, 13), Point(25, 13), Point(24, 13),
    Point(23, 12), Point(22, 11), Point(21, 11), Point(20, 10), Point(18, 10), Point(19, 10),
    Point(17, 10), Point(16, 9), Point(14, 8)]

  ghost predicate AllStructuresPlaced(g: GameState)
  {
    forall i :: 0 <= i < |StructureLocations| ==> g.occupied(StructureLocations[i])
  }

  /** `structures_placed`: stops at the first empty cell of the line. */
  method StructuresPlaced(g: GameState) returns (placed: bool)
    ensures placed <==> AllStructuresPlaced(g)
    ensures !placed ==> exists i :: 0 <= i < |StructureLocations| && !g.occupied(StructureLocations[i])
  {
    for i := 0 to |StructureLocations|
      invariant forall j :: 0 <= j < i ==> g.occupied(StructureLocations[j])
    {
      if !g.occupied(StructureLocations[i]) {
        return false;
      }
    }
    return true;
  }

  /** `can_place_corner_turrets`: the corner turrets are tried with at least 4 structure points. */
  function CanPlaceCornerTurrets(sp: real): (can: bool)
    ensures can <==> 4.0 <= sp
  {
    sp >= 4.0
  }

  /** The interceptor count `starter_strategy` and `infiltrate` compute on a board. */
  function Interceptors(g: GameState): nat
  {
    InterceptorCount(Estimate(g, InterceptorLocation, WholePath), MaxHealth(g))
  }

  /** The `attacking` flag of `starter_strategy`. */
  ghost predicate AttackReady(g: GameState)
  {
    var scouts := NumScouts(g.mp, Interceptors(g));
    AllStructuresPlaced(g) && (8 <= scouts || g.enemyHealth < scouts as real)
  }

  /** An attack-ready board always has at least one scout to send after the interceptors. */
  lemma AttackReadyHasScouts(g: GameState)
    requires AttackReady(g)
    ensures 1 <= NumScouts(g.mp, Interceptors(g))
    ensures Interceptors(g) as real + 1.0 <= g.mp
  {
  }

  /** What `infiltrate` attempts: the interceptors at [3, 10], then the scouts at [14, 0]. */
  function InfiltratePlan(g: GameState): (acts: seq<Action>)
    ensures var n := Interceptors(g);
      && |acts| == n + Iterations(NumScouts(g.mp, n))
      && (forall i :: 0 <= i < n ==> acts[i] == Spawn(Interceptor, InterceptorLocation))
      && (forall i :: n <= i < |acts| ==> acts[i] == Spawn(Scout, ScoutLocation))
  {
    var n := Interceptors(g);
    SpawnAttempts(Interceptor, InterceptorLocation, n)
    + SpawnAttempts(Scout, ScoutLocation, NumScouts(g.mp, n))
  }

  /** `infiltrate`: both counts are fixed before any unit is attempted. */
  method Infiltrate(g: GameState) returns (acts: seq<Action>)
    ensures acts == InfiltratePlan(g)
  {
    var suicideInterceptorNum := NumInterceptors(g);
    var attackerScoutNum := NumScouts(g.mp, suicideInterceptorNum);
    var interceptors := SpawnLoop(Interceptor, InterceptorLocation, suicideInterceptorNum);
    var scouts := SpawnLoop(Scout, ScoutLocation, attackerScoutNum);
    acts := interceptors + scouts;
  }

  /**
   * The offensive part of `starter_strategy`. `attacking` is computed on the
   * board before `base_funnel` (`before`); the corner test and `infiltrate`
   * read the board after it (`after`).
   */
  method StarterStrategy(before: GameState, after: GameState) returns (acts: seq<Action>)
    ensures !(2 <= before.turnNumber && AttackReady(before)) ==> acts == []
    ensures 2 <= before.turnNumber && AttackReady(before) ==>
      if after.occupied(CornerGap) then acts == [Remove([CornerGap])]
      else acts == InfiltratePlan(after)
  {
    var numInterceptors := NumInterceptors(before);
    var numScouts := NumScouts(before.mp, numInterceptors);
    var attacking := numScouts >= 8 || before.enemyHealth < numScouts as real;
    var placed := StructuresPlaced(before);
    if !placed {
      attacking := false;
    }
    acts := [];
    if before.turnNumber >= 2 && attacking {
      if after.occupied(CornerGap) {
        acts := [Remove([CornerGap])];
        return;
      }
      acts := Infiltrate(after);
    }
  }
}
