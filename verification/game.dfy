/**
 * The board and engine interface the strategies query. The game library's
 * state object is represented by a snapshot of the queries the core makes:
 * the forced path from a spawn point, how many enemy units can attack a
 * point, whether a point holds a stationary unit and that unit's health,
 * the turret damage from the unit configuration, the friendly spawn edges
 * and the resource counters. Requests sent to the engine are recorded as
 * attempts; whether the engine accepts an attempt is not part of the model.
 */
module Game {
  import opened Numeric

  datatype Point = Point(x: int, y: int)

  datatype UnitType = Wall | Support | Turret | Scout | Demolisher | Interceptor

  /** One request to the engine: an `attempt_spawn` of one unit, or an `attempt_remove`. */
  datatype Action = Spawn(unit: UnitType, at: Point) | Remove(cells: seq<Point>)

  datatype Option<T> = None | Some(value: T)

  type Health = h: real | 0.0 <= h

  datatype GameState = GameState(
    turnNumber: nat,
    mp: real,                      // own mobile points, get_resource(MP, 0)
    sp: real,                      // own structure points, get_resource(SP, 0)
    enemyMp: real,                 // opponent mobile points, get_resource(MP, 1)
    enemyHealth: Health,
    friendlyEdges: seq<Point>,     // BOTTOM_LEFT edge followed by BOTTOM_RIGHT edge
    path: Point -> seq<Point>,     // find_path_to_edge
    attackers: Point -> nat,       // len(get_attackers(p, 0))
    occupied: Point -> bool,       // contains_stationary_unit
    health: Point -> Health,       // health of the stationary unit at a point
    turretDamage: nat)             // GameUnit(TURRET, config).damage_i

  /** The attempts made by `for _ in range(k): attempt_spawn(unit, at)`. */
  function SpawnAttempts(unit: UnitType, at: Point, k: int): (r: seq<Action>)
    ensures |r| == Iterations(k)
    ensures forall i :: 0 <= i < |r| ==> r[i] == Spawn(unit, at)
  {
    if k <= 0 then [] else SpawnAttempts(unit, at, k - 1) + [Spawn(unit, at)]
  }

  /** A counted spawn loop. */
  method SpawnLoop(unit: UnitType, at: Point, k: int) returns (acts: seq<Action>)
    ensures acts == SpawnAttempts(unit, at, k)
  {
    acts := [];
    for i := 0 to Iterations(k)
      invariant acts == SpawnAttempts(unit, at, i)
    {
      acts := acts + [Spawn(unit, at)];
    }
  }
}
