# Offensive decision core of three tower-defense strategies

This project models the per-turn offensive decision logic of three variants
(`v0.py`, `v1.py`, `v2.py`) of an `AlgoStrategy` for a two-player,
lane-based tower-defense game on a 28 × 28 diamond grid. Each variant asks the
game library about the board (the forced path from a spawn cell, how many
enemy units can attack a cell, whether a cell holds a stationary unit and
with what health, the turret damage, the resource counters) and decides
whether and where to send mobile units: scouts, demolishers and interceptors.

The board is an abstract snapshot, `Game.GameState`. Its fields are total
functions for the library's queries (`path`, `attackers`, `occupied`,
`health`), exact `real` resource counters and a `nat` turret damage. What
a strategy asks the engine to do is a list of `Game.Action` attempts:
one `Spawn` per `attempt_spawn` of one unit, and one `Remove` per
`attempt_remove`. Python's `math.trunc` is `Numeric.Trunc`, which rounds
toward zero. Python's `range(k)` with a negative `k` runs zero times
(`Numeric.Iterations`).

Modules:

- `Numeric` (numeric.dfy): truncation toward zero and the ratio-test lemma.
- `Game` (game.dfy): points, unit types, actions, the board snapshot and counted spawn loops.
- `Damage` (damage.dfy): the path-damage estimate. It is one accumulator loop over
  a window of the path: `path[8:]`, `path[:10]` or the whole path.
- `Spawn` (spawn.dfy): `filter_blocked_locations`, `least_damage_spawn` (the same
  code in v0 and v1) and `least_damage_interceptor_spawn`.
- `Breaches` (breaches.dfy): the strategy object's breach log and `on_action_frame`
  (the same code in v0 and v1).
- `StrategyV0`, `StrategyV1`, `StrategyV2`: the commit thresholds, the unit counts,
  the spawn waves and the attack gate of each variant.

`starter_strategy` in v1 and v2 computes `attacking` before `base_funnel` runs.
It tests the corner cells and spawns the wave after `base_funnel` has placed
its structures through the same game-state object. The model therefore takes
two snapshots: `before` and `after`. v0 reads only the board after
`base_funnel`, so `StrategyV0.StarterOffense` takes one snapshot.

Three pieces of code appear in more than one variant and are modelled once:
`least_damage_spawn` (v1.py:164-176), `filter_blocked_locations`
(v1.py:186-191) and `demolisher_spam` (v1.py:196-204) are the same as in v0.
v1's `get_demolisher_count` (v1.py:203-204) is v0's `trunc(MP / 3)`
(`StrategyV0.DemolisherCount`). `get_damage_at_spawn` (v1.py:178-184 and
v2.py:186-192) is `Damage.DamageAtSpawn` over the whole path.
v1 defines `should_spawn_scouts`, `should_spawn_demolishers`, `least_damage_spawn`,
`get_damage_at_spawn`, `filter_blocked_locations`, `get_attacker_scout_count`,
`demolisher_spam`, `get_demolisher_count` and `get_location_side`, but its turn
(`starter_strategy` and `scout_spam`) never reaches them, so v1 never sends
demolishers. `StrategyV1.ShouldSpawnScouts`, `StrategyV1.ShouldSpawnDemolishers`
and `StrategyV1.LocationSide` model those definitions, not steps of v1's turn.

The count helpers `get_scout_count` (v0.py:269-270), v0's demolisher count
(v0.py:273, the same as v1's `get_demolisher_count` at v1.py:203-204),
`get_attacker_scout_count` (v1.py:193-194) and `get_num_scouts` (v2.py:183-184)
are `StrategyV0.ScoutCount`, `StrategyV0.DemolisherCount`,
`StrategyV1.AttackerScoutCount` and `StrategyV2.NumScouts`. `StrategyV0.Wave` is the
branch of v0's `starter_strategy` (v0.py:78-82) that sends the scout wave when
`should_spawn_scouts` holds for the chosen cell's damage and the demolisher wave otherwise.

The commit thresholds are 2.8 (v0.py:89), 0.7 (v1.py:70) and 0.02 (v1.py:77).
With damage 0 the code commits whatever the MP, even 0 (v0.py:85, v1.py:66, v1.py:73);
see `StrategyV0.IdleScoutCommit`.

## Model

| member | source | states |
|---|---|---|
| `Numeric.Trunc` | v0.py:269-270 | truncation rounds toward zero: for r ≥ 0 the result is the largest integer ≤ r, for r < 0 the smallest integer ≥ r |
| `Numeric.TruncMonotone` | v0.py:269-270 | more mobile points never give a smaller truncated count |
| `Numeric.TruncShift` | v1.py:213 | for a whole k ≤ r, trunc(r − k) = trunc(r) − k |
| `Numeric.TruncIsNotFloor` | v1.py:193-194 | for every negative argument that is not whole, truncation is floor + 1, so `MP - 7` just below 0 gives 0 scouts, not −1 |
| `Numeric.RatioAtLeast` | v0.py:89 | with a positive denominator, x / d ≥ c holds exactly when x ≥ c·d |
| `Game.SpawnAttempts` | v0.py:266-267 | a counted spawn loop makes max(k, 0) attempts, all of the same unit at the same cell |
| `Game.SpawnLoop` | v0.py:266-267 | the loop builds exactly those attempts |
| `Damage.Slice` | v0.py:240 | Python slicing: `path[8:]` is the path minus its first eight points (empty when shorter); `path[:10]` is the prefix of length min(10, len) |
| `Damage.DamageAtSpawn` | v1.py:178-184 | the accumulator loop returns the sum, over the windowed path, of attackers × turret damage |
| `Damage.PathDamageAppend` | v1.py:181-182 | damage along two consecutive path pieces is the sum of their damages |
| `Damage.DamageIsTurretTimesAttackers` | v0.py:240-242 | the damage is the turret damage times the number of attacks summed over the path points |
| `Damage.PathDamageZero` | v2.py:189-190 | the damage is 0 exactly when no path point takes a hit |
| `Damage.PathDamageMonotone` | v2.py:189-190 | more attackers on every point never lower the damage |
| `Damage.ShortPathNoDamage` | v0.py:240 | a path of at most eight points has estimate 0 for `least_damage_spawn` |
| `Damage.NoAttackersNoDamage` | v1.py:181-182 | with no enemy attacker anywhere every estimate is 0 |
| `Damage.WholePathDominates` | v1.py:170-184 | the whole-path estimate is at least the `path[8:]` estimate and the `path[:10]` estimate of the same cell |
| `Damage.EstimateMonotone` | v0.py:237-243 | with the same paths and turret damage, adding attackers never lowers an estimate |
| `Spawn.FilterBlockedLocations` | v0.py:248-253 | the loop's result is the order-preserving filter of unoccupied locations |
| `Spawn.UnblockedMembers` | v0.py:250-252 | a location survives the filter exactly when it is in the input and not occupied |
| `Spawn.UnblockedAppend` | v0.py:248-253 | filtering distributes over concatenation, so survivors keep their input order |
| `Spawn.UnblockedIdempotent` | v1.py:186-191 | filtering an already filtered list changes nothing |
| `Spawn.MinOf` | v0.py:246 | `min` returns an element of the list that is ≤ every element |
| `Spawn.IndexOf` | v0.py:246 | `index` returns the first position holding the value |
| `Spawn.EstimateAll` | v0.py:235-243 | the `damages` list holds, position by position, the estimate of each location |
| `Spawn.LeastDamageSpawn` | v0.py:231-246 | no result (ValueError) exactly when every edge cell is occupied; otherwise the first unoccupied edge cell whose `path[8:]` estimate is least, with that estimate; the cell is a friendly edge cell and unoccupied |
| `Spawn.FirstLeastUnique` | v0.py:245-246 | the first-minimum rule determines the chosen cell and damage uniquely |
| `Spawn.FirstLeastBeatsEveryFreeCell` | v1.py:164-176 | the chosen damage is ≤ the estimate of every unoccupied edge cell |
| `Spawn.LeastDamageInterceptorSpawn` | v0.py:208-228 | no result exactly for an empty option list; otherwise the first option with `path[:10]` damage under 10 if one exists, else the first option with the least such damage |
| `Spawn.InterceptorPickUnique` | v0.py:225-228 | at most one option index satisfies that rule |
| `Breaches.Strategy.constructor` | v0.py:45 | the match starts with an empty breach log |
| `Breaches.Strategy.OnActionFrame` | v0.py:279-297 | the log becomes the old log followed by the locations of the breaches whose owner code is not 1, in event order |
| `Breaches.OpponentBreachesMembers` | v1.py:237-244 | a location is logged exactly when some breach by an opponent unit happened there |
| `Breaches.OpponentBreachesAppend` | v0.py:290-297 | logging two frames is logging their concatenation: order is kept across frames |
| `Breaches.RepeatedBreachLoggedTwice` | v0.py:297 | the same opponent breach twice yields two log entries (no deduplication) |
| `Breaches.OwnBreachesNotLogged` | v0.py:292-295 | breaches by this player's units (owner code 1) add nothing |
| `StrategyV0.ShouldSpawnScouts` | v0.py:84-89 | true when damage is 0; otherwise true exactly when 15·trunc(MP) ≥ 2.8·damage, hence false when trunc(MP) ≤ 0 |
| `StrategyV0.ShouldSpawnScoutsMonotone` | v0.py:84-89 | more mobile points or less damage never turn a commit into a hold |
| `StrategyV0.InterceptorNum` | v0.py:255-260 | the count is 1, 2 or 3; it is 1 exactly when the enemy has under 13 MP or the turn is under 15, and 3 exactly when the turn is over 30 and the enemy has over 15 MP (reachable despite the comment) |
| `StrategyV0.InterceptorNumMonotone` | v0.py:255-260 | the count never decreases as the turn and the enemy MP grow |
| `StrategyV0.ScoutSpamPlan` | v0.py:262-270 | no attempt when trunc(MP) ≤ 4, otherwise exactly trunc(MP) scout attempts, all at the given cell |
| `StrategyV0.ScoutSpam` | v0.py:262-267 | the method makes exactly those attempts |
| `StrategyV0.DemolisherSpamPlan` | v0.py:272-277 | no attempt when trunc(MP/3) ≤ 3, otherwise exactly trunc(MP/3) demolisher attempts, all at the given cell |
| `StrategyV0.DemolisherSpam` | v0.py:272-277 | the method makes exactly those attempts |
| `StrategyV0.WaveSizes` | v0.py:262-277 | a scout wave is empty or has at least 5 units, a demolisher wave is empty or has at least 4 |
| `StrategyV0.IdleScoutCommit` | v0.py:78-82 | with a damage-free path and under 5 MP, scouts are chosen yet none is attempted, and no demolisher either |
| `StrategyV0.StarterOffense` | v0.py:69-82 | a ValueError exactly when every edge cell is occupied; otherwise the scout wave from the least-damage cell if `should_spawn_scouts` holds for its damage, else the demolisher wave from it |
| `StrategyV0.AnyLogged` | v0.py:106 | true exactly when some logged location lies in the zone |
| `StrategyV0.FlanksToWall` | v0.py:102-109 | a side's walls are placed exactly when some logged location lies in that side's four-cell list; each side at most once, left before right |
| `StrategyV0.FlanksPersist` | v0.py:102-109 | since the log only grows, a reinforced flank stays reinforced on every later turn |
| `StrategyV1.ShouldSpawnScouts` | v1.py:65-70 | true when damage is 0; otherwise true exactly when 17·trunc(MP − 7) ≥ 0.7·damage, hence false when trunc(MP − 7) ≤ 0 |
| `StrategyV1.NoScoutsBelowEight` | v1.py:193-194 | with damage and under 8 MP scouts are never committed (trunc toward zero gives 0, not −1, just below 7) |
| `StrategyV1.ShouldSpawnDemolishers` | v1.py:72-77 | true when damage is 0; otherwise true exactly when 5·trunc(MP/3) ≥ 0.02·damage |
| `StrategyV1.OneDemolisherCovers250` | v1.py:72-77 | with at least 3 MP any damage up to 250 commits demolishers |
| `StrategyV1.LocationSide` | v1.py:220-223 | TOP_LEFT exactly when x < 14, else TOP_RIGHT |
| `StrategyV1.MirrorChangesSide` | v1.py:220-223 | a cell and its mirror across the board's midline are on different sides |
| `StrategyV1.ScoutSpamPlan` | v1.py:206-218 | nothing under 13 MP; otherwise 7 attempts at [14, 0] then trunc(MP − 7) ≥ 6 attempts at [21, 7], trunc(MP) attempts in all |
| `StrategyV1.ScoutSpam` | v1.py:206-218 | the method makes exactly those attempts |
| `StrategyV1.BaseWallCells` | v1.py:97-108 | the wall list starts with the 20 cells of both runs; it holds [0, 13] and [1, 13] exactly when not attacking, [7, 10] and [20, 10] exactly from turn 4, and nothing else (its length is 20, plus 2 when not attacking, plus 2 from turn 4) |
| `StrategyV1.BaseWallsRaise` | v1.py:114-116 | the check loop over a list raises `NameError` exactly when some cell of the list holds a stationary unit |
| `StrategyV1.StandingWallRaises` | v1.py:97-116 | a unit on any cell of the two permanent runs makes the check raise, whatever `attacking` and the turn |
| `StrategyV1.StarterStrategy` | v1.py:51-63 | `NameError` (no result) exactly when some wall-list cell is occupied after `base_funnel`'s placements; otherwise nothing unless turn ≥ 4 and MP ≥ 13; then if [0, 13] or [1, 13] is occupied, one removal of both cells and no scouts; otherwise the scout wave |
| `StrategyV2.MaxHealth` | v2.py:169-174 | the largest health among the occupied cells of [1, 14] and [0, 14], and 0 when neither is occupied |
| `StrategyV2.InterceptorCount` | v2.py:176-181 | the count is 3, 4, 6 or 7; at least 6 exactly when the damage exceeds 30; 7 when also the corner health exceeds 50; 4 when the damage is at most 30 and the health exceeds 60 |
| `StrategyV2.InterceptorCountMonotone` | v2.py:176-181 | more danger or a stronger corner never means fewer interceptors |
| `StrategyV2.NumInterceptors` | v2.py:168-181 | the step-by-step `max_health` and the whole-path damage at [3, 10] give that count |
| `StrategyV2.InterceptorsAndScoutsSpendAll` | v2.py:183-184 | when MP covers the interceptors, interceptors plus trunc(MP − interceptors) equals trunc(MP) |
| `StrategyV2.StructuresPlaced` | v2.py:194-200 | true exactly when all 27 listed cells are occupied; when false, some listed cell is empty |
| `StrategyV2.CanPlaceCornerTurrets` | v2.py:202-203 | true exactly when SP ≥ 4 |
| `StrategyV2.AttackReadyHasScouts` | v2.py:51-56 | when `attacking` holds, at least one scout remains and MP exceeds the interceptor count by at least 1 |
| `StrategyV2.InfiltratePlan` | v2.py:155-166 | the interceptor count at [3, 10] first, then trunc(MP − count) scouts at [14, 0] (none when negative) |
| `StrategyV2.Infiltrate` | v2.py:155-166 | the method makes exactly those attempts |
| `StrategyV2.StarterStrategy` | v2.py:49-66 | nothing unless turn ≥ 2 and `attacking` (all structures placed and scouts ≥ 8 or enemy health < scouts); then if [1, 13] is occupied, its removal only; otherwise the infiltration |

## Left out

- The game library: path finding, attacker range geometry, unit configuration and edge
  enumeration. They are the fields of `Game.GameState`.
- Whether the engine accepts an attempt (resources, legality). It is not modelled: actions
  are attempts. The MP a spawn would consume is not deducted from the snapshot.
- The fixed structure menus. These are `place_base_walls`, `place_turrets`, `place_supports`,
  `place_L_walls`, `place_infiltrator_walls`, `spawn_interceptors` and the wall and
  interceptor gates inside `base_funnel`. They are fixed coordinate lists sent to the
  engine. Their effect on the board is why v1 and v2 take an `after` snapshot.
  Of v1's `place_base_walls` only the wall list and its check loop are modelled
  (`StrategyV1.BaseWallCells`, `StrategyV1.BaseWallsRaise`): the loop reads an undefined
  name (v1.py:116), so its removals (v1.py:117) and upgrades (v1.py:118-122) never happen.
- JSON parsing in `on_action_frame`: only the parsed breach location and owner code are modelled.
- `on_action_frame` of v2 does nothing (v2.py:205-206). Its log stays empty, and no member models it.
- `hypothetical_state` (v1.py:37) and `spawns` (v1.py:235) are assigned and never read.
- Random seeding, `debug_write`, configuration reading in `on_game_start`, `on_turn`,
  `submit_turn` and the `__main__` entry point.
- Floating point: resources and ratios are exact reals, and turret damage is a natural number.
- Unit health and the enemy's health are taken to be non-negative (`Game.Health`).
- What happens after the `NameError` of v1's wall check: `StrategyV1.StarterStrategy` reports it
  as `None` (no action of the turn reaches `submit_turn`) and does not follow the exception further.
- What happens after the ValueError that `least_damage_spawn` raises when all edge cells are occupied.
  The model reports it as `None` and does not follow the exception further.
- v0, v1 and v2 contain no counter-formation state machine and no hypothetical-board
  replay, so none is modelled.
