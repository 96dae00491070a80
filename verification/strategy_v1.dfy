/**
 * Variant v1: attack only with at least 13 mobile points, opening the left
 * corner first, then seven sacrificial scouts and the rest of the mobile
 * points as attacking scouts.
 */
module StrategyV1 {
  import opened Numeric
  import opened Game
  import opened Damage
  import StrategyV0

  /** `get_attacker_scout_count`: the whole mobile points left after seven, rounded toward zero. */
  function AttackerScoutCount(mp: real): int
  {
    Trunc(mp - 7.0)
  }

  /**
   * `should_spawn_scouts`: commit when the path is free of damage, or when
   * attacking scouts times 17 is at least 0.7 times the damage.
   */
  function ShouldSpawnScouts(damage: nat, mp: real): (go: bool)
    ensures damage == 0 ==> go
    ensures 0 < damage ==> (go <==> 0.7 * damage as real <= (AttackerScoutCount(mp) * 17) as real)
    ensures 0 < damage && AttackerScoutCount(mp) <= 0 ==> !go
  {
    if damage == 0 then true
    else
      RatioAtLeast((AttackerScoutCount(mp) * 17) as real, damage as real, 0.7);
      (AttackerScoutCount(mp) * 17) as real / damage as real >= 0.7
  }

  /** Below eight mobile points no damaged path is ever worth scouts (truncation toward zero included). */
  lemma NoScoutsBelowEight(damage: nat, mp: real)
    requires 0 < damage && mp < 8.0
    ensures !ShouldSpawnScouts(damage, mp)
  {
  }

  /**
   * `should_spawn_demolishers`: commit when the path is free of damage, or
   * when demolishers times 5 is at least 0.02 times the damage.
   */
  function ShouldSpawnDemolishers(damage: nat, mp: real): (go: bool)
    ensures damage == 0 ==> go
    ensures 0 < damage ==> (go <==> 0.02 * damage as real <= (StrategyV0.DemolisherCount(mp) * 5) as real)
  {
    if damage == 0 then true
    else
      RatioAtLeast((StrategyV0.DemolisherCount(mp) * 5) as real, damage as real, 0.02);
      (StrategyV0.DemolisherCount(mp) * 5) as real / damage as real >= 0.02
  }

  /** One demolisher suffices against up to 250 damage. */
  lemma OneDemolisherCovers250(damage: nat, mp: real)
    requires 3.0 <= mp && damage <= 250
    ensures ShouldSpawnDemolishers(damage, mp)
  {
    TruncMonotone(1.0, mp / 3.0);
  }

  datatype Side = TopLeft | TopRight

  /** `get_location_side`: the enemy corner on the same half of the board. */
  function LocationSide(location: Point): (side: Side)
    ensures side == TopLeft <==> location.x < 14
  {
    if location.x < 14 then TopLeft else TopRight
  }

  /** Mirroring a cell of the 28-wide board across its midline always changes its side. */
  lemma MirrorChangesSide(location: Point)
    requires 0 <= location.x <= 27
    ensures LocationSide(location) != LocationSide(Point(27 - location.x, location.y))
  {
  }

  const SuicideScoutLocation := Point(14, 0)
  const AttackerScoutLocation := Point(21, 7)
  const SuicideScoutNum := 7

  /** What `scout_spam` attempts. */
  function ScoutSpamPlan(mp: real): (acts: seq<Action>)
    ensures mp < 13.0 ==> acts == []
    ensures 13.0 <= mp ==> |acts| == Trunc(mp) && AttackerScoutCount(mp) >= 6
    ensures 13.0 <= mp ==> forall i :: 0 <= i < |acts| ==>
      acts[i] == Spawn(Scout, if i < SuicideScoutNum then SuicideScoutLocation else AttackerScoutLocation)
  {
    if mp < 13.0 then []
    else
      TruncShift(mp, 7);
      SpawnAttempts(Scout, SuicideScoutLocation, SuicideScoutNum)
      + SpawnAttempts(Scout, AttackerScoutLocation, AttackerScoutCount(mp))
  }

  /** `scout_spam`: seven scouts at [14, 0], then the remaining whole mobile points at [21, 7]. */
  method ScoutSpam(g: GameState) returns (acts: seq<Action>)
    ensures acts == ScoutSpamPlan(g.mp)
  {
    if g.mp < 13.0 {
      return [];
    }
    var attackerScoutNum := Trunc(g.mp - SuicideScoutNum as real);
    var suicide := SpawnLoop(Scout, SuicideScoutLocation, SuicideScoutNum);
    var attackers := SpawnLoop(Scout, AttackerScoutLocation, attackerScoutNum);
    acts := suicide + attackers;
  }

  const CornerCells: seq<Point> := [Point(0, 13), Point(1, 13)]

  /** The walls `place_base_walls` always lists: the left run, then the right run. */
  const LeftWalls: seq<Point> := [
    Point(2, 13), Point(3, 13), Point(4, 12), Point(5, 11), Point(6, 11),
    Point(8, 10), Point(10, 10), Point(11, 9), Point(13, 8)]
  const RightWalls: seq<Point> := [
    Point(27, 13), Point(26, 13), Point(25, 13), Point(24, 13), Point(23, 12),
    Point(22, 11), Point(21, 11), Point(19, 10), Point(17, 10), Point(16, 9), Point(14, 8)]

  /**
   * The `locations` list of `place_base_walls`: both runs, the corner cells
   * while not attacking, and [7, 10] and [20, 10] from turn 4 on.
   */
  function BaseWallCells(attacking: bool, turn: int): (cells: seq<Point>)
    ensures |cells| >= 20 && cells[..20] == LeftWalls + RightWalls
    ensures Point(0, 13) in cells <==> !attacking
    ensures Point(1, 13) in cells <==> !attacking
    ensures Point(7, 10) in cells <==> 4 <= turn
    ensures Point(20, 10) in cells <==> 4 <= turn
    ensures |cells| == 20 + (if attacking then 0 else 2) + (if 4 <= turn then 2 else 0)
  {
    LeftWalls + RightWalls
    + (if attacking then [] else CornerCells)
    + (if turn >= 4 then [Point(7, 10), Point(20, 10)] else [])
  }

  /** Some cell of `cells` holds a stationary unit. */
  ghost predicate AnyOccupied(g: GameState, cells: seq<Point>)
  {
    exists i :: 0 <= i < |cells| && g.occupied(cells[i])
  }

  /**
   * The check loop of `place_base_walls` over its `locations` list. Its first statement on an occupied
   * cell reads an undefined name, so the loop raises `NameError` at the first
   * occupied cell and runs to the end only when every cell is empty.
   */
  method BaseWallsRaise(g: GameState, locations: seq<Point>) returns (raised: bool)
    ensures raised <==> AnyOccupied(g, locations)
  {
    for i := 0 to |locations|
      invariant forall j :: 0 <= j < i ==> !g.occupied(locations[j])
    {
      if g.occupied(locations[i]) {
        return true;
      }
    }
    return false;
  }

  /** A wall standing on either permanent run makes `place_base_walls` raise, whatever the turn. */
  lemma StandingWallRaises(g: GameState, attacking: bool, turn: int, i: nat)
    requires i < |LeftWalls + RightWalls| && g.occupied((LeftWalls + RightWalls)[i])
    ensures AnyOccupied(g, BaseWallCells(attacking, turn))
  {
    assert BaseWallCells(attacking, turn)[i] == (LeftWalls + RightWalls)[i];
  }

  /**
   * The offensive part of `starter_strategy`. `attacking` is read from the
   * board before `base_funnel` (`before`); the wall check, the corner test and
   * the wave read the board after `base_funnel` placed its structures
   * (`after`); the turn number is the one `before` shows. No later step of `base_funnel`
   * places or removes a unit on a cell of the wall list, so `after` shows
   * those cells as the check loop sees them. `None` is the `NameError` that
   * check raises, which ends the turn before the attack code and before
   * `submit_turn`.
   */
  method StarterStrategy(before: GameState, after: GameState) returns (r: Option<seq<Action>>)
    ensures r.None? <==> AnyOccupied(after, BaseWallCells(13.0 <= before.mp, before.turnNumber))
    ensures r.Some? && !(4 <= before.turnNumber && 13.0 <= before.mp) ==> r.value == []
    ensures r.Some? && 4 <= before.turnNumber && 13.0 <= before.mp ==>
      if after.occupied(Point(0, 13)) || after.occupied(Point(1, 13))
      then r.value == [Remove(CornerCells)]
      else r.value == ScoutSpamPlan(after.mp)
  {
    var attacking := before.mp >= 13.0;
    var raised := BaseWallsRaise(after, BaseWallCells(attacking, before.turnNumber));
    if raised {
      return None;
    }
    if before.turnNumber >= 4 && attacking {
      if after.occupied(Point(0, 13)) || after.occupied(Point(1, 13)) {
        return Some([Remove(CornerCells)]);
      }
      var acts := ScoutSpam(after);
      return Some(acts);
    }
    return Some([]);
  }
}
