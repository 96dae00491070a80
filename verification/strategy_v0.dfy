/**
 * Variant v0: scouts or demolishers from the least-damage edge cell, an
 * interceptor escort sized by the opponent's mobile points and the turn,
 * and flank walls placed where the opponent has already scored.
 */
module StrategyV0 {
  import opened Numeric
  import opened Game
  import opened Damage
  import opened Spawn

  /** `get_scout_count`: one scout per whole mobile point. */
  function ScoutCount(mp: real): int
  {
    Trunc(mp)
  }

  /** One demolisher per three whole mobile points, truncated. */
  function DemolisherCount(mp: real): int
  {
    Trunc(mp / 3.0)
  }

  /**
   * `should_spawn_scouts`: commit scouts when the safest path is free of
   * damage, or when scouts times 15 is at least 2.8 times the damage.
   */
  function ShouldSpawnScouts(damage: nat, mp: real): (go: bool)
    ensures damage == 0 ==> go
    ensures 0 < damage ==> (go <==> 2.8 * damage as real <= (ScoutCount(mp) * 15) as real)
    ensures 0 < damage && ScoutCount(mp) <= 0 ==> !go
  {
    if damage == 0 then true
    else
      RatioAtLeast((ScoutCount(mp) * 15) as real, damage as real, 2.8);
      (ScoutCount(mp) * 15) as real / damage as real >= 2.8
  }

  /** More mobile points, or less damage, never turn a commit into a hold. */
  lemma ShouldSpawnScoutsMonotone(d1: nat, mp1: real, d2: nat, mp2: real)
    requires d2 <= d1 && mp1 <= mp2
    requires ShouldSpawnScouts(d1, mp1)
    ensures ShouldSpawnScouts(d2, mp2)
  {
    TruncMonotone(mp1, mp2);
    if 0 < d2 {
      assert 2.8 * d2 as real <= 2.8 * d1 as real;
    }
  }

  /**
   * `get_interceptor_num`: one interceptor early or against a poor opponent,
   * three late against a rich one, two otherwise.
   */
  function InterceptorNum(enemyMp: real, turn: int): (n: nat)
    ensures n in {1, 2, 3}
    ensures n == 1 <==> enemyMp < 13.0 || turn < 15
    ensures n == 3 <==> 30 < turn && 15.0 < enemyMp
  {
    if enemyMp < 13.0 || turn < 15 then 1
    else if turn > 30 && enemyMp > 15.0 then 3
    else 2
  }

  /** The escort never shrinks as the turn and the opponent's mobile points grow. */
  lemma InterceptorNumMonotone(m1: real, t1: int, m2: real, t2: int)
    requires m1 <= m2 && t1 <= t2
    ensures InterceptorNum(m1, t1) <= InterceptorNum(m2, t2)
  {
  }

  /** What `scout_spam` attempts at `location`. */
  function ScoutSpamPlan(mp: real, location: Point): (acts: seq<Action>)
    ensures ScoutCount(mp) <= 4 ==> acts == []
    ensures 4 < ScoutCount(mp) ==> |acts| == ScoutCount(mp)
    ensures forall i :: 0 <= i < |acts| ==> acts[i] == Spawn(Scout, location)
  {
    if ScoutCount(mp) <= 4 then [] else SpawnAttempts(Scout, location, ScoutCount(mp))
  }

  /** `scout_spam`: nothing for four scouts or fewer, otherwise all of them at one cell. */
  method ScoutSpam(g: GameState, location: Point) returns (acts: seq<Action>)
    ensures acts == ScoutSpamPlan(g.mp, location)
  {
    var scoutCount := ScoutCount(g.mp);
    if scoutCount <= 4 {
      return [];
    }
    acts := SpawnLoop(Scout, location, scoutCount);
  }

  /** What `demolisher_spam` attempts at `location`. */
  function DemolisherSpamPlan(mp: real, location: Point): (acts: seq<Action>)
    ensures DemolisherCount(mp) <= 3 ==> acts == []
    ensures 3 < DemolisherCount(mp) ==> |acts| == DemolisherCount(mp)
    ensures forall i :: 0 <= i < |acts| ==> acts[i] == Spawn(Demolisher, location)
  {
    if DemolisherCount(mp) <= 3 then [] else SpawnAttempts(Demolisher, location, DemolisherCount(mp))
  }

  /** `demolisher_spam` (the same code in v0 and v1). */
  method DemolisherSpam(g: GameState, location: Point) returns (acts: seq<Action>)
    ensures acts == DemolisherSpamPlan(g.mp, location)
  {
    var demolisherCount := DemolisherCount(g.mp);
    if demolisherCount <= 3 {
      return [];
    }
    acts := SpawnLoop(Demolisher, location, demolisherCount);
  }

  /** A wave is either empty or has at least five scouts, or at least four demolishers. */
  lemma WaveSizes(mp: real, location: Point)
    ensures |ScoutSpamPlan(mp, location)| == 0 || |ScoutSpamPlan(mp, location)| >= 5
    ensures |DemolisherSpamPlan(mp, location)| == 0 || |DemolisherSpamPlan(mp, location)| >= 4
  {
  }

  /**
   * A damage-free path commits to scouts even when there are too few to
   * send, and then no demolishers are tried either: the turn attacks with nothing.
   */
  lemma IdleScoutCommit(mp: real, location: Point)
    requires 0.0 <= mp < 5.0
    ensures ShouldSpawnScouts(0, mp) && ScoutSpamPlan(mp, location) == []
    ensures Wave(mp, Choice(location, 0)) == []
  {
  }

  /** The wave sent from the chosen cell: scouts when committed, demolishers otherwise. */
  function Wave(mp: real, c: Choice): seq<Action>
  {
    if ShouldSpawnScouts(c.damage, mp) then ScoutSpamPlan(mp, c.location)
    else DemolisherSpamPlan(mp, c.location)
  }

  /**
   * The offensive half of `starter_strategy`, on the board as `base_funnel`
   * left it. `None` is the ValueError raised when every edge cell is occupied.
   */
  method StarterOffense(g: GameState) returns (r: Option<seq<Action>>)
    ensures var deploy := Unblocked(g, g.friendlyEdges);
      && (r.None? <==> deploy == [])
      && (r.Some? ==>
            exists c :: FirstLeast(g, deploy, AfterFirst8, c) && r.value == Wave(g.mp, c))
  {
    var spawn := LeastDamageSpawn(g);
    if spawn.None? {
      return None;
    }
    var safest := spawn.value;
    var acts;
    if ShouldSpawnScouts(safest.damage, g.mp) {
      acts := ScoutSpam(g, safest.location);
    } else {
      acts := DemolisherSpam(g, safest.location);
    }
    r := Some(acts);
  }

  datatype Flank = LeftFlank | RightFlank

  /** The four near-corner cells of each side whose breach triggers that side's walls. */
  const LeftRisk: seq<Point> := [Point(0, 13), Point(1, 12), Point(2, 11), Point(3, 10)]
  const RightRisk: seq<Point> := [Point(27, 13), Point(26, 12), Point(25, 11), Point(24, 10)]

  /** Python's `any(location in log for location in zone)`. */
  function AnyLogged(zone: seq<Point>, log: seq<Point>): (b: bool)
    ensures b <==> exists j :: 0 <= j < |log| && log[j] in zone
  {
    if zone == [] then false
    else
      assert zone[0] in log ==> exists j :: 0 <= j < |log| && log[j] == zone[0];
      zone[0] in log || AnyLogged(zone[1..], log)
  }

  /** The flank check of `base_funnel`: the sides whose infiltrator walls go up, left first. */
  function FlanksToWall(log: seq<Point>): (flanks: seq<Flank>)
    ensures LeftFlank in flanks <==> exists j :: 0 <= j < |log| && log[j] in LeftRisk
    ensures RightFlank in flanks <==> exists j :: 0 <= j < |log| && log[j] in RightRisk
    ensures forall i, j :: 0 <= i < j < |flanks| ==> flanks[i] == LeftFlank && flanks[j] == RightFlank
  {
    (if AnyLogged(LeftRisk, log) then [LeftFlank] else [])
    + (if AnyLogged(RightRisk, log) then [RightFlank] else [])
  }

  /** The log only grows, so a flank once reinforced is reinforced on every later turn. */
  lemma FlanksPersist(log: seq<Point>, more: seq<Point>, f: Flank)
    requires f in FlanksToWall(log)
    ensures f in FlanksToWall(log + more)
  {
    var zone := if f == LeftFlank then LeftRisk else RightRisk;
    var j :| 0 <= j < |log| && log[j] in zone;
    assert (log + more)[j] == log[j];
  }
}
