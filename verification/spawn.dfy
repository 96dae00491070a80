/**
 * Spawn selection: dropping occupied edge cells, and choosing the spawn
 * point whose path estimate is least, with the first one in enumeration
 * order winning a tie. `least_damage_spawn` and `filter_blocked_locations`
 * are the same code in v0 and v1.
 */
module Spawn {
  import opened Game
  import opened Damage

  /** The locations of `locs` that hold no stationary unit, in their original order. */
  function Unblocked(g: GameState, locs: seq<Point>): (r: seq<Point>)
    ensures |r| <= |locs|
  {
    if locs == [] then []
    else
      var last := locs[|locs| - 1];
      Unblocked(g, locs[..|locs| - 1]) + (if g.occupied(last) then [] else [last])
  }

  /** The filtering loop, building `filtered` by appending. */
  method FilterBlockedLocations(g: GameState, locations: seq<Point>) returns (filtered: seq<Point>)
    ensures filtered == Unblocked(g, locations)
  {
    filtered := [];
    for i := 0 to |locations|
      invariant filtered == Unblocked(g, locations[..i])
    {
      assert locations[..i + 1][..i] == locations[..i];
      if !g.occupied(locations[i]) {
        filtered := filtered + [locations[i]];
      }
    }
    assert locations[..|locations|] == locations;
  }

  /** Exactly the unoccupied input locations survive the filter. */
  lemma {:induction false} UnblockedMembers(g: GameState, locs: seq<Point>, p: Point)
    ensures p in Unblocked(g, locs) <==> p in locs && !g.occupied(p)
    decreases |locs|
  {
    if locs != [] {
      var init := locs[..|locs| - 1];
      UnblockedMembers(g, init, p);
      assert locs == init + [locs[|locs| - 1]];
    }
  }

  /** Filtering distributes over concatenation: the survivors keep their relative order. */
  lemma {:induction false} UnblockedAppend(g: GameState, a: seq<Point>, b: seq<Point>)
    ensures Unblocked(g, a + b) == Unblocked(g, a) + Unblocked(g, b)
    decreases |b|
  {
    if b == [] {
      assert a + b == a;
    } else {
      var init := b[..|b| - 1];
      assert (a + b)[..|a + b| - 1] == a + init;
      assert (a + b)[|a + b| - 1] == b[|b| - 1];
      UnblockedAppend(g, a, init);
    }
  }

  /** Filtering twice is filtering once. */
  lemma {:induction false} UnblockedIdempotent(g: GameState, locs: seq<Point>)
    ensures Unblocked(g, Unblocked(g, locs)) == Unblocked(g, locs)
    decreases |locs|
  {
    if locs != [] {
      var init := locs[..|locs| - 1];
      var last := locs[|locs| - 1];
      UnblockedIdempotent(g, init);
      var kept := if g.occupied(last) then [] else [last];
      UnblockedAppend(g, Unblocked(g, init), kept);
      if !g.occupied(last) {
        assert [last][..0] == [];
      }
    }
  }

  /** Python's `min` of a non-empty list. */
  function MinOf(ds: seq<nat>): (m: nat)
    requires ds != []
    ensures m in ds
    ensures forall i :: 0 <= i < |ds| ==> m <= ds[i]
  {
    if |ds| == 1 then ds[0]
    else
      var rest := MinOf(ds[1..]);
      if ds[0] <= rest then ds[0] else rest
  }

  /** Python's `list.index`: the position of the first occurrence. */
  function IndexOf(ds: seq<nat>, v: nat): (i: nat)
    requires v in ds
    ensures i < |ds| && ds[i] == v
    ensures forall j :: 0 <= j < i ==> ds[j] != v
  {
    if ds[0] == v then 0 else 1 + IndexOf(ds[1..], v)
  }

  /** A spawn point together with its damage estimate. */
  datatype Choice = Choice(location: Point, damage: nat)

  /**
   * `c` is the first of `deploy` whose estimate over window `w` is least,
   * and carries that least estimate.
   */
  ghost predicate FirstLeast(g: GameState, deploy: seq<Point>, w: Window, c: Choice)
  {
    exists i :: 0 <= i < |deploy| && deploy[i] == c.location
      && c.damage == Estimate(g, deploy[i], w)
      && (forall j :: 0 <= j < |deploy| ==> c.damage <= Estimate(g, deploy[j], w))
      && (forall j :: 0 <= j < i ==> c.damage < Estimate(g, deploy[j], w))
  }

  /** The tie-break makes the choice unique: one candidate list yields one answer. */
  lemma FirstLeastUnique(g: GameState, deploy: seq<Point>, w: Window, c1: Choice, c2: Choice)
    requires FirstLeast(g, deploy, w, c1) && FirstLeast(g, deploy, w, c2)
    ensures c1 == c2
  {
    var i1 :| 0 <= i1 < |deploy| && deploy[i1] == c1.location
      && c1.damage == Estimate(g, deploy[i1], w)
      && (forall j :: 0 <= j < |deploy| ==> c1.damage <= Estimate(g, deploy[j], w))
      && (forall j :: 0 <= j < i1 ==> c1.damage < Estimate(g, deploy[j], w));
    var i2 :| 0 <= i2 < |deploy| && deploy[i2] == c2.location
      && c2.damage == Estimate(g, deploy[i2], w)
      && (forall j :: 0 <= j < |deploy| ==> c2.damage <= Estimate(g, deploy[j], w))
      && (forall j :: 0 <= j < i2 ==> c2.damage < Estimate(g, deploy[j], w));
    assert i1 == i2;
  }

  /** The estimates of `locs`, one per location, built by appending. */
  method EstimateAll(g: GameState, locs: seq<Point>, w: Window) returns (damages: seq<nat>)
    ensures |damages| == |locs|
    ensures forall k :: 0 <= k < |locs| ==> damages[k] == Estimate(g, locs[k], w)
  {
    damages := [];
    for i := 0 to |locs|
      invariant |damages| == i
      invariant forall k :: 0 <= k < i ==> damages[k] == Estimate(g, locs[k], w)
    {
      var damage := DamageAtSpawn(g, locs[i], w);
      damages := damages + [damage];
    }
  }

  /**
   * `least_damage_spawn`: the first unoccupied friendly edge cell whose path,
   * past its first eight points, takes the least damage, with that damage.
   * `None` is the ValueError `min()` raises when every edge cell is occupied.
   */
  method LeastDamageSpawn(g: GameState) returns (r: Option<Choice>)
    ensures var deploy := Unblocked(g, g.friendlyEdges);
      && (r.None? <==> deploy == [])
      && (r.Some? ==> FirstLeast(g, deploy, AfterFirst8, r.value))
    ensures r.Some? ==> r.value.location in g.friendlyEdges && !g.occupied(r.value.location)
  {
    var deploy := FilterBlockedLocations(g, g.friendlyEdges);
    var damages := EstimateAll(g, deploy, AfterFirst8);
    if damages == [] {
      return None;
    }
    var least := MinOf(damages);
    var k := IndexOf(damages, least);
    r := Some(Choice(deploy[k], least));
    UnblockedMembers(g, g.friendlyEdges, deploy[k]);
  }

  /**
   * The option `least_damage_interceptor_spawn` picks, at index `i`: the
   * first whose estimate over the first ten path points is under 10 when
   * there is one, otherwise the first with the least such estimate.
   */
  ghost predicate InterceptorPick(g: GameState, options: seq<Point>, i: int)
  {
    0 <= i < |options| &&
    var d := Estimate(g, options[i], First10);
    if exists j :: 0 <= j < |options| && Estimate(g, options[j], First10) < 10 then
      d < 10 && forall j :: 0 <= j < i ==> Estimate(g, options[j], First10) >= 10
    else
      (forall j :: 0 <= j < |options| ==> d <= Estimate(g, options[j], First10))
      && forall j :: 0 <= j < i ==> d < Estimate(g, options[j], First10)
  }

  /**
   * `least_damage_interceptor_spawn`. `None` is the ValueError `min()`
   * raises on an empty option list.
   */
  method LeastDamageInterceptorSpawn(g: GameState, options: seq<Point>) returns (r: Option<Point>)
    ensures r.None? <==> options == []
    ensures r.Some? ==> exists i :: InterceptorPick(g, options, i) && options[i] == r.value
  {
    var damages := EstimateAll(g, options, First10);
    for i := 0 to |damages|
      invariant forall j :: 0 <= j < i ==> damages[j] >= 10
    {
      if damages[i] < 10 {
        var k := IndexOf(damages, damages[i]);
        assert k == i;
        assert InterceptorPick(g, options, k);
        return Some(options[k]);
      }
    }
    if damages == [] {
      return None;
    }
    var k := IndexOf(damages, MinOf(damages));
    assert InterceptorPick(g, options, k);
    r := Some(options[k]);
  }

  /** The interceptor rule singles out one option: no two indices both qualify. */
  lemma InterceptorPickUnique(g: GameState, options: seq<Point>, i1: int, i2: int)
    requires InterceptorPick(g, options, i1) && InterceptorPick(g, options, i2)
    ensures i1 == i2
  {
  }

  /** The least-damage choice is no worse than any unoccupied candidate, wherever it stands. */
  lemma FirstLeastBeatsEveryFreeCell(g: GameState, locs: seq<Point>, w: Window, c: Choice, p: Point)
    requires FirstLeast(g, Unblocked(g, locs), w, c)
    requires p in locs && !g.occupied(p)
    ensures c.damage <= Estimate(g, p, w)
  {
    UnblockedMembers(g, locs, p);
    var deploy := Unblocked(g, locs);
    var j :| 0 <= j < |deploy| && deploy[j] == p;
  }
}
