/**
 * Path-damage estimation: for a spawn point, the damage a mobile unit is
 * expected to take along its forced path, point by point the number of enemy
 * attackers that reach the point times the turret damage. The variants
 * differ only in the part of the path they sum over.
 */
module Damage {
  import opened Game

  /** Which part of the forced path an estimate covers. */
  datatype Window =
    | AfterFirst8   // path[8:], used by least_damage_spawn
    | First10       // path[:10], used by least_damage_interceptor_spawn
    | WholePath     // path, used by get_damage_at_spawn

  /** Python's slice of `path` for a window, with its clamping at the path's end. */
  function Slice(path: seq<Point>, w: Window): (r: seq<Point>)
    ensures w == AfterFirst8 ==> |r| == (if |path| <= 8 then 0 else |path| - 8) && path == path[..|path| - |r|] + r
    ensures w == First10 ==> |r| == (if |path| <= 10 then |path| else 10) && r <= path
    ensures w == WholePath ==> r == path
  {
    match w
    case AfterFirst8 => if |path| <= 8 then [] else path[8..]
    case First10 => if |path| <= 10 then path else path[..10]
    case WholePath => path
  }

  /** The damage added at one path point. */
  function Hit(g: GameState, p: Point): nat
  {
    g.attackers(p) * g.turretDamage
  }

  /** Damage accumulated along `pts`, in the order the loop adds it. */
  function PathDamage(g: GameState, pts: seq<Point>): nat
  {
    if pts == [] then 0 else PathDamage(g, pts[..|pts| - 1]) + Hit(g, pts[|pts| - 1])
  }

  /** Number of attacks along `pts`, summed from the front: the reference count. */
  function AttackersAlong(g: GameState, pts: seq<Point>): nat
  {
    if pts == [] then 0 else g.attackers(pts[0]) + AttackersAlong(g, pts[1..])
  }

  /** The damage estimate for one spawn point over one window of its path. */
  function Estimate(g: GameState, spawn: Point, w: Window): nat
  {
    PathDamage(g, Slice(g.path(spawn), w))
  }

  /** The accumulator loop over the sliced path. */
  method DamageAtSpawn(g: GameState, spawn: Point, w: Window) returns (damage: nat)
    ensures damage == Estimate(g, spawn, w)
  {
    var path := g.path(spawn);
    var pts := Slice(path, w);
    damage := 0;
    for k := 0 to |pts|
      invariant damage == PathDamage(g, pts[..k])
    {
      assert pts[..k + 1][..k] == pts[..k];
      damage := damage + g.attackers(pts[k]) * g.turretDamage;
    }
    assert pts[..|pts|] == pts;
  }

  lemma {:induction false} PathDamageAppend(g: GameState, a: seq<Point>, b: seq<Point>)
    ensures PathDamage(g, a + b) == PathDamage(g, a) + PathDamage(g, b)
    decreases |b|
  {
    if b == [] {
      assert a + b == a;
    } else {
      var init := b[..|b| - 1];
      assert (a + b)[..|a + b| - 1] == a + init;
      assert (a + b)[|a + b| - 1] == b[|b| - 1];
      PathDamageAppend(g, a, init);
    }
  }

  /** The damage is the turret damage times the number of attacks along the path. */
  lemma {:induction false} DamageIsTurretTimesAttackers(g: GameState, pts: seq<Point>)
    ensures PathDamage(g, pts) == g.turretDamage * AttackersAlong(g, pts)
    decreases |pts|
  {
    if pts != [] {
      assert pts == [pts[0]] + pts[1..];
      PathDamageAppend(g, [pts[0]], pts[1..]);
      assert [pts[0]][..0] == [];
      DamageIsTurretTimesAttackers(g, pts[1..]);
      calc {
        PathDamage(g, pts);
        Hit(g, pts[0]) + PathDamage(g, pts[1..]);
        g.attackers(pts[0]) * g.turretDamage + g.turretDamage * AttackersAlong(g, pts[1..]);
        g.turretDamage * (g.attackers(pts[0]) + AttackersAlong(g, pts[1..]));
      }
    }
  }

  /** No damage at all exactly when no point of the path takes a hit. */
  lemma {:induction false} PathDamageZero(g: GameState, pts: seq<Point>)
    ensures PathDamage(g, pts) == 0 <==> forall i :: 0 <= i < |pts| ==> Hit(g, pts[i]) == 0
    decreases |pts|
  {
    if pts != [] {
      var init := pts[..|pts| - 1];
      PathDamageZero(g, init);
      assert forall i :: 0 <= i < |init| ==> init[i] == pts[i];
    }
  }

  /** More attackers on every point never lower the damage along a path. */
  lemma {:induction false} PathDamageMonotone(g: GameState, h: GameState, pts: seq<Point>)
    requires g.turretDamage == h.turretDamage
    requires forall i :: 0 <= i < |pts| ==> g.attackers(pts[i]) <= h.attackers(pts[i])
    ensures PathDamage(g, pts) <= PathDamage(h, pts)
    decreases |pts|
  {
    if pts != [] {
      var last := pts[|pts| - 1];
      var init := pts[..|pts| - 1];
      assert forall i :: 0 <= i < |init| ==> init[i] == pts[i];
      PathDamageMonotone(g, h, init);
      assert g.attackers(last) * g.turretDamage <= h.attackers(last) * g.turretDamage by {
        MulMonotone(g.attackers(last), h.attackers(last), g.turretDamage);
      }
    }
  }

  lemma MulMonotone(a: nat, b: nat, c: nat)
    requires a <= b
    ensures a * c <= b * c
  {
  }

  /** A path of at most eight points costs nothing to `least_damage_spawn`. */
  lemma ShortPathNoDamage(g: GameState, spawn: Point)
    requires |g.path(spawn)| <= 8
    ensures Estimate(g, spawn, AfterFirst8) == 0
  {
  }

  /** Without any attacked point the estimate is zero, over every window. */
  lemma {:induction false} NoAttackersNoDamage(g: GameState, spawn: Point, w: Window)
    requires forall p :: g.attackers(p) == 0
    ensures Estimate(g, spawn, w) == 0
  {
    var pts := Slice(g.path(spawn), w);
    PathDamageZero(g, pts);
    assert forall i :: 0 <= i < |pts| ==> Hit(g, pts[i]) == 0;
  }

  /** The whole-path estimate bounds both windowed estimates from above. */
  lemma WholePathDominates(g: GameState, spawn: Point)
    ensures Estimate(g, spawn, AfterFirst8) <= Estimate(g, spawn, WholePath)
    ensures Estimate(g, spawn, First10) <= Estimate(g, spawn, WholePath)
  {
    var path := g.path(spawn);
    var tail := Slice(path, AfterFirst8);
    PathDamageAppend(g, path[..|path| - |tail|], tail);
    var head := Slice(path, First10);
    assert path == head + path[|head|..];
    PathDamageAppend(g, head, path[|head|..]);
  }

  /** Adding attackers (with the same paths and turret damage) never lowers an estimate. */
  lemma EstimateMonotone(g: GameState, h: GameState, spawn: Point, w: Window)
    requires g.turretDamage == h.turretDamage && g.path(spawn) == h.path(spawn)
    requires forall p :: g.attackers(p) <= h.attackers(p)
    ensures Estimate(g, spawn, w) <= Estimate(h, spawn, w)
  {
    PathDamageMonotone(g, h, Slice(g.path(spawn), w));
  }
}
