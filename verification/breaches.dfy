/**
 * The breach log: `on_action_frame` of v0 and v1 appends the location of
 * every breach by an opponent unit to the strategy's `scored_on_locations`.
 * Only the already-parsed breach entries of a frame are modelled.
 */
module Breaches {
  import opened Game

  /**
   * One parsed breach entry: its location (entry 0) and the raw owner code
   * (entry 4), where 1 means this player and 2 the opponent.
   */
  datatype Breach = Breach(location: Point, owner: int)

  /** The owner code the frame data uses for this player. */
  const SelfOwner := 1

  /** The locations the log records for `breaches`, in event order. */
  function OpponentBreaches(breaches: seq<Breach>): (log: seq<Point>)
    ensures |log| <= |breaches|
  {
    if breaches == [] then []
    else
      var last := breaches[|breaches| - 1];
      OpponentBreaches(breaches[..|breaches| - 1]) + (if last.owner != SelfOwner then [last.location] else [])
  }

  /** The strategy object's persistent state. */
  class Strategy {
    var scoredOnLocations: seq<Point>

    /** `on_game_start` starts the match with an empty log. */
    constructor ()
      ensures scoredOnLocations == []
    {
      scoredOnLocations := [];
    }

    /** `on_action_frame`: append each opponent breach, in order, duplicates kept. */
    method OnActionFrame(breaches: seq<Breach>)
      modifies this
      ensures scoredOnLocations == old(scoredOnLocations) + OpponentBreaches(breaches)
    {
      for i := 0 to |breaches|
        invariant scoredOnLocations == old(scoredOnLocations) + OpponentBreaches(breaches[..i])
      {
        assert breaches[..i + 1][..i] == breaches[..i];
        var location := breaches[i].location;
        var unitOwnerSelf := breaches[i].owner == SelfOwner;
        if !unitOwnerSelf {
          scoredOnLocations := scoredOnLocations + [location];
        }
      }
      assert breaches[..|breaches|] == breaches;
    }
  }

  /** A location is logged exactly when some opponent breach happened there. */
  lemma {:induction false} OpponentBreachesMembers(breaches: seq<Breach>, p: Point)
    ensures p in OpponentBreaches(breaches) <==>
      exists i :: 0 <= i < |breaches| && breaches[i].location == p && breaches[i].owner != SelfOwner
    decreases |breaches|
  {
    if breaches != [] {
      var init := breaches[..|breaches| - 1];
      OpponentBreachesMembers(init, p);
      assert forall i :: 0 <= i < |init| ==> init[i] == breaches[i];
    }
  }

  /** Two frames log what one frame holding both of their breaches logs, in the same order. */
  lemma {:induction false} OpponentBreachesAppend(a: seq<Breach>, b: seq<Breach>)
    ensures OpponentBreaches(a + b) == OpponentBreaches(a) + OpponentBreaches(b)
    decreases |b|
  {
    if b == [] {
      assert a + b == a;
    } else {
      var init := b[..|b| - 1];
      assert (a + b)[..|a + b| - 1] == a + init;
      assert (a + b)[|a + b| - 1] == b[|b| - 1];
      OpponentBreachesAppend(a, init);
    }
  }

  /** No deduplication: a breach repeated at the same point is logged twice. */
  lemma RepeatedBreachLoggedTwice(breaches: seq<Breach>, b: Breach)
    requires b.owner != SelfOwner
    ensures OpponentBreaches(breaches + [b, b]) == OpponentBreaches(breaches) + [b.location, b.location]
  {
    OpponentBreachesAppend(breaches, [b, b]);
    assert [b, b][..1] == [b];
    assert [b][..0] == [];
  }

  /** Breaches by this player's own units leave the log as it was. */
  lemma {:induction false} OwnBreachesNotLogged(breaches: seq<Breach>)
    requires forall i :: 0 <= i < |breaches| ==> breaches[i].owner == SelfOwner
    ensures OpponentBreaches(breaches) == []
    decreases |breaches|
  {
    if breaches != [] {
      OwnBreachesNotLogged(breaches[..|breaches| - 1]);
    }
  }
}
