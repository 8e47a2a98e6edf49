/**
  Two small board queries: filter_blocked_locations keeps the cells that hold no
  stationary unit, and get_defence_health reads the health of the first stationary
  unit on a cell.
*/
module Queries {
  import opened Board

  /** The cells of `locations` without a stationary unit, in their original order. */
  function Unblocked(s: Snapshot, locations: seq<Cell>): seq<Cell>
  {
    if locations == [] then []
    else
      var c := locations[|locations| - 1];
      Unblocked(s, locations[..|locations| - 1]) + (if ContainsStationaryUnit(s, c) then [] else [c])
  }

  /**
    A cell is kept exactly when it is one of the locations and holds no stationary unit,
    and nothing is added: the result is never longer than the input.
  */
  lemma {:induction false} UnblockedIff(s: Snapshot, locations: seq<Cell>)
    ensures |Unblocked(s, locations)| <= |locations|
    ensures forall c :: c in Unblocked(s, locations) <==> c in locations && !ContainsStationaryUnit(s, c)
  {
    if locations != [] {
      var front := locations[..|locations| - 1];
      UnblockedIff(s, front);
      assert locations == front + [locations[|locations| - 1]];
    }
  }

  /** Filtering twice is filtering once. */
  lemma {:induction false} UnblockedIdempotent(s: Snapshot, locations: seq<Cell>)
    ensures Unblocked(s, Unblocked(s, locations)) == Unblocked(s, locations)
  {
    if locations != [] {
      var front := locations[..|locations| - 1];
      var c := locations[|locations| - 1];
      UnblockedIdempotent(s, front);
      var inner := Unblocked(s, front);
      if !ContainsStationaryUnit(s, c) {
        assert Unblocked(s, locations) == inner + [c];
        assert (inner + [c])[..|inner + [c]| - 1] == inner;
        assert Unblocked(s, inner + [c]) == Unblocked(s, inner) + [c];
      } else {
        assert Unblocked(s, locations) == inner;
      }
    }
  }

  method FilterBlockedLocations(locations: seq<Cell>, s: Snapshot) returns (filtered: seq<Cell>)
    ensures filtered == Unblocked(s, locations)
  {
    filtered := [];
    var i := 0;
    while i < |locations|
      invariant i <= |locations|
      invariant filtered == Unblocked(s, locations[..i])
    {
      var location := locations[i];
      assert locations[..i + 1][..i] == locations[..i];
      if !ContainsStationaryUnit(s, location) {
        filtered := filtered + [location];
      }
      i := i + 1;
    }
    assert locations[..i] == locations;
  }

  /** The health of the first stationary unit in us, or 0 when none is stationary. */
  function FirstStationaryHealth(us: seq<Unit>): real
  {
    if us == [] then 0.0
    else if us[0].stationary then us[0].health
    else FirstStationaryHealth(us[1..])
  }

  /** The value is the health of the unit at the first stationary index, or 0 when there is none. */
  lemma {:induction false} FirstStationaryHealthIs(us: seq<Unit>)
    ensures var h := FirstStationaryHealth(us);
      (exists i :: 0 <= i < |us| && us[i].stationary && h == us[i].health
                   && forall k :: 0 <= k < i ==> !us[k].stationary)
      || ((forall u :: u in us ==> !u.stationary) && h == 0.0)
  {
    if us != [] && !us[0].stationary {
      FirstStationaryHealthIs(us[1..]);
      assert forall k :: 0 < k < |us| ==> us[k] == us[1..][k - 1];
      if exists i :: 0 <= i < |us[1..]| && us[1..][i].stationary && FirstStationaryHealth(us) == us[1..][i].health
                     && forall k :: 0 <= k < i ==> !us[1..][k].stationary {
        var i :| 0 <= i < |us[1..]| && us[1..][i].stationary && FirstStationaryHealth(us) == us[1..][i].health
                 && forall k :: 0 <= k < i ==> !us[1..][k].stationary;
        assert us[i + 1].stationary && forall k :: 0 <= k < i + 1 ==> !us[k].stationary;
      } else {
        assert us == [us[0]] + us[1..];
      }
    }
  }

  /** get_defence_health: 0 for a cell without a stationary unit. */
  function DefenceHealth(s: Snapshot, c: Cell): real
  {
    if ContainsStationaryUnit(s, c) then FirstStationaryHealth(UnitsAt(s, c)) else 0.0
  }

  method GetDefenceHealth(s: Snapshot, location: Cell) returns (health: real)
    ensures health == DefenceHealth(s, location)
  {
    health := 0.0;
    if ContainsStationaryUnit(s, location) {
      var us := UnitsAt(s, location);
      var i := 0;
      while i < |us| && !us[i].stationary
        invariant i <= |us|
        invariant FirstStationaryHealth(us[i..]) == FirstStationaryHealth(us)
      {
        assert us[i..][1..] == us[i + 1..];
        i := i + 1;
      }
      health := if i < |us| then us[i].health else 0.0;
    }
  }
}
