/**
  detect_enemy_unit: count the opponent's units standing on cells that hold a
  stationary unit and that pass a (type, x, y) filter, where a missing filter part
  matches everything.
*/
module Scanner {
  import opened Board

  /**
    An element of a valid_x / valid_y list. The source passes lists of integers,
    except for the left-breach test, which passes a list holding the list [0, 1].
  */
  datatype Key = Num(n: int) | Nested(items: seq<int>)

  datatype Filter = Filter(unitType: Option<UnitType>, validX: Option<seq<Key>>, validY: Option<seq<Key>>)

  const Unfiltered := Filter(None, None, None)

  /** Python's `v in valid`: an integer is equal only to an integer element. */
  predicate Allows(valid: Option<seq<Key>>, v: int)
  {
    valid.None? || Num(v) in valid.value
  }

  predicate Matches(u: Unit, c: Cell, f: Filter)
  {
    && u.playerIndex == 1
    && (f.unitType.None? || u.kind == f.unitType.value)
    && Allows(f.validX, c.x)
    && Allows(f.validY, c.y)
  }

  /** list(range(lo, hi)) as filter keys. */
  function Range(lo: int, hi: int): seq<Key>
  {
    seq(if lo < hi then hi - lo else 0, i => Num(lo + i))
  }

  lemma RangeAllows(lo: int, hi: int, v: int)
    ensures Allows(Some(Range(lo, hi)), v) <==> lo <= v < hi
  {
    if lo <= v < hi {
      assert Range(lo, hi)[v - lo] == Num(v);
    }
  }

  /** Matching units among us, standing on c. */
  function CountMatching(us: seq<Unit>, c: Cell, f: Filter): (n: nat)
    ensures n <= |us|
  {
    if us == [] then 0
    else CountMatching(us[..|us| - 1], c, f) + (if Matches(us[|us| - 1], c, f) then 1 else 0)
  }

  function CellCount(s: Snapshot, c: Cell, f: Filter): nat
  {
    if ContainsStationaryUnit(s, c) then CountMatching(UnitsAt(s, c), c, f) else 0
  }

  /** The count detect_enemy_unit returns after scanning `cells` in order. */
  function EnemyCount(s: Snapshot, cells: seq<Cell>, f: Filter): nat
  {
    if cells == [] then 0
    else EnemyCount(s, cells[..|cells| - 1], f) + CellCount(s, cells[|cells| - 1], f)
  }

  method DetectEnemyUnit(s: Snapshot, unitType: Option<UnitType>, validX: Option<seq<Key>>,
                         validY: Option<seq<Key>>) returns (total: nat)
    ensures total == EnemyCount(s, s.cells, Filter(unitType, validX, validY))
  {
    var f := Filter(unitType, validX, validY);
    total := 0;
    var i := 0;
    while i < |s.cells|
      invariant i <= |s.cells|
      invariant total == EnemyCount(s, s.cells[..i], f)
    {
      var location := s.cells[i];
      assert s.cells[..i + 1][..i] == s.cells[..i];
      if ContainsStationaryUnit(s, location) {
        var us := UnitsAt(s, location);
        var j := 0;
        while j < |us|
          invariant j <= |us|
          invariant total == EnemyCount(s, s.cells[..i], f) + CountMatching(us[..j], location, f)
        {
          assert us[..j + 1][..j] == us[..j];
          if us[j].playerIndex == 1 && (unitType.None? || us[j].kind == unitType.value)
             && (validX.None? || Num(location.x) in validX.value)
             && (validY.None? || Num(location.y) in validY.value)
          {
            total := total + 1;
          }
          j := j + 1;
        }
        assert us[..j] == us;
      }
      i := i + 1;
    }
    assert s.cells[..i] == s.cells;
  }

  /** Every unit that filter a admits on a cell, filter b admits too. */
  ghost predicate Narrower(a: Filter, b: Filter)
  {
    forall u, c :: Matches(u, c, a) ==> Matches(u, c, b)
  }

  lemma {:induction false} CountMatchingMonotone(us: seq<Unit>, c: Cell, a: Filter, b: Filter)
    requires Narrower(a, b)
    ensures CountMatching(us, c, a) <= CountMatching(us, c, b)
  {
    if us != [] {
      CountMatchingMonotone(us[..|us| - 1], c, a, b);
    }
  }

  /** A narrower filter never counts more. */
  lemma {:induction false} EnemyCountMonotone(s: Snapshot, cells: seq<Cell>, a: Filter, b: Filter)
    requires Narrower(a, b)
    ensures EnemyCount(s, cells, a) <= EnemyCount(s, cells, b)
  {
    if cells != [] {
      EnemyCountMonotone(s, cells[..|cells| - 1], a, b);
      var c := cells[|cells| - 1];
      CountMatchingMonotone(UnitsAt(s, c), c, a, b);
    }
  }

  /** An unset filter part matches everything: the unfiltered count bounds every count. */
  lemma UnsetFilterCountsMost(s: Snapshot, cells: seq<Cell>, f: Filter)
    ensures EnemyCount(s, cells, f) <= EnemyCount(s, cells, Unfiltered)
  {
    EnemyCountMonotone(s, cells, f, Unfiltered);
  }

  lemma {:induction false} CountMatchingNone(us: seq<Unit>, c: Cell, f: Filter)
    requires !Allows(f.validX, c.x)
    ensures CountMatching(us, c, f) == 0
  {
    if us != [] {
      CountMatchingNone(us[..|us| - 1], c, f);
    }
  }

  /**
    An x filter holding no integer at all (such as [[0, 1]]) matches no cell, so
    the count is 0 on every board.
  */
  lemma {:induction false} NestedKeysCountNothing(s: Snapshot, cells: seq<Cell>, f: Filter)
    requires f.validX.Some? && forall k :: k in f.validX.value ==> k.Nested?
    ensures EnemyCount(s, cells, f) == 0
  {
    if cells != [] {
      NestedKeysCountNothing(s, cells[..|cells| - 1], f);
      var c := cells[|cells| - 1];
      assert !Allows(f.validX, c.x);
      CountMatchingNone(UnitsAt(s, c), c, f);
    }
  }
}
