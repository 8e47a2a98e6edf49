/**
  The path-damage estimate behind damage_to_scout and damage_to_interceptor: walk the
  path find_path_to_edge gives from the launch cell and, for each path cell p, add the
  damage_i of every unit on a cell q within the 3.5 search radius of p that belongs to
  the other player, has damage_i > 0 and reaches p with its own attack range. The scout
  estimate adds damage_i once per pair, the interceptor estimate twice.
*/
module PathRisk {
  import opened Board

  /** Unit u on cell q, owned by the other side of playerIndex, can hit path cell p. */
  predicate Threatens(u: Unit, p: Cell, q: Cell, playerIndex: int)
  {
    u.damageI > 0.0 && u.playerIndex != playerIndex && InAttackRange(u, p, q)
  }

  /** The weighted damage the units us on cell q deal to path cell p, summed in list order. */
  function UnitsDamage(us: seq<Unit>, p: Cell, q: Cell, playerIndex: int, weight: real): (r: real)
  {
    if us == [] then 0.0
    else
      var u := us[|us| - 1];
      UnitsDamage(us[..|us| - 1], p, q, playerIndex, weight) + (if Threatens(u, p, q, playerIndex) then weight * u.damageI else 0.0)
  }

  /** The weighted damage dealt to p from the cells qs. */
  function AreaDamage(s: Snapshot, p: Cell, qs: seq<Cell>, playerIndex: int, weight: real): (r: real)
  {
    if qs == [] then 0.0
    else
      var q := qs[|qs| - 1];
      AreaDamage(s, p, qs[..|qs| - 1], playerIndex, weight) + UnitsDamage(UnitsAt(s, q), p, q, playerIndex, weight)
  }

  /** The weighted damage along a path: each cell meets the attackers within 3.5 of it. */
  function PathDamage(s: Snapshot, path: seq<Cell>, playerIndex: int, weight: real): (r: real)
  {
    if path == [] then 0.0
    else
      var p := path[|path| - 1];
      PathDamage(s, path[..|path| - 1], playerIndex, weight) + AreaDamage(s, p, s.locationsInRange(p), playerIndex, weight)
  }

  datatype Error = InvalidPlayerIndex

  datatype Result<T> = Ok(value: T) | Err(error: Error)

  /**
    The shared loop of damage_to_scout and damage_to_interceptor; `weight` is the
    multiplier each of them applies to damage_i. A player index other than 0 or 1 is
    rejected.
  */
  method EstimateDamage(s: Snapshot, location: Cell, playerIndex: int, weight: real) returns (r: Result<real>)
    ensures playerIndex != 0 && playerIndex != 1 ==> r == Err(InvalidPlayerIndex)
    ensures playerIndex == 0 || playerIndex == 1 ==> r == Ok(PathDamage(s, s.pathToEdge(location), playerIndex, weight))
  {
    if playerIndex != 0 && playerIndex != 1 {
      return Err(InvalidPlayerIndex);
    }
    var damage := 0.0;
    var path := s.pathToEdge(location);
    var i := 0;
    while i < |path|
      invariant i <= |path|
      invariant damage == PathDamage(s, path[..i], playerIndex, weight)
    {
      var pathPoint := path[i];
      assert path[..i + 1][..i] == path[..i];
      var area := AreaDamageAt(s, pathPoint, playerIndex, weight);
      damage := damage + area;
      i := i + 1;
    }
    assert path[..i] == path;
    r := Ok(damage);
  }

  /** The middle loop of the estimate: the cells within the search radius of one path cell. */
  method AreaDamageAt(s: Snapshot, pathPoint: Cell, playerIndex: int, weight: real) returns (damage: real)
    ensures damage == AreaDamage(s, pathPoint, s.locationsInRange(pathPoint), playerIndex, weight)
  {
    damage := 0.0;
    var possibleTurrets := s.locationsInRange(pathPoint);
    var j := 0;
    while j < |possibleTurrets|
      invariant j <= |possibleTurrets|
      invariant damage == AreaDamage(s, pathPoint, possibleTurrets[..j], playerIndex, weight)
    {
      var locationUnit := possibleTurrets[j];
      assert possibleTurrets[..j + 1][..j] == possibleTurrets[..j];
      var cell := UnitsDamageAt(s, pathPoint, locationUnit, playerIndex, weight);
      damage := damage + cell;
      j := j + 1;
    }
    assert possibleTurrets[..j] == possibleTurrets;
  }

  /** The inner loop of the estimate: the units on one cell near the path cell. */
  method UnitsDamageAt(s: Snapshot, pathPoint: Cell, locationUnit: Cell, playerIndex: int, weight: real) returns (damage: real)
    ensures damage == UnitsDamage(UnitsAt(s, locationUnit), pathPoint, locationUnit, playerIndex, weight)
  {
    damage := 0.0;
    var us := UnitsAt(s, locationUnit);
    var k := 0;
    while k < |us|
      invariant k <= |us|
      invariant damage == UnitsDamage(us[..k], pathPoint, locationUnit, playerIndex, weight)
    {
      var unit := us[k];
      assert us[..k + 1][..k] == us[..k];
      if unit.damageI > 0.0 && unit.playerIndex != playerIndex && InAttackRange(unit, pathPoint, locationUnit) {
        damage := damage + weight * unit.damageI;
      }
      k := k + 1;
    }
    assert us[..k] == us;
  }

  /** damage_to_scout: each threatening (path cell, unit) pair adds damage_i once. */
  method DamageToScout(s: Snapshot, location: Cell, playerIndex: int) returns (r: Result<real>)
    ensures playerIndex != 0 && playerIndex != 1 ==> r == Err(InvalidPlayerIndex)
    ensures playerIndex == 0 || playerIndex == 1 ==> r == Ok(PathDamage(s, s.pathToEdge(location), playerIndex, 1.0))
  {
    r := EstimateDamage(s, location, playerIndex, 1.0);
  }

  /** damage_to_interceptor (the definition that takes effect): each pair adds 2 * damage_i. */
  method DamageToInterceptor(s: Snapshot, location: Cell, playerIndex: int) returns (r: Result<real>)
    ensures playerIndex != 0 && playerIndex != 1 ==> r == Err(InvalidPlayerIndex)
    ensures playerIndex == 0 || playerIndex == 1 ==> r == Ok(PathDamage(s, s.pathToEdge(location), playerIndex, 2.0))
  {
    r := EstimateDamage(s, location, playerIndex, 2.0);
  }

  lemma {:induction false} UnitsDamageDoubles(us: seq<Unit>, p: Cell, q: Cell, playerIndex: int)
    ensures UnitsDamage(us, p, q, playerIndex, 2.0) == 2.0 * UnitsDamage(us, p, q, playerIndex, 1.0)
  {
    if us != [] {
      UnitsDamageDoubles(us[..|us| - 1], p, q, playerIndex);
    }
  }

  lemma {:induction false} AreaDamageDoubles(s: Snapshot, p: Cell, qs: seq<Cell>, playerIndex: int)
    ensures AreaDamage(s, p, qs, playerIndex, 2.0) == 2.0 * AreaDamage(s, p, qs, playerIndex, 1.0)
  {
    if qs != [] {
      var q := qs[|qs| - 1];
      AreaDamageDoubles(s, p, qs[..|qs| - 1], playerIndex);
      UnitsDamageDoubles(UnitsAt(s, q), p, q, playerIndex);
    }
  }

  /** Counting each pair twice doubles the estimate over any path. */
  lemma {:induction false} PathDamageDoubles(s: Snapshot, path: seq<Cell>, playerIndex: int)
    ensures PathDamage(s, path, playerIndex, 2.0) == 2.0 * PathDamage(s, path, playerIndex, 1.0)
  {
    if path != [] {
      var p := path[|path| - 1];
      PathDamageDoubles(s, path[..|path| - 1], playerIndex);
      AreaDamageDoubles(s, p, s.locationsInRange(p), playerIndex);
    }
  }

  /** For the same launch cell and player, the interceptor estimate is exactly twice the scout estimate. */
  lemma InterceptorIsTwiceScout(s: Snapshot, location: Cell, playerIndex: int)
    ensures PathDamage(s, s.pathToEdge(location), playerIndex, 2.0) == 2.0 * PathDamage(s, s.pathToEdge(location), playerIndex, 1.0)
  {
    PathDamageDoubles(s, s.pathToEdge(location), playerIndex);
  }

  /** The estimate over a path is the sum of the estimates over its two halves; the empty path costs 0. */
  lemma {:induction false} PathDamageAppend(s: Snapshot, a: seq<Cell>, b: seq<Cell>, playerIndex: int, weight: real)
    ensures PathDamage(s, [], playerIndex, weight) == 0.0
    ensures PathDamage(s, a + b, playerIndex, weight) == PathDamage(s, a, playerIndex, weight) + PathDamage(s, b, playerIndex, weight)
  {
    if b == [] {
      assert a + b == a;
    } else {
      var front := b[..|b| - 1];
      PathDamageAppend(s, a, front, playerIndex, weight);
      assert (a + b)[..|a + b| - 1] == a + front;
      assert (a + b)[|a + b| - 1] == b[|b| - 1];
    }
  }

  lemma {:induction false} UnitsDamageNonNegative(us: seq<Unit>, p: Cell, q: Cell, playerIndex: int, weight: real)
    requires 0.0 <= weight
    ensures 0.0 <= UnitsDamage(us, p, q, playerIndex, weight)
  {
    if us != [] {
      var u := us[|us| - 1];
      UnitsDamageNonNegative(us[..|us| - 1], p, q, playerIndex, weight);
      if Threatens(u, p, q, playerIndex) {
        assert 0.0 <= weight * u.damageI;
      }
    }
  }

  lemma {:induction false} AreaDamageNonNegative(s: Snapshot, p: Cell, qs: seq<Cell>, playerIndex: int, weight: real)
    requires 0.0 <= weight
    ensures 0.0 <= AreaDamage(s, p, qs, playerIndex, weight)
  {
    if qs != [] {
      var q := qs[|qs| - 1];
      AreaDamageNonNegative(s, p, qs[..|qs| - 1], playerIndex, weight);
      UnitsDamageNonNegative(UnitsAt(s, q), p, q, playerIndex, weight);
    }
  }

  /** Every estimate with a non-negative weight is non-negative. */
  lemma {:induction false} PathDamageNonNegative(s: Snapshot, path: seq<Cell>, playerIndex: int, weight: real)
    requires 0.0 <= weight
    ensures 0.0 <= PathDamage(s, path, playerIndex, weight)
  {
    if path != [] {
      var p := path[|path| - 1];
      PathDamageNonNegative(s, path[..|path| - 1], playerIndex, weight);
      AreaDamageNonNegative(s, p, s.locationsInRange(p), playerIndex, weight);
    }
  }

  /** The snapshot with unit u added to the units on cell q. */
  function AddUnit(s: Snapshot, q: Cell, u: Unit): (t: Snapshot)
    ensures forall c :: UnitsAt(t, c) == if c == q then UnitsAt(s, c) + [u] else UnitsAt(s, c)
    ensures t.locationsInRange == s.locationsInRange && t.pathToEdge == s.pathToEdge
  {
    s.(units := s.units[q := UnitsAt(s, q) + [u]])
  }

  lemma UnitsDamageAddOne(us: seq<Unit>, u: Unit, p: Cell, q: Cell, playerIndex: int, weight: real)
    requires 0.0 <= weight
    ensures UnitsDamage(us, p, q, playerIndex, weight) <= UnitsDamage(us + [u], p, q, playerIndex, weight)
    ensures u.playerIndex == playerIndex ==> UnitsDamage(us + [u], p, q, playerIndex, weight) == UnitsDamage(us, p, q, playerIndex, weight)
  {
    assert (us + [u])[..|us|] == us;
  }

  lemma {:induction false} AreaDamageAddUnit(s: Snapshot, p: Cell, qs: seq<Cell>, q: Cell, u: Unit, playerIndex: int, weight: real)
    requires 0.0 <= weight
    ensures AreaDamage(s, p, qs, playerIndex, weight) <= AreaDamage(AddUnit(s, q, u), p, qs, playerIndex, weight)
    ensures u.playerIndex == playerIndex ==> AreaDamage(AddUnit(s, q, u), p, qs, playerIndex, weight) == AreaDamage(s, p, qs, playerIndex, weight)
  {
    if qs != [] {
      var c := qs[|qs| - 1];
      AreaDamageAddUnit(s, p, qs[..|qs| - 1], q, u, playerIndex, weight);
      if c == q {
        UnitsDamageAddOne(UnitsAt(s, c), u, p, c, playerIndex, weight);
      }
    }
  }

  /**
    Adding a unit to the board never lowers the estimate of a fixed path, and adding a
    unit of the player whose path is estimated leaves it unchanged.
  */
  lemma {:induction false} AddingUnitNeverLowers(s: Snapshot, path: seq<Cell>, q: Cell, u: Unit, playerIndex: int, weight: real)
    requires 0.0 <= weight
    ensures PathDamage(s, path, playerIndex, weight) <= PathDamage(AddUnit(s, q, u), path, playerIndex, weight)
    ensures u.playerIndex == playerIndex ==> PathDamage(AddUnit(s, q, u), path, playerIndex, weight) == PathDamage(s, path, playerIndex, weight)
  {
    if path != [] {
      var p := path[|path| - 1];
      AddingUnitNeverLowers(s, path[..|path| - 1], q, u, playerIndex, weight);
      AreaDamageAddUnit(s, p, s.locationsInRange(p), q, u, playerIndex, weight);
    }
  }
}
