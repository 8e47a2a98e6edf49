/**
  The cells of the defence line: the `ourlocations` region that stands when there is
  no line, the wall row and five turret cells of a line at depth d, the requests
  demolishing_defence issues to build a line, and those remove_line issues to tear
  the old one down.
*/
module LineGeometry {
  import opened Board

  /** Column i of ourlocations: the cells (i, j) with 13 - i <= j <= 14 + i. */
  function OurColumn(i: int): seq<Cell>
  {
    seq(if 0 <= i then 2 * i + 2 else 0, k => Cell(i, 13 - i + k))
  }

  /** The columns of cols, one after the other. */
  function Flatten(cols: seq<seq<Cell>>): seq<Cell>
  {
    if cols == [] then [] else Flatten(cols[..|cols| - 1]) + cols[|cols| - 1]
  }

  /** The first n columns of ourlocations. */
  function OurColumns(n: nat): seq<Cell>
  {
    Flatten(seq(n, i => OurColumn(i)))
  }

  /** [[i, j] for i in range(14) for j in range(13 - i, 13 + i + 2)] */
  function OurLocations(): seq<Cell>
  {
    OurColumns(14)
  }

  lemma {:induction false} OurColumnsShape(n: nat)
    ensures |OurColumns(n)| == n * (n + 1)
    ensures forall c: Cell :: c in OurColumns(n) <==> 0 <= c.x < n && 13 - c.x <= c.y <= 14 + c.x
  {
    if n > 0 {
      OurColumnsShape(n - 1);
      var i := n - 1;
      assert seq(n, k => OurColumn(k))[..i] == seq(i, k => OurColumn(k));
      assert OurColumns(n) == OurColumns(i) + OurColumn(i);
      assert |OurColumn(i)| == 2 * i + 2;
      forall c: Cell | 0 <= c.x < n && 13 - c.x <= c.y <= 14 + c.x
        ensures c in OurColumns(n)
      {
        if c.x == i {
          assert OurColumn(i)[c.y - 13 + i] == c;
        }
      }
    }
  }

  /** ourlocations holds 210 cells: the left half (x <= 13) of the whole diamond arena. */
  lemma OurLocationsShape()
    ensures |OurLocations()| == 210
    ensures forall c: Cell :: c in OurLocations() <==> 0 <= c.x <= 13 && 13 - c.x <= c.y <= 14 + c.x
  {
    OurColumnsShape(14);
  }

  /** The wall row of a line at depth d: [[i, d] for i in range(line_start, 21)], line_start = (13 - d) + 3. */
  function LineWalls(d: int): seq<Cell>
  {
    seq(if 0 < 5 + d then 5 + d else 0, k => Cell(16 - d + k, d))
  }

  /** The five turret cells of a line at depth d, in the order the source lists them. */
  function LineTurrets(d: int): seq<Cell>
  {
    [Cell(6, d - 2), Cell(13, d - 2), Cell(21, d - 2), Cell(9, d - 2), Cell(18, d - 2)]
  }

  lemma LineWallsShape(d: int)
    ensures forall c: Cell :: c in LineWalls(d) <==> c.y == d && 16 - d <= c.x <= 20
  {
    forall c: Cell | c.y == d && 16 - d <= c.x <= 20
      ensures c in LineWalls(d)
    {
      assert LineWalls(d)[c.x - 16 + d] == c;
    }
  }

  /** Walls_loc_2: the corner walls demolishing_defence always places. */
  const CornerWalls: seq<Cell> :=
    [Cell(0, 13), Cell(27, 13), Cell(26, 13), Cell(1, 13), Cell(2, 13),
     Cell(25, 13), Cell(3, 12), Cell(24, 12), Cell(4, 11), Cell(23, 11)]

  /** The requests demolishing_defence issues for a line at depth d (d != 0), in order. */
  function BuildRequests(d: int): seq<Intent>
  {
    var s := (13 - d) + 3;
    [ Spawn(Wall, CornerWalls, 1),
      Spawn(Wall, LineWalls(d), 1),
      Spawn(Turret, [Cell(2, 12), Cell(25, 12), Cell(6, d - 2), Cell(13, d - 2), Cell(21, d - 2)], 1),
      Upgrade([Cell(1, 13), Cell(6, d - 2), Cell(26, 13)]),
      Spawn(Turret, [Cell(9, d - 2)], 1),
      Upgrade([Cell(21, d - 2)]),
      Spawn(Turret, [Cell(18, d - 2)], 1),
      Spawn(Wall, [Cell(5, 10), Cell(22, 10)], 1),
      Upgrade([Cell(13, d - 2), Cell(2, 12), Cell(25, 12), Cell(9, d - 2), Cell(18, d - 2)]),
      Upgrade([Cell(s, d), Cell(s + 1, d), Cell(s + 5, d), Cell(s + 10, d), Cell(s + 14, d), Cell(20, d),
               Cell(0, 13), Cell(27, 13), Cell(2, 13), Cell(25, 13), Cell(3, 12), Cell(24, 12), Cell(4, 11)]),
      Spawn(Turret, [Cell(1, 12), Cell(2, 11)], 1),
      Upgrade([Cell(1, 12), Cell(2, 11)]) ]
  }

  /** The requests remove_line issues when the line leaves depth prev. */
  function TeardownRequests(prev: int): seq<Intent>
  {
    if prev == 0 then [Remove(OurLocations())]
    else [Remove(LineWalls(prev)), Remove(LineTurrets(prev))]
  }

  /** Cells that some request in reqs asks to spawn a unit of the given kind on. */
  ghost function SpawnedCells(reqs: seq<Intent>, kind: UnitType): set<Cell>
  {
    set i, c | 0 <= i < |reqs| && reqs[i].Spawn? && reqs[i].kind == kind && c in reqs[i].cells :: c
  }

  /** Cells that some request in reqs asks to clear. */
  ghost function RemovedCells(reqs: seq<Intent>): set<Cell>
  {
    set i, c | 0 <= i < |reqs| && reqs[i].Remove? && c in reqs[i].cells :: c
  }

  /**
    Leaving depth 0 clears ourlocations; leaving a depth d != 0 clears exactly the wall
    row at y = d from x = 16 - d to 20 and the turret cells x in {6, 9, 13, 18, 21} at
    y = d - 2.
  */
  lemma TeardownCells(prev: int)
    ensures prev == 0 ==> forall c: Cell :: c in RemovedCells(TeardownRequests(prev)) <==> c in OurLocations()
    ensures prev != 0 ==> forall c: Cell :: c in RemovedCells(TeardownRequests(prev)) <==>
      (c.y == prev && 16 - prev <= c.x <= 20) ||
      (c.y == prev - 2 && c.x in {6, 9, 13, 18, 21})
  {
    var reqs := TeardownRequests(prev);
    if prev == 0 {
      forall c: Cell | c in OurLocations() ensures c in RemovedCells(reqs) {
        assert reqs[0].cells == OurLocations();
      }
    } else {
      LineWallsShape(prev);
      forall c: Cell | (c.y == prev && 16 - prev <= c.x <= 20) || (c.y == prev - 2 && c.x in {6, 9, 13, 18, 21})
        ensures c in RemovedCells(reqs)
      {
        if c.y == prev && 16 - prev <= c.x <= 20 {
          assert c in reqs[0].cells;
        } else {
          assert c in reqs[1].cells;
        }
      }
    }
  }

  /**
    Build and teardown agree: for a depth d != 0, every cell remove_line clears when
    leaving d is a cell demolishing_defence spawned for d, walls as walls and turrets
    as turrets.
  */
  lemma BuildTeardownAgree(d: int)
    requires d != 0
    ensures RemovedCells(TeardownRequests(d)) == (set c | c in LineWalls(d)) + (set c | c in LineTurrets(d))
    ensures (set c | c in LineWalls(d)) <= SpawnedCells(BuildRequests(d), Wall)
    ensures (set c | c in LineTurrets(d)) <= SpawnedCells(BuildRequests(d), Turret)
  {
    var build := BuildRequests(d);
    var down := TeardownRequests(d);
    forall c: Cell | c in RemovedCells(down)
      ensures c in LineWalls(d) || c in LineTurrets(d)
    {
    }
    forall c: Cell | c in LineWalls(d) || c in LineTurrets(d)
      ensures c in RemovedCells(down)
    {
      if c in LineWalls(d) { assert c in down[0].cells; } else { assert c in down[1].cells; }
    }
    forall c: Cell | c in LineWalls(d) ensures c in SpawnedCells(build, Wall) {
      assert c in build[1].cells;
    }
    forall c: Cell | c in LineTurrets(d) ensures c in SpawnedCells(build, Turret) {
      if c == Cell(9, d - 2) {
        assert c in build[4].cells;
      } else if c == Cell(18, d - 2) {
        assert c in build[6].cells;
      } else {
        assert c in build[2].cells;
      }
    }
  }

  /**
    For the depths the line takes, the six line cells that demolishing_defence
    upgrades (line_start, +1, +5, +10, +14 and x = 20) all lie in the wall row it spawned.
  */
  lemma UpgradedLineCellsWithinWalls(d: int)
    requires d in {11, 12, 13}
    ensures forall k :: 0 <= k < 6 ==> BuildRequests(d)[9].cells[k] in LineWalls(d)
  {
    LineWallsShape(d);
  }
}
