/**
  AlgoStrategy: the fields the strategy keeps between turns and the operations that
  update them and issue requests. Each method is proved against the matching step of
  the Turns module: it leaves the fields at the step's new values and appends exactly
  the step's requests to the game state's log.
*/
module Strategy {
  import opened Board
  import opened Scanner
  import opened LineGeometry
  import opened LineDecision
  import opened RebuildLedger
  import opened PathRisk
  import opened Queries
  import opened Attacks
  import opened Turns

  class AlgoStrategy {
    var line: int
    var prevLine: int
    var turnToRebuild: Option<int>
    var needRebuild: Ledger
    var leftRemoved: bool
    var rightRemoved: bool
    var justAttacked: bool
    var readyToFire: bool

    /** The fields as a value. */
    ghost function Memo(): Memory
      reads this
    {
      Memory(line, prevLine, turnToRebuild, needRebuild, leftRemoved, rightRemoved, justAttacked, readyToFire)
    }

    /** need_rebuild is a dict: it holds one entry per cell. */
    ghost predicate Valid()
      reads this
    {
      DistinctCells(needRebuild)
    }

    /** on_game_start's setup of the fields. */
    constructor ()
      ensures Valid() && Memo() == Initial
    {
      line := 0;
      prevLine := 0;
      turnToRebuild := None;
      needRebuild := [];
      leftRemoved := false;
      rightRemoved := false;
      justAttacked := false;
      readyToFire := false;
    }

    method BestLineLocation(gs: GameState)
      requires Valid()
      modifies this
      ensures Valid()
      ensures Memo() == BestLineStep(old(Memo()), gs.snapshot).mem
    {
      var s := gs.snapshot;
      prevLine := line;
      var front := DetectEnemyUnit(s, None, Some(Band()), Some([Num(14)]));
      if front > 4 {
        if line < 11 {
          line := 11;
          return;
        }
        var frontTurrets := DetectEnemyUnit(s, Some(Turret), Some(Band()), Some([Num(14)]));
        if frontTurrets == 0 {
          if line < 12 {
            line := 12;
            return;
          }
          var secondTurrets := DetectEnemyUnit(s, Some(Turret), Some(Band()), Some([Num(15)]));
          if secondTurrets == 0 {
            line := 13;
          } else {
            // The source asks the row-14 turret question again here; the board has not
            // changed, so the answer is still 0 and its `line = 11` arm cannot be reached.
            var again := DetectEnemyUnit(s, Some(Turret), Some(Band()), Some([Num(14)]));
            if again == 0 {
              line := 12;
            } else {
              assert false;
            }
          }
        }
      } else {
        var twoRows := DetectEnemyUnit(s, None, Some(Band()), Some([Num(14), Num(15)]));
        if twoRows > 4 {
          if line < 12 {
            line := 12;
            return;
          }
          var secondTurrets := DetectEnemyUnit(s, Some(Turret), Some(Band()), Some([Num(15)]));
          if secondTurrets == 0 {
            line := 13;
          } else {
            line := 12;
          }
        } else {
          var threeRows := DetectEnemyUnit(s, None, Some(Band()), Some([Num(14), Num(15), Num(16)]));
          if threeRows > 4 {
            line := 13;
          } else {
            line := 0;
          }
        }
      }
    }

    method RemoveLine(gs: GameState)
      requires Valid()
      modifies this, gs
      ensures Valid()
      ensures Memo() == RemoveLineStep(old(Memo()), gs.snapshot).mem
      ensures gs.requests == old(gs.requests) + RemoveLineStep(old(Memo()), gs.snapshot).out
    {
      if prevLine != line {
        if prevLine == 0 {
          gs.AttemptRemove(OurLocations());
        } else {
          gs.AttemptRemove(LineWalls(prevLine));
          gs.AttemptRemove(LineTurrets(prevLine));
        }
        turnToRebuild := Some(gs.snapshot.turn + 1);
      }
    }

    method DemolishingDefence(gs: GameState)
      modifies gs
      ensures gs.requests == old(gs.requests) + DemolishingDefenceStep(old(Memo())).out
    {
      if line == 0 {
        return;
      }
      var d := line;
      var lineStart := (13 - d) + 3;
      gs.AttemptSpawn(Wall, CornerWalls, 1);
      gs.AttemptSpawn(Wall, LineWalls(d), 1);
      gs.AttemptSpawn(Turret, [Cell(2, 12), Cell(25, 12), Cell(6, d - 2), Cell(13, d - 2), Cell(21, d - 2)], 1);
      gs.AttemptUpgrade([Cell(1, 13), Cell(6, d - 2), Cell(26, 13)]);
      gs.AttemptSpawn(Turret, [Cell(9, d - 2)], 1);
      gs.AttemptUpgrade([Cell(21, d - 2)]);
      gs.AttemptSpawn(Turret, [Cell(18, d - 2)], 1);
      gs.AttemptSpawn(Wall, [Cell(5, 10), Cell(22, 10)], 1);
      gs.AttemptUpgrade([Cell(13, d - 2), Cell(2, 12), Cell(25, 12), Cell(9, d - 2), Cell(18, d - 2)]);
      gs.AttemptUpgrade([Cell(lineStart, d), Cell(lineStart + 1, d), Cell(lineStart + 5, d), Cell(lineStart + 10, d),
                         Cell(lineStart + 14, d), Cell(20, d), Cell(0, 13), Cell(27, 13), Cell(2, 13), Cell(25, 13),
                         Cell(3, 12), Cell(24, 12), Cell(4, 11)]);
      gs.AttemptSpawn(Turret, [Cell(1, 12), Cell(2, 11)], 1);
      gs.AttemptUpgrade([Cell(1, 12), Cell(2, 11)]);
      ghost var reqs := BuildRequests(d);
      LoggedTwelve(old(gs.requests), reqs[0], reqs[1], reqs[2], reqs[3], reqs[4], reqs[5],
                   reqs[6], reqs[7], reqs[8], reqs[9], reqs[10], reqs[11]);
    }

    method RemoveDamaged(gs: GameState, allLocations: seq<Cell>, lowHealthThreshold: real)
      requires Valid()
      modifies this, gs
      ensures Valid()
      ensures Memo() == RemoveDamagedStep(old(Memo()), gs.snapshot, allLocations, lowHealthThreshold).mem
      ensures gs.requests == old(gs.requests) + RemoveDamagedStep(old(Memo()), gs.snapshot, allLocations, lowHealthThreshold).out
    {
      var s := gs.snapshot;
      ghost var ledger0 := needRebuild;
      ghost var log0 := gs.requests;
      var i := 0;
      while i < |allLocations|
        invariant i <= |allLocations|
        invariant Valid()
        invariant Memo() == old(Memo()).(needRebuild := needRebuild)
        invariant needRebuild == PutAll(ledger0, Damaged(s, allLocations[..i], lowHealthThreshold))
        invariant gs.requests == log0 + Removals(Damaged(s, allLocations[..i], lowHealthThreshold))
      {
        ghost var done := Damaged(s, allLocations[..i], lowHealthThreshold);
        ghost var logged := gs.requests;
        var location := allLocations[i];
        RemoveDamagedAt(gs, location, lowHealthThreshold);
        ghost var here := DamagedAt(location, UnitsAt(s, location), lowHealthThreshold);
        DamagedStep(s, allLocations, i, lowHealthThreshold);
        PutAllAppend(ledger0, done, here);
        RemovalsAppend(done, here);
        AppendAssoc(log0, Removals(done), Removals(here));
        i := i + 1;
      }
      assert allLocations[..i] == allLocations;
    }

    /** The inner loop of remove_damaged: the units on one location. */
    method RemoveDamagedAt(gs: GameState, location: Cell, lowHealthThreshold: real)
      requires Valid()
      modifies this, gs
      ensures Valid()
      ensures Memo() == old(Memo()).(needRebuild := PutAll(old(needRebuild), DamagedAt(location, UnitsAt(gs.snapshot, location), lowHealthThreshold)))
      ensures gs.requests == old(gs.requests) + Removals(DamagedAt(location, UnitsAt(gs.snapshot, location), lowHealthThreshold))
    {
      ghost var ledger0 := needRebuild;
      ghost var log0 := gs.requests;
      var us := UnitsAt(gs.snapshot, location);
      var j := 0;
      while j < |us|
        invariant j <= |us|
        invariant Memo() == old(Memo()).(needRebuild := needRebuild)
        invariant needRebuild == PutAll(ledger0, DamagedAt(location, us[..j], lowHealthThreshold))
        invariant gs.requests == log0 + Removals(DamagedAt(location, us[..j], lowHealthThreshold))
      {
        var unit := us[j];
        ghost var here := DamagedAt(location, us[..j], lowHealthThreshold);
        DamagedAtStep(location, us, j, lowHealthThreshold);
        if unit.playerIndex == 0 && unit.stationary && unit.health < lowHealthThreshold {
          var e := Entry(location, unit.kind);
          PutAllSnoc(ledger0, here, e);
          RemovalsSnoc(here, e);
          AppendAssoc(log0, Removals(here), [Remove([location])]);
          gs.AttemptRemove([location]);
          needRebuild := Put(needRebuild, location, unit.kind);
        } else {
          assert here + [] == here;
        }
        j := j + 1;
      }
      assert us[..j] == us;
      PutAllDistinct(ledger0, DamagedAt(location, us, lowHealthThreshold));
    }

    method Rebuilding(gs: GameState)
      requires Valid()
      modifies this, gs
      ensures Valid()
      ensures Memo() == RebuildingStep(old(Memo())).mem
      ensures gs.requests == old(gs.requests) + RebuildingStep(old(Memo())).out
    {
      if |needRebuild| > 0 {
        var i := 0;
        while i < |needRebuild|
          invariant i <= |needRebuild|
          invariant Memo() == old(Memo())
          invariant gs.requests == old(gs.requests) + RebuildRequests(needRebuild[..i])
        {
          var e := needRebuild[i];
          assert needRebuild[..i + 1][..i] == needRebuild[..i];
          gs.AttemptSpawn(e.kind, [e.cell], 1);
          i := i + 1;
        }
        assert needRebuild[..i] == needRebuild;
        needRebuild := [];
      }
    }

    method DefaultAttack(gs: GameState)
      requires Valid()
      modifies this, gs
      ensures Valid()
      ensures Memo() == DefaultAttackStep(old(Memo()), gs.snapshot).mem
      ensures gs.requests == old(gs.requests) + DefaultAttackStep(old(Memo()), gs.snapshot).out
    {
      if readyToFire {
        var s := gs.snapshot;
        var rightSupports := Mirror(LeftSupports);
        var nInterceptors := Interceptors(s.enemyMp);
        var nDemolishers := Demolishers(s.mp, nInterceptors);
        var damageLeft := s.damageDealtMobile(Cell(3, 10), nDemolishers);
        var damageRight := s.damageDealtMobile(Cell(24, 10), nDemolishers);
        var supports, launch;
        if damageLeft >= damageRight {
          supports := LeftSupports;
          launch := Cell(3, 10);
          gs.AttemptSpawn(Wall, [Cell(24, 11)], nInterceptors);
        } else {
          supports := rightSupports;
          launch := Cell(24, 10);
          gs.AttemptSpawn(Wall, [Cell(3, 11)], nInterceptors);
        }
        gs.AttemptSpawn(Interceptor, [launch], nInterceptors);
        gs.AttemptSpawn(Demolisher, [launch], nDemolishers);
        ghost var reqs := DefaultAttackRequests(s);
        if s.sp > 0.0 {
          gs.AttemptSpawn(Support, supports, 1);
          gs.AttemptUpgrade(supports);
          gs.AttemptRemove(supports);
          LoggedSix(old(gs.requests), reqs[0], reqs[1], reqs[2], reqs[3], reqs[4], reqs[5]);
        } else {
          LoggedThree(old(gs.requests), reqs[0], reqs[1], reqs[2]);
        }
        readyToFire := false;
      }
    }

    /** default_opening_defence: its build script is one request; the flag follows its turn tests. */
    method DefaultOpeningDefence(gs: GameState)
      requires Valid()
      modifies this, gs
      ensures Valid()
      ensures Memo() == OpeningDefenceStep(old(Memo()), gs.snapshot).mem
      ensures gs.requests == old(gs.requests) + OpeningDefenceStep(old(Memo()), gs.snapshot).out
    {
      var t := gs.snapshot.turn;
      gs.RunScript(OpeningDefence(t));
      if t == 0 || t == 1 || t == 2 || t == 3 || t == 4 || t == 6 {
      } else if t == 7 || t == 8 || t == 9 {
      } else if t + 1 in AttackRounds() {
        if t == 5 {
          readyToFire := true;
        } else if t == 10 {
        } else {
          readyToFire := true;
        }
      }
    }

    method DemolisherAttack(gs: GameState)
      modifies gs
      ensures gs.requests == old(gs.requests) + DemolisherAttackStep(old(Memo()), gs.snapshot).out
    {
      var s := gs.snapshot;
      var nInterceptors := Interceptors(s.enemyMp);
      var nDemolishers := Demolishers(s.mp, nInterceptors);
      var damage := s.damageDealtMobile(Cell(22, 8), nDemolishers);
      gs.AttemptSpawn(Interceptor, [Cell(22, 8)], nInterceptors);
      if damage > 8.0 {
        gs.AttemptSpawn(Demolisher, [Cell(5, 8)], nDemolishers);
        if s.sp > 0.0 {
          gs.AttemptSpawn(Support, LeftSupports, 1);
          gs.AttemptUpgrade(LeftSupports);
          gs.AttemptRemove(LeftSupports);
        }
      }
    }

    method RemoveLeftDefence(gs: GameState)
      requires Valid()
      modifies this, gs
      ensures Valid()
      ensures Memo() == RemoveLeftDefenceStep(old(Memo())).mem
      ensures gs.requests == old(gs.requests) + RemoveLeftDefenceStep(old(Memo())).out
    {
      gs.AttemptRemove(LeftCorner);
      leftRemoved := true;
    }

    method RemoveRightDefence(gs: GameState)
      requires Valid()
      modifies this, gs
      ensures Valid()
      ensures Memo() == RemoveRightDefenceStep(old(Memo())).mem
      ensures gs.requests == old(gs.requests) + RemoveRightDefenceStep(old(Memo())).out
    {
      gs.AttemptRemove(RightCorner);
      rightRemoved := true;
    }

    method AttackLeft(gs: GameState)
      requires Valid()
      modifies this, gs
      ensures Valid()
      ensures Memo() == AttackLeftStep(old(Memo()), gs.snapshot).mem
      ensures gs.requests == old(gs.requests) + AttackLeftStep(old(Memo()), gs.snapshot).out
    {
      var s := gs.snapshot;
      gs.AttemptSpawn(Wall, [Cell(2, 13)], 1);
      var estimate := DamageToInterceptor(s, Cell(3, 10), 0);
      var demDamage := if estimate.Ok? then estimate.value else 0.0;
      var cornerHealth := GetDefenceHealth(s, Cell(0, 14));
      if cornerHealth > 0.0 {
        var nInterceptors := Ceil(200.0 / 40.0 + (demDamage / 40.0).Floor as real);
        gs.AttemptSpawn(Interceptor, [Cell(3, 10)], nInterceptors);
      }
      var mp := s.mp;
      gs.AttemptSpawn(Scout, [Cell(14, 0)], mp.Floor);
      justAttacked := true;
    }

    method AttackRight(gs: GameState)
      requires Valid()
      modifies this, gs
      ensures Valid()
      ensures Memo() == AttackRightStep(old(Memo()), gs.snapshot).mem
      ensures gs.requests == old(gs.requests) + AttackRightStep(old(Memo()), gs.snapshot).out
    {
      var s := gs.snapshot;
      gs.AttemptSpawn(Wall, [Cell(25, 13)], 1);
      var estimate := DamageToInterceptor(s, Cell(24, 10), 0);
      var demDamage := if estimate.Ok? then estimate.value else 0.0;
      var cornerHealth := GetDefenceHealth(s, Cell(27, 14));
      var nInterceptors := Ceil(cornerHealth / 40.0 + (demDamage / 40.0).Floor as real);
      var mp := s.mp;
      gs.AttemptSpawn(Interceptor, [Cell(24, 10)], nInterceptors);
      gs.AttemptSpawn(Scout, [Cell(13, 0)], (mp - nInterceptors as real).Floor);
      justAttacked := true;
    }

    /** The line branch of starter_strategy, taken on turns below 101. */
    method LineTurn(gs: GameState)
      requires Valid()
      modifies this, gs
      ensures Valid()
      ensures Memo() == LineTurnStep(old(Memo()), gs.snapshot).mem
      ensures gs.requests == old(gs.requests) + LineTurnStep(old(Memo()), gs.snapshot).out
    {
      ghost var m0 := Memo();
      ghost var log0 := gs.requests;
      Rebuilding(gs);
      ghost var log1 := gs.requests;
      RemoveDamaged(gs, OurLocations(), LowHealth);
      ghost var a := SweepStep(m0, gs.snapshot);
      AppendAssoc(log0, RebuildingStep(m0).out, RemoveDamagedStep(RebuildingStep(m0).mem, gs.snapshot, OurLocations(), LowHealth).out);
      assert gs.requests == log0 + a.out;
      LineBodyTurn(gs);
      AppendAssoc(log0, a.out, LineBody(a.mem, gs.snapshot).out);
    }

    /** The calls of a line turn after the sweep, which depend on whether a line stands. */
    method LineBodyTurn(gs: GameState)
      requires Valid()
      modifies this, gs
      ensures Valid()
      ensures Memo() == LineBody(old(Memo()), gs.snapshot).mem
      ensures gs.requests == old(gs.requests) + LineBody(old(Memo()), gs.snapshot).out
    {
      if line == 0 {
        OpenFieldTurn(gs);
      } else {
        StandingLineTurn(gs);
      }
    }

    /** No line stands: choose a depth, fire when armed, run the opening, tear down on a change. */
    method OpenFieldTurn(gs: GameState)
      requires line == 0
      requires Valid()
      modifies this, gs
      ensures Valid()
      ensures Memo() == LineBody(old(Memo()), gs.snapshot).mem
      ensures gs.requests == old(gs.requests) + LineBody(old(Memo()), gs.snapshot).out
    {
      ghost var m0 := Memo();
      ghost var log0 := gs.requests;
      var s := gs.snapshot;
      BestLineLocation(gs);
      ghost var c := BestLineStep(m0, s);
      ghost var d := if c.mem.readyToFire then Then(c, DefaultAttackStep(c.mem, s)) else c;
      if readyToFire {
        DefaultAttack(gs);
        assert [] + DefaultAttackStep(c.mem, s).out == DefaultAttackStep(c.mem, s).out;
      }
      assert Memo() == d.mem && gs.requests == log0 + d.out;
      DefaultOpeningDefence(gs);
      ghost var e := Then(d, OpeningDefenceStep(d.mem, s));
      AppendAssoc(log0, d.out, OpeningDefenceStep(d.mem, s).out);
      assert Memo() == e.mem && gs.requests == log0 + e.out;
      RemoveLine(gs);
      AppendAssoc(log0, e.out, RemoveLineStep(e.mem, s).out);
    }

    /** A line stands: build it, attack with demolishers, choose the next depth, tear down on a change. */
    method StandingLineTurn(gs: GameState)
      requires line != 0
      requires Valid()
      modifies this, gs
      ensures Valid()
      ensures Memo() == LineBody(old(Memo()), gs.snapshot).mem
      ensures gs.requests == old(gs.requests) + LineBody(old(Memo()), gs.snapshot).out
    {
      ghost var m0 := Memo();
      ghost var log0 := gs.requests;
      var s := gs.snapshot;
      DemolishingDefence(gs);
      ghost var c := DemolishingDefenceStep(m0);
      DemolisherAttack(gs);
      ghost var d := Then(c, DemolisherAttackStep(c.mem, s));
      AppendAssoc(log0, c.out, DemolisherAttackStep(c.mem, s).out);
      assert Memo() == d.mem && gs.requests == log0 + d.out;
      BestLineLocation(gs);
      ghost var e := Then(d, BestLineStep(d.mem, s));
      assert d.out + [] == d.out;
      assert Memo() == e.mem && gs.requests == log0 + e.out;
      RemoveLine(gs);
      AppendAssoc(log0, e.out, RemoveLineStep(e.mem, s).out);
    }

    /** starter_strategy: one turn. */
    method StarterStrategy(gs: GameState)
      requires Valid()
      modifies this, gs
      ensures Valid()
      ensures Memo() == Turn(old(Memo()), gs.snapshot).mem
      ensures gs.requests == old(gs.requests) + Turn(old(Memo()), gs.snapshot).out
    {
      var s := gs.snapshot;
      if s.turn < LateTurn {
        LineTurn(gs);
      } else if leftRemoved && !justAttacked {
        AttackLeft(gs);
        gs.RunScript(DefendRight);
      } else if leftRemoved && justAttacked {
        gs.RunScript(BuildDefences);
        leftRemoved := false;
        justAttacked := false;
      } else if rightRemoved && !justAttacked {
        AttackRight(gs);
        gs.RunScript(DefendLeft);
      } else if rightRemoved && justAttacked {
        gs.RunScript(BuildDefences);
        rightRemoved := false;
        justAttacked := false;
      } else {
        var leftBreach := DetectEnemyUnit(s, None, Some([Nested([0, 1])]), Some([Num(14)]));
        if leftBreach == 2 {
          RemoveLeftDefence(gs);
          gs.RunScript(DefendRight);
        } else {
          var rightBreach := DetectEnemyUnit(s, None, Some([Num(26), Num(27)]), Some([Num(14)]));
          if rightBreach == 2 {
            RemoveRightDefence(gs);
            gs.RunScript(DefendLeft);
          } else {
            gs.RunScript(BuildDefences);
          }
        }
      }
    }
  }
}
