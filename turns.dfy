/**
  What one turn of the strategy does, as functions on the values of its fields. Each
  operation of AlgoStrategy is a step from the old field values and the turn's board to
  the new field values and the requests issued, in issue order; `Turn` composes them the
  way starter_strategy does.
*/
module Turns {
  import opened Board
  import opened Scanner
  import opened LineGeometry
  import opened LineDecision
  import opened RebuildLedger
  import opened Attacks

  /** The fields of AlgoStrategy that carry over from one turn to the next. */
  datatype Memory = Memory(
    line: int,
    prevLine: int,
    turnToRebuild: Option<int>,
    needRebuild: Ledger,
    leftRemoved: bool,
    rightRemoved: bool,
    justAttacked: bool,
    readyToFire: bool)

  /** The fields as on_game_start sets them; turn_to_rebuild is not set until remove_line first fires. */
  const Initial: Memory := Memory(0, 0, None, [], false, false, false, false)

  /** New field values and the requests issued. */
  datatype Step = Step(mem: Memory, out: seq<Intent>)

  /** The health below which remove_damaged clears an own structure. */
  const LowHealth: real := 20.0

  /** The turn from which the line strategy gives way to the corner dispatch. */
  const LateTurn: int := 101

  /** The corner cells remove_left_defence clears. */
  const LeftCorner: seq<Cell> := [Cell(0, 13), Cell(1, 13), Cell(1, 12), Cell(2, 12), Cell(2, 11), Cell(3, 11)]

  /** The corner cells remove_right_defence clears. */
  const RightCorner: seq<Cell> := [Cell(25, 11), Cell(26, 13), Cell(25, 12), Cell(26, 12), Cell(27, 13), Cell(24, 11)]

  /** list(range(6, 102, 3)) */
  function AttackRounds(): seq<int>
  {
    seq(32, k => 6 + 3 * k)
  }

  function RebuildingStep(m: Memory): Step
  {
    if |m.needRebuild| > 0 then Step(m.(needRebuild := []), RebuildRequests(m.needRebuild)) else Step(m, [])
  }

  function RemoveDamagedStep(m: Memory, s: Snapshot, locations: seq<Cell>, threshold: real): Step
  {
    var d := Damaged(s, locations, threshold);
    Step(m.(needRebuild := PutAll(m.needRebuild, d)), Removals(d))
  }

  function BestLineStep(m: Memory, s: Snapshot): Step
  {
    Step(m.(prevLine := m.line, line := NextLine(m.line, CensusOf(s))), [])
  }

  function RemoveLineStep(m: Memory, s: Snapshot): Step
  {
    if m.prevLine != m.line then Step(m.(turnToRebuild := Some(s.turn + 1)), TeardownRequests(m.prevLine))
    else Step(m, [])
  }

  function DemolishingDefenceStep(m: Memory): Step
  {
    Step(m, if m.line == 0 then [] else BuildRequests(m.line))
  }

  function DefaultAttackStep(m: Memory, s: Snapshot): Step
  {
    if m.readyToFire then Step(m.(readyToFire := false), DefaultAttackRequests(s)) else Step(m, [])
  }

  /**
    The value default_opening_defence leaves in ready_to_fire after its chain of turn
    tests: turns 0-4 and 6, then the repair turns 7-9, then the turns before an attack
    round, where turn 5 and the remaining turns set the flag and the turn 10 branch only
    compares it.
  */
  function ArmsAfterOpening(t: int, ready: bool): bool
  {
    if t == 0 || t == 1 || t == 2 || t == 3 || t == 4 || t == 6 then ready
    else if t == 7 || t == 8 || t == 9 then ready
    else if t + 1 in AttackRounds() then
      if t == 5 then true
      else if t == 10 then ready
      else true
    else ready
  }

  /** The build script of default_opening_defence stands as one request; its effect on the flag is modelled. */
  function OpeningDefenceStep(m: Memory, s: Snapshot): Step
  {
    Step(m.(readyToFire := ArmsAfterOpening(s.turn, m.readyToFire)), [Scripted(OpeningDefence(s.turn))])
  }

  function DemolisherAttackStep(m: Memory, s: Snapshot): Step
  {
    Step(m, DemolisherAttackRequests(s))
  }

  function RemoveLeftDefenceStep(m: Memory): Step
  {
    Step(m.(leftRemoved := true), [Remove(LeftCorner)])
  }

  function RemoveRightDefenceStep(m: Memory): Step
  {
    Step(m.(rightRemoved := true), [Remove(RightCorner)])
  }

  function AttackLeftStep(m: Memory, s: Snapshot): Step
  {
    Step(m.(justAttacked := true), AttackLeftRequests(s))
  }

  function AttackRightStep(m: Memory, s: Snapshot): Step
  {
    Step(m.(justAttacked := true), AttackRightRequests(s))
  }

  /** Run step b after step a. */
  function Then(a: Step, b: Step): Step
  {
    Step(b.mem, a.out + b.out)
  }

  /** The first two calls of a line turn: rebuilding, then remove_damaged over ourlocations. */
  function SweepStep(m: Memory, s: Snapshot): Step
  {
    var a := RebuildingStep(m);
    Then(a, RemoveDamagedStep(a.mem, s, OurLocations(), LowHealth))
  }

  /** The rest of a line turn: the calls that depend on whether a line stands. */
  function LineBody(m: Memory, s: Snapshot): Step
  {
    if m.line == 0 then
      var c := BestLineStep(m, s);
      var d := if c.mem.readyToFire then Then(c, DefaultAttackStep(c.mem, s)) else c;
      var e := Then(d, OpeningDefenceStep(d.mem, s));
      Then(e, RemoveLineStep(e.mem, s))
    else
      var c := DemolishingDefenceStep(m);
      var d := Then(c, DemolisherAttackStep(c.mem, s));
      var e := Then(d, BestLineStep(d.mem, s));
      Then(e, RemoveLineStep(e.mem, s))
  }

  /** The turn of the line strategy (turns below 101). */
  function LineTurnStep(m: Memory, s: Snapshot): Step
  {
    var a := SweepStep(m, s);
    Then(a, LineBody(a.mem, s))
  }

  /** The branches of starter_strategy. */
  datatype Mode =
    | LineTurn
    | AttackLeftTurn
    | RestoreAfterLeft
    | AttackRightTurn
    | RestoreAfterRight
    | BreachLeft
    | BreachRight
    | Fortify

  /** The left-breach test as written: its x filter holds the list [0, 1], not integers. */
  const LeftBreachFilter: Filter := Filter(None, Some([Nested([0, 1])]), Some([Num(14)]))

  const RightBreachFilter: Filter := Filter(None, Some([Num(26), Num(27)]), Some([Num(14)]))

  function ModeOf(m: Memory, s: Snapshot): Mode
  {
    if s.turn < LateTurn then LineTurn
    else if m.leftRemoved && !m.justAttacked then AttackLeftTurn
    else if m.leftRemoved && m.justAttacked then RestoreAfterLeft
    else if m.rightRemoved && !m.justAttacked then AttackRightTurn
    else if m.rightRemoved && m.justAttacked then RestoreAfterRight
    else if EnemyCount(s, s.cells, LeftBreachFilter) == 2 then BreachLeft
    else if EnemyCount(s, s.cells, RightBreachFilter) == 2 then BreachRight
    else Fortify
  }

  /** One call of starter_strategy. */
  function Turn(m: Memory, s: Snapshot): Step
  {
    match ModeOf(m, s)
    case LineTurn => LineTurnStep(m, s)
    case AttackLeftTurn => Then(AttackLeftStep(m, s), Step(m.(justAttacked := true), [Scripted(DefendRight)]))
    case RestoreAfterLeft => Step(m.(leftRemoved := false, justAttacked := false), [Scripted(BuildDefences)])
    case AttackRightTurn => Then(AttackRightStep(m, s), Step(m.(justAttacked := true), [Scripted(DefendLeft)]))
    case RestoreAfterRight => Step(m.(rightRemoved := false, justAttacked := false), [Scripted(BuildDefences)])
    case BreachLeft => Then(RemoveLeftDefenceStep(m), Step(m.(leftRemoved := true), [Scripted(DefendRight)]))
    case BreachRight => Then(RemoveRightDefenceStep(m), Step(m.(rightRemoved := true), [Scripted(DefendLeft)]))
    case Fortify => Step(m, [Scripted(BuildDefences)])
  }

  /** Turns below 101 always take the line branch, whatever the flags. */
  lemma EarlyTurnsFollowLine(m: Memory, s: Snapshot)
    requires s.turn < LateTurn
    ensures ModeOf(m, s) == LineTurn && Turn(m, s) == LineTurnStep(m, s)
  {
  }

  /** From turn 101 on, the line, its previous depth and the rebuild ledger are frozen. */
  lemma LateTurnsKeepLine(m: Memory, s: Snapshot)
    requires s.turn >= LateTurn
    ensures Turn(m, s).mem.line == m.line && Turn(m, s).mem.prevLine == m.prevLine
    ensures Turn(m, s).mem.needRebuild == m.needRebuild && Turn(m, s).mem.turnToRebuild == m.turnToRebuild
  {
  }

  /** remove_line tears down and records the rebuild turn exactly when the depth changed. */
  lemma TeardownIff(m: Memory, s: Snapshot)
    ensures RemoveLineStep(m, s).out != [] <==> m.prevLine != m.line
    ensures m.prevLine == m.line ==> RemoveLineStep(m, s).mem == m
    ensures m.prevLine != m.line ==> RemoveLineStep(m, s).mem.turnToRebuild == Some(s.turn + 1)
    ensures m.prevLine != m.line ==> RemovedCells(RemoveLineStep(m, s).out) == RemovedCells(TeardownRequests(m.prevLine))
  {
  }

  /** demolishing_defence does nothing without a line, and builds its 12 requests otherwise. */
  lemma DemolishingDefenceIff(m: Memory)
    ensures DemolishingDefenceStep(m).out == [] <==> m.line == 0
    ensures DemolishingDefenceStep(m).mem == m
  {
  }

  /**
    The sweep flushes the ledger and records this turn's damaged structures: whatever the
    old ledger held is spawned, and the new ledger holds only the sweep's records.
  */
  lemma SweepResets(m: Memory, s: Snapshot)
    ensures var d := Damaged(s, OurLocations(), LowHealth);
      && SweepStep(m, s).mem == m.(needRebuild := PutAll([], d))
      && SweepStep(m, s).out == RebuildRequests(m.needRebuild) + Removals(d)
  {
  }

  /**
    The fields after the body of a line turn: the line moves to the decision tree's
    depth with the old depth kept in prev_line, turn_to_rebuild is set exactly when the
    depth changed, ready_to_fire is re-derived from the turn when there is no line, and
    the ledger and the corner flags are left alone.
  */
  lemma LineBodyMemory(m: Memory, s: Snapshot)
    ensures var l := NextLine(m.line, CensusOf(s));
      LineBody(m, s).mem == m.(prevLine := m.line, line := l,
                               turnToRebuild := if l != m.line then Some(s.turn + 1) else m.turnToRebuild,
                               readyToFire := if m.line == 0 then ArmsAfterOpening(s.turn, false) else m.readyToFire)
  {
    var l := NextLine(m.line, CensusOf(s));
    var moved := m.(prevLine := m.line, line := l);
    var rebuilt := if l != m.line then Some(s.turn + 1) else m.turnToRebuild;
    if m.line == 0 {
      var c := BestLineStep(m, s);
      assert c.mem == moved;
      var d := if c.mem.readyToFire then Then(c, DefaultAttackStep(c.mem, s)) else c;
      assert d.mem == moved.(readyToFire := false);
      var e := Then(d, OpeningDefenceStep(d.mem, s));
      assert e.mem == moved.(readyToFire := ArmsAfterOpening(s.turn, false));
      assert RemoveLineStep(e.mem, s).mem == e.mem.(turnToRebuild := rebuilt);
    } else {
      var c := DemolishingDefenceStep(m);
      var d := Then(c, DemolisherAttackStep(c.mem, s));
      assert d.mem == m;
      var e := Then(d, BestLineStep(d.mem, s));
      assert e.mem == moved;
      assert RemoveLineStep(e.mem, s).mem == moved.(turnToRebuild := rebuilt);
    }
  }

  lemma LineTurnInDepths(m: Memory, s: Snapshot)
    requires m.line in Depths
    ensures LineTurnStep(m, s).mem.line in Depths
  {
    SweepResets(m, s);
    LineBodyMemory(SweepStep(m, s).mem, s);
    NextLineInDepths(m.line, CensusOf(s));
  }

  /** The line depth stays in {0, 11, 12, 13} on every turn. */
  lemma LineStaysInDepths(m: Memory, s: Snapshot)
    requires m.line in Depths
    ensures Turn(m, s).mem.line in Depths
  {
    if ModeOf(m, s) == LineTurn {
      LineTurnInDepths(m, s);
    }
  }

  /**
    The closed form of default_opening_defence's effect: it arms the attack exactly on
    the turns 5 <= t <= 98 with t mod 3 == 2, except the repair turn 8.
  */
  lemma {:induction false} OpeningArms(t: int, ready: bool)
    ensures ArmsAfterOpening(t, ready) == (ready || (5 <= t <= 98 && t % 3 == 2 && t != 8))
  {
    if 5 <= t <= 98 && t % 3 == 2 {
      assert AttackRounds()[(t + 1 - 6) / 3] == t + 1;
    }
    if t + 1 in AttackRounds() {
      var k :| 0 <= k < 32 && AttackRounds()[k] == t + 1;
      assert t == 5 + 3 * k;
    }
  }

  /**
    Without a line, the body of a line turn ends with ready_to_fire set exactly on the
    arming turns: a pending attack fires first and clears the flag, so nothing is carried
    over. With a line the flag is left alone.
  */
  lemma ReadinessAfterLineBody(m: Memory, s: Snapshot)
    ensures m.line == 0 ==> LineBody(m, s).mem.readyToFire == (5 <= s.turn <= 98 && s.turn % 3 == 2 && s.turn != 8)
    ensures m.line != 0 ==> LineBody(m, s).mem.readyToFire == m.readyToFire
  {
    OpeningArms(s.turn, false);
  }

  /** The same for a whole turn below 101. */
  lemma ReadinessAfterLineTurn(m: Memory, s: Snapshot)
    requires s.turn < LateTurn
    ensures m.line == 0 ==> Turn(m, s).mem.readyToFire == (5 <= s.turn <= 98 && s.turn % 3 == 2 && s.turn != 8)
    ensures m.line != 0 ==> Turn(m, s).mem.readyToFire == m.readyToFire
  {
    SweepResets(m, s);
    ReadinessAfterLineBody(SweepStep(m, s).mem, s);
  }

  /** Without a line, the body launches the default attack exactly when the flag is set, before the opening script. */
  lemma DefaultAttackOnlyWhenArmed(m: Memory, s: Snapshot)
    requires m.line == 0
    ensures var c := BestLineStep(m, s).mem;
      LineBody(m, s).out == (if m.readyToFire then DefaultAttackRequests(s) else [])
        + [Scripted(OpeningDefence(s.turn))] + RemoveLineStep(c.(readyToFire := ArmsAfterOpening(s.turn, false)), s).out
  {
    OpeningArms(s.turn, false);
    OpeningArms(s.turn, m.readyToFire);
  }

  lemma PrefixOfConcat<T>(a: seq<T>, b: seq<T>, c: seq<T>)
    ensures ((a + b) + c)[..|a|] == a
  {
  }

  /**
    The ledger lives one turn: a line turn first spawns everything recorded on the
    previous turn, and ends holding only what this turn's sweep of ourlocations recorded.
  */

  lemma LedgerLivesOneTurn(m: Memory, s: Snapshot)
    requires s.turn < LateTurn
    ensures Turn(m, s).mem.needRebuild == PutAll([], Damaged(s, OurLocations(), LowHealth))
    ensures |RebuildRequests(m.needRebuild)| <= |Turn(m, s).out|
    ensures Turn(m, s).out[..|RebuildRequests(m.needRebuild)|] == RebuildRequests(m.needRebuild)
  {
    EarlyTurnsFollowLine(m, s);
    var a := SweepStep(m, s);
    var flush := RebuildRequests(m.needRebuild);
    var d := Damaged(s, OurLocations(), LowHealth);
    assert a.out == flush + Removals(d) && a.mem == m.(needRebuild := PutAll([], d)) by {
      SweepResets(m, s);
    }
    var body := LineBody(a.mem, s);
    assert body.mem.needRebuild == a.mem.needRebuild by {
      LineBodyMemory(a.mem, s);
    }
    assert LineTurnStep(m, s).out == a.out + body.out;
    assert LineTurnStep(m, s).mem == body.mem;
    PrefixOfConcat(flush, Removals(d), body.out);
  }

  /**
    On two consecutive line turns, every cell recorded on the first is respawned on the
    second with the type recorded last for it.
  */
  lemma FlushedNextTurn(m: Memory, s1: Snapshot, s2: Snapshot, c: Cell, t: UnitType)
    requires s1.turn < LateTurn && s2.turn < LateTurn
    requires Entry(c, t) in PutAll([], Damaged(s1, OurLocations(), LowHealth))
    ensures Spawn(t, [c], 1) in Turn(Turn(m, s1).mem, s2).out
  {
    var l := PutAll([], Damaged(s1, OurLocations(), LowHealth));
    LedgerLivesOneTurn(m, s1);
    LedgerLivesOneTurn(Turn(m, s1).mem, s2);
    RebuildRequestsIff(l);
    var out := Turn(Turn(m, s1).mem, s2).out;
    assert Spawn(t, [c], 1) in out[..|RebuildRequests(l)|];
  }

  /** Every turn keeps the ledger at one entry per cell, as the dict it models. */
  lemma TurnKeepsLedgerDistinct(m: Memory, s: Snapshot)
    requires DistinctCells(m.needRebuild)
    ensures DistinctCells(Turn(m, s).mem.needRebuild)
  {
    if s.turn < LateTurn {
      LedgerLivesOneTurn(m, s);
      PutAllDistinct([], Damaged(s, OurLocations(), LowHealth));
    } else {
      LateTurnsKeepLine(m, s);
    }
  }

  /** The left-breach test never fires, so left_removed is never set and attack_left never runs. */
  lemma LeftRemovedNeverSet(m: Memory, s: Snapshot)
    requires !m.leftRemoved
    ensures ModeOf(m, s) != BreachLeft && ModeOf(m, s) != AttackLeftTurn
    ensures !Turn(m, s).mem.leftRemoved
  {
    NestedKeysCountNothing(s, s.cells, LeftBreachFilter);
    if s.turn < LateTurn {
      EarlyTurnsFollowLine(m, s);
      SweepResets(m, s);
      LineBodyMemory(SweepStep(m, s).mem, s);
    }
  }

  /** No flag set: neither side removed nor a counter-attack pending. */
  predicate Calm(m: Memory)
  {
    !m.leftRemoved && !m.rightRemoved && !m.justAttacked
  }

  /** With no flag set and no right breach, a late turn only runs build_defences. */
  lemma QuietLateTurnFortifies(m: Memory, s: Snapshot)
    requires Calm(m) && s.turn >= LateTurn
    requires EnemyCount(s, s.cells, RightBreachFilter) != 2
    ensures Turn(m, s) == Step(m, [Scripted(BuildDefences)])
  {
    NestedKeysCountNothing(s, s.cells, LeftBreachFilter);
  }

  /**
    The right-breach cycle: two opponent structures on (26, 14) and (27, 14) make a late
    turn clear the right corner and set right_removed; the next turn runs attack_right
    and sets just_attacked; the turn after runs build_defences and clears both flags,
    which brings every field back to where the cycle started.
  */
  lemma RightBreachCycle(m: Memory, s1: Snapshot, s2: Snapshot, s3: Snapshot)
    requires Calm(m) && s1.turn >= LateTurn && s2.turn >= LateTurn && s3.turn >= LateTurn
    requires EnemyCount(s1, s1.cells, RightBreachFilter) == 2
    ensures var a := Turn(m, s1);
      a.mem == m.(rightRemoved := true) && a.out == [Remove(RightCorner), Scripted(DefendLeft)]
    ensures var b := Turn(Turn(m, s1).mem, s2);
      b.mem == m.(rightRemoved := true, justAttacked := true) && b.out == AttackRightRequests(s2) + [Scripted(DefendLeft)]
    ensures var c := Turn(Turn(Turn(m, s1).mem, s2).mem, s3);
      c.mem == m && c.out == [Scripted(BuildDefences)]
  {
    NestedKeysCountNothing(s1, s1.cells, LeftBreachFilter);
  }
}
