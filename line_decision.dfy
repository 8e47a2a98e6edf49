/**
  best_line_location's decision tree. Each turn the depth of the defence line is
  picked from opponent counts over the central band x in [8, 20]: front row y = 14,
  the rows 14-15 and the rows 14-16, and turrets on rows 14 and 15.
*/
module LineDecision {
  import opened Board
  import opened Scanner

  /** The depths the line takes; 0 means no line. */
  const Depths: set<int> := {0, 11, 12, 13}

  /** list(range(8, 21)): the central band of x values. */
  function Band(): seq<Key>
  {
    Range(8, 21)
  }

  function BandFilter(unitType: Option<UnitType>, rows: seq<Key>): Filter
  {
    Filter(unitType, Some(Band()), Some(rows))
  }

  /** The five counts the decision tree can ask for. */
  datatype Census = Census(front: nat, frontTurrets: nat, secondTurrets: nat, twoRows: nat, threeRows: nat)

  function CensusOf(s: Snapshot): Census
  {
    Census(
      EnemyCount(s, s.cells, BandFilter(None, [Num(14)])),
      EnemyCount(s, s.cells, BandFilter(Some(Turret), [Num(14)])),
      EnemyCount(s, s.cells, BandFilter(Some(Turret), [Num(15)])),
      EnemyCount(s, s.cells, BandFilter(None, [Num(14), Num(15)])),
      EnemyCount(s, s.cells, BandFilter(None, [Num(14), Num(15), Num(16)])))
  }

  /** Counts over nested regions are nested. */
  predicate NestedCounts(c: Census)
  {
    c.frontTurrets <= c.front <= c.twoRows <= c.threeRows
  }

  lemma CensusNested(s: Snapshot)
    ensures NestedCounts(CensusOf(s))
  {
    EnemyCountMonotone(s, s.cells, BandFilter(Some(Turret), [Num(14)]), BandFilter(None, [Num(14)]));
    EnemyCountMonotone(s, s.cells, BandFilter(None, [Num(14)]), BandFilter(None, [Num(14), Num(15)]));
    EnemyCountMonotone(s, s.cells, BandFilter(None, [Num(14), Num(15)]), BandFilter(None, [Num(14), Num(15), Num(16)]));
  }

  /** The depth best_line_location leaves in self.line, starting from `line`. */
  function NextLine(line: int, c: Census): int
  {
    if c.front > 4 then
      if line < 11 then 11
      else if c.frontTurrets == 0 then
        if line < 12 then 12
        else if c.secondTurrets == 0 then 13
        else if c.frontTurrets == 0 then 12 else 11
      else line
    else if c.twoRows > 4 then
      if line < 12 then 12
      else if c.secondTurrets == 0 then 13
      else 12
    else if c.threeRows > 4 then 13
    else 0
  }

  /** Starting from a valid depth, the decision stays within {0, 11, 12, 13}. */
  lemma NextLineInDepths(line: int, c: Census)
    requires line in Depths
    ensures NextLine(line, c) in Depths
  {
  }

  /** A crowded front row moves a line below 11 (or no line) to exactly 11. */
  lemma CrowdedFrontFromShallow(line: int, c: Census)
    requires c.front > 4 && line < 11
    ensures NextLine(line, c) == 11
  {
  }

  /** With a crowded front row and an opponent turret on it, a line at 11 or deeper stays put. */
  lemma TurretOnFrontKeepsLine(line: int, c: Census)
    requires c.front > 4 && c.frontTurrets > 0 && line >= 11
    ensures NextLine(line, c) == line
  {
  }

  /** In the first branch a line at 12 or deeper is never set back to 11 (the `else: 11` is dead). */
  lemma FirstBranchNeverElevenFromDeep(line: int, c: Census)
    requires c.front > 4 && line >= 12
    ensures NextLine(line, c) != 11
  {
  }

  /** The line stands down (depth 0) exactly when the three-row count is at most 4. */
  lemma StandDownIff(s: Snapshot, line: int)
    ensures NextLine(line, CensusOf(s)) == 0 <==> CensusOf(s).threeRows <= 4
  {
    CensusNested(s);
  }

  /**
    While the counts stay the same the line deepens one step per recompute and
    settles within three: the third recompute's depth is a fixed point.
  */
  lemma SettlesWithinThree(line: int, c: Census)
    requires line in Depths
    ensures var r := NextLine(NextLine(NextLine(line, c), c), c); NextLine(r, c) == r
  {
  }

  /** The climb can need all three steps: from no line, a clear crowded front gives 11, 12, 13. */
  lemma ClimbTakesThree(c: Census)
    requires c.front > 4 && c.frontTurrets == 0 && c.secondTurrets == 0
    ensures NextLine(0, c) == 11 && NextLine(11, c) == 12 && NextLine(12, c) == 13 && NextLine(13, c) == 13
  {
  }
}
