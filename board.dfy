/**
  The board as the strategy sees it during one turn: cells, the units standing on
  them, the two resource pools, and the library queries the strategy calls. Also the
  request log that the library's attempt_spawn / attempt_remove / attempt_upgrade
  calls append to.
*/
module Board {

  datatype Option<T> = None | Some(value: T)

  /** A grid cell; its identity is the coordinate pair. */
  datatype Cell = Cell(x: int, y: int)

  datatype UnitType = Wall | Support | Turret | Scout | Demolisher | Interceptor

  /** A unit on the map. playerIndex 0 is this algo, 1 its opponent. */
  datatype Unit = Unit(kind: UnitType, playerIndex: int, stationary: bool,
                       health: real, damageI: real, attackRange: real)

  /**
    One turn's view of the game. `cells` is the order in which the game map is
    iterated; `units` lists what stands on a cell (a missing key is an empty cell).
    The three function fields stand for library queries this model does not
    reimplement: find_path_to_edge, get_locations_in_range(c, 3.5), and
    damage_dealt_mobile(c, DEMOLISHER, n) for player 0.
  */
  datatype Snapshot = Snapshot(
    turn: int,
    cells: seq<Cell>,
    units: map<Cell, seq<Unit>>,
    mp: real,
    enemyMp: real,
    sp: real,
    pathToEdge: Cell -> seq<Cell>,
    locationsInRange: Cell -> seq<Cell>,
    damageDealtMobile: (Cell, int) -> real)

  function UnitsAt(s: Snapshot, c: Cell): seq<Unit>
  {
    if c in s.units then s.units[c] else []
  }

  predicate ContainsStationaryUnit(s: Snapshot, c: Cell)
  {
    exists u :: u in UnitsAt(s, c) && u.stationary
  }

  function DistSq(p: Cell, q: Cell): int
  {
    (p.x - q.x) * (p.x - q.x) + (p.y - q.y) * (p.y - q.y)
  }

  /** The Euclidean distance from p to q is at most u's attack range (compared squared). */
  predicate InAttackRange(u: Unit, p: Cell, q: Cell)
  {
    0.0 <= u.attackRange && DistSq(p, q) as real <= u.attackRange * u.attackRange
  }

  /** The fixed build scripts whose coordinate lists are not part of this model. */
  datatype Script = BuildDefences | DefendLeft | DefendRight | OpeningDefence(turn: int)

  /** A request handed to the game engine; the engine may refuse it silently. */
  datatype Intent =
    | Spawn(kind: UnitType, cells: seq<Cell>, count: int)
    | Remove(cells: seq<Cell>)
    | Upgrade(cells: seq<Cell>)
    | Scripted(script: Script)

  /** Three requests logged one at a time are the three logged together. */
  lemma LoggedThree<T>(log: seq<T>, x0: T, x1: T, x2: T)
    ensures ((log + [x0]) + [x1]) + [x2] == log + [x0, x1, x2]
  {
  }

  /** Six requests logged one at a time are the first three and then the last three. */
  lemma LoggedSix<T>(log: seq<T>, x0: T, x1: T, x2: T, x3: T, x4: T, x5: T)
    ensures (((((log + [x0]) + [x1]) + [x2]) + [x3]) + [x4]) + [x5] == log + ([x0, x1, x2] + [x3, x4, x5])
  {
  }

  /** Twelve requests logged one at a time are the twelve logged together. */
  lemma LoggedTwelve<T>(log: seq<T>, x0: T, x1: T, x2: T, x3: T, x4: T, x5: T, x6: T, x7: T, x8: T, x9: T, x10: T, x11: T)
    ensures (((((((((((log + [x0]) + [x1]) + [x2]) + [x3]) + [x4]) + [x5]) + [x6]) + [x7]) + [x8]) + [x9]) + [x10]) + [x11]
         == log + [x0, x1, x2, x3, x4, x5, x6, x7, x8, x9, x10, x11]
  {
  }

  /** The game_state handed to a turn: a fixed snapshot and the requests issued so far. */
  class GameState {
    const snapshot: Snapshot
    var requests: seq<Intent>

    constructor (s: Snapshot)
      ensures snapshot == s && requests == []
    {
      snapshot := s;
      requests := [];
    }

    method AttemptSpawn(kind: UnitType, cells: seq<Cell>, count: int)
      modifies this
      ensures requests == old(requests) + [Spawn(kind, cells, count)]
    {
      requests := requests + [Spawn(kind, cells, count)];
    }

    method AttemptRemove(cells: seq<Cell>)
      modifies this
      ensures requests == old(requests) + [Remove(cells)]
    {
      requests := requests + [Remove(cells)];
    }

    method AttemptUpgrade(cells: seq<Cell>)
      modifies this
      ensures requests == old(requests) + [Upgrade(cells)]
    {
      requests := requests + [Upgrade(cells)];
    }

    /** Stands for the whole fixed request list of one build script. */
    method RunScript(script: Script)
      modifies this
      ensures requests == old(requests) + [Scripted(script)]
    {
      requests := requests + [Scripted(script)];
    }
  }
}
