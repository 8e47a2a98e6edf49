/**
  Attack sizing and the request lists of the four attacks: default_attack and
  demolisher_attack (interceptors to screen, demolishers behind them, supports that
  are built, upgraded and then removed again), and the corner counter-attacks
  attack_right and attack_left.
*/
module Attacks {
  import opened Board
  import opened PathRisk
  import opened Queries

  /** math.ceil on a real. */
  function Ceil(x: real): (c: int)
    ensures c as real - 1.0 < x <= c as real
  {
    -((-x).Floor)
  }

  /** n_interceptors = min(floor(enemy MP), 2). */
  function Interceptors(enemyMp: real): (n: int)
    ensures n <= 2 && n as real <= enemyMp
    ensures n == 2 || enemyMp < (n + 1) as real
    ensures 0.0 <= enemyMp ==> 0 <= n
  {
    var f := enemyMp.Floor;
    if f < 2 then f else 2
  }

  /** n_demolishers = floor((MP - n_interceptors) / 3): as many 3-MP demolishers as the rest pays for. */
  function Demolishers(myMp: real, interceptors: int): (d: int)
    ensures 3.0 * d as real <= myMp - interceptors as real < 3.0 * d as real + 3.0
  {
    ((myMp - interceptors as real) / 3.0).Floor
  }

  /** The support cells on the left side, x <= 8. */
  const LeftSupports: seq<Cell> :=
    [Cell(4, 9), Cell(2, 11), Cell(5, 9), Cell(5, 8), Cell(6, 9), Cell(6, 8),
     Cell(7, 8), Cell(8, 8), Cell(6, 7), Cell(7, 7), Cell(8, 7)]

  /** Each cell reflected across the vertical centre line: [27 - x, y]. */
  function Mirror(cells: seq<Cell>): seq<Cell>
  {
    seq(|cells|, i requires 0 <= i < |cells| => Cell(27 - cells[i].x, cells[i].y))
  }

  /** A cell is among the mirrored cells exactly when its reflection is among the originals. */
  lemma MirrorMembership(cells: seq<Cell>)
    ensures |Mirror(cells)| == |cells|
    ensures forall c: Cell :: c in Mirror(cells) <==> Cell(27 - c.x, c.y) in cells
  {
    var m := Mirror(cells);
    forall c: Cell | Cell(27 - c.x, c.y) in cells
      ensures c in m
    {
      var i :| 0 <= i < |cells| && cells[i] == Cell(27 - c.x, c.y);
      assert m[i] == c;
    }
  }

  lemma MirrorInvolution(cells: seq<Cell>)
    ensures Mirror(Mirror(cells)) == cells
  {
  }

  /** The mirror of a cell on the left half (x <= 13) lies on the right half (x >= 14) and vice versa. */
  lemma MirrorSwapsHalves(cells: seq<Cell>)
    ensures forall i :: 0 <= i < |cells| ==> (cells[i].x <= 13 <==> Mirror(cells)[i].x >= 14)
  {
  }

  /** The right support cells all lie at x >= 19, so no support cell is shared by the two sides. */
  lemma SupportSidesDisjoint()
    ensures forall c :: c in LeftSupports ==> c.x <= 8
    ensures forall c :: c in Mirror(LeftSupports) ==> c.x >= 19
  {
    var r := Mirror(LeftSupports);
    forall c | c in r ensures c.x >= 19 {
      var i :| 0 <= i < |r| && r[i] == c;
      assert LeftSupports[i].x <= 8;
    }
  }

  /** Build, upgrade and remove the supports when SP is left; nothing otherwise. */
  function SupportRequests(supports: seq<Cell>, sp: real): seq<Intent>
  {
    if sp > 0.0 then [Spawn(Support, supports, 1), Upgrade(supports), Remove(supports)] else []
  }

  /** default_attack goes left exactly when the left launch is estimated to deal at least as much damage. */
  predicate GoesLeft(s: Snapshot)
  {
    var nD := Demolishers(s.mp, Interceptors(s.enemyMp));
    s.damageDealtMobile(Cell(3, 10), nD) >= s.damageDealtMobile(Cell(24, 10), nD)
  }

  /** The requests default_attack issues when ready to fire. */
  function DefaultAttackRequests(s: Snapshot): seq<Intent>
  {
    var nI := Interceptors(s.enemyMp);
    var nD := Demolishers(s.mp, nI);
    var left := GoesLeft(s);
    var supports := if left then LeftSupports else Mirror(LeftSupports);
    var launch := if left then Cell(3, 10) else Cell(24, 10);
    var block := if left then Cell(24, 11) else Cell(3, 11);
    [Spawn(Wall, [block], nI), Spawn(Interceptor, [launch], nI), Spawn(Demolisher, [launch], nD)]
      + SupportRequests(supports, s.sp)
  }

  /**
    The shape of default_attack: the wall goes on the side away from the launch cell, one
    row up; interceptors and demolishers share the launch cell; the supports sit on the
    launch side and are handled only when SP is left. Ties between the two estimates go left.
  */
  lemma DefaultAttackShape(s: Snapshot)
    ensures var reqs := DefaultAttackRequests(s);
      && (|reqs| == 6 <==> s.sp > 0.0) && (|reqs| == 3 <==> s.sp <= 0.0)
      && reqs[0].Spawn? && reqs[1].Spawn? && reqs[2].Spawn?
      && reqs[0].kind == Wall && reqs[1].kind == Interceptor && reqs[2].kind == Demolisher
      && reqs[1].cells == reqs[2].cells
      && reqs[0].cells[0] == Cell(27 - reqs[1].cells[0].x, reqs[1].cells[0].y + 1)
      && (reqs[1].cells == [Cell(3, 10)] <==> GoesLeft(s))
      && (|reqs| == 6 ==> forall c :: c in reqs[3].cells ==> (c.x <= 13 <==> reqs[1].cells[0].x <= 13))
  {
    SupportSidesDisjoint();
  }

  /** Ties go left. */
  lemma TiesGoLeft(s: Snapshot)
    requires var nD := Demolishers(s.mp, Interceptors(s.enemyMp));
      s.damageDealtMobile(Cell(3, 10), nD) == s.damageDealtMobile(Cell(24, 10), nD)
    ensures DefaultAttackRequests(s)[2] == Spawn(Demolisher, [Cell(3, 10)], Demolishers(s.mp, Interceptors(s.enemyMp)))
  {
  }

  /**
    The default attack's budget. When the interceptors are affordable, the demolisher
    count is non-negative, and interceptors at 1 MP plus demolishers at 3 MP spend at
    most the MP held, leaving less than one demolisher's worth. When they are not, the
    demolisher count is negative: range() of it is empty, so no demolisher is sent,
    and the interceptor request asks for more MP than is held.
  */
  lemma DefaultAttackBudget(s: Snapshot)
    ensures var nI := Interceptors(s.enemyMp); var nD := Demolishers(s.mp, nI);
      nI as real <= s.mp ==> 0 <= nD && nI as real + 3.0 * nD as real <= s.mp < nI as real + 3.0 * nD as real + 3.0
    ensures var nI := Interceptors(s.enemyMp);
      s.mp < nI as real ==> Demolishers(s.mp, nI) < 0 && DefaultAttackRequests(s)[1].count == nI
  {
  }

  /** The requests demolisher_attack issues. */
  function DemolisherAttackRequests(s: Snapshot): seq<Intent>
  {
    var nI := Interceptors(s.enemyMp);
    var nD := Demolishers(s.mp, nI);
    var damage := s.damageDealtMobile(Cell(22, 8), nD);
    [Spawn(Interceptor, [Cell(22, 8)], nI)]
      + (if damage > 8.0 then [Spawn(Demolisher, [Cell(5, 8)], nD)] + SupportRequests(LeftSupports, s.sp) else [])
  }

  /** demolisher_attack always screens with interceptors and sends demolishers exactly when the estimate exceeds 8. */
  lemma DemolisherLaunchIff(s: Snapshot)
    ensures var reqs := DemolisherAttackRequests(s);
      && reqs[0] == Spawn(Interceptor, [Cell(22, 8)], Interceptors(s.enemyMp))
      && ((exists i :: 0 <= i < |reqs| && reqs[i].Spawn? && reqs[i].kind == Demolisher)
          <==> s.damageDealtMobile(Cell(22, 8), Demolishers(s.mp, Interceptors(s.enemyMp))) > 8.0)
  {
    var reqs := DemolisherAttackRequests(s);
    if s.damageDealtMobile(Cell(22, 8), Demolishers(s.mp, Interceptors(s.enemyMp))) > 8.0 {
      assert reqs[1].Spawn? && reqs[1].kind == Demolisher;
    }
  }

  /** The interceptor estimate from a launch cell for player 0. */
  function InterceptorDamage(s: Snapshot, launch: Cell): real
  {
    PathDamage(s, s.pathToEdge(launch), 0, 2.0)
  }

  /** numberinterceptor in attack_right: ceil(corner health / 40 + floor(damage / 40)). */
  function RightInterceptors(s: Snapshot): int
  {
    Ceil(DefenceHealth(s, Cell(27, 14)) / 40.0 + (InterceptorDamage(s, Cell(24, 10)) / 40.0).Floor as real)
  }

  /** The requests attack_right issues. */
  function AttackRightRequests(s: Snapshot): seq<Intent>
  {
    var n := RightInterceptors(s);
    [Spawn(Wall, [Cell(25, 13)], 1), Spawn(Interceptor, [Cell(24, 10)], n), Spawn(Scout, [Cell(13, 0)], (s.mp - n as real).Floor)]
  }

  /**
    attack_right's budget. When the interceptors are affordable, the scout count is
    non-negative, and interceptors and scouts (1 MP each) ask for at most the MP held,
    leaving less than one unit's worth. When they are not, the scout count is negative,
    so no scout is sent, and the interceptor request asks for more MP than is held.
    An empty right corner and a path out of reach of every attacker send no interceptors.
  */
  lemma AttackRightBudget(s: Snapshot)
    ensures var reqs := AttackRightRequests(s);
      RightInterceptors(s) as real <= s.mp ==>
        0 <= reqs[2].count
        && reqs[1].count as real + reqs[2].count as real <= s.mp < reqs[1].count as real + reqs[2].count as real + 1.0
    ensures var reqs := AttackRightRequests(s);
      s.mp < RightInterceptors(s) as real ==> reqs[2].count < 0 && reqs[1].count == RightInterceptors(s)
    ensures DefenceHealth(s, Cell(27, 14)) == 0.0 && InterceptorDamage(s, Cell(24, 10)) < 40.0 ==> RightInterceptors(s) == 0
  {
    PathDamageNonNegative(s, s.pathToEdge(Cell(24, 10)), 0, 2.0);
  }

  /** The requests attack_left issues. */
  function AttackLeftRequests(s: Snapshot): seq<Intent>
  {
    var dem := InterceptorDamage(s, Cell(3, 10));
    [Spawn(Wall, [Cell(2, 13)], 1)]
      + (if DefenceHealth(s, Cell(0, 14)) > 0.0
         then [Spawn(Interceptor, [Cell(3, 10)], Ceil(200.0 / 40.0 + (dem / 40.0).Floor as real))]
         else [])
      + [Spawn(Scout, [Cell(14, 0)], s.mp.Floor)]
  }

  /** attack_left screens only when the opponent's left corner is defended, with five interceptors plus one per 40 damage. */
  lemma AttackLeftScreen(s: Snapshot)
    ensures |AttackLeftRequests(s)| == 3 <==> DefenceHealth(s, Cell(0, 14)) > 0.0
    ensures DefenceHealth(s, Cell(0, 14)) > 0.0 ==>
      AttackLeftRequests(s)[1].count == 5 + (InterceptorDamage(s, Cell(3, 10)) / 40.0).Floor
  {
  }
}
