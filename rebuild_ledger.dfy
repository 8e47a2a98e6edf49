/**
  The rebuild ledger `need_rebuild`: remove_damaged clears own stationary units whose
  health is below a threshold and records cell -> unit type; rebuilding spawns every
  recorded entry and empties the ledger. The ledger is a Python dict, so it is kept
  here as a list of entries with distinct cells in insertion order.
*/
module RebuildLedger {
  import opened Board

  datatype Entry = Entry(cell: Cell, kind: UnitType)

  type Ledger = seq<Entry>

  ghost predicate DistinctCells(l: Ledger)
  {
    forall i, j :: 0 <= i < j < |l| ==> l[i].cell != l[j].cell
  }

  ghost function Cells(l: seq<Entry>): set<Cell>
  {
    set e | e in l :: e.cell
  }

  lemma CellsConcat(a: seq<Entry>, b: seq<Entry>)
    ensures Cells(a + b) == Cells(a) + Cells(b)
  {
    forall x | x in Cells(a + b) ensures x in Cells(a) + Cells(b) {
      var e :| e in a + b && e.cell == x;
    }
  }

  /**
    need_rebuild[c] = t: a cell already present keeps its position and takes the new
    type; a new cell goes to the end.
  */
  function Put(l: Ledger, c: Cell, t: UnitType): Ledger
  {
    if l == [] then [Entry(c, t)]
    else if l[0].cell == c then [Entry(c, t)] + l[1..]
    else [l[0]] + Put(l[1..], c, t)
  }

  /**
    After the write the ledger holds Entry(c, t), keeps every entry for another cell,
    covers exactly the old cells and c, and appends when c is new.
  */
  lemma {:induction false} PutCells(l: Ledger, c: Cell, t: UnitType)
    ensures var r := Put(l, c, t);
      && Cells(r) == Cells(l) + {c}
      && Entry(c, t) in r
      && (forall e :: e in l && e.cell != c ==> e in r)
      && (c !in Cells(l) ==> r == l + [Entry(c, t)])
  {
    if l != [] {
      CellsConcat([l[0]], l[1..]);
      assert l == [l[0]] + l[1..];
      if l[0].cell == c {
        CellsConcat([Entry(c, t)], l[1..]);
      } else {
        PutCells(l[1..], c, t);
        CellsConcat([l[0]], Put(l[1..], c, t));
      }
    }
  }

  /** A ledger with distinct cells keeps them distinct, and the write invents no other entry. */
  lemma {:induction false} PutKeepsDistinct(l: Ledger, c: Cell, t: UnitType)
    requires DistinctCells(l)
    ensures DistinctCells(Put(l, c, t))
    ensures forall e :: e in Put(l, c, t) ==> e == Entry(c, t) || (e in l && e.cell != c)
  {
    if l != [] {
      assert l == [l[0]] + l[1..];
      if l[0].cell != c {
        assert DistinctCells(l[1..]);
        PutKeepsDistinct(l[1..], c, t);
        PutCells(l[1..], c, t);
        CellsConcat([l[0]], l[1..]);
        assert l[0].cell !in Cells(l[1..]);
      }
    }
  }

  /** The ledger after writing the entries of d in order. */
  function PutAll(l: Ledger, d: seq<Entry>): Ledger
  {
    if d == [] then l
    else var e := d[|d| - 1]; Put(PutAll(l, d[..|d| - 1]), e.cell, e.kind)
  }

  lemma PutAllSnoc(l: Ledger, d: seq<Entry>, e: Entry)
    ensures PutAll(l, d + [e]) == Put(PutAll(l, d), e.cell, e.kind)
  {
    assert (d + [e])[..|d|] == d;
  }

  /** Writing a and then b is writing a + b. */
  lemma {:induction false} PutAllAppend(l: Ledger, a: seq<Entry>, b: seq<Entry>)
    ensures PutAll(l, a + b) == PutAll(PutAll(l, a), b)
  {
    if b == [] {
      assert a + b == a;
    } else {
      var front := b[..|b| - 1];
      var e := b[|b| - 1];
      calc {
        PutAll(l, a + b);
        { assert a + b == (a + front) + [e]; }
        PutAll(l, (a + front) + [e]);
        { PutAllSnoc(l, a + front, e); }
        Put(PutAll(l, a + front), e.cell, e.kind);
        { PutAllAppend(l, a, front); }
        Put(PutAll(PutAll(l, a), front), e.cell, e.kind);
        { PutAllSnoc(PutAll(l, a), front, e); }
        PutAll(PutAll(l, a), front + [e]);
        { assert b == front + [e]; }
        PutAll(PutAll(l, a), b);
      }
    }
  }

  /** Writing d into a ledger keeps its cells distinct. */
  lemma {:induction false} PutAllDistinct(l: Ledger, d: seq<Entry>)
    requires DistinctCells(l)
    ensures DistinctCells(PutAll(l, d))
  {
    if d != [] {
      var front := d[..|d| - 1];
      PutAllDistinct(l, front);
      PutKeepsDistinct(PutAll(l, front), d[|d| - 1].cell, d[|d| - 1].kind);
    }
  }

  /** Writing d into a ledger covers exactly the old cells and those of d. */
  lemma {:induction false} PutAllCells(l: Ledger, d: seq<Entry>)
    ensures Cells(PutAll(l, d)) == Cells(l) + Cells(d)
  {
    if d != [] {
      var front := d[..|d| - 1];
      var e := d[|d| - 1];
      PutAllCells(l, front);
      PutCells(PutAll(l, front), e.cell, e.kind);
      assert d == front + [e];
      CellsConcat(front, [e]);
      assert Cells([e]) == {e.cell};
    }
  }

  /** The last write to a cell wins: the final entry d holds for a cell is in the ledger. */
  lemma {:induction false} PutAllLastWriteWins(l: Ledger, d: seq<Entry>)
    ensures forall i :: 0 <= i < |d| && (forall j :: i < j < |d| ==> d[j].cell != d[i].cell) ==> d[i] in PutAll(l, d)
  {
    if d != [] {
      var front := d[..|d| - 1];
      PutAllLastWriteWins(l, front);
      PutCells(PutAll(l, front), d[|d| - 1].cell, d[|d| - 1].kind);
      forall i | 0 <= i < |d| - 1 && (forall j :: i < j < |d| ==> d[j].cell != d[i].cell)
        ensures d[i] in PutAll(l, d)
      {
        assert front[i] == d[i];
        forall j | i < j < |front| ensures front[j].cell != front[i].cell {
          assert front[j] == d[j];
        }
        assert d[i] in PutAll(l, front);
      }
    }
  }

  /** Every entry of the ledger after writing d is an entry of d or an old entry for a cell d never wrote. */
  lemma {:induction false} PutAllProvenance(l: Ledger, d: seq<Entry>)
    requires DistinctCells(l)
    ensures forall e :: e in PutAll(l, d) ==> e in d || (e in l && e.cell !in Cells(d))
  {
    if d != [] {
      var front := d[..|d| - 1];
      PutAllProvenance(l, front);
      PutAllDistinct(l, front);
      PutKeepsDistinct(PutAll(l, front), d[|d| - 1].cell, d[|d| - 1].kind);
      assert d == front + [d[|d| - 1]];
      CellsConcat(front, [d[|d| - 1]]);
    }
  }

  /** An own stationary unit whose health is below the threshold. */
  predicate NeedsRebuild(u: Unit, threshold: real)
  {
    u.playerIndex == 0 && u.stationary && u.health < threshold
  }

  /** The entries remove_damaged records on cell c, in the order the units are listed. */
  function DamagedAt(c: Cell, us: seq<Unit>, threshold: real): seq<Entry>
  {
    if us == [] then []
    else
      var u := us[|us| - 1];
      DamagedAt(c, us[..|us| - 1], threshold) + (if NeedsRebuild(u, threshold) then [Entry(c, u.kind)] else [])
  }

  lemma DamagedAtStep(c: Cell, us: seq<Unit>, j: nat, threshold: real)
    requires j < |us|
    ensures DamagedAt(c, us[..j + 1], threshold)
         == DamagedAt(c, us[..j], threshold) + (if NeedsRebuild(us[j], threshold) then [Entry(c, us[j].kind)] else [])
  {
    assert us[..j + 1][..j] == us[..j];
  }

  lemma DamagedStep(s: Snapshot, locations: seq<Cell>, i: nat, threshold: real)
    requires i < |locations|
    ensures Damaged(s, locations[..i + 1], threshold)
         == Damaged(s, locations[..i], threshold) + DamagedAt(locations[i], UnitsAt(s, locations[i]), threshold)
  {
    assert locations[..i + 1][..i] == locations[..i];
  }

  lemma AppendAssoc<T>(a: seq<T>, b: seq<T>, c: seq<T>)
    ensures a + (b + c) == (a + b) + c
  {
  }

  /** The entries remove_damaged records while walking `locations` in order. */
  function Damaged(s: Snapshot, locations: seq<Cell>, threshold: real): seq<Entry>
  {
    if locations == [] then []
    else
      var c := locations[|locations| - 1];
      Damaged(s, locations[..|locations| - 1], threshold) + DamagedAt(c, UnitsAt(s, c), threshold)
  }

  /** One remove request per recorded entry, for its cell. */
  function Removals(d: seq<Entry>): seq<Intent>
  {
    if d == [] then [] else Removals(d[..|d| - 1]) + [Remove([d[|d| - 1].cell])]
  }

  lemma RemovalsSnoc(d: seq<Entry>, e: Entry)
    ensures Removals(d + [e]) == Removals(d) + [Remove([e.cell])]
  {
    assert (d + [e])[..|d|] == d;
  }

  lemma {:induction false} RemovalsAppend(a: seq<Entry>, b: seq<Entry>)
    ensures Removals(a + b) == Removals(a) + Removals(b)
  {
    if b == [] {
      assert a + b == a;
    } else {
      var front := b[..|b| - 1];
      var e := b[|b| - 1];
      RemovalsAppend(a, front);
      assert a + b == (a + front) + [e];
      RemovalsSnoc(a + front, e);
      RemovalsSnoc(front, e);
      assert b == front + [e];
    }
  }

  /** The spawn requests rebuilding issues: one per ledger entry, in ledger order. */
  function RebuildRequests(l: Ledger): seq<Intent>
  {
    if l == [] then [] else RebuildRequests(l[..|l| - 1]) + [Spawn(l[|l| - 1].kind, [l[|l| - 1].cell], 1)]
  }

  lemma {:induction false} DamagedAtIff(c: Cell, us: seq<Unit>, threshold: real)
    ensures forall e :: e in DamagedAt(c, us, threshold) <==>
      e.cell == c && exists u :: u in us && NeedsRebuild(u, threshold) && u.kind == e.kind
  {
    if us != [] {
      var front := us[..|us| - 1];
      DamagedAtIff(c, front, threshold);
      assert us == front + [us[|us| - 1]];
    }
  }

  /**
    remove_damaged records an entry (c, t) exactly when c is one of the swept cells and
    an own stationary unit of type t with health below the threshold stands on it.
  */
  lemma {:induction false} DamagedIff(s: Snapshot, locations: seq<Cell>, threshold: real)
    ensures forall e :: e in Damaged(s, locations, threshold) <==>
      e.cell in locations && exists u :: u in UnitsAt(s, e.cell) && NeedsRebuild(u, threshold) && u.kind == e.kind
  {
    if locations != [] {
      var front := locations[..|locations| - 1];
      var c := locations[|locations| - 1];
      DamagedIff(s, front, threshold);
      DamagedAtIff(c, UnitsAt(s, c), threshold);
      assert locations == front + [c];
    }
  }

  /** remove_damaged asks to remove exactly the cells it records, one request per record. */
  lemma {:induction false} RemovalsCoverRecords(d: seq<Entry>)
    ensures |Removals(d)| == |d|
    ensures forall c :: Remove([c]) in Removals(d) <==> c in Cells(d)
  {
    if d != [] {
      var front := d[..|d| - 1];
      RemovalsCoverRecords(front);
      assert d == front + [d[|d| - 1]];
      assert Cells(d) == Cells(front) + {d[|d| - 1].cell};
    }
  }

  /** rebuilding spawns exactly the recorded (cell, type) pairs, one request per entry. */
  lemma {:induction false} RebuildRequestsIff(l: Ledger)
    ensures |RebuildRequests(l)| == |l|
    ensures forall c, t :: Spawn(t, [c], 1) in RebuildRequests(l) <==> Entry(c, t) in l
  {
    if l != [] {
      var front := l[..|l| - 1];
      RebuildRequestsIff(front);
      assert l == front + [l[|l| - 1]];
    }
  }

  /** The i-th spawn rebuilding issues is for the i-th ledger entry. */
  lemma {:induction false} RebuildRequestsAt(l: Ledger)
    ensures |RebuildRequests(l)| == |l|
    ensures forall i :: 0 <= i < |l| ==> RebuildRequests(l)[i] == Spawn(l[i].kind, [l[i].cell], 1)
  {
    if l != [] {
      var front := l[..|l| - 1];
      RebuildRequestsAt(front);
      forall i | 0 <= i < |front| ensures l[i] == front[i] { }
    }
  }

  /**
    With one entry per cell, as in a dict, rebuilding asks for each cell at most once:
    no two of its spawn requests name the same cell.
  */
  lemma RebuildOncePerCell(l: Ledger)
    requires DistinctCells(l)
    ensures forall i, j :: 0 <= i < j < |RebuildRequests(l)| ==>
      RebuildRequests(l)[i].Spawn? && RebuildRequests(l)[j].Spawn? && RebuildRequests(l)[i].cells != RebuildRequests(l)[j].cells
  {
    RebuildRequestsAt(l);
    forall i, j | 0 <= i < j < |RebuildRequests(l)|
      ensures RebuildRequests(l)[i].Spawn? && RebuildRequests(l)[j].Spawn? && RebuildRequests(l)[i].cells != RebuildRequests(l)[j].cells
    {
      assert RebuildRequests(l)[i].cells[0] == l[i].cell;
      assert RebuildRequests(l)[j].cells[0] == l[j].cell;
    }
  }
}
