/** Where fruit comes up: the generator's numbers, and the cell that a number picks. */
module CoopDraw {
  import opened Prelude
  import opened Grid
  import opened CoopSpec
  import opened CoopBoard

  /** Reading order: by rows, then from left to right. */
  predicate ReadsBefore(p: Point, q: Point) {
    p.y < q.y || (p.y == q.y && p.x < q.x)
  }

  predicate InReadingOrder(ps: seq<Point>) {
    forall i, j :: 0 <= i < j < |ps| ==> ReadsBefore(ps[i], ps[j])
  }

  lemma {:induction false} RowInOrder(x: nat, y: int, taken: set<Point>)
    ensures InReadingOrder(FreeRow(x, y, taken))
    decreases x
  {
    if x > 0 {
      RowInOrder(x - 1, y, taken);
      forall p | p in FreeRow(x - 1, y, taken)
        ensures p.x < x - 1 && p.y == y
      {
        FreeRowMember(x - 1, y, taken, p);
      }
    }
  }

  /** The scan lists the free cells in reading order. */
  lemma {:induction false} FreeCellsInOrder(w: nat, h: nat, taken: set<Point>)
    ensures InReadingOrder(FreeCells(w, h, taken))
    decreases h
  {
    FreeCellsSplit(w, h, taken);
    hide FreeCells, FreeRow;
    if h > 0 {
      FreeCellsInOrder(w, h - 1, taken);
      RowInOrder(w, h - 1, taken);
      forall p | p in FreeCells(w, h - 1, taken)
        ensures p.y < h - 1
      {
        FreeCellsMember(w, h - 1, taken, p);
      }
      forall p | p in FreeRow(w, h - 1, taken)
        ensures p.y == h - 1
      {
        FreeRowMember(w, h - 1, taken, p);
      }
    }
  }

  lemma OrderedIsNoDup(ps: seq<Point>)
    requires InReadingOrder(ps)
    ensures NoDup(ps)
  {
  }

  lemma {:induction false} CountBefore(ps: seq<Point>, k: nat)
    requires InReadingOrder(ps) && k < |ps|
    ensures |set q | q in ps && ReadsBefore(q, ps[k])| == k
  {
    var before := set q | q in ps && ReadsBefore(q, ps[k]);
    var front := ps[..k];
    forall q
      ensures q in before <==> q in SetOf(front)
    {
      if q in before {
        var j :| 0 <= j < |ps| && ps[j] == q;
        assert j < k;
        assert front[j] == q;
      }
      if q in front {
        var j :| 0 <= j < k && front[j] == q;
        assert ps[j] == q;
      }
    }
    assert before == SetOf(front);
    OrderedIsNoDup(ps);
    NoDupCount(front);
  }

  /** The free cells of a board. */
  function Free(w: nat, h: nat, taken: set<Point>): set<Point> {
    set p | p in Cells(w, h) && p !in taken
  }

  /** A spawn draws the next number and puts the fruit on the free cell with that many free cells
      before it, counted round the board in reading order. */
  lemma SpawnDraws(w: nat, h: nat, bodies: set<Point>, fruit: seq<Point>, rng: bv64)
    ensures var free := Free(w, h, bodies + SetOf(fruit));
            var r := Spawn(w, h, bodies, fruit, rng);
            if free == {} then r == (fruit, rng)
            else
              && r.1 == NextRng(rng) && |r.0| == |fruit| + 1 && r.0[..|fruit|] == fruit && Last(r.0) in free
              && |set q | q in free && ReadsBefore(q, Last(r.0))| == (NextRng(rng) as nat) % |free|
  {
    var taken := bodies + SetOf(fruit);
    var free, cells := Free(w, h, taken), FreeCells(w, h, taken);
    forall p
      ensures p in free <==> p in cells
    {
      FreeCellsMember(w, h, taken, p);
    }
    FreeCellsInOrder(w, h, taken);
    OrderedIsNoDup(cells);
    NoDupCount(cells);
    assert free == SetOf(cells);
    hide FreeCells, NextRng;
    if cells != [] {
      assert cells[0] in free;
      var k := Draw(RngValue(NextRng(rng)), |cells|);
      CountBefore(cells, k);
      assert (set q | q in free && ReadsBefore(q, cells[k])) == (set q | q in cells && ReadsBefore(q, cells[k]));
    } else {
      assert free == {};
    }
  }

  /** The first numbers of the generator, from a seed of one and from the seed of zero it replaces. */
  lemma FirstNumbers()
    ensures NextRng(1) == 0x40822041 && NextRng(NextRng(1)) == 0x100041060C011441
    ensures NextRng(0) == NextRng(0x9E3779B97F4A7C15)
  {
  }
}
