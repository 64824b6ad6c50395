/** Board partition and apple accounting of the co-op simulation.

    In every reachable game the bodies (live snakes and corpses) and the fruit are
    pairwise disjoint sets of board cells, so score is bounded by the cells left over
    and running out of apples is the same thing as covering the board. */
module CoopBoard {
  import opened Prelude
  import opened Grid
  import opened CoopSpec

  // ---------------------------------------------------------------- free cells

  lemma {:induction false} FreeRowMember(x: nat, y: int, taken: set<Point>, p: Point)
    ensures p in FreeRow(x, y, taken) <==> 0 <= p.x < x && p.y == y && p !in taken
    decreases x
  {
    if x > 0 {
      FreeRowMember(x - 1, y, taken, p);
    }
  }

  lemma FreeCellsSplit(w: nat, h: nat, taken: set<Point>)
    ensures h == 0 ==> FreeCells(w, h, taken) == []
    ensures h > 0 ==> FreeCells(w, h, taken) == FreeCells(w, h - 1, taken) + FreeRow(w, h - 1, taken)
  {
  }

  /** The scan finds exactly the board cells that are not taken. */
  lemma {:induction false} FreeCellsMember(w: nat, h: nat, taken: set<Point>, p: Point)
    ensures p in FreeCells(w, h, taken) <==> InBounds(p, w, h) && p !in taken
    decreases h
  {
    FreeCellsSplit(w, h, taken);
    hide FreeCells, FreeRow;
    if h > 0 {
      FreeCellsMember(w, h - 1, taken, p);
      FreeRowMember(w, h - 1, taken, p);
    }
  }

  /** No free cell is left exactly when the taken cells cover the board. */
  lemma NoFreeCells(w: nat, h: nat, taken: set<Point>)
    requires taken <= Cells(w, h)
    ensures FreeCells(w, h, taken) == [] <==> |taken| == w * h
  {
    CellsCount(w, h);
    SubsetCount(taken, Cells(w, h));
    forall p
      ensures p in FreeCells(w, h, taken) <==> InBounds(p, w, h) && p !in taken
    {
      FreeCellsMember(w, h, taken, p);
    }
    if FreeCells(w, h, taken) == [] {
      assert forall p :: p in Cells(w, h) ==> p in taken;
      assert taken == Cells(w, h);
    } else {
      assert FreeCells(w, h, taken)[0] in FreeCells(w, h, taken);
    }
  }

  // ---------------------------------------------------------------- fruit

  predicate FruitOk(w: nat, h: nat, bodies: set<Point>, fruit: seq<Point>) {
    && NoDup(fruit)
    && forall p :: p in fruit ==> InBounds(p, w, h) && p !in bodies
  }

  /** A spawn either finds the board full or adds one fruit on a free cell. */
  lemma SpawnOk(w: nat, h: nat, bodies: set<Point>, fruit: seq<Point>, rng: bv64)
    requires FruitOk(w, h, bodies, fruit)
    ensures var r := Spawn(w, h, bodies, fruit, rng);
            && FruitOk(w, h, bodies, r.0)
            && fruit <= r.0
            && (if FreeCells(w, h, bodies + SetOf(fruit)) == [] then r == (fruit, rng) else |r.0| == |fruit| + 1)
  {
    var free := FreeCells(w, h, bodies + SetOf(fruit));
    if free != [] {
      var p := free[Draw(RngValue(NextRng(rng)), |free|)];
      FreeCellsMember(w, h, bodies + SetOf(fruit), p);
    }
  }

  /** Filling stops at the target, or short of it only when no cell is free. */
  lemma {:induction false} FillOk(w: nat, h: nat, bodies: set<Point>, fruit: seq<Point>, target: nat, rng: bv64)
    requires FruitOk(w, h, bodies, fruit)
    ensures var r := Fill(w, h, bodies, fruit, target, rng).0;
            && FruitOk(w, h, bodies, r)
            && fruit <= r
            && |r| <= Max(target, |fruit|)
            && (|r| < target ==> FreeCells(w, h, bodies + SetOf(r)) == [])
    decreases target - |fruit|
  {
    if |fruit| < target {
      SpawnOk(w, h, bodies, fruit, rng);
      var next := Spawn(w, h, bodies, fruit, rng);
      if |next.0| != |fruit| {
        FillOk(w, h, bodies, next.0, target, next.1);
      }
    }
  }

  lemma {:induction false} WithoutMember(fruit: seq<Point>, gone: set<Point>, p: Point)
    ensures p in Without(fruit, gone) <==> p in fruit && p !in gone
    decreases |fruit|
  {
    if fruit != [] {
      WithoutMember(fruit[..|fruit| - 1], gone, p);
      assert fruit == fruit[..|fruit| - 1] + [Last(fruit)];
    }
  }

  lemma {:induction false} WithoutNoDup(fruit: seq<Point>, gone: set<Point>)
    requires NoDup(fruit)
    ensures NoDup(Without(fruit, gone))
    ensures |Without(fruit, gone)| <= |fruit|
    ensures (forall p :: p in fruit ==> p !in gone) ==> Without(fruit, gone) == fruit
    decreases |fruit|
  {
    if fruit != [] {
      var front := fruit[..|fruit| - 1];
      WithoutNoDup(front, gone);
      WithoutMember(front, gone, Last(fruit));
      assert fruit == front + [Last(fruit)];
      assert Last(fruit) !in front;
    }
  }

  // ---------------------------------------------------------------- bodies

  ghost predicate BodiesOk(w: nat, h: nat, ss: seq<Snake>) {
    && (forall i, p :: 0 <= i < |ss| && p in ss[i].body ==> InBounds(p, w, h))
    && (forall i :: 0 <= i < |ss| ==> NoDup<Point>(ss[i].body))
    && (forall i, j, p :: 0 <= i < |ss| && 0 <= j < |ss| && p in ss[i].body && p in ss[j].body ==> i == j)
  }

  function TotalScore(ss: seq<Snake>): nat {
    if ss == [] then 0 else TotalScore(ss[..|ss| - 1]) + Last(ss).score
  }

  function TotalLength(ss: seq<Snake>): nat {
    if ss == [] then 0 else TotalLength(ss[..|ss| - 1]) + |Last(ss).body|
  }

  predicate LengthsOk(ss: seq<Snake>) {
    forall i :: 0 <= i < |ss| ==> |ss[i].body| == 3 + ss[i].score && ss[i].grow == 0
  }

  /** Bodies and fruit partition part of the board; every apple eaten is one cell of body. */
  ghost predicate BoardInv(g: Game) {
    && BodiesOk(g.width, g.height, g.snakes)
    && FruitOk(g.width, g.height, Covered(g.snakes), g.fruit)
    && LengthsOk(g.snakes)
    && g.score == TotalScore(g.snakes)
    && |g.fruit| <= g.target
    && (|g.fruit| < g.target ==> GameFree(g) == [])
  }

  lemma {:induction false} LengthIsScore(ss: seq<Snake>)
    requires LengthsOk(ss)
    ensures TotalLength(ss) == 3 * |ss| + TotalScore(ss)
    decreases |ss|
  {
    if ss != [] {
      LengthIsScore(ss[..|ss| - 1]);
    }
  }

  lemma CoveredMember(ss: seq<Snake>, p: Point)
    ensures p in Covered(ss) <==> exists i :: 0 <= i < |ss| && p in ss[i].body
  {
  }

  lemma CoveredFront(ss: seq<Snake>)
    requires ss != []
    ensures Covered(ss) == Covered(ss[..|ss| - 1]) + SetOf(Last(ss).body)
  {
    var front := ss[..|ss| - 1];
    forall p
      ensures p in Covered(ss) <==> p in Covered(front) || p in Last(ss).body
    {
      CoveredMember(ss, p);
      CoveredMember(front, p);
      assert forall i :: 0 <= i < |front| ==> front[i] == ss[i];
      assert p in Covered(ss) ==> exists i :: (0 <= i < |front| && p in front[i].body) || (i == |front| && p in ss[i].body);
    }
  }

  lemma CoveredApart(w: nat, h: nat, ss: seq<Snake>)
    requires ss != [] && BodiesOk(w, h, ss)
    ensures BodiesOk(w, h, ss[..|ss| - 1])
    ensures Covered(ss[..|ss| - 1]) !! SetOf<Point>(Last(ss).body)
  {
    var front := ss[..|ss| - 1];
    forall p | p in Covered(front)
      ensures p !in Last(ss).body
    {
      CoveredMember(front, p);
      var i :| 0 <= i < |front| && p in front[i].body;
      assert p in ss[i].body;
    }
  }

  lemma {:induction false} CoveredCount(w: nat, h: nat, ss: seq<Snake>)
    requires BodiesOk(w, h, ss)
    ensures |Covered(ss)| == TotalLength(ss)
    decreases |ss|
  {
    if ss == [] {
      assert Covered(ss) == {};
    } else {
      CoveredApart(w, h, ss);
      CoveredCount(w, h, ss[..|ss| - 1]);
      NoDupCount<Point>(Last(ss).body);
      CoveredFront(ss);
    }
  }

  lemma CoveredOnBoard(w: nat, h: nat, ss: seq<Snake>)
    requires BodiesOk(w, h, ss)
    ensures Covered(ss) <= Cells(w, h)
  {
    forall p | p in Covered(ss)
      ensures p in Cells(w, h)
    {
      CoveredMember(ss, p);
      assert InBounds(p, w, h);
      assert p == Point(p.x, p.y);
    }
  }

  /** Bodies and fruit fit on the board, and fill it exactly when no cell is free. */
  lemma Pigeonhole(w: nat, h: nat, ss: seq<Snake>, fruit: seq<Point>)
    requires BodiesOk(w, h, ss) && FruitOk(w, h, Covered(ss), fruit)
    ensures TotalLength(ss) + |fruit| <= w * h
    ensures FreeCells(w, h, Covered(ss) + SetOf(fruit)) == [] <==> TotalLength(ss) + |fruit| == w * h
  {
    var taken := Covered(ss) + SetOf(fruit);
    CoveredCount(w, h, ss);
    CoveredOnBoard(w, h, ss);
    NoDupCount(fruit);
    assert Covered(ss) !! SetOf(fruit);
    assert taken <= Cells(w, h);
    CellsCount(w, h);
    SubsetCount(taken, Cells(w, h));
    NoFreeCells(w, h, taken);
  }

  // ---------------------------------------------------------------- one step

  lemma TurnKeepsBodies(ss: seq<Snake>)
    ensures Covered(TurnAll(ss)) == Covered(ss)
    ensures TotalScore(TurnAll(ss)) == TotalScore(ss)
    ensures TotalLength(TurnAll(ss)) == TotalLength(ss)
  {
    var turned := TurnAll(ss);
    assert forall i :: 0 <= i < |ss| ==> turned[i].body == ss[i].body;
    SameTotals(ss, turned);
  }

  lemma {:induction false} SameTotals(a: seq<Snake>, b: seq<Snake>)
    requires |a| == |b|
    requires forall i :: 0 <= i < |a| ==> a[i].body == b[i].body && a[i].score == b[i].score
    ensures TotalScore(a) == TotalScore(b)
    ensures TotalLength(a) == TotalLength(b)
    ensures Covered(a) == Covered(b)
    decreases |a|
  {
    if a != [] {
      SameTotals(a[..|a| - 1], b[..|b| - 1]);
    }
    assert forall p :: p in Covered(a) <==> p in Covered(b);
  }

  ghost function StepAll(w: nat, h: nat, ss: seq<Snake>, fruit: seq<Point>): (r: seq<Snake>)
    ensures |r| == |ss|
    ensures forall i :: 0 <= i < |ss| ==> r[i] == StepSnake(w, h, ss, fruit, i)
  {
    seq(|ss|, i requires 0 <= i < |ss| => StepSnake(w, h, ss, fruit, i))
  }

  lemma MoveAllSnakes(g: Game)
    ensures MoveAll(g).snakes == StepAll(g.width, g.height, TurnAll(g.snakes), g.fruit)
  {
  }

  /** A survivor enters a cell that no body will keep and no other snake enters. */
  lemma SurvivorCell(w: nat, h: nat, ss: seq<Snake>, i: nat, j: nat)
    requires i < |ss| && j < |ss| && Survives(w, h, ss, i)
    ensures InBounds(NextHead(ss[i]).value, w, h)
    ensures j != i ==> NextHead(ss[i]).value !in ss[j].body && NextHead(ss[j]) != NextHead(ss[i])
    ensures NextHead(ss[i]).value in ss[i].body ==> ss[i].grow == 0 && NextHead(ss[i]).value == Last(ss[i].body)
  {
    var p := NextHead(ss[i]).value;
    assert !Hit(ss, i, p) && !HeadOn(ss, i, p);
  }

  lemma StepSnakeBody(w: nat, h: nat, ss: seq<Snake>, fruit: seq<Point>, i: nat)
    requires i < |ss| && BodiesOk(w, h, ss) && LengthsOk(ss) && FruitOk(w, h, Covered(ss), fruit)
    ensures var s := StepSnake(w, h, ss, fruit, i);
            && NoDup<Point>(s.body)
            && |s.body| == 3 + s.score
            && s.grow == 0
            && s.score == ss[i].score + (if Eats(w, h, ss, fruit, i) then 1 else 0)
            && (forall p :: p in s.body ==> p in ss[i].body || (Survives(w, h, ss, i) && p == NextHead(ss[i]).value))
            && (Survives(w, h, ss, i) ==> NextHead(ss[i]).value in s.body)
            && (!Survives(w, h, ss, i) ==> s.body == ss[i].body)
  {
    var before := ss[i];
    var s := StepSnake(w, h, ss, fruit, i);
    if Survives(w, h, ss, i) {
      SurvivorCell(w, h, ss, i, i);
      var p := NextHead(before).value;
      var eats := Eats(w, h, ss, fruit, i);
      if eats {
        assert forall q :: q in before.body ==> q in Covered(ss);
        assert s.body == [p] + before.body;
      } else {
        assert s.body == [p] + before.body[..|before.body| - 1];
        forall k | 0 <= k < |before.body| - 1
          ensures before.body[k] != p
        {
          assert before.body[k] in before.body;
          assert before.body[k] != before.body[|before.body| - 1];
        }
      }
      assert NoDup<Point>(s.body);
    }
  }

  /** Moving keeps the bodies disjoint, on the board, and off the remaining fruit. */
  lemma MoveKeepsPartition(w: nat, h: nat, ss: seq<Snake>, fruit: seq<Point>)
    requires BodiesOk(w, h, ss) && LengthsOk(ss) && FruitOk(w, h, Covered(ss), fruit)
    ensures var moved := StepAll(w, h, ss, fruit);
            && BodiesOk(w, h, moved)
            && LengthsOk(moved)
            && FruitOk(w, h, Covered(moved), Without(fruit, Entered(w, h, ss)))
  {
    var moved := StepAll(w, h, ss, fruit);
    forall i | 0 <= i < |ss|
      ensures NoDup<Point>(moved[i].body) && |moved[i].body| == 3 + moved[i].score && moved[i].grow == 0
      ensures forall p :: p in moved[i].body ==> p in ss[i].body || (Survives(w, h, ss, i) && p == NextHead(ss[i]).value)
    {
      StepSnakeBody(w, h, ss, fruit, i);
    }
    forall i, p | 0 <= i < |moved| && p in moved[i].body
      ensures InBounds(p, w, h)
    {
      if p !in ss[i].body {
        SurvivorCell(w, h, ss, i, i);
      }
    }
    forall i, j | 0 <= i < |moved| && 0 <= j < |moved| && i != j
      ensures forall p :: p in moved[i].body ==> p !in moved[j].body
    {
      if Survives(w, h, ss, i) {
        SurvivorCell(w, h, ss, i, j);
      }
      if Survives(w, h, ss, j) {
        SurvivorCell(w, h, ss, j, i);
      }
    }
    WithoutNoDup(fruit, Entered(w, h, ss));
    forall p | p in Without(fruit, Entered(w, h, ss))
      ensures InBounds(p, w, h) && p !in Covered(moved)
    {
      WithoutMember(fruit, Entered(w, h, ss), p);
      forall i | 0 <= i < |moved|
        ensures p !in moved[i].body
      {
        assert forall q :: q in ss[i].body ==> q in Covered(ss);
      }
      CoveredMember(moved, p);
    }
  }

  ghost function EatersBelow(w: nat, h: nat, ss: seq<Snake>, fruit: seq<Point>, k: nat): set<nat> {
    set i: nat | i < k && i < |ss| && Eats(w, h, ss, fruit, i)
  }

  lemma {:induction false} ScorePerMeal(w: nat, h: nat, ss: seq<Snake>, fruit: seq<Point>, k: nat)
    requires k <= |ss| && BodiesOk(w, h, ss) && LengthsOk(ss) && FruitOk(w, h, Covered(ss), fruit)
    ensures TotalScore(StepAll(w, h, ss, fruit)[..k]) == TotalScore(ss[..k]) + |EatersBelow(w, h, ss, fruit, k)|
    decreases k
  {
    hide BodiesOk, LengthsOk, FruitOk, Covered, StepSnake, Eats;
    var moved := StepAll(w, h, ss, fruit);
    if k == 0 {
      assert EatersBelow(w, h, ss, fruit, k) == {};
    } else {
      ScorePerMeal(w, h, ss, fruit, k - 1);
      StepSnakeBody(w, h, ss, fruit, k - 1);
      ScoreOfPrefix(moved, k);
      ScoreOfPrefix(ss, k);
      EatersGrow(w, h, ss, fruit, k - 1);
    }
  }

  lemma ScoreOfPrefix(ss: seq<Snake>, k: nat)
    requires 0 < k <= |ss|
    ensures TotalScore(ss[..k]) == TotalScore(ss[..k - 1]) + ss[k - 1].score
  {
    assert ss[..k][..k - 1] == ss[..k - 1];
  }

  lemma EatersGrow(w: nat, h: nat, ss: seq<Snake>, fruit: seq<Point>, k: nat)
    requires k < |ss|
    ensures |EatersBelow(w, h, ss, fruit, k + 1)| == |EatersBelow(w, h, ss, fruit, k)| + (if Eats(w, h, ss, fruit, k) then 1 else 0)
  {
    hide Eats;
    var below := EatersBelow(w, h, ss, fruit, k);
    if Eats(w, h, ss, fruit, k) {
      assert EatersBelow(w, h, ss, fruit, k + 1) == below + {k};
    } else {
      assert EatersBelow(w, h, ss, fruit, k + 1) == below;
    }
  }

  /** A fruit disappears only from under the head of a snake that eats it. */
  lemma NothingEaten(w: nat, h: nat, ss: seq<Snake>, fruit: seq<Point>)
    requires Eaters(w, h, ss, fruit) == {}
    ensures forall p :: p in fruit ==> p !in Entered(w, h, ss)
  {
    forall i: nat | i < |ss| && Survives(w, h, ss, i)
      ensures NextHead(ss[i]).value !in fruit
    {
      assert i !in Eaters(w, h, ss, fruit);
    }
  }

  /** The facts about the board that the moves of one step keep. */
  ghost predicate MovedOk(m: Game) {
    && BodiesOk(m.width, m.height, m.snakes)
    && FruitOk(m.width, m.height, Covered(m.snakes), m.fruit)
    && LengthsOk(m.snakes)
    && m.score == TotalScore(m.snakes)
    && |m.fruit| <= m.target
  }

  /** Everything but the fruit count after the moves of one step. */
  lemma MoveAllOk(g: Game)
    requires BoardInv(g)
    ensures MovedOk(MoveAll(g))
    ensures AteAny(g) <==> MoveAll(g).score > g.score
    ensures !AteAny(g) ==> MoveAll(g).fruit == g.fruit && MoveAll(g).score == g.score
  {
    var w, h := g.width, g.height;
    var ss := TurnAll(g.snakes);
    TurnKeepsBodies(g.snakes);
    assert BodiesOk(w, h, ss) && LengthsOk(ss);
    MoveAllPieces(g, ss);
  }

  lemma MoveAllPieces(g: Game, ss: seq<Snake>)
    requires ss == TurnAll(g.snakes) && BodiesOk(g.width, g.height, ss) && LengthsOk(ss)
    requires FruitOk(g.width, g.height, Covered(ss), g.fruit) && g.score == TotalScore(ss) && |g.fruit| <= g.target
    ensures MovedOk(MoveAll(g))
    ensures AteAny(g) <==> MoveAll(g).score > g.score
    ensures !AteAny(g) ==> MoveAll(g).fruit == g.fruit && MoveAll(g).score == g.score
  {
    var w, h := g.width, g.height;
    MoveAllSnakes(g);
    MoveKeepsPartition(w, h, ss, g.fruit);
    MealsOk(w, h, ss, g.fruit);
    assert NoDup(g.fruit);
    hide BodiesOk, LengthsOk, FruitOk, Covered, TotalScore, TurnAll, Without, Entered, Eats;
    WithoutNoDup(g.fruit, Entered(w, h, ss));
    if !AteAny(g) {
      NothingEaten(w, h, ss, g.fruit);
    }
  }

  lemma MealsOk(w: nat, h: nat, ss: seq<Snake>, fruit: seq<Point>)
    requires BodiesOk(w, h, ss) && LengthsOk(ss) && FruitOk(w, h, Covered(ss), fruit)
    ensures TotalScore(StepAll(w, h, ss, fruit)) == TotalScore(ss) + |Eaters(w, h, ss, fruit)|
  {
    ScorePerMeal(w, h, ss, fruit, |ss|);
    var moved := StepAll(w, h, ss, fruit);
    assert ss[..|ss|] == ss && moved[..|ss|] == moved;
    assert EatersBelow(w, h, ss, fruit, |ss|) == Eaters(w, h, ss, fruit);
  }

  lemma FillGameOk(g: Game)
    requires MovedOk(g)
    ensures BoardInv(FillGame(g))
  {
    FillOk(g.width, g.height, Covered(g.snakes), g.fruit, g.target, g.rng);
  }

  lemma AMealNeedsATarget(g: Game)
    requires BoardInv(g) && AteAny(g)
    ensures g.target > 0
  {
    var i :| i in Eaters(g.width, g.height, TurnAll(g.snakes), g.fruit);
    assert g.fruit != [];
  }

  /** After a meal either the board is covered and the game is over, or fruit lies on it:
      the forced second spawn of the server is never needed. */
  lemma RefillOutcome(m: Game)
    requires MovedOk(m) && m.target > 0
    ensures var filled := FillGame(m);
            && BoardInv(filled)
            && (filled.fruit == [] ==> GameFree(filled) == [])
            && Refill(m) == if filled.fruit == [] then Finish(filled, AllApples) else CheckDead(filled)
  {
    FillGameOk(m);
  }

  lemma EndingKeepsBoard(g: Game, reason: EndReason)
    requires BoardInv(g)
    ensures BoardInv(Finish(g, reason)) && BoardInv(CheckDead(g))
  {
  }

  lemma QuietMoveKeepsBoard(g: Game)
    requires BoardInv(g) && !AteAny(g)
    ensures BoardInv(MoveAll(g))
  {
    var m := MoveAll(g);
    MoveAllOk(g);
    Pigeonhole(g.width, g.height, g.snakes, g.fruit);
    Pigeonhole(m.width, m.height, m.snakes, m.fruit);
    LengthIsScore(g.snakes);
    LengthIsScore(m.snakes);
  }

  /** A step keeps the board partition. */
  lemma StepKeepsBoard(g: Game)
    requires BoardInv(g)
    ensures BoardInv(Step(g))
  {
    if g.running && !g.ended {
      var m := MoveAll(g);
      if AteAny(g) {
        MoveAllOk(g);
        AMealNeedsATarget(g);
        RefillOutcome(m);
        EndingKeepsBoard(FillGame(m), AllApples);
      } else {
        QuietMoveKeepsBoard(g);
        EndingKeepsBoard(m, AllDead);
      }
    }
  }
}
