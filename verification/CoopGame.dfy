/** The server's simulation object: the sequential loops of the co-op step, each proved to
    compute the simultaneous rule of `CoopSpec`. */
module CoopGame {
  import opened Prelude
  import opened Grid
  import opened CoopSpec
  import opened CoopBoard
  import opened CoopPath
  import opened CoopRuns

  class CoopGame {
    var width: nat
    var height: nat
    var snakes: seq<Snake>
    var fruit: seq<Point>
    var score: nat
    var tick: nat
    var seqNo: nat
    var running: bool
    var ended: bool
    var endReason: Option<EndReason>
    var speedIndex: nat
    var fruitTarget: nat
    var rng: bv64

    ghost function View(): Game
      reads this
    {
      Game(width, height, snakes, fruit, score, tick, seqNo, running, ended, endReason, speedIndex, fruitTarget, rng)
    }

    ghost predicate Valid()
      reads this
    {
      GameInv(View())
    }

    constructor (seats: seq<Seat>, cfg: Config)
      requires RoomSeats(seats)
      ensures View() == NewGame(seats, cfg)
      ensures Valid()
    {
      var dims := BoardDims(cfg.sizeIndex);
      width, height := dims.0, dims.1;
      snakes, fruit := [], [];
      score, tick, seqNo := 0, 0, 0;
      running, ended, endReason := true, false, None;
      speedIndex := cfg.speedIndex;
      fruitTarget := CountTarget(cfg.countIndex);
      rng := cfg.seed;
      new;
      var n := Min(|seats|, MAX_SNAKES);
      for i := 0 to n
        invariant snakes == NewSnakes(width, height, seats)[..i]
        invariant width == dims.0 && height == dims.1 && fruit == [] && score == tick == seqNo == 0
        invariant running && !ended && endReason == None && rng == cfg.seed
        invariant speedIndex == cfg.speedIndex && fruitTarget == CountTarget(cfg.countIndex)
      {
        snakes := snakes + [SpawnSnake(width, height, n, seats[i], i)];
      }
      assert snakes == NewSnakes(width, height, seats);
      PlantInitialFruit(cfg.countIndex);
      NewGameOk(seats, cfg);
    }

    /** The first key arms the snake; later keys go through the two-slot buffer. */
    method SetInput(client: ClientId, dir: Dir)
      requires Valid()
      modifies this
      ensures View() == CoopSpec.SetInput(old(View()), client, dir)
      ensures Valid()
    {
      hide GameInv;
      InputKeeps(View(), client, dir);
      if ended {
        return;
      }
      var i := Find(client);
      if i == |snakes| || !snakes[i].alive {
        return;
      }
      running := true;
      var s := snakes[i].(started := true);
      snakes := snakes[i := s];
      var facing := if s.pending != [] then s.pending[|s.pending| - 1] else s.dir;
      if dir == Opposite(facing) {
        return;
      }
      if s.pending != [] {
        if s.pending[|s.pending| - 1] == dir {
          return;
        }
      } else if dir == s.dir {
        return;
      }
      if |s.pending| >= 2 {
        snakes := snakes[i := s.(pending := s.pending[|s.pending| - 1 := dir])];
        assert s.pending[|s.pending| - 1 := dir] == s.pending[..|s.pending| - 1] + [dir];
      } else {
        snakes := snakes[i := s.(pending := s.pending + [dir])];
      }
    }

    /** Index of the first snake of `client`, or the list length when there is none. */
    method Find(client: ClientId) returns (i: nat)
      ensures var seat := SeatFrom(snakes, client, 0);
              i == if seat.Some? then seat.value else |snakes|
    {
      i := 0;
      while i < |snakes|
        invariant i <= |snakes|
        invariant SeatFrom(snakes, client, 0) == SeatFrom(snakes, client, i)
      {
        if snakes[i].client == client {
          return;
        }
        i := i + 1;
      }
    }

    /** A seat removed by the room leaves its corpse on the board. */
    method MarkDead(client: ClientId)
      requires Valid()
      modifies this
      ensures View() == Kill(old(View()), client)
      ensures Valid()
    {
      KillKeeps(View(), client);
      var i := Find(client);
      if i < |snakes| {
        snakes := snakes[i := snakes[i].(alive := false)];
      }
    }

    method CellFreeForFruit(p: Point) returns (free: bool)
      ensures free <==> InBounds(p, width, height) && p !in Covered(snakes) + SetOf(fruit)
    {
      CoveredMember(snakes, p);
      if p.x < 0 || p.y < 0 || p.x >= width || p.y >= height {
        return false;
      }
      for i := 0 to |snakes|
        invariant forall k :: 0 <= k < i ==> p !in snakes[k].body
      {
        if p in snakes[i].body {
          return false;
        }
      }
      free := p !in fruit;
    }

    /** Row-major scan for free cells, then one draw. */
    method PickFreeCell() returns (cell: Option<Point>)
      modifies this`rng
      ensures var free := GameFree(old(View()));
              if free == [] then cell == None && rng == old(rng)
              else rng == NextRng(old(rng)) && cell == Some(free[Draw(RngValue(rng), |free|)])
    {
      var free: seq<Point> := [];
      ghost var taken := Covered(snakes) + SetOf(fruit);
      for y := 0 to height
        invariant rng == old(rng)
        invariant free == FreeCells(width, y, taken)
      {
        for x := 0 to width
          invariant rng == old(rng)
          invariant free == FreeCells(width, y, taken) + FreeRow(x, y, taken)
        {
          var ok := CellFreeForFruit(Point(x, y));
          if ok {
            free := free + [Point(x, y)];
          }
        }
      }
      if free == [] {
        return None;
      }
      rng := NextRng(rng);
      return Some(free[Draw(RngValue(rng), |free|)]);
    }

    method SpawnOneFruit() returns (spawned: bool)
      modifies this`rng, this`fruit
      ensures View() == SpawnGame(old(View()))
      ensures spawned <==> |fruit| == old(|fruit|) + 1
      ensures !spawned <==> fruit == old(fruit)
    {
      var cell := PickFreeCell();
      if cell.Some? {
        fruit := fruit + [cell.value];
        spawned := true;
      } else {
        spawned := false;
      }
    }

    method FillFruitToTarget()
      modifies this`rng, this`fruit
      ensures View() == FillGame(old(View()))
    {
      while |fruit| < fruitTarget
        invariant FillGame(View()) == FillGame(old(View()))
        invariant View() == old(View()).(fruit := fruit, rng := rng)
        decreases fruitTarget - |fruit|
      {
        var spawned := SpawnOneFruit();
        if !spawned {
          break;
        }
      }
    }

    /** Stock apples where they fit, then fill to the target. */
    method PlantInitialFruit(countIndex: nat)
      modifies this`rng, this`fruit
      ensures View() == FillGame(old(View()).(fruit := Plant(width, height, Covered(snakes), StockFruit(width, height, countIndex))))
    {
      fruit := [];
      var stock := StockFruit(width, height, countIndex);
      for i := 0 to |stock|
        invariant fruit == Plant(width, height, Covered(snakes), stock[..i])
        invariant View() == old(View()).(fruit := fruit)
      {
        assert stock[..i + 1][..i] == stock[..i];
        var ok := CellFreeForFruit(stock[i]);
        if ok {
          fruit := fruit + [stock[i]];
        }
      }
      assert stock[..|stock|] == stock;
      FillFruitToTarget();
    }

    method EndAllApples()
      modifies this`ended, this`running, this`endReason
      ensures View() == Finish(old(View()), AllApples)
    {
      ended, running, endReason := true, false, Some(AllApples);
    }

    method EndAllDead()
      modifies this`ended, this`running, this`endReason
      ensures View() == Finish(old(View()), AllDead)
    {
      ended, running, endReason := true, false, Some(AllDead);
    }

    // ---------------------------------------------------------------- one step

    /** Advance the simulation by one step. */
    method Step()
      requires Valid()
      modifies this
      ensures View() == CoopSpec.Step(old(View()))
      ensures Valid()
    {
      ghost var before := View();
      StepLoops();
      StepKeepsBoard(before);
      StepKeepsPath(before);
    }

    method StepLoops()
      requires NoDup(fruit)
      modifies this
      ensures View() == CoopSpec.Step(old(View()))
    {
      if !running || ended {
        return;
      }
      ghost var before := View();
      var ateAny := MoveSnakes();
      tick := tick + 1;
      seqNo := seqNo + 1;
      assert View() == MoveAll(before);
      if ateAny {
        var done := RefillAfterMeal();
        if done {
          return;
        }
      }
      if forall i :: 0 <= i < |snakes| ==> !snakes[i].alive {
        EndAllDead();
      }
    }

    /** Turns, collisions and meals of one step. */
    method MoveSnakes() returns (ateAny: bool)
      requires NoDup(fruit)
      modifies this`snakes, this`fruit, this`score
      ensures View() == MoveAll(old(View())).(tick := tick, seqNo := seqNo)
      ensures ateAny <==> AteAny(old(View()))
    {
      PopTurns();
      ghost var ss := snakes;
      var newHeads: seq<Option<Point>> := [];
      for i := 0 to |snakes|
        invariant newHeads == NextHeads(ss)[..i]
        invariant snakes == ss && fruit == old(fruit) && score == old(score)
      {
        newHeads := newHeads + [NextHead(snakes[i])];
      }
      MarkCollisions(newHeads);
      ateAny := MoveAndEat(newHeads, ss);
      assert snakes == StepAll(width, height, ss, old(fruit));
      assert EatersBelow(width, height, ss, old(fruit), |ss|) == Eaters(width, height, ss, old(fruit));
      EnteredIsBelow(width, height, ss);
    }

    method PopTurns()
      modifies this`snakes
      ensures snakes == TurnAll(old(snakes))
    {
      for i := 0 to |snakes|
        invariant |snakes| == |old(snakes)|
        invariant forall k :: 0 <= k < i ==> snakes[k] == Turn(old(snakes)[k])
        invariant forall k :: i <= k < |snakes| ==> snakes[k] == old(snakes)[k]
      {
        var s := snakes[i];
        if s.pending != [] {
          var d := s.pending[0];
          s := s.(pending := s.pending[1..]);
          if d != Opposite(s.dir) {
            s := s.(dir := d);
          }
          snakes := snakes[i := s];
        }
      }
    }

    /** Every body cell with the index of its snake. */
    method AllBodies() returns (cells: seq<(nat, Point)>)
      ensures Listed(snakes, cells)
    {
      cells := [];
      for i := 0 to |snakes|
        invariant forall j: nat, p :: (j, p) in cells <==> j < i && p in snakes[j].body
      {
        var body := snakes[i].body;
        for b := 0 to |body|
          invariant forall j: nat, p :: (j, p) in cells <==> (j < i && p in snakes[j].body) || (j == i && p in body[..b])
        {
          cells := cells + [(i, body[b])];
          assert body[..b + 1] == body[..b] + [body[b]];
        }
        assert body[..|body|] == body;
      }
    }

    /** Kill every mover whose next head leaves the board, hits a body or meets another head. */
    method MarkCollisions(newHeads: seq<Option<Point>>)
      requires newHeads == NextHeads(snakes)
      modifies this`snakes
      ensures |snakes| == |old(snakes)|
      ensures forall k :: 0 <= k < |snakes| ==>
                snakes[k] == Marked(width, height, old(snakes), k)
    {
      ghost var ss := snakes;
      var allBodies := AllBodies();
      for i := 0 to |newHeads|
        invariant |snakes| == |ss|
        invariant forall k :: 0 <= k < i ==>
                    snakes[k] == Marked(width, height, ss, k)
        invariant forall k :: i <= k < |ss| ==> snakes[k] == ss[k]
      {
        if newHeads[i].None? {
          continue;
        }
        var nh := newHeads[i].value;
        var s := snakes[i];
        if nh.x < 0 || nh.y < 0 || nh.x >= width || nh.y >= height {
          snakes := snakes[i := s.(alive := false)];
          continue;
        }
        var hit := exists c | c in allBodies :: c.1 == nh && !(c.0 == i && s.grow == 0 && s.body[|s.body| - 1] == nh);
        var headOn := exists j | 0 <= j < |newHeads| :: j != i && newHeads[j] == Some(nh);
        HitIsListed(ss, i, nh, allBodies);
        if hit || headOn {
          snakes := snakes[i := s.(alive := false)];
        }
      }
    }

    /** Move the survivors; each eats the fruit under its new head, if any. */
    method MoveAndEat(newHeads: seq<Option<Point>>, ghost ss: seq<Snake>) returns (ateAny: bool)
      requires |snakes| == |ss| && newHeads == NextHeads(ss)
      requires forall k :: 0 <= k < |ss| ==>
                 snakes[k] == Marked(width, height, ss, k)
      requires NoDup(fruit)
      modifies this`snakes, this`fruit, this`score
      ensures |snakes| == |ss|
      ensures forall k :: 0 <= k < |ss| ==> snakes[k] == StepSnake(width, height, ss, old(fruit), k)
      ensures fruit == Without(old(fruit), EnteredBelow(width, height, ss, |ss|))
      ensures score == old(score) + |EatersBelow(width, height, ss, old(fruit), |ss|)|
      ensures ateAny <==> EatersBelow(width, height, ss, old(fruit), |ss|) != {}
    {
      ghost var f0, score0 := fruit, score;
      ateAny := false;
      NoProgressYet(width, height, ss, f0, score0, snakes);
      for i := 0 to |newHeads|
        invariant Progress(width, height, ss, f0, score0, i, snakes, fruit, score, ateAny)
      {
        if !snakes[i].alive {
          ProgressSkips(width, height, ss, f0, score0, i, snakes, fruit, score, ateAny);
          continue;
        }
        if newHeads[i].None? {
          ProgressSkips(width, height, ss, f0, score0, i, snakes, fruit, score, ateAny);
          continue;
        }
        ghost var snakes0, fruit0, scoreBefore, ateBefore := snakes, fruit, score, ateAny;
        var nh := newHeads[i].value;
        HeadIsNew(width, height, ss, f0, i);
        var ate := MoveOne(i, nh);
        ateAny := ateAny || ate;
        ProgressMoves(width, height, ss, f0, score0, i, snakes0, fruit0, scoreBefore, ateBefore);
      }
    }

    /** Move snake `i` onto `nh`, eating the fruit there, if any. */
    method MoveOne(i: nat, nh: Point) returns (ate: bool)
      requires i < |snakes| && NoDup(fruit)
      modifies this`snakes, this`fruit, this`score
      ensures ate <==> nh in old(fruit)
      ensures snakes == old(snakes)[i := Advance(old(snakes)[i], nh, ate)]
      ensures fruit == if ate then Without(old(fruit), {nh}) else old(fruit)
      ensures score == old(score) + if ate then 1 else 0
    {
      var fruitIdx := FruitAt(nh);
      var s := snakes[i];
      var longer: Body := [nh] + s.body;
      s := s.(body := longer);
      ate := fruitIdx < |fruit|;
      if ate {
        RemoveAtIsWithout(fruit, fruitIdx);
        fruit := fruit[..fruitIdx] + fruit[fruitIdx + 1..];
        s := s.(grow := s.grow + 1, score := s.score + 1);
        score := score + 1;
      }
      if s.grow > 0 {
        s := s.(grow := s.grow - 1);
      } else if |s.body| > 1 {
        s := s.(body := s.body[..|s.body| - 1]);
      }
      snakes := snakes[i := s];
    }

    /** Index of the first fruit on `p`, or the number of fruit when there is none. */
    method FruitAt(p: Point) returns (k: nat)
      ensures k <= |fruit|
      ensures k < |fruit| ==> fruit[k] == p
      ensures k == |fruit| <==> p !in fruit
    {
      k := 0;
      while k < |fruit|
        invariant k <= |fruit|
        invariant p !in fruit[..k]
      {
        if fruit[k] == p {
          return;
        }
        k := k + 1;
      }
    }

    /** Refill after a meal; true when the board has run out of apples. */
    method RefillAfterMeal() returns (done: bool)
      modifies this`fruit, this`rng, this`ended, this`running, this`endReason
      ensures if done then View() == Refill(old(View())) else CheckDead(View()) == Refill(old(View()))
    {
      FillFruitToTarget();
      if fruit == [] {
        var probe := PickFreeCell();
        if probe.None? {
          EndAllApples();
          return true;
        }
        var _ := SpawnOneFruit();
        // A free cell was found, so this spawn succeeded and no second probe is needed.
        assert fruit != [];
      }
      return false;
    }
  }

  // ---------------------------------------------------------------- lemmas of the loops

  /** Where every snake is about to put its head. */
  function NextHeads(ss: seq<Snake>): (r: seq<Option<Point>>)
    ensures |r| == |ss|
    ensures forall i :: 0 <= i < |ss| ==> r[i] == NextHead(ss[i])
  {
    seq(|ss|, i requires 0 <= i < |ss| => NextHead(ss[i]))
  }

  ghost predicate Listed(ss: seq<Snake>, cells: seq<(nat, Point)>) {
    forall j: nat, p :: (j, p) in cells <==> j < |ss| && p in ss[j].body
  }

  ghost function EnteredBelow(w: nat, h: nat, ss: seq<Snake>, k: nat): set<Point> {
    set i | 0 <= i < |ss| && i < k && Survives(w, h, ss, i) :: NextHead(ss[i]).value
  }

  lemma EnteredIsBelow(w: nat, h: nat, ss: seq<Snake>)
    ensures EnteredBelow(w, h, ss, |ss|) == Entered(w, h, ss)
  {
  }

  lemma HitIsListed(ss: seq<Snake>, i: nat, nh: Point, cells: seq<(nat, Point)>)
    requires i < |ss| && Listed(ss, cells)
    ensures Hit(ss, i, nh) <==>
            exists c :: c in cells && c.1 == nh && !(c.0 == i && ss[i].grow == 0 && ss[i].body[|ss[i].body| - 1] == nh)
  {
    if Hit(ss, i, nh) {
      var j :| 0 <= j < |ss| && nh in ss[j].body && !(j == i && ss[i].grow == 0 && nh == Last(ss[i].body));
      assert (j, nh) in cells;
    }
    if c :| c in cells && c.1 == nh && !(c.0 == i && ss[i].grow == 0 && ss[i].body[|ss[i].body| - 1] == nh) {
      assert (c.0, nh) in cells;
    }
  }

  /** A survivor's new head is not yet under any earlier survivor. */
  lemma HeadIsNew(w: nat, h: nat, ss: seq<Snake>, fruit: seq<Point>, i: nat)
    requires i < |ss| && NoDup(fruit)
    ensures Survives(w, h, ss, i) ==> NextHead(ss[i]).value !in EnteredBelow(w, h, ss, i)
    ensures NoDup(Without(fruit, EnteredBelow(w, h, ss, i)))
  {
    WithoutNoDup(fruit, EnteredBelow(w, h, ss, i));
    if Survives(w, h, ss, i) {
      forall j | 0 <= j < i && Survives(w, h, ss, j)
        ensures NextHead(ss[j]).value != NextHead(ss[i]).value
      {
        SurvivorCell(w, h, ss, i, j);
      }
    }
  }

  lemma BelowGrows(w: nat, h: nat, ss: seq<Snake>, fruit: seq<Point>, i: nat)
    requires i < |ss|
    ensures EnteredBelow(w, h, ss, i + 1) ==
            EnteredBelow(w, h, ss, i) + (if Survives(w, h, ss, i) then {NextHead(ss[i]).value} else {})
    ensures EatersBelow(w, h, ss, fruit, i + 1) ==
            EatersBelow(w, h, ss, fruit, i) + (if Eats(w, h, ss, fruit, i) then {i} else {})
  {
  }

  /** Snake `k` before the eating loop reaches it. */
  ghost function Marked(w: nat, h: nat, ss: seq<Snake>, k: nat): Snake
    requires k < |ss|
  {
    if Dies(w, h, ss, k) then ss[k].(alive := false) else ss[k]
  }

  /** What the eating loop has done after `i` snakes. */
  ghost predicate Progress(w: nat, h: nat, ss: seq<Snake>, f0: seq<Point>, score0: nat, i: nat,
                           now: seq<Snake>, fruit: seq<Point>, score: nat, ate: bool)
  {
    && |now| == |ss|
    && (forall k :: 0 <= k < |ss| ==> now[k] == if k < i then StepSnake(w, h, ss, f0, k) else Marked(w, h, ss, k))
    && fruit == Without(f0, EnteredBelow(w, h, ss, i))
    && score == score0 + |EatersBelow(w, h, ss, f0, i)|
    && (ate <==> EatersBelow(w, h, ss, f0, i) != {})
  }

  lemma NoProgressYet(w: nat, h: nat, ss: seq<Snake>, f0: seq<Point>, score0: nat, now: seq<Snake>)
    requires |now| == |ss| && forall k :: 0 <= k < |ss| ==> now[k] == Marked(w, h, ss, k)
    ensures Progress(w, h, ss, f0, score0, 0, now, f0, score0, false)
  {
    WithoutNothing(f0);
    assert EnteredBelow(w, h, ss, 0) == {};
    assert EatersBelow(w, h, ss, f0, 0) == {};
  }

  lemma ProgressSkips(w: nat, h: nat, ss: seq<Snake>, f0: seq<Point>, score0: nat, i: nat,
                      now: seq<Snake>, fruit: seq<Point>, score: nat, ate: bool)
    requires i < |ss| && !Survives(w, h, ss, i)
    requires Progress(w, h, ss, f0, score0, i, now, fruit, score, ate)
    ensures Progress(w, h, ss, f0, score0, i + 1, now, fruit, score, ate)
  {
    BelowGrows(w, h, ss, f0, i);
  }

  lemma ProgressMoves(w: nat, h: nat, ss: seq<Snake>, f0: seq<Point>, score0: nat, i: nat,
                      now: seq<Snake>, fruit: seq<Point>, score: nat, ate: bool)
    requires i < |ss| && Survives(w, h, ss, i) && NoDup(f0)
    requires Progress(w, h, ss, f0, score0, i, now, fruit, score, ate)
    ensures var nh := NextHead(ss[i]).value;
            var eats := nh in fruit;
            Progress(w, h, ss, f0, score0, i + 1, now[i := Advance(now[i], nh, eats)],
                     if eats then Without(fruit, {nh}) else fruit,
                     score + (if eats then 1 else 0), ate || eats)
  {
    var nh := NextHead(ss[i]).value;
    BelowGrows(w, h, ss, f0, i);
    HeadIsNew(w, h, ss, f0, i);
    WithoutOneMore(f0, EnteredBelow(w, h, ss, i), nh);
    assert Eats(w, h, ss, f0, i) <==> nh in fruit;
  }

  lemma {:induction false} WithoutNothing(fruit: seq<Point>)
    ensures Without(fruit, {}) == fruit
    decreases |fruit|
  {
    if fruit != [] {
      WithoutNothing(fruit[..|fruit| - 1]);
    }
  }

  /** Removing one more cell from what is left, and what that leaves alone. */
  lemma {:induction false} WithoutOneMore(fruit: seq<Point>, gone: set<Point>, p: Point)
    ensures Without(fruit, gone + {p}) == Without(Without(fruit, gone), {p})
    ensures p !in Without(fruit, gone) ==> Without(fruit, gone + {p}) == Without(fruit, gone)
    ensures p in Without(fruit, gone) <==> p in fruit && p !in gone
    decreases |fruit|
  {
    WithoutMember(fruit, gone, p);
    if fruit != [] {
      var front := fruit[..|fruit| - 1];
      WithoutOneMore(front, gone, p);
      var rest := Without(front, gone);
      var whole := Without(fruit, gone);
      if Last(fruit) !in gone {
        assert whole == rest + [Last(fruit)];
        assert whole[..|whole| - 1] == rest && Last(whole) == Last(fruit);
      } else {
        assert whole == rest;
      }
    }
  }

  lemma {:induction false} RemoveAtIsWithout(fruit: seq<Point>, k: nat)
    requires NoDup(fruit) && k < |fruit|
    ensures fruit[..k] + fruit[k + 1..] == Without(fruit, {fruit[k]})
    decreases |fruit|
  {
    var front := fruit[..|fruit| - 1];
    if k == |fruit| - 1 {
      WithoutNoDup(front, {fruit[k]});
      assert fruit[..k] + fruit[k + 1..] == front;
    } else {
      RemoveAtIsWithout(front, k);
      assert fruit[..k] + fruit[k + 1..] == front[..k] + front[k + 1..] + [Last(fruit)];
    }
  }
}
