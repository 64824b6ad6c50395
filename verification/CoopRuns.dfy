/** Whole games: every sequence of key presses, steps and seat removals from a fresh board. */
module CoopRuns {
  import opened Prelude
  import opened Grid
  import opened CoopSpec
  import opened CoopBoard
  import opened CoopPath

  datatype Event = Key(client: ClientId, dir: Dir) | StepEvent | KillSeat(client: ClientId)

  ghost function Exec(g: Game, e: Event): Game {
    match e
    case Key(c, d) => SetInput(g, c, d)
    case StepEvent => Step(g)
    case KillSeat(c) => Kill(g, c)
  }

  ghost function Run(g: Game, es: seq<Event>): Game {
    if es == [] then g else Exec(Run(g, es[..|es| - 1]), Last(es))
  }

  ghost predicate GameInv(g: Game) {
    BoardInv(g) && PathInv(g)
  }

  // ---------------------------------------------------------------- invariants of every event

  lemma OneSnakeKeeps(g: Game, i: nat, s: Snake)
    requires GameInv(g) && i < |g.snakes|
    requires s.body == g.snakes[i].body && s.score == g.snakes[i].score && s.grow == g.snakes[i].grow
    requires SnakePath(s)
    ensures GameInv(g.(snakes := g.snakes[i := s]))
  {
    var ss := g.snakes[i := s];
    SameTotals(g.snakes, ss);
    assert forall k :: 0 <= k < |ss| ==> ss[k].body == g.snakes[k].body;
  }

  lemma InputKeeps(g: Game, c: ClientId, d: Dir)
    requires GameInv(g)
    ensures GameInv(SetInput(g, c, d))
  {
    var seat := SeatFrom(g.snakes, c, 0);
    if seat.Some? && !g.ended && g.snakes[seat.value].alive {
      OneSnakeKeeps(g, seat.value, Press(g.snakes[seat.value], d));
    }
  }

  lemma KillKeeps(g: Game, c: ClientId)
    requires GameInv(g)
    ensures GameInv(Kill(g, c))
  {
    var seat := SeatFrom(g.snakes, c, 0);
    if seat.Some? {
      OneSnakeKeeps(g, seat.value, g.snakes[seat.value].(alive := false));
    }
  }

  lemma ExecKeeps(g: Game, e: Event)
    requires GameInv(g)
    ensures GameInv(Exec(g, e))
  {
    match e
    case Key(c, d) => InputKeeps(g, c, d);
    case StepEvent =>
      StepKeepsBoard(g);
      StepKeepsPath(g);
    case KillSeat(c) => KillKeeps(g, c);
  }

  /** The partition and the paths hold after any sequence of events. */
  lemma {:induction false} RunKeeps(g: Game, es: seq<Event>)
    requires GameInv(g)
    ensures GameInv(Run(g, es))
    decreases |es|
  {
    if es != [] {
      RunKeeps(g, es[..|es| - 1]);
      ExecKeeps(Run(g, es[..|es| - 1]), Last(es));
    }
  }

  // ---------------------------------------------------------------- the fresh game

  /** The seats the room hands over: at most four, numbered in order. */
  predicate RoomSeats(seats: seq<Seat>) {
    |seats| <= MAX_SNAKES && forall i :: 0 <= i < |seats| ==> seats[i].slot == i
  }

  lemma SpawnRowsApart(sizeIndex: nat, n: nat, i: nat, j: nat)
    requires n <= MAX_SNAKES && i < n && j < n
    ensures var h := BoardDims(sizeIndex).1;
            && 0 <= SpawnRow(h, n, i, i) < h
            && (i != j ==> SpawnRow(h, n, i, i) != SpawnRow(h, n, j, j))
  {
  }

  /** Every snake starts in the middle of its row, three cells long and facing right, the rows spread
      about the middle of the board by the number of snakes. */
  lemma SpawnPlaces(seats: seq<Seat>, sizeIndex: nat, i: nat)
    requires RoomSeats(seats) && i < |seats|
    ensures var (w, h) := BoardDims(sizeIndex);
            var ss := NewSnakes(w, h, seats);
            var row := h / 2 + (match |seats| {
              case 1 => 0
              case 2 => if i == 0 then -1 else 1
              case 3 => if i == 0 then 0 else if i == 1 then 2 else -2
              case _ => if i == 0 then -1 else if i == 1 then 1 else if i == 2 then 2 else -2
            });
            && |ss| == |seats|
            && ss[i] == Snake(seats[i].client, i, seats[i].color, [Point(w / 2, row), Point(w / 2 - 1, row), Point(w / 2 - 2, row)],
                              Right, [], true, 0, 0, false)
  {
  }

  lemma FreshSnake(seats: seq<Seat>, sizeIndex: nat, i: nat)
    requires RoomSeats(seats) && i < |seats|
    ensures var (w, h) := BoardDims(sizeIndex);
            var s := SpawnSnake(w, h, |seats|, seats[i], i);
            && s.score == 0 && s.grow == 0 && |s.body| == 3 && SnakePath(s) && NoDup<Point>(s.body)
            && forall p :: p in s.body ==> InBounds(p, w, h) && p.y == SpawnRow(h, |seats|, i, i)
  {
    SpawnRowsApart(sizeIndex, |seats|, i, i);
    hide SpawnRow;
  }

  lemma FreshSnakes(seats: seq<Seat>, sizeIndex: nat)
    requires RoomSeats(seats)
    ensures var (w, h) := BoardDims(sizeIndex);
            var ss := NewSnakes(w, h, seats);
            && |ss| == |seats|
            && BodiesOk(w, h, ss)
            && LengthsOk(ss)
            && TotalScore(ss) == 0
            && forall i :: 0 <= i < |ss| ==> SnakePath(ss[i])
  {
    var (w, h) := BoardDims(sizeIndex);
    var ss := NewSnakes(w, h, seats);
    var n := |seats|;
    hide SpawnRow, SpawnSnake, SnakePath, BoardDims;
    forall i | 0 <= i < n
      ensures ss[i] == SpawnSnake(w, h, n, seats[i], i)
      ensures ss[i].score == 0 && ss[i].grow == 0 && |ss[i].body| == 3 && SnakePath(ss[i]) && NoDup<Point>(ss[i].body)
      ensures forall p :: p in ss[i].body ==> InBounds(p, w, h) && p.y == SpawnRow(h, n, i, i)
    {
      FreshSnake(seats, sizeIndex, i);
    }
    forall i, j | 0 <= i < n && 0 <= j < n && i != j
      ensures SpawnRow(h, n, i, i) != SpawnRow(h, n, j, j)
    {
      SpawnRowsApart(sizeIndex, n, i, j);
    }
    NoScoreYet(ss);
  }

  lemma {:induction false} NoScoreYet(ss: seq<Snake>)
    requires forall i :: 0 <= i < |ss| ==> ss[i].score == 0
    ensures TotalScore(ss) == 0
    decreases |ss|
  {
    if ss != [] {
      NoScoreYet(ss[..|ss| - 1]);
    }
  }

  lemma {:induction false} PlantOk(w: nat, h: nat, bodies: set<Point>, stock: seq<Point>)
    ensures FruitOk(w, h, bodies, Plant(w, h, bodies, stock))
    ensures |Plant(w, h, bodies, stock)| <= |stock|
    decreases |stock|
  {
    if stock != [] {
      PlantOk(w, h, bodies, stock[..|stock| - 1]);
    }
  }

  lemma StockFits(w: nat, h: nat, countIndex: nat)
    ensures |StockFruit(w, h, countIndex)| <= CountTarget(countIndex)
    ensures CountTarget(countIndex) > 0
  {
  }

  /** The board before the first fill: bodies and the stock apples that fit. */
  function Planted(seats: seq<Seat>, cfg: Config): Game {
    var (w, h) := BoardDims(cfg.sizeIndex);
    var snakes := NewSnakes(w, h, seats);
    Game(w, h, snakes, Plant(w, h, Covered(snakes), StockFruit(w, h, cfg.countIndex)), 0, 0, 0, true, false, None,
         cfg.speedIndex, CountTarget(cfg.countIndex), cfg.seed)
  }

  lemma PlantedOk(seats: seq<Seat>, cfg: Config)
    requires RoomSeats(seats)
    ensures var g := Planted(seats, cfg);
            && MovedOk(g) && PathInv(g) && |g.snakes| == |seats| && g.target > 0
            && 3 * |seats| < g.width * g.height
  {
    var (w, h) := BoardDims(cfg.sizeIndex);
    var snakes := NewSnakes(w, h, seats);
    FreshSnakes(seats, cfg.sizeIndex);
    StockFits(w, h, cfg.countIndex);
    PlantOk(w, h, Covered(snakes), StockFruit(w, h, cfg.countIndex));
    hide StockFruit, NewSnakes, Plant, SnakePath, FruitOk, BodiesOk, LengthsOk, TotalScore, CountTarget;
  }

  lemma NewSeats(seats: seq<Seat>, cfg: Config)
    requires RoomSeats(seats)
    ensures var g := Planted(seats, cfg);
            && NewGame(seats, cfg) == FillGame(g)
            && g.score == 0 && g.tick == 0 && g.running && !g.ended && g.reason == None && g.speedIndex == cfg.speedIndex
            && |g.snakes| == |seats|
            && forall i :: 0 <= i < |seats| ==> g.snakes[i].client == seats[i].client && g.snakes[i].alive && !g.snakes[i].started
  {
    hide Plant, StockFruit, Fill, SpawnRow, Covered;
  }

  predicate FreshGame(g: Game, seats: seq<Seat>) {
    && g.score == 0 && g.tick == 0 && g.running && !g.ended && g.reason == None
    && g.fruit != [] && g.target > 0
    && |g.snakes| == |seats|
    && forall i :: 0 <= i < |seats| ==> g.snakes[i].client == seats[i].client && g.snakes[i].alive && !g.snakes[i].started
  }

  /** A fresh game satisfies the invariants, has fruit, and has no score. */
  lemma NewGameOk(seats: seq<Seat>, cfg: Config)
    requires RoomSeats(seats)
    ensures var g := NewGame(seats, cfg);
            && GameInv(g)
            && FreshGame(g, seats)
            && 3 * |seats| < g.width * g.height
            && g.speedIndex == cfg.speedIndex
  {
    NewSeats(seats, cfg);
    hide BodiesOk, FruitOk, Covered, Fill, TotalScore, Planted, NewGame, TotalLength;
    var g0 := Planted(seats, cfg);
    PlantedOk(seats, cfg);
    FillGameOk(g0);
    var g := FillGame(g0);
    Pigeonhole(g.width, g.height, g.snakes, g.fruit);
    LengthIsScore(g.snakes);
  }

  // ---------------------------------------------------------------- apple accounting

  /** The score at which bodies cover the whole board. */
  function GoalScore(g: Game): int {
    g.width * g.height - 3 * |g.snakes|
  }

  ghost predicate Accounted(g: Game) {
    && GameInv(g)
    && g.target > 0
    && g.ended == g.reason.Some?
    && (g.reason == Some(AllApples) ==> g.fruit == [] && GameFree(g) == [])
    && (g.reason != Some(AllApples) ==> g.fruit != [])
  }

  lemma OneSnakeAccounted(g: Game, i: nat, s: Snake)
    requires Accounted(g) && i < |g.snakes|
    requires s.body == g.snakes[i].body && s.score == g.snakes[i].score && s.grow == g.snakes[i].grow
    requires SnakePath(s)
    ensures Accounted(g.(snakes := g.snakes[i := s]))
  {
    OneSnakeKeeps(g, i, s);
    SameTotals(g.snakes, g.snakes[i := s]);
  }

  lemma StepAccounted(g: Game)
    requires Accounted(g)
    ensures Accounted(Step(g))
    ensures GoalScore(Step(g)) == GoalScore(g)
  {
    ExecKeeps(g, StepEvent);
    StepSnakesAre(g);
    MoveAllOk(g);
    if AteAny(g) {
      RefillOutcome(MoveAll(g));
    }
  }

  lemma ExecAccounted(g: Game, e: Event)
    requires Accounted(g)
    ensures Accounted(Exec(g, e))
    ensures GoalScore(Exec(g, e)) == GoalScore(g)
  {
    match e
    case StepEvent => StepAccounted(g);
    case Key(c, d) =>
      var seat := SeatFrom(g.snakes, c, 0);
      if seat.Some? {
        OneSnakeAccounted(g, seat.value, Press(g.snakes[seat.value], d));
      }
    case KillSeat(c) =>
      var seat := SeatFrom(g.snakes, c, 0);
      if seat.Some? {
        OneSnakeAccounted(g, seat.value, g.snakes[seat.value].(alive := false));
      }
  }

  lemma {:induction false} RunAccounted(g: Game, es: seq<Event>)
    requires Accounted(g)
    ensures Accounted(Run(g, es))
    ensures GoalScore(Run(g, es)) == GoalScore(g)
    decreases |es|
  {
    if es != [] {
      RunAccounted(g, es[..|es| - 1]);
      ExecAccounted(Run(g, es[..|es| - 1]), Last(es));
    }
  }

  lemma AccountedScore(g: Game)
    requires Accounted(g)
    ensures g.score <= GoalScore(g)
    ensures g.reason == Some(AllApples) <==> g.score == GoalScore(g)
  {
    Pigeonhole(g.width, g.height, g.snakes, g.fruit);
    LengthIsScore(g.snakes);
  }

  /** Over every run, the total score never passes W*H - 3n, and the game is declared
      finished for lack of apples exactly when the score has reached it. */
  lemma ApplesRunOutExactlyAtGoal(seats: seq<Seat>, cfg: Config, es: seq<Event>)
    requires RoomSeats(seats)
    ensures var g := Run(NewGame(seats, cfg), es);
            && g.score <= g.width * g.height - 3 * |seats|
            && (g.reason == Some(AllApples) <==> g.score == g.width * g.height - 3 * |seats|)
  {
    NewGameOk(seats, cfg);
    RunAccounted(NewGame(seats, cfg), es);
    RunSeats(NewGame(seats, cfg), es);
    AccountedScore(Run(NewGame(seats, cfg), es));
  }

  /** The step that ends a game with ALL_APPLES is the step in which a meal reaches the goal. */
  lemma AllApplesIsTheLastMeal(g: Game)
    requires Accounted(g) && !g.ended
    ensures Step(g).reason == Some(AllApples) <==> AteAny(g) && g.running && Step(g).score == GoalScore(g)
  {
    ExecAccounted(g, StepEvent);
    AccountedScore(g);
    AccountedScore(Exec(g, StepEvent));
    MoveAllOk(g);
  }

  /** Bodies, corpses and fruit partition the board over every run, and paths stay unbroken. */
  lemma EveryRunKeepsTheBoard(seats: seq<Seat>, cfg: Config, es: seq<Event>)
    requires RoomSeats(seats)
    ensures BoardInv(Run(NewGame(seats, cfg), es)) && PathInv(Run(NewGame(seats, cfg), es))
  {
    NewGameOk(seats, cfg);
    RunKeeps(NewGame(seats, cfg), es);
  }

  predicate SameSeats(a: seq<Snake>, b: seq<Snake>) {
    |a| == |b| && forall i :: 0 <= i < |a| ==> a[i].client == b[i].client
  }

  lemma MoveSeats(g: Game)
    ensures SameSeats(MoveAll(g).snakes, g.snakes)
  {
  }

  lemma ExecSeats(g: Game, e: Event)
    ensures SameSeats(Exec(g, e).snakes, g.snakes)
    ensures Exec(g, e).width == g.width && Exec(g, e).height == g.height
  {
    match e
    case StepEvent =>
      StepSnakesAre(g);
      MoveSeats(g);
    case Key(c, d) =>
      assert SameSeats(SetInput(g, c, d).snakes, g.snakes);
    case KillSeat(c) =>
      assert SameSeats(Kill(g, c).snakes, g.snakes);
  }

  lemma {:induction false} RunSeats(g: Game, es: seq<Event>)
    ensures SameSeats(Run(g, es).snakes, g.snakes)
    ensures Run(g, es).width == g.width && Run(g, es).height == g.height
    decreases |es|
  {
    if es != [] {
      RunSeats(g, es[..|es| - 1]);
      ExecSeats(Run(g, es[..|es| - 1]), Last(es));
    }
  }

  // ---------------------------------------------------------------- idle until own key

  /** Snake `i` as it was, apart from the heading and buffer that only a key can change. */
  lemma IdleExec(g: Game, e: Event, i: nat)
    requires i < |g.snakes| && !g.snakes[i].started && g.snakes[i].pending == [] && g.snakes[i].alive
    requires e.StepEvent? || e.client != g.snakes[i].client
    ensures |Exec(g, e).snakes| == |g.snakes| && Exec(g, e).snakes[i] == g.snakes[i]
    ensures Exec(g, e).reason == Some(AllDead) ==> g.reason == Some(AllDead)
  {
    if e == StepEvent {
      StepSnakesAre(g);
      var ss := TurnAll(g.snakes);
      assert ss[i] == g.snakes[i];
      if g.running && !g.ended {
        assert MoveAll(g).snakes[i] == g.snakes[i];
        assert !AllSnakesDead(MoveAll(g).snakes);
      }
    }
  }

  /** A snake whose client has pressed no key keeps its spawn body, its score of zero and its
      life over any run of other players' keys, deaths and steps, and the simulation cannot
      end for want of live snakes meanwhile. */
  lemma {:induction false} IdleUntilOwnKey(seats: seq<Seat>, cfg: Config, es: seq<Event>, i: nat)
    requires RoomSeats(seats) && i < |seats|
    requires forall k :: 0 <= k < |es| ==> es[k].StepEvent? || es[k].client != seats[i].client
    ensures var g := Run(NewGame(seats, cfg), es);
            && |g.snakes| == |seats|
            && g.snakes[i] == NewGame(seats, cfg).snakes[i]
            && g.snakes[i].alive && g.snakes[i].score == 0
            && g.reason != Some(AllDead)
    decreases |es|
  {
    NewGameOk(seats, cfg);
    if es != [] {
      var front := es[..|es| - 1];
      IdleUntilOwnKey(seats, cfg, front, i);
      IdleExec(Run(NewGame(seats, cfg), front), Last(es), i);
    }
  }
}
