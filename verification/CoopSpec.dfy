/** The co-op simulation as values: what one input and one step mean.

    `Step` is written as a simultaneous rule: every snake's fate is decided from
    the state before the move, whatever the order of the snake list. The class
    `CoopGame` runs the sequential loops of the server and is proved to compute it. */
module CoopSpec {
  import opened Prelude
  import opened Grid

  type ClientId = nat

  type Body = b: seq<Point> | b != [] witness [Point(0, 0)]

  datatype Snake = Snake(
    client: ClientId, slot: nat, color: nat,
    body: Body, dir: Dir, pending: seq<Dir>,
    alive: bool, grow: nat, score: nat, started: bool)

  datatype EndReason = AllApples | AllDead

  datatype Game = Game(
    width: nat, height: nat, snakes: seq<Snake>, fruit: seq<Point>,
    score: nat, tick: nat, seqNo: nat, running: bool, ended: bool, reason: Option<EndReason>,
    speedIndex: nat, target: nat, rng: bv64)

  // ---------------------------------------------------------------- input

  /** The last buffered turn, or the current heading when the buffer is empty. */
  function Facing(s: Snake): Dir {
    if s.pending != [] then Last(s.pending) else s.dir
  }

  /** One key press on a live snake: a two-slot buffer whose back slot is replaced when full. */
  function Press(s: Snake, d: Dir): Snake {
    var armed := s.(started := true);
    if d == Opposite(Facing(s)) || d == Facing(s) then armed
    else if |s.pending| >= 2 then armed.(pending := s.pending[..|s.pending| - 1] + [d])
    else armed.(pending := s.pending + [d])
  }

  function SeatFrom(ss: seq<Snake>, c: ClientId, from: nat): (r: Option<nat>)
    requires from <= |ss|
    ensures r.Some? ==> from <= r.value < |ss| && ss[r.value].client == c
    ensures r.Some? ==> forall j :: from <= j < r.value ==> ss[j].client != c
    ensures r.None? ==> forall j :: from <= j < |ss| ==> ss[j].client != c
    decreases |ss| - from
  {
    if from == |ss| then None
    else if ss[from].client == c then Some(from)
    else SeatFrom(ss, c, from + 1)
  }

  function SetInput(g: Game, c: ClientId, d: Dir): Game {
    match SeatFrom(g.snakes, c, 0)
    case None => g
    case Some(i) =>
      if g.ended || !g.snakes[i].alive then g
      else g.(running := true, snakes := g.snakes[i := Press(g.snakes[i], d)])
  }

  /** A seat taken out by the room: the snake stays on the board as a corpse. */
  function Kill(g: Game, c: ClientId): Game {
    match SeatFrom(g.snakes, c, 0)
    case None => g
    case Some(i) => g.(snakes := g.snakes[i := g.snakes[i].(alive := false)])
  }

  // ---------------------------------------------------------------- moving

  /** Pop one buffered turn; a turn that would reverse the snake is dropped. */
  function Turn(s: Snake): Snake {
    if s.pending == [] then s
    else
      var d := s.pending[0];
      s.(pending := s.pending[1..], dir := if d != Opposite(s.dir) then d else s.dir)
  }

  function TurnAll(ss: seq<Snake>): (r: seq<Snake>)
    ensures |r| == |ss|
    ensures forall i :: 0 <= i < |ss| ==> r[i] == Turn(ss[i])
  {
    seq(|ss|, i requires 0 <= i < |ss| => Turn(ss[i]))
  }

  /** Where a snake is about to put its head; parked and dead snakes do not move. */
  function NextHead(s: Snake): Option<Point> {
    if s.alive && s.started then Some(Move(s.body[0], s.dir)) else None
  }

  /** `p` is covered by some body, other than by the tail that snake `i` is about to lift. */
  ghost predicate Hit(ss: seq<Snake>, i: nat, p: Point)
    requires i < |ss|
  {
    exists j :: 0 <= j < |ss| && p in ss[j].body
             && !(j == i && ss[i].grow == 0 && p == Last(ss[i].body))
  }

  ghost predicate HeadOn(ss: seq<Snake>, i: nat, p: Point)
    requires i < |ss|
  {
    exists j :: 0 <= j < |ss| && j != i && NextHead(ss[j]) == Some(p)
  }

  ghost predicate Dies(w: nat, h: nat, ss: seq<Snake>, i: nat)
    requires i < |ss|
  {
    NextHead(ss[i]).Some? &&
    var p := NextHead(ss[i]).value;
    !InBounds(p, w, h) || Hit(ss, i, p) || HeadOn(ss, i, p)
  }

  ghost predicate Survives(w: nat, h: nat, ss: seq<Snake>, i: nat)
    requires i < |ss|
  {
    NextHead(ss[i]).Some? && !Dies(w, h, ss, i)
  }

  ghost predicate Eats(w: nat, h: nat, ss: seq<Snake>, fruit: seq<Point>, i: nat)
    requires i < |ss|
  {
    Survives(w, h, ss, i) && NextHead(ss[i]).value in fruit
  }

  /** Put the head on `p`; a snake that is growing keeps its tail. */
  function Advance(s: Snake, p: Point, eats: bool): Snake {
    var longer: Body := [p] + s.body;
    var moved := if eats then s.(grow := s.grow + 1, score := s.score + 1) else s;
    if moved.grow > 0 then moved.(body := longer, grow := moved.grow - 1)
    else moved.(body := longer[..|longer| - 1])
  }

  ghost function StepSnake(w: nat, h: nat, ss: seq<Snake>, fruit: seq<Point>, i: nat): Snake
    requires i < |ss|
  {
    if Dies(w, h, ss, i) then ss[i].(alive := false)
    else if Survives(w, h, ss, i) then Advance(ss[i], NextHead(ss[i]).value, Eats(w, h, ss, fruit, i))
    else ss[i]
  }

  ghost function Eaters(w: nat, h: nat, ss: seq<Snake>, fruit: seq<Point>): set<nat> {
    set i: nat | i < |ss| && Eats(w, h, ss, fruit, i)
  }

  /** The cells entered by the snakes that survive this step. */
  ghost function Entered(w: nat, h: nat, ss: seq<Snake>): set<Point> {
    set i | 0 <= i < |ss| && Survives(w, h, ss, i) :: NextHead(ss[i]).value
  }

  function Without(fruit: seq<Point>, gone: set<Point>): seq<Point>
    decreases |fruit|
  {
    if fruit == [] then []
    else Without(fruit[..|fruit| - 1], gone) + (if Last(fruit) in gone then [] else [Last(fruit)])
  }

  ghost function MoveAll(g: Game): Game {
    var ss := TurnAll(g.snakes);
    g.(tick := g.tick + 1, seqNo := g.seqNo + 1,
    snakes := seq(|ss|, i requires 0 <= i < |ss| => StepSnake(g.width, g.height, ss, g.fruit, i)),
    fruit := Without(g.fruit, Entered(g.width, g.height, ss)),
    score := g.score + |Eaters(g.width, g.height, ss, g.fruit)|)
  }

  // ---------------------------------------------------------------- fruit

  /** The generator of the server: a 64-bit xorshift. */
  function NextRng(state: bv64): bv64 {
    var x0 := if state == 0 then 0x9E3779B97F4A7C15 else state;
    var x1 := x0 ^ (x0 << 13);
    var x2 := x1 ^ (x1 >> 7);
    x2 ^ (x2 << 17)
  }

  function RngValue(state: bv64): nat {
    state as nat
  }

  function Draw(v: nat, n: nat): (r: nat)
    requires n > 0
    ensures r < n
  {
    v % n
  }

  function Covered(ss: seq<Snake>): set<Point> {
    set i, p | 0 <= i < |ss| && p in ss[i].body :: p
  }

  /** Free cells of row `y` left of column `x`. */
  function FreeRow(x: nat, y: int, taken: set<Point>): seq<Point>
    decreases x
  {
    if x == 0 then []
    else FreeRow(x - 1, y, taken) + (if Point(x - 1, y) in taken then [] else [Point(x - 1, y)])
  }

  /** Free cells of the first `h` rows in row-major order. */
  function FreeCells(w: nat, h: nat, taken: set<Point>): seq<Point>
    decreases h
  {
    if h == 0 then [] else FreeCells(w, h - 1, taken) + FreeRow(w, h - 1, taken)
  }

  /** Fruit and generator state after one spawn; unchanged when no cell is free. */
  function Spawn(w: nat, h: nat, bodies: set<Point>, fruit: seq<Point>, rng: bv64): (seq<Point>, bv64) {
    var free := FreeCells(w, h, bodies + SetOf(fruit));
    if free == [] then (fruit, rng)
    else
      var next := NextRng(rng);
      (fruit + [free[Draw(RngValue(next), |free|)]], next)
  }

  /** Spawn until `target` fruit lie on the board or no cell is free. */
  function Fill(w: nat, h: nat, bodies: set<Point>, fruit: seq<Point>, target: nat, rng: bv64): (seq<Point>, bv64)
    decreases target - |fruit|
  {
    if |fruit| >= target then (fruit, rng)
    else
      var next := Spawn(w, h, bodies, fruit, rng);
      if |next.0| == |fruit| then next else Fill(w, h, bodies, next.0, target, next.1)
  }

  function FillGame(g: Game): Game {
    var filled := Fill(g.width, g.height, Covered(g.snakes), g.fruit, g.target, g.rng);
    g.(fruit := filled.0, rng := filled.1)
  }

  function SpawnGame(g: Game): Game {
    var spawned := Spawn(g.width, g.height, Covered(g.snakes), g.fruit, g.rng);
    g.(fruit := spawned.0, rng := spawned.1)
  }

  function GameFree(g: Game): seq<Point> {
    FreeCells(g.width, g.height, Covered(g.snakes) + SetOf(g.fruit))
  }

  // ---------------------------------------------------------------- one step

  function Finish(g: Game, reason: EndReason): Game {
    g.(ended := true, running := false, reason := Some(reason))
  }

  predicate AllSnakesDead(ss: seq<Snake>) {
    forall i :: 0 <= i < |ss| ==> !ss[i].alive
  }

  function CheckDead(g: Game): Game {
    if AllSnakesDead(g.snakes) then Finish(g, AllDead) else g
  }

  /** After a meal: refill, and end the game when fruit and free cells have both run out.
      The forced spawn draws twice, once to probe for a free cell and once to place. */
  function Refill(g: Game): Game {
    var filled := FillGame(g);
    if filled.fruit != [] then CheckDead(filled)
    else if GameFree(filled) == [] then Finish(filled, AllApples)
    else CheckDead(SpawnGame(filled.(rng := NextRng(filled.rng))))
  }

  ghost predicate AteAny(g: Game) {
    Eaters(g.width, g.height, TurnAll(g.snakes), g.fruit) != {}
  }

  ghost function Step(g: Game): Game {
    if !g.running || g.ended then g
    else if AteAny(g) then Refill(MoveAll(g))
    else CheckDead(MoveAll(g))
  }

  // ---------------------------------------------------------------- start

  datatype Config = Config(sizeIndex: nat, countIndex: nat, speedIndex: nat, seed: bv64)

  const MAX_SNAKES: nat := 4

  function SpeedInterval(speedIndex: nat): nat {
    match speedIndex
    case 1 => 85
    case 2 => 200
    case _ => 142
  }

  function BoardDims(sizeIndex: nat): (nat, nat) {
    match sizeIndex
    case 1 => (10, 9)
    case 2 => (24, 21)
    case _ => (17, 15)
  }

  function CountTarget(countIndex: nat): nat {
    match countIndex
    case 0 => 1
    case 1 => 3
    case 2 => 5
    case 3 => 10
    case 4 => 1
    case 5 => 1
    case 6 => 5
    case _ => 1
  }

  /** The stock apple layout around (3w/4, h/2). */
  function StockFruit(w: nat, h: nat, countIndex: nat): seq<Point> {
    if w == 0 || h == 0 then []
    else
      var x := 3 * w / 4;
      var y := h / 2;
      var shift := if w >= 20 then 2 else 1;
      match countIndex
      case 0 | 4 | 5 => [Point(x, y)]
      case 1 => [Point(x, y), Point(x - 2, y - 2), Point(x - 2, y + 2)]
      case 2 | 3 | 6 =>
        [Point(x - shift, y), Point(x - 2 - shift, y - 2), Point(x - 2 - shift, y + 2),
         Point(x + 2 - shift, y - 2), Point(x + 2 - shift, y + 2)]
      case _ => []
  }

  function SpawnOffsets(players: nat): seq<int> {
    match players
    case 0 => [0]
    case 1 => [0]
    case 2 => [-1, 1]
    case 3 => [0, 2, -2]
    case _ => [-1, 1, 2, -2]
  }

  datatype Seat = Seat(client: ClientId, color: nat, slot: nat)

  function SpawnRow(h: int, players: nat, slot: nat, index: nat): int {
    var offsets := SpawnOffsets(players);
    var offset := if slot < |offsets| then offsets[slot] else if index < |offsets| then offsets[index] else 0;
    var y := h / 2 + offset;
    var low := if y < 1 then 1 else y;
    if low >= h - 1 then h - 2 else low
  }

  function SpawnSnake(w: int, h: int, players: nat, seat: Seat, index: nat): Snake {
    var y := SpawnRow(h, players, seat.slot, index);
    var x := if w / 2 < 2 then 2 else w / 2;
    Snake(seat.client, seat.slot, seat.color,
          [Point(x, y), Point(x - 1, y), Point(x - 2, y)], Right, [], true, 0, 0, false)
  }

  /** Keep the stock cells that are on the board and free, in order. */
  function Plant(w: nat, h: nat, bodies: set<Point>, stock: seq<Point>): seq<Point>
    decreases |stock|
  {
    if stock == [] then []
    else
      var planted := Plant(w, h, bodies, stock[..|stock| - 1]);
      var p := Last(stock);
      if InBounds(p, w, h) && p !in bodies && p !in planted then planted + [p] else planted
  }

  function NewSnakes(w: nat, h: nat, seats: seq<Seat>): (r: seq<Snake>)
    ensures |r| == Min(|seats|, MAX_SNAKES)
  {
    var n := Min(|seats|, MAX_SNAKES);
    seq(n, i requires 0 <= i < n => SpawnSnake(w, h, n, seats[i], i))
  }

  function NewGame(seats: seq<Seat>, cfg: Config): Game {
    var (w, h) := BoardDims(cfg.sizeIndex);
    var snakes := NewSnakes(w, h, seats);
    var stock := Plant(w, h, Covered(snakes), StockFruit(w, h, cfg.countIndex));
    FillGame(Game(w, h, snakes, stock, 0, 0, 0, true, false, None, cfg.speedIndex, CountTarget(cfg.countIndex), cfg.seed))
  }
}
