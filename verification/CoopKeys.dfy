/** What keys and steps do to one snake: which keys are buffered, when a buffered turn is taken,
    where the snake goes, when it dies and what it leaves. Everything is said of the board before
    and after, over whole runs. */
module CoopKeys {
  import opened Prelude
  import opened Grid
  import opened CoopSpec
  import opened CoopBoard
  import opened CoopPath
  import opened CoopRuns

  // ---------------------------------------------------------------- keys

  /** A repeated or reversing key is dropped, any other is the last turn in the buffer; the next turn
      to be taken never changes once it is there. */
  lemma KeysAreBuffered(s: Snake, d: Dir)
    requires |s.pending| <= 2
    ensures var next := Press(s, d);
            && next == s.(started := true, pending := next.pending)
            && (s.pending == [] ==> next.pending == if d == s.dir || d == Opposite(s.dir) then [] else [d])
            && (|s.pending| == 1 ==>
                  next.pending == if d == s.pending[0] || d == Opposite(s.pending[0]) then s.pending else [s.pending[0], d])
            && (|s.pending| == 2 ==>
                  next.pending == if d == s.pending[1] || d == Opposite(s.pending[1]) then s.pending else [s.pending[0], d])
  {
  }

  /** A key reaches the live snake of its client, starts it and the game, and touches nothing else;
      it is ignored once the game is over, by corpses, and from strangers. */
  lemma KeysReachTheirSnake(g: Game, c: ClientId, d: Dir, i: nat)
    requires i < |g.snakes| && g.snakes[i].client == c && (forall j :: 0 <= j < i ==> g.snakes[j].client != c)
    ensures var next := SetInput(g, c, d);
            if g.ended || !g.snakes[i].alive then next == g
            else next == g.(running := true, snakes := g.snakes[i := next.snakes[i]]) && next.snakes[i].started
  {
  }

  lemma StrangersKeysAreIgnored(g: Game, c: ClientId, d: Dir)
    requires forall j :: 0 <= j < |g.snakes| ==> g.snakes[j].client != c
    ensures SetInput(g, c, d) == g
  {
  }

  // ---------------------------------------------------------------- where a snake goes

  /** The heading after `k` steps: the buffered turns in order, one a step, without those that would
      reverse the heading of that moment. */
  function Course(dir: Dir, turns: seq<Dir>, k: nat): Dir {
    if k == 0 then dir
    else
      var d := Course(dir, turns, k - 1);
      if k - 1 < |turns| && turns[k - 1] != Opposite(d) then turns[k - 1] else d
  }

  /** The head after `k` steps. */
  function Route(head: Point, dir: Dir, turns: seq<Dir>, k: nat): Point {
    if k == 0 then head else Move(Route(head, dir, turns, k - 1), Course(dir, turns, k))
  }

  function Drop(ds: seq<Dir>, k: nat): seq<Dir> {
    if k <= |ds| then ds[k..] else []
  }

  /** No key of this client. */
  predicate Hands(es: seq<Event>, c: ClientId) {
    forall k :: 0 <= k < |es| && es[k].Key? ==> es[k].client != c
  }

  /** `t` is the snake `s` after `k` steps without a key of its own. */
  predicate Carried(s: Snake, t: Snake, k: nat) {
    && t.client == s.client && t.started == s.started
    && t.pending == Drop(s.pending, k) && t.dir == Course(s.dir, s.pending, k)
    && (t.alive ==> s.alive)
    && (t.alive && s.started ==> Trail(s, t, k))
    && (!s.started || !s.alive ==> t.body == s.body && t.score == s.score)
  }

  /** The body shows the way: first the heads of the last `k` steps, then what is left of the old body. */
  predicate Trail(s: Snake, t: Snake, k: nat) {
    && (forall j :: 0 <= j < |t.body| && j <= k ==> t.body[j] == Route(s.body[0], s.dir, s.pending, k - j))
    && (k < |t.body| ==> t.body[k..] <= s.body)
  }

  /** One step of one snake. */
  predicate Moved(s: Snake, t: Snake) {
    && t.client == s.client && t.started == s.started
    && t.pending == Drop(s.pending, 1) && t.dir == Course(s.dir, s.pending, 1)
    && (t.alive ==> s.alive)
    && (t.alive && s.started ==>
          && t.body[0] == Move(s.body[0], t.dir) && t.body[1..] <= s.body)
    && (!s.started || !s.alive ==> t.body == s.body && t.score == s.score)
  }

  lemma CourseOn(dir: Dir, turns: seq<Dir>, k: nat)
    ensures Course(Course(dir, turns, k), Drop(turns, k), 1) == Course(dir, turns, k + 1)
    ensures Drop(Drop(turns, k), 1) == Drop(turns, k + 1)
  {
    assert Course(Course(dir, turns, k), Drop(turns, k), 0) == Course(dir, turns, k);
    if k < |turns| {
      assert Drop(turns, k)[0] == turns[k];
    }
  }

  lemma TrailOn(s: Snake, t: Snake, u: Snake, k: nat)
    requires Trail(s, t, k)
    requires u.body[0] == Move(t.body[0], Course(s.dir, s.pending, k + 1))
    requires u.body[1..] <= t.body
    ensures Trail(s, u, k + 1)
  {
    hide Course;
    assert t.body[0] == Route(s.body[0], s.dir, s.pending, k);
    assert u.body[0] == Route(s.body[0], s.dir, s.pending, k + 1);
    var n := k + 1;
    forall j | 0 <= j < |u.body| && j <= n
      ensures u.body[j] == Route(s.body[0], s.dir, s.pending, n - j)
    {
      if j > 0 {
        assert u.body[j] == u.body[1..][j - 1] == t.body[j - 1];
        assert t.body[j - 1] == Route(s.body[0], s.dir, s.pending, k - (j - 1));
      }
    }
    if n < |u.body| {
      assert u.body[n..] == t.body[k..][..|u.body| - n];
    }
  }

  lemma CarriedOn(s: Snake, t: Snake, u: Snake, k: nat)
    requires Carried(s, t, k) && Moved(t, u)
    ensures Carried(s, u, k + 1)
  {
    CourseOn(s.dir, s.pending, k);
    hide Course, Drop, Trail;
    if u.alive && s.started {
      TrailOn(s, t, u, k);
    }
  }

  lemma OthersLeaveItBe(g: Game, e: Event, i: nat)
    requires i < |g.snakes| && (e.Key? ==> e.client != g.snakes[i].client) && !e.StepEvent?
    ensures |Exec(g, e).snakes| == |g.snakes| && Exec(g, e).tick == g.tick
    ensures Exec(g, e).snakes[i] == g.snakes[i] || Exec(g, e).snakes[i] == g.snakes[i].(alive := false)
  {
  }

  lemma KilledIsCarried(s: Snake, t: Snake, k: nat)
    requires Carried(s, t, k)
    ensures Carried(s, t.(alive := false), k)
  {
  }

  lemma AtStart(s: Snake)
    ensures Carried(s, s, 0)
  {
    assert Drop(s.pending, 0) == s.pending;
  }

  /** Over any run without a key of its client, whatever the others do: the buffer loses one turn from
      the front at every step, the snake faces along its course, and while it lives its body shows the
      route it took. */
  lemma {:induction false} SnakeFollowsItsTurns(g: Game, es: seq<Event>, i: nat)
    requires GameInv(g) && i < |g.snakes| && Hands(es, g.snakes[i].client)
    ensures var last := Run(g, es);
            && last.tick >= g.tick && |last.snakes| == |g.snakes|
            && Carried(g.snakes[i], last.snakes[i], last.tick - g.tick)
    decreases |es|
  {
    hide GameInv, Carried, Exec;
    if es == [] {
      AtStart(g.snakes[i]);
    } else {
      var front := es[..|es| - 1];
      SnakeFollowsItsTurns(g, front, i);
      var before := Run(g, front);
      RunKeeps(g, front);
      var s, t, k := g.snakes[i], before.snakes[i], before.tick - g.tick;
      CarriedClient(s, t, k);
      assert Last(es).Key? ==> Last(es).client != s.client;
      EventCarries(before, Last(es), i, s, k);
    }
  }

  lemma EventCarries(g: Game, e: Event, i: nat, s: Snake, k: nat)
    requires GameInv(g) && i < |g.snakes| && (e.Key? ==> e.client != g.snakes[i].client)
    requires Carried(s, g.snakes[i], k)
    ensures var next := Exec(g, e);
            && |next.snakes| == |g.snakes| && next.tick >= g.tick
            && Carried(s, next.snakes[i], k + next.tick - g.tick)
  {
    hide GameInv, Carried, Moved, Step, SetInput, Kill;
    if e.StepEvent? {
      if g.running && !g.ended {
        StepOfOne(g, i);
        CarriedOn(s, g.snakes[i], Step(g).snakes[i], k);
      } else {
        NoStep(g);
      }
    } else {
      OthersLeaveItBe(g, e, i);
      KilledIsCarried(s, g.snakes[i], k);
    }
  }

  lemma StepTurns(g: Game, i: nat)
    requires i < |g.snakes| && g.running && !g.ended
    ensures |Step(g).snakes| == |g.snakes| && Step(g).tick == g.tick + 1
    ensures var s, t := g.snakes[i], Step(g).snakes[i];
            && t.client == s.client && t.started == s.started && (t.alive ==> s.alive)
            && t.pending == Drop(s.pending, 1) && t.dir == Course(s.dir, s.pending, 1)
  {
    StepSnakesAre(g);
    StepTick(g);
    hide Step, Refill, CheckDead, AteAny, Dies, Turn, Course, Drop;
    OneTurn(g.snakes[i]);
    TurnIsKept(g.width, g.height, TurnAll(g.snakes), g.fruit, i);
  }

  lemma OneTurn(s: Snake)
    ensures var t := Turn(s);
            && t.client == s.client && t.started == s.started && t.alive == s.alive
            && t.pending == Drop(s.pending, 1) && t.dir == Course(s.dir, s.pending, 1)
  {
    assert Course(s.dir, s.pending, 0) == s.dir;
  }

  lemma TurnIsKept(w: nat, h: nat, ss: seq<Snake>, fruit: seq<Point>, i: nat)
    requires i < |ss|
    ensures var s, t := ss[i], StepSnake(w, h, ss, fruit, i);
            t.client == s.client && t.started == s.started && t.pending == s.pending && t.dir == s.dir && (t.alive ==> s.alive)
  {
    hide Dies, Eats;
  }

  lemma StepTick(g: Game)
    requires g.running && !g.ended
    ensures Step(g).tick == g.tick + 1
  {
    hide Fill, Spawn, FreeCells, AteAny, Covered, Eaters, Entered, Without, StepSnake;
  }

  lemma StepOfOne(g: Game, i: nat)
    requires GameInv(g) && i < |g.snakes| && g.running && !g.ended
    ensures |Step(g).snakes| == |g.snakes| && Step(g).tick == g.tick + 1
    ensures Moved(g.snakes[i], Step(g).snakes[i])
  {
    StepTurns(g, i);
    StepVerdict(g, i);
    hide GameInv, Step, WayIsClear, Course, Drop;
  }

  lemma CarriedClient(s: Snake, t: Snake, k: nat)
    requires Carried(s, t, k)
    ensures t.client == s.client
  {
  }

  lemma NoStep(g: Game)
    requires !(g.running && !g.ended)
    ensures Step(g) == g
  {
  }

  /** Two buffered turns, neither a reversal of the heading it meets, are both taken: after two steps
      that the snake survives its head has gone one cell each way. */
  lemma BothTurnsAreTaken(g: Game, es: seq<Event>, i: nat, a: Dir, b: Dir)
    requires GameInv(g) && i < |g.snakes| && Hands(es, g.snakes[i].client)
    requires g.snakes[i].pending == [a, b] && a != Opposite(g.snakes[i].dir) && b != Opposite(a)
    ensures |Run(g, es).snakes| == |g.snakes|
    ensures var last := Run(g, es);
            var s, t := g.snakes[i], last.snakes[i];
            && (last.tick == g.tick + 1 ==> t.pending == [b] && t.dir == a)
            && (last.tick == g.tick + 2 ==> t.pending == [] && t.dir == b)
            && (last.tick == g.tick + 2 && t.alive && s.started ==>
                  t.body[0] == Move(Move(s.body[0], a), b) && |t.body| > 1 && t.body[1] == Move(s.body[0], a))
  {
    SnakeFollowsItsTurns(g, es, i);
    RunKeeps(g, es);
    var s, t := g.snakes[i], Run(g, es).snakes[i];
    hide Run;
    assert Course(s.dir, s.pending, 1) == a;
    assert Course(s.dir, s.pending, 2) == b;
    assert Route(s.body[0], s.dir, s.pending, 1) == Move(s.body[0], a);
    assert Route(s.body[0], s.dir, s.pending, 2) == Move(Move(s.body[0], a), b);
    assert |t.body| >= 3;
  }

  lemma RunTwo(g: Game, es: seq<Event>, d: Event, e: Event)
    ensures Run(g, es + [d] + [e]) == Exec(Exec(Run(g, es), d), e)
  {
    assert (es + [d] + [e])[..|es| + 1] == es + [d];
    assert (es + [d])[..|es|] == es;
    hide Exec;
  }

  /** Two quarter turns pressed in a row on an empty buffer steer the snake round two corners. */
  lemma TwoKeysTwoCorners(g: Game, i: nat, a: Dir, b: Dir)
    requires GameInv(g) && i < |g.snakes| && !g.ended && g.snakes[i].alive && g.snakes[i].pending == []
    requires forall j :: 0 <= j < i ==> g.snakes[j].client != g.snakes[i].client
    requires a != g.snakes[i].dir && a != Opposite(g.snakes[i].dir) && b != a && b != Opposite(a)
    ensures var s, c := g.snakes[i], g.snakes[i].client;
            var last := Run(g, [Key(c, a), Key(c, b), StepEvent, StepEvent]);
            && |last.snakes| == |g.snakes|
            && (last.snakes[i].alive && last.tick == g.tick + 2 ==> last.snakes[i].body[0] == Move(Move(s.body[0], a), b))
  {
    var s, c := g.snakes[i], g.snakes[i].client;
    var one := SetInput(g, c, a);
    var two := SetInput(one, c, b);
    hide *;
    TwoKeysBuffered(g, i, a, b);
    KeysThenSteps(g, c, a, b);
    HandsOff(c);
    BothTurnsAreTaken(two, [StepEvent, StepEvent], i, a, b);
  }

  lemma HandsOff(c: ClientId)
    ensures Hands([StepEvent, StepEvent], c)
  {
  }

  lemma KeysThenSteps(g: Game, c: ClientId, a: Dir, b: Dir)
    ensures Run(g, [Key(c, a), Key(c, b), StepEvent, StepEvent]) == Run(SetInput(SetInput(g, c, a), c, b), [StepEvent, StepEvent])
  {
    hide SetInput, Step, Run;
    var two := SetInput(SetInput(g, c, a), c, b);
    RunNone(g);
    RunNone(two);
    RunTwo(g, [], Key(c, a), Key(c, b));
    assert [] + [Key(c, a)] + [Key(c, b)] == [Key(c, a), Key(c, b)];
    RunTwo(g, [Key(c, a), Key(c, b)], StepEvent, StepEvent);
    assert [Key(c, a), Key(c, b)] + [StepEvent] + [StepEvent] == [Key(c, a), Key(c, b), StepEvent, StepEvent];
    RunTwo(two, [], StepEvent, StepEvent);
    assert [] + [StepEvent] + [StepEvent] == [StepEvent, StepEvent];
  }

  lemma RunNone(g: Game)
    ensures Run(g, []) == g
  {
  }

  lemma TwoKeysBuffered(g: Game, i: nat, a: Dir, b: Dir)
    requires GameInv(g) && i < |g.snakes| && !g.ended && g.snakes[i].alive && g.snakes[i].pending == []
    requires forall j :: 0 <= j < i ==> g.snakes[j].client != g.snakes[i].client
    requires a != g.snakes[i].dir && a != Opposite(g.snakes[i].dir) && b != a && b != Opposite(a)
    ensures var s, c := g.snakes[i], g.snakes[i].client;
            var two := SetInput(SetInput(g, c, a), c, b);
            && GameInv(two) && two.tick == g.tick && |two.snakes| == |g.snakes|
            && two.snakes[i] == s.(started := true, pending := [a, b])
  {
    var c := g.snakes[i].client;
    var one := SetInput(g, c, a);
    InputKeeps(g, c, a);
    InputKeeps(one, c, b);
    hide GameInv;
    KeysAreBuffered(g.snakes[i], a);
    KeysReachTheirSnake(g, c, a, i);
    KeysAreBuffered(one.snakes[i], b);
    KeysReachTheirSnake(one, c, b, i);
  }

  // ---------------------------------------------------------------- when it dies, what it eats

  predicate OnTheMove(s: Snake) {
    s.alive && s.started
  }

  /** The cell a snake on the move is about to enter. */
  function Target(s: Snake): Point {
    Move(s.body[0], Course(s.dir, s.pending, 1))
  }

  /** Nothing stands in the way of snake `i`: its target is on the board, no body covers it but the
      snake's own tail, and nobody else is entering it. */
  predicate WayIsClear(g: Game, i: nat)
    requires i < |g.snakes|
  {
    var p := Target(g.snakes[i]);
    && InBounds(p, g.width, g.height)
    && (forall j, k :: 0 <= j < |g.snakes| && 0 <= k < |g.snakes[j].body| && g.snakes[j].body[k] == p ==>
          j == i && k == |g.snakes[i].body| - 1)
    && (forall j :: 0 <= j < |g.snakes| && j != i && OnTheMove(g.snakes[j]) ==> Target(g.snakes[j]) != p)
  }

  lemma TurnedTarget(s: Snake)
    ensures NextHead(Turn(s)) == if OnTheMove(s) then Some(Target(s)) else None
    ensures Turn(s).body == s.body && Turn(s).grow == s.grow && Turn(s).alive == s.alive && Turn(s).started == s.started && Turn(s).score == s.score
  {
    assert Course(s.dir, s.pending, 0) == s.dir;
  }

  lemma DiesInTheWay(g: Game, i: nat)
    requires BoardInv(g) && i < |g.snakes| && OnTheMove(g.snakes[i])
    ensures Dies(g.width, g.height, TurnAll(g.snakes), i) <==> !WayIsClear(g, i)
  {
    var ss := TurnAll(g.snakes);
    var p := Target(g.snakes[i]);
    forall j | 0 <= j < |ss|
      ensures NextHead(ss[j]) == if OnTheMove(g.snakes[j]) then Some(Target(g.snakes[j])) else None
      ensures ss[j].body == g.snakes[j].body && ss[j].grow == g.snakes[j].grow
    {
      TurnedTarget(g.snakes[j]);
    }
    hide Turn, TurnAll, Course, Target, NextHead;
    HitIsInTheWay(g, i, ss, p);
  }

  lemma HitIsInTheWay(g: Game, i: nat, ss: seq<Snake>, p: Point)
    requires BoardInv(g) && i < |g.snakes| && |ss| == |g.snakes|
    requires forall j :: 0 <= j < |ss| ==> ss[j].body == g.snakes[j].body && ss[j].grow == g.snakes[j].grow
    ensures Hit(ss, i, p) <==>
              exists j, k :: 0 <= j < |g.snakes| && 0 <= k < |g.snakes[j].body| && g.snakes[j].body[k] == p
                             && !(j == i && k == |g.snakes[i].body| - 1)
  {
    var mine := g.snakes[i].body;
    assert NoDup<Point>(mine);
    if Hit(ss, i, p) {
      var j :| 0 <= j < |ss| && p in ss[j].body && !(j == i && ss[i].grow == 0 && p == Last(ss[i].body));
      var k :| 0 <= k < |g.snakes[j].body| && g.snakes[j].body[k] == p;
      assert !(j == i && k == |mine| - 1);
    }
    if j, k :| 0 <= j < |g.snakes| && 0 <= k < |g.snakes[j].body| && g.snakes[j].body[k] == p
               && !(j == i && k == |g.snakes[i].body| - 1) {
      assert p in ss[j].body;
      assert j == i ==> mine[k] != mine[|mine| - 1];
    }
  }

  /** A step kills a moving snake exactly when something is in its way. A survivor has entered its
      target, and grows and scores exactly when fruit lay there; every other snake stays as it lies. */
  lemma StepVerdict(g: Game, i: nat)
    requires GameInv(g) && i < |g.snakes| && g.running && !g.ended
    ensures |Step(g).snakes| == |g.snakes|
    ensures var s, t, p := g.snakes[i], Step(g).snakes[i], Target(g.snakes[i]);
            if OnTheMove(s) then
              && (t.alive <==> WayIsClear(g, i))
              && (t.alive && p in g.fruit ==> t.body == [p] + s.body && t.score == s.score + 1)
              && (t.alive && p !in g.fruit ==> t.body == [p] + s.body[..|s.body| - 1] && t.score == s.score)
              && (!t.alive ==> t.body == s.body && t.score == s.score)
            else t.alive == s.alive && t.body == s.body && t.score == s.score
  {
    StepSnakesAre(g);
    var ss := TurnAll(g.snakes);
    TurnedTarget(g.snakes[i]);
    if OnTheMove(g.snakes[i]) {
      DiesInTheWay(g, i);
    }
    hide WayIsClear, Dies, Turn, Course, Target, BoardInv, PathInv;
    assert g.snakes[i].grow == 0 by { GrowIsZero(g, i); }
    assert Step(g).snakes[i] == StepSnake(g.width, g.height, ss, g.fruit, i);
  }

  lemma GrowIsZero(g: Game, i: nat)
    requires BoardInv(g) && i < |g.snakes|
    ensures g.snakes[i].grow == 0
  {
  }

  /** Fruit leaves the board only under a snake, and where nobody ate nothing new appears. */
  lemma FruitStays(g: Game, f: Point)
    requires GameInv(g) && f in g.fruit
    ensures f in Step(g).fruit <==> f !in Covered(Step(g).snakes)
  {
    StepKeepsBoard(g);
    if f !in Step(g).fruit {
      FruitIsCovered(g, f);
    }
  }

  lemma {:induction false} WithoutKeeps(fruit: seq<Point>, gone: set<Point>, f: Point)
    requires f in fruit && f !in gone
    ensures f in Without(fruit, gone)
    decreases |fruit|
  {
    if Last(fruit) != f {
      WithoutKeeps(fruit[..|fruit| - 1], gone, f);
    }
  }

  lemma {:induction false} FillKeeps(w: nat, h: nat, bodies: set<Point>, fruit: seq<Point>, target: nat, rng: bv64)
    ensures fruit <= Fill(w, h, bodies, fruit, target, rng).0
    decreases target - |fruit|
  {
    if |fruit| < target {
      var next := Spawn(w, h, bodies, fruit, rng);
      if |next.0| != |fruit| {
        FillKeeps(w, h, bodies, next.0, target, next.1);
      }
    }
  }

  lemma RefillKeeps(g: Game, f: Point)
    requires f in g.fruit
    ensures f in Refill(g).fruit
  {
    FillKeeps(g.width, g.height, Covered(g.snakes), g.fruit, g.target, g.rng);
    hide Fill, FreeCells, Covered;
  }

  lemma FruitIsCovered(g: Game, f: Point)
    requires GameInv(g) && f in g.fruit && f !in Step(g).fruit
    ensures f in Covered(Step(g).snakes)
  {
    StepSnakesAre(g);
    var ss := TurnAll(g.snakes);
    var m := MoveAll(g);
    assert f !in m.fruit by {
      if f in m.fruit {
        RefillKeeps(m, f);
      }
    }
    if f !in Entered(g.width, g.height, ss) {
      WithoutKeeps(g.fruit, Entered(g.width, g.height, ss), f);
    }
    var i :| 0 <= i < |ss| && Survives(g.width, g.height, ss, i) && NextHead(ss[i]).value == f;
    hide Dies, Turn, Refill, BoardInv, PathInv;
    EnteredIsCovered(g, i, f);
  }

  lemma EnteredIsCovered(g: Game, i: nat, f: Point)
    requires i < |g.snakes| && Survives(g.width, g.height, TurnAll(g.snakes), i) && NextHead(TurnAll(g.snakes)[i]).value == f
    ensures f in MoveAll(g).snakes[i].body
  {
    hide Dies, Turn;
    var s := TurnAll(g.snakes)[i];
    var t := Advance(s, f, Eats(g.width, g.height, TurnAll(g.snakes), g.fruit, i));
    assert t.body[0] == f;
  }

  /** A corpse lies where it fell, with its score, whatever happens. */
  lemma {:induction false} CorpsesStay(g: Game, es: seq<Event>, i: nat)
    requires GameInv(g) && i < |g.snakes| && !g.snakes[i].alive
    ensures var last := Run(g, es);
            && |last.snakes| == |g.snakes|
            && !last.snakes[i].alive && last.snakes[i].body == g.snakes[i].body && last.snakes[i].score == g.snakes[i].score
    decreases |es|
  {
    if es != [] {
      var front := es[..|es| - 1];
      CorpsesStay(g, front, i);
      var before := Run(g, front);
      RunKeeps(g, front);
      hide GameInv, Step, Press;
      if Last(es).StepEvent? {
        if before.running && !before.ended {
          StepVerdict(before, i);
        } else {
          NoStep(before);
        }
      }
    }
  }
}
