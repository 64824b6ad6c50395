/** Shape and heading of the snakes: bodies are unbroken chains, live snakes face away
    from their neck, and no turn buffer can make a snake reverse. */
module CoopPath {
  import opened Prelude
  import opened Grid
  import opened CoopSpec
  import opened CoopBoard

  predicate Adjacent(a: Point, b: Point) {
    (a.x == b.x && (a.y == b.y + 1 || b.y == a.y + 1)) || (a.y == b.y && (a.x == b.x + 1 || b.x == a.x + 1))
  }

  predicate Chain(body: seq<Point>) {
    forall k :: 0 <= k < |body| - 1 ==> Adjacent(body[k], body[k + 1])
  }

  /** The head lies one step from the second cell, in the direction the snake faces. */
  predicate Heading(s: Snake) {
    |s.body| >= 2 && s.body[0] == Move(s.body[1], s.dir)
  }

  predicate SnakePath(s: Snake) {
    && Chain(s.body)
    && (s.alive ==> Heading(s))
    && |s.pending| <= 2
    && (!s.started ==> s.pending == [])
  }

  predicate PathInv(g: Game) {
    forall i :: 0 <= i < |g.snakes| ==> SnakePath(g.snakes[i])
  }

  lemma TurnNeverReverses(s: Snake)
    ensures Turn(s).dir != Opposite(s.dir)
  {
  }

  /** Whatever the buffer holds, the next head of a snake is never its neck. */
  lemma NeckIsSafe(s: Snake)
    requires SnakePath(s)
    ensures NextHead(Turn(s)).Some? ==> NextHead(Turn(s)).value != s.body[1]
  {
    TurnNeverReverses(s);
  }

  lemma AdvancePath(s: Snake, p: Point, eats: bool)
    requires Chain(s.body) && |s.body| >= 2 && |s.pending| <= 2 && s.started && s.grow == 0
    requires p == Move(s.body[0], s.dir)
    ensures SnakePath(Advance(s, p, eats))
  {
    var moved := Advance(s, p, eats);
    var longer := [p] + s.body;
    assert moved.body == if eats then longer else longer[..|longer| - 1];
    forall k | 0 <= k < |moved.body| - 1
      ensures Adjacent(moved.body[k], moved.body[k + 1])
    {
      if k > 0 {
        assert Adjacent(s.body[k - 1], s.body[k]);
      }
    }
  }

  lemma StepSnakePath(w: nat, h: nat, before: seq<Snake>, fruit: seq<Point>, i: nat)
    requires i < |before| && SnakePath(before[i]) && |before[i].body| >= 2 && before[i].grow == 0
    ensures SnakePath(StepSnake(w, h, TurnAll(before), fruit, i))
    ensures StepSnake(w, h, TurnAll(before), fruit, i).dir != Opposite(before[i].dir)
  {
    var ss := TurnAll(before);
    TurnNeverReverses(before[i]);
    if Survives(w, h, ss, i) {
      AdvancePath(ss[i], NextHead(ss[i]).value, Eats(w, h, ss, fruit, i));
    }
  }

  /** No snake of `after` faces back the way it faced in `before`. */
  predicate NoReversal(before: seq<Snake>, after: seq<Snake>) {
    |after| == |before| && forall i :: 0 <= i < |before| ==> after[i].dir != Opposite(before[i].dir)
  }

  lemma MoveKeepsPath(g: Game)
    requires BoardInv(g) && PathInv(g)
    ensures PathInv(MoveAll(g))
    ensures NoReversal(g.snakes, MoveAll(g).snakes)
  {
    forall i | 0 <= i < |g.snakes|
      ensures SnakePath(MoveAll(g).snakes[i])
      ensures MoveAll(g).snakes[i].dir != Opposite(g.snakes[i].dir)
    {
      StepSnakePath(g.width, g.height, g.snakes, g.fruit, i);
    }
  }

  /** The fruit phase of a step leaves every snake as the moves left it. */
  lemma StepSnakesAre(g: Game)
    ensures |Step(g).snakes| == |g.snakes|
    ensures Step(g).snakes == if g.running && !g.ended then MoveAll(g).snakes else g.snakes
  {
  }

  /** A step keeps chains and headings, and no snake reverses. */
  lemma StepKeepsPath(g: Game)
    requires BoardInv(g) && PathInv(g)
    ensures PathInv(Step(g))
    ensures NoReversal(g.snakes, Step(g).snakes)
  {
    StepSnakesAre(g);
    MoveKeepsPath(g);
    hide Step, MoveAll;
    assert NoReversal(g.snakes, g.snakes);
  }

  ghost predicate HitsAnother(ss: seq<Snake>, i: nat, p: Point) {
    exists j :: 0 <= j < |ss| && j != i && (p in ss[j].body || NextHead(ss[j]) == Some(p))
  }

  ghost predicate HitsOwnBody(s: Snake, p: Point) {
    exists k :: 2 <= k < |s.body| && s.body[k] == p
  }

  lemma DeathCause(w: nat, h: nat, ss: seq<Snake>, i: nat)
    requires i < |ss| && Dies(w, h, ss, i) && |ss[i].body| >= 2
    requires NextHead(ss[i]).value != ss[i].body[1]
    ensures var p := NextHead(ss[i]).value;
            !InBounds(p, w, h) || HitsAnother(ss, i, p) || HitsOwnBody(ss[i], p)
  {
    var p := NextHead(ss[i]).value;
    if InBounds(p, w, h) && !HeadOn(ss, i, p) {
      var j :| 0 <= j < |ss| && p in ss[j].body && !(j == i && ss[i].grow == 0 && p == Last(ss[i].body));
      if j == i {
        var k :| 0 <= k < |ss[i].body| && ss[i].body[k] == p;
        assert p != ss[i].body[0];
      }
    }
  }

  predicate DiesBetween(before: seq<Snake>, after: seq<Snake>, i: nat) {
    i < |before| && |after| == |before| && before[i].alive && !after[i].alive
  }

  /** A live snake that dies in a step dies off the board, on another snake or head-on, or on
      its own body beyond the neck; never on the neck itself. */
  lemma NeverDiesOnOwnNeck(g: Game, i: nat)
    requires BoardInv(g) && PathInv(g) && DiesBetween(g.snakes, Step(g).snakes, i)
    ensures var ss := TurnAll(g.snakes);
            var p := Move(g.snakes[i].body[0], ss[i].dir);
            && p != g.snakes[i].body[1]
            && (!InBounds(p, g.width, g.height) || HitsAnother(ss, i, p) || HitsOwnBody(ss[i], p))
  {
    StepSnakesAre(g);
    var ss := TurnAll(g.snakes);
    NeckIsSafe(g.snakes[i]);
    assert Dies(g.width, g.height, ss, i);
    DeathCause(g.width, g.height, ss, i);
  }

  /** The buffer really can hold opposite neighbours: Up, then Left, then Down while facing right. */
  lemma BufferMayHoldOpposites(s: Snake)
    requires s.dir == Right && s.pending == []
    ensures Press(Press(Press(s, Up), Left), Down).pending == [Up, Down]
    ensures Turn(Turn(Press(Press(Press(s, Up), Left), Down))).dir == Up
  {
    var one := Press(s, Up);
    assert one.pending == [Up];
    var two := Press(one, Left);
    assert two.pending == [Up, Left];
    var three := Press(two, Down);
    assert three.pending == [Up, Down];
    var turned := Turn(three);
    assert turned.dir == Up && turned.pending == [Down];
  }
}
