/** The race bot: a capped flood fill that sizes the room ahead of a move, and a
    breadth-first search for the nearest apple. */
module RaceBot {
  import opened Prelude
  import opened Grid

  /** The directions in the order both searches try them. */
  const DIRS: seq<Dir> := [Up, Down, Left, Right]

  predicate Free(p: Point, blocked: set<Point>, w: nat, h: nat) {
    InBounds(p, w, h) && p !in blocked
  }

  predicate Neighbours(a: Point, b: Point) {
    exists d :: b == Move(a, d)
  }

  /** A walk of unit steps whose every cell after the first is free. */
  ghost predicate Walk(path: seq<Point>, blocked: set<Point>, w: nat, h: nat) {
    && path != []
    && forall k :: 0 < k < |path| ==> Neighbours(path[k - 1], path[k]) && Free(path[k], blocked, w, h)
  }

  ghost predicate WalkTo(path: seq<Point>, from: Point, to: Point, blocked: set<Point>, w: nat, h: nat) {
    Walk(path, blocked, w, h) && path[0] == from && Last(path) == to
  }

  ghost predicate Reachable(from: Point, to: Point, blocked: set<Point>, w: nat, h: nat) {
    exists path :: WalkTo(path, from, to, blocked, w, h)
  }

  /** The cells that can be reached from `start`, itself included. */
  ghost function Component(start: Point, blocked: set<Point>, w: nat, h: nat): set<Point> {
    set p | p in Cells(w, h) + {start} && Reachable(start, p, blocked, w, h)
  }

  lemma WalkOn(path: seq<Point>, from: Point, p: Point, q: Point, blocked: set<Point>, w: nat, h: nat)
    requires WalkTo(path, from, p, blocked, w, h) && Neighbours(p, q) && Free(q, blocked, w, h)
    ensures WalkTo(path + [q], from, q, blocked, w, h)
  {
  }

  lemma ReachableOn(from: Point, p: Point, q: Point, blocked: set<Point>, w: nat, h: nat)
    requires Reachable(from, p, blocked, w, h) && Neighbours(p, q) && Free(q, blocked, w, h)
    ensures Reachable(from, q, blocked, w, h)
  {
    var path :| WalkTo(path, from, p, blocked, w, h);
    WalkOn(path, from, p, q, blocked, w, h);
  }

  // ---------------------------------------------------------------- flood fill

  /** Every free neighbour of every cell of `inner` has been seen. */
  ghost predicate Closed(inner: set<Point>, seen: set<Point>, blocked: set<Point>, w: nat, h: nat) {
    forall p, d :: p in inner && Free(Move(p, d), blocked, w, h) ==> Move(p, d) in seen
  }

  lemma {:induction false} WalkStaysIn(path: seq<Point>, seen: set<Point>, blocked: set<Point>, w: nat, h: nat)
    requires Walk(path, blocked, w, h) && path[0] in seen && Closed(seen, seen, blocked, w, h)
    ensures Last(path) in seen
    decreases |path|
  {
    if |path| > 1 {
      WalkStaysIn(path[..|path| - 1], seen, blocked, w, h);
      assert Neighbours(path[|path| - 2], path[|path| - 1]);
    }
  }

  lemma ClosedIsComponent(start: Point, seen: set<Point>, blocked: set<Point>, w: nat, h: nat)
    requires start in seen && Closed(seen, seen, blocked, w, h)
    ensures Component(start, blocked, w, h) <= seen
  {
    forall p | p in Component(start, blocked, w, h)
      ensures p in seen
    {
      var path :| WalkTo(path, start, p, blocked, w, h);
      WalkStaysIn(path, seen, blocked, w, h);
    }
  }

  lemma StartReachesItself(start: Point, blocked: set<Point>, w: nat, h: nat)
    ensures start in Component(start, blocked, w, h)
  {
    assert WalkTo([start], start, start, blocked, w, h);
  }

  lemma ComponentGrows(start: Point, c: Point, d: Dir, blocked: set<Point>, w: nat, h: nat)
    requires c in Component(start, blocked, w, h) && Free(Move(c, d), blocked, w, h)
    ensures Move(c, d) in Component(start, blocked, w, h)
  {
    var q := Move(c, d);
    assert q == Point(q.x, q.y);
    ReachableOn(start, c, q, blocked, w, h);
  }

  /** Cells reachable from `start`, counted until `cap` is reached: the count is exact below
      the cap, and never more than the component. */
  method FloodSize(start: Point, blocked: set<Point>, w: nat, h: nat, cap: nat) returns (size: nat)
    ensures size <= |Component(start, blocked, w, h)|
    ensures size < cap ==> size == |Component(start, blocked, w, h)|
  {
    var seen := {start};
    var queue := [start];
    ghost var whole := Component(start, blocked, w, h);
    StartReachesItself(start, blocked, w, h);
    while queue != [] && |seen| < cap
      invariant start in seen && seen <= whole
      invariant forall p :: p in queue ==> p in seen
      invariant Closed(seen - SetOf(queue), seen, blocked, w, h)
      decreases whole - seen, |queue|
    {
      var c := queue[0];
      ghost var seenBefore, queueBefore := seen, queue;
      queue := queue[1..];
      ghost var rest := queue;
      for i := 0 to |DIRS|
        invariant seenBefore <= seen <= whole
        invariant rest <= queue
        invariant forall p :: p in queue ==> p in rest || p in seen - seenBefore
        invariant forall p :: p in seen - seenBefore ==> p in queue
        invariant forall k :: 0 <= k < i && Free(Move(c, DIRS[k]), blocked, w, h) ==> Move(c, DIRS[k]) in seen
        invariant seen == seenBefore ==> queue == rest
      {
        var n := Move(c, DIRS[i]);
        if n.x < 0 || n.y < 0 || n.x >= w || n.y >= h || n in blocked || n in seen {
          continue;
        }
        ComponentGrows(start, c, DIRS[i], blocked, w, h);
        seen := seen + {n};
        queue := queue + [n];
      }
      AllDirs(c, seen, blocked, w, h);
      assert forall p :: p in seen - SetOf(queue) ==> p == c || p in seenBefore - SetOf(queueBefore);
    }
    SubsetCount(seen, whole);
    if queue == [] {
      assert seen - SetOf(queue) == seen;
      ClosedIsComponent(start, seen, blocked, w, h);
    }
    return |seen|;
  }

  lemma AllDirs(c: Point, seen: set<Point>, blocked: set<Point>, w: nat, h: nat)
    requires forall k :: 0 <= k < |DIRS| && Free(Move(c, DIRS[k]), blocked, w, h) ==> Move(c, DIRS[k]) in seen
    ensures forall d :: Free(Move(c, d), blocked, w, h) ==> Move(c, d) in seen
  {
    forall d | Free(Move(c, d), blocked, w, h)
      ensures Move(c, d) in seen
    {
      assert d == DIRS[0] || d == DIRS[1] || d == DIRS[2] || d == DIRS[3];
    }
  }

  // ---------------------------------------------------------------- choosing a move

  datatype Board = Board(body: seq<Point>, apples: set<Point>, width: nat, height: nat, dir: Option<Dir>)

  function Blocked(b: Board): set<Point>
    requires b.body != []
  {
    SetOf(b.body[..|b.body| - 1])
  }

  /** What the search may not cross: the body without its tail, and the head. */
  function Avoid(b: Board): set<Point>
    requires b.body != []
  {
    Blocked(b) + {b.body[0]}
  }

  function FirstCell(b: Board, d: Dir): Point
    requires b.body != []
  {
    Move(b.body[0], d)
  }

  /** A first move the bot considers: onto a free cell, not straight back. */
  predicate Candidate(b: Board, d: Dir)
    requires b.body != []
  {
    && !(b.dir.Some? && d == Opposite(b.dir.value) && |b.body| > 1)
    && Free(FirstCell(b, d), Blocked(b), b.width, b.height)
  }

  ghost function Room(b: Board, d: Dir): nat
    requires b.body != []
  {
    |Component(FirstCell(b, d), Blocked(b), b.width, b.height)|
  }

  ghost predicate Roomy(b: Board, d: Dir)
    requires b.body != []
  {
    Candidate(b, d) && Room(b, d) > |b.body|
  }

  /** The moves searched from: those with room for the whole body, or failing that, all. */
  ghost predicate InPool(b: Board, d: Dir)
    requires b.body != []
  {
    Candidate(b, d) && ((exists e :: Roomy(b, e)) ==> Roomy(b, d))
  }

  /** A way from the cell after first move `d` to an apple. */
  ghost predicate Route(b: Board, d: Dir, path: seq<Point>)
    requires b.body != []
  {
    && InPool(b, d)
    && Walk(path, Avoid(b), b.width, b.height) && path[0] == FirstCell(b, d) && Last(path) in b.apples
  }

  /** `d` starts a route no longer than any route of the pool. */
  ghost predicate StartsShortest(b: Board, d: Dir)
    requires b.body != []
  {
    exists path :: Route(b, d, path) && forall e, other :: Route(b, e, other) ==> |path| <= |other|
  }

  datatype FirstMove = FirstMove(dir: Dir, cell: Point, room: nat)

  /** What the moves collected by the bot say about the board. */
  ghost predicate MovesOf(b: Board, moves: seq<FirstMove>)
    requires b.body != []
  {
    && (forall m :: m in moves ==> Measured(b, m))
    && (forall d :: Candidate(b, d) ==> exists m :: m in moves && m.dir == d)
  }

  ghost predicate Measured(b: Board, m: FirstMove)
    requires b.body != []
  {
    && Candidate(b, m.dir) && m.cell == FirstCell(b, m.dir)
    && m.room <= Room(b, m.dir)
    && (m.room < |b.body| + 2 ==> m.room == Room(b, m.dir))
  }

  method FirstMoves(b: Board) returns (moves: seq<FirstMove>)
    requires b.body != []
    ensures MovesOf(b, moves)
  {
    moves := [];
    for i := 0 to |DIRS|
      invariant forall m :: m in moves ==> Measured(b, m)
      invariant forall k :: 0 <= k < i && Candidate(b, DIRS[k]) ==> exists m :: m in moves && m.dir == DIRS[k]
    {
      var d := DIRS[i];
      if b.dir.Some? && d == Opposite(b.dir.value) && |b.body| > 1 {
        continue;
      }
      var n := FirstCell(b, d);
      if n.x < 0 || n.y < 0 || n.x >= b.width || n.y >= b.height || n in Blocked(b) {
        continue;
      }
      var room := FloodSize(n, Blocked(b), b.width, b.height, |b.body| + 2);
      ghost var before := moves;
      moves := moves + [FirstMove(d, n, room)];
      assert forall m :: m in before ==> m in moves;
      assert moves[|moves| - 1] in moves;
    }
    forall d | Candidate(b, d)
      ensures exists m :: m in moves && m.dir == d
    {
      assert d == DIRS[0] || d == DIRS[1] || d == DIRS[2] || d == DIRS[3];
    }
  }

  /** `pool` lists exactly the pool moves, each with its measured room. */
  ghost predicate PoolOf(b: Board, pool: seq<FirstMove>)
    requires b.body != []
  {
    && (forall m :: m in pool ==> Measured(b, m) && InPool(b, m.dir))
    && (forall d :: InPool(b, d) ==> exists m :: m in pool && m.dir == d)
  }

  /** The roomy moves, or all of them when none is roomy. */
  method Pool(b: Board, moves: seq<FirstMove>) returns (pool: seq<FirstMove>)
    requires b.body != [] && MovesOf(b, moves) && moves != []
    ensures pool != [] && PoolOf(b, pool)
  {
    var roomy: seq<FirstMove> := [];
    for i := 0 to |moves|
      invariant forall m :: m in roomy <==> m in moves[..i] && m.room > |b.body|
    {
      assert moves[..i + 1] == moves[..i] + [moves[i]];
      if moves[i].room > |b.body| {
        roomy := roomy + [moves[i]];
      }
    }
    assert moves[..|moves|] == moves;
    assert forall m :: m in moves ==> (m.room > |b.body| <==> Roomy(b, m.dir));
    if roomy != [] {
      assert roomy[0] in roomy;
      assert Roomy(b, roomy[0].dir);
      pool := roomy;
    } else {
      assert moves[0] in moves;
      pool := moves;
    }
  }

  // ---------------------------------------------------------------- breadth-first search

  /** The search so far: `paths` holds for every cell seen a walk from a pool move, as long as
      the order of discovery; cells not in `queue` have been expanded. */
  ghost predicate Paths(b: Board, queue: seq<(Point, Dir)>, paths: map<Point, seq<Point>>)
    requires b.body != []
  {
    && (forall p :: p in paths ==> Walk(paths[p], Avoid(b), b.width, b.height) && Last(paths[p]) == p)
    && (forall d :: InPool(b, d) ==> FirstCell(b, d) in paths && |paths[FirstCell(b, d)]| == 1)
    && (forall k :: 0 <= k < |queue| ==>
          queue[k].0 in paths && InPool(b, queue[k].1) && paths[queue[k].0][0] == FirstCell(b, queue[k].1))
  }

  /** The queue is sorted by distance and spans at most two distances. */
  ghost predicate Sorted(queue: seq<(Point, Dir)>, paths: map<Point, seq<Point>>)
    requires forall k :: 0 <= k < |queue| ==> queue[k].0 in paths
  {
    forall i, j :: 0 <= i <= j < |queue| ==> |paths[queue[i].0]| <= |paths[queue[j].0]| <= |paths[queue[i].0]| + 1
  }

  /** Nothing still waiting is nearer than a cell already expanded. */
  ghost predicate Behind(queue: seq<(Point, Dir)>, paths: map<Point, seq<Point>>)
    requires forall k :: 0 <= k < |queue| ==> queue[k].0 in paths
  {
    forall p, k :: p in paths && 0 <= k < |queue| && !Waiting(queue, p) ==> |paths[p]| <= |paths[queue[k].0]|
  }

  predicate Waiting(queue: seq<(Point, Dir)>, p: Point) {
    exists k :: 0 <= k < |queue| && queue[k].0 == p
  }

  /** An expanded cell is no apple, and its free neighbours were reached at most one step later. */
  ghost predicate Expanded(b: Board, paths: map<Point, seq<Point>>, p: Point)
    requires b.body != [] && p in paths
  {
    && p !in b.apples
    && forall d :: Free(Move(p, d), Avoid(b), b.width, b.height) ==>
         Move(p, d) in paths && |paths[Move(p, d)]| <= |paths[p]| + 1
  }

  ghost predicate Searching(b: Board, queue: seq<(Point, Dir)>, paths: map<Point, seq<Point>>)
    requires b.body != []
  {
    && Paths(b, queue, paths)
    && Sorted(queue, paths) && Behind(queue, paths)
    && forall p :: p in paths && !Waiting(queue, p) ==> Expanded(b, paths, p)
  }

  /** A walk from the pool that is shorter than everything still waiting ends on an expanded cell. */
  lemma {:induction false} ShortWalksAreDone(b: Board, queue: seq<(Point, Dir)>, paths: map<Point, seq<Point>>, walk: seq<Point>, bound: nat)
    requires b.body != [] && Searching(b, queue, paths)
    requires forall k :: 0 <= k < |queue| ==> |paths[queue[k].0]| >= bound
    requires Walk(walk, Avoid(b), b.width, b.height) && exists d :: InPool(b, d) && walk[0] == FirstCell(b, d)
    ensures |walk| < bound ==> Last(walk) in paths && |paths[Last(walk)]| <= |walk| && !Waiting(queue, Last(walk))
    decreases |walk|
  {
    if |walk| > 1 {
      var front := walk[..|walk| - 1];
      ShortWalksAreDone(b, queue, paths, front, bound);
      assert Neighbours(walk[|walk| - 2], walk[|walk| - 1]);
    }
  }

  /** The first apple taken from the queue ends a shortest route. */
  lemma FoundIsShortest(b: Board, queue: seq<(Point, Dir)>, paths: map<Point, seq<Point>>)
    requires b.body != [] && queue != [] && Searching(b, queue, paths) && queue[0].0 in b.apples
    ensures InPool(b, queue[0].1) && StartsShortest(b, queue[0].1)
  {
    var c, first := queue[0].0, queue[0].1;
    assert Route(b, first, paths[c]);
    forall e, other | Route(b, e, other)
      ensures |paths[c]| <= |other|
    {
      ShortWalksAreDone(b, queue, paths, other, |paths[c]|);
    }
  }

  /** When the queue runs dry, no apple can be reached from the pool. */
  lemma NothingFound(b: Board, paths: map<Point, seq<Point>>)
    requires b.body != [] && Searching(b, [], paths)
    ensures forall e, other :: !Route(b, e, other)
  {
    forall e, other
      ensures !Route(b, e, other)
    {
      if InPool(b, e) && Walk(other, Avoid(b), b.width, b.height) && other[0] == FirstCell(b, e) {
        ShortWalksAreDone(b, [], paths, other, |other| + 1);
      }
    }
  }

  /** `added` queues, with the label `first`, exactly the free neighbours of `c` not seen before. */
  ghost predicate QueuedFrom(b: Board, c: Point, first: Dir, seen: set<Point>, seen': set<Point>, added: seq<(Point, Dir)>)
    requires b.body != []
  {
    && seen <= seen'
    && (forall p :: p in seen' - seen <==> Waiting(added, p))
    && (forall k :: 0 <= k < |added| ==>
          added[k].1 == first && Neighbours(c, added[k].0) && added[k].0 !in seen
          && Free(added[k].0, Blocked(b), b.width, b.height))
    && (forall d :: Free(Move(c, d), Blocked(b), b.width, b.height) ==> Move(c, d) in seen')
  }

  /** One expansion: every free neighbour of `c` not seen before joins the queue behind it. */
  method Expand(b: Board, c: Point, first: Dir, seen: set<Point>)
    returns (seen': set<Point>, added: seq<(Point, Dir)>)
    requires b.body != []
    ensures QueuedFrom(b, c, first, seen, seen', added)
  {
    seen', added := seen, [];
    for i := 0 to |DIRS|
      invariant seen <= seen'
      invariant forall p :: p in seen' - seen <==> Waiting(added, p)
      invariant forall k :: 0 <= k < |added| ==>
                  added[k].1 == first && Neighbours(c, added[k].0) && added[k].0 !in seen
                  && Free(added[k].0, Blocked(b), b.width, b.height)
      invariant forall k :: 0 <= k < i && Free(Move(c, DIRS[k]), Blocked(b), b.width, b.height) ==> Move(c, DIRS[k]) in seen'
    {
      var n := Move(c, DIRS[i]);
      if n.x < 0 || n.y < 0 || n.x >= b.width || n.y >= b.height || n in Blocked(b) || n in seen' {
        continue;
      }
      ghost var before := added;
      added := added + [(n, first)];
      seen' := seen' + {n};
      assert added[|before|].0 == n;
      assert forall k :: 0 <= k < |before| ==> added[k] == before[k];
      assert forall p :: Waiting(added, p) <==> Waiting(before, p) || p == n;
    }
    AllDirs(c, seen', Blocked(b), b.width, b.height);
  }

  ghost function Extended(paths: map<Point, seq<Point>>, c: Point, news: set<Point>): map<Point, seq<Point>>
    requires c in paths
  {
    map p | p in paths.Keys + news :: if p in paths then paths[p] else paths[c] + [p]
  }

  lemma WaitingParts(a: seq<(Point, Dir)>, z: seq<(Point, Dir)>, p: Point)
    ensures Waiting(a + z, p) <==> Waiting(a, p) || Waiting(z, p)
  {
    var whole := a + z;
    assert forall k :: 0 <= k < |a| ==> whole[k] == a[k];
    assert forall k :: 0 <= k < |z| ==> whole[|a| + k] == z[k];
  }

  /** What one expansion of the front of the queue delivers. */
  ghost predicate Expansion(b: Board, queue: seq<(Point, Dir)>, paths: map<Point, seq<Point>>, added: seq<(Point, Dir)>)
    requires b.body != []
  {
    && queue != [] && queue[0].0 in paths
    && (forall k :: 0 <= k < |added| ==>
          added[k].1 == queue[0].1 && Neighbours(queue[0].0, added[k].0) && added[k].0 !in paths
          && Free(added[k].0, Avoid(b), b.width, b.height))
    && (forall d :: Free(Move(queue[0].0, d), Avoid(b), b.width, b.height) ==>
          Move(queue[0].0, d) in paths || Waiting(added, Move(queue[0].0, d)))
  }

  function CellsOf(queue: seq<(Point, Dir)>): set<Point> {
    set k | 0 <= k < |queue| :: queue[k].0
  }

  lemma CellsAreWaiting(queue: seq<(Point, Dir)>, p: Point)
    ensures p in CellsOf(queue) <==> Waiting(queue, p)
  {
  }

  lemma ExpandPaths(b: Board, queue: seq<(Point, Dir)>, paths: map<Point, seq<Point>>, added: seq<(Point, Dir)>)
    requires b.body != [] && Paths(b, queue, paths) && Expansion(b, queue, paths, added)
    ensures Paths(b, queue[1..] + added, Extended(paths, queue[0].0, CellsOf(added)))
  {
    var c := queue[0].0;
    var more := Extended(paths, c, CellsOf(added));
    forall p | p in more
      ensures Walk(more[p], Avoid(b), b.width, b.height) && Last(more[p]) == p
    {
      if p !in paths {
        CellsAreWaiting(added, p);
        WalkOn(paths[c], paths[c][0], c, p, Avoid(b), b.width, b.height);
      }
    }
    var next := queue[1..] + added;
    forall k | 0 <= k < |next|
      ensures next[k].0 in more && InPool(b, next[k].1) && more[next[k].0][0] == FirstCell(b, next[k].1)
    {
      if k < |queue| - 1 {
        assert next[k] == queue[k + 1];
      } else {
        assert next[k] == added[k - (|queue| - 1)];
        CellsAreWaiting(added, next[k].0);
      }
    }
  }

  /** Distances in the queue after an expansion: the old entries keep theirs, the new ones
      are one step behind the expanded cell. */
  lemma ExpandDistances(b: Board, queue: seq<(Point, Dir)>, paths: map<Point, seq<Point>>, added: seq<(Point, Dir)>, k: nat)
    requires b.body != [] && Searching(b, queue, paths) && Expansion(b, queue, paths, added)
    requires k < |queue[1..] + added|
    ensures var cell := (queue[1..] + added)[k].0;
            var more := Extended(paths, queue[0].0, CellsOf(added));
            && cell in more
            && (if k < |queue| - 1 then cell == queue[k + 1].0 && more[cell] == paths[cell]
                else |more[cell]| == |paths[queue[0].0]| + 1)
  {
    var next := queue[1..] + added;
    if k < |queue| - 1 {
      assert next[k] == queue[k + 1];
    } else {
      assert next[k] == added[k - (|queue| - 1)];
      CellsAreWaiting(added, next[k].0);
    }
  }

  lemma ExpandSorted(b: Board, queue: seq<(Point, Dir)>, paths: map<Point, seq<Point>>, added: seq<(Point, Dir)>)
    requires b.body != [] && Searching(b, queue, paths) && Expansion(b, queue, paths, added)
    ensures Paths(b, queue[1..] + added, Extended(paths, queue[0].0, CellsOf(added)))
    ensures Sorted(queue[1..] + added, Extended(paths, queue[0].0, CellsOf(added)))
  {
    ExpandPaths(b, queue, paths, added);
    var more := Extended(paths, queue[0].0, CellsOf(added));
    var next := queue[1..] + added;
    forall i, j | 0 <= i <= j < |next|
      ensures |more[next[i].0]| <= |more[next[j].0]| <= |more[next[i].0]| + 1
    {
      ExpandDistances(b, queue, paths, added, i);
      ExpandDistances(b, queue, paths, added, j);
    }
  }

  /** A cell no longer waiting is the expanded one or was expanded before. */
  lemma SettledBefore(queue: seq<(Point, Dir)>, paths: map<Point, seq<Point>>, added: seq<(Point, Dir)>, p: Point)
    requires queue != [] && queue[0].0 in paths
    requires p in Extended(paths, queue[0].0, CellsOf(added)) && !Waiting(queue[1..] + added, p)
    ensures p in paths && (p == queue[0].0 || !Waiting(queue, p))
  {
    WaitingParts(queue[1..], added, p);
    CellsAreWaiting(added, p);
    assert queue == [queue[0]] + queue[1..];
    WaitingParts([queue[0]], queue[1..], p);
  }

  lemma ExpandBehind(b: Board, queue: seq<(Point, Dir)>, paths: map<Point, seq<Point>>, added: seq<(Point, Dir)>)
    requires b.body != [] && Searching(b, queue, paths) && Expansion(b, queue, paths, added)
    requires Paths(b, queue[1..] + added, Extended(paths, queue[0].0, CellsOf(added)))
    ensures Behind(queue[1..] + added, Extended(paths, queue[0].0, CellsOf(added)))
  {
    var more := Extended(paths, queue[0].0, CellsOf(added));
    var next := queue[1..] + added;
    forall p, k | p in more && 0 <= k < |next| && !Waiting(next, p)
      ensures |more[p]| <= |more[next[k].0]|
    {
      SettledBefore(queue, paths, added, p);
      ExpandDistances(b, queue, paths, added, k);
      assert |paths[p]| <= |paths[queue[0].0]|;
    }
  }

  lemma ExpandKeeps(b: Board, queue: seq<(Point, Dir)>, paths: map<Point, seq<Point>>, added: seq<(Point, Dir)>)
    requires b.body != [] && Searching(b, queue, paths) && Expansion(b, queue, paths, added) && queue[0].0 !in b.apples
    ensures Searching(b, queue[1..] + added, Extended(paths, queue[0].0, CellsOf(added)))
  {
    ExpandSorted(b, queue, paths, added);
    ExpandBehind(b, queue, paths, added);
    var more := Extended(paths, queue[0].0, CellsOf(added));
    var next := queue[1..] + added;
    hide Paths, Sorted, Behind;
    forall p | p in more && !Waiting(next, p)
      ensures Expanded(b, more, p)
    {
      SettledBefore(queue, paths, added, p);
      forall d | Free(Move(p, d), Avoid(b), b.width, b.height)
        ensures Move(p, d) in more && |more[Move(p, d)]| <= |more[p]| + 1
      {
        CellsAreWaiting(added, Move(p, d));
      }
    }
  }

  /** One turn of the search loop. */
  lemma SearchStep(b: Board, queue: seq<(Point, Dir)>, paths: map<Point, seq<Point>>,
                   seen: set<Point>, seen': set<Point>, added: seq<(Point, Dir)>)
    requires b.body != [] && queue != [] && Searching(b, queue, paths) && queue[0].0 !in b.apples
    requires seen == paths.Keys + {b.body[0]}
    requires QueuedFrom(b, queue[0].0, queue[0].1, seen, seen', added)
    ensures queue[0].0 in paths
    ensures var more := Extended(paths, queue[0].0, CellsOf(added));
            Searching(b, queue[1..] + added, more) && seen' == more.Keys + {b.body[0]}
  {
    assert queue[0].0 in paths;
    assert Expansion(b, queue, paths, added);
    ExpandKeeps(b, queue, paths, added);
    hide Searching;
    forall p
      ensures p in CellsOf(added) <==> p in seen' - seen
    {
      CellsAreWaiting(added, p);
    }
  }

  ghost function StartPaths(pool: seq<FirstMove>): map<Point, seq<Point>> {
    map m | m in pool :: m.cell := [m.cell]
  }

  /** The searching state before the first cell is taken: the pool cells, each a walk of its own. */
  lemma StartSearch(b: Board, pool: seq<FirstMove>, queue: seq<(Point, Dir)>)
    requires b.body != []
    requires PoolOf(b, pool)
    requires |queue| == |pool| && forall k :: 0 <= k < |pool| ==> queue[k] == (pool[k].cell, pool[k].dir)
    ensures Searching(b, queue, StartPaths(pool))
  {
    var paths := StartPaths(pool);
    forall k | 0 <= k < |queue|
      ensures queue[k].0 in paths && InPool(b, queue[k].1) && queue[k].0 == FirstCell(b, queue[k].1)
    {
      assert pool[k] in pool;
    }
    forall d | InPool(b, d)
      ensures FirstCell(b, d) in paths
    {
      var m :| m in pool && m.dir == d;
      assert m.cell in paths;
    }
    forall p | p in paths
      ensures Waiting(queue, p)
    {
      var m :| m in pool && m.cell == p;
      var k :| 0 <= k < |pool| && pool[k] == m;
      assert queue[k].0 == p;
    }
  }

  /** The pool move with the most room; the first of equals, as a stable sort leaves it. */
  method Roomiest(pool: seq<FirstMove>) returns (best: FirstMove)
    requires pool != []
    ensures best in pool && forall m :: m in pool ==> m.room <= best.room
  {
    best := pool[0];
    for i := 1 to |pool|
      invariant best in pool && forall k :: 0 <= k < i ==> pool[k].room <= best.room
    {
      if pool[i].room > best.room {
        best := pool[i];
      }
    }
  }

  method Sources(pool: seq<FirstMove>, head: Point) returns (seen: set<Point>, queue: seq<(Point, Dir)>)
    ensures seen == {head} + StartPaths(pool).Keys
    ensures |queue| == |pool| && forall k :: 0 <= k < |pool| ==> queue[k] == (pool[k].cell, pool[k].dir)
  {
    seen := {head};
    queue := [];
    for i := 0 to |pool|
      invariant |queue| == i && forall k :: 0 <= k < i ==> queue[k] == (pool[k].cell, pool[k].dir)
      invariant seen == {head} + set k | 0 <= k < i :: pool[k].cell
    {
      seen := seen + {pool[i].cell};
      queue := queue + [(pool[i].cell, pool[i].dir)];
    }
    forall p
      ensures p in StartPaths(pool) <==> exists k :: 0 <= k < |pool| && pool[k].cell == p
    {
      if p in StartPaths(pool) {
        var m :| m in pool && m.cell == p;
      }
    }
  }

  /** Breadth-first search from every pool move at once; None when no apple is reachable. */
  method Search(b: Board, pool: seq<FirstMove>) returns (found: Option<Dir>)
    requires b.body != []
    requires PoolOf(b, pool)
    ensures found.Some? ==> InPool(b, found.value) && StartsShortest(b, found.value)
    ensures found.None? ==> forall e, path :: !Route(b, e, path)
  {
    hide Searching, InPool, PoolOf, StartsShortest, QueuedFrom, StartPaths, Route, CellsOf, Extended;
    var seen, queue := Sources(pool, b.body[0]);
    ghost var paths := StartPaths(pool);
    StartSearch(b, pool, queue);
    while queue != []
      invariant Searching(b, queue, paths)
      invariant seen == paths.Keys + {b.body[0]}
      decreases Cells(b.width, b.height) - seen, |queue|
    {
      var c := queue[0].0;
      var first := queue[0].1;
      if c in b.apples {
        FoundIsShortest(b, queue, paths);
        return Some(first);
      }
      var seen', added := Expand(b, c, first, seen);
      SeenGrows(b, c, first, seen, seen', added);
      SearchStep(b, queue, paths, seen, seen', added);
      paths := Extended(paths, c, CellsOf(added));
      queue := queue[1..] + added;
      seen := seen';
    }
    NothingFound(b, paths);
    return None;
  }

  /** An expansion that queues nothing sees nothing new; any other uses up free cells. */
  lemma SeenGrows(b: Board, c: Point, first: Dir, seen: set<Point>, seen': set<Point>, added: seq<(Point, Dir)>)
    requires b.body != [] && QueuedFrom(b, c, first, seen, seen', added)
    ensures added == [] ==> seen' == seen
    ensures added != [] ==> Cells(b.width, b.height) - seen' < Cells(b.width, b.height) - seen
  {
    if added == [] {
      assert seen' - seen == {};
      assert seen' == seen + (seen' - seen);
    } else {
      var p := added[0].0;
      assert p == Point(p.x, p.y) && p in Cells(b.width, b.height);
      assert added[0].0 == p && Waiting(added, p);
      assert p in seen' - seen;
      assert p in Cells(b.width, b.height) - seen && p !in Cells(b.width, b.height) - seen';
      assert Cells(b.width, b.height) - seen' <= Cells(b.width, b.height) - seen;
    }
  }

  /** The bot's move: the first step of a shortest free path to an apple, else the roomiest move. */
  method ChooseDir(b: Board) returns (d: Dir)
    requires b.body != []
    ensures (forall e :: !Candidate(b, e)) ==> d == b.dir.GetOr(Up)
    ensures (exists e :: Candidate(b, e)) ==> InPool(b, d)
    ensures (exists e, path :: Route(b, e, path)) ==> StartsShortest(b, d)
    ensures (exists e :: Candidate(b, e)) && (forall e, path :: !Route(b, e, path)) ==>
              forall e :: InPool(b, e) ==> Room(b, d) >= Min(Room(b, e), |b.body| + 2)
  {
    var firstMoves := FirstMoves(b);
    if firstMoves == [] {
      return b.dir.GetOr(Up);
    }
    assert firstMoves[0] in firstMoves && Candidate(b, firstMoves[0].dir);
    var pool := Pool(b, firstMoves);
    var found := Search(b, pool);
    if found.Some? {
      return found.value;
    }
    var best := Roomiest(pool);
    return best.dir;
  }
}
