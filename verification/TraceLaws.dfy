/** What a lawful trace of broadcasts says of timers, handovers, poses and corpses, without any
    monitor: everything is read off the messages themselves. */
module TraceLaws {
  import opened Prelude
  import opened Grid
  import opened RoomTypes
  import opened Relay
  import opened RelayTrace

  // ---------------------------------------------------------------- what a trace shows

  /** A live pose of generation `g` that says its snake has moved. */
  predicate IsMove(x: Msg, g: nat) {
    x.SnakeDelta? && x.figure.Live? && x.figure.pose.moved && x.figure.pose.generation == g
  }

  predicate MovedIn(xs: seq<Msg>, g: nat) {
    exists k :: 0 <= k < |xs| && IsMove(xs[k], g)
  }

  /** The session announced last. */
  function LastStart(xs: seq<Msg>): Option<Meta>
    decreases |xs|
  {
    if xs == [] then None
    else if Last(xs).SessionStart? then Some(Last(xs).meta)
    else LastStart(xs[..|xs| - 1])
  }

  /** The seats reported dead since then. */
  function FallenIn(xs: seq<Msg>): set<ClientId>
    decreases |xs|
  {
    if xs == [] || Last(xs).SessionStart? then {}
    else FallenIn(xs[..|xs| - 1]) + if Last(xs).PlayerDead? then {Owner(Last(xs).figure)} else {}
  }

  /** The last pose of `c` since then, or since the board opened. */
  function ShownIn(xs: seq<Msg>, c: ClientId): Option<Pose>
    decreases |xs|
  {
    if xs == [] || Last(xs).SessionStart? || Last(xs).BoardReady? then None
    else if Last(xs).SnakeDelta? && Last(xs).figure.Live? && Last(xs).figure.pose.client == c then Some(Last(xs).figure.pose)
    else ShownIn(xs[..|xs| - 1], c)
  }

  // ---------------------------------------------------------------- the monitor knows it

  lemma OneMore<T>(front: seq<T>, x: T)
    ensures Last(front + [x]) == x && (front + [x])[..|front + [x]| - 1] == front
  {
  }

  lemma MovedMore(xs: seq<Msg>, x: Msg, g: nat)
    ensures MovedIn(xs + [x], g) <==> MovedIn(xs, g) || IsMove(x, g)
  {
    var more := xs + [x];
    if MovedIn(xs, g) {
      var k :| 0 <= k < |xs| && IsMove(xs[k], g);
      assert more[k] == xs[k];
    }
    assert more[|xs|] == x;
    if MovedIn(more, g) && !IsMove(x, g) {
      var k :| 0 <= k < |more| && IsMove(more[k], g);
      assert more[k] == xs[k];
    }
  }

  /** No move of a generation that has not begun; in the present one, a move has been seen exactly when
      the timer runs or is due, and it is due only directly after the first. */
  ghost predicate Timed(xs: seq<Msg>, m: Monitor) {
    && (forall g :: g > m.generation ==> !MovedIn(xs, g))
    && (m.relay ==> (MovedIn(xs, m.generation) <==> m.timer || m.due))
    && (!m.relay ==> !MovedIn(xs, m.generation) && !m.due)
    && (m.due ==> xs != [] && IsMove(Last(xs), m.generation) && !MovedIn(xs[..|xs| - 1], m.generation) && !m.timer)
  }

  lemma TimedMore(xs: seq<Msg>, m: Monitor, x: Msg)
    requires Timed(xs, m) && Lawful(m, x)
    ensures Timed(xs + [x], Observe(m, x))
  {
    var n := Observe(m, x);
    OneMore(xs, x);
    forall g
      ensures MovedIn(xs + [x], g) <==> MovedIn(xs, g) || IsMove(x, g)
    {
      MovedMore(xs, x, g);
    }
    hide MovedIn, Newer, CorpseFits, FirstLeft, Fits;
    assert n.generation >= m.generation;
  }

  lemma {:induction false} TimerIsTimed(xs: seq<Msg>)
    requires LawfulTrace(SILENCE, xs)
    ensures Timed(xs, ObserveAll(SILENCE, xs))
    decreases |xs|
  {
    if xs != [] {
      var front := xs[..|xs| - 1];
      TimerIsTimed(front);
      hide Timed, Lawful, Observe;
      TimedMore(front, ObserveAll(SILENCE, front), Last(xs));
      assert front + [Last(xs)] == xs;
    }
  }

  /** The monitor knows the session, its dead and its last poses. */
  ghost predicate Knows(xs: seq<Msg>, m: Monitor) {
    && (m.live ==> LastStart(xs).Some? && LastStart(xs).value.generation == m.generation
                   && LastStart(xs).value.slots == m.slots && LastStart(xs).value.settings == m.settings)
    && FallenIn(xs) == m.dead
    && (forall c :: if c in m.shown then ShownIn(xs, c) == Some(m.shown[c]) else ShownIn(xs, c) == None)
  }

  lemma KnowsMore(xs: seq<Msg>, m: Monitor, x: Msg)
    requires Knows(xs, m) && Lawful(m, x)
    ensures Knows(xs + [x], Observe(m, x))
  {
    OneMore(xs, x);
    hide Newer, CorpseFits, FirstLeft, Fits;
  }

  lemma KnowsNothing()
    ensures ObserveAll(SILENCE, []) == SILENCE && Knows([], SILENCE)
  {
  }

  lemma {:induction false} MonitorKnows(xs: seq<Msg>)
    requires LawfulTrace(SILENCE, xs)
    ensures Knows(xs, ObserveAll(SILENCE, xs))
    decreases |xs|
  {
    if xs == [] {
      KnowsNothing();
    } else {
      var front := xs[..|xs| - 1];
      hide Knows, Lawful, Observe, LastStart, FallenIn, ShownIn;
      MonitorKnows(front);
      KnowsMore(front, ObserveAll(SILENCE, front), Last(xs));
      assert front + [Last(xs)] == xs;
    }
  }

  // ---------------------------------------------------------------- the laws

  /** A timer of a relayed generation starts directly after the first move of that generation. */
  lemma TimerFollowsFirstMove(xs: seq<Msg>, j: nat)
    requires LawfulTrace(SILENCE, xs) && j < |xs| && xs[j].TimerStart? && xs[j].tag.Some?
    ensures j > 0 && IsMove(xs[j - 1], xs[j].tag.value) && !MovedIn(xs[..j - 1], xs[j].tag.value)
  {
    PrefixIsLawful(SILENCE, xs, j);
    TimerIsTimed(xs[..j]);
    hide ObserveAll, LawfulTrace, MovedIn;
    var m := ObserveAll(SILENCE, xs[..j]);
    assert m.due && m.generation == xs[j].tag.value;
    assert xs[..j][..j - 1] == xs[..j - 1];
  }

  /** The first move of a generation is followed at once by the start of its timer, unless the trace
      breaks off between the two. */
  lemma FirstMoveStartsTimer(xs: seq<Msg>, j: nat, g: nat)
    requires LawfulTrace(SILENCE, xs) && j < |xs| && IsMove(xs[j], g) && !MovedIn(xs[..j], g)
    ensures if j + 1 < |xs| then xs[j + 1].TimerStart? && xs[j + 1].tag == Some(g) else ObserveAll(SILENCE, xs).due
  {
    var m := ObserveAll(SILENCE, xs[..j]);
    PrefixIsLawful(SILENCE, xs, j);
    TimerIsTimed(xs[..j]);
    hide MovedIn, Fits, Newer;
    assert m.relay && m.generation == g && !m.timer;
    assert xs[..j + 1][..j] == xs[..j] && Last(xs[..j + 1]) == xs[j];
    assert ObserveAll(SILENCE, xs[..j + 1]) == Observe(m, xs[j]);
    if j + 1 < |xs| {
      PrefixIsLawful(SILENCE, xs, j + 1);
    } else {
      assert xs[..j + 1] == xs;
    }
  }

  /** Every first move starts its timer at once, and no timer starts otherwise. */
  ghost predicate TimersFollowMoves(xs: seq<Msg>) {
    && (forall j: nat, g: nat :: j < |xs| && IsMove(xs[j], g) && !MovedIn(xs[..j], g) ==>
          j + 1 < |xs| && xs[j + 1].TimerStart? && xs[j + 1].tag == Some(g))
    && (forall j: nat :: j < |xs| && xs[j].TimerStart? && xs[j].tag.Some? ==>
          j > 0 && IsMove(xs[j - 1], xs[j].tag.value) && !MovedIn(xs[..j - 1], xs[j].tag.value))
  }

  lemma TimersAreInStep(xs: seq<Msg>)
    requires LawfulTrace(SILENCE, xs) && !ObserveAll(SILENCE, xs).due
    ensures TimersFollowMoves(xs)
  {
    hide LawfulTrace, ObserveAll, MovedIn, IsMove;
    forall j: nat, g: nat | j < |xs| && IsMove(xs[j], g) && !MovedIn(xs[..j], g)
      ensures j + 1 < |xs| && xs[j + 1].TimerStart? && xs[j + 1].tag == Some(g)
    {
      FirstMoveStartsTimer(xs, j, g);
    }
    forall j: nat | j < |xs| && xs[j].TimerStart? && xs[j].tag.Some?
      ensures j > 0 && IsMove(xs[j - 1], xs[j].tag.value) && !MovedIn(xs[..j - 1], xs[j].tag.value)
    {
      TimerFollowsFirstMove(xs, j);
    }
  }

  /** Where a board is asked for after a death, it is asked of the first seat of the session nobody has
      reported dead. */
  lemma HandoverGoesToFirstSeat(xs: seq<Msg>, j: nat)
    requires LawfulTrace(SILENCE, xs) && j < |xs| && xs[j].BoardInit?
    ensures var start := LastStart(xs[..j]);
            && start.Some? && start.value.generation == xs[j].generation
            && (FallenIn(xs[..j]) != {} ==> FirstLeft(start.value.slots, FallenIn(xs[..j]), xs[j].initializer))
  {
    PrefixIsLawful(SILENCE, xs, j);
    MonitorKnows(xs[..j]);
    hide ObserveAll, LawfulTrace, FirstLeft, LastStart, FallenIn, ShownIn;
  }

  /** A published pose is that of a seat, and its bodies lie on the board of the session. */
  lemma PosesLieOnTheBoard(xs: seq<Msg>, j: nat)
    requires LawfulTrace(SILENCE, xs) && j < |xs| && xs[j].SnakeDelta?
    ensures var start := LastStart(xs[..j]);
            && start.Some? && xs[j].figure.Live?
            && var p := xs[j].figure.pose;
               && p.generation == start.value.generation && p.client in start.value.slots && p.client !in FallenIn(xs[..j])
               && (p.moved ==> p.seated)
               && OnBoard(p.body, RelayDims(start.value.settings))
               && (Present(p.body2) ==> OnBoard(p.body2, RelayDims(start.value.settings)))
  {
    PrefixIsLawful(SILENCE, xs, j);
    MonitorKnows(xs[..j]);
    hide ObserveAll, LawfulTrace, OnBoard, LastStart, FallenIn, ShownIn, RelayDims;
  }

  /** A corpse is a seat of the session; one taken off by the room shows the last pose of its player
      since the board opened, or nothing when there was none; one that its player reported lies on the
      board. */
  lemma CorpsesShowLastPoses(xs: seq<Msg>, j: nat)
    requires LawfulTrace(SILENCE, xs) && j < |xs| && xs[j].PlayerDead?
    ensures var start := LastStart(xs[..j]);
            && start.Some? && xs[j].figure.Corpse?
            && var f := xs[j].figure;
               && f.client in start.value.slots && f.client !in FallenIn(xs[..j])
               && match f.remains {
                    case LastPose(p) => ShownIn(xs[..j], f.client) == Some(p)
                    case Nothing => ShownIn(xs[..j], f.client) == None
                    case Report(_, body, body2, _) =>
                      && OnBoardOrGone(body, RelayDims(start.value.settings))
                      && (body2.NullBody? || OnBoardOrGone(body2, RelayDims(start.value.settings)))
                  }
  {
    PrefixIsLawful(SILENCE, xs, j);
    MonitorKnows(xs[..j]);
    hide ObserveAll, LawfulTrace, OnBoardOrGone, LastStart, FallenIn, ShownIn, RelayDims, Newer;
  }
}
