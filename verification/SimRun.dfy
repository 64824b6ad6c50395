/** One server-simulated generation inside the room: inputs, seats taken away, and the ticks
    that turn elapsed milliseconds into steps. */
module SimRun {
  import opened Prelude
  import opened Grid
  import opened RoomTypes
  import R = Relay
  import S = CoopSpec
  import B = CoopBoard
  import P = CoopPath
  import G = CoopRuns

  const ROOM_TICK_MS: nat := 16

  datatype Sim = Sim(
    generation: nat, slots: seq<ClientId>, settings: Settings, owner: Option<ClientId>,
    game: S.Game, accum: nat, alive: map<ClientId, bool>, timer: Option<nat>)

  datatype Outcome = Outcome(sim: Sim, out: seq<Msg>, over: Option<EndReason>)

  function Interval(s: Sim): nat {
    S.SpeedInterval(s.game.speedIndex)
  }

  function SnakeFrameOf(s: S.Snake): SnakeFrame {
    SnakeFrame(s.client, s.slot, s.color, s.body, s.dir, s.alive, s.score)
  }

  /** What every client sees of the simulation. */
  function FrameOf(g: S.Game): Frame {
    Frame(g.width, g.height, seq(|g.snakes|, i requires 0 <= i < |g.snakes| => SnakeFrameOf(g.snakes[i])), g.fruit, g.score,
          g.tick, g.seqNo, g.running, g.ended, g.reason, g.speedIndex, g.target)
  }

  function EndOf(g: S.Game): EndReason {
    match g.reason
    case None => Ended
    case Some(reason) => if reason == S.AllApples then AllApples else AllDead
  }

  /** The first accepted input arms the shared timer; every one goes to the sender's snake. */
  function Input(s: Sim, from: ClientId, dir: Dir, now: nat): Outcome {
    Outcome(s.(game := S.SetInput(s.game, from, dir), timer := if s.timer.None? then Some(now) else s.timer),
            if s.timer.None? then [TimerStart(None, now)] else [], None)
  }

  function EndIfAllDead(s: Sim, out: seq<Msg>): Outcome {
    Outcome(s, out, if R.AllSeatsDead(s.slots, s.alive) then Some(AllDead) else None)
  }

  /** A living seat taken away by the room dies in the simulation too. */
  function MarkDead(s: Sim, c: ClientId, cause: Reason): Outcome {
    if c !in s.slots || !R.Alive(s.alive, c) then Outcome(s, [], None)
    else
      var next := s.(alive := s.alive[c := false], game := S.Kill(s.game, c));
      EndIfAllDead(next, [SimDead(c, cause), CoopState(FrameOf(next.game))])
  }

  /** A client that leaves with its seat already dead, or without a seat, takes its entry along. */
  function Forget(s: Sim, c: ClientId): Sim {
    s.(alive := s.alive - {c})
  }

  function AliveFrom(alive: map<ClientId, bool>, ss: seq<S.Snake>): map<ClientId, bool>
    decreases |ss|
  {
    if ss == [] then alive
    else AliveFrom(alive, ss[..|ss| - 1])[Last(ss).client := Last(ss).alive]
  }

  /** The steps that the accumulated milliseconds pay for. */
  ghost function Catchup(s: Sim, interval: nat, stepped: bool): Outcome
    requires interval > 0
    decreases s.accum
  {
    if s.accum < interval then Outcome(s, if stepped then [CoopState(FrameOf(s.game))] else [], None)
    else
      var paid := s.(accum := s.accum - interval);
      if paid.game.ended then Outcome(paid, [CoopState(FrameOf(paid.game))], Some(EndOf(paid.game)))
      else if !paid.game.running then Outcome(paid, if stepped then [CoopState(FrameOf(s.game))] else [], None)
      else
        var game := S.Step(paid.game);
        var next := paid.(game := game, alive := AliveFrom(paid.alive, game.snakes));
        if game.ended then Outcome(next, [CoopState(FrameOf(game))], Some(EndOf(game)))
        else Catchup(next, interval, true)
  }

  /** One room tick; time stands still until the timer is armed. */
  ghost function Tick(s: Sim): Outcome {
    if s.timer.None? then
      var idle := s.(accum := 0);
      if s.game.ended then Outcome(idle, [CoopState(FrameOf(s.game))], Some(EndOf(s.game))) else Outcome(idle, [], None)
    else Catchup(s.(accum := s.accum + ROOM_TICK_MS), Interval(s), false)
  }

  // ---------------------------------------------------------------- the invariant

  predicate SeatsMatch(s: Sim) {
    && NoDup(s.slots) && 1 <= |s.slots| <= 4
    && |s.game.snakes| == |s.slots|
    && (forall i :: 0 <= i < |s.slots| ==> s.game.snakes[i].client == s.slots[i])
  }

  /** The room counts a seat as alive exactly when its snake is. */
  predicate AliveMatches(s: Sim) {
    && (forall i :: 0 <= i < |s.slots| && i < |s.game.snakes| ==>
          (R.Alive(s.alive, s.slots[i]) <==> s.game.snakes[i].alive))
    && (forall c :: c in s.alive ==> c in s.slots)
  }

  predicate ClockOk(s: Sim) {
    && s.accum < Interval(s)
    && (s.timer.None? ==> s.accum == 0 && s.game.tick == 0)
  }

  predicate InPlay(g: S.Game) {
    g.running && !g.ended && g.reason.None?
  }

  ghost predicate SimOk(s: Sim, players: set<ClientId>) {
    && SeatsMatch(s) && AliveMatches(s) && ClockOk(s) && InPlay(s.game) && G.Accounted(s.game)
    && (forall c :: R.Alive(s.alive, c) ==> c in players)
  }

  // ---------------------------------------------------------------- what keeps it

  lemma IntervalRange(i: nat)
    ensures 85 <= S.SpeedInterval(i) <= 200
  {
  }

  lemma StepFlags(g: S.Game)
    requires InPlay(g)
    ensures var next := S.Step(g);
            && next.tick == g.tick + 1 && next.speedIndex == g.speedIndex
            && (if next.ended then next.reason.Some? else InPlay(next))
            && |next.snakes| == |g.snakes|
            && (forall i :: 0 <= i < |g.snakes| ==>
                  next.snakes[i].client == g.snakes[i].client && (next.snakes[i].alive ==> g.snakes[i].alive))
  {
    P.StepSnakesAre(g);
    hide S.Dies, S.Survives, S.Eats, S.Fill, S.Spawn, S.FreeCells, S.Covered, S.TurnAll, S.AllSnakesDead;
    StepSnakesKeep(g);
  }

  lemma StepSnakesKeep(g: S.Game)
    ensures var next := S.MoveAll(g);
            && |next.snakes| == |g.snakes|
            && (forall i :: 0 <= i < |g.snakes| ==>
                  next.snakes[i].client == g.snakes[i].client && (next.snakes[i].alive ==> g.snakes[i].alive))
  {
    hide S.Dies, S.Survives, S.Eats;
  }

  lemma {:induction false} AliveFromSnakes(alive: map<ClientId, bool>, ss: seq<S.Snake>)
    requires forall i, j :: 0 <= i < j < |ss| ==> ss[i].client != ss[j].client
    ensures var after := AliveFrom(alive, ss);
            && (forall i :: 0 <= i < |ss| ==> ss[i].client in after && after[ss[i].client] == ss[i].alive)
            && (forall c :: c in after <==> c in alive || exists i :: 0 <= i < |ss| && ss[i].client == c)
    decreases |ss|
  {
    if ss != [] {
      AliveFromSnakes(alive, ss[..|ss| - 1]);
    }
  }

  /** One step that does not end the game. */
  lemma StepKeeps(s: Sim, players: set<ClientId>)
    requires SimOk(s, players)
    ensures var game := S.Step(s.game);
            var next := s.(game := game, alive := AliveFrom(s.alive, game.snakes));
            && game.tick == s.game.tick + 1
            && (game.ended ==> game.reason.Some?)
            && (!game.ended && s.timer.Some? ==> SimOk(next, players))
            && next.game.speedIndex == s.game.speedIndex
  {
    hide G.Accounted, S.Step, S.SpeedInterval;
    var game := S.Step(s.game);
    G.StepAccounted(s.game);
    StepFlags(s.game);
    SeatsAfterStep(s, game);
  }

  /** The room's entries follow the snakes. */
  lemma SeatsAfterStep(s: Sim, game: S.Game)
    requires SeatsMatch(s) && AliveMatches(s) && |game.snakes| == |s.game.snakes|
    requires forall i :: 0 <= i < |game.snakes| ==>
               game.snakes[i].client == s.game.snakes[i].client && (game.snakes[i].alive ==> s.game.snakes[i].alive)
    ensures var next := s.(game := game, alive := AliveFrom(s.alive, game.snakes));
            && SeatsMatch(next) && AliveMatches(next)
            && forall c :: R.Alive(next.alive, c) ==> R.Alive(s.alive, c)
  {
    AliveFromSnakes(s.alive, game.snakes);
    hide AliveFrom;
    var next := s.(game := game, alive := AliveFrom(s.alive, game.snakes));
    assert SeatsMatch(next);
    assert AliveMatches(next);
    forall c | R.Alive(next.alive, c)
      ensures R.Alive(s.alive, c)
    {
      var i :| 0 <= i < |s.slots| && s.slots[i] == c;
      assert game.snakes[i].alive;
      assert R.Alive(s.alive, s.slots[i]);
    }
  }

  lemma Paid(s: Sim, interval: nat, players: set<ClientId>)
    requires SimOk(s, players) && s.timer.Some? && interval == Interval(s)
    ensures var o := Catchup(s.(accum := s.accum + interval), interval, false);
            && (o.over.None? ==>
                  && SimOk(o.sim, players) && Interval(o.sim) == interval && o.sim.timer == s.timer
                  && o.sim.game.tick == s.game.tick + 1 && o.sim.accum == s.accum)
            && o.sim.game.tick == s.game.tick + 1
            && o.sim.slots == s.slots && o.sim.settings == s.settings && o.sim.generation == s.generation
  {
    IntervalRange(s.game.speedIndex);
    hide S.Step, S.SpeedInterval, G.Accounted, FrameOf, AliveFrom, SeatsMatch, AliveMatches, EndOf;
    var due := s.(accum := s.accum + interval);
    assert due.(accum := due.accum - interval) == s;
    StepKeeps(s, players);
  }

  /** The milliseconds that steps and accumulator account for. */
  function Elapsed(s: Sim): nat {
    Interval(s) * s.game.tick + s.accum
  }

  /** What a tick leaves, given the milliseconds it adds. */
  ghost predicate TickDone(s: Sim, o: Outcome, players: set<ClientId>, added: nat) {
    && (o.over.None? ==>
          && SimOk(o.sim, players) && Interval(o.sim) == Interval(s) && o.sim.timer == s.timer
          && Elapsed(o.sim) == Elapsed(s) + added)
    && o.sim.game.tick <= s.game.tick + 1
    && o.sim.slots == s.slots && o.sim.settings == s.settings && o.sim.generation == s.generation
  }

  lemma TickIsCatchup(s: Sim)
    requires s.timer.Some?
    ensures Interval(s) > 0 && Tick(s) == Catchup(s.(accum := s.accum + ROOM_TICK_MS), Interval(s), false)
  {
    IntervalRange(s.game.speedIndex);
    hide Catchup;
  }

  lemma TickSteps(s: Sim, players: set<ClientId>)
    requires SimOk(s, players) && s.timer.Some? && s.accum + ROOM_TICK_MS >= Interval(s)
    ensures TickDone(s, Tick(s), players, ROOM_TICK_MS)
  {
    IntervalRange(s.game.speedIndex);
    assert s.accum < Interval(s);
    hide SimOk, S.SpeedInterval, Catchup, Tick, Elapsed;
    var interval := Interval(s);
    var paid := s.(accum := s.accum + ROOM_TICK_MS - interval);
    SameButClock(s, paid, players);
    Paid(paid, interval, players);
    TickIsCatchup(s);
    assert s.(accum := s.accum + ROOM_TICK_MS) == paid.(accum := paid.accum + interval);
    StepElapses(s, Tick(s).sim);
  }

  lemma StepElapses(a: Sim, b: Sim)
    ensures Interval(b) == Interval(a) && b.game.tick == a.game.tick + 1 && b.accum + Interval(a) == a.accum + ROOM_TICK_MS ==>
              Elapsed(b) == Elapsed(a) + ROOM_TICK_MS
  {
    hide S.SpeedInterval;
    if b.game.tick == a.game.tick + 1 {
      assert Interval(a) * b.game.tick == Interval(a) * a.game.tick + Interval(a);
    }
  }

  /** A tick performs at most one step, and every sixteen milliseconds are accounted for. */
  lemma TickKeeps(s: Sim, players: set<ClientId>)
    requires SimOk(s, players)
    ensures TickDone(s, Tick(s), players, if s.timer.Some? then ROOM_TICK_MS else 0)
    ensures s.timer.None? ==> Tick(s) == Outcome(s, [], None)
  {
    IntervalRange(s.game.speedIndex);
    if s.timer.Some? {
      if s.accum + ROOM_TICK_MS >= Interval(s) {
        hide *;
        TickSteps(s, players);
      } else {
        SameButClock(s, s.(accum := s.accum + ROOM_TICK_MS), players);
        hide SimOk, S.SpeedInterval, S.Step, FrameOf, AliveFrom;
      }
    } else {
      hide S.SpeedInterval, S.Step, G.Accounted, Catchup;
    }
  }

  lemma SameButClock(s: Sim, t: Sim, players: set<ClientId>)
    requires SimOk(s, players) && t == s.(accum := t.accum) && s.timer.Some? && t.accum < Interval(s)
    ensures SimOk(t, players)
  {
    hide G.Accounted;
  }

  lemma InputKeeps(s: Sim, players: set<ClientId>, from: ClientId, dir: Dir, now: nat)
    requires SimOk(s, players)
    ensures var o := Input(s, from, dir, now);
            && SimOk(o.sim, players) && o.over.None? && FrameOf(o.sim.game) == FrameOf(s.game)
            && o.sim.game.tick == s.game.tick && Interval(o.sim) == Interval(s)
  {
    G.ExecAccounted(s.game, G.Key(from, dir));
    hide G.Accounted, S.Press, S.SpeedInterval;
    InputFrame(s.game, from, dir);
    assert AliveMatches(Input(s, from, dir, now).sim);
  }

  lemma PressFrame(s: S.Snake, dir: Dir)
    ensures SnakeFrameOf(S.Press(s, dir)) == SnakeFrameOf(s)
  {
  }

  /** A key press changes nothing that the others can see. */
  lemma InputFrame(g: S.Game, from: ClientId, dir: Dir)
    requires InPlay(g)
    ensures var next := S.SetInput(g, from, dir);
            && FrameOf(next) == FrameOf(g) && InPlay(next) && next.tick == g.tick && next.speedIndex == g.speedIndex
            && |next.snakes| == |g.snakes|
            && forall i :: 0 <= i < |g.snakes| ==> next.snakes[i].client == g.snakes[i].client && next.snakes[i].alive == g.snakes[i].alive
  {
    var next := S.SetInput(g, from, dir);
    var seat := S.SeatFrom(g.snakes, from, 0);
    if seat.Some? {
      PressFrame(g.snakes[seat.value], dir);
    }
    hide S.Press, S.SeatFrom;
    assert next == g.(snakes := next.snakes);
    assert forall i :: 0 <= i < |g.snakes| ==> SnakeFrameOf(next.snakes[i]) == SnakeFrameOf(g.snakes[i]);
    hide S.SetInput;
    assert FrameOf(next).snakes == FrameOf(g).snakes;
  }

  lemma FallMatches(s: Sim, c: ClientId, cause: Reason)
    requires SeatsMatch(s) && AliveMatches(s) && InPlay(s.game) && G.Accounted(s.game) && c in s.slots && R.Alive(s.alive, c)
    ensures var next := MarkDead(s, c, cause).sim;
            && SeatsMatch(next) && AliveMatches(next) && InPlay(next.game) && G.Accounted(next.game)
            && next.game == s.game.(snakes := next.game.snakes)
  {
    hide G.Accounted, S.Kill, FrameOf, R.AllSeatsDead;
    G.ExecAccounted(s.game, G.KillSeat(c));
    KillIs(s, c);
    var next := MarkDead(s, c, cause).sim;
    assert next == s.(alive := s.alive[c := false], game := S.Kill(s.game, c));
    hide MarkDead;
    assert SeatsMatch(next) by { hide AliveMatches; }
    assert AliveMatches(next);
  }

  /** A seat taken away by the room. */
  lemma FallKeeps(s: Sim, players: set<ClientId>, c: ClientId, cause: Reason)
    requires SimOk(s, players)
    ensures var o := MarkDead(s, c, cause);
            && SimOk(o.sim, players - {c})
            && !R.Alive(o.sim.alive, c)
            && o.sim.game.tick == s.game.tick && o.sim.accum == s.accum && o.sim.timer == s.timer && Interval(o.sim) == Interval(s)
            && o.sim.slots == s.slots && o.sim.settings == s.settings && o.sim.generation == s.generation
  {
    if c in s.slots && R.Alive(s.alive, c) {
      FallMatches(s, c, cause);
      hide G.Accounted, S.Kill, FrameOf, S.SpeedInterval, R.AllSeatsDead, SeatsMatch, AliveMatches;
    } else {
      hide G.Accounted, S.SpeedInterval;
      assert forall k :: R.Alive(s.alive, k) ==> k in s.slots;
    }
  }

  lemma FallOwner(s: Sim, c: ClientId, cause: Reason)
    ensures MarkDead(s, c, cause).sim.owner == s.owner
  {
    hide S.Kill, FrameOf, R.AllSeatsDead;
  }

  lemma FewerPlayers(s: Sim, few: set<ClientId>, more: set<ClientId>)
    requires SimOk(s, few) && few <= more
    ensures SimOk(s, more)
  {
    hide G.Accounted, SeatsMatch, AliveMatches;
  }

  lemma KillIs(s: Sim, c: ClientId)
    requires SeatsMatch(s) && c in s.slots
    ensures var g := S.Kill(s.game, c);
            && g == s.game.(snakes := g.snakes) && |g.snakes| == |s.game.snakes|
            && (forall i :: 0 <= i < |s.slots| ==> g.snakes[i] == if s.slots[i] == c then s.game.snakes[i].(alive := false) else s.game.snakes[i])
  {
    var k :| 0 <= k < |s.slots| && s.slots[k] == c;
    assert s.game.snakes[k].client == c;
  }

  lemma ForgetKeeps(s: Sim, players: set<ClientId>, c: ClientId)
    requires SimOk(s, players) && !R.Alive(s.alive, c)
    ensures SimOk(Forget(s, c), players) && SimOk(Forget(s, c), players - {c})
  {
    hide G.Accounted, S.SpeedInterval;
  }

  /** The death of the last living seat ends the session at once if and only if no other seat's
      entry has been forgotten. */
  lemma LastDeathEndsUnlessForgotten(s: Sim, players: set<ClientId>, c: ClientId, cause: Reason)
    requires SimOk(s, players) && c in s.slots && R.Alive(s.alive, c)
    requires forall id :: id in s.slots && id != c ==> !R.Alive(s.alive, id)
    ensures MarkDead(s, c, cause).over == Some(AllDead) <==> forall id :: id in s.slots ==> id in s.alive
  {
    hide G.Accounted, S.Kill, FrameOf;
    var next := MarkDead(s, c, cause).sim;
    assert next.alive == s.alive[c := false];
  }

  /** Two seats, the first dead and gone: the death of the second does not end the session, and
      as long as nobody steers no tick ever will. */
  lemma DeadSessionGoesOn(s: Sim, players: set<ClientId>, a: ClientId, b: ClientId)
    requires SimOk(s, players) && s.slots == [a, b] && s.timer.None?
    ensures var gone := Forget(MarkDead(s, a, Kicked).sim, a);
            var o := MarkDead(gone, b, Kicked);
            && o.over.None?
            && (forall i :: 0 <= i < |o.sim.game.snakes| ==> !o.sim.game.snakes[i].alive)
            && Tick(o.sim) == Outcome(o.sim, [], None)
  {
    var first := MarkDead(s, a, Kicked).sim;
    FallKeeps(s, players, a, Kicked);
    FewerPlayers(first, players - {a}, players);
    var gone := Forget(first, a);
    ForgetKeeps(first, players, a);
    var o := MarkDead(gone, b, Kicked);
    FallKeeps(gone, players, b, Kicked);
    TickKeeps(o.sim, players - {b});
    hide G.Accounted, S.Kill, FrameOf, Tick;
    assert a in o.sim.slots && a !in o.sim.alive;
    assert o.sim.slots[0] == a && o.sim.slots[1] == b;
    assert !R.Alive(o.sim.alive, o.sim.slots[0]) && !R.Alive(o.sim.alive, o.sim.slots[1]);
  }

  predicate NobodyAlive(s: Sim) {
    forall i :: 0 <= i < |s.game.snakes| ==> !s.game.snakes[i].alive
  }

  lemma DeadStep(g: S.Game)
    requires InPlay(g) && S.AllSnakesDead(g.snakes)
    ensures S.Step(g).ended && S.Step(g).reason == Some(S.AllDead)
  {
    StepSnakesKeep(g);
    forall i | 0 <= i < |g.snakes|
      ensures !S.Eats(g.width, g.height, S.TurnAll(g.snakes), g.fruit, i)
    {
    }
    assert S.Eaters(g.width, g.height, S.TurnAll(g.snakes), g.fruit) == {};
    hide S.MoveAll, S.Eats;
  }

  /** Such a session ends with the next step, once anybody has armed its timer. */
  lemma ArmedDeadSessionEnds(s: Sim, players: set<ClientId>)
    requires SimOk(s, players) && NobodyAlive(s) && s.timer.Some?
    ensures if s.accum + ROOM_TICK_MS >= Interval(s) then Tick(s).over == Some(AllDead)
            else Tick(s) == Outcome(s.(accum := s.accum + ROOM_TICK_MS), [], None)
  {
    IntervalRange(s.game.speedIndex);
    DeadStep(s.game);
    hide S.SpeedInterval, S.Step, G.Accounted, FrameOf, AliveFrom;
    if s.accum + ROOM_TICK_MS >= Interval(s) {
      var due := s.(accum := s.accum + ROOM_TICK_MS);
      assert due.(accum := due.accum - Interval(s)).game == s.game;
    }
  }

  // ---------------------------------------------------------------- why a session ends

  lemma AliveAfterStep(g: S.Game)
    requires InPlay(g)
    ensures var next := S.Step(g);
            && (next.ended <==> next.reason.Some?) && (next.ended ==> !next.running) && next.seqNo == g.seqNo + 1
            && (!next.ended ==> !S.AllSnakesDead(next.snakes))
            && (next.reason == Some(S.AllDead) ==> S.AllSnakesDead(next.snakes))
  {
    MoveFlags(g);
    hide S.MoveAll, S.AteAny, S.Fill, S.Spawn, S.FreeCells, S.Covered, S.AllSnakesDead;
  }

  lemma MoveFlags(g: S.Game)
    ensures var m := S.MoveAll(g); m.running == g.running && m.ended == g.ended && m.reason == g.reason && m.seqNo == g.seqNo + 1
  {
    hide S.StepSnake, S.Eaters, S.Entered, S.Without;
  }

  /** The state of the game, said of what clients see of it. */
  predicate BoardIsFull(f: Frame) {
    f.score == f.width * f.height - 3 * |f.snakes|
  }

  predicate EverybodyIsDead(f: Frame) {
    forall i :: 0 <= i < |f.snakes| ==> !f.snakes[i].alive
  }

  lemma FrameTells(g: S.Game)
    requires G.Accounted(g)
    ensures g.reason == Some(S.AllApples) <==> BoardIsFull(FrameOf(g))
    ensures S.AllSnakesDead(g.snakes) <==> EverybodyIsDead(FrameOf(g))
  {
    G.AccountedScore(g);
    hide G.Accounted;
    assert forall i :: 0 <= i < |g.snakes| ==> FrameOf(g).snakes[i].alive == g.snakes[i].alive;
  }

  /** A tick that ends the session shows the last board: the reason is that no apples are left exactly
      when the bodies cover it, and otherwise that nobody on it is alive. As long as the session lives
      neither is so. */
  lemma TickEndsForAReason(s: Sim, players: set<ClientId>)
    requires SimOk(s, players) && !NobodyAlive(s)
    ensures var o := Tick(s);
            var f := FrameOf(o.sim.game);
            if o.over.Some? then
              && o.out == [CoopState(f)]
              && (o.over == Some(AllApples) <==> BoardIsFull(f))
              && (o.over == Some(AllDead) <==> !BoardIsFull(f)) && (!BoardIsFull(f) ==> EverybodyIsDead(f))
            else !BoardIsFull(f) && !EverybodyIsDead(f)
  {
    hide SimOk, Tick, S.Step, G.Accounted, FrameOf, AliveFrom, BoardIsFull, EverybodyIsDead, S.AllSnakesDead;
    GameIsSound(s, players);
    TickOutcome(s, players);
    G.StepAccounted(s.game);
    AliveAfterStep(s.game);
    FrameTells(s.game);
    FrameTells(S.Step(s.game));
    NobodyIs(s);
  }

  lemma NobodyIs(s: Sim)
    ensures NobodyAlive(s) <==> S.AllSnakesDead(s.game.snakes)
  {
  }

  lemma GameIsSound(s: Sim, players: set<ClientId>)
    requires SimOk(s, players)
    ensures InPlay(s.game) && G.Accounted(s.game)
  {
    hide G.Accounted;
  }

  /** A tick makes the next step or none; the session is over exactly when that step ended the game. */
  lemma TickOutcome(s: Sim, players: set<ClientId>)
    requires SimOk(s, players)
    ensures var o, game := Tick(s), S.Step(s.game);
            if s.timer.Some? && s.accum + ROOM_TICK_MS >= Interval(s) then
              && o.sim.game == game && (o.over.Some? <==> game.ended)
              && (game.ended ==> o.over == Some(EndOf(game)) && o.out == [CoopState(FrameOf(game))])
            else o.over.None? && o.sim.game == s.game
  {
    IntervalRange(s.game.speedIndex);
    assert ClockOk(s) && InPlay(s.game);
    hide S.Step, G.Accounted, S.SpeedInterval, FrameOf, AliveFrom, EndOf, SeatsMatch, AliveMatches;
    if s.timer.Some? {
      var due := s.(accum := s.accum + ROOM_TICK_MS);
      TickIsCatchup(s);
      CatchupOnce(due, Interval(s));
      hide Catchup, Tick;
    }
  }

  lemma CatchupOnce(due: Sim, interval: nat)
    requires 0 < interval && due.accum < 2 * interval && InPlay(due.game)
    ensures var game := S.Step(due.game);
            Catchup(due, interval, false) ==
              if due.accum < interval then Outcome(due, [], None)
              else Outcome(due.(accum := due.accum - interval, game := game, alive := AliveFrom(due.alive, game.snakes)), [CoopState(FrameOf(game))], if game.ended then Some(EndOf(game)) else None)
  {
    hide S.Step, FrameOf, AliveFrom, EndOf;
    if due.accum >= interval {
      var game := S.Step(due.game);
      var next := due.(accum := due.accum - interval, game := game, alive := AliveFrom(due.alive, game.snakes));
      assert Catchup(next, interval, true) == Outcome(next, [CoopState(FrameOf(game))], None);
    }
  }

  // ---------------------------------------------------------------- exact scheduling

  datatype Op = TickOp | InputOp(from: ClientId, dir: Dir, now: nat) | GoneOp(client: ClientId, cause: Reason) | ForgetOp(client: ClientId)

  ghost function Perform(s: Sim, op: Op): Outcome {
    match op
    case TickOp => Tick(s)
    case InputOp(from, dir, now) => Input(s, from, dir, now)
    case GoneOp(c, cause) => MarkDead(s, c, cause)
    case ForgetOp(c) => if R.Alive(s.alive, c) then Outcome(s, [], None) else Outcome(Forget(s, c), [], None)
  }

  /** A run of one session; None once it is over. */
  ghost function RunSim(s: Sim, ops: seq<Op>): Option<Sim>
    decreases |ops|
  {
    if ops == [] then Some(s)
    else
      var before := RunSim(s, ops[..|ops| - 1]);
      if before.None? || Perform(before.value, Last(ops)).over.Some? then None
      else Some(Perform(before.value, Last(ops)).sim)
  }

  /** The ticks of a run that found the timer armed. */
  ghost function ArmedTicks(s: Sim, ops: seq<Op>): nat
    decreases |ops|
  {
    if ops == [] then 0
    else
      var front := ops[..|ops| - 1];
      var before := RunSim(s, front);
      ArmedTicks(s, front) + if before.Some? && before.value.timer.Some? && Last(ops) == TickOp then 1 else 0
  }

  lemma PerformKeeps(s: Sim, players: set<ClientId>, op: Op)
    requires SimOk(s, players)
    ensures var o := Perform(s, op);
            o.over.None? ==>
              && SimOk(o.sim, players) && Interval(o.sim) == Interval(s)
              && Elapsed(o.sim) == Elapsed(s) + (if s.timer.Some? && op == TickOp then ROOM_TICK_MS else 0)
  {
    hide SimOk, Tick, Input, MarkDead, S.SpeedInterval;
    match op
    case TickOp => TickKeeps(s, players);
    case InputOp(from, dir, now) =>
      InputKeeps(s, players, from, dir, now);
      InputClock(s, from, dir, now);
    case GoneOp(c, cause) =>
      FallKeeps(s, players, c, cause);
      FewerPlayers(MarkDead(s, c, cause).sim, players - {c}, players);
    case ForgetOp(c) =>
      if !R.Alive(s.alive, c) {
        ForgetKeeps(s, players, c);
      }
  }

  lemma InputClock(s: Sim, from: ClientId, dir: Dir, now: nat)
    ensures Input(s, from, dir, now).sim.accum == s.accum
  {
  }

  lemma {:induction false} ClockOverRun(s: Sim, players: set<ClientId>, ops: seq<Op>)
    requires SimOk(s, players) && s.timer.None?
    ensures RunSim(s, ops).Some? ==>
              var now := RunSim(s, ops).value;
              && SimOk(now, players) && Interval(now) == Interval(s)
              && Elapsed(now) == ROOM_TICK_MS * ArmedTicks(s, ops)
    decreases |ops|
  {
    var front := ops[..if ops == [] then 0 else |ops| - 1];
    if ops == [] {
      assert s.accum == 0 && s.game.tick == 0;
    } else {
      ClockOverRun(s, players, front);
      hide SimOk, Perform, Elapsed, Interval;
      if RunSim(s, front).Some? {
        PerformKeeps(RunSim(s, front).value, players, Last(ops));
      }
    }
  }

  lemma {:induction false} Gap(n: nat, a: nat, b: nat)
    ensures a < b ==> n * b >= n * a + n
    decreases b
  {
    if a + 1 < b {
      Gap(n, a, b - 1);
      assert n * b == n * (b - 1) + n;
    } else if a + 1 == b {
      assert n * b == n * a + n;
    }
  }

  lemma DivisionOf(interval: nat, ticks: nat, accum: nat, total: nat)
    requires accum < interval && interval * ticks + accum == total
    ensures ticks == total / interval && accum == total % interval
  {
    var q := total / interval;
    assert total == interval * q + total % interval;
    Gap(interval, ticks, q);
    Gap(interval, q, ticks);
  }

  /** After k room ticks with the timer armed, as long as the session lives, the simulation has
      made floor(16k / interval) steps and keeps 16k mod interval milliseconds. */
  lemma ExactSchedule(s: Sim, players: set<ClientId>, ops: seq<Op>)
    requires SimOk(s, players) && s.timer.None? && RunSim(s, ops).Some?
    ensures var now := RunSim(s, ops).value;
            var k := ArmedTicks(s, ops);
            && now.game.tick == ROOM_TICK_MS * k / Interval(s)
            && now.accum == ROOM_TICK_MS * k % Interval(s)
  {
    ClockOverRun(s, players, ops);
    var now := RunSim(s, ops).value;
    hide RunSim, ArmedTicks, S.SpeedInterval;
    assert now.accum < Interval(now);
    DivisionOf(Interval(s), now.game.tick, now.accum, ROOM_TICK_MS * ArmedTicks(s, ops));
  }
}
