/** What a live session keeps until it ends: its seats, its settings, its clock; and when a race
    past its time comes to a close. */
module RoomSessions {
  import opened Prelude
  import opened Grid
  import opened RoomTypes
  import opened RosterSpec
  import opened RosterInv
  import opened RoomSpec
  import opened RoomInv
  import R = Relay
  import RI = RelayInv
  import M = SimRun
  import S = CoopSpec
  import E = RaceScore
  import Colors

  predicate InSession(p: Phase) {
    p.Simulated? || p.Relayed?
  }

  predicate SameClock(a: M.Sim, b: M.Sim) {
    a.accum == b.accum && a.game.tick == b.game.tick && a.game.speedIndex == b.game.speedIndex
  }

  /** The same session, with the seats and settings it was started with. */
  predicate SameRun(p: Phase, q: Phase) {
    || (p.Relayed? && q.Relayed? && RI.SameSeats(q.relay, p.relay))
    || (p.Simulated? && q.Simulated? && q.sim.slots == p.sim.slots && q.sim.settings == p.sim.settings && q.sim.generation == p.sim.generation)
  }

  /** The session goes on as it was, its clock and its speed untouched, or it is over. */
  predicate Narrowed(s: Room, next: Room) {
    && next.generation == s.generation
    && (InSession(next.phase) ==> InSession(s.phase) && SameRun(s.phase, next.phase))
    && (next.phase.Simulated? && s.phase.Simulated? ==> SameClock(next.phase.sim, s.phase.sim))
    && (next.phase.Relayed? && s.phase.Relayed? ==> RI.SameSpeed(next.phase.relay.native, s.phase.relay.native))
  }

  lemma NarrowedChain(a: Room, b: Room, c: Room)
    requires Narrowed(a, b) && Narrowed(b, c)
    ensures Narrowed(a, c)
  {
  }

  lemma SamePhase(s: Room, next: Room)
    requires next.phase == s.phase && next.generation == s.generation
    ensures Narrowed(s, next)
  {
  }

  // ---------------------------------------------------------------- command by command

  lemma RelayActNarrows(s: Room, op: R.Op)
    requires s.phase.Relayed? && !op.SpeedOp?
    ensures Narrowed(s, RelayAct(s, op).room)
  {
    RI.SeatsAreFrozen(s.phase.relay, s.roster.clients.Keys, op);
    RI.SpeedCountsOnce(s.phase.relay, s.roster.clients.Keys, op);
    hide R.Perform, NobodyReady;
  }

  lemma KillClock(g: S.Game, c: ClientId)
    ensures S.Kill(g, c).tick == g.tick && S.Kill(g, c).speedIndex == g.speedIndex
  {
  }

  lemma InputClock(g: S.Game, c: ClientId, dir: Dir)
    ensures S.SetInput(g, c, dir).tick == g.tick && S.SetInput(g, c, dir).speedIndex == g.speedIndex
  {
    hide S.Press;
  }

  predicate SimKept(a: M.Sim, b: M.Sim) {
    a.slots == b.slots && a.settings == b.settings && a.generation == b.generation && SameClock(a, b)
  }

  lemma FallKept(sim: M.Sim, c: ClientId, cause: Reason)
    ensures SimKept(M.MarkDead(sim, c, cause).sim, sim)
  {
    KillClock(sim.game, c);
    hide S.Kill, M.FrameOf, R.AllSeatsDead;
  }

  lemma SimActNarrows(s: Room, o: M.Outcome)
    requires s.phase.Simulated? && SimKept(o.sim, s.phase.sim)
    ensures Narrowed(s, SimAct(s, o).room)
  {
    hide NobodyReady;
  }

  lemma SeatGoneNarrows(s: Room, c: ClientId, reason: Reason)
    ensures Narrowed(s, SeatGone(s, c, reason).room)
  {
    hide RelayAct, SimAct, M.MarkDead, Narrowed;
    match s.phase
    case Relayed(_) => RelayActNarrows(s, R.GoneOp(c, reason));
    case Simulated(sim) =>
      FallKept(sim, c, reason);
      SimActNarrows(s, M.MarkDead(sim, c, reason));
    case _ => SamePhase(s, s);
  }

  lemma GraceNarrows(s: Room)
    ensures Narrowed(s, MaybeEndGrace(s).0)
  {
    hide AnyRunning;
  }

  lemma ClearedNarrows(s: Room)
    ensures Narrowed(s, Cleared(s))
  {
    hide NobodyReady;
  }

  lemma AfterLeaveNarrows(s: Room)
    ensures Narrowed(s, AfterLeave(s).0)
  {
    var s1 := MaybeEndAllDead(s).0;
    var s2 := MaybeEndGrace(s1).0;
    ClearedNarrows(s);
    SamePhase(s, s);
    GraceNarrows(s1);
    ClearedNarrows(s2);
    hide Narrowed, Cleared, MaybeEndGrace, AllDeadIn;
    NarrowedChain(s, s1, s2);
    NarrowedChain(s, s2, Cleared(s2));
  }

  lemma VacatedNarrows(s: Room, id: ClientId)
    ensures Narrowed(s, Vacated(s, id))
  {
    OnlySimUnseats(s, id);
    if s.phase.Simulated? {
      FallKept(s.phase.sim, id, Disconnect);
      hide PickOwner, M.MarkDead, Departed;
    } else {
      hide Unseated, Departed;
    }
  }

  lemma LeaveNarrows(s: Room, id: ClientId)
    ensures Narrowed(s, Leave(s, id).0)
  {
    SamePhase(s, s);
    if id in s.roster.clients {
      hide Narrowed, AfterLeave, RelayAct, Unseated, Departed;
      var t := Released(s, id).room;
      if s.phase.Relayed? {
        RelayActNarrows(s, R.GoneOp(id, Disconnect));
      }
      VacatedNarrows(t, id);
      var left := Vacated(t, id);
      AfterLeaveNarrows(left);
      NarrowedChain(s, t, left);
      NarrowedChain(s, left, AfterLeave(left).0);
    }
  }

  lemma SetRoleNarrows(s: Room, from: ClientId, target: Option<ClientId>, role: Option<Role>)
    ensures Narrowed(s, SetRole(s, from, target, role).room)
  {
    hide Narrowed, MaybeEndGrace, SeatGone, Promoted, Demoted;
    SamePhase(s, s);
    if target.Some? && role.Some? && target.value in s.roster.clients {
      var id := target.value;
      if role.value == Player {
        var next := s.(roster := Promoted(s.roster, s.mode, id));
        SamePhase(s, next);
        GraceNarrows(next);
        NarrowedChain(s, next, MaybeEndGrace(next).0);
      } else {
        var gone := SeatGone(s, id, Demotion).room;
        SeatGoneNarrows(s, id, Demotion);
        if id in gone.roster.clients {
          var next := gone.(roster := Demoted(gone.roster, id));
          SamePhase(gone, next);
          GraceNarrows(next);
          NarrowedChain(s, gone, next);
          NarrowedChain(s, next, MaybeEndGrace(next).0);
        }
      }
    }
  }

  lemma KickNarrows(s: Room, from: ClientId, target: Option<ClientId>)
    ensures Narrowed(s, Kick(s, from, target).room)
  {
    hide Narrowed, SeatGone, Leave;
    SamePhase(s, s);
    if target.Some? {
      SeatGoneNarrows(s, target.value, Kicked);
      var gone := SeatGone(s, target.value, Kicked).room;
      LeaveNarrows(gone, target.value);
      NarrowedChain(s, gone, Leave(gone, target.value).0);
    }
  }

  lemma InputNarrows(s: Room, from: ClientId, dir: DirField, now: nat)
    ensures Narrowed(s, Input(s, from, dir, now).room)
  {
    hide Narrowed, SimAct, S.SetInput;
    SamePhase(s, s);
    if s.phase.Simulated? && dir.Heading? {
      InputClock(s.phase.sim.game, from, dir.dir);
      SimActNarrows(s, M.Input(s.phase.sim, from, dir.dir, now));
    }
  }

  lemma PulseNarrows(s: Room, from: ClientId, p: E.Pulse)
    ensures Narrowed(s, Pulse(s, from, p).room)
  {
    hide Narrowed, MaybeEndGrace, E.AfterPulse, CleanPulse;
    SamePhase(s, s);
    if from in s.roster.clients {
      var before := if from in s.attempt.scores then s.attempt.scores[from] else E.FRESH;
      var entry := E.AfterPulse(s.attempt.goal, before, CleanPulse(p, s.attempt.expired));
      var next := s.(attempt := s.attempt.(scores := s.attempt.scores[from := entry]));
      SamePhase(s, next);
      GraceNarrows(next);
      NarrowedChain(s, next, MaybeEndGrace(next).0);
    }
  }

  lemma RecordNarrows(s: Room, from: ClientId, q: Request, now: nat, seed: bv64)
    requires q.SetDurationReq? || q.SetRaceGoalReq? || q.ReadyReq? || q.ColorClaimReq? || q.SettingsSyncReq?
             || q.PlaySyncReq? || q.AdminTransferReq? || q.ResyncReq? || q.ServerOwnedReq?
    ensures Perform(s, from, q, now, seed).room.phase == s.phase && Perform(s, from, q, now, seed).room.generation == s.generation
  {
    hide Readied, Painted, E.AfterGoalChange, AllPlayersReady, ReplayMsgs, Colors.Claimable, ColorLocked;
  }

  lemma EndNarrows(s: Room, from: ClientId, q: Request, now: nat, seed: bv64)
    requires q.SessionEndReq? || q.ModeChangeReq? || q.GoalReq?
    ensures Narrowed(s, Perform(s, from, q, now, seed).room)
  {
    hide NobodyReady, TrimmedIfCoop, R.CheckGoal;
  }

  /** No request but a speed event and the start of a session changes more than the end of one. */
  lemma RequestNarrows(s: Room, from: ClientId, q: Request, now: nat, seed: bv64)
    requires !q.SessionStartReq? && (q.SpeedReq? ==> !s.phase.Relayed?)
    ensures Narrowed(s, Perform(s, from, q, now, seed).room)
  {
    hide Narrowed, SetRole, Kick, Input, Pulse, RelayAct, Goal, ModeChange, EndSession, SetDuration, SetRaceGoal, Ready, ColorClaim,
         SyncSettings, SyncPlay, AdminTransfer, Resync;
    SamePhase(s, s);
    match q
    case SetRoleReq(target, role) => SetRoleNarrows(s, from, target, role);
    case KickReq(target) => KickNarrows(s, from, target);
    case InputReq(dir) => InputNarrows(s, from, dir, now);
    case PulseReq(pulse) => PulseNarrows(s, from, pulse);
    case PoseReq(pose) => if s.phase.Relayed? { RelayActNarrows(s, R.PoseOp(from, pose, now)); }
    case BoardReq(board) => if s.phase.Relayed? { RelayActNarrows(s, R.BoardOp(from, board)); }
    case DeathReq(death) => if s.phase.Relayed? { RelayActNarrows(s, R.DeathOp(from, death)); }
    case SpeedReq(speed) =>
    case SessionEndReq => EndNarrows(s, from, q, now, seed);
    case ModeChangeReq(_) => EndNarrows(s, from, q, now, seed);
    case GoalReq(_) => EndNarrows(s, from, q, now, seed);
    case _ =>
      RecordNarrows(s, from, q, now, seed);
      SamePhase(s, Perform(s, from, q, now, seed).room);
  }

  // ---------------------------------------------------------------- frozen until the end

  /** What one command may do to the session: keep it, end it, or open the next generation. */
  predicate SessionKept(s: Room, next: Room) {
    && s.generation <= next.generation
    && (InSession(next.phase) ==>
          if InSession(s.phase) then next.generation == s.generation && SameRun(s.phase, next.phase)
          else next.generation == s.generation + 1)
  }

  lemma NarrowedIsKept(s: Room, next: Room)
    requires Narrowed(s, next)
    ensures SessionKept(s, next)
  {
  }

  lemma StartTouches(s: Room, from: ClientId, settings: Option<Settings>, finishOngoing: Option<bool>, now: nat, seed: bv64)
    ensures var next := StartSession(s, from, settings, finishOngoing, now, seed).room;
            || next == s
            || (s.mode == Race && next.phase.Racing? && next.generation == s.generation)
            || (s.mode == Coop && s.phase.Lobby? && next.generation == s.generation + 1)
  {
    StartCoopTouches(s.(settings := settings.GetOr(s.settings)), seed);
    hide StartCoop, AllPlayersReady, FirstSeats, NewSim, R.NewRelay;
  }

  lemma RaceHasNoSession(s: Room)
    requires RoomOk(s)
    ensures s.mode == Race ==> !InSession(s.phase)
  {
    hide RosterOk, M.SimOk, RI.RelayOk;
  }

  lemma StartKept(s: Room, from: ClientId, settings: Option<Settings>, finishOngoing: Option<bool>, now: nat, seed: bv64)
    requires RoomOk(s)
    ensures SessionKept(s, StartSession(s, from, settings, finishOngoing, now, seed).room)
  {
    hide RoomOk, StartSession;
    StartTouches(s, from, settings, finishOngoing, now, seed);
    RaceHasNoSession(s);
    SamePhase(s, s);
    NarrowedIsKept(s, s);
  }

  lemma TickKept(s: Room, now: nat)
    requires RoomOk(s)
    ensures SessionKept(s, Tick(s, now).room)
  {
    if s.mode == Race {
      assert !InSession(s.phase) by { hide RosterOk; }
      hide RoomOk, AnyRunning;
    } else if s.phase.Simulated? {
      M.TickKeeps(s.phase.sim, Players(s.roster.clients));
      hide RoomOk, M.Tick, NobodyReady;
    }
  }

  lemma ApplyKept(s: Room, c: Cmd)
    requires RoomOk(s)
    ensures SessionKept(s, Apply(s, c).room)
  {
    hide RoomOk, Narrowed, SessionKept, Leave, Tick, Perform;
    SamePhase(s, s);
    NarrowedIsKept(s, s);
    match c
    case JoinCmd(id, sameRoom) =>
      SamePhase(s, Join(s, id, sameRoom).room);
      NarrowedIsKept(s, Join(s, id, sameRoom).room);
    case LeaveCmd(id) =>
      LeaveNarrows(s, id);
      NarrowedIsKept(s, Leave(s, id).0);
    case TickCmd(now) => TickKept(s, now);
    case Handle(from, q, now, seed) =>
      AnsweredRoom(Perform(s, from, q, now, seed), from);
      if q.SessionStartReq? {
        StartKept(s, from, q.bundle, q.finishOngoing, now, seed);
        StartPerforms(s, from, q, now, seed);
      } else if q.SpeedReq? && s.phase.Relayed? {
        ShiftKept(s, from, q.speed);
        ShiftPerforms(s, from, q, now, seed);
      } else {
        RequestNarrows(s, from, q, now, seed);
        NarrowedIsKept(s, Perform(s, from, q, now, seed).room);
      }
  }

  lemma ShiftPerforms(s: Room, from: ClientId, q: Request, now: nat, seed: bv64)
    requires q.SpeedReq?
    ensures Perform(s, from, q, now, seed) == ShiftSpeed(s, from, q.speed)
  {
    hide ShiftSpeed;
  }

  lemma ShiftKept(s: Room, from: ClientId, e: SpeedIn)
    requires s.phase.Relayed?
    ensures SessionKept(s, ShiftSpeed(s, from, e).room)
  {
    RI.SeatsAreFrozen(s.phase.relay, s.roster.clients.Keys, R.SpeedOp(from, e));
    hide R.Perform, NobodyReady;
  }

  lemma AnsweredRoom(d: Done, from: ClientId)
    ensures Answered(d, from).room == d.room
  {
  }

  lemma StartPerforms(s: Room, from: ClientId, q: Request, now: nat, seed: bv64)
    requires q.SessionStartReq?
    ensures Perform(s, from, q, now, seed) == StartSession(s, from, q.bundle, q.finishOngoing, now, seed)
  {
    hide StartSession;
  }

  lemma {:induction false} GenerationsGrow(s: Room, cs: seq<Cmd>)
    requires RoomOk(s) && EnabledRun(s, cs)
    ensures s.generation <= Run(s, cs).generation
    decreases |cs|
  {
    if cs != [] {
      var front := cs[..|cs| - 1];
      hide RoomOk, Apply, Enabled;
      GenerationsGrow(s, front);
      RunKeeps(s, front);
      ApplyKept(Run(s, front), Last(cs));
    }
  }

  /** As long as a generation lasts, whatever promotions, demotions, departures or settings come
      in between, its seats, their order and its settings stay those it was started with. */
  lemma {:induction false} SeatsAreFrozen(s: Room, cs: seq<Cmd>)
    requires RoomOk(s) && EnabledRun(s, cs) && InSession(s.phase)
    ensures var last := Run(s, cs);
            InSession(last.phase) && last.generation == s.generation ==> SameRun(s.phase, last.phase)
    decreases |cs|
  {
    if cs != [] {
      var front := cs[..|cs| - 1];
      hide RoomOk, Apply, Enabled;
      SeatsAreFrozen(s, front);
      GenerationsGrow(s, front);
      RunKeeps(s, front);
      ApplyKept(Run(s, front), Last(cs));
    }
  }

  // ---------------------------------------------------------------- the clock of a session

  /** The simulation at the end of a run, while it is still the one of the start. */
  predicate SameSim(s: Room, last: Room) {
    s.phase.Simulated? && last.phase.Simulated? && last.generation == s.generation
  }

  /** The ticks of a run that found the session's timer armed. */
  ghost function ArmedTicks(s: Room, cs: seq<Cmd>): nat
    decreases |cs|
  {
    if cs == [] then 0
    else
      var front := cs[..|cs| - 1];
      var before := Run(s, front);
      ArmedTicks(s, front) + if Last(cs).TickCmd? && before.phase.Simulated? && before.phase.sim.timer.Some? then 1 else 0
  }

  ghost predicate ClockMoves(s: Room, next: Room, added: nat) {
    SameSim(s, next) ==>
      && M.Interval(next.phase.sim) == M.Interval(s.phase.sim)
      && M.Elapsed(next.phase.sim) == M.Elapsed(s.phase.sim) + added
  }

  lemma TickClock(s: Room, now: nat)
    requires RoomOk(s) && s.phase.Simulated?
    ensures ClockMoves(s, Tick(s, now).room, if s.phase.sim.timer.Some? then M.ROOM_TICK_MS else 0)
  {
    SimIsCoop(s);
    hide RoomOk, M.SimOk, M.Elapsed, NobodyReady, M.Tick, RaceTick, S.SpeedInterval;
    M.TickKeeps(s.phase.sim, Players(s.roster.clients));
  }

  lemma RequestClock(s: Room, from: ClientId, q: Request, now: nat, seed: bv64)
    requires RoomOk(s) && s.phase.Simulated?
    ensures ClockMoves(s, Perform(s, from, q, now, seed).room, 0)
  {
    SimIsCoop(s);
    hide RoomOk, M.SimOk, M.Elapsed, S.SpeedInterval, StartSession, Perform;
    if q.SessionStartReq? {
      StartPerforms(s, from, q, now, seed);
      StartTouches(s, from, q.bundle, q.finishOngoing, now, seed);
    } else {
      RequestNarrows(s, from, q, now, seed);
      ClocksAgree(s, Perform(s, from, q, now, seed).room);
    }
  }

  /** Within one simulated session only a tick with the timer armed moves the clock, by sixteen
      milliseconds. */
  lemma ApplyClock(s: Room, c: Cmd)
    requires RoomOk(s) && s.phase.Simulated?
    ensures ClockMoves(s, Apply(s, c).room, if c.TickCmd? && s.phase.sim.timer.Some? then M.ROOM_TICK_MS else 0)
  {
    hide RoomOk, Leave, Perform, Tick, Joined, M.Elapsed, S.SpeedInterval;
    match c
    case JoinCmd(id, sameRoom) =>
    case LeaveCmd(id) =>
      LeaveNarrows(s, id);
      ClocksAgree(s, Leave(s, id).0);
    case TickCmd(now) => TickClock(s, now);
    case Handle(from, q, now, seed) =>
      AnsweredRoom(Perform(s, from, q, now, seed), from);
      RequestClock(s, from, q, now, seed);
  }

  lemma SimIsCoop(s: Room)
    requires RoomOk(s) && s.phase.Simulated?
    ensures s.mode == Coop && M.SimOk(s.phase.sim, Players(s.roster.clients))
  {
    hide RosterOk, M.SimOk;
  }

  lemma ClocksAgree(s: Room, next: Room)
    requires Narrowed(s, next)
    ensures SameSim(s, next) ==> M.Interval(next.phase.sim) == M.Interval(s.phase.sim) && M.Elapsed(next.phase.sim) == M.Elapsed(s.phase.sim)
  {
    hide S.SpeedInterval;
  }

  lemma {:induction false} ClockOverRun(s: Room, cs: seq<Cmd>)
    requires RoomOk(s) && EnabledRun(s, cs) && s.phase.Simulated?
    ensures ClockMoves(s, Run(s, cs), M.ROOM_TICK_MS * ArmedTicks(s, cs))
    decreases |cs|
  {
    hide RoomOk, Apply, Enabled, M.Elapsed, M.Interval, SameRun;
    if cs != [] {
      var front := cs[..|cs| - 1];
      var before := Run(s, front);
      ClockOverRun(s, front);
      GenerationsGrow(s, front);
      RunKeeps(s, front);
      ApplyKept(before, Last(cs));
      if before.phase.Simulated? {
        ApplyClock(before, Last(cs));
      }
      KindIsKept(before, Apply(before, Last(cs)).room);
    }
  }

  lemma KindIsKept(s: Room, next: Room)
    requires SessionKept(s, next)
    ensures next.phase.Simulated? && next.generation == s.generation ==> s.phase.Simulated?
    ensures s.generation <= next.generation
  {
  }

  /** k room ticks after the first input of a fresh session, whatever else happens in between, as
      long as the session lives: floor(16k / interval) steps made, 16k mod interval left over. */
  lemma RoomSchedule(s: Room, cs: seq<Cmd>)
    requires RoomOk(s) && EnabledRun(s, cs) && SameSim(s, Run(s, cs)) && s.phase.sim.timer.None?
    ensures var sim := Run(s, cs).phase.sim;
            var k := ArmedTicks(s, cs);
            && sim.game.tick == M.ROOM_TICK_MS * k / M.Interval(s.phase.sim)
            && sim.accum == M.ROOM_TICK_MS * k % M.Interval(s.phase.sim)
  {
    SimIsCoop(s);
    assert M.Elapsed(s.phase.sim) == 0;
    RunKeeps(s, cs);
    ClockOverRun(s, cs);
    var last := Run(s, cs);
    SimIsCoop(last);
    assert last.phase.sim.accum < M.Interval(last.phase.sim);
    hide RoomOk, Run, EnabledRun, ArmedTicks, S.SpeedInterval, M.SimOk;
    M.DivisionOf(M.Interval(s.phase.sim), last.phase.sim.game.tick, last.phase.sim.accum, M.ROOM_TICK_MS * ArmedTicks(s, cs));
  }

  // ---------------------------------------------------------------- the speed of a session

  /** The speed event that a command makes the session count, if any. */
  function CountedBy(s: Room, c: Cmd): Option<SpeedIn> {
    if c.Handle? && c.request.SpeedReq? && s.phase.Relayed?
       && RI.Counted(s.phase.relay, s.roster.clients.Keys, R.SpeedOp(c.from, c.request.speed))
    then Some(c.request.speed) else None
  }

  /** The speed events counted along a run, in order. */
  ghost function CountedAlong(s: Room, cs: seq<Cmd>): seq<SpeedIn>
    decreases |cs|
  {
    if cs == [] then []
    else
      var counted := CountedBy(Run(s, cs[..|cs| - 1]), Last(cs));
      CountedAlong(s, cs[..|cs| - 1]) + if counted.Some? then [counted.value] else []
  }

  /** Both rooms run the same relayed session. */
  predicate SameRelay(s: Room, next: Room) {
    s.phase.Relayed? && next.phase.Relayed? && next.generation == s.generation
  }

  predicate CountsOne(n: R.Native, e: SpeedIn, next: R.Native) {
    && e.source.Some? && e.source.value !in n.sources && next.sources == n.sources + {e.source.value}
    && next.epoch == n.epoch + 1 && Ok(next.speed) == R.NextSpeed(n.speed, e)
  }

  /** What a command does to the speed of the session it leaves alive. */
  predicate SpeedMoves(s: Room, c: Cmd, next: Room) {
    SameRelay(s, next) ==>
      if CountedBy(s, c).Some? then CountsOne(s.phase.relay.native, CountedBy(s, c).value, next.phase.relay.native)
      else RI.SameSpeed(next.phase.relay.native, s.phase.relay.native)
  }

  lemma NarrowedIsQuiet(s: Room, c: Cmd, next: Room)
    requires Narrowed(s, next) && CountedBy(s, c).None?
    ensures SpeedMoves(s, c, next)
  {
    hide CountedBy;
  }

  lemma StartIsQuiet(s: Room, c: Cmd)
    requires RoomOk(s) && c.Handle? && c.request.SessionStartReq?
    ensures SpeedMoves(s, c, Perform(s, c.from, c.request, c.now, c.seed).room)
  {
    RaceHasNoSession(s);
    hide RoomOk, StartSession, Perform;
    StartPerforms(s, c.from, c.request, c.now, c.seed);
    StartTouches(s, c.from, c.request.bundle, c.request.finishOngoing, c.now, c.seed);
  }

  lemma ShiftMoves(s: Room, c: Cmd)
    requires c.Handle? && c.request.SpeedReq? && s.phase.Relayed?
    ensures SpeedMoves(s, c, ShiftSpeed(s, c.from, c.request.speed).room)
  {
    RI.SpeedCountsOnce(s.phase.relay, s.roster.clients.Keys, R.SpeedOp(c.from, c.request.speed));
    hide R.Perform, NobodyReady, RI.Counted, R.NextSpeed;
  }

  lemma TickIsQuiet(s: Room, now: nat)
    requires RoomOk(s) && s.phase.Relayed?
    ensures Tick(s, now).room == s
  {
    RaceHasNoSession(s);
    hide RoomOk, RaceTick;
  }

  lemma ApplySpeed(s: Room, c: Cmd)
    requires RoomOk(s) && s.phase.Relayed?
    ensures SpeedMoves(s, c, Apply(s, c).room)
  {
    hide RoomOk, Narrowed, SpeedMoves, Leave, Tick, Perform;
    match c
    case JoinCmd(id, sameRoom) =>
      SamePhase(s, Join(s, id, sameRoom).room);
      NarrowedIsQuiet(s, c, Join(s, id, sameRoom).room);
    case LeaveCmd(id) =>
      LeaveNarrows(s, id);
      NarrowedIsQuiet(s, c, Leave(s, id).0);
    case TickCmd(now) =>
      TickIsQuiet(s, now);
      SamePhase(s, s);
      NarrowedIsQuiet(s, c, s);
    case Handle(from, q, now, seed) =>
      AnsweredRoom(Perform(s, from, q, now, seed), from);
      if q.SessionStartReq? {
        StartIsQuiet(s, c);
      } else if q.SpeedReq? {
        ShiftMoves(s, c);
        ShiftPerforms(s, from, q, now, seed);
      } else {
        RequestNarrows(s, from, q, now, seed);
        NarrowedIsQuiet(s, c, Perform(s, from, q, now, seed).room);
      }
  }

  lemma RelayIsKept(s: Room, before: Room, next: Room)
    requires SessionKept(before, next) && s.generation <= before.generation
    ensures SameRelay(s, next) ==> SameRelay(s, before)
  {
  }

  lemma SpeedTally(start: R.Native, events: seq<SpeedIn>, s: Room, c: Cmd, next: Room)
    requires SpeedMoves(s, c, next) && SameRelay(s, next)
    requires RI.Counts(start, events, s.phase.relay.native) && RI.Effective(start.speed, events)
    ensures var more := events + if CountedBy(s, c).Some? then [CountedBy(s, c).value] else [];
            RI.Counts(start, more, next.phase.relay.native) && RI.Effective(start.speed, more)
  {
    var n := s.phase.relay.native;
    RI.SpeedSoFar(start, events, n);
    hide RI.Counts, RI.Effective, R.NextSpeed, CountedBy;
    if CountedBy(s, c).Some? {
      var e := CountedBy(s, c).value;
      RI.OneMoreEffective(start.speed, events, e);
      RI.CountsOneMore(start, events, n, e, next.phase.relay.native);
    } else {
      RI.CountsSame(start, events, n, next.phase.relay.native);
      assert events + [] == events;
    }
  }

  lemma {:induction false} TallyOverRun(s: Room, cs: seq<Cmd>)
    requires RoomOk(s) && EnabledRun(s, cs)
    ensures SameRelay(s, Run(s, cs)) ==>
              && RI.Counts(s.phase.relay.native, CountedAlong(s, cs), Run(s, cs).phase.relay.native)
              && RI.Effective(s.phase.relay.native.speed, CountedAlong(s, cs))
    decreases |cs|
  {
    if cs != [] {
      hide RoomOk, Apply, Enabled, RI.Counts, RI.Effective, SpeedMoves, CountedBy, SessionKept;
      var front := cs[..|cs| - 1];
      var before := Run(s, front);
      TallyOverRun(s, front);
      GenerationsGrow(s, front);
      RunKeeps(s, front);
      ApplyKept(before, Last(cs));
      RelayIsKept(s, before, Run(s, cs));
      if SameRelay(s, Run(s, cs)) {
        ApplySpeed(before, Last(cs));
        SpeedTally(s.phase.relay.native, CountedAlong(s, front), before, Last(cs), Run(s, cs));
      }
    } else if s.phase.Relayed? {
      hide RoomOk;
    }
  }

  /** Each source counts at most once, the epoch counts the counted events, and the speed is the value
      brought by the last of them that brought one (or that of the start), flipped once for each later
      toggle. */
  ghost predicate SpeedIsTold(n: R.Native, events: seq<SpeedIn>, last: R.Native) {
    && (forall i, j :: 0 <= i < j < |events| ==> events[i].source != events[j].source)
    && last.epoch == n.epoch + |events|
    && (forall e :: e in events ==> e.source.Some? && e.source.value !in n.sources)
    && (forall x :: x in last.sources <==> x in n.sources || exists e :: e in events && e.source == Some(x))
    && exists i: nat, v: Speed :: RI.FixedAt(n.speed, events, i, v) && last.speed == RI.Flipped(v, |events| - i)
  }

  /** Over any run of the room, as long as the generation lasts and whatever is resent, the speed is
      that of the events counted on the way. */
  lemma SpeedOverRun(s: Room, cs: seq<Cmd>)
    requires RoomOk(s) && EnabledRun(s, cs) && SameRelay(s, Run(s, cs))
    ensures SpeedIsTold(s.phase.relay.native, CountedAlong(s, cs), Run(s, cs).phase.relay.native)
  {
    hide RoomOk, Run, EnabledRun, CountedAlong, RI.Counts, RI.Effective, SpeedIsTold;
    TallyOverRun(s, cs);
    TallyMeans(s.phase.relay.native, CountedAlong(s, cs), Run(s, cs).phase.relay.native);
  }

  lemma TallyMeans(n: R.Native, events: seq<SpeedIn>, last: R.Native)
    requires RI.Counts(n, events, last) && RI.Effective(n.speed, events)
    ensures SpeedIsTold(n, events, last)
  {
    RI.SpeedIsSettled(n.speed, events);
    hide RI.SpeedFold, RI.FixedAt, RI.Flipped, RI.Effective;
  }

  // ---------------------------------------------------------------- the end of a grace period

  /** A race in its grace period stays in it, or closes because nobody is still running. */
  predicate GraceMoves(s: Room, next: Room) {
    InGrace(s) ==> InGrace(next) || (next.phase.Lobby? && !AnyRunning(next))
  }

  /** Does an administrator end or replace the session with this request? */
  predicate EndsRace(q: Request) {
    q.SessionEndReq? || q.ModeChangeReq? || q.SessionStartReq?
  }

  lemma ClosingMoves(s: Room)
    ensures var next := MaybeEndGrace(s).0; GraceMoves(s, next)
  {
    var next := MaybeEndGrace(s).0;
    if InGrace(s) && !AnyRunning(s) {
      forall id | id in next.roster.clients
        ensures !Running(next, id)
      {
        assert !Running(s, id);
      }
    }
  }

  lemma NobodyRuns(s: Room)
    ensures s.roster.clients == map[] ==> !AnyRunning(s)
  {
  }

  lemma GraceChain(a: Room, b: Room)
    requires InGrace(a) ==> InGrace(b)
    ensures GraceMoves(a, MaybeEndGrace(b).0)
  {
    ClosingMoves(b);
    hide MaybeEndGrace, AnyRunning;
  }

  lemma LeaveMoves(s: Room, id: ClientId)
    ensures GraceMoves(s, Leave(s, id).0)
  {
    hide AnyRunning, Departed, Unseated, RelayAct, NobodyReady;
    OnlySimUnseats(s, id);
    if InGrace(s) && id in s.roster.clients {
      var left := Vacated(s, id);
      assert MaybeEndAllDead(left) == (left, []);
      var s2 := MaybeEndGrace(left).0;
      GraceChain(s, left);
      NonEmptyKeys(s2.roster.clients);
      NonEmptyKeys(Cleared(s2).roster.clients);
      NobodyReadyKeys(s2.roster);
      NobodyRuns(Cleared(s2));
      assert Leave(s, id).0 == AfterLeave(left).0;
    }
  }

  lemma SetRoleMoves(s: Room, from: ClientId, target: Option<ClientId>, role: Option<Role>)
    ensures GraceMoves(s, SetRole(s, from, target, role).room)
  {
    hide AnyRunning, MaybeEndGrace, Promoted, Demoted;
    if InGrace(s) && target.Some? && role.Some? && target.value in s.roster.clients {
      var id := target.value;
      if role.value == Player {
        GraceChain(s, s.(roster := Promoted(s.roster, s.mode, id)));
      } else {
        GraceChain(s, s.(roster := Demoted(s.roster, id)));
      }
    }
  }

  lemma KickMoves(s: Room, from: ClientId, target: Option<ClientId>)
    ensures GraceMoves(s, Kick(s, from, target).room)
  {
    hide AnyRunning, Leave;
    if target.Some? {
      LeaveMoves(s, target.value);
    }
  }

  lemma PulseMoves(s: Room, from: ClientId, p: E.Pulse)
    ensures GraceMoves(s, Pulse(s, from, p).room)
  {
    hide AnyRunning, MaybeEndGrace, E.AfterPulse, CleanPulse;
    if from in s.roster.clients {
      var before := if from in s.attempt.scores then s.attempt.scores[from] else E.FRESH;
      var entry := E.AfterPulse(s.attempt.goal, before, CleanPulse(p, s.attempt.expired));
      GraceChain(s, s.(attempt := s.attempt.(scores := s.attempt.scores[from := entry])));
    }
  }

  lemma RecordMoves(s: Room, from: ClientId, q: Request, now: nat, seed: bv64)
    requires q.SetDurationReq? || q.SetRaceGoalReq? || q.ReadyReq? || q.ColorClaimReq? || q.SettingsSyncReq?
             || q.PlaySyncReq? || q.AdminTransferReq? || q.ResyncReq? || q.ServerOwnedReq?
             || q.InputReq? || q.PoseReq? || q.BoardReq? || q.DeathReq? || q.SpeedReq? || q.GoalReq?
    ensures InGrace(s) ==> InGrace(Perform(s, from, q, now, seed).room)
  {
    hide Readied, Painted, E.AfterGoalChange, AllPlayersReady, ReplayMsgs, Colors.Claimable, ColorLocked, RelayAct, SimAct, R.CheckGoal,
         NobodyReady;
  }

  lemma RequestMoves(s: Room, from: ClientId, q: Request, now: nat, seed: bv64)
    requires !EndsRace(q)
    ensures GraceMoves(s, Perform(s, from, q, now, seed).room)
  {
    hide GraceMoves, SetRole, Kick, Pulse;
    match q
    case SetRoleReq(target, role) => SetRoleMoves(s, from, target, role);
    case KickReq(target) => KickMoves(s, from, target);
    case PulseReq(pulse) => PulseMoves(s, from, pulse);
    case _ =>
      RecordMoves(s, from, q, now, seed);
      GraceStays(s, Perform(s, from, q, now, seed).room);
  }

  lemma GraceStays(s: Room, next: Room)
    requires InGrace(s) ==> InGrace(next)
    ensures GraceMoves(s, next)
  {
    hide AnyRunning;
  }

  /** Unless an administrator ends or replaces the session, a race in its grace period is open
      after a command exactly when some current player is still running; a player without a pulse
      counts as running. It does not matter whether the last runner died, left, was kicked or
      was demoted. */
  lemma GraceClosesExactly(s: Room, c: Cmd)
    requires RoomOk(s) && Enabled(s, c) && InGrace(s)
    requires c.Handle? ==> !EndsRace(c.request)
    ensures var next := Apply(s, c).room;
            && (next.phase.Racing? || next.phase.Lobby?)
            && (next.phase.Racing? <==> AnyRunning(next))
  {
    var next := Apply(s, c).room;
    ApplyKeeps(s, c);
    assert GraceOk(next) by { hide Apply, RosterOk, CoopOk; }
    ApplyMoves(s, c);
    hide RoomOk, Apply, AnyRunning;
  }

  lemma ApplyMoves(s: Room, c: Cmd)
    requires RoomOk(s) && (c.Handle? ==> !EndsRace(c.request))
    ensures GraceMoves(s, Apply(s, c).room)
  {
    hide GraceMoves, Leave, Perform, Joined, AnyRunning;
    match c
    case JoinCmd(id, sameRoom) => GraceStays(s, Join(s, id, sameRoom).room);
    case LeaveCmd(id) => LeaveMoves(s, id);
    case TickCmd(now) => TickMoves(s, now);
    case Handle(from, q, now, seed) =>
      AnsweredRoom(Perform(s, from, q, now, seed), from);
      RequestMoves(s, from, q, now, seed);
  }

  lemma TickMoves(s: Room, now: nat)
    requires RoomOk(s)
    ensures GraceMoves(s, Tick(s, now).room)
  {
    assert InGrace(s) ==> s.mode == Race by { hide RosterOk; }
    hide RoomOk, AnyRunning, SimAct;
  }
}
