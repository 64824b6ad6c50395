/** The clocks of a room over whole runs: when a race expires, what starts the timer of a simulated
    session, and what the room says when time ends a session. */
module RoomClocks {
  import opened Prelude
  import opened RoomTypes
  import opened RosterSpec
  import opened RoomSpec
  import opened RoomInv
  import opened RoomSessions
  import opened RoomRecords
  import R = Relay
  import M = SimRun
  import S = CoopSpec
  import E = RaceScore
  import Colors

  // ---------------------------------------------------------------- what a command does to the clocks

  predicate SameRaceClock(a: Attempt, b: Attempt) {
    a.deadline == b.deadline && a.expired == b.expired && a.allowNew == b.allowNew && a.finishOngoing == b.finishOngoing
  }

  /** A race that is still on kept its clock, a simulated session its timer; none has begun. */
  predicate ClocksKept(s: Room, next: Room) {
    && (next.phase.Racing? ==> s.phase.Racing? && SameRaceClock(next.attempt, s.attempt))
    && (next.phase.Simulated? ==> s.phase.Simulated? && next.phase.sim.timer == s.phase.sim.timer)
  }

  lemma KeptChain(a: Room, b: Room, c: Room)
    requires ClocksKept(a, b) && ClocksKept(b, c)
    ensures ClocksKept(a, c)
  {
  }

  lemma KeptSame(s: Room, next: Room)
    requires next.phase == s.phase && SameRaceClock(next.attempt, s.attempt)
    ensures ClocksKept(s, next)
  {
  }

  lemma FallTimer(sim: M.Sim, c: ClientId, cause: Reason)
    ensures M.MarkDead(sim, c, cause).sim.timer == sim.timer
  {
    hide S.Kill, M.FrameOf, R.AllSeatsDead;
  }

  lemma SeatGoneKept(s: Room, c: ClientId, reason: Reason)
    ensures ClocksKept(s, SeatGone(s, c, reason).room)
  {
    match s.phase
    case Simulated(sim) =>
      FallTimer(sim, c, reason);
      hide M.MarkDead, NobodyReady;
    case Relayed(relay) => hide R.Perform, NobodyReady;
    case _ =>
  }

  lemma GraceKept(s: Room)
    ensures ClocksKept(s, MaybeEndGrace(s).0)
  {
    hide AnyRunning;
  }

  lemma ClearedKept(s: Room, t: Room)
    requires ClocksKept(s, t)
    ensures ClocksKept(s, Cleared(t))
  {
    hide NobodyReady;
  }

  lemma AfterLeaveKept(s: Room)
    ensures ClocksKept(s, AfterLeave(s).0)
  {
    var s1 := MaybeEndAllDead(s).0;
    var s2 := MaybeEndGrace(s1).0;
    KeptSame(s, s);
    ClearedKept(s, s);
    GraceKept(s1);
    hide ClocksKept, Cleared, MaybeEndGrace, AllDeadIn;
    KeptChain(s, s1, s2);
    ClearedKept(s, s2);
  }

  lemma VacatedKept(s: Room, id: ClientId)
    ensures ClocksKept(s, Vacated(s, id))
  {
    OnlySimUnseats(s, id);
    if s.phase.Simulated? {
      FallTimer(s.phase.sim, id, Disconnect);
      hide PickOwner, M.MarkDead, Departed;
    } else {
      hide Unseated, Departed;
    }
  }

  lemma LeaveKept(s: Room, id: ClientId)
    ensures ClocksKept(s, Leave(s, id).0)
  {
    KeptSame(s, s);
    if id in s.roster.clients {
      var t := Released(s, id).room;
      assert ClocksKept(s, t) by {
        hide R.Perform, NobodyReady;
      }
      hide ClocksKept, AfterLeave, RelayAct, Unseated, Departed;
      VacatedKept(t, id);
      AfterLeaveKept(Vacated(t, id));
      KeptChain(s, t, Vacated(t, id));
      KeptChain(s, Vacated(t, id), AfterLeave(Vacated(t, id)).0);
    }
  }

  lemma WithGraceKept(s: Room, t: Room, out: seq<Out>)
    requires ClocksKept(s, t)
    ensures ClocksKept(s, WithGrace(t, out).room)
  {
    GraceKept(t);
    hide ClocksKept, MaybeEndGrace;
    KeptChain(s, t, MaybeEndGrace(t).0);
  }

  lemma SetRoleKept(s: Room, from: ClientId, target: Option<ClientId>, role: Option<Role>)
    ensures ClocksKept(s, SetRole(s, from, target, role).room)
  {
    KeptSame(s, s);
    if target.Some? && target.value in s.roster.clients {
      var id := target.value;
      var gone := SeatGone(s, id, Demotion).room;
      SeatGoneKept(s, id, Demotion);
      var up := s.(roster := Promoted(s.roster, s.mode, id));
      KeptSame(s, up);
      WithGraceKept(s, up, []);
      if id in gone.roster.clients {
        var down := gone.(roster := Demoted(gone.roster, id));
        KeptSame(gone, down);
        KeptChain(s, gone, down);
        WithGraceKept(s, down, SeatGone(s, id, Demotion).out);
      }
    }
    hide ClocksKept, SeatGone, Promoted, Demoted, WithGrace;
  }

  lemma KickKept(s: Room, from: ClientId, target: Option<ClientId>)
    ensures ClocksKept(s, Kick(s, from, target).room)
  {
    KeptSame(s, s);
    if target.Some? {
      SeatGoneKept(s, target.value, Kicked);
      var gone := SeatGone(s, target.value, Kicked).room;
      LeaveKept(gone, target.value);
      hide ClocksKept, SeatGone, Leave;
      KeptChain(s, gone, Leave(gone, target.value).0);
    }
  }

  lemma PulseKept(s: Room, from: ClientId, p: E.Pulse)
    ensures ClocksKept(s, Pulse(s, from, p).room)
  {
    KeptSame(s, s);
    if from in s.roster.clients {
      var before := if from in s.attempt.scores then s.attempt.scores[from] else E.FRESH;
      var entry := E.AfterPulse(s.attempt.goal, before, CleanPulse(p, s.attempt.expired));
      var next := s.(attempt := s.attempt.(scores := s.attempt.scores[from := entry]));
      KeptSame(s, next);
      GraceKept(next);
      KeptChain(s, next, MaybeEndGrace(next).0);
    }
    hide ClocksKept, MaybeEndGrace, E.AfterPulse, CleanPulse;
  }

  lemma PlayKept(s: Room, op: R.Op)
    ensures ClocksKept(s, Publish(s, op).room)
  {
    hide R.Perform, NobodyReady;
  }

  lemma ShiftKept(s: Room, from: ClientId, e: SpeedIn)
    ensures ClocksKept(s, ShiftSpeed(s, from, e).room)
  {
    hide R.Perform, NobodyReady;
  }

  lemma RecordKept(s: Room, from: ClientId, q: Request, now: nat, seed: bv64)
    requires q.SetDurationReq? || q.SetRaceGoalReq? || q.ReadyReq? || q.ColorClaimReq? || q.SettingsSyncReq? || q.PlaySyncReq?
             || q.AdminTransferReq? || q.ResyncReq? || q.ServerOwnedReq? || q.SessionEndReq? || q.ModeChangeReq? || q.GoalReq?
    ensures ClocksKept(s, Perform(s, from, q, now, seed).room)
  {
    hide Readied, Painted, AllPlayersReady, ReplayMsgs, Colors.Claimable, ColorLocked, NobodyReady, TrimmedIfCoop, R.CheckGoal,
         E.AfterGoalChange;
  }

  /** No request but the start of a session and an input of its players touches a clock. */
  lemma RequestKept(s: Room, from: ClientId, q: Request, now: nat, seed: bv64)
    requires !q.SessionStartReq? && !q.InputReq?
    ensures ClocksKept(s, Perform(s, from, q, now, seed).room)
  {
    hide ClocksKept, SetRole, Kick, Publish, ShiftSpeed, Pulse, SetDuration, SetRaceGoal, Ready, ColorClaim, ModeChange, SyncSettings,
         SyncPlay, EndSession, AdminTransfer, Resync, Goal;
    match q
    case SetRoleReq(target, role) => SetRoleKept(s, from, target, role);
    case KickReq(target) => KickKept(s, from, target);
    case PulseReq(pulse) => PulseKept(s, from, pulse);
    case PoseReq(pose) => PlayKept(s, R.PoseOp(from, pose, now));
    case BoardReq(board) => PlayKept(s, R.BoardOp(from, board));
    case DeathReq(death) => PlayKept(s, R.DeathOp(from, death));
    case SpeedReq(speed) => ShiftKept(s, from, speed);
    case _ => RecordKept(s, from, q, now, seed);
  }

  // ---------------------------------------------------------------- the race clock

  /** A tick at or past the deadline of a race. */
  predicate Rings(c: Cmd, deadline: nat) {
    c.TickCmd? && c.now >= deadline
  }

  lemma InputKeepsRace(s: Room, from: ClientId, dir: DirField, now: nat)
    ensures var next := Input(s, from, dir, now).room;
            (next.phase.Racing? ==> next == s) && next.attempt == s.attempt
  {
    hide M.Input, NobodyReady;
  }

  /** A tick leaves a race alone until its deadline. The first tick from then on expires it: with no
      grace to give it closes at once, and otherwise stays open exactly while somebody is running. */
  lemma TickJudgesTheRace(s: Room, now: nat, deadline: nat)
    requires RoomOk(s) && s.phase.Racing? && !s.attempt.expired && s.attempt.deadline == Some(deadline)
    ensures var d := Tick(s, now);
            if now < deadline then d == Accept(s, [])
            else
              && d.room.attempt.expired && !d.room.attempt.allowNew
              && (d.room.phase.Racing? || d.room.phase.Lobby?)
              && (d.room.phase.Racing? <==> s.attempt.finishOngoing && AnyRunning(s))
              && d.room.attempt.deadline == (if d.room.phase.Racing? then Some(deadline) else None)
              && d.room.attempt.scores == s.attempt.scores && d.room.roster == s.roster
              && d.out[0] == Out(None, AttemptExpired(s.attempt.finishOngoing, false))
  {
    RaceIsRace(s);
    var expired := s.(attempt := s.attempt.(expired := true, allowNew := false));
    RunningAlike(s, expired);
    hide RoomOk, AnyRunning;
  }

  lemma RunningAlike(s: Room, t: Room)
    requires t.roster == s.roster && t.attempt.scores == s.attempt.scores
    ensures AnyRunning(t) <==> AnyRunning(s)
  {
    assert forall id :: Running(t, id) <==> Running(s, id);
  }

  lemma RaceIsRace(s: Room)
    requires RoomOk(s) && s.phase.Racing?
    ensures s.mode == Race
  {
    hide RosterOk;
  }

  /** What one command does to a race that is on. */
  predicate RaceMoves(s: Room, c: Cmd, next: Room) {
    next.phase.Racing? ==>
      && s.phase.Racing?
      && next.attempt.deadline == s.attempt.deadline && next.attempt.finishOngoing == s.attempt.finishOngoing
      && (next.attempt.expired <==> s.attempt.expired || (s.attempt.deadline.Some? && Rings(c, s.attempt.deadline.value)))
  }

  lemma KeptMoves(s: Room, c: Cmd, next: Room)
    requires ClocksKept(s, next) && !c.TickCmd?
    ensures RaceMoves(s, c, next)
  {
  }

  lemma TickMovesRace(s: Room, now: nat)
    requires RoomOk(s)
    ensures RaceMoves(s, TickCmd(now), Tick(s, now).room)
  {
    if s.phase.Racing? {
      RaceIsRace(s);
    }
    hide RoomOk, AnyRunning, M.Tick, NobodyReady;
  }

  lemma ApplyMovesRace(s: Room, c: Cmd)
    requires RoomOk(s) && (c.Handle? ==> !EndsRace(c.request))
    ensures RaceMoves(s, c, Apply(s, c).room)
  {
    hide RoomOk, RaceMoves, ClocksKept, Leave, Tick, Perform, Joined;
    match c
    case JoinCmd(id, sameRoom) =>
      KeptSame(s, Join(s, id, sameRoom).room);
      KeptMoves(s, c, Join(s, id, sameRoom).room);
    case LeaveCmd(id) =>
      LeaveKept(s, id);
      KeptMoves(s, c, Leave(s, id).0);
    case TickCmd(now) => TickMovesRace(s, now);
    case Handle(from, q, now, seed) =>
      AnsweredRoom(Perform(s, from, q, now, seed), from);
      if q.InputReq? {
        InputMovesRace(s, c);
      } else {
        RequestKept(s, from, q, now, seed);
        KeptMoves(s, c, Perform(s, from, q, now, seed).room);
      }
  }

  lemma InputMovesRace(s: Room, c: Cmd)
    requires c.Handle? && c.request.InputReq?
    ensures RaceMoves(s, c, Perform(s, c.from, c.request, c.now, c.seed).room)
  {
    InputKeepsRace(s, c.from, c.request.dir, c.now);
    hide Input;
  }

  ghost predicate RangAlong(cs: seq<Cmd>, deadline: nat) {
    exists k :: 0 <= k < |cs| && Rings(cs[k], deadline)
  }

  lemma RangMore(cs: seq<Cmd>, deadline: nat)
    requires cs != []
    ensures RangAlong(cs, deadline) <==> RangAlong(cs[..|cs| - 1], deadline) || Rings(Last(cs), deadline)
  {
    var front := cs[..|cs| - 1];
    if RangAlong(front, deadline) {
      var k :| 0 <= k < |front| && Rings(front[k], deadline);
      assert Rings(cs[k], deadline);
    }
    if RangAlong(cs, deadline) && !Rings(Last(cs), deadline) {
      var k :| 0 <= k < |cs| && Rings(cs[k], deadline);
      assert front[k] == cs[k];
    }
  }

  /** Over any run in which no administrator ends or replaces it, as long as a race is on: its deadline
      stands, and it has expired exactly when some tick has come at or past the deadline. */
  lemma {:induction false} RaceExpiresOnTime(s: Room, cs: seq<Cmd>, deadline: nat)
    requires RoomOk(s) && EnabledRun(s, cs) && s.phase.Racing? && !s.attempt.expired && s.attempt.deadline == Some(deadline)
    requires forall k :: 0 <= k < |cs| && cs[k].Handle? ==> !EndsRace(cs[k].request)
    ensures var last := Run(s, cs);
            last.phase.Racing? ==>
              && last.attempt.deadline == Some(deadline) && last.attempt.finishOngoing == s.attempt.finishOngoing
              && (last.attempt.expired <==> RangAlong(cs, deadline))
    decreases |cs|
  {
    if cs != [] {
      var front := cs[..|cs| - 1];
      hide RoomOk, Apply, Enabled, RangAlong, Rings;
      RaceExpiresOnTime(s, front, deadline);
      RunKeeps(s, front);
      ApplyMovesRace(Run(s, front), Last(cs));
      RangMore(cs, deadline);
    } else {
      hide RoomOk;
      assert !RangAlong(cs, deadline);
    }
  }

  // ---------------------------------------------------------------- the timer of a simulated session

  /** An input that the simulation takes. */
  predicate Steers(s: Room, c: Cmd) {
    && c.Handle? && c.request.InputReq? && c.request.dir.Heading?
    && s.phase.Simulated? && c.from in s.roster.clients && s.roster.clients[c.from].role == Player
  }

  predicate TimerMoves(s: Room, c: Cmd, next: Room) {
    s.phase.Simulated? && next.phase.Simulated? && next.generation == s.generation ==>
      next.phase.sim.timer == if Steers(s, c) then Some(s.phase.sim.timer.GetOr(c.now)) else s.phase.sim.timer
  }

  lemma KeptTimer(s: Room, c: Cmd, next: Room)
    requires ClocksKept(s, next) && !Steers(s, c)
    ensures TimerMoves(s, c, next)
  {
  }

  lemma InputTimer(s: Room, c: Cmd)
    requires s.mode == Coop && c.Handle? && c.request.InputReq?
    ensures TimerMoves(s, c, Input(s, c.from, c.request.dir, c.now).room)
  {
    hide S.SetInput, NobodyReady;
  }

  lemma TickTimer(s: Room, c: Cmd)
    requires RoomOk(s) && s.phase.Simulated? && c.TickCmd?
    ensures TimerMoves(s, c, Tick(s, c.now).room)
  {
    SimIsCoop(s);
    M.TickKeeps(s.phase.sim, Players(s.roster.clients));
    hide RoomOk, M.SimOk, M.Tick, NobodyReady, M.Elapsed, S.SpeedInterval, RaceTick;
  }

  lemma StartTimer(s: Room, c: Cmd)
    requires RoomOk(s) && s.phase.Simulated? && c.Handle? && c.request.SessionStartReq?
    ensures TimerMoves(s, c, Perform(s, c.from, c.request, c.now, c.seed).room)
  {
    SimIsCoop(s);
    hide RoomOk, M.SimOk, StartSession, Perform;
    StartPerforms(s, c.from, c.request, c.now, c.seed);
    StartTouches(s, c.from, c.request.bundle, c.request.finishOngoing, c.now, c.seed);
  }

  lemma ApplyMovesTimer(s: Room, c: Cmd)
    requires RoomOk(s) && s.phase.Simulated?
    ensures TimerMoves(s, c, Apply(s, c).room)
  {
    SimIsCoop(s);
    hide RoomOk, M.SimOk, TimerMoves, ClocksKept, Leave, Tick, Perform, Joined;
    match c
    case JoinCmd(id, sameRoom) =>
      KeptSame(s, Join(s, id, sameRoom).room);
      KeptTimer(s, c, Join(s, id, sameRoom).room);
    case LeaveCmd(id) =>
      LeaveKept(s, id);
      KeptTimer(s, c, Leave(s, id).0);
    case TickCmd(now) => TickTimer(s, c);
    case Handle(from, q, now, seed) =>
      AnsweredRoom(Perform(s, from, q, now, seed), from);
      if q.InputReq? {
        InputTimer(s, c);
        InputPerforms(s, c);
      } else if q.SessionStartReq? {
        StartTimer(s, c);
      } else {
        RequestKept(s, from, q, now, seed);
        KeptTimer(s, c, Perform(s, from, q, now, seed).room);
      }
  }

  lemma InputPerforms(s: Room, c: Cmd)
    requires c.Handle? && c.request.InputReq?
    ensures Perform(s, c.from, c.request, c.now, c.seed) == Input(s, c.from, c.request.dir, c.now)
  {
    hide Input;
  }

  /** The moment of the first input along a run that the simulation took. */
  ghost function FirstSteer(s: Room, cs: seq<Cmd>): Option<nat>
    decreases |cs|
  {
    if cs == [] then None
    else if FirstSteer(s, cs[..|cs| - 1]).Some? then FirstSteer(s, cs[..|cs| - 1])
    else if Steers(Run(s, cs[..|cs| - 1]), Last(cs)) then Some(Last(cs).now)
    else None
  }

  /** Over any run within one simulated session its timer stands at the moment of the first input the
      simulation took, and does not run before there is one. */
  lemma {:induction false} TimerStartsWithFirstInput(s: Room, cs: seq<Cmd>)
    requires RoomOk(s) && EnabledRun(s, cs) && SameSim(s, Run(s, cs)) && s.phase.sim.timer.None?
    ensures Run(s, cs).phase.sim.timer == FirstSteer(s, cs)
    decreases |cs|
  {
    if cs != [] {
      hide RoomOk, Apply, Enabled, SessionKept, Steers;
      var front := cs[..|cs| - 1];
      var before := Run(s, front);
      RunKeeps(s, front);
      GenerationsGrow(s, front);
      ApplyKept(before, Last(cs));
      KindIsKept(before, Run(s, cs));
      ApplyMovesTimerIf(before, Last(cs));
      SimWasThere(s, before, Run(s, cs));
      TimerStartsWithFirstInput(s, front);
    }
  }

  lemma ApplyMovesTimerIf(s: Room, c: Cmd)
    requires RoomOk(s)
    ensures s.phase.Simulated? ==> TimerMoves(s, c, Apply(s, c).room)
  {
    hide RoomOk, Apply, TimerMoves;
    if s.phase.Simulated? {
      ApplyMovesTimer(s, c);
    }
  }

  lemma SimWasThere(s: Room, before: Room, next: Room)
    requires SessionKept(before, next) && s.generation <= before.generation && SameSim(s, next)
    ensures SameSim(s, before)
  {
  }

  // ---------------------------------------------------------------- what is said at the end

  /** A tick that ends a simulated session shows the last board and gives the reason it shows: no apples
      left exactly when the bodies cover it, and otherwise that everybody on it is dead. */
  lemma LastFrameExplainsTheEnd(s: Room, now: nat)
    requires RoomOk(s) && s.phase.Simulated? && !M.NobodyAlive(s.phase.sim)
    ensures var d := Tick(s, now);
            var f := M.FrameOf(M.Tick(s.phase.sim).sim.game);
            if d.room.phase.Lobby? then
              && d.out == All([CoopState(f)] + [SessionEnd(if M.BoardIsFull(f) then AllApples else AllDead), RosterMsg(d.room)])
              && (M.BoardIsFull(f) || M.EverybodyIsDead(f))
            else d.room.phase.Simulated? && !M.BoardIsFull(f) && !M.EverybodyIsDead(f)
  {
    SimIsCoop(s);
    hide RoomOk, M.SimOk, M.Tick, M.FrameOf, M.BoardIsFull, M.EverybodyIsDead, M.NobodyAlive, Tick, SimAct;
    M.TickEndsForAReason(s.phase.sim, Players(s.roster.clients));
    TickIsSim(s, now);
    SimSays(s, M.Tick(s.phase.sim));
  }

  lemma TickIsSim(s: Room, now: nat)
    requires s.mode == Coop && s.phase.Simulated?
    ensures Tick(s, now) == SimAct(s, M.Tick(s.phase.sim))
  {
    hide M.Tick, SimAct, RaceTick;
  }

  lemma SimSays(s: Room, o: M.Outcome)
    ensures var d := SimAct(s, o);
            if o.over.Some? then d.room.phase.Lobby? && d.out == All(o.out + [SessionEnd(o.over.value), RosterMsg(d.room)])
            else d.room.phase == Simulated(o.sim)
  {
    hide NobodyReady;
    if o.over.Some? {
      var d := SimAct(s, o);
      assert All(o.out) + All([SessionEnd(o.over.value), RosterMsg(d.room)]) == All(o.out + [SessionEnd(o.over.value), RosterMsg(d.room)]);
    }
  }
}
