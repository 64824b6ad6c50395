/** What the entries of a race say of the pulses a room accepted, over whole runs of the room. */
module RoomRecords {
  import opened Prelude
  import opened RoomTypes
  import opened RosterSpec
  import opened RoomSpec
  import Colors
  import RoomInv
  import RoomRuns
  import RoomSessions
  import R = Relay
  import M = SimRun
  import E = RaceScore

  // ---------------------------------------------------------------- what a command does to an entry

  /** Does the room record this command as a pulse of `id`? */
  predicate Pulsed(s: Room, c: Cmd, id: ClientId) {
    && c.Handle? && c.request.PulseReq? && c.from == id
    && id in s.roster.clients && s.roster.clients[id].role == Player && s.mode == Race && !s.phase.Lobby?
  }

  predicate GoalSet(s: Room, c: Cmd) {
    c.Handle? && c.request.SetRaceGoalReq? && IsAdmin(s, c.from) && c.request.goal.Some?
  }

  /** Entries may be dropped, but none is touched and the goal stays. */
  predicate OnlyDrops(s: Room, next: Room) {
    && next.attempt.goal == s.attempt.goal
    && forall id :: id in next.attempt.scores ==> id in s.attempt.scores && next.attempt.scores[id] == s.attempt.scores[id]
  }

  lemma DropsChain(a: Room, b: Room, c: Room)
    requires OnlyDrops(a, b) && OnlyDrops(b, c)
    ensures OnlyDrops(a, c)
  {
  }

  lemma SameAttempt(s: Room, next: Room)
    requires next.attempt.scores == s.attempt.scores && next.attempt.goal == s.attempt.goal
    ensures OnlyDrops(s, next)
  {
  }

  lemma SeatGoneDrops(s: Room, c: ClientId, reason: Reason)
    ensures SeatGone(s, c, reason).room.attempt == s.attempt
  {
    hide R.Perform, M.MarkDead, NobodyReady;
  }

  lemma AfterLeaveDrops(s: Room)
    ensures OnlyDrops(s, AfterLeave(s).0)
  {
    hide NobodyReady, AllDeadIn, AnyRunning;
  }

  lemma LeaveDrops(s: Room, id: ClientId)
    ensures OnlyDrops(s, Leave(s, id).0)
  {
    if id in s.roster.clients {
      var gone := if s.phase.Relayed? then RelayAct(s, R.GoneOp(id, Disconnect)).room else s;
      assert gone.attempt == s.attempt by {
        hide R.Perform, NobodyReady;
      }
      hide RelayAct, Unseated, AfterLeave, Departed, OnlyDrops;
      var left := gone.(phase := Unseated(gone, id).0, roster := Departed(gone.roster, id),
                        attempt := gone.attempt.(scores := gone.attempt.scores - {id}));
      assert OnlyDrops(s, left) by { DroppedOne(s, left, id); }
      AfterLeaveDrops(left);
      DropsChain(s, left, AfterLeave(left).0);
    } else {
      SameAttempt(s, s);
    }
  }

  lemma DroppedOne(s: Room, next: Room, id: ClientId)
    requires next.attempt == s.attempt.(scores := s.attempt.scores - {id})
    ensures OnlyDrops(s, next)
  {
  }

  lemma SetRoleDrops(s: Room, from: ClientId, target: Option<ClientId>, role: Option<Role>)
    ensures OnlyDrops(s, SetRole(s, from, target, role).room)
  {
    hide SeatGone, Promoted, Demoted, WithGrace, OnlyDrops;
    SameAttempt(s, s);
    if target.Some? && target.value in s.roster.clients {
      var id := target.value;
      var gone := SeatGone(s, id, Demotion).room;
      SeatGoneDrops(s, id, Demotion);
      SameAttempt(s, gone);
      GraceDrops(s, s.(roster := Promoted(s.roster, s.mode, id)), []);
      if id in gone.roster.clients {
        GraceDrops(s, gone.(roster := Demoted(gone.roster, id)), SeatGone(s, id, Demotion).out);
      }
    }
  }

  lemma GraceDrops(s: Room, t: Room, out: seq<Out>)
    requires t.attempt == s.attempt
    ensures OnlyDrops(s, WithGrace(t, out).room)
  {
    hide AnyRunning;
  }

  lemma KickDrops(s: Room, from: ClientId, target: Option<ClientId>)
    ensures OnlyDrops(s, Kick(s, from, target).room)
  {
    SameAttempt(s, s);
    if target.Some? {
      SeatGoneDrops(s, target.value, Kicked);
      var gone := SeatGone(s, target.value, Kicked).room;
      SameAttempt(s, gone);
      LeaveDrops(gone, target.value);
      hide SeatGone, Leave, OnlyDrops;
      DropsChain(s, gone, Leave(gone, target.value).0);
    }
  }

  lemma StartDrops(s: Room, from: ClientId, settings: Option<Settings>, finishOngoing: Option<bool>, now: nat, seed: bv64)
    ensures OnlyDrops(s, StartSession(s, from, settings, finishOngoing, now, seed).room)
  {
    hide AllPlayersReady, FirstSeats, FirstOwner, NewSim, R.NewRelay;
  }

  lemma RelayActDrops(s: Room, op: R.Op)
    requires s.phase.Relayed?
    ensures RelayAct(s, op).room.attempt == s.attempt
  {
    hide R.Perform, NobodyReady;
  }

  lemma PublishDrops(s: Room, op: R.Op)
    ensures OnlyDrops(s, Publish(s, op).room)
  {
    SameAttempt(s, s);
    if s.phase.Relayed? {
      RelayActDrops(s, op);
      SameAttempt(s, RelayAct(s, op).room);
    }
    hide RelayAct, OnlyDrops;
  }

  lemma ShiftDrops(s: Room, from: ClientId, e: SpeedIn)
    ensures OnlyDrops(s, ShiftSpeed(s, from, e).room)
  {
    SameAttempt(s, s);
    if s.phase.Relayed? {
      RelayActDrops(s, R.SpeedOp(from, e));
      SameAttempt(s, RelayAct(s, R.SpeedOp(from, e)).room);
    }
    hide RelayAct, OnlyDrops;
  }

  lemma InputDrops(s: Room, from: ClientId, dir: DirField, now: nat)
    ensures OnlyDrops(s, Input(s, from, dir, now).room)
  {
    hide M.Input, NobodyReady;
  }

  lemma GoalDrops(s: Room, from: ClientId, claim: GoalIn)
    ensures OnlyDrops(s, Goal(s, from, claim).room)
  {
    hide R.CheckGoal, NobodyReady;
  }

  lemma RecordDrops(s: Room, from: ClientId, q: Request, now: nat, seed: bv64)
    requires q.SetDurationReq? || q.ReadyReq? || q.ColorClaimReq? || q.ModeChangeReq? || q.SettingsSyncReq? || q.PlaySyncReq?
             || q.SessionEndReq? || q.AdminTransferReq? || q.ResyncReq? || q.ServerOwnedReq?
    ensures OnlyDrops(s, Perform(s, from, q, now, seed).room)
  {
    hide Readied, Painted, AllPlayersReady, ReplayMsgs, Colors.Claimable, ColorLocked, NobodyReady, TrimmedIfCoop;
  }

  lemma RequestDrops(s: Room, from: ClientId, q: Request, now: nat, seed: bv64)
    requires !q.PulseReq? && !q.SetRaceGoalReq?
    ensures OnlyDrops(s, Perform(s, from, q, now, seed).room)
  {
    hide OnlyDrops, SetRole, Kick, StartSession, Input, Publish, ShiftSpeed, Goal, SetDuration, Ready, ColorClaim, ModeChange,
         SyncSettings, SyncPlay, EndSession, AdminTransfer, Resync, SetRaceGoal, Pulse;
    match q
    case SetRoleReq(target, role) => SetRoleDrops(s, from, target, role);
    case KickReq(target) => KickDrops(s, from, target);
    case SessionStartReq(bundle, finishOngoing) => StartDrops(s, from, bundle, finishOngoing, now, seed);
    case InputReq(dir) => InputDrops(s, from, dir, now);
    case PoseReq(pose) => PublishDrops(s, R.PoseOp(from, pose, now));
    case BoardReq(board) => PublishDrops(s, R.BoardOp(from, board));
    case DeathReq(death) => PublishDrops(s, R.DeathOp(from, death));
    case SpeedReq(speed) => ShiftDrops(s, from, speed);
    case GoalReq(claim) => GoalDrops(s, from, claim);
    case _ => RecordDrops(s, from, q, now, seed);
  }

  lemma TickDrops(s: Room, now: nat)
    ensures OnlyDrops(s, Tick(s, now).room)
  {
    hide M.Tick, AnyRunning, NobodyReady;
  }

  /** What a command leaves of the entry of `id`, given the entry it found. */
  predicate EntryMoves(s: Room, c: Cmd, id: ClientId, next: Room) {
    if Pulsed(s, c, id) then
      var before := if id in s.attempt.scores then s.attempt.scores[id] else E.FRESH;
      && next.attempt.goal == s.attempt.goal && id in next.attempt.scores
      && next.attempt.scores[id] == E.AfterPulse(s.attempt.goal, before, CleanPulse(c.request.pulse, s.attempt.expired))
    else if GoalSet(s, c) then
      && next.attempt.goal == c.request.goal.value
      && (id in next.attempt.scores <==> id in s.attempt.scores)
      && (id in s.attempt.scores ==> next.attempt.scores[id] == E.AfterGoalChange(next.attempt.goal, s.attempt.scores[id]))
    else
      && next.attempt.goal == s.attempt.goal
      && (id in next.attempt.scores ==> id in s.attempt.scores && next.attempt.scores[id] == s.attempt.scores[id])
  }

  lemma DropsMove(s: Room, c: Cmd, id: ClientId, next: Room)
    requires OnlyDrops(s, next) && !Pulsed(s, c, id) && !GoalSet(s, c)
    ensures EntryMoves(s, c, id, next)
  {
  }

  lemma PulseMoves(s: Room, c: Cmd, id: ClientId)
    requires c.Handle? && c.request.PulseReq?
    ensures EntryMoves(s, c, id, Pulse(s, c.from, c.request.pulse).room)
  {
    hide E.AfterPulse, CleanPulse, AnyRunning;
  }

  lemma GoalMoves(s: Room, c: Cmd, id: ClientId)
    requires c.Handle? && c.request.SetRaceGoalReq?
    ensures EntryMoves(s, c, id, SetRaceGoal(s, c.from, c.request.goal).room)
  {
    hide E.AfterGoalChange;
  }

  lemma RequestMoves(s: Room, c: Cmd, id: ClientId)
    requires c.Handle?
    ensures EntryMoves(s, c, id, Perform(s, c.from, c.request, c.now, c.seed).room)
  {
    hide EntryMoves, OnlyDrops;
    match c.request
    case PulseReq(pulse) =>
      PulseMoves(s, c, id);
      hide Pulse;
    case SetRaceGoalReq(goal) =>
      GoalMoves(s, c, id);
      hide SetRaceGoal;
    case _ =>
      RequestDrops(s, c.from, c.request, c.now, c.seed);
      hide Perform;
      DropsMove(s, c, id, Perform(s, c.from, c.request, c.now, c.seed).room);
  }

  lemma ApplyMoves(s: Room, c: Cmd, id: ClientId)
    ensures EntryMoves(s, c, id, Apply(s, c).room)
  {
    hide EntryMoves, OnlyDrops, Leave, Tick, Perform, Joined;
    match c
    case JoinCmd(newcomer, sameRoom) =>
      SameAttempt(s, Join(s, newcomer, sameRoom).room);
      DropsMove(s, c, id, Join(s, newcomer, sameRoom).room);
    case LeaveCmd(gone) =>
      LeaveDrops(s, gone);
      DropsMove(s, c, id, Leave(s, gone).0);
    case TickCmd(now) =>
      TickDrops(s, now);
      DropsMove(s, c, id, Tick(s, now).room);
    case Handle(from, q, now, seed) =>
      RoomSessions.AnsweredRoom(Perform(s, from, q, now, seed), from);
      RequestMoves(s, c, id);
  }

  // ---------------------------------------------------------------- over a run

  /** The accepted pulses of a player since its entry was opened, and what its goal times judge:
      the pulses since the goal was set, after what stood on show at that moment. */
  datatype Log = Log(pulses: seq<E.Pulse>, judged: seq<E.Pulse>)

  ghost function Logged(s: Room, cs: seq<Cmd>, id: ClientId): Log
    decreases |cs|
  {
    if cs == [] then Log([], [])
    else
      var before, c := Run(s, cs[..|cs| - 1]), Last(cs);
      var log := Logged(s, cs[..|cs| - 1], id);
      if id !in Run(s, cs).attempt.scores then Log([], [])
      else if Pulsed(before, c, id) then
        var p := CleanPulse(c.request.pulse, before.attempt.expired);
        Log(log.pulses + [p], log.judged + [p])
      else if GoalSet(before, c) && id in before.attempt.scores then Log(log.pulses, [E.Standing(before.attempt.scores[id])])
      else log
  }

  ghost predicate OnRecord(s: Room, id: ClientId, log: Log) {
    if id in s.attempt.scores then
      && E.Records(s.attempt.scores[id], s.attempt.goal, log.pulses, log.judged)
      && E.Shows(s.attempt.scores[id], log.pulses)
    else log == Log([], [])
  }

  lemma LogMoves(s: Room, c: Cmd, id: ClientId, log: Log, next: Room, after: Log)
    requires OnRecord(s, id, log) && EntryMoves(s, c, id, next)
    requires after ==
      if id !in next.attempt.scores then Log([], [])
      else if Pulsed(s, c, id) then
        var p := CleanPulse(c.request.pulse, s.attempt.expired);
        Log(log.pulses + [p], log.judged + [p])
      else if GoalSet(s, c) && id in s.attempt.scores then Log(log.pulses, [E.Standing(s.attempt.scores[id])])
      else log
    ensures OnRecord(next, id, after)
  {
    hide E.Records, E.Shows, E.AfterPulse, E.AfterGoalChange, CleanPulse;
    var before := if id in s.attempt.scores then s.attempt.scores[id] else E.FRESH;
    E.FreshRecords(s.attempt.goal);
    if Pulsed(s, c, id) {
      E.PulseIsShown(s.attempt.goal, before, log.pulses, CleanPulse(c.request.pulse, s.attempt.expired));
      E.PulseIsRecorded(s.attempt.goal, before, log.pulses, log.judged, CleanPulse(c.request.pulse, s.attempt.expired));
    } else if GoalSet(s, c) && id in s.attempt.scores {
      E.GoalChangeShowsTheSame(next.attempt.goal, before, log.pulses);
      E.GoalIsRejudged(s.attempt.goal, next.attempt.goal, before, log.pulses, log.judged);
    }
  }

  /** Over any run of the room, every entry is what the accepted pulses of its player add up to, in
      whatever order they came: the best score, the least positive time at it, the longest finished
      run, and the least time at which the present goal was met; and it shows the last of them. */
  lemma {:induction false} EntriesAreStats(s: Room, cs: seq<Cmd>, id: ClientId)
    requires id !in s.attempt.scores
    ensures OnRecord(Run(s, cs), id, Logged(s, cs, id))
    decreases |cs|
  {
    if cs != [] {
      var front := cs[..|cs| - 1];
      EntriesAreStats(s, front, id);
      ApplyMoves(Run(s, front), Last(cs), id);
      hide OnRecord, EntryMoves, Apply;
      LogMoves(Run(s, front), Last(cs), id, Logged(s, front, id), Run(s, cs), Logged(s, cs, id));
    }
  }

  // ---------------------------------------------------------------- grace, by pulses

  /** A player runs until a pulse of its says that the run is over. */
  predicate StillRunning(log: Log) {
    log.pulses == [] || Last(log.pulses).alive
  }

  ghost predicate SomebodyRuns(s0: Room, cs: seq<Cmd>) {
    exists id :: id in Run(s0, cs).roster.clients && Run(s0, cs).roster.clients[id].role == Player && StillRunning(Logged(s0, cs, id))
  }

  lemma RunningByPulses(s: Room, id: ClientId, log: Log)
    requires OnRecord(s, id, log) && id in s.roster.clients
    ensures Running(s, id) <==> s.roster.clients[id].role == Player && StillRunning(log)
  {
    hide E.Records;
  }

  lemma AnyByPulses(s: Room, s0: Room, cs: seq<Cmd>)
    requires s == Run(s0, cs) && forall id :: OnRecord(s, id, Logged(s0, cs, id))
    ensures AnyRunning(s) <==> SomebodyRuns(s0, cs)
  {
    hide OnRecord, Running, Run, Logged, StillRunning;
    forall id | id in s.roster.clients
      ensures Running(s, id) <==> s.roster.clients[id].role == Player && StillRunning(Logged(s0, cs, id))
    {
      RunningByPulses(s, id, Logged(s0, cs, id));
    }
  }

  /** In every reachable room a race past its time is open only while some player is there whose last
      accepted pulse did not end its run. */
  lemma GraceWaitsForPulses(relayEnabled: bool, settings: Settings, cs: seq<Cmd>)
    requires EnabledRun(NewRoom(relayEnabled, settings), cs)
    ensures var s := Run(NewRoom(relayEnabled, settings), cs);
            s.phase.Racing? && s.attempt.expired ==> s.attempt.finishOngoing && SomebodyRuns(NewRoom(relayEnabled, settings), cs)
  {
    var s0 := NewRoom(relayEnabled, settings);
    RoomRuns.EveryGrace(relayEnabled, settings, cs);
    forall id
      ensures OnRecord(Run(s0, cs), id, Logged(s0, cs, id))
    {
      EntriesAreStats(s0, cs, id);
    }
    AnyByPulses(Run(s0, cs), s0, cs);
    hide Run, EnabledRun, OnRecord, Logged, SomebodyRuns;
  }

  /** Unless an administrator ends or replaces the session, a race in its grace period is open after
      the next command exactly when some player is there whose last accepted pulse did not end its run:
      the pulse that reports the end of the last run closes it, as does the departure of that player. */
  lemma GraceClosesWithTheLastPulse(relayEnabled: bool, settings: Settings, cs: seq<Cmd>, c: Cmd)
    requires EnabledRun(NewRoom(relayEnabled, settings), cs) && Enabled(Run(NewRoom(relayEnabled, settings), cs), c)
    requires InGrace(Run(NewRoom(relayEnabled, settings), cs))
    requires c.Handle? ==> !RoomSessions.EndsRace(c.request)
    ensures var next := Run(NewRoom(relayEnabled, settings), cs + [c]);
            && (next.phase.Racing? || next.phase.Lobby?)
            && (next.phase.Racing? <==> SomebodyRuns(NewRoom(relayEnabled, settings), cs + [c]))
  {
    var s0 := NewRoom(relayEnabled, settings);
    RoomInv.NewRoomOk(relayEnabled, settings);
    RoomInv.RunKeeps(s0, cs);
    RoomSessions.GraceClosesExactly(Run(s0, cs), c);
    forall id
      ensures OnRecord(Run(s0, cs + [c]), id, Logged(s0, cs + [c], id))
    {
      EntriesAreStats(s0, cs + [c], id);
    }
    AnyByPulses(Run(s0, cs + [c]), s0, cs + [c]);
    RunOneMore(s0, cs, c);
    hide Run, EnabledRun, OnRecord, Logged, SomebodyRuns, Apply, AnyRunning;
  }

  lemma RunOneMore(s: Room, cs: seq<Cmd>, c: Cmd)
    ensures Run(s, cs + [c]) == Apply(Run(s, cs), c).room
  {
    assert (cs + [c])[..|cs|] == cs;
    hide Apply;
  }

  // ---------------------------------------------------------------- what counts

  /** Scores and times on record are capped, a pulse keeps its word on the run, and a claim of all
      apples after the clock does not meet the goal. */
  lemma PulsesAreCapped(s: Room, c: Cmd, id: ClientId)
    requires Pulsed(s, c, id)
    ensures var entry := Apply(s, c).room.attempt.scores;
            && id in entry
            && entry[id].score == Min(c.request.pulse.score, 100000)
            && entry[id].timeMs == Min(c.request.pulse.timeMs, 86400000)
            && entry[id].alive == c.request.pulse.alive
            && (s.attempt.goal == E.BestAll && s.attempt.expired && id in s.attempt.scores ==>
                  entry[id].goalCompleted == s.attempt.scores[id].goalCompleted
                  && entry[id].bestGoalTime == s.attempt.scores[id].bestGoalTime)
  {
    ApplyMoves(s, c, id);
    hide Apply;
  }
}
