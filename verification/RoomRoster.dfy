/** Everyone knows who is in the room: over every run the last roster told to all is the present one. */
module RoomRoster {
  import opened Prelude
  import opened RoomTypes
  import opened RosterSpec
  import opened RoomSpec
  import opened RoomTrace
  import RoomInv
  import RoomRuns
  import RoomSessions
  import R = Relay
  import M = SimRun
  import S = CoopSpec
  import C = Colors
  import E = RaceScore

  /** The roster told last. */
  function LastRoster(ms: seq<Msg>): Option<Msg>
    decreases |ms|
  {
    if ms == [] then None
    else if Last(ms).RosterUpdate? then Some(Last(ms))
    else LastRoster(ms[..|ms| - 1])
  }

  /** The same mode, the same clients, the same administrator, and a session on in both or in neither. */
  predicate SameFace(s: Room, next: Room) {
    next.mode == s.mode && next.roster == s.roster && (next.phase.Lobby? <==> s.phase.Lobby?)
  }

  /** The message says how the room is. */
  predicate Tells(x: Msg, s: Room) {
    x.RosterUpdate? && x.mode == s.mode && x.roster == s.roster && (x.active <==> !s.phase.Lobby?)
  }

  /** The last roster among these messages, if there is one, is that of the room after them; otherwise the
      room looks as before. Nobody needs to be told of an empty room. */
  predicate Announced(s: Room, ms: seq<Msg>, next: Room) {
    next.roster.clients != map[] ==>
      if LastRoster(ms).Some? then Tells(LastRoster(ms).value, next) else SameFace(s, next)
  }

  lemma {:induction false} LastRosterMore(a: seq<Msg>, b: seq<Msg>)
    ensures LastRoster(a + b) == if LastRoster(b).Some? then LastRoster(b) else LastRoster(a)
    decreases |b|
  {
    if b == [] {
      assert a + b == a;
    } else {
      LastRosterMore(a, b[..|b| - 1]);
      assert (a + b)[..|a + b| - 1] == a + b[..|b| - 1];
    }
  }

  lemma AnnouncedChain(a: Room, x: seq<Msg>, b: Room, y: seq<Msg>, c: Room)
    requires Announced(a, x, b) && Announced(b, y, c)
    ensures Announced(a, x + y, c)
  {
    LastRosterMore(x, y);
    hide LastRoster;
  }

  /** Whatever came before, a message that ends with the roster tells the roster. */
  lemma EndsWithRoster(s: Room, ms: seq<Msg>, next: Room)
    ensures Announced(s, ms + [RosterMsg(next)], next)
  {
    LastRosterMore(ms, [RosterMsg(next)]);
    assert [RosterMsg(next)][..0] == [];
  }

  lemma NothingAnnounced(s: Room, next: Room)
    requires SameFace(s, next)
    ensures Announced(s, [], next)
  {
  }

  predicate NoRoster(ms: seq<Msg>) {
    forall x :: x in ms ==> !x.RosterUpdate?
  }

  lemma {:induction false} QuietAnnounced(s: Room, ms: seq<Msg>, next: Room)
    requires NoRoster(ms) && SameFace(s, next)
    ensures Announced(s, ms, next)
    decreases |ms|
  {
    QuietHasNone(ms);
    hide LastRoster;
  }

  lemma {:induction false} QuietHasNone(ms: seq<Msg>)
    requires NoRoster(ms)
    ensures LastRoster(ms).None?
    decreases |ms|
  {
    if ms != [] {
      assert Last(ms) in ms;
      QuietHasNone(ms[..|ms| - 1]);
    }
  }

  // ---------------------------------------------------------------- ends

  lemma EndCoopAnnounced(s: Room, reason: EndReason)
    ensures var (next, out) := EndCoop(s, reason); Announced(s, Broadcasts(out), next)
  {
    var (next, out) := EndCoop(s, reason);
    BroadcastsAll([SessionEnd(reason), RosterMsg(next)]);
    EndsWithRoster(s, [SessionEnd(reason)], next);
    assert [SessionEnd(reason)] + [RosterMsg(next)] == [SessionEnd(reason), RosterMsg(next)];
    hide LastRoster, Announced, NobodyReady;
  }

  lemma GraceAnnounced(s: Room)
    ensures var (next, out) := MaybeEndGrace(s); Announced(s, Broadcasts(out), next)
  {
    hide LastRoster, AnyRunning;
    var (next, out) := MaybeEndGrace(s);
    if InGrace(s) && !AnyRunning(s) {
      var x := AttemptExpired(false, true);
      BroadcastsAll([x, RosterMsg(next)]);
      EndsWithRoster(s, [x], next);
      assert [x] + [RosterMsg(next)] == [x, RosterMsg(next)];
    } else {
      NothingAnnounced(s, s);
      assert Broadcasts([]) == [];
    }
  }

  lemma AnnounceAnnounced(s: Room, out: seq<Out>, next: Room)
    ensures Announced(s, Broadcasts(out + Announce(next)), next)
  {
    BroadcastsAll([RosterMsg(next)]);
    BroadcastsMore(out, Announce(next));
    EndsWithRoster(s, Broadcasts(out), next);
  }

  lemma RelaySaysNoRoster(r: R.Relay, here: set<ClientId>, op: R.Op)
    ensures NoRoster(R.Perform(r, here, op).out)
  {
    hide R.CheckSender, R.CheckPoseOrder, R.CheckPose, R.CheckTurns, R.CheckFirstBoard, R.CheckNextBoard, R.NextSpeed,
         R.CheckDeath, R.NextInitializer, R.RemainsOf, R.StorePose, R.StoreBoard, R.StoreSpeed, R.Fall, R.AllSeatsDead;
  }

  /** The outcome of a session: its messages, then perhaps its end. */
  lemma OutcomeAnnounced(s: Room, ms: seq<Msg>, next: Room, over: Option<EndReason>)
    requires NoRoster(ms) && SameFace(s, next)
    ensures over.None? ==> Announced(s, Broadcasts(All(ms)), next)
    ensures over.Some? ==> Announced(s, Broadcasts(All(ms) + EndCoop(next, over.value).1), EndCoop(next, over.value).0)
  {
    BroadcastsAll(ms);
    QuietAnnounced(s, ms, next);
    if over.Some? {
      var (ended, out) := EndCoop(next, over.value);
      EndCoopAnnounced(next, over.value);
      BroadcastsMore(All(ms), out);
      AnnouncedChain(s, ms, next, Broadcasts(out), ended);
    }
  }

  lemma RelayActAnnounced(s: Room, op: R.Op)
    requires s.phase.Relayed?
    ensures Announced(s, Broadcasts(RelayAct(s, op).out), RelayAct(s, op).room)
  {
    var o := R.Perform(s.phase.relay, s.roster.clients.Keys, op);
    RelaySaysNoRoster(s.phase.relay, s.roster.clients.Keys, op);
    hide R.Perform, Announced, NoRoster, EndCoop, Broadcasts;
    OutcomeAnnounced(s, o.out, s.(phase := Relayed(o.relay)), if o.over then Some(AllDead) else None);
  }

  lemma SimActAnnounced(s: Room, o: M.Outcome)
    requires s.phase.Simulated? && NoRoster(o.out)
    ensures Announced(s, Broadcasts(SimAct(s, o).out), SimAct(s, o).room)
  {
    hide Announced, NoRoster, EndCoop, Broadcasts;
    OutcomeAnnounced(s, o.out, s.(phase := Simulated(o.sim)), o.over);
  }

  lemma SeatGoneAnnounced(s: Room, c: ClientId, reason: Reason)
    ensures Announced(s, Broadcasts(SeatGone(s, c, reason).out), SeatGone(s, c, reason).room)
  {
    match s.phase
    case Relayed(_) =>
      RelayActAnnounced(s, R.GoneOp(c, reason));
      hide Announced, RelayAct;
    case Simulated(sim) =>
      FallSaysNoRoster(sim, c, reason);
      SimActAnnounced(s, M.MarkDead(sim, c, reason));
      hide Announced, SimAct, M.MarkDead;
    case _ =>
      NothingAnnounced(s, s);
      assert Broadcasts([]) == [];
  }

  lemma FallSaysNoRoster(sim: M.Sim, c: ClientId, reason: Reason)
    ensures NoRoster(M.MarkDead(sim, c, reason).out)
  {
    hide S.Kill, M.FrameOf, R.AllSeatsDead;
  }

  // ---------------------------------------------------------------- commands

  /** What a handler leaves is what it tells. */
  predicate Clear(s: Room, d: Done) {
    Announced(s, Broadcasts(d.out), d.room)
  }

  lemma AfterLeaveAnnounced(s: Room, t: Room)
    ensures Announced(s, Broadcasts(AfterLeave(t).1), AfterLeave(t).0)
  {
    var (s1, out1) := MaybeEndAllDead(t);
    var (s2, out2) := MaybeEndGrace(s1);
    hide MaybeEndAllDead, MaybeEndGrace, LastRoster;
    if s2.roster.clients != map[] {
      AnnounceAnnounced(s, out1 + out2, s2);
    } else {
      NobodyStays(s2);
    }
  }

  lemma NobodyStays(s: Room)
    requires s.roster.clients == map[]
    ensures Cleared(s).roster.clients == map[]
  {
  }

  /** The room just after a client is out of it, and what has been said by then. */
  ghost function LeftOf(s: Room, id: ClientId): Room {
    RoomInv.Vacated(RoomInv.Released(s, id).room, id)
  }

  ghost function SaidOf(s: Room, id: ClientId): seq<Out> {
    RoomInv.Released(s, id).out + All(Unseated(RoomInv.Released(s, id).room, id).1)
  }

  lemma LeaveIs(s: Room, id: ClientId)
    requires id in s.roster.clients
    ensures Leave(s, id).0 == AfterLeave(LeftOf(s, id)).0 && Leave(s, id).1 == SaidOf(s, id) + AfterLeave(LeftOf(s, id)).1
  {
    hide RelayAct, Unseated, Departed, AfterLeave;
  }

  /** A departure tells the roster at its end, whatever was said before. */
  lemma LeaveAnnounced(s: Room, t: Room, said: seq<Out>, id: ClientId)
    requires id in t.roster.clients
    ensures Announced(s, Broadcasts(said + Leave(t, id).1), Leave(t, id).0)
  {
    hide Leave, LeftOf, SaidOf, AfterLeave, Announced, Broadcasts;
    LeaveIs(t, id);
    var left, out := LeftOf(t, id), AfterLeave(LeftOf(t, id)).1;
    AfterLeaveAnnounced(left, left);
    AfterLeaveTells(left);
    assert said + (SaidOf(t, id) + out) == said + SaidOf(t, id) + out;
    BroadcastsMore(said + SaidOf(t, id), out);
    Whatever(s, Broadcasts(said + SaidOf(t, id)), left, Broadcasts(out), AfterLeave(left).0);
  }

  /** A departure from a room that is not empty afterwards ends with its roster. */
  lemma AfterLeaveTells(s: Room)
    ensures AfterLeave(s).0.roster.clients != map[] ==> LastRoster(Broadcasts(AfterLeave(s).1)).Some?
  {
    var (s1, out1) := MaybeEndAllDead(s);
    var (s2, out2) := MaybeEndGrace(s1);
    hide MaybeEndAllDead, MaybeEndGrace;
    if s2.roster.clients != map[] {
      BroadcastsAll([RosterMsg(s2)]);
      BroadcastsMore(out1 + out2, Announce(s2));
      LastRosterMore(Broadcasts(out1 + out2), [RosterMsg(s2)]);
      assert [RosterMsg(s2)][..0] == [];
    } else {
      NobodyStays(s2);
    }
  }

  lemma Whatever(s: Room, x: seq<Msg>, mid: Room, y: seq<Msg>, next: Room)
    requires Announced(mid, y, next) && (next.roster.clients != map[] ==> LastRoster(y).Some?)
    ensures Announced(s, x + y, next)
  {
    LastRosterMore(x, y);
    hide LastRoster;
  }

  lemma JoinAnnounced(s: Room, id: ClientId, sameRoom: bool)
    ensures Clear(s, Join(s, id, sameRoom))
  {
    var next := s.(roster := Joined(s.roster, id));
    AnnounceAnnounced(s, To(id, [Welcome(id, next.roster.admin == Some(id))]), next);
    RefusedIsClear(s, RoomFull);
    RefusedIsClear(s, BadRoom);
    hide Announced, Joined, Broadcasts, Announce;
  }

  lemma RefusedIsClear(s: Room, e: Err)
    ensures Clear(s, Refused(s, e)) && Clear(s, Accept(s, []))
  {
    NothingAnnounced(s, s);
    assert Broadcasts([]) == [];
  }

  lemma AnnounceIsClear(s: Room, next: Room)
    ensures Clear(s, Accept(next, Announce(next)))
  {
    AnnounceAnnounced(s, [], next);
    assert [] + Announce(next) == Announce(next);
  }

  lemma WithGraceIsClear(s: Room, t: Room, out: seq<Out>)
    ensures Clear(s, WithGrace(t, out))
  {
    var (next, closing) := MaybeEndGrace(t);
    AnnounceAnnounced(s, out + closing, next);
    hide Announced, MaybeEndGrace, Broadcasts, Announce;
  }

  lemma SetRoleIsClear(s: Room, from: ClientId, target: Option<ClientId>, role: Option<Role>)
    ensures Clear(s, SetRole(s, from, target, role))
  {
    hide Clear, SeatGone, WithGrace, Promoted, Demoted, Announce;
    forall e
      ensures Clear(s, Refused(s, e))
    {
      RefusedIsClear(s, e);
    }
    AnnounceIsClear(s, s);
    if target.Some? && target.value in s.roster.clients {
      var id := target.value;
      var gone := SeatGone(s, id, Demotion);
      GoneIsClear(s, id);
      WithGraceIsClear(s, s.(roster := Promoted(s.roster, s.mode, id)), []);
      if id in gone.room.roster.clients {
        WithGraceIsClear(s, gone.room.(roster := Demoted(gone.room.roster, id)), gone.out);
      }
    }
  }

  lemma GoneIsClear(s: Room, c: ClientId)
    ensures Clear(s, SeatGone(s, c, Demotion))
  {
    SeatGoneAnnounced(s, c, Demotion);
    hide SeatGone, Announced;
  }

  lemma KickIsClear(s: Room, from: ClientId, target: Option<ClientId>)
    ensures Clear(s, Kick(s, from, target))
  {
    forall e
      ensures Clear(s, Refused(s, e))
    {
      RefusedIsClear(s, e);
    }
    if target.Some? && target.value in s.roster.clients {
      var id := target.value;
      var gone := SeatGone(s, id, Kicked);
      KeepsEverybody(s, id);
      LeaveAnnounced(s, gone.room, gone.out + To(id, [Error(WasKicked)]) + All([KickNotice(id)]), id);
    }
    hide Announced, Broadcasts, SeatGone, Leave;
  }

  lemma KeepsEverybody(s: Room, c: ClientId)
    ensures SeatGone(s, c, Kicked).room.roster.clients.Keys == s.roster.clients.Keys
  {
    hide R.Perform, M.MarkDead;
  }

  lemma TellsIsClear(s: Room, ms: seq<Msg>, next: Room)
    ensures Clear(s, Accept(next, All(ms + [RosterMsg(next)])))
  {
    BroadcastsAll(ms + [RosterMsg(next)]);
    EndsWithRoster(s, ms, next);
    hide Announced;
  }

  lemma QuietIsClear(s: Room, ms: seq<Msg>, next: Room)
    requires NoRoster(ms) && SameFace(s, next)
    ensures Clear(s, Accept(next, All(ms)))
  {
    BroadcastsAll(ms);
    QuietAnnounced(s, ms, next);
  }

  lemma PulseIsClear(s: Room, from: ClientId, p: E.Pulse)
    ensures Clear(s, Pulse(s, from, p))
  {
    RefusedIsClear(s, UnknownClient);
    RefusedIsClear(s, NotRacePlayer);
    if from in s.roster.clients {
      var before := if from in s.attempt.scores then s.attempt.scores[from] else E.FRESH;
      var entry := E.AfterPulse(s.attempt.goal, before, CleanPulse(p, s.attempt.expired));
      var mid := s.(attempt := s.attempt.(scores := s.attempt.scores[from := entry]));
      var (next, out) := MaybeEndGrace(mid);
      var ms := [ScorePulse(from, entry)];
      QuietIsClear(s, ms, mid);
      BroadcastsAll(ms);
      BroadcastsMore(All(ms), out);
      GraceAnnounced(mid);
      AnnouncedChain(s, ms, mid, Broadcasts(out), next);
    }
    hide Announced, Broadcasts, MaybeEndGrace, E.AfterPulse, CleanPulse;
  }

  lemma StartIsClear(s: Room, from: ClientId, settings: Option<Settings>, finishOngoing: Option<bool>, now: nat, seed: bv64)
    ensures Clear(s, StartSession(s, from, settings, finishOngoing, now, seed))
  {
    RefusedIsClear(s, NotAdmin);
    RefusedIsClear(s, NotAllReady);
    RefusedIsClear(s, SessionIsActive);
    var staged := s.(settings := settings.GetOr(s.settings));
    StartRaceIsClear(s, staged, finishOngoing, now);
    StartCoopIsClear(s, staged, seed);
    hide Clear, AllPlayersReady, StartRace, StartCoop;
  }

  lemma StartRaceIsClear(s: Room, t: Room, finishOngoing: Option<bool>, now: nat)
    ensures Clear(s, StartRace(t, finishOngoing, now))
  {
    var next := StartRace(t, finishOngoing, now).room;
    TellsIsClear(s, [RaceStart(t.settings), PlaySync], next);
    assert [RaceStart(t.settings), PlaySync] + [RosterMsg(next)] == [RaceStart(t.settings), PlaySync, RosterMsg(next)];
    hide Clear;
  }

  lemma StartCoopIsClear(s: Room, t: Room, seed: bv64)
    ensures Clear(s, StartCoop(t, seed))
  {
    hide Clear, FirstSeats, FirstOwner, S.NewGame, M.FrameOf, SeatsOf, SimConfig, R.Opening;
    var next := StartCoop(t, seed).room;
    if t.relayEnabled {
      TellsIsClear(s, R.Opening(next.phase.relay), next);
    } else {
      var ms := [SessionStart(SimMeta(next.phase.sim)), PlaySync, CoopState(M.FrameOf(next.phase.sim.game))];
      TellsIsClear(s, ms, next);
      assert ms + [RosterMsg(next)] == [SessionStart(SimMeta(next.phase.sim)), PlaySync, CoopState(M.FrameOf(next.phase.sim.game)), RosterMsg(next)];
    }
  }

  lemma InputIsClear(s: Room, from: ClientId, dir: DirField, now: nat)
    ensures Clear(s, Input(s, from, dir, now))
  {
    forall e
      ensures Clear(s, Refused(s, e)) && Clear(s, Accept(s, []))
    {
      RefusedIsClear(s, e);
    }
    if s.phase.Simulated? && dir.Heading? {
      var o := M.Input(s.phase.sim, from, dir.dir, now);
      assert NoRoster(o.out) by { hide S.SetInput; }
      SimActAnnounced(s, o);
    }
    hide Announced, Broadcasts, SimAct, M.Input, Refused, Accept;
  }

  lemma RelayedIsClear(s: Room, from: ClientId, q: Request, now: nat, seed: bv64)
    requires q.PoseReq? || q.BoardReq? || q.DeathReq? || q.SpeedReq? || q.GoalReq?
    ensures Clear(s, Perform(s, from, q, now, seed))
  {
    hide Clear, Publish, ShiftSpeed, Goal;
    match q
    case PoseReq(pose) => PublishIsClear(s, R.PoseOp(from, pose, now));
    case BoardReq(board) => PublishIsClear(s, R.BoardOp(from, board));
    case DeathReq(death) => PublishIsClear(s, R.DeathOp(from, death));
    case SpeedReq(speed) => ShiftIsClear(s, from, speed);
    case GoalReq(claim) => GoalIsClear(s, from, claim);
  }

  lemma PublishIsClear(s: Room, op: R.Op)
    ensures Clear(s, Publish(s, op))
  {
    RefusedIsClear(s, BadRoom);
    if s.phase.Relayed? {
      RelayActAnnounced(s, op);
    }
    hide Announced, Broadcasts, RelayAct;
  }

  lemma ShiftIsClear(s: Room, from: ClientId, e: SpeedIn)
    ensures Clear(s, ShiftSpeed(s, from, e))
  {
    RefusedIsClear(s, BadSourceEventId);
    RefusedIsClear(s, NotNativeRelay);
    if s.phase.Relayed? {
      RelayActAnnounced(s, R.SpeedOp(from, e));
    }
    hide Announced, Broadcasts, RelayAct;
  }

  lemma GoalIsClear(s: Room, from: ClientId, claim: GoalIn)
    ensures Clear(s, Goal(s, from, claim))
  {
    if s.phase.Relayed? && R.CheckGoal(s.phase.relay, from, claim).Some? {
      RefusedIsClear(s, R.CheckGoal(s.phase.relay, from, claim).value);
    }
    RefusedIsClear(s, BadRoom);
    EndCoopAnnounced(s, AllApples);
    hide Announced, Broadcasts, EndCoop, R.CheckGoal;
  }

  lemma RecordIsClear(s: Room, from: ClientId, q: Request, now: nat, seed: bv64)
    requires q.SetDurationReq? || q.SetRaceGoalReq? || q.ReadyReq? || q.ColorClaimReq? || q.AdminTransferReq? || q.ServerOwnedReq?
    ensures Clear(s, Perform(s, from, q, now, seed))
  {
    var d := Perform(s, from, q, now, seed);
    assert d.err.Some? ==> d == Refused(s, d.err.value) by { hide Readied, Painted, C.Claimable, ColorLocked, E.AfterGoalChange; }
    assert d.err.None? ==> d == Accept(d.room, Announce(d.room)) by { hide Readied, Painted, C.Claimable, ColorLocked, E.AfterGoalChange; }
    if d.err.Some? {
      RefusedIsClear(s, d.err.value);
    } else {
      AnnounceIsClear(s, d.room);
    }
    hide Clear, Perform;
  }

  lemma LobbyIsClear(s: Room, from: ClientId, q: Request, now: nat, seed: bv64)
    requires q.ModeChangeReq? || q.SettingsSyncReq? || q.PlaySyncReq? || q.SessionEndReq? || q.ResyncReq?
    ensures Clear(s, Perform(s, from, q, now, seed))
  {
    var d := Perform(s, from, q, now, seed);
    hide Clear, TrimmedIfCoop, NobodyReady, AllPlayersReady, ReplayMsgs;
    if d.err.Some? {
      RefusedIsClear(s, d.err.value);
    } else {
      match q
      case ModeChangeReq(mode) =>
        var ms := [SessionEnd(EndReason.Aborted), ModeChanged(mode.value)];
        TellsIsClear(s, ms, d.room);
        assert ms + [RosterMsg(d.room)] == [SessionEnd(EndReason.Aborted), ModeChanged(mode.value), RosterMsg(d.room)];
      case SessionEndReq =>
        TellsIsClear(s, [SessionEnd(EndReason.Aborted)], d.room);
        assert [SessionEnd(EndReason.Aborted)] + [RosterMsg(d.room)] == [SessionEnd(EndReason.Aborted), RosterMsg(d.room)];
      case SettingsSyncReq(settings) => QuietIsClear(s, [SettingsSync(settings)], d.room);
      case PlaySyncReq => QuietIsClear(s, [PlaySync], d.room);
      case ResyncReq => ResyncIsClear(s, from);
    }
  }

  lemma ResyncIsClear(s: Room, from: ClientId)
    ensures Clear(s, Resync(s, from))
  {
    BroadcastsTo(from, ReplayMsgs(s) + [RosterMsg(s)]);
    NothingAnnounced(s, s);
    hide ReplayMsgs;
  }

  lemma RequestIsClear(s: Room, from: ClientId, q: Request, now: nat, seed: bv64)
    ensures Clear(s, Perform(s, from, q, now, seed))
  {
    hide Clear, SetRole, Kick, StartSession, Input, Pulse;
    match q
    case SetRoleReq(target, role) => SetRoleIsClear(s, from, target, role);
    case KickReq(target) => KickIsClear(s, from, target);
    case SessionStartReq(bundle, finishOngoing) => StartIsClear(s, from, bundle, finishOngoing, now, seed);
    case InputReq(dir) => InputIsClear(s, from, dir, now);
    case PulseReq(pulse) => PulseIsClear(s, from, pulse);
    case _ =>
      hide Perform;
      if q.PoseReq? || q.BoardReq? || q.DeathReq? || q.SpeedReq? || q.GoalReq? {
        RelayedIsClear(s, from, q, now, seed);
      } else if q.ModeChangeReq? || q.SettingsSyncReq? || q.PlaySyncReq? || q.SessionEndReq? || q.ResyncReq? {
        LobbyIsClear(s, from, q, now, seed);
      } else {
        RecordIsClear(s, from, q, now, seed);
      }
  }

  lemma RaceTickIsClear(s: Room, now: nat)
    ensures Clear(s, RaceTick(s, now))
  {
    RefusedIsClear(s, BadRoom);
    var expired := s.(attempt := s.attempt.(expired := true, allowNew := false));
    var closed := expired.(phase := Lobby, attempt := expired.attempt.(deadline := None));
    var first, last := AttemptExpired(true, false), AttemptExpired(false, false);
    TellsIsClear(s, [last], closed);
    assert [last] + [RosterMsg(closed)] == [last, RosterMsg(closed)];
    var (next, out) := MaybeEndGrace(expired);
    BroadcastsAll([first, RosterMsg(expired)]);
    EndsWithRoster(s, [first], expired);
    assert [first] + [RosterMsg(expired)] == [first, RosterMsg(expired)];
    BroadcastsMore(All([first, RosterMsg(expired)]), out);
    GraceAnnounced(expired);
    AnnouncedChain(s, [first, RosterMsg(expired)], expired, Broadcasts(out), next);
    hide Announced, Broadcasts, MaybeEndGrace;
  }

  lemma TickIsClear(s: Room, now: nat)
    requires RoomInv.RoomOk(s)
    ensures Clear(s, Tick(s, now))
  {
    RaceTickIsClear(s, now);
    RefusedIsClear(s, BadRoom);
    if s.phase.Simulated? {
      TickSaysNoRoster(s.phase.sim);
      SimActAnnounced(s, M.Tick(s.phase.sim));
      ClearIs(s, SimAct(s, M.Tick(s.phase.sim)));
    }
    hide Clear, RaceTick, SimAct, M.Tick, Announced, RoomInv.RoomOk;
  }

  lemma ClearIs(s: Room, d: Done)
    ensures Clear(s, d) <==> Announced(s, Broadcasts(d.out), d.room)
  {
  }

  lemma TickSaysNoRoster(sim: M.Sim)
    ensures NoRoster(M.Tick(sim).out)
  {
    hide M.Catchup, S.SpeedInterval, M.FrameOf, M.EndOf;
    if sim.timer.Some? {
      M.TickIsCatchup(sim);
      hide M.Tick;
      CatchupSays(sim.(accum := sim.accum + M.ROOM_TICK_MS), M.Interval(sim), false);
    }
  }

  lemma AnsweredIsClear(s: Room, d: Done, from: ClientId)
    requires Clear(s, d)
    ensures Clear(s, Answered(d, from))
  {
    if d.err.Some? {
      BroadcastsMore(d.out, To(from, [Error(d.err.value)]));
      BroadcastsTo(from, [Error(d.err.value)]);
      assert Broadcasts(d.out) + [] == Broadcasts(d.out);
    }
    hide Announced, Broadcasts;
  }

  /** Every command tells everyone how the room is left, unless it leaves it as it was. */
  lemma CommandsAreClear(s: Room, c: Cmd)
    requires RoomInv.RoomOk(s)
    ensures Clear(s, Apply(s, c))
  {
    hide RoomInv.RoomOk, Clear, Join, Leave, Tick, Perform, Answered;
    match c
    case JoinCmd(id, sameRoom) => JoinAnnounced(s, id, sameRoom);
    case LeaveCmd(id) => LeaveIsClear(s, id);
    case TickCmd(now) => TickIsClear(s, now);
    case Handle(from, q, now, seed) =>
      RequestIsClear(s, from, q, now, seed);
      AnsweredIsClear(s, Perform(s, from, q, now, seed), from);
  }

  lemma LeaveIsClear(s: Room, id: ClientId)
    ensures Clear(s, Accept(Leave(s, id).0, Leave(s, id).1))
  {
    if id in s.roster.clients {
      LeaveAnnounced(s, s, [], id);
      assert [] + Leave(s, id).1 == Leave(s, id).1;
    } else {
      RefusedIsClear(s, UnknownClient);
    }
    hide Announced, Broadcasts;
  }

  // ---------------------------------------------------------------- over a run

  lemma {:induction false} AnnouncedOverRun(s: Room, cs: seq<Cmd>)
    requires RoomInv.RoomOk(s) && EnabledRun(s, cs)
    ensures Announced(s, RoomRuns.Heralded(s, cs), Run(s, cs))
    decreases |cs|
  {
    hide RoomInv.RoomOk, Apply, Enabled, Announced, Broadcasts;
    if cs == [] {
      NothingAnnounced(s, s);
      assert RoomRuns.Heralded(s, cs) == [] by { RoomRuns.NothingBroadcast(); }
    } else {
      var front := cs[..|cs| - 1];
      AnnouncedOverRun(s, front);
      var before := Run(s, front);
      RoomInv.RunKeeps(s, front);
      var d := Apply(before, Last(cs));
      CommandsAreClear(before, Last(cs));
      BroadcastsMore(Sent(s, front), d.out);
      AnnouncedChain(s, RoomRuns.Heralded(s, front), before, Broadcasts(d.out), d.room);
    }
  }

  /** After every run that leaves anybody in the room, the last roster told to all names the mode, the
      clients with their roles, colours and readiness, the administrator, and whether a session is on,
      all as they are. */
  lemma EveryoneKnowsTheRoster(relayEnabled: bool, settings: Settings, cs: seq<Cmd>)
    requires EnabledRun(NewRoom(relayEnabled, settings), cs)
    ensures var s := Run(NewRoom(relayEnabled, settings), cs);
            var told := LastRoster(RoomRuns.Heralded(NewRoom(relayEnabled, settings), cs));
            s.roster.clients != map[] ==> told.Some? && Tells(told.value, s)
  {
    RoomInv.NewRoomOk(relayEnabled, settings);
    AnnouncedOverRun(NewRoom(relayEnabled, settings), cs);
    hide RoomInv.RoomOk, EnabledRun, Run, RoomRuns.Heralded, LastRoster;
  }
}
