/** Who may do what in a room: for every request the exact condition under which it is granted, and
    what it changes and leaves alone, said of the room before and after. */
module RoomGates {
  import opened Prelude
  import opened RoomTypes
  import opened RosterSpec
  import opened RoomSpec
  import opened RoomInv
  import C = Colors
  import R = Relay
  import M = SimRun
  import S = CoopSpec
  import E = RaceScore

  // ---------------------------------------------------------------- refusals

  predicate AdminOnly(q: Request) {
    q.SetRoleReq? || q.KickReq? || q.SetDurationReq? || q.SetRaceGoalReq? || q.ModeChangeReq? || q.SettingsSyncReq?
    || q.PlaySyncReq? || q.SessionStartReq? || q.SessionEndReq? || q.AdminTransferReq?
  }

  lemma AdminIsAsked(s: Room, from: ClientId, q: Request, now: nat, seed: bv64)
    requires AdminOnly(q) && s.roster.admin != Some(from)
    ensures Perform(s, from, q, now, seed) == Done(s, [], Some(NotAdmin))
  {
    hide AllPlayersReady, SeatGone, Leave, Promoted, Demoted, MaybeEndGrace, StartCoop, StartRace, AbortRun, TrimmedIfCoop;
  }

  /** Whoever is not the administrator gets an error for an administrator's request, and nothing else
      happens. */
  lemma OnlyTheAdminCommands(s: Room, from: ClientId, q: Request, now: nat, seed: bv64)
    requires AdminOnly(q) && s.roster.admin != Some(from)
    ensures Apply(s, Handle(from, q, now, seed)) == Done(s, [Out(Some(from), Error(NotAdmin))], Some(NotAdmin))
  {
    AdminIsAsked(s, from, q, now, seed);
    hide Perform;
    assert To(from, [Error(NotAdmin)]) == [Out(Some(from), Error(NotAdmin))];
  }

  lemma RelayRefusal(s: Room, op: R.Op)
    requires s.phase.Relayed? && !op.DeathOp? && RelayAct(s, op).err.Some?
    ensures RelayAct(s, op).room == s && RelayAct(s, op).out == []
  {
    RelayRefuses(s.phase.relay, s.roster.clients.Keys, op);
    hide R.Perform, NobodyReady;
    assert s.(phase := Relayed(s.phase.relay)) == s;
  }

  lemma RelayRefuses(r: R.Relay, here: set<ClientId>, op: R.Op)
    requires !op.DeathOp? && R.Perform(r, here, op).err.Some?
    ensures R.Perform(r, here, op).relay == r && R.Perform(r, here, op).out == [] && !R.Perform(r, here, op).over
  {
    hide R.CheckSender, R.CheckPoseOrder, R.CheckPose, R.CheckTurns, R.CheckFirstBoard, R.CheckNextBoard, R.NextSpeed, R.NextInitializer,
         R.AllSeatsDead, R.StorePose, R.Fall;
  }

  lemma CommandRefusal(s: Room, from: ClientId, q: Request, now: nat, seed: bv64)
    requires !q.PoseReq? && !q.BoardReq? && !q.DeathReq? && !q.SpeedReq?
    requires Perform(s, from, q, now, seed).err.Some?
    ensures Perform(s, from, q, now, seed).room == s && Perform(s, from, q, now, seed).out == []
  {
    match q
    case SetRoleReq(target, role) =>
      SetRoleRefusal(s, from, target, role);
      hide SetRole;
    case KickReq(target) => hide SeatGone, Leave;
    case InputReq(dir) => hide M.Input;
    case _ =>
      hide SetRole, Kick, Input;
      hide AllPlayersReady, MaybeEndGrace, StartCoop, StartRace, AbortRun, TrimmedIfCoop, Readied, Painted, C.Claimable, ColorLocked,
           R.CheckGoal, ReplayMsgs, E.AfterGoalChange, E.AfterPulse, CleanPulse;
  }

  lemma SetRoleRefusal(s: Room, from: ClientId, target: Option<ClientId>, role: Option<Role>)
    requires SetRole(s, from, target, role).err.Some?
    ensures SetRole(s, from, target, role).room == s && SetRole(s, from, target, role).out == []
  {
    if target.Some? {
      SeatGoneErrs(s, target.value, Demotion);
    }
    hide SeatGone, MaybeEndGrace, Promoted, Demoted;
  }

  lemma SeatGoneErrs(s: Room, c: ClientId, reason: Reason)
    ensures SeatGone(s, c, reason).err.None?
  {
    hide R.NextInitializer, R.AllSeatsDead, R.Fall, M.MarkDead, NobodyReady;
  }

  /** A refused request changes nothing and is answered to its sender alone; only a death report may
      leave its mark although it is refused. */
  lemma RefusalsChangeNothing(s: Room, from: ClientId, q: Request, now: nat, seed: bv64)
    requires !q.DeathReq? && Apply(s, Handle(from, q, now, seed)).err.Some?
    ensures var d := Apply(s, Handle(from, q, now, seed));
            d.room == s && d.out == [Out(Some(from), Error(d.err.value))]
  {
    PerformRefusal(s, from, q, now, seed);
    AnswerIs(Perform(s, from, q, now, seed), from);
    hide Perform;
  }

  lemma AnswerIs(d: Done, from: ClientId)
    ensures d.err.Some? && d.out == [] ==> Answered(d, from) == Done(d.room, [Out(Some(from), Error(d.err.value))], d.err)
    ensures Answered(d, from).err == d.err
  {
    if d.err.Some? {
      assert [] + To(from, [Error(d.err.value)]) == [Out(Some(from), Error(d.err.value))];
    }
  }

  lemma PerformRefusal(s: Room, from: ClientId, q: Request, now: nat, seed: bv64)
    requires !q.DeathReq?
    ensures Perform(s, from, q, now, seed).err.Some? ==>
              Perform(s, from, q, now, seed).room == s && Perform(s, from, q, now, seed).out == []
  {
    if Perform(s, from, q, now, seed).err.Some? {
      match q
      case PoseReq(pose) => PublishRefusal(s, R.PoseOp(from, pose, now));
      case BoardReq(board) => PublishRefusal(s, R.BoardOp(from, board));
      case SpeedReq(speed) => ShiftRefusal(s, from, speed);
      case _ => CommandRefusal(s, from, q, now, seed);
    }
  }

  lemma PublishRefusal(s: Room, op: R.Op)
    requires !op.DeathOp? && Publish(s, op).err.Some?
    ensures Publish(s, op).room == s && Publish(s, op).out == []
  {
    RelayRefusal(s, op);
  }

  lemma ShiftRefusal(s: Room, from: ClientId, e: SpeedIn)
    requires ShiftSpeed(s, from, e).err.Some?
    ensures ShiftSpeed(s, from, e).room == s && ShiftSpeed(s, from, e).out == []
  {
    if s.phase.Relayed? {
      RelayRefusal(s, R.SpeedOp(from, e));
    }
  }

  // ---------------------------------------------------------------- coming and going

  /** A client is let in exactly when fewer than thirty are there and it names this room; it comes in
      as a spectator, after everyone else, and the first becomes administrator. */
  lemma JoinsAreGrantedExactly(s: Room, id: ClientId, sameRoom: bool)
    requires id !in s.roster.clients
    ensures var d := Join(s, id, sameRoom);
            && (d.err.None? <==> |s.roster.clients| < 30 && sameRoom)
            && (d.err.Some? ==> d.room == s && d.out == [])
            && (d.err.None? ==>
                  && d.room == s.(roster := d.room.roster)
                  && d.room.roster.clients == s.roster.clients[id := Client(Spectator, false, None, s.roster.joinSeq + 1, None)]
                  && d.room.roster.joinSeq == s.roster.joinSeq + 1
                  && d.room.roster.admin == (if s.roster.clients == map[] then Some(id) else s.roster.admin)
                  && d.out[0] == Out(Some(id), Welcome(id, d.room.roster.admin == Some(id))))
  {
  }

  lemma LeaverIsGone(s: Room, id: ClientId)
    ensures Leave(s, id).0.roster.clients.Keys == s.roster.clients.Keys - {id}
  {
    hide Unseated;
    if id in s.roster.clients {
      var gone := if s.phase.Relayed? then RelayAct(s, R.GoneOp(id, Disconnect)).room else s;
      assert gone.roster.clients.Keys == s.roster.clients.Keys by {
        hide R.Perform;
      }
      hide RelayAct, NextAdmin, AllDeadIn, AnyRunning;
    }
  }

  lemma SeatGoneKeepsEverybody(s: Room, c: ClientId, reason: Reason)
    ensures SeatGone(s, c, reason).room.roster.clients.Keys == s.roster.clients.Keys
    ensures SeatGone(s, c, reason).room.roster.admin == s.roster.admin
  {
    hide R.Perform, M.MarkDead;
  }

  /** A kick is granted exactly to the administrator, against somebody else who is there. It removes
      that client and nobody else, who is told so, and so is everyone. */
  lemma KicksAreGrantedExactly(s: Room, from: ClientId, target: Option<ClientId>)
    ensures var d := Kick(s, from, target);
            && (d.err.None? <==>
                  s.roster.admin == Some(from) && target.Some? && target.value != from && target.value in s.roster.clients)
            && (d.err.None? ==>
                  && d.room.roster.clients.Keys == s.roster.clients.Keys - {target.value}
                  && Out(Some(target.value), Error(WasKicked)) in d.out && Out(None, KickNotice(target.value)) in d.out)
  {
    if target.Some? {
      SeatGoneKeepsEverybody(s, target.value, Kicked);
      LeaverIsGone(SeatGone(s, target.value, Kicked).room, target.value);
    }
    hide SeatGone, Leave;
    if Kick(s, from, target).err.None? {
      var d, gone := Kick(s, from, target), SeatGone(s, target.value, Kicked);
      assert To(target.value, [Error(WasKicked)])[0] == Out(Some(target.value), Error(WasKicked));
      assert All([KickNotice(target.value)])[0] == Out(None, KickNotice(target.value));
    }
  }

  // ---------------------------------------------------------------- roles

  lemma PromotedRoles(ro: Roster, mode: Mode, id: ClientId)
    requires id in ro.clients
    ensures var next := Promoted(ro, mode, id).clients;
            && next.Keys == ro.clients.Keys && next[id].role == Player && !next[id].ready
            && next[id].promoteOrder == Some(ro.promoteSeq + 1)
            && (forall k :: k in next && k != id ==> next[k] == ro.clients[k])
  {
    hide C.FirstFree, NeedsColor;
  }

  /** A change of role is granted exactly to the administrator, of somebody who is there, and a
      promotion only while the mode has room for another player. Afterwards the client has the role
      asked for, everyone else the role they had, and a promoted player stands last in seat order. */
  lemma RolesAreGrantedExactly(s: Room, from: ClientId, target: Option<ClientId>, role: Option<Role>)
    ensures var d := SetRole(s, from, target, role);
            && (d.err.None? <==>
                  && s.roster.admin == Some(from) && target.Some? && role.Some? && target.value in s.roster.clients
                  && (role.value == Player && s.roster.clients[target.value].role != Player ==>
                        |Players(s.roster.clients)| < (if s.mode == Race then 9 else 4)))
            && (d.err.None? ==>
                  && d.room.roster.clients.Keys == s.roster.clients.Keys
                  && d.room.roster.clients[target.value].role == role.value
                  && (forall k :: k in s.roster.clients && k != target.value ==> d.room.roster.clients[k].role == s.roster.clients[k].role)
                  && (role.value == Player && s.roster.clients[target.value].role != Player ==>
                        d.room.roster.clients[target.value].promoteOrder == Some(s.roster.promoteSeq + 1)))
  {
    hide SeatGone, Promoted, Demoted, WithGrace, Players, Announce;
    if target.Some? && role.Some? && target.value in s.roster.clients && s.roster.clients[target.value].role != role.value {
      if role.value == Player {
        PromotedRoles(s.roster, s.mode, target.value);
        GraceKeepsRoster(s.(roster := Promoted(s.roster, s.mode, target.value)), []);
      } else {
        DemotionLeaves(s, target.value);
      }
    }
  }

  /** What a demotion leaves: the client a spectator, everyone else in their role. */
  lemma DemotionLeaves(s: Room, c: ClientId)
    requires c in s.roster.clients
    ensures var gone := SeatGone(s, c, Demotion);
            && c in gone.room.roster.clients
            && var d := WithGrace(gone.room.(roster := Demoted(gone.room.roster, c)), gone.out);
               && d.err.None? && d.room.roster.clients.Keys == s.roster.clients.Keys
               && d.room.roster.clients[c].role == Spectator
               && forall k :: k in s.roster.clients && k != c ==> d.room.roster.clients[k].role == s.roster.clients[k].role
  {
    SeatGoneRoles(s, c, Demotion);
    var gone := SeatGone(s, c, Demotion);
    GraceKeepsRoster(gone.room.(roster := Demoted(gone.room.roster, c)), gone.out);
    hide SeatGone, WithGrace;
  }

  lemma GraceKeepsRoster(s: Room, out: seq<Out>)
    ensures WithGrace(s, out).room.roster == s.roster && WithGrace(s, out).err.None?
  {
    hide AnyRunning;
  }

  lemma SeatGoneRoles(s: Room, c: ClientId, reason: Reason)
    ensures var next := SeatGone(s, c, reason).room.roster.clients;
            next.Keys == s.roster.clients.Keys && forall k :: k in next ==> next[k].role == s.roster.clients[k].role
  {
    hide R.Perform, M.MarkDead;
  }

  // ---------------------------------------------------------------- readiness and colours

  /** Exactly the players may call themselves ready or not; nobody else changes. */
  lemma ReadinessIsGrantedExactly(s: Room, from: ClientId, ready: Option<bool>)
    ensures var d := Ready(s, from, ready);
            && (d.err.None? <==> from in s.roster.clients && s.roster.clients[from].role == Player)
            && (d.err.None? ==>
                  && d.room == s.(roster := d.room.roster) && d.room.roster == s.roster.(clients := d.room.roster.clients)
                  && d.room.roster.clients.Keys == s.roster.clients.Keys
                  && d.room.roster.clients[from] == s.roster.clients[from].(ready := ready.GetOr(true), color := d.room.roster.clients[from].color)
                  && (forall k :: k in s.roster.clients && k != from ==> d.room.roster.clients[k] == s.roster.clients[k]))
  {
    hide C.NextFree, NeedsColor;
  }

  /** A claim of a colour is granted exactly when the byte sent names one that can be claimed and, in
      co-op, no other ready player holds it; the claimant then wears it and nobody else changes. */
  lemma ColorsAreGrantedExactly(s: Room, from: ClientId, color: Option<nat>)
    ensures var d := ColorClaim(s, from, color);
            && (d.err.None? <==>
                  && color.Some? && color.value % 256 < 46 && from in s.roster.clients
                  && (s.mode == Coop ==>
                        forall k :: k in s.roster.clients && k != from && s.roster.clients[k].role == Player && s.roster.clients[k].ready ==>
                                      s.roster.clients[k].color != Some(color.value % 256)))
            && (d.err.None? ==>
                  d.room == s.(roster := s.roster.(clients := s.roster.clients[from := s.roster.clients[from].(color := Some(color.value % 256))])))
  {
    if color.Some? {
      C.ClaimableRange(color.value % 256);
    }
    hide C.Claimable;
  }

  // ---------------------------------------------------------------- sessions

  /** A session starts exactly for the administrator, when there are players and all of them are ready;
      in co-op only from the lobby. */
  lemma StartsAreGrantedExactly(s: Room, from: ClientId, settings: Option<Settings>, finishOngoing: Option<bool>, now: nat, seed: bv64)
    ensures var d := StartSession(s, from, settings, finishOngoing, now, seed);
            && (d.err.None? <==>
                  && s.roster.admin == Some(from)
                  && Players(s.roster.clients) != {} && Players(s.roster.clients) == ReadyPlayers(s.roster.clients)
                  && (s.mode == Coop ==> s.phase.Lobby?))
            && (d.err.None? ==>
                  && !d.room.phase.Lobby? && d.room.roster == s.roster && d.room.settings == settings.GetOr(s.settings)
                  && d.room.attempt.scores == map[] && !d.room.attempt.expired && d.room.attempt.allowNew
                  && (s.mode == Race ==>
                        d.room.phase.Racing? && d.room.attempt.deadline == Some(now + 60000 * s.attempt.durationMin)
                        && d.room.attempt.finishOngoing == finishOngoing.GetOr(s.attempt.finishOngoing)))
  {
    assert AllPlayersReady(s.roster.clients) <==>
           Players(s.roster.clients) != {} && Players(s.roster.clients) == ReadyPlayers(s.roster.clients) by {
      AllReady(s.roster.clients);
    }
    hide AllPlayersReady, FirstSeats, FirstOwner, NewSim, R.NewRelay, Players, ReadyPlayers;
  }

  lemma AllReady(cs: map<ClientId, Client>)
    ensures AllPlayersReady(cs) <==> Players(cs) != {} && Players(cs) == ReadyPlayers(cs)
  {
    if Players(cs) == ReadyPlayers(cs) {
      forall id | id in cs && cs[id].role == Player
        ensures cs[id].ready
      {
        assert id in ReadyPlayers(cs);
      }
    }
    if AllPlayersReady(cs) {
      assert Players(cs) == ReadyPlayers(cs);
    }
  }

  /** The administrator's end of a session leaves the lobby, nobody ready and the results on show,
      final exactly when there are any. */
  lemma EndsAreGrantedExactly(s: Room, from: ClientId)
    ensures var d := EndSession(s, from);
            && (d.err.None? <==> s.roster.admin == Some(from))
            && (d.err.None? ==>
                  && d.room.phase.Lobby? && ReadyPlayers(d.room.roster.clients) == {}
                  && d.room.roster.clients.Keys == s.roster.clients.Keys
                  && d.room.attempt.scores == s.attempt.scores && d.room.attempt.deadline == None && d.room.attempt.allowNew
                  && (d.room.attempt.expired <==> s.attempt.scores != map[]))
  {
  }

  /** A change of mode is the administrator's; it ends the session, drops every result and leaves
      nobody ready. */
  lemma ModesAreGrantedExactly(s: Room, from: ClientId, mode: Option<Mode>)
    requires RoomOk(s)
    ensures var d := ModeChange(s, from, mode);
            && (d.err.None? <==> s.roster.admin == Some(from) && mode.Some?)
            && (d.err.None? ==>
                  && d.room.mode == mode.value && d.room.phase.Lobby? && d.room.attempt.scores == map[] && !d.room.attempt.expired)
  {
    hide RoomOk, NobodyReady, TrimmedIfCoop;
  }

  /** The administrator hands over to anybody who is there, and to nobody else. */
  lemma HandoversAreGrantedExactly(s: Room, from: ClientId, target: Option<ClientId>)
    ensures var d := AdminTransfer(s, from, target);
            && (d.err.None? <==> s.roster.admin == Some(from) && target.Some? && target.value in s.roster.clients)
            && (d.err.None? ==> d.room == s.(roster := s.roster.(admin := target)))
  {
  }

  /** A duration is the administrator's: after the cut to 32 bits between one minute and a day. */
  lemma DurationsAreGrantedExactly(s: Room, from: ClientId, minutes: Option<nat>)
    ensures var d := SetDuration(s, from, minutes);
            && (d.err.None? <==>
                  s.roster.admin == Some(from) && minutes.Some? && 1 <= minutes.value % 4294967296 <= 1440)
            && (d.err.None? ==> d.room == s.(attempt := s.attempt.(durationMin := minutes.value % 4294967296)))
  {
  }

  /** A pulse is recorded exactly for a player of a race that is on. */
  lemma PulsesAreGrantedExactly(s: Room, from: ClientId, p: E.Pulse)
    ensures var d := Pulse(s, from, p);
            && (d.err.None? <==> from in s.roster.clients && s.roster.clients[from].role == Player && s.mode == Race)
            && (d.err.None? && s.phase.Lobby? ==> d.room == s && d.out == [])
            && (d.err.None? && !s.phase.Lobby? ==>
                  && d.room.attempt.scores.Keys == s.attempt.scores.Keys + {from}
                  && d.out[0] == Out(None, ScorePulse(from, d.room.attempt.scores[from])))
  {
    hide E.AfterPulse, CleanPulse, AnyRunning;
  }

  /** A resynchronisation changes nothing and speaks to the one who asked. */
  lemma ResyncsSpeakToOne(s: Room, from: ClientId, k: nat)
    requires k < |Resync(s, from).out|
    ensures Resync(s, from).room == s && Resync(s, from).out[k].to == Some(from)
  {
    hide ReplayMsgs;
  }

  /** An input of a player reaches the simulation exactly while one is running. */
  lemma InputsAreGrantedExactly(s: Room, from: ClientId, dir: DirField, now: nat)
    requires RoomOk(s)
    ensures var d := Input(s, from, dir, now);
            && (s.phase.Simulated? ==>
                  (d.err.None? <==> from in s.roster.clients && s.roster.clients[from].role == Player && dir.Heading?))
            && (s.phase.Simulated? && d.err.None? ==>
                  && d.room.phase.Simulated?
                  && d.room.phase.sim.timer == Some(s.phase.sim.timer.GetOr(now))
                  && (Out(None, TimerStart(None, now)) in d.out <==> s.phase.sim.timer.None?))
            && (!s.phase.Simulated? ==> d.room == s && d.out == [])
  {
    assert s.phase.Simulated? ==> s.mode == Coop by { hide RosterOk, M.SimOk; }
    hide RoomOk, NobodyReady, M.S.SetInput;
    if s.phase.Simulated? {
      assert All([TimerStart(None, now)])[0] == Out(None, TimerStart(None, now));
    }
  }

  /** Settings are the administrator's, and touch nothing but the settings for the next session. */
  lemma SettingsAreGrantedExactly(s: Room, from: ClientId, settings: Settings)
    ensures var d := SyncSettings(s, from, settings);
            && (d.err.None? <==> s.roster.admin == Some(from))
            && (d.err.None? ==> d.room == s.(settings := settings) && d.out == All([SettingsSync(settings)]))
  {
  }

  /** A common start signal is the administrator's, with everybody ready and, in a race, while new runs
      are let in. */
  lemma SignalsAreGrantedExactly(s: Room, from: ClientId)
    ensures var d := SyncPlay(s, from);
            && d.room == s
            && (d.err.None? <==>
                  && s.roster.admin == Some(from)
                  && Players(s.roster.clients) != {} && Players(s.roster.clients) == ReadyPlayers(s.roster.clients)
                  && (s.mode == Race ==> s.attempt.allowNew))
            && (d.err.None? ==> d.out == All([PlaySync]))
  {
    AllReady(s.roster.clients);
    hide AllPlayersReady, Players, ReadyPlayers;
  }

  /** A granted claim of all apples ends the relayed session with that reason. */
  lemma GoalEndsTheSession(s: Room, from: ClientId, g: GoalIn)
    requires s.phase.Relayed?
    ensures var d := Goal(s, from, g);
            && (d.err.None? <==> R.CheckGoal(s.phase.relay, from, g).None?)
            && (d.err.None? ==>
                  && d.room.phase.Lobby? && ReadyPlayers(d.room.roster.clients) == {}
                  && d.out == All([SessionEnd(AllApples), RosterMsg(d.room)]))
  {
    hide R.CheckGoal;
  }

  // ---------------------------------------------------------------- who comes next

  /** When the administrator leaves, the client that has been there longest takes over; otherwise the
      administrator stays. */
  lemma AdminPassesOn(s: Room, id: ClientId)
    requires id in s.roster.clients
    ensures var next := Leave(s, id).0.roster;
            if s.roster.admin != Some(id) then next.admin == s.roster.admin
            else if s.roster.clients.Keys == {id} then next.admin == None
            else next.admin.Some? && next.admin.value in s.roster.clients && next.admin.value != id
                 && forall k :: k in s.roster.clients && k != id ==>
                      s.roster.clients[next.admin.value].joinOrder <= s.roster.clients[k].joinOrder
  {
    var gone := Released(s, id).room;
    ReleasedKeepsEverybody(s, id);
    LeaverAdmin(s, id);
    hide Leave, Released, NextAdmin;
    var rest := gone.roster.clients - {id};
    NextAdminIs(rest);
    OnlyOne(s.roster.clients.Keys, id);
    assert rest.Keys == s.roster.clients.Keys - {id};
    forall k | k in s.roster.clients && k != id
      ensures k in rest && rest[k].joinOrder == s.roster.clients[k].joinOrder
    {
    }
  }

  lemma ReleasedKeepsEverybody(s: Room, id: ClientId)
    ensures var ro := Released(s, id).room.roster;
            ro.admin == s.roster.admin && ro.clients.Keys == s.roster.clients.Keys
            && forall k :: k in s.roster.clients ==> ro.clients[k].joinOrder == s.roster.clients[k].joinOrder
  {
    hide R.Perform;
  }

  lemma LeaverAdmin(s: Room, id: ClientId)
    requires id in s.roster.clients
    ensures Leave(s, id).0.roster.admin ==
              if Released(s, id).room.roster.admin == Some(id) then NextAdmin(Released(s, id).room.roster.clients - {id})
              else Released(s, id).room.roster.admin
  {
    var gone := Released(s, id).room;
    hide RelayAct, NextAdmin, AfterLeave, Unseated;
    var left := gone.(phase := Unseated(gone, id).0, roster := Departed(gone.roster, id),
                      attempt := gone.attempt.(scores := gone.attempt.scores - {id}));
    AfterLeaveAdmin(left);
    assert Leave(s, id).0 == AfterLeave(left).0;
  }

  lemma OnlyOne(ids: set<ClientId>, id: ClientId)
    requires id in ids
    ensures ids - {id} == {} <==> ids == {id}
  {
    if ids - {id} == {} {
      assert forall k :: k in ids ==> k == id || k in ids - {id};
    }
  }

  lemma AfterLeaveAdmin(s: Room)
    ensures AfterLeave(s).0.roster.admin == s.roster.admin
  {
    hide AllDeadIn, AnyRunning;
  }

  lemma NextAdminIs(cs: map<ClientId, Client>)
    ensures cs.Keys == {} ==> NextAdmin(cs) == None
    ensures cs.Keys != {} ==> NextAdmin(cs).Some? && NextAdmin(cs).value in cs
                              && forall k :: k in cs ==> cs[NextAdmin(cs).value].joinOrder <= cs[k].joinOrder
  {
    NonEmptyKeys(cs);
  }

  /** When the owner of a simulated board leaves, it passes to the administrator if that client plays,
      and otherwise to the remaining player promoted first. */
  lemma OwnerPassesOn(s: Room, id: ClientId)
    requires s.phase.Simulated? && id in s.roster.clients && JoinsApart(s.roster.clients)
    ensures var rest := s.roster.clients - {id};
            var owner := OwnerOf(Unseated(s, id).0);
            if s.phase.sim.owner != Some(id) then owner == s.phase.sim.owner
            else if s.roster.admin.Some? && s.roster.admin.value in Players(rest) then owner == s.roster.admin
            else if Players(rest) == {} then owner == None
            else owner.Some? && IsFirst(rest, Players(rest), owner.value)
  {
    var rest := s.roster.clients - {id};
    M.FallOwner(s.phase.sim, id, Disconnect);
    SeatOrderIsSorted(rest, Players(rest));
    hide M.MarkDead, SeatOrder, Players, Before;
    var order := SeatOrder(rest, Players(rest));
    assert Seating(rest) == order;
    if order != [] {
      assert order[0] in SetOf(order);
      assert forall k :: k in Players(rest) && k != order[0] ==> Before(rest[order[0]], rest[k]) by {
        forall k | k in Players(rest) && k != order[0]
          ensures Before(rest[order[0]], rest[k])
        {
          assert k in SetOf(order);
          var j :| 0 <= j < |order| && order[j] == k;
        }
      }
    } else {
      assert SetOf(order) == {};
    }
  }

  // ---------------------------------------------------------------- what a session starts with, and why a seat is lost

  /** A simulated session takes board, speed and fruit from the settings, index by index, an index out
      of range falling back to the usual one; it is owned by the administrator if that client plays, and
      otherwise by the first seat. */
  lemma SimulationFollowsSettings(s: Room, slots: seq<ClientId>, seed: bv64)
    requires slots != []
    ensures var wish := s.settings;
            var owner := FirstOwner(s.roster.admin, slots);
            var sim := NewSim(s, slots, owner, seed);
            && (sim.game.width, sim.game.height) == (if wish.size == 1 then (10, 9) else if wish.size == 2 then (24, 21) else (17, 15))
            && M.Interval(sim) == (if wish.speed == Number(1) then 85 else if wish.speed == Number(2) then 200 else 142)
            && sim.game.target == (if wish.count == 1 then 3 else if wish.count == 2 || wish.count == 6 then 5 else if wish.count == 3 then 10 else 1)
            && owner == (if s.roster.admin.Some? && s.roster.admin.value in slots then s.roster.admin else Some(slots[0]))
            && sim.slots == slots && sim.settings == wish && sim.owner == owner && sim.generation == s.generation + 1
            && sim.accum == 0 && sim.timer.None?
  {
    hide S.Fill, S.Plant, S.StockFruit, S.NewSnakes, S.Covered;
  }

  /** The relay cuts the size of its board to one byte first. */
  lemma RelayBoard(settings: Settings)
    ensures RelayDims(settings) == if settings.size % 256 == 1 then (10, 9) else if settings.size % 256 == 2 then (24, 21) else (17, 15)
  {
  }

  predicate SaysWhy(s: Room, c: ClientId, reason: Reason, x: Out) {
    x.to == None
    && (s.phase.Relayed? ==> x.msg.PlayerDead? && x.msg.figure.Corpse? && x.msg.figure.client == c && x.msg.figure.reason == reason)
    && (s.phase.Simulated? ==> x.msg == SimDead(c, reason))
  }

  predicate HoldsLivingSeat(s: Room, c: ClientId) {
    (s.phase.Relayed? && R.Alive(s.phase.relay.alive, c)) || (s.phase.Simulated? && R.Alive(s.phase.sim.alive, c))
  }

  lemma SeatsAreFrozen(s: Room, c: ClientId)
    requires RoomOk(s) && HoldsLivingSeat(s, c)
    ensures s.phase.Relayed? ==> c in s.phase.relay.slots
    ensures s.phase.Simulated? ==> c in s.phase.sim.slots
  {
    hide RosterOk, S.SpeedInterval, M.G.Accounted;
  }

  lemma RelayFallSays(r: R.Relay, here: set<ClientId>, c: ClientId, reason: Reason)
    requires c in r.slots && R.Alive(r.alive, c)
    ensures var out := R.Perform(r, here, R.GoneOp(c, reason)).out;
            out != [] && out[0].PlayerDead? && out[0].figure.Corpse? && out[0].figure.client == c && out[0].figure.reason == reason
  {
    hide R.NextInitializer, R.AllSeatsDead, R.RemainsOf, R.Fall;
  }

  lemma SimFallSays(sim: M.Sim, c: ClientId, reason: Reason)
    requires c in sim.slots && R.Alive(sim.alive, c)
    ensures var out := M.MarkDead(sim, c, reason).out; out != [] && out[0] == SimDead(c, reason)
  {
    hide S.Kill, M.FrameOf, R.AllSeatsDead;
  }

  lemma RelayActSays(s: Room, op: R.Op)
    requires s.phase.Relayed? && R.Perform(s.phase.relay, s.roster.clients.Keys, op).out != []
    ensures var d := RelayAct(s, op);
            d.out != [] && d.out[0] == Out(None, R.Perform(s.phase.relay, s.roster.clients.Keys, op).out[0])
  {
    hide R.Perform, NobodyReady;
  }

  /** Whoever loses a living seat is reported dead for the reason given. */
  lemma SeatGoneSays(s: Room, c: ClientId, reason: Reason)
    requires RoomOk(s) && HoldsLivingSeat(s, c)
    ensures SeatGone(s, c, reason).out != [] && SaysWhy(s, c, reason, SeatGone(s, c, reason).out[0])
  {
    SeatsAreFrozen(s, c);
    hide RoomOk, RelayAct, SimAct, R.Perform, M.MarkDead;
    if s.phase.Relayed? {
      RelayFallSays(s.phase.relay, s.roster.clients.Keys, c, reason);
      RelayActSays(s, R.GoneOp(c, reason));
    } else {
      SimFallSays(s.phase.sim, c, reason);
      SimActSays(s, M.MarkDead(s.phase.sim, c, reason));
    }
  }

  /** A kick, a demotion and a departure of somebody with a living seat say so first, each in its own
      words. */
  lemma LostSeatsSayWhy(s: Room, from: ClientId, c: ClientId)
    requires RoomOk(s) && c in s.roster.clients && HoldsLivingSeat(s, c)
    ensures s.roster.admin == Some(from) && c != from ==>
              var d := Kick(s, from, Some(c)); d.out != [] && SaysWhy(s, c, Kicked, d.out[0])
    ensures s.roster.admin == Some(from) && s.roster.clients[c].role == Player ==>
              var d := SetRole(s, from, Some(c), Some(Spectator)); d.out != [] && SaysWhy(s, c, Demotion, d.out[0])
    ensures Leave(s, c).1 != [] && SaysWhy(s, c, Disconnect, Leave(s, c).1[0])
  {
    hide RoomOk;
    SeatGoneSays(s, c, Kicked);
    SeatGoneSays(s, c, Demotion);
    SeatGoneSays(s, c, Disconnect);
    SeatGoneKeepsEverybody(s, c, Demotion);
    LeaveSaysFirst(s, c);
    KickSaysFirst(s, from, c);
    DemotionSaysFirst(s, from, c);
    hide Kick, SetRole, Leave, SeatGone;
  }

  lemma KickSaysFirst(s: Room, from: ClientId, c: ClientId)
    requires c in s.roster.clients && SeatGone(s, c, Kicked).out != []
    ensures s.roster.admin == Some(from) && c != from ==>
              Kick(s, from, Some(c)).out != [] && Kick(s, from, Some(c)).out[0] == SeatGone(s, c, Kicked).out[0]
  {
    hide SeatGone, Leave;
  }

  lemma DemotionSaysFirst(s: Room, from: ClientId, c: ClientId)
    requires c in s.roster.clients && SeatGone(s, c, Demotion).out != []
    ensures s.roster.admin == Some(from) && s.roster.clients[c].role == Player ==>
              SetRole(s, from, Some(c), Some(Spectator)).out != []
              && SetRole(s, from, Some(c), Some(Spectator)).out[0] == SeatGone(s, c, Demotion).out[0]
  {
    hide SeatGone, Demoted, MaybeEndGrace, Announce;
  }

  lemma LeaveSaysFirst(s: Room, c: ClientId)
    requires c in s.roster.clients && SeatGone(s, c, Disconnect).out != [] && HoldsLivingSeat(s, c)
    ensures Leave(s, c).1 != [] && Leave(s, c).1[0] == SeatGone(s, c, Disconnect).out[0]
  {
    if s.phase.Relayed? {
      hide RelayAct, Unseated, Departed, AfterLeave;
    } else {
      SimLeaveSays(s, c);
    }
  }

  lemma SimLeaveSays(s: Room, c: ClientId)
    requires c in s.roster.clients && s.phase.Simulated? && R.Alive(s.phase.sim.alive, c) && SeatGone(s, c, Disconnect).out != []
    ensures Leave(s, c).1 != [] && Leave(s, c).1[0] == SeatGone(s, c, Disconnect).out[0]
  {
    hide M.MarkDead, PickOwner, Departed, AfterLeave, NobodyReady;
    FallTalks(s.phase.sim, c);
    SimActSays(s, M.MarkDead(s.phase.sim, c, Disconnect));
  }

  lemma FallTalks(sim: M.Sim, c: ClientId)
    ensures var o := M.MarkDead(sim, c, Disconnect); o.over.Some? ==> o.out != []
  {
    hide S.Kill, M.FrameOf, R.AllSeatsDead;
  }

  lemma SimActSays(s: Room, o: M.Outcome)
    requires o.over.Some? ==> o.out != []
    ensures o.out != [] ==> SimAct(s, o).out != [] && SimAct(s, o).out[0] == Out(None, o.out[0])
    ensures o.out == [] ==> SimAct(s, o).out == []
  {
    hide NobodyReady;
  }
}
