/** The invariant of the room: who is admin, how many may be here and play, whose colours are
    locked, that a live co-op session is sound, and that a grace period has someone to wait for. */
module RoomInv {
  import opened Prelude
  import opened Grid
  import opened RoomTypes
  import opened RosterSpec
  import opened RosterInv
  import opened RoomSpec
  import C = Colors
  import R = Relay
  import RI = RelayInv
  import M = SimRun
  import S = CoopSpec
  import G = CoopRuns
  import E = RaceScore

  /** The phase belongs to the mode, and a live co-op session is sound for these players. */
  ghost predicate CoopOk(s: Room, players: set<ClientId>) {
    match s.phase
    case Lobby => true
    case Racing => s.mode == Race
    case Simulated(sim) => s.mode == Coop && M.SimOk(sim, players) && sim.generation == s.generation
    case Relayed(relay) => s.mode == Coop && RI.RelayOk(relay, players) && relay.generation == s.generation
  }

  predicate GraceHeld(s: Room) {
    s.phase.Racing? && s.attempt.expired ==> s.attempt.finishOngoing
  }

  /** A race past its time goes on only to let someone finish. */
  predicate GraceOk(s: Room) {
    s.phase.Racing? && s.attempt.expired ==> s.attempt.finishOngoing && AnyRunning(s)
  }

  ghost predicate RoomOk(s: Room) {
    RosterOk(s.roster, s.mode) && CoopOk(s, Players(s.roster.clients)) && GraceOk(s)
  }

  lemma NewRoomOk(relayEnabled: bool, settings: Settings)
    ensures RoomOk(NewRoom(relayEnabled, settings))
  {
    NewRosterOk(Race);
    hide RosterOk;
  }

  // ---------------------------------------------------------------- building blocks

  lemma RelayPlayers(r: R.Relay, few: set<ClientId>, more: set<ClientId>)
    requires RI.RelayOk(r, few) && few <= more
    ensures RI.RelayOk(r, more)
  {
    hide RI.SlotsOk, RI.BoardOk, RI.FiguresOk, RI.JournalsOk;
  }

  lemma MorePlayers(s: Room, few: set<ClientId>, more: set<ClientId>)
    requires CoopOk(s, few) && few <= more
    ensures CoopOk(s, more)
  {
    hide M.SimOk, RI.RelayOk;
    if s.phase.Simulated? {
      M.FewerPlayers(s.phase.sim, few, more);
    } else if s.phase.Relayed? {
      RelayPlayers(s.phase.relay, few, more);
    }
  }

  /** Clearing a session keeps everyone in the room and their roles. */
  lemma ClearedKeeps(s: Room)
    requires RosterOk(s.roster, s.mode)
    ensures var next := Cleared(s);
            && RosterOk(next.roster, next.mode) && Players(next.roster.clients) == Players(s.roster.clients)
            && next.roster.clients.Keys == s.roster.clients.Keys
            && (forall players :: CoopOk(next, players)) && GraceOk(next)
  {
    UnreadyKeeps(s.roster, s.mode);
    NobodyReadyKeys(s.roster);
    hide RosterOk, NobodyReady, Players;
  }

  lemma NobodyReadyKeys(ro: Roster)
    ensures NobodyReady(ro).clients.Keys == ro.clients.Keys
  {
  }

  /** The outcome of an act on the live session, seen from the room. */
  ghost predicate ActOk(s: Room, next: Room, players: set<ClientId>) {
    && RosterOk(next.roster, next.mode) && next.mode == s.mode
    && next.roster.clients.Keys == s.roster.clients.Keys
    && Players(next.roster.clients) == Players(s.roster.clients)
    && next.attempt == s.attempt
    && CoopOk(next, players)
    && (next.phase.Racing? ==> s.phase.Racing?)
    && (s.phase.Racing? ==> next == s)
  }

  function GoneIn(op: R.Op): set<ClientId> {
    if op.GoneOp? then {op.client} else {}
  }

  lemma PlayersAreHere(cs: map<ClientId, Client>)
    ensures Players(cs) <= cs.Keys
  {
  }

  lemma RelayActKeeps(s: Room, op: R.Op)
    requires RoomOk(s) && s.phase.Relayed?
    ensures ActOk(s, RelayAct(s, op).room, Players(s.roster.clients) - GoneIn(op))
  {
    var players := Players(s.roster.clients);
    PlayersAreHere(s.roster.clients);
    hide RosterOk, RI.RelayOk, Players, R.Perform, Cleared;
    var o := R.Perform(s.phase.relay, s.roster.clients.Keys, op);
    RI.PerformKeeps(s.phase.relay, s.roster.clients.Keys, players, op);
    RI.SeatsAreFrozen(s.phase.relay, s.roster.clients.Keys, op);
    ClearedKeeps(s.(phase := Relayed(o.relay)));
    ClearedTouches(s.(phase := Relayed(o.relay)));
    assert !op.GoneOp? ==> players - GoneIn(op) == players;
    assert CoopOk(RelayAct(s, op).room, players - GoneIn(op));
  }

  lemma ClearedTouches(s: Room)
    ensures var next := Cleared(s);
            && next == s.(phase := Lobby, roster := next.roster)
            && next.roster == s.roster.(clients := next.roster.clients)
  {
  }

  lemma SimActKeeps(s: Room, o: M.Outcome, players: set<ClientId>)
    requires RosterOk(s.roster, s.mode) && s.phase.Simulated? && s.mode == Coop
    requires o.over.None? ==> M.SimOk(o.sim, players) && o.sim.generation == s.generation
    ensures ActOk(s, SimAct(s, o).room, players)
  {
    hide RosterOk, M.SimOk, Players, Cleared;
    ClearedKeeps(s.(phase := Simulated(o.sim)));
    ClearedTouches(s.(phase := Simulated(o.sim)));
    var next := SimAct(s, o).room;
    assert RosterOk(next.roster, next.mode);
    assert next.mode == s.mode && next.attempt == s.attempt;
    assert next.roster.clients.Keys == s.roster.clients.Keys;
    assert Players(next.roster.clients) == Players(s.roster.clients);
    assert CoopOk(next, players);
  }

  lemma SeatGoneKeeps(s: Room, c: ClientId, reason: Reason)
    requires RoomOk(s)
    ensures ActOk(s, SeatGone(s, c, reason).room, Players(s.roster.clients) - {c})
  {
    var players := Players(s.roster.clients);
    match s.phase
    case Relayed(relay) =>
      RelayActKeeps(s, R.GoneOp(c, reason));
    case Simulated(sim) =>
      hide RosterOk, M.SimOk, Players, M.MarkDead, SimAct, ActOk;
      M.FallKeeps(sim, players, c, reason);
      SimActKeeps(s, M.MarkDead(sim, c, reason), players - {c});
    case _ =>
      hide RosterOk, Players;
  }

  /** The check after a change leaves either somebody running or no race. */
  lemma MaybeEndGraceKeeps(s: Room)
    requires GraceHeld(s)
    ensures var next := MaybeEndGrace(s).0;
            && GraceOk(next) && next.roster == s.roster && next.mode == s.mode
            && (next == s || (next.phase.Lobby? && s.phase.Racing?))
  {
    if InGrace(s) && !AnyRunning(s) {
    } else {
      assert MaybeEndGrace(s).0 == s;
    }
  }

  lemma Settled(s: Room)
    requires RosterOk(s.roster, s.mode) && CoopOk(s, Players(s.roster.clients)) && GraceHeld(s)
    ensures RoomOk(MaybeEndGrace(s).0)
  {
    MaybeEndGraceKeeps(s);
    hide RosterOk, MaybeEndGrace, GraceOk, M.SimOk, RI.RelayOk;
  }

  // ---------------------------------------------------------------- the live session

  lemma ActGivesRoom(s: Room, next: Room)
    requires !s.phase.Racing? && ActOk(s, next, Players(s.roster.clients))
    ensures RoomOk(next)
  {
    hide RosterOk, Players, CoopOk;
  }

  lemma PublishKeeps(s: Room, op: R.Op)
    requires RoomOk(s) && !op.GoneOp?
    ensures RoomOk(Publish(s, op).room)
  {
    hide RelayAct, RoomOk, ActOk, Players;
    if s.phase.Relayed? {
      RelayActKeeps(s, op);
      assert Players(s.roster.clients) - GoneIn(op) == Players(s.roster.clients);
      ActGivesRoom(s, RelayAct(s, op).room);
    }
  }

  lemma GoalKeeps(s: Room, from: ClientId, g: GoalIn)
    requires RoomOk(s)
    ensures RoomOk(Goal(s, from, g).room)
  {
    ClearedKeeps(s);
    hide RosterOk, Cleared, R.CheckGoal, GraceOk;
  }

  lemma InputKeepsRoom(s: Room, from: ClientId, dir: DirField, now: nat)
    requires RoomOk(s)
    ensures RoomOk(Input(s, from, dir, now).room)
  {
    if s.phase.Simulated? && dir.Heading? {
      var players := Players(s.roster.clients);
      InputGeneration(s.phase.sim, from, dir.dir, now);
      hide RosterOk, M.SimOk, Players, SimAct, M.Input, ActOk;
      M.InputKeeps(s.phase.sim, players, from, dir.dir, now);
      SimActKeeps(s, M.Input(s.phase.sim, from, dir.dir, now), players);
      hide RoomOk, CoopOk, GraceOk;
      ActGivesRoom(s, SimAct(s, M.Input(s.phase.sim, from, dir.dir, now)).room);
    } else {
      hide RosterOk, M.SimOk, Players, SimAct, RoomOk;
    }
  }

  lemma InputGeneration(sim: M.Sim, from: ClientId, dir: Dir, now: nat)
    ensures M.Input(sim, from, dir, now).sim.generation == sim.generation
  {
  }

  lemma RaceTickKeeps(s: Room, now: nat)
    requires RoomOk(s) && s.mode == Race
    ensures RoomOk(RaceTick(s, now).room)
  {
    hide RosterOk, Players, MaybeEndGrace;
    var expired := s.(attempt := s.attempt.(expired := true, allowNew := false));
    if s.attempt.finishOngoing {
      Settled(expired);
    }
  }

  lemma TickKeepsRoom(s: Room, now: nat)
    requires RoomOk(s)
    ensures RoomOk(Tick(s, now).room)
  {
    if s.mode == Race {
      RaceTickKeeps(s, now);
      hide RoomOk;
    } else if s.phase.Simulated? {
      var players := Players(s.roster.clients);
      hide RosterOk, M.SimOk, Players, M.Tick, SimAct, ActOk;
      M.TickKeeps(s.phase.sim, players);
      SimActKeeps(s, M.Tick(s.phase.sim), players);
      hide RoomOk, CoopOk, GraceOk;
      ActGivesRoom(s, SimAct(s, M.Tick(s.phase.sim)).room);
    }
  }

  // ---------------------------------------------------------------- arrivals and departures

  lemma JoinKeepsRoom(s: Room, id: ClientId, sameRoom: bool)
    requires RoomOk(s) && id !in s.roster.clients
    ensures RoomOk(Join(s, id, sameRoom).room)
  {
    if |s.roster.clients| < MAX_CONNECTIONS {
      JoinKeeps(s.roster, s.mode, id);
      JoinedOthers(s, id);
      hide RosterOk, Players, Joined, AnyRunning, M.SimOk, RI.RelayOk;
    }
  }

  lemma JoinedOthers(s: Room, id: ClientId)
    requires id !in s.roster.clients
    ensures AnyRunning(s) ==> AnyRunning(s.(roster := Joined(s.roster, id)))
  {
    var next := s.(roster := Joined(s.roster, id));
    if k :| k in s.roster.clients && Running(s, k) {
      assert Running(next, k);
    }
  }

  lemma AfterLeaveKeeps(s: Room)
    requires RosterOk(s.roster, s.mode) && GraceHeld(s)
    requires s.phase.Simulated? || s.phase.Relayed? || s.phase.Lobby? || s.mode == Race
    requires !AllDeadIn(s.phase) ==> CoopOk(s, Players(s.roster.clients))
    ensures RoomOk(AfterLeave(s).0)
  {
    var (s1, out1) := MaybeEndAllDead(s);
    ClearedKeeps(s);
    hide RosterOk, Players, Cleared, MaybeEndGrace, GraceOk, AllDeadIn, M.SimOk, RI.RelayOk;
    Settled(s1);
    ClearedKeeps(MaybeEndGrace(s1).0);
  }

  /** A departing seat in the simulation: dead in the session, or forgotten by it. */
  lemma UnseatedKeeps(s: Room, id: ClientId)
    requires RosterOk(s.roster, s.mode) && s.phase.Simulated? && s.mode == Coop && id in s.roster.clients
    requires CoopOk(s, Players(s.roster.clients))
    ensures var phase := Unseated(s, id).0;
            phase.Simulated? && M.SimOk(phase.sim, Players(s.roster.clients) - {id}) && phase.sim.generation == s.generation
  {
    var players := Players(s.roster.clients);
    var sim := s.phase.sim;
    var next := if R.Alive(sim.alive, id) then M.MarkDead(sim, id, Disconnect).sim else M.Forget(sim, id);
    M.FallKeeps(sim, players, id, Disconnect);
    if !R.Alive(sim.alive, id) {
      M.ForgetKeeps(sim, players, id);
    }
    assert M.SimOk(next, players - {id}) && next.generation == sim.generation by { hide M.SimOk, M.MarkDead; }
    hide RosterOk, M.MarkDead, PickOwner, Players;
    OwnerIsFree(next, PickOwner(s.roster.(clients := s.roster.clients - {id})), players - {id});
    hide M.SimOk;
  }

  lemma OwnerIsFree(sim: M.Sim, owner: Option<ClientId>, players: set<ClientId>)
    requires M.SimOk(sim, players)
    ensures M.SimOk(sim.(owner := owner), players)
  {
    hide G.GameInv;
  }

  /** The first part of a departure: the relay marks the seat dead. */
  ghost function Released(s: Room, id: ClientId): Done {
    if s.phase.Relayed? then RelayAct(s, R.GoneOp(id, Disconnect)) else Accept(s, [])
  }

  lemma ReleasedKeeps(s: Room, id: ClientId)
    requires RosterOk(s.roster, s.mode) && CoopOk(s, Players(s.roster.clients)) && GraceHeld(s)
    requires s.phase.Relayed? ==> RoomOk(s)
    ensures var t := Released(s, id).room;
            && RosterOk(t.roster, t.mode) && t.mode == s.mode && GraceHeld(t)
            && Players(t.roster.clients) == Players(s.roster.clients) && t.roster.clients.Keys == s.roster.clients.Keys
            && (t.phase.Simulated? ==> t == s)
            && (!t.phase.Simulated? ==> CoopOk(t, Players(s.roster.clients) - {id}))
  {
    if s.phase.Relayed? {
      RelayActKeeps(s, R.GoneOp(id, Disconnect));
      RelayActPhase(s, R.GoneOp(id, Disconnect));
    }
    hide RosterOk, RelayAct, M.SimOk, RI.RelayOk, Players;
  }

  lemma RelayActPhase(s: Room, op: R.Op)
    requires s.phase.Relayed?
    ensures RelayAct(s, op).room.phase.Relayed? || RelayAct(s, op).room.phase.Lobby?
  {
    hide R.Perform;
  }

  lemma CoopSeesPhase(s: Room, t: Room, players: set<ClientId>)
    requires CoopOk(s, players) && t.phase == s.phase && t.mode == s.mode && t.generation == s.generation
    ensures CoopOk(t, players)
  {
    hide M.SimOk, RI.RelayOk;
  }

  /** The room without the client, before the closing checks. */
  ghost function Vacated(t: Room, id: ClientId): Room {
    t.(phase := Unseated(t, id).0, roster := Departed(t.roster, id), attempt := t.attempt.(scores := t.attempt.scores - {id}))
  }

  lemma VacatedKeeps(t: Room, id: ClientId)
    requires RosterOk(t.roster, t.mode) && GraceHeld(t) && id in t.roster.clients
    requires if t.phase.Simulated? then CoopOk(t, Players(t.roster.clients)) else CoopOk(t, Players(t.roster.clients) - {id})
    ensures var left := Vacated(t, id);
            RosterOk(left.roster, left.mode) && GraceHeld(left) && CoopOk(left, Players(left.roster.clients))
  {
    LeaveKeeps(t.roster, t.mode, id);
    OnlySimUnseats(t, id);
    if t.phase.Simulated? {
      assert t.mode == Coop;
      UnseatedKeeps(t, id);
      hide RosterOk, M.SimOk, Players, Unseated, Departed;
    } else {
      hide RosterOk, M.SimOk, RI.RelayOk, Players, Unseated, Departed;
      CoopSeesPhase(t, Vacated(t, id), Players(t.roster.clients) - {id});
    }
  }

  lemma CoopModes(s: Room, players: set<ClientId>)
    requires CoopOk(s, players)
    ensures s.phase.Simulated? || s.phase.Relayed? || s.phase.Lobby? || s.mode == Race
  {
  }

  lemma LeaveKeepsRoom(s: Room, id: ClientId)
    requires RosterOk(s.roster, s.mode) && CoopOk(s, Players(s.roster.clients)) && GraceHeld(s)
    requires s.phase.Relayed? ==> RoomOk(s)
    ensures RoomOk(Leave(s, id).0) || id !in s.roster.clients
  {
    if id in s.roster.clients {
      hide RosterOk, CoopOk, Players, Unseated, Departed, AfterLeave, RelayAct, RoomOk;
      ReleasedKeeps(s, id);
      var t := Released(s, id).room;
      VacatedKeeps(t, id);
      var left := Vacated(t, id);
      CoopModes(left, Players(left.roster.clients));
      AfterLeaveKeeps(left);
      assert Leave(s, id).0 == AfterLeave(left).0;
    }
  }

  lemma OnlySimUnseats(s: Room, id: ClientId)
    ensures !s.phase.Simulated? ==> Unseated(s, id) == (s.phase, [])
  {
    hide PickOwner;
  }

  // ---------------------------------------------------------------- roster commands

  lemma WithGraceKeeps(s: Room, out: seq<Out>)
    requires RosterOk(s.roster, s.mode) && CoopOk(s, Players(s.roster.clients)) && GraceHeld(s)
    ensures RoomOk(WithGrace(s, out).room)
  {
    Settled(s);
    hide RoomOk, MaybeEndGrace;
  }

  lemma PromoteKeepsRoom(s: Room, id: ClientId)
    requires RoomOk(s) && id in s.roster.clients && s.roster.clients[id].role == Spectator
    requires |Players(s.roster.clients)| < CapOf(s.mode)
    ensures RoomOk(WithGrace(s.(roster := Promoted(s.roster, s.mode, id)), []).room)
  {
    var next := s.(roster := Promoted(s.roster, s.mode, id));
    var players := Players(s.roster.clients);
    PromoteKeeps(s.roster, s.mode, id);
    hide RosterOk, Players, Promoted, CoopOk, WithGrace;
    MorePlayers(s, players, players + {id});
    CoopSeesPhase(s, next, players + {id});
    WithGraceKeeps(next, []);
  }

  lemma DemoteKeepsRoom(s: Room, id: ClientId)
    requires RoomOk(s) && id in s.roster.clients
    ensures var gone := SeatGone(s, id, Demotion);
            && id in gone.room.roster.clients
            && RoomOk(WithGrace(gone.room.(roster := Demoted(gone.room.roster, id)), gone.out).room)
  {
    var gone := SeatGone(s, id, Demotion);
    var players := Players(s.roster.clients);
    SeatGoneKeeps(s, id, Demotion);
    hide RosterOk, Players, SeatGone, Demoted, WithGrace, CoopOk;
    DemoteKeeps(gone.room.roster, gone.room.mode, id);
    var next := gone.room.(roster := Demoted(gone.room.roster, id));
    CoopSeesPhase(gone.room, next, players - {id});
    WithGraceKeeps(next, gone.out);
  }

  lemma SetRoleKeeps(s: Room, from: ClientId, target: Option<ClientId>, role: Option<Role>)
    requires RoomOk(s)
    ensures RoomOk(SetRole(s, from, target, role).room)
  {
    hide RoomOk, WithGrace, SeatGone, Promoted, Demoted;
    if target.Some? && role.Some? && target.value in s.roster.clients && s.roster.clients[target.value].role != role.value {
      if role.value == Player {
        if |Players(s.roster.clients)| < CapOf(s.mode) {
          PromoteKeepsRoom(s, target.value);
        }
      } else {
        DemoteKeepsRoom(s, target.value);
      }
    }
  }

  lemma KickKeeps(s: Room, from: ClientId, target: Option<ClientId>)
    requires RoomOk(s)
    ensures RoomOk(Kick(s, from, target).room)
  {
    if target.Some? && target.value in s.roster.clients {
      var id := target.value;
      var gone := SeatGone(s, id, Kicked).room;
      SeatGoneKeeps(s, id, Kicked);
      var players := Players(s.roster.clients);
      hide RosterOk, Players, SeatGone, CoopOk, Leave;
      MorePlayers(gone, players - {id}, players);
      assert GraceHeld(gone);
      assert gone.phase.Relayed? ==> RoomOk(gone);
      hide RoomOk;
      LeaveKeepsRoom(gone, id);
    }
  }

  /** A change of the roster alone, with the same players. */
  lemma RosterOnly(s: Room, ro: Roster)
    requires RoomOk(s) && RosterOk(ro, s.mode) && Players(ro.clients) == Players(s.roster.clients)
    ensures RoomOk(s.(roster := ro))
  {
    var next := s.(roster := ro);
    hide RosterOk, CoopOk, Players;
    CoopSeesPhase(s, next, Players(s.roster.clients));
    SamePlayersRun(s, ro);
  }

  lemma SamePlayersRun(s: Room, ro: Roster)
    requires Players(ro.clients) == Players(s.roster.clients)
    ensures AnyRunning(s) ==> AnyRunning(s.(roster := ro))
  {
    if id :| id in s.roster.clients && Running(s, id) {
      assert id in Players(s.roster.clients);
      assert Running(s.(roster := ro), id);
    }
  }

  lemma ReadyKeepsRoom(s: Room, from: ClientId, ready: Option<bool>)
    requires RoomOk(s)
    ensures RoomOk(Ready(s, from, ready).room)
  {
    if from in s.roster.clients && s.roster.clients[from].role == Player {
      ReadyKeeps(s.roster, s.mode, from, ready.GetOr(true));
      hide RosterOk, Players, Readied, CoopOk, RoomOk, GraceOk;
      RosterOnly(s, Readied(s.roster, s.mode, from, ready.GetOr(true)));
    }
  }

  lemma ColorKeepsRoom(s: Room, from: ClientId, color: Option<nat>)
    requires RoomOk(s)
    ensures RoomOk(ColorClaim(s, from, color).room)
  {
    hide Players, Painted, CoopOk, GraceOk, C.Claimable, ColorLocked, RosterOk;
    if color.Some? {
      var id := color.value % 256;
      if C.Claimable(id) && !(s.mode == Coop && ColorLocked(s.roster.clients, from, id)) && from in s.roster.clients {
        PaintKeeps(s.roster, s.mode, from, id);
        hide RoomOk;
        RosterOnly(s, Painted(s.roster, from, id));
      }
    }
  }

  lemma TransferKeepsRoom(s: Room, from: ClientId, target: Option<ClientId>)
    requires RoomOk(s)
    ensures RoomOk(AdminTransfer(s, from, target).room)
  {
    if target.Some? && target.value in s.roster.clients {
      TransferKeeps(s.roster, s.mode, target.value);
      hide RosterOk, RoomOk;
      RosterOnly(s, s.roster.(admin := target));
    }
  }

  /** The clock's length, the goal and the lobby settings matter to no invariant. */
  lemma AttemptKeeps(s: Room, attempt: Attempt, settings: Settings)
    requires RoomOk(s) && attempt.expired == s.attempt.expired && attempt.finishOngoing == s.attempt.finishOngoing
    requires attempt.scores.Keys == s.attempt.scores.Keys
    requires forall id :: id in attempt.scores ==> attempt.scores[id].alive == s.attempt.scores[id].alive
    ensures RoomOk(s.(attempt := attempt, settings := settings))
  {
    var next := s.(attempt := attempt, settings := settings);
    hide RosterOk, CoopOk, Players;
    CoopSeesPhase(s, next, Players(s.roster.clients));
    if id :| id in s.roster.clients && Running(s, id) {
      assert Running(next, id);
    }
  }

  lemma GoalChangeLives(goal: E.Goal, e: E.Entry)
    ensures E.AfterGoalChange(goal, e).alive == e.alive
  {
  }

  lemma RaceGoalKeeps(s: Room, from: ClientId, goal: Option<E.Goal>)
    requires RoomOk(s)
    ensures RoomOk(SetRaceGoal(s, from, goal).room)
  {
    if goal.Some? {
      var scores := map id | id in s.attempt.scores :: E.AfterGoalChange(goal.value, s.attempt.scores[id]);
      forall id | id in scores
        ensures scores[id].alive == s.attempt.scores[id].alive
      {
        GoalChangeLives(goal.value, s.attempt.scores[id]);
      }
      hide RoomOk, E.AfterGoalChange;
      AttemptKeeps(s, s.attempt.(goal := goal.value, scores := scores), s.settings);
    }
  }

  lemma DurationKeeps(s: Room, from: ClientId, minutes: Option<nat>)
    requires RoomOk(s)
    ensures RoomOk(SetDuration(s, from, minutes).room)
  {
    hide RoomOk;
    if minutes.Some? {
      AttemptKeeps(s, s.attempt.(durationMin := minutes.value % 0x1_0000_0000), s.settings);
    }
  }

  lemma PulseKeeps(s: Room, from: ClientId, p: E.Pulse)
    requires RoomOk(s)
    ensures RoomOk(Pulse(s, from, p).room)
  {
    hide RosterOk, Players, CoopOk, MaybeEndGrace, E.AfterPulse, CleanPulse;
    if from in s.roster.clients && s.mode == Race {
      var before := if from in s.attempt.scores then s.attempt.scores[from] else E.FRESH;
      var entry := E.AfterPulse(s.attempt.goal, before, CleanPulse(p, s.attempt.expired));
      var next := s.(attempt := s.attempt.(scores := s.attempt.scores[from := entry]));
      CoopSeesPhase(s, next, Players(s.roster.clients));
      Settled(next);
      hide RoomOk;
    }
  }

  // ---------------------------------------------------------------- modes and sessions

  lemma AbortKeeps(s: Room)
    requires RoomOk(s)
    ensures RoomOk(AbortRun(s)) && ReadyPlayers(AbortRun(s).roster.clients) == {} && AbortRun(s).phase.Lobby?
  {
    UnreadyKeeps(s.roster, s.mode);
    hide RosterOk, NobodyReady, ReadyPlayers, Players;
  }

  lemma EndKeeps(s: Room, from: ClientId)
    requires RoomOk(s)
    ensures RoomOk(EndSession(s, from).room)
  {
    AbortKeeps(s);
    hide RoomOk, AbortRun;
  }

  lemma CapGrows(ro: Roster, mode: Mode)
    requires RosterOk(ro, mode)
    ensures RosterOk(ro, Race)
  {
    hide OrdersOk, AdminOk, Players;
  }

  lemma ModeKeeps(s: Room, from: ClientId, mode: Option<Mode>)
    requires RoomOk(s)
    ensures RoomOk(ModeChange(s, from, mode).room)
  {
    if mode.Some? {
      AbortKeeps(s);
      var ro := AbortRun(s).roster;
      if mode.value == Coop {
        TrimKeeps(ro, s.mode);
      } else {
        CapGrows(ro, s.mode);
      }
      hide RosterOk, AbortRun, Trimmed, JoinsApart, Players, ReadyPlayers, AllApart, Kept;
    }
  }

  lemma StartRaceKeeps(s: Room, finishOngoing: Option<bool>, now: nat)
    requires RoomOk(s) && s.mode == Race
    ensures RoomOk(StartRace(s, finishOngoing, now).room)
  {
    hide RosterOk;
  }

  /** The seats of a new co-op session: every player, in promotion order. */
  lemma FirstSeatsAre(ro: Roster)
    requires RosterOk(ro, Coop) && AllPlayersReady(ro.clients)
    ensures var slots := FirstSeats(ro.clients);
            && 1 <= |slots| <= MAX_COOP_PLAYERS && NoDup(slots)
            && (forall id :: id in slots <==> id in Players(ro.clients))
            && (forall i :: 0 <= i < |slots| ==> slots[i] in ro.clients && ro.clients[slots[i]].color.Some? && C.Claimable(ro.clients[slots[i]].color.value))
            && (forall i, j :: 0 <= i < j < |slots| ==>
                  && ro.clients[slots[i]].color != ro.clients[slots[j]].color
                  && Before(ro.clients[slots[i]], ro.clients[slots[j]]))
  {
    OrdersGiveJoins(ro);
    SessionSeats(ro);
    hide RosterOk, JoinsApart, SeatOrder, C.Claimable, Players, Before;
    var slots := SeatOrder(ro.clients, Players(ro.clients));
    assert forall id :: id in slots <==> id in SetOf(slots);
  }

  lemma FirstOwnerIsSeated(admin: Option<ClientId>, slots: seq<ClientId>)
    requires slots != []
    ensures FirstOwner(admin, slots).Some? && FirstOwner(admin, slots).value in slots
  {
  }

  /** A simulation just started, whatever the board. */
  lemma FreshSimOk(sim: M.Sim, seats: seq<S.Seat>, players: set<ClientId>)
    requires NoDup(sim.slots) && 1 <= |sim.slots| <= MAX_COOP_PLAYERS && forall id :: id in sim.slots ==> id in players
    requires G.GameInv(sim.game) && G.FreshGame(sim.game, seats) && |seats| == |sim.slots|
    requires forall i :: 0 <= i < |seats| ==> seats[i].client == sim.slots[i]
    requires sim.accum == 0 && sim.timer.None? && sim.alive == R.AllAlive(sim.slots)
    ensures M.SimOk(sim, players)
  {
    M.IntervalRange(sim.game.speedIndex);
    hide G.GameInv, S.SpeedInterval;
    assert M.SeatsMatch(sim);
    assert M.AliveMatches(sim);
  }

  lemma NewSimOk(s: Room, slots: seq<ClientId>, owner: Option<ClientId>, seed: bv64, players: set<ClientId>)
    requires NoDup(slots) && 1 <= |slots| <= MAX_COOP_PLAYERS && forall id :: id in slots ==> id in players
    ensures M.SimOk(NewSim(s, slots, owner, seed), players)
  {
    hide S.NewGame, G.GameInv, G.FreshGame, SimConfig, M.SimOk, R.AllAlive;
    var seats := SeatsOf(s.roster.clients, slots);
    var cfg := SimConfig(s.settings, seed);
    G.NewGameOk(seats, cfg);
    FreshSimOk(NewSim(s, slots, owner, seed), seats, players);
  }

  lemma FirstSeatsArePlayers(ro: Roster)
    requires RosterOk(ro, Coop) && AllPlayersReady(ro.clients)
    ensures var slots := FirstSeats(ro.clients);
            && 1 <= |slots| <= MAX_COOP_PLAYERS && NoDup(slots)
            && (forall id :: id in slots ==> id in Players(ro.clients))
  {
    hide RosterOk, FirstSeats, Players, Before, C.Claimable, AllPlayersReady;
    FirstSeatsAre(ro);
  }

  lemma StartCoopTouches(s: Room, seed: bv64)
    ensures var next := StartCoop(s, seed).room;
            && next.roster == s.roster && next.mode == s.mode && !next.attempt.expired
            && next.generation == s.generation + 1
            && var slots := FirstSeats(s.roster.clients);
               var owner := FirstOwner(s.roster.admin, slots);
               next.phase == if s.relayEnabled then Relayed(R.NewRelay(s.generation + 1, slots, s.settings, owner))
                             else Simulated(NewSim(s, slots, owner, seed))
  {
    hide FirstSeats, FirstOwner, NewSim, R.NewRelay;
  }

  lemma StartCoopPhase(s: Room, seed: bv64)
    requires RosterOk(s.roster, Coop) && s.mode == Coop && AllPlayersReady(s.roster.clients)
    ensures CoopOk(StartCoop(s, seed).room, Players(s.roster.clients))
  {
    hide RosterOk, FirstSeats, Players, FirstOwner, M.SimOk, RI.RelayOk, AllPlayersReady, R.NewRelay, NewSim, StartCoop;
    FirstSeatsArePlayers(s.roster);
    StartCoopTouches(s, seed);
    var slots := FirstSeats(s.roster.clients);
    var owner := FirstOwner(s.roster.admin, slots);
    FirstOwnerIsSeated(s.roster.admin, slots);
    if s.relayEnabled {
      RI.NewRelayOk(s.generation + 1, slots, s.settings, owner, Players(s.roster.clients));
      NewRelayGeneration(s.generation + 1, slots, s.settings, owner);
    } else {
      NewSimOk(s, slots, owner, seed, Players(s.roster.clients));
      NewSimGeneration(s, slots, owner, seed);
    }
  }

  lemma NewSimGeneration(s: Room, slots: seq<ClientId>, owner: Option<ClientId>, seed: bv64)
    ensures NewSim(s, slots, owner, seed).generation == s.generation + 1
  {
    hide S.NewGame;
  }

  lemma StartCoopKeeps(s: Room, seed: bv64)
    requires RoomOk(s) && s.mode == Coop && AllPlayersReady(s.roster.clients)
    ensures RoomOk(StartCoop(s, seed).room)
  {
    hide RosterOk, CoopOk, StartCoop, AllPlayersReady, Players;
    StartCoopPhase(s, seed);
    StartCoopTouches(s, seed);
  }

  lemma NewRelayGeneration(generation: nat, slots: seq<ClientId>, settings: Settings, owner: Option<ClientId>)
    ensures R.NewRelay(generation, slots, settings, owner).generation == generation
  {
  }

  lemma StartKeeps(s: Room, from: ClientId, settings: Option<Settings>, finishOngoing: Option<bool>, now: nat, seed: bv64)
    requires RoomOk(s)
    ensures RoomOk(StartSession(s, from, settings, finishOngoing, now, seed).room)
  {
    hide RoomOk, StartRace, StartCoop, AllPlayersReady;
    var staged := s.(settings := settings.GetOr(s.settings));
    AttemptKeeps(s, s.attempt, settings.GetOr(s.settings));
    assert staged == s.(attempt := s.attempt, settings := settings.GetOr(s.settings));
    if s.mode == Race {
      StartRaceKeeps(staged, finishOngoing, now);
    } else if AllPlayersReady(s.roster.clients) {
      StartCoopKeeps(staged, seed);
    }
  }

  // ---------------------------------------------------------------- every command, every run

  lemma PerformKeepsRoom(s: Room, from: ClientId, q: Request, now: nat, seed: bv64)
    requires RoomOk(s)
    ensures RoomOk(Perform(s, from, q, now, seed).room)
  {
    hide RoomOk, SetRole, Kick, SetDuration, SetRaceGoal, Ready, ColorClaim, ModeChange, StartSession, EndSession,
         Input, Pulse, AdminTransfer, Publish, Goal;
    match q
    case SetRoleReq(target, role) => SetRoleKeeps(s, from, target, role);
    case KickReq(target) => KickKeeps(s, from, target);
    case SetDurationReq(minutes) => DurationKeeps(s, from, minutes);
    case SetRaceGoalReq(goal) => RaceGoalKeeps(s, from, goal);
    case ReadyReq(ready) => ReadyKeepsRoom(s, from, ready);
    case ColorClaimReq(color) => ColorKeepsRoom(s, from, color);
    case ModeChangeReq(mode) => ModeKeeps(s, from, mode);
    case SettingsSyncReq(settings) => AttemptKeeps(s, s.attempt, settings);
    case PlaySyncReq =>
    case SessionStartReq(bundle, finishOngoing) => StartKeeps(s, from, bundle, finishOngoing, now, seed);
    case SessionEndReq => EndKeeps(s, from);
    case InputReq(dir) => InputKeepsRoom(s, from, dir, now);
    case PulseReq(pulse) => PulseKeeps(s, from, pulse);
    case AdminTransferReq(target) => TransferKeepsRoom(s, from, target);
    case ResyncReq =>
    case PoseReq(pose) => PublishKeeps(s, R.PoseOp(from, pose, now));
    case BoardReq(board) => PublishKeeps(s, R.BoardOp(from, board));
    case DeathReq(death) => PublishKeeps(s, R.DeathOp(from, death));
    case SpeedReq(speed) =>
      PublishKeeps(s, R.SpeedOp(from, speed));
      SpeedIsPublish(s, from, speed);
    case GoalReq(claim) => GoalKeeps(s, from, claim);
    case ServerOwnedReq =>
  }

  lemma SpeedIsPublish(s: Room, from: ClientId, e: SpeedIn)
    ensures ShiftSpeed(s, from, e).room == Publish(s, R.SpeedOp(from, e)).room
  {
    hide RelayAct;
  }

  /** Every command, arrival, departure and tick keeps the room sound. */
  lemma ApplyKeeps(s: Room, c: Cmd)
    requires RoomOk(s) && Enabled(s, c)
    ensures RoomOk(Apply(s, c).room)
  {
    hide RoomOk, Join, Leave, Tick, Perform;
    match c
    case JoinCmd(id, sameRoom) => JoinKeepsRoom(s, id, sameRoom);
    case LeaveCmd(id) =>
      RoomParts(s);
      LeaveKeepsRoom(s, id);
      LeaveStranger(s, id);
    case TickCmd(now) => TickKeepsRoom(s, now);
    case Handle(from, request, now, seed) => PerformKeepsRoom(s, from, request, now, seed);
  }

  lemma RoomParts(s: Room)
    requires RoomOk(s)
    ensures RosterOk(s.roster, s.mode) && CoopOk(s, Players(s.roster.clients)) && GraceHeld(s)
  {
    hide RosterOk, CoopOk;
  }

  lemma LeaveStranger(s: Room, id: ClientId)
    ensures id !in s.roster.clients ==> Leave(s, id) == (s, [])
  {
    hide Unseated, RelayAct, AfterLeave, Departed;
  }

  /** The room stays sound over every run in which joining clients are new. */
  lemma {:induction false} RunKeeps(s: Room, cs: seq<Cmd>)
    requires RoomOk(s) && EnabledRun(s, cs)
    ensures RoomOk(Run(s, cs))
    decreases |cs|
  {
    hide RoomOk, Apply, Enabled;
    if cs != [] {
      RunKeeps(s, cs[..|cs| - 1]);
      ApplyKeeps(Run(s, cs[..|cs| - 1]), Last(cs));
    }
  }
}
