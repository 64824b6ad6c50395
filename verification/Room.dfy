/** The server's room object: handlers that update its tables, counters and flags in place and
    push to its outbox, each proved to compute the step that `RoomSpec` describes. */
module RoomServer {
  import opened Prelude
  import opened Grid
  import opened RoomTypes
  import opened RosterSpec
  import Spec = RoomSpec
  import Inv = RoomInv
  import R = Relay
  import RI = RelayInv
  import M = SimRun
  import S = CoopSpec
  import G = CoopRuns
  import E = RaceScore
  import C = Colors
  import T = Turns
  import CoopGame
  import Session
  import RosterInv
  import RoomTrace

  class Room {
    const nativeRelayEnabled: bool
    var mode: Mode
    var clients: map<ClientId, Client>
    var adminId: Option<ClientId>
    var joinSeq: nat
    var promoteSeq: nat
    var settings: Settings
    var sessionActive: bool

    var durationMin: nat
    var raceGoal: E.Goal
    var attemptDeadline: Option<nat>
    var attemptExpired: bool
    var allowNewRuns: bool
    var finishOngoingRuns: bool
    var raceScores: map<ClientId, E.Entry>

    var coop: CoopGame.CoopGame?
    var coopAccumMs: nat
    var collectablesOwner: Option<ClientId>
    var coopAlive: map<ClientId, bool>
    var coopSeated: set<ClientId>
    var coopTimerStartedAt: Option<nat>
    var coopSlots: seq<ClientId>
    var coopGeneration: nat
    var coopAuthority: Option<Session.Authority>
    var coopRunSettings: Option<Settings>
    var nativeRelay: Option<R.Native>

    var outbox: seq<Out>

    // ---------------------------------------------------------------- views

    function RosterView(): Roster
      reads `clients, `adminId, `joinSeq, `promoteSeq
    {
      Roster(clients, adminId, joinSeq, promoteSeq)
    }

    function AttemptView(): Spec.Attempt
      reads `durationMin, `raceGoal, `attemptDeadline, `attemptExpired, `allowNewRuns, `finishOngoingRuns, `raceScores
    {
      Spec.Attempt(durationMin, raceGoal, attemptDeadline, attemptExpired, allowNewRuns, finishOngoingRuns, raceScores)
    }

    predicate RelayLive()
      reads `mode, `sessionActive, `coopAuthority, `nativeRelay, `coopRunSettings
    {
      && mode == Coop && sessionActive && coopAuthority == Some(Session.NativeRelay)
      && nativeRelay.Some? && coopRunSettings.Some?
    }

    predicate SimLive()
      reads `mode, `sessionActive, `coopAuthority, `coop, `coopRunSettings, `nativeRelay
    {
      && mode == Coop && sessionActive && coopAuthority == Some(Session.ServerSim)
      && coop != null && coopRunSettings.Some? && nativeRelay.None?
    }

    function RelayView(): R.Relay
      requires nativeRelay.Some? && coopRunSettings.Some?
      reads `coopGeneration, `coopSlots, `coopRunSettings, `coopAlive, `coopSeated, `coopTimerStartedAt, `collectablesOwner, `nativeRelay
    {
      R.Relay(coopGeneration, coopSlots, coopRunSettings.value, coopAlive, coopSeated, coopTimerStartedAt,
              collectablesOwner, nativeRelay.value)
    }

    ghost function SimView(): M.Sim
      requires coop != null && coopRunSettings.Some?
      reads `coopGeneration, `coopSlots, `coopRunSettings, `collectablesOwner, `coop, coop, `coopAccumMs, `coopAlive, `coopTimerStartedAt
    {
      M.Sim(coopGeneration, coopSlots, coopRunSettings.value, collectablesOwner, coop.View(), coopAccumMs, coopAlive, coopTimerStartedAt)
    }

    ghost function PhaseView(): Spec.Phase
      reads `mode, `sessionActive, `coopAuthority, `coop, coop, `coopRunSettings, `nativeRelay, `coopGeneration, `coopSlots,
            `coopAlive, `coopSeated, `coopTimerStartedAt, `collectablesOwner, `coopAccumMs
    {
      if !sessionActive then Spec.Lobby
      else if mode == Race then Spec.Racing
      else if RelayLive() then Spec.Relayed(RelayView())
      else if SimLive() then Spec.Simulated(SimView())
      else Spec.Lobby
    }

    ghost function View(): Spec.Room
      reads this, coop
    {
      Spec.Room(mode, RosterView(), AttemptView(), settings, PhaseView(), coopGeneration, nativeRelayEnabled)
    }

    /** A co-op session is run by the relay or by the simulation; only then is there a board owner. */
    ghost predicate Consistent()
      reads `mode, `sessionActive, `coopAuthority, `coop, `coopRunSettings, `nativeRelay, `collectablesOwner
    {
      if sessionActive && mode == Coop then RelayLive() || SimLive() else collectablesOwner == None
    }

    ghost predicate Valid()
      reads this, coop
    {
      Consistent() && Inv.RoomOk(View())
    }

    lemma PhaseKind()
      requires Consistent()
      ensures PhaseView().Lobby? <==> !sessionActive
      ensures PhaseView().Racing? <==> sessionActive && mode == Race
      ensures PhaseView().Relayed? <==> RelayLive()
      ensures PhaseView().Simulated? <==> SimLive()
      ensures RelayLive() ==> PhaseView() == Spec.Relayed(RelayView())
      ensures SimLive() ==> PhaseView() == Spec.Simulated(SimView())
    {
    }

    /** What handlers need of a valid room. */
    lemma Parts()
      requires Valid()
      ensures Consistent() && Inv.RoomOk(View()) && LeaveAllowed(View()) && JoinsApart(clients)
      ensures SimLive() ==> coop.Valid()
    {
      PhaseKind();
      SimIsSoundIf(View());
      RoomAllowsLeave(View());
    }

    constructor (nativeRelayEnabled: bool, settings: Settings)
      ensures View() == Spec.NewRoom(nativeRelayEnabled, settings)
      ensures Valid() && outbox == [] && coop == null
    {
      this.nativeRelayEnabled := nativeRelayEnabled;
      this.settings := settings;
      mode, clients, adminId, joinSeq, promoteSeq, sessionActive := Race, map[], None, 0, 0, false;
      durationMin, raceGoal, raceScores := Spec.DEFAULT_DURATION_MIN, E.Score, map[];
      attemptDeadline, attemptExpired, allowNewRuns, finishOngoingRuns := None, false, true, true;
      coop, coopAccumMs, collectablesOwner, coopAlive, coopSeated := null, 0, None, map[], {};
      coopTimerStartedAt, coopSlots, coopGeneration, coopAuthority := None, [], 0, None;
      coopRunSettings, nativeRelay, outbox := None, None, [];
      new;
      Inv.NewRoomOk(nativeRelayEnabled, settings);
    }

    // ---------------------------------------------------------------- sending

    method Broadcast(msg: Msg)
      modifies `outbox
      ensures outbox == old(outbox) + Spec.All([msg])
    {
      outbox := outbox + [Out(None, msg)];
    }

    method SendTo(id: ClientId, msg: Msg)
      modifies `outbox
      ensures outbox == old(outbox) + Spec.To(id, [msg])
    {
      outbox := outbox + [Out(Some(id), msg)];
    }

    method BroadcastRoster()
      requires Consistent()
      modifies `outbox
      ensures outbox == old(outbox) + Spec.Announce(View())
    {
      Broadcast(RosterUpdate(mode, RosterView(), sessionActive, collectablesOwner));
    }

    // ---------------------------------------------------------------- ends of sessions

    /** Drop every live co-op field. */
    method ClearCoopRunState()
      modifies `sessionActive, `coop, `coopAccumMs, `collectablesOwner, `coopAlive, `coopSeated, `coopTimerStartedAt,
               `coopSlots, `coopAuthority, `coopRunSettings, `nativeRelay, `clients
      ensures View() == Spec.Cleared(old(View())) && Consistent()
      ensures coop == null
    {
      ResetCoop();
      coopAccumMs := 0;
      sessionActive := false;
      UnreadyAll();
    }

    method ResetCoop()
      modifies `coop, `collectablesOwner, `coopAlive, `coopSeated, `coopTimerStartedAt,
               `coopSlots, `coopAuthority, `coopRunSettings, `nativeRelay
      ensures coop == null && collectablesOwner == None && coopAlive == map[] && coopSeated == {} && coopTimerStartedAt == None
      ensures coopSlots == [] && coopAuthority == None && coopRunSettings == None && nativeRelay == None
    {
      ResetCoopTables();
      ResetCoopRun();
    }

    method UnreadyAll()
      modifies `clients
      ensures RosterView() == NobodyReady(old(RosterView()))
    {
      clients := map id | id in clients :: clients[id].(ready := false);
    }

    method ResetCoopRun()
      modifies `coopSlots, `coopAuthority, `coopRunSettings, `nativeRelay
      ensures coopSlots == [] && coopAuthority == None && coopRunSettings == None && nativeRelay == None
    {
      coopSlots := [];
      coopAuthority, coopRunSettings, nativeRelay := None, None, None;
    }

    method ResetCoopTables()
      modifies `coop, `collectablesOwner, `coopAlive, `coopSeated, `coopTimerStartedAt
      ensures coop == null && collectablesOwner == None && coopAlive == map[] && coopSeated == {} && coopTimerStartedAt == None
    {
      coop, collectablesOwner := null, None;
      coopAlive, coopSeated, coopTimerStartedAt := map[], {}, None;
    }

    method EndCoopSession(reason: EndReason)
      modifies `sessionActive, `coop, `coopAccumMs, `collectablesOwner, `coopAlive, `coopSeated, `coopTimerStartedAt,
               `coopSlots, `coopAuthority, `coopRunSettings, `nativeRelay, `clients, `outbox
      ensures coop == null
      ensures View() == Spec.EndCoop(old(View()), reason).0 && Consistent()
      ensures outbox == old(outbox) + Spec.EndCoop(old(View()), reason).1
    {
      ghost var before := View();
      ClearCoopRunState();
      Broadcast(SessionEnd(reason));
      BroadcastRoster();
      assert Spec.All([SessionEnd(reason)]) + Spec.Announce(View()) == Spec.EndCoop(before, reason).1;
    }

    /** Stop the session for the lobby; race results stay on show. */
    method AbortRun()
      modifies `sessionActive, `coop, `coopAccumMs, `collectablesOwner, `coopAlive, `coopSeated, `coopTimerStartedAt,
               `coopSlots, `coopAuthority, `coopRunSettings, `nativeRelay, `clients, `outbox,
               `attemptDeadline, `allowNewRuns, `attemptExpired
      ensures View() == Spec.AbortRun(old(View())) && Consistent()
      ensures outbox == old(outbox) + Spec.All([SessionEnd(EndReason.Aborted)])
    {
      KeepResults();
      ClearCoopRunState();
      Broadcast(SessionEnd(EndReason.Aborted));
    }

    /** The clock stops; the last results stay marked as final until the next start. */
    method KeepResults()
      modifies `attemptDeadline, `allowNewRuns, `attemptExpired
      ensures attemptDeadline == None && allowNewRuns && attemptExpired == (raceScores != map[])
    {
      attemptDeadline := None;
      allowNewRuns := true;
      if raceScores != map[] {
        attemptExpired := true;
      } else {
        attemptExpired := false;
      }
    }

    // ---------------------------------------------------------------- the relay: checks

    method ValidateBody(body: BodyField, dims: (nat, nat)) returns (problem: Option<Err>)
      ensures problem == R.CheckBody(body, dims)
    {
      if !body.Cells? {
        return Some(BadBody);
      }
      if body.cells == [] || |body.cells| > R.MAX_BODY {
        return Some(BadBodyLength);
      }
      for k := 0 to |body.cells|
        invariant R.FirstBadCell(body.cells, 0, dims.0, dims.1) == R.FirstBadCell(body.cells, k, dims.0, dims.1)
      {
        match body.cells[k] {
          case None => return Some(BadBodyCell);
          case Some(p) =>
            if p.x < 0 || p.y < 0 || p.x >= dims.0 || p.y >= dims.1 {
              return Some(BodyOutOfBounds);
            }
        }
      }
      return None;
    }

    /** A live relay, and the frozen seat, the generation and the event number of a published message. */
    method RequireNativeSender(from: ClientId, generation: Option<nat>, eventSeq: Option<nat>) returns (problem: Option<Err>)
      requires Consistent()
      ensures problem == if RelayLive() then R.CheckSender(RelayView(), clients.Keys, from, generation, eventSeq) else Some(NotNativeRelay)
    {
      if mode != Coop || !sessionActive || coopAuthority != Some(Session.NativeRelay) {
        return Some(NotNativeRelay);
      }
      if from !in coopSlots || from !in clients {
        return Some(NotFrozenSeat);
      }
      if generation.None? {
        return Some(MissingGeneration);
      }
      if generation.value != coopGeneration {
        return Some(StaleGeneration);
      }
      if eventSeq.None? || eventSeq.value == 0 {
        return Some(BadEventSeq);
      }
      var lastEvent := nativeRelay.value.lastEvent;
      var last := if from in lastEvent then lastEvent[from] else 0;
      if eventSeq.value <= last {
        return Some(StaleEventSeq);
      }
      return None;
    }

    /** First living, connected seat in frozen order. */
    method NextNativeInitializer() returns (next: Option<ClientId>)
      ensures next == R.NextInitializerFrom(coopSlots, coopAlive, clients.Keys, 0)
    {
      for k := 0 to |coopSlots|
        invariant R.NextInitializerFrom(coopSlots, coopAlive, clients.Keys, 0) == R.NextInitializerFrom(coopSlots, coopAlive, clients.Keys, k)
      {
        var id := coopSlots[k];
        var connected := id in clients;
        var alive := id in coopAlive && coopAlive[id];
        if connected && alive {
          return Some(id);
        }
      }
      return None;
    }

    /** Has every frozen seat an entry that says dead? */
    method AllSeatsAreDead() returns (allDead: bool)
      ensures allDead == R.AllSeatsDead(coopSlots, coopAlive)
    {
      for k := 0 to |coopSlots|
        invariant forall j :: 0 <= j < k ==> coopSlots[j] in coopAlive && !coopAlive[coopSlots[j]]
      {
        var id := coopSlots[k];
        var alive := if id in coopAlive then coopAlive[id] else true;
        if alive {
          return false;
        }
      }
      return true;
    }

    // ---------------------------------------------------------------- the relay: poses

    method PoseProblem(from: ClientId, p: PoseIn) returns (problem: Option<Err>)
      requires RelayLive()
      ensures problem == R.CheckPoseOrder(RelayView(), from, p)
    {
      if p.poseSeq.None? || p.poseSeq.value == 0 {
        return Some(BadPoseSeq);
      }
      var lastPose := nativeRelay.value.lastPose;
      if p.poseSeq.value <= (if from in lastPose then lastPose[from] else 0) {
        return Some(StalePoseSeq);
      }
      if p.tooLarge {
        return Some(PoseTooLarge);
      }
      if p.moved && !p.seated {
        return Some(MovedBeforeSeated);
      }
      if p.moved && !nativeRelay.value.ready {
        return Some(BoardNotReady);
      }
      return None;
    }

    method PoseContentProblem(from: ClientId, p: PoseIn) returns (problem: Option<Err>)
      requires RelayLive()
      ensures problem == R.CheckPose(RelayView(), from, p)
    {
      var dims := RelayDims(coopRunSettings.value);
      if p.visual.Some? {
        return Some(Content(p.visual.value));
      }
      if p.body.NoBody? {
        return Some(MissingBody);
      }
      problem := ValidateBody(p.body, dims);
      if problem.Some? {
        return;
      }
      if R.Present(p.body2) {
        problem := ValidateBody(p.body2, dims);
        if problem.Some? {
          return;
        }
      }
      if p.render.Some? {
        return Some(Content(p.render.value));
      }
      if p.modeKey.BadKey? {
        return Some(BadModeKey);
      }
      problem := R.CheckPoseMode(nativeRelay.value, p);
      if problem.Some? {
        return;
      }
      problem := R.CheckPoseMotion(RelayView(), from, p);
    }

    method SnakeDelta(from: ClientId, p: PoseIn, now: nat) returns (err: Option<Err>)
      requires RelayLive()
      modifies `nativeRelay, `coopSeated, `coopTimerStartedAt, `outbox
      ensures RelayLive()
      ensures var o := R.PublishPose(old(RelayView()), clients.Keys, from, p, now);
              RelayView() == o.relay && outbox == old(outbox) + Spec.All(o.out) && err == o.err
    {
      hide R.CheckSender, R.CheckPoseOrder, R.CheckPose, R.CheckTurns, R.StorePose;
      ghost var before := RelayView();
      err := RequireNativeSender(from, p.generation, p.eventSeq);
      if err.Some? {
        return;
      }
      err := PoseProblem(from, p);
      if err.Some? {
        return;
      }
      if !(from in coopAlive && coopAlive[from]) {
        return None;
      }
      err := PoseContentProblem(from, p);
      if err.Some? {
        return;
      }
      var journal := ValidatePoseTurns(from, p);
      if journal.Err? {
        return Some(journal.error);
      }
      assert p.eventSeq.Some? && p.poseSeq.Some? by { PoseHasNumbers(before, clients.Keys, from, p); }
      var pose := R.CleanPose(RelayView(), from, p, journal.value.turns);
      RecordPose(pose, journal.value);
      Broadcast(Msg.SnakeDelta(Live(pose)));
      if pose.moved && pose.seated && coopTimerStartedAt.None? {
        coopTimerStartedAt := Some(now);
        Broadcast(TimerStart(Some(coopGeneration), now));
      }
      err := None;
    }

    method ValidatePoseTurns(from: ClientId, p: PoseIn) returns (r: Result<T.Journal, Err>)
      requires RelayLive()
      ensures r == R.CheckTurns(RelayView(), from, p)
    {
      if p.turns.NotTurns? {
        return Err(BadTurns);
      }
      var dims := RelayDims(coopRunSettings.value);
      var list := if p.turns.NoTurns? then [] else p.turns.list;
      var journals := nativeRelay.value.journals;
      var previous := if from in journals then journals[from] else T.Journal(0, []);
      var merged := T.ValidateNativeTurns(previous, list, dims.0, dims.1);
      match merged {
        case Ok(journal) => return Ok(journal);
        case Err(e) => return Err(TurnRefused(e));
      }
    }

    method RecordPose(pose: Pose, journal: T.Journal)
      requires RelayLive()
      modifies `nativeRelay, `coopSeated
      ensures RelayLive() && RelayView() == R.StorePose(old(RelayView()), pose, journal)
    {
      var state := nativeRelay.value;
      state := state.(lastEvent := state.lastEvent[pose.client := pose.eventSeq],
                      lastPose := state.lastPose[pose.client := pose.poseSeq]);
      if pose.moveSeq.Some? {
        state := state.(lastMove := state.lastMove[pose.client := pose.moveSeq.value]);
      }
      state := state.(journals := state.journals[pose.client := journal], poses := state.poses[pose.client := Live(pose)]);
      nativeRelay := Some(state);
      if pose.seated {
        coopSeated := coopSeated + {pose.client};
      }
    }

    // ---------------------------------------------------------------- the relay: boards

    method CollectablesDelta(from: ClientId, b: BoardIn) returns (err: Option<Err>)
      requires RelayLive()
      modifies `nativeRelay, `outbox
      ensures RelayLive()
      ensures var o := R.PublishBoard(old(RelayView()), clients.Keys, from, b);
              RelayView() == o.relay && outbox == old(outbox) + Spec.All(o.out) && err == o.err
    {
      hide R.CheckFirstBoard, R.CheckNextBoard;
      err := RequireNativeSender(from, b.generation, b.eventSeq);
      if err.Some? {
        return;
      }
      var state := nativeRelay.value;
      if !state.ready {
        err := FirstBoardProblem(from, b);
        if err.Some? {
          return;
        }
        assert b.modeKey.Key? by { FirstBoardHasKey(RelayView(), from, b); }
        var clean := Board(from, coopGeneration, b.eventSeq.value, 1, true, 0, b.modeKey.key, b.content);
        StoreBoard(clean);
        nativeRelay := Some(nativeRelay.value.(ready := true, modeKey := Some(clean.modeKey), poses := map[]));
        Broadcast(Msg.CollectablesDelta(clean));
        Broadcast(BoardReady(coopGeneration, 1, Some(from), Some(clean.modeKey)));
        return;
      }
      err := NextBoardProblem(from, b);
      if err.Some? {
        return;
      }
      assert b.baseRevision.Some? by { NextBoardHasBase(RelayView(), from, b); }
      var modeKey := if b.modeKey.Key? then b.modeKey.key else state.modeKey.GetOr(CLASSIC);
      var clean := Board(from, coopGeneration, b.eventSeq.value, state.revision + 1, false, b.baseRevision.value, modeKey, b.content);
      StoreBoard(clean);
      Broadcast(Msg.CollectablesDelta(clean));
    }

    method StoreBoard(board: Board)
      requires RelayLive()
      modifies `nativeRelay
      ensures RelayLive() && RelayView() == R.StoreBoard(old(RelayView()), board)
    {
      var state := nativeRelay.value;
      state := state.(lastEvent := state.lastEvent[board.client := board.eventSeq]);
      nativeRelay := Some(state.(revision := board.revision, board := Some(board)));
    }

    method FirstBoardProblem(from: ClientId, b: BoardIn) returns (problem: Option<Err>)
      requires RelayLive()
      ensures problem == R.CheckFirstBoard(RelayView(), from, b)
    {
      var state := nativeRelay.value;
      if state.initializer != Some(from) {
        return Some(NotBoardInitializer);
      }
      if state.revision != 0 {
        return Some(RuntimeBoardUpdatesDisabled);
      }
      if !b.initial || b.baseRevision != Some(0) {
        return Some(InitialBoardRequired);
      }
      if from !in coopSeated {
        return Some(InitializerNotSeated);
      }
      if b.modeKey.NoKey? {
        return Some(MissingModeKey);
      }
      if !b.modeKey.Key? {
        return Some(BadModeKey);
      }
      return if b.problem.Some? then Some(Content(b.problem.value)) else None;
    }

    method NextBoardProblem(from: ClientId, b: BoardIn) returns (problem: Option<Err>)
      requires RelayLive()
      ensures problem == R.CheckNextBoard(RelayView(), from, b)
    {
      if b.initial {
        return Some(InitialAlreadyCommitted);
      }
      if from !in coopSeated {
        return Some(SeatNotSeated);
      }
      if b.baseRevision.None? {
        return Some(MissingBaseRevision);
      }
      if b.baseRevision.value != nativeRelay.value.revision {
        return Some(StaleBoardRevision);
      }
      if b.modeKey.NullKey? || b.modeKey.BadKey? {
        return Some(BadModeKey);
      }
      return if b.problem.Some? then Some(Content(b.problem.value)) else None;
    }

    // ---------------------------------------------------------------- the relay: deaths

    /** End the session once every frozen seat is dead. */
    method MaybeEndCoopAllDead()
      requires Consistent()
      modifies `sessionActive, `coop, `coopAccumMs, `collectablesOwner, `coopAlive, `coopSeated, `coopTimerStartedAt,
               `coopSlots, `coopAuthority, `coopRunSettings, `nativeRelay, `clients, `outbox
      ensures coop == null || coop == old(coop)
      ensures Consistent()
      ensures View() == Spec.MaybeEndAllDead(old(View())).0
      ensures outbox == old(outbox) + Spec.MaybeEndAllDead(old(View())).1
    {
      hide R.AllSeatsDead;
      if mode != Coop || !sessionActive {
        return;
      }
      var allDead := AllSeatsAreDead();
      if !allDead {
        return;
      }
      ghost var before := View();
      if nativeRelay.Some? {
        if nativeRelay.value.ending {
          return;
        }
        nativeRelay := Some(nativeRelay.value.(ending := true));
      }
      ghost var marked := View();
      assert Spec.EndCoop(marked, AllDead) == Spec.EndCoop(before, AllDead);
      EndCoopSession(AllDead);
    }

    /** The seat falls; its corpse is stored and told. */
    method RecordDeath(c: ClientId, reason: Reason, remains: Remains)
      requires RelayLive()
      modifies `nativeRelay, `coopAlive, `outbox
      ensures RelayLive() && RelayView() == R.Fall(old(RelayView()), c, reason, remains)
      ensures outbox == old(outbox) + Spec.All([PlayerDead(Corpse(c, coopGeneration, reason, remains))])
    {
      var corpse := Corpse(c, coopGeneration, reason, remains);
      var state := nativeRelay.value;
      if remains.Report? {
        state := state.(lastEvent := state.lastEvent[c := remains.eventSeq]);
      }
      coopAlive := coopAlive[c := false];
      nativeRelay := Some(state.(poses := state.poses[c := corpse]));
      Broadcast(PlayerDead(corpse));
    }

    /** Ask for the first board, if there is somebody to ask. */
    method SendBoardInitRequest()
      requires RelayLive()
      modifies `collectablesOwner, `outbox
      ensures nativeRelay.value.initializer.Some? ==> collectablesOwner == nativeRelay.value.initializer
      ensures nativeRelay.value.initializer.None? ==> collectablesOwner == old(collectablesOwner)
      ensures outbox == old(outbox) + Spec.All(R.InitRequest(RelayView()))
    {
      match nativeRelay.value.initializer {
        case None =>
        case Some(initializer) =>
          collectablesOwner := Some(initializer);
          Broadcast(BoardInit(coopGeneration, initializer));
      }
    }

    method HandOff()
      requires RelayLive()
      modifies `nativeRelay, `collectablesOwner, `outbox
      ensures RelayLive() && RelayView() == R.HandOff(old(RelayView()), clients.Keys)
      ensures outbox == old(outbox) + Spec.All(R.InitRequest(RelayView()))
    {
      hide R.NextInitializerFrom;
      var next := NextNativeInitializer();
      nativeRelay := Some(nativeRelay.value.(initializer := next));
      collectablesOwner := next;
      SendBoardInitRequest();
    }

    method FallAndHandOff(c: ClientId, reason: Reason, remains: Remains) returns (ghost out: seq<Msg>)
      requires RelayLive()
      modifies `nativeRelay, `coopAlive, `collectablesOwner, `outbox
      ensures RelayLive() && FallsTo(old(RelayView()), clients.Keys, c, reason, remains, RelayView(), out)
      ensures outbox == old(outbox) + Spec.All(out)
    {
      hide R.Fall, R.NextInitializer;
      RecordDeath(c, reason, remains);
      out := [PlayerDead(Corpse(c, coopGeneration, reason, remains))];
      if !nativeRelay.value.ready && nativeRelay.value.initializer == Some(c) {
        HandOff();
        out := out + R.InitRequest(RelayView());
      }
    }

    method MarkNativeSeatDead(c: ClientId, reason: Reason, remains: Remains)
      requires RelayLive()
      modifies `sessionActive, `coop, `coopAccumMs, `collectablesOwner, `coopAlive, `coopSeated, `coopTimerStartedAt,
               `coopSlots, `coopAuthority, `coopRunSettings, `nativeRelay, `clients, `outbox
      ensures coop == null || coop == old(coop)
      ensures Consistent()
      ensures var d := Spec.RelayDone(old(View()), R.MarkDead(old(RelayView()), old(clients).Keys, c, reason, remains));
              View() == d.room && outbox == old(outbox) + d.out
    {
      hide R.Fall, R.NextInitializer, R.MarkDead, R.AllSeatsDead, Spec.RelayDone, FallsTo, Spec.MaybeEndAllDead;
      ghost var before, relay := View(), RelayView();
      if c !in coopSlots || !(c in coopAlive && coopAlive[c]) {
        NotMarked(before, relay, clients.Keys, c, reason, remains);
        return;
      }
      ghost var out := FallAndHandOff(c, reason, remains);
      assert View() == before.(phase := Spec.Relayed(RelayView()));
      DeathEnds(before, relay, clients.Keys, c, reason, remains, RelayView(), out);
      MaybeEndCoopAllDead();
    }

    /** The bodies of a death report; an empty list brings no corpse. */
    method RemainsProblem(d: DeathIn) returns (problem: Option<Err>)
      requires RelayLive()
      ensures problem == R.CheckDeath(RelayView(), d)
    {
      var dims := RelayDims(coopRunSettings.value);
      if !d.body.NoBody? && d.body != Cells([]) {
        problem := ValidateBody(d.body, dims);
        if problem.Some? {
          return;
        }
      }
      if R.Present(d.body2) && d.body2 != Cells([]) {
        problem := ValidateBody(d.body2, dims);
        return;
      }
      problem := None;
    }

    method PlayerDied(from: ClientId, d: DeathIn) returns (err: Option<Err>)
      requires RelayLive()
      modifies `sessionActive, `coop, `coopAccumMs, `collectablesOwner, `coopAlive, `coopSeated, `coopTimerStartedAt,
               `coopSlots, `coopAuthority, `coopRunSettings, `nativeRelay, `clients, `outbox
      ensures Consistent()
      ensures var done := Spec.RelayAct(old(View()), R.DeathOp(from, d));
              View() == done.room && outbox == old(outbox) + done.out && err == done.err
    {
      hide R.CheckSender, R.ReportDeath, Spec.RelayDone;
      DeathDone(View(), RelayView(), clients.Keys, from, d);
      if from in coopSlots && !(from in coopAlive && coopAlive[from]) {
        return None;
      }
      err := RequireNativeSender(from, d.generation, d.eventSeq);
      if err.Some? {
        return;
      }
      assert d.eventSeq.Some? by { SenderHasNumber(RelayView(), clients.Keys, from, d.generation, d.eventSeq); }
      err := TakeReport(from, d);
    }

    method TakeReport(from: ClientId, d: DeathIn) returns (err: Option<Err>)
      requires RelayLive() && d.eventSeq.Some?
      modifies `sessionActive, `coop, `coopAccumMs, `collectablesOwner, `coopAlive, `coopSeated, `coopTimerStartedAt,
               `coopSlots, `coopAuthority, `coopRunSettings, `nativeRelay, `clients, `outbox
      ensures Consistent()
      ensures var done := Spec.RelayDone(old(View()), R.ReportDeath(old(RelayView()), old(clients).Keys, from, d));
              View() == done.room && outbox == old(outbox) + done.out && err == done.err
    {
      hide R.CheckDeath, R.MarkDead, Spec.RelayDone;
      ghost var before, relay := View(), RelayView();
      SeatSender(from);
      assert View() == before.(phase := Spec.Relayed(RelayView()));
      err := RemainsProblem(d);
      SameDeathCheck(relay, from, d);
      ReportDone(before, relay, clients.Keys, from, d);
      if err.Some? {
        return;
      }
      var reason := if d.reason.Some? then Custom(d.reason.value) else OwnReport;
      MarkNativeSeatDead(from, reason, Report(d.eventSeq.value, d.body, d.body2, d.look));
      err := None;
    }

    method SeatSender(from: ClientId)
      requires RelayLive()
      modifies `coopSeated
      ensures RelayView() == old(RelayView()).(seated := old(coopSeated) + {from})
    {
      if from !in coopSeated {
        coopSeated := coopSeated + {from};
      }
    }

    // ---------------------------------------------------------------- the relay: speed and goal

    method SpeedTransition(from: ClientId, e: SpeedIn) returns (err: Option<Err>)
      requires RelayLive()
      modifies `nativeRelay, `outbox
      ensures RelayLive()
      ensures var o := R.PublishSpeed(old(RelayView()), clients.Keys, from, e);
              RelayView() == o.relay && outbox == old(outbox) + Spec.All(o.out) && err == o.err
    {
      hide R.CheckSender;
      if e.source.None? {
        return Some(BadSourceEventId);
      }
      if e.generation == Some(coopGeneration) && e.source.value in nativeRelay.value.sources {
        return None;
      }
      err := RequireNativeSender(from, e.generation, e.eventSeq);
      if err.Some? {
        return;
      }
      var state := nativeRelay.value;
      if !state.ready {
        return Some(BoardNotReady);
      }
      var effective := EffectiveSpeed(state.speed, e);
      if effective.Err? {
        return Some(effective.error);
      }
      assert e.eventSeq.Some? by { SenderHasNumber(RelayView(), clients.Keys, from, e.generation, e.eventSeq); }
      state := state.(lastEvent := state.lastEvent[from := e.eventSeq.value], sources := state.sources + {e.source.value});
      state := state.(epoch := state.epoch + 1, speed := effective.value);
      nativeRelay := Some(state);
      Broadcast(Msg.SpeedTransition(coopGeneration, state.epoch, effective.value, Some((from, e.eventSeq.value))));
      err := None;
    }

    method EffectiveSpeed(current: Speed, e: SpeedIn) returns (r: Result<Speed, Err>)
      ensures r == R.NextSpeed(current, e)
    {
      match e.kind {
        case Set =>
          var value := if e.value.Some? then e.value else e.effective;
          return if value.Some? then Ok(value.value) else Err(MissingSpeedValue);
        case Toggle =>
          if current.Flag? {
            return Ok(Flag(!current.on));
          }
          return if e.effective.Some? then Ok(e.effective.value) else Err(MissingSpeedValue);
        case NoKind => return Err(BadSpeedTransition);
        case OtherKind => return Err(BadSpeedTransition);
      }
    }

    method CoopGoal(from: ClientId, g: GoalIn) returns (err: Option<Err>)
      requires Consistent()
      modifies `sessionActive, `coop, `coopAccumMs, `collectablesOwner, `coopAlive, `coopSeated, `coopTimerStartedAt,
               `coopSlots, `coopAuthority, `coopRunSettings, `nativeRelay, `clients, `outbox
      ensures Consistent()
      ensures var done := Spec.Goal(old(View()), from, g);
              View() == done.room && outbox == old(outbox) + done.out && err == done.err
    {
      if mode != Coop || !sessionActive {
        return None;
      }
      if coopAuthority != Some(Session.NativeRelay) {
        return None;
      }
      if from !in coopSeated {
        return Some(SeatNotSeated);
      }
      if !nativeRelay.value.ready {
        return Some(BoardNotReady);
      }
      if !g.allApples {
        return Some(BadGoalReason);
      }
      if g.generation.Some? && g.generation.value != coopGeneration {
        return Some(StaleGeneration);
      }
      EndCoopSession(AllApples);
      err := None;
    }

    // ---------------------------------------------------------------- the simulation

    method Snapshot() returns (frame: Frame)
      requires coop != null
      ensures frame == M.FrameOf(coop.View())
    {
      var ss := coop.snakes;
      var snakes := seq(|ss|, i requires 0 <= i < |ss| => M.SnakeFrameOf(ss[i]));
      frame := Frame(coop.width, coop.height, snakes, coop.fruit, coop.score, coop.tick, coop.seqNo, coop.running, coop.ended,
                     coop.endReason, coop.speedIndex, coop.fruitTarget);
    }

    /** The first input arms the shared timer; every one goes to the sender's snake. */
    method SteerSnake(from: ClientId, dir: Dir, now: nat)
      requires SimLive() && coop.Valid()
      modifies `coopTimerStartedAt, `outbox, coop
      ensures SimLive() && SimView() == M.Input(old(SimView()), from, dir, now).sim
      ensures outbox == old(outbox) + Spec.All(M.Input(old(SimView()), from, dir, now).out)
    {
      hide S.SetInput, G.GameInv;
      if coopTimerStartedAt.None? {
        coopTimerStartedAt := Some(now);
        Broadcast(TimerStart(None, now));
      }
      coop.SetInput(from, dir);
    }

    method SimInput(from: ClientId, dir: DirField, now: nat) returns (err: Option<Err>)
      requires Valid()
      modifies `coopTimerStartedAt, `outbox, coop
      ensures Consistent()
      ensures var d := Spec.Input(old(View()), from, dir, now);
              View() == d.room && outbox == old(outbox) + d.out && err == d.err
    {
      hide Inv.RoomOk, M.Input, G.GameInv, Valid, LeaveAllowed, JoinsApart;
      Parts();
      ghost var before := View();
      if mode != Coop {
        return Some(NotCoop);
      }
      if !sessionActive {
        return None;
      }
      if coopAuthority == Some(Session.NativeRelay) {
        return Some(NativeRelayUsesPose);
      }
      if from !in clients {
        return Some(UnknownClient);
      }
      if clients[from].role != Player {
        return Some(NotPlayer);
      }
      match dir {
        case NoDir => return Some(MissingDir);
        case BadDir => return Some(BadDirection);
        case Heading(d) =>
          SimInputDone(before, from, d, now);
          SteerSnake(from, d, now);
          return None;
      }
    }

    /** A seat taken away by the room dies in the simulation too. */
    method MarkServerSimSeatDead(c: ClientId, cause: Reason)
      requires SimLive() && coop.Valid()
      modifies `sessionActive, `coop, `coopAccumMs, `collectablesOwner, `coopAlive, `coopSeated, `coopTimerStartedAt,
               `coopSlots, `coopAuthority, `coopRunSettings, `nativeRelay, `clients, `outbox, coop
      ensures coop == null || coop == old(coop)
      ensures Consistent()
      ensures var d := Spec.SimAct(old(View()), M.MarkDead(old(SimView()), c, cause));
              View() == d.room && outbox == old(outbox) + d.out
    {
      hide S.Kill, G.GameInv, M.FrameOf, R.AllSeatsDead, NobodyReady;
      ghost var before, sim := View(), SimView();
      if c !in coopSlots || !(c in coopAlive && coopAlive[c]) {
        return;
      }
      KillSeat(c, cause);
      assert View() == before.(phase := Spec.Simulated(SimView()));
      SimFallDone(before, sim, c, cause);
      MaybeEndCoopAllDead();
    }

    /** The corpse stays on the board; everybody is told. */
    method KillSeat(c: ClientId, cause: Reason)
      requires SimLive() && coop.Valid()
      modifies `coopAlive, `outbox, coop
      ensures SimLive()
      ensures SimView() == old(SimView()).(alive := old(coopAlive)[c := false], game := S.Kill(old(SimView()).game, c))
      ensures outbox == old(outbox) + Spec.All([SimDead(c, cause), CoopState(M.FrameOf(SimView().game))])
    {
      hide S.Kill, G.GameInv, M.FrameOf;
      coopAlive := coopAlive[c := false];
      coop.MarkDead(c);
      TellDeath(c, cause);
    }

    method TellDeath(c: ClientId, cause: Reason)
      requires coop != null
      modifies `outbox
      ensures outbox == old(outbox) + Spec.All([SimDead(c, cause), CoopState(M.FrameOf(coop.View()))])
    {
      hide M.FrameOf;
      Broadcast(SimDead(c, cause));
      var frame := Snapshot();
      Broadcast(CoopState(frame));
    }

    /** Copy every snake's fate into the room's table. */
    method UpdateAlive()
      requires coop != null
      modifies `coopAlive
      ensures coopAlive == M.AliveFrom(old(coopAlive), coop.snakes)
    {
      for i := 0 to |coop.snakes|
        invariant coopAlive == M.AliveFrom(old(coopAlive), coop.snakes[..i])
      {
        var s := coop.snakes[i];
        assert coop.snakes[..i + 1][..i] == coop.snakes[..i];
        coopAlive := coopAlive[s.client := s.alive];
      }
      assert coop.snakes[..|coop.snakes|] == coop.snakes;
    }

    function EndReasonOf(): EndReason
      requires coop != null
      reads this, coop
    {
      match coop.endReason
      case None => Ended
      case Some(reason) => if reason == S.AllApples then AllApples else AllDead
    }

    /** The last frame, then the end of the session. */
    method FinishSim()
      requires SimLive()
      modifies `sessionActive, `coop, `coopAccumMs, `collectablesOwner, `coopAlive, `coopSeated, `coopTimerStartedAt,
               `coopSlots, `coopAuthority, `coopRunSettings, `nativeRelay, `clients, `outbox
      ensures Consistent()
      ensures var game := old(coop.View());
              var (ended, out) := Spec.EndCoop(old(View()), M.EndOf(game));
              View() == ended && outbox == old(outbox) + Spec.All([CoopState(M.FrameOf(game))]) + out
    {
      hide M.FrameOf, NobodyReady;
      var reason := EndReasonOf();
      var frame := Snapshot();
      Broadcast(CoopState(frame));
      EndCoopSession(reason);
    }

    /** Sixteen more milliseconds, and the steps they pay for. */
    method TickCoopSim()
      requires SimLive() && coop.Valid()
      modifies `sessionActive, `coop, `coopAccumMs, `collectablesOwner, `coopAlive, `coopSeated, `coopTimerStartedAt,
               `coopSlots, `coopAuthority, `coopRunSettings, `nativeRelay, `clients, `outbox, coop
      ensures Consistent()
      ensures var d := Spec.SimAct(old(View()), M.Tick(old(SimView())));
              View() == d.room && outbox == old(outbox) + d.out
    {
      hide S.Step, G.GameInv, M.FrameOf, NobodyReady, S.SpeedInterval, Spec.SimAct, M.EndOf;
      ghost var before, sim := View(), SimView();
      M.IntervalRange(coop.speedIndex);
      var interval := S.SpeedInterval(coop.speedIndex);
      if coopTimerStartedAt.None? {
        coopAccumMs := 0;
        if coop.ended {
          FinishRun(before, M.Tick(sim));
        } else {
          SimActOverAt(before, M.Tick(sim), Spec.Simulated(SimView()));
        }
        return;
      }
      coopAccumMs := coopAccumMs + M.ROOM_TICK_MS;
      ghost var outcome := M.Catchup(SimView(), interval, false);
      assert M.Tick(sim) == outcome;
      CatchUp(before, interval, outcome);
    }

    method CatchUp(ghost before: Spec.Room, interval: nat, ghost outcome: M.Outcome)
      requires SimLive() && coop.Valid() && interval > 0 && outcome == M.Catchup(SimView(), interval, false)
      requires View() == before.(phase := Spec.Simulated(SimView()))
      modifies `sessionActive, `coop, `coopAccumMs, `collectablesOwner, `coopAlive, `coopSeated, `coopTimerStartedAt,
               `coopSlots, `coopAuthority, `coopRunSettings, `nativeRelay, `clients, `outbox, coop
      ensures Consistent()
      ensures var d := Spec.SimAct(before, outcome);
              View() == d.room && outbox == old(outbox) + d.out
    {
      hide S.Step, M.FrameOf, NobodyReady, S.SpeedInterval, Spec.SimAct, Spec.EndCoop, M.EndOf, M.AliveFrom, G.GameInv, M.Catchup;
      var stepped := false;
      while coopAccumMs >= interval
        invariant SimLive() && coop.Valid() && coop == old(coop) && outbox == old(outbox)
        invariant View() == before.(phase := Spec.Simulated(SimView()))
        invariant M.Catchup(SimView(), interval, stepped) == outcome
        decreases coopAccumMs
      {
        CatchupCases(SimView(), interval, stepped);
        PayFor(interval);
        if coop.ended {
          FinishRun(before, outcome);
          return;
        } else if coop.running {
          var over := StepOrFinish(before, interval, outcome, stepped);
          stepped := true;
          if over {
            return;
          }
        } else {
          break;
        }
      }
      CatchupCases(SimView(), interval, stepped);
      SimActOverAt(before, outcome, Spec.Simulated(SimView()));
      TellSteps(stepped);
    }

    method TellSteps(stepped: bool)
      requires coop != null
      modifies `outbox
      ensures outbox == old(outbox) + Spec.All(if stepped then [CoopState(M.FrameOf(coop.View()))] else [])
    {
      hide M.FrameOf;
      if stepped {
        var frame := Snapshot();
        Broadcast(CoopState(frame));
      }
    }

    /** The game has ended: say so and close the session. */
    method FinishRun(ghost before: Spec.Room, ghost outcome: M.Outcome)
      requires SimLive() && View() == before.(phase := Spec.Simulated(SimView()))
      requires outcome.over == Some(M.EndOf(coop.View())) && outcome.out == [CoopState(M.FrameOf(coop.View()))]
      modifies `sessionActive, `coop, `coopAccumMs, `collectablesOwner, `coopAlive, `coopSeated, `coopTimerStartedAt,
               `coopSlots, `coopAuthority, `coopRunSettings, `nativeRelay, `clients, `outbox
      ensures Consistent()
      ensures var d := Spec.SimAct(before, outcome);
              View() == d.room && outbox == old(outbox) + d.out
    {
      hide M.FrameOf, NobodyReady, Spec.SimAct, Spec.EndCoop, M.EndOf;
      SimActOverAt(before, outcome, Spec.Simulated(SimView()));
      FinishSim();
    }

    method StepOrFinish(ghost before: Spec.Room, interval: nat, ghost outcome: M.Outcome, ghost stepped: bool) returns (over: bool)
      requires SimLive() && coop.Valid() && coop.running && !coop.ended && interval > 0
      requires View() == before.(phase := Spec.Simulated(SimView()))
      requires M.Catchup(SimView().(accum := coopAccumMs + interval), interval, stepped) == outcome
      modifies `sessionActive, `coop, `coopAccumMs, `collectablesOwner, `coopAlive, `coopSeated, `coopTimerStartedAt,
               `coopSlots, `coopAuthority, `coopRunSettings, `nativeRelay, `clients, `outbox, coop
      ensures over ==> Consistent() && var d := Spec.SimAct(before, outcome); View() == d.room && outbox == old(outbox) + d.out
      ensures !over ==>
                && SimLive() && coop.Valid() && coop == old(coop) && outbox == old(outbox) && coopAccumMs == old(coopAccumMs)
                && View() == before.(phase := Spec.Simulated(SimView()))
                && M.Catchup(SimView(), interval, true) == outcome
    {
      hide S.Step, M.FrameOf, NobodyReady, Spec.SimAct, Spec.EndCoop, M.EndOf, M.AliveFrom, G.GameInv;
      ghost var paid := SimView();
      assert paid == SimView().(accum := coopAccumMs + interval).(accum := coopAccumMs);
      StepSim();
      over := coop.ended;
      if over {
        FinishRun(before, outcome);
      }
    }

    method PayFor(interval: nat)
      requires SimLive() && coopAccumMs >= interval
      modifies `coopAccumMs
      ensures SimView() == old(SimView()).(accum := old(coopAccumMs) - interval)
      ensures View() == old(View()).(phase := Spec.Simulated(SimView()))
    {
      coopAccumMs := coopAccumMs - interval;
    }

    method StepSim()
      requires SimLive() && coop.Valid()
      modifies `coopAlive, coop
      ensures SimLive() && coop.Valid()
      ensures var game := S.Step(old(SimView()).game);
              SimView() == old(SimView()).(game := game, alive := M.AliveFrom(old(coopAlive), game.snakes))
      ensures View() == old(View()).(phase := Spec.Simulated(SimView()))
    {
      hide S.Step, M.AliveFrom, G.GameInv;
      coop.Step();
      UpdateAlive();
    }

    // ---------------------------------------------------------------- the race

    /** The leader shown on the board; nobody leads outside the race mode. */
    method RaceLeaderId() returns (leader: Option<ClientId>)
      ensures if mode == Race then E.IsLeader(leader, raceGoal, raceScores) else leader == None
    {
      if mode != Race {
        return None;
      }
      leader := E.RaceLeader(raceGoal, raceScores);
    }

    /** Is some current player still in a run? A player without a pulse is. */
    method AnyoneRunning() returns (any: bool)
      ensures any == Spec.AnyRunning(View())
    {
      ghost var s := View();
      var rest := clients.Keys;
      while rest != {}
        invariant rest <= clients.Keys
        invariant forall id :: id in clients.Keys - rest ==> !Spec.Running(s, id)
        decreases rest
      {
        var id :| id in rest;
        rest := rest - {id};
        if clients[id].role == Player && (id in raceScores ==> raceScores[id].alive) {
          assert Spec.Running(s, id);
          return true;
        }
      }
      return false;
    }

    /** The race is over: no clock, no session, and the news. */
    method CloseRace(news: Msg)
      requires Consistent() && mode == Race
      modifies `sessionActive, `attemptDeadline, `outbox
      ensures Consistent() && View() == old(View()).(phase := Spec.Lobby, attempt := old(View()).attempt.(deadline := None))
      ensures outbox == old(outbox) + Spec.All([news, Spec.RosterMsg(View())])
    {
      sessionActive := false;
      attemptDeadline := None;
      Broadcast(news);
      BroadcastRoster();
    }

    method FinishRaceGrace() returns (winner: Option<ClientId>)
      requires Consistent() && sessionActive && mode == Race
      modifies `sessionActive, `attemptDeadline, `outbox
      ensures E.IsLeader(winner, raceGoal, raceScores)
      ensures Consistent() && View() == old(View()).(phase := Spec.Lobby, attempt := old(View()).attempt.(deadline := None))
      ensures outbox == old(outbox) + Spec.All([AttemptExpired(false, true), Spec.RosterMsg(View())])
    {
      winner := RaceLeaderId();
      hide *;
      CloseRace(AttemptExpired(false, true));
    }

    /** After the clock has run out, close the match once nobody is still in a run. */
    method MaybeEndRaceGrace()
      requires Consistent()
      modifies `sessionActive, `attemptDeadline, `outbox
      ensures Consistent()
      ensures View() == Spec.MaybeEndGrace(old(View())).0
      ensures outbox == old(outbox) + Spec.MaybeEndGrace(old(View())).1
    {
      hide Spec.AnyRunning;
      if mode != Race || !attemptExpired || !finishOngoingRuns || !sessionActive {
        return;
      }
      var anyAlive := AnyoneRunning();
      if !anyAlive {
        var _ := FinishRaceGrace();
      }
    }

    method TickRace(now: nat)
      requires Consistent() && mode == Race
      modifies `sessionActive, `attemptDeadline, `attemptExpired, `allowNewRuns, `outbox
      ensures Consistent()
      ensures var d := Spec.RaceTick(old(View()), now); View() == d.room && outbox == old(outbox) + d.out
    {
      hide PhaseView, Consistent, Spec.MaybeEndGrace, Spec.RosterMsg;
      if attemptDeadline.None? || now < attemptDeadline.value || attemptExpired {
        return;
      }
      ExpireAttempt();
      if finishOngoingRuns {
        Broadcast(AttemptExpired(true, false));
        BroadcastRoster();
        MaybeEndRaceGrace();
      } else {
        CloseRace(AttemptExpired(false, false));
      }
    }

    method ExpireAttempt()
      modifies `attemptExpired, `allowNewRuns
      ensures View() == old(View()).(attempt := old(View()).attempt.(expired := true, allowNew := false))
    {
      hide PhaseView;
      attemptExpired := true;
      allowNewRuns := false;
    }

    method ScorePulse(from: ClientId, p: E.Pulse) returns (err: Option<Err>)
      requires Consistent()
      modifies `raceScores, `sessionActive, `attemptDeadline, `outbox
      ensures Consistent()
      ensures var d := Spec.Pulse(old(View()), from, p);
              View() == d.room && outbox == old(outbox) + d.out && err == d.err
    {
      hide PhaseView, Consistent, Spec.MaybeEndGrace, E.AfterPulse, Spec.AnyRunning;
      PhaseKind();
      if from !in clients {
        return Some(UnknownClient);
      }
      if clients[from].role != Player || mode != Race {
        return Some(NotRacePlayer);
      }
      if !sessionActive {
        return None;
      }
      var entry := UpdateScore(from, p);
      Broadcast(Msg.ScorePulse(from, entry));
      MaybeEndRaceGrace();
      err := None;
    }

    method UpdateScore(from: ClientId, p: E.Pulse) returns (entry: E.Entry)
      modifies `raceScores
      ensures var before := if from in old(raceScores) then old(raceScores)[from] else E.FRESH;
              entry == E.AfterPulse(raceGoal, before, Spec.CleanPulse(p, attemptExpired))
      ensures raceScores == old(raceScores)[from := entry]
    {
      var score := if p.score < 100000 then p.score else 100000;
      var timeMs := if p.timeMs < 24 * 60 * 60 * 1000 then p.timeMs else 24 * 60 * 60 * 1000;
      var goalAll := p.goalAll;
      if attemptExpired {
        goalAll := false;
      }
      var before := if from in raceScores then raceScores[from] else E.FRESH;
      entry := E.ApplyPulse(raceGoal, before, E.Pulse(score, timeMs, p.alive, goalAll, p.startedAt));
      raceScores := raceScores[from := entry];
    }

    // ---------------------------------------------------------------- lobby commands

    predicate FromAdmin(from: ClientId)
      reads `adminId
    {
      adminId == Some(from)
    }

    method SetDuration(from: ClientId, minutes: Option<nat>) returns (err: Option<Err>)
      requires Consistent()
      modifies `durationMin, `outbox
      ensures Consistent()
      ensures var d := Spec.SetDuration(old(View()), from, minutes);
              View() == d.room && outbox == old(outbox) + d.out && err == d.err
    {
      hide PhaseView, Consistent;
      if !FromAdmin(from) {
        return Some(NotAdmin);
      }
      if minutes.None? {
        return Some(BadMinutes);
      }
      var mins := minutes.value % 0x1_0000_0000;
      if mins == 0 || mins > 24 * 60 {
        return Some(BadMinutes);
      }
      durationMin := mins;
      BroadcastRoster();
      err := None;
    }

    method SetRaceGoal(from: ClientId, goal: Option<E.Goal>) returns (err: Option<Err>)
      requires Consistent()
      modifies `raceGoal, `raceScores, `outbox
      ensures Consistent()
      ensures var d := Spec.SetRaceGoal(old(View()), from, goal);
              View() == d.room && outbox == old(outbox) + d.out && err == d.err
    {
      hide PhaseView, Consistent;
      hide E.AfterGoalChange;
      if !FromAdmin(from) {
        return Some(NotAdmin);
      }
      if goal.None? {
        return Some(BadRaceGoal);
      }
      raceGoal := goal.value;
      RescoreAll();
      BroadcastRoster();
      err := None;
    }

    /** Judge every entry anew by the current goal. */
    method RescoreAll()
      modifies `raceScores
      ensures raceScores == map id | id in old(raceScores) :: E.AfterGoalChange(raceGoal, old(raceScores)[id])
    {
      ghost var before := raceScores;
      var rest := raceScores.Keys;
      while rest != {}
        invariant rest <= before.Keys && raceScores.Keys == before.Keys
        invariant forall id :: id in rest ==> raceScores[id] == before[id]
        invariant forall id :: id in before.Keys - rest ==> raceScores[id] == E.AfterGoalChange(raceGoal, before[id])
        decreases rest
      {
        var id :| id in rest;
        rest := rest - {id};
        var entry := raceScores[id].(bestGoalTime := None, goalCompleted := false);
        entry := E.ApplyGoalProgress(raceGoal, entry, entry.score, entry.timeMs, false);
        raceScores := raceScores[id := entry];
      }
    }

    method AdminTransfer(from: ClientId, target: Option<ClientId>) returns (err: Option<Err>)
      requires Consistent()
      modifies `adminId, `outbox
      ensures Consistent()
      ensures var d := Spec.AdminTransfer(old(View()), from, target);
              View() == d.room && outbox == old(outbox) + d.out && err == d.err
    {
      hide PhaseView, Consistent;
      if !FromAdmin(from) {
        return Some(NotAdmin);
      }
      if target.None? {
        return Some(MissingClientId);
      }
      if target.value !in clients {
        return Some(UnknownClient);
      }
      adminId := target;
      BroadcastRoster();
      err := None;
    }

    method SyncSettings(from: ClientId, payload: Settings) returns (err: Option<Err>)
      requires Consistent()
      modifies `settings, `outbox
      ensures Consistent()
      ensures var d := Spec.SyncSettings(old(View()), from, payload);
              View() == d.room && outbox == old(outbox) + d.out && err == d.err
    {
      hide PhaseView, Consistent;
      if !FromAdmin(from) {
        return Some(NotAdmin);
      }
      settings := payload;
      Broadcast(SettingsSync(payload));
      err := None;
    }

    method SyncPlay(from: ClientId) returns (err: Option<Err>)
      requires Consistent()
      modifies `outbox
      ensures Consistent() && View() == old(View())
      ensures var d := Spec.SyncPlay(old(View()), from); outbox == old(outbox) + d.out && err == d.err
    {
      hide PhaseView, Consistent;
      if !FromAdmin(from) {
        return Some(NotAdmin);
      }
      var ready := EverybodyReady();
      if !ready {
        return Some(NotAllReady);
      }
      if mode == Race && !allowNewRuns {
        return Some(AttemptIsExpired);
      }
      Broadcast(PlaySync);
      err := None;
    }

    method EverybodyReady() returns (ready: bool)
      ensures ready == AllPlayersReady(clients)
    {
      var any := false;
      var rest := clients.Keys;
      while rest != {}
        invariant rest <= clients.Keys
        invariant any <==> exists id :: id in clients.Keys - rest && clients[id].role == Player
        invariant forall id :: id in clients.Keys - rest && clients[id].role == Player ==> clients[id].ready
        decreases rest
      {
        var id :| id in rest;
        rest := rest - {id};
        if clients[id].role == Player {
          if !clients[id].ready {
            assert !AllPlayersReady(clients);
            return false;
          }
          any := true;
        }
      }
      assert any <==> Players(clients) != {} by {
        if any {
          var id :| id in clients && clients[id].role == Player;
          assert id in Players(clients);
        }
      }
      return any;
    }

    method EndSession(from: ClientId) returns (err: Option<Err>)
      requires Consistent()
      modifies `sessionActive, `coop, `coopAccumMs, `collectablesOwner, `coopAlive, `coopSeated, `coopTimerStartedAt,
               `coopSlots, `coopAuthority, `coopRunSettings, `nativeRelay, `clients, `outbox,
               `attemptDeadline, `allowNewRuns, `attemptExpired
      ensures Consistent()
      ensures var d := Spec.EndSession(old(View()), from);
              View() == d.room && outbox == old(outbox) + d.out && err == d.err
    {
      hide Spec.AbortRun;
      ghost var before := View();
      if !FromAdmin(from) {
        return Some(NotAdmin);
      }
      AbortRun();
      BroadcastRoster();
      assert Spec.All([SessionEnd(EndReason.Aborted)]) + Spec.Announce(View()) == Spec.EndSession(before, from).out;
      err := None;
    }

    // ---------------------------------------------------------------- colours

    method ClaimColor(from: ClientId, color: Option<nat>) returns (err: Option<Err>)
      requires Consistent()
      modifies `clients, `outbox
      ensures Consistent()
      ensures var d := Spec.ColorClaim(old(View()), from, color);
              View() == d.room && outbox == old(outbox) + d.out && err == d.err
    {
      hide PhaseView, Consistent;
      if color.None? {
        return Some(BadColor);
      }
      var id := color.value % 256;
      C.ClaimableRange(id);
      if !(id < C.CLAIMABLE) {
        return Some(ColorNotClaimable);
      }
      hide C.Claimable;
      if mode == Coop {
        var locked := exists k | k in clients :: k != from && clients[k].color == Some(id) && clients[k].role == Player && clients[k].ready;
        if locked {
          return Some(ColorTaken);
        }
      }
      if from !in clients {
        return Some(UnknownClient);
      }
      clients := clients[from := clients[from].(color := Some(id))];
      BroadcastRoster();
      err := None;
    }

    method MarkReady(from: ClientId, payload: Option<bool>) returns (err: Option<Err>)
      requires Consistent()
      modifies `clients, `outbox
      ensures Consistent()
      ensures var d := Spec.Ready(old(View()), from, payload);
              View() == d.room && outbox == old(outbox) + d.out && err == d.err
    {
      hide PhaseView, Consistent;
      hide C.Claimable, C.NextFree, WithReadyColor;
      var ready := payload.GetOr(true);
      if from !in clients {
        return Some(UnknownClient);
      }
      if clients[from].role != Player {
        return Some(SpectatorsCannotReady);
      }
      if ready && mode == Coop {
        BumpColor(from);
      }
      clients := clients[from := clients[from].(ready := ready)];
      BroadcastRoster();
      err := None;
    }

    /** Move to the next colour that no other ready player holds, if the current one will not do. */
    method BumpColor(from: ClientId)
      requires from in clients
      modifies `clients
      ensures from in clients && clients == WithReadyColor(old(clients), from)
    {
      hide C.NextFree;
      var taken := set id | id in clients && id != from && clients[id].role == Player && clients[id].ready && clients[id].color.Some? :: clients[id].color.value;
      assert taken == ColorsOf(clients, ReadyPlayers(clients) - {from});
      var current := clients[from].color;
      if current.Some? {
        C.ClaimableRange(current.value);
      }
      hide C.Claimable;
      var needsBump := current.None? || !(current.value < C.CLAIMABLE) || current.value in taken;
      if needsBump {
        var free := C.NextFreeClaimable(current.GetOr(0), taken);
        if free.Some? {
          clients := clients[from := clients[from].(color := free)];
        }
      }
    }

    /** A promoted player keeps a colour nobody else plays, or takes the first free one. */
    method EnsureUniqueCoopColor(id: ClientId)
      requires id in clients
      modifies `clients
      ensures clients == WithFreeColor(old(clients), id)
    {
      hide C.FirstFree;
      var current := clients[id].color;
      var taken := set k | k in clients && k != id && clients[k].role == Player && clients[k].color.Some? :: clients[k].color.value;
      assert taken == ColorsOf(clients, Players(clients) - {id});
      if current.Some? {
        C.ClaimableRange(current.value);
      }
      hide C.Claimable;
      if !(current.None? || !(current.value < C.CLAIMABLE) || current.value in taken) {
        return;
      }
      var free := C.FirstFreeClaimable(taken);
      if free.Some? {
        clients := clients[id := clients[id].(color := free)];
      }
    }

    // ---------------------------------------------------------------- orders over the client table

    /** The client that has been here longest. */
    method OldestClient() returns (oldest: Option<ClientId>)
      requires JoinsApart(clients)
      ensures oldest == NextAdmin(clients)
    {
      oldest := None;
      var rest := clients.Keys;
      while rest != {}
        invariant rest <= clients.Keys
        invariant oldest.None? ==> rest == clients.Keys
        invariant oldest.Some? ==> oldest.value in clients
        invariant oldest.Some? ==> forall k :: k in clients.Keys - rest ==> clients[oldest.value].joinOrder <= clients[k].joinOrder
        decreases rest
      {
        var id :| id in rest;
        rest := rest - {id};
        if oldest.None? || clients[id].joinOrder < clients[oldest.value].joinOrder {
          oldest := Some(id);
        }
      }
      assert oldest.None? ==> clients.Keys == {};
      OldestIsAdmin(clients, oldest);
    }

    /** The first of `ids` in seat order. */
    method FirstInSeatOrder(ids: set<ClientId>) returns (first: ClientId)
      requires ids != {} && ids <= clients.Keys && JoinsApart(clients)
      ensures IsFirst(clients, ids, first)
    {
      first :| first in ids;
      var rest := ids - {first};
      while rest != {}
        invariant rest <= ids && IsFirst(clients, ids - rest, first)
        decreases rest
      {
        var id :| id in rest;
        rest := rest - {id};
        if Before(clients[id], clients[first]) {
          first := id;
        }
      }
      assert ids - rest == ids;
    }

    /** Co-op seat order: promotion first, then arrival. */
    method OrderedCoopPlayers() returns (order: seq<ClientId>)
      requires JoinsApart(clients)
      ensures order == SeatOrder(clients, Players(clients))
    {
      order := [];
      var rest := set id | id in clients && clients[id].role == Player;
      while rest != {}
        invariant rest <= clients.Keys
        invariant order + SeatOrder(clients, rest) == SeatOrder(clients, Players(clients))
        decreases rest
      {
        var first := FirstInSeatOrder(rest);
        SeatOrderStarts(clients, rest, first);
        assert order + ([first] + SeatOrder(clients, rest - {first})) == order + [first] + SeatOrder(clients, rest - {first});
        order := order + [first];
        rest := rest - {first};
      }
    }

    method AscendingPlayers() returns (ids: seq<ClientId>)
      ensures ids == Ascending(Players(clients))
    {
      ids := [];
      var rest := set id | id in clients && clients[id].role == Player;
      while rest != {}
        invariant ids + Ascending(rest) == Ascending(Players(clients))
        decreases rest
      {
        var least := LeastOf(rest);
        AscendingStarts(rest, least);
        assert ids + ([least] + Ascending(rest - {least})) == ids + [least] + Ascending(rest - {least});
        ids := ids + [least];
        rest := rest - {least};
      }
    }

    static method LeastOf(ids: set<ClientId>) returns (least: ClientId)
      requires ids != {}
      ensures IsLeast(ids, least)
    {
      least :| least in ids;
      var rest := ids - {least};
      assert ids - rest == {least};
      while rest != {}
        invariant rest <= ids && IsLeast(ids - rest, least)
        decreases rest
      {
        var id :| id in rest;
        assert ids - (rest - {id}) == ids - rest + {id};
        rest := rest - {id};
        if id < least {
          least := id;
        }
      }
      assert ids - rest == ids;
    }

    /** Board owner: the admin while playing, else the first player in seat order. */
    method PickCollectablesOwner() returns (owner: Option<ClientId>)
      requires JoinsApart(clients)
      ensures owner == Spec.PickOwner(RosterView())
    {
      if adminId.Some? && adminId.value in clients && clients[adminId.value].role == Player {
        return adminId;
      }
      var order := OrderedCoopPlayers();
      return if order == [] then None else Some(order[0]);
    }

    // ---------------------------------------------------------------- arrival

    method Join(id: ClientId, sameRoom: bool) returns (err: Option<Err>)
      requires Valid() && id !in clients
      modifies `clients, `joinSeq, `adminId, `outbox
      ensures Valid()
      ensures var d := Spec.Join(old(View()), id, sameRoom);
              View() == d.room && outbox == old(outbox) + d.out && err == d.err
    {
      hide PhaseView, Consistent, Inv.RoomOk;
      Inv.JoinKeepsRoom(View(), id, sameRoom);
      if |clients| >= MAX_CONNECTIONS {
        return Some(RoomFull);
      }
      if !sameRoom {
        return Some(BadRoom);
      }
      AddClient(id);
      SendTo(id, Welcome(id, adminId == Some(id)));
      BroadcastRoster();
      err := None;
    }

    method AddClient(id: ClientId)
      modifies `clients, `joinSeq, `adminId
      ensures RosterView() == Joined(old(RosterView()), id)
    {
      joinSeq := joinSeq + 1;
      var isFirst := clients == map[];
      clients := clients[id := Client(Spectator, false, None, joinSeq, None)];
      if isFirst {
        adminId := Some(id);
      }
    }

    // ---------------------------------------------------------------- the switch of mode

    /** Demote the newest promotions until co-op has room for the rest. */
    method DemoteNewest()
      requires JoinsApart(clients)
      modifies `clients
      ensures clients == KeepOnly(old(clients), Kept(old(clients)))
    {
      hide KeepOnly, Kept, Players, Lowered, SeatOrder;
      ghost var cs := clients;
      var players := OrderedCoopPlayers();
      ghost var order := players;
      RosterInv.SeatOrderLists(cs);
      KeepAll(cs, order);
      while |players| > MAX_COOP_PLAYERS
        invariant |players| <= |order| && players == order[..|players|]
        invariant |players| == |order| || |players| >= MAX_COOP_PLAYERS
        invariant clients == KeepOnly(cs, SetOf(players))
      {
        var id := players[|players| - 1];
        players := players[..|players| - 1];
        KeepOneLess(cs, order, |players|);
        clients := clients[id := Lowered(clients[id])];
      }
    }

    /** Players in ascending order of id; each keeps its colour unless an earlier one has it. */
    method RematchCoopColors()
      modifies `clients
      ensures forall id :: id in Ascending(Players(old(clients))) ==> id in old(clients)
      ensures clients == Rematched(old(clients), Ascending(Players(old(clients))), {})
    {
      hide C.FirstFree;
      var ids := AscendingPlayers();
      AscendingListsSet(Players(clients));
      var seen: set<nat> := {};
      for i := 0 to |ids|
        invariant forall id :: id in ids[i..] ==> id in clients
        invariant Rematched(clients, ids[i..], seen) == Rematched(old(clients), ids, {})
      {
        var id := ids[i];
        assert ids[i..][0] == id && ids[i..][1..] == ids[i + 1..];
        var color := clients[id].color;
        if color.Some? {
          C.ClaimableRange(color.value);
        }
        var clash := color.None? || !(color.value < C.CLAIMABLE) || color.value in seen;
        if !clash {
          seen := seen + {color.value};
        } else {
          var free := C.FirstFreeClaimable(seen);
          if free.Some? {
            clients := clients[id := clients[id].(color := free)];
            seen := seen + {free.value};
          }
        }
      }
    }

    method ChangeMode(from: ClientId, payload: Option<Mode>) returns (err: Option<Err>)
      requires Consistent() && JoinsApart(clients)
      modifies `mode, `raceScores, `sessionActive, `coop, `coopAccumMs, `collectablesOwner, `coopAlive, `coopSeated, `coopTimerStartedAt,
               `coopSlots, `coopAuthority, `coopRunSettings, `nativeRelay, `clients, `outbox,
               `attemptDeadline, `allowNewRuns, `attemptExpired
      ensures Consistent()
      ensures var d := Spec.ModeChange(old(View()), from, payload);
              View() == d.room && outbox == old(outbox) + d.out && err == d.err
    {
      if !FromAdmin(from) {
        return Some(NotAdmin);
      }
      if payload.None? {
        return Some(BadMode);
      }
      hide PhaseView, Consistent, JoinsApart, Spec.ModeChange, ModeTarget;
      ModeChangeIs(View(), from, payload.value);
      EnterMode(payload.value);
      Broadcast(ModeChanged(payload.value));
      BroadcastRoster();
      assert Spec.All([SessionEnd(EndReason.Aborted)]) + Spec.All([ModeChanged(payload.value)]) + Spec.Announce(View()) ==
             Spec.All([SessionEnd(EndReason.Aborted), ModeChanged(payload.value), Spec.RosterMsg(View())]);
      err := None;
    }

    method EnterMode(next: Mode)
      requires Consistent() && JoinsApart(clients)
      modifies `mode, `raceScores, `sessionActive, `coop, `coopAccumMs, `collectablesOwner, `coopAlive, `coopSeated, `coopTimerStartedAt,
               `coopSlots, `coopAuthority, `coopRunSettings, `nativeRelay, `clients, `outbox,
               `attemptDeadline, `allowNewRuns, `attemptExpired
      ensures Consistent()
      ensures View() == ModeTarget(old(View()), next)
      ensures outbox == old(outbox) + Spec.All([SessionEnd(EndReason.Aborted)])
    {
      hide PhaseView, Consistent, JoinsApart, Spec.AbortRun, Trimmed;
      ghost var before := View();
      AbortedLobby(before);
      AbortRun();
      SwitchMode(next);
      if next == Coop {
        TrimToCoop();
      }
    }

    method SwitchMode(next: Mode)
      requires Consistent() && View().phase.Lobby?
      modifies `mode, `raceScores, `attemptExpired
      ensures Consistent()
      ensures View() == old(View()).(mode := next, attempt := old(View()).attempt.(scores := map[], expired := false))
    {
      PhaseKind();
      mode := next;
      raceScores := map[];
      attemptExpired := false;
    }

    method TrimToCoop()
      requires JoinsApart(clients)
      modifies `clients
      ensures RosterView() == Trimmed(old(RosterView()))
    {
      hide Kept, KeepOnly, Ascending, Rematched, Players;
      DemoteNewest();
      RematchCoopColors();
    }

    // ---------------------------------------------------------------- session start

    /** A new attempt: no results, nothing expired. */
    method BeginAttempt(deadline: Option<nat>, finishOngoing: bool)
      modifies `attemptExpired, `allowNewRuns, `raceScores, `attemptDeadline, `finishOngoingRuns
      ensures AttemptView() == old(AttemptView()).(expired := false, allowNew := true, scores := map[], deadline := deadline,
                                                   finishOngoing := finishOngoing)
    {
      attemptExpired, allowNewRuns, raceScores := false, true, map[];
      attemptDeadline, finishOngoingRuns := deadline, finishOngoing;
    }

    method StartRaceSession(finishOngoing: Option<bool>, now: nat)
      requires mode == Race
      modifies `sessionActive, `coop, `collectablesOwner, `coopAlive, `coopSeated, `coopTimerStartedAt,
               `coopSlots, `coopAuthority, `coopRunSettings, `nativeRelay, `outbox,
               `attemptExpired, `allowNewRuns, `raceScores, `attemptDeadline, `finishOngoingRuns
      ensures Consistent()
      ensures var d := Spec.StartRace(old(View()), finishOngoing, now); View() == d.room && outbox == old(outbox) + d.out
    {
      hide PhaseView, Consistent, RelayLive, SimLive;
      ghost var d := Spec.StartRace(View(), finishOngoing, now);
      PrepareRace(Some(now + durationMin * 60000), finishOngoing.GetOr(finishOngoingRuns));
      assert RosterView() == d.room.roster && AttemptView() == d.room.attempt && PhaseView() == d.room.phase;
      assert View() == d.room;
      hide Spec.StartRace, View;
      TellRaceStart();
    }

    method PrepareRace(deadline: Option<nat>, finishOngoing: bool)
      requires mode == Race
      modifies `sessionActive, `coop, `collectablesOwner, `coopAlive, `coopSeated, `coopTimerStartedAt,
               `coopSlots, `coopAuthority, `coopRunSettings, `nativeRelay,
               `attemptExpired, `allowNewRuns, `raceScores, `attemptDeadline, `finishOngoingRuns
      ensures Consistent() && PhaseView() == Spec.Racing
      ensures AttemptView() == old(AttemptView()).(expired := false, allowNew := true, scores := map[], deadline := deadline,
                                                   finishOngoing := finishOngoing)
    {
      hide PhaseView, Consistent, RelayLive, SimLive;
      ResetCoop();
      BeginAttempt(deadline, finishOngoing);
      OpenRace();
    }

    method TellRaceStart()
      requires Consistent()
      modifies `outbox
      ensures outbox == old(outbox) + Spec.All([RaceStart(settings), PlaySync, Spec.RosterMsg(View())])
    {
      hide PhaseView, Consistent;
      Broadcast(RaceStart(settings));
      Broadcast(PlaySync);
      BroadcastRoster();
    }

    method OpenRace()
      requires mode == Race && collectablesOwner == None
      modifies `sessionActive
      ensures sessionActive && Consistent() && PhaseView() == Spec.Racing
    {
      sessionActive := true;
    }

    /** Freeze the seats, the settings and the board owner of the next generation. */
    method FreezeSeats()
      requires JoinsApart(clients)
      modifies `coop, `collectablesOwner, `coopAlive, `coopSeated, `coopTimerStartedAt,
               `coopSlots, `coopAuthority, `coopRunSettings, `nativeRelay, `coopGeneration, `coopAccumMs
      ensures coopSlots == Spec.FirstSeats(clients) && coopAlive == R.AllAlive(coopSlots)
      ensures collectablesOwner == Spec.FirstOwner(adminId, coopSlots)
      ensures coopGeneration == old(coopGeneration) + 1 && coopRunSettings == Some(settings) && coopAccumMs == 0
      ensures coopSeated == {} && coopTimerStartedAt == None && nativeRelay == None
    {
      hide SeatOrder, Players, JoinsApart, Spec.FirstSeats;
      ResetCoop();
      TakeSeats();
      NameOwner();
      coopGeneration := coopGeneration + 1;
      coopRunSettings, coopAccumMs := Some(settings), 0;
    }

    method TakeSeats()
      requires JoinsApart(clients)
      modifies `coopSlots, `coopAlive
      ensures coopSlots == Spec.FirstSeats(clients) && coopAlive == R.AllAlive(coopSlots)
    {
      hide SeatOrder, Players;
      var order := OrderedCoopPlayers();
      coopSlots := if |order| <= MAX_COOP_PLAYERS then order else order[..MAX_COOP_PLAYERS];
      coopAlive := map id | id in coopSlots :: true;
    }

    method NameOwner()
      modifies `collectablesOwner
      ensures collectablesOwner == Spec.FirstOwner(adminId, coopSlots)
    {
      if adminId.Some? && adminId.value in coopSlots {
        collectablesOwner := adminId;
      } else {
        collectablesOwner := if coopSlots == [] then None else Some(coopSlots[0]);
      }
    }

    method LaunchRelay()
      requires mode == Coop && coopRunSettings == Some(settings) && coopSeated == {} && coopTimerStartedAt == None
      requires coopAlive == R.AllAlive(coopSlots)
      modifies `sessionActive, `coopAuthority, `nativeRelay
      ensures RelayLive() && RelayView() == R.NewRelay(coopGeneration, coopSlots, settings, collectablesOwner)
    {
      hide R.AllAlive;
      coopAuthority := Some(Session.NativeRelay);
      nativeRelay := Some(R.NewNative(collectablesOwner, settings.speed));
      sessionActive := true;
    }

    method TellOpening()
      requires RelayLive() && nativeRelay.value.initializer == collectablesOwner
      modifies `collectablesOwner, `outbox
      ensures collectablesOwner == old(collectablesOwner)
      ensures outbox == old(outbox) + Spec.All(R.Opening(RelayView()))
    {
      Broadcast(SessionStart(R.MetaOf(RelayView())));
      Broadcast(PlaySync);
      SendBoardInitRequest();
    }

    method SeatList() returns (seats: seq<S.Seat>)
      ensures seats == Spec.SeatsOf(clients, coopSlots)
    {
      seats := [];
      for i := 0 to |coopSlots|
        invariant seats == Spec.SeatsOf(clients, coopSlots)[..i]
      {
        var id := coopSlots[i];
        var color := if id in clients then clients[id].color.GetOr(i) else i;
        seats := seats + [S.Seat(id, color, i)];
      }
    }

    method LaunchGame(seed: bv64)
      requires |coopSlots| <= MAX_COOP_PLAYERS
      modifies `coop, `coopSeated
      ensures coop != null && fresh(coop) && coop.View() == S.NewGame(Spec.SeatsOf(clients, coopSlots), SimConfig(settings, seed))
    {
      hide S.NewGame, SimConfig, G.GameInv;
      var seats := SeatList();
      var game := new CoopGame.CoopGame(seats, SimConfig(settings, seed));
      coop := game;
      coopSeated := set id | id in coopSlots;
    }

    method LaunchSim(seed: bv64)
      requires mode == Coop && coopRunSettings == Some(settings) && coopTimerStartedAt == None && coopAccumMs == 0
      requires coopAlive == R.AllAlive(coopSlots) && |coopSlots| <= MAX_COOP_PLAYERS && nativeRelay.None?
      modifies `sessionActive, `coopAuthority, `coopSeated, `coop
      ensures SimLive() && Consistent()
      ensures SimView() == M.Sim(coopGeneration, coopSlots, settings, collectablesOwner,
                                 S.NewGame(Spec.SeatsOf(clients, coopSlots), SimConfig(settings, seed)), 0, R.AllAlive(coopSlots), None)
      ensures PhaseView() == Spec.Simulated(SimView())
    {
      hide S.NewGame, SimConfig, G.GameInv, R.AllAlive;
      LaunchGame(seed);
      coopAuthority := Some(Session.ServerSim);
      sessionActive := true;
    }

    method TellSimOpening()
      requires SimLive() && Consistent()
      modifies `outbox
      ensures outbox == old(outbox) + Spec.All([SessionStart(Spec.SimMeta(SimView())), PlaySync, CoopState(M.FrameOf(SimView().game)), Spec.RosterMsg(View())])
    {
      hide M.FrameOf, PhaseView, SimView, Spec.SimMeta, Consistent;
      TellSimStart();
      BroadcastRoster();
    }

    method TellSimStart()
      requires SimLive()
      modifies `outbox
      ensures outbox == old(outbox) + Spec.All([SessionStart(Spec.SimMeta(SimView())), PlaySync, CoopState(M.FrameOf(SimView().game))])
    {
      hide M.FrameOf;
      Broadcast(SessionStart(SimMetaOf()));
      Broadcast(PlaySync);
      var frame := Snapshot();
      Broadcast(CoopState(frame));
    }

    function SimMetaOf(): (m: Meta)
      requires SimLive()
      reads this, coop
      ensures m == Spec.SimMeta(SimView())
    {
      Meta(coopGeneration, coopRunSettings.value, coopSlots, collectablesOwner, false, 0, true, None, 0,
           coopRunSettings.value.speed, coopTimerStartedAt)
    }

    method PrepareCoop()
      requires JoinsApart(clients)
      modifies `coop, `collectablesOwner, `coopAlive, `coopSeated, `coopTimerStartedAt,
               `coopSlots, `coopAuthority, `coopRunSettings, `nativeRelay, `coopGeneration, `coopAccumMs,
               `attemptExpired, `allowNewRuns, `raceScores, `attemptDeadline, `finishOngoingRuns
      ensures AttemptView() == old(AttemptView()).(expired := false, allowNew := true, scores := map[], deadline := None)
      ensures coopSlots == Spec.FirstSeats(clients) && coopAlive == R.AllAlive(coopSlots)
      ensures collectablesOwner == Spec.FirstOwner(adminId, coopSlots)
      ensures coopGeneration == old(coopGeneration) + 1 && coopRunSettings == Some(settings) && coopAccumMs == 0
      ensures coopSeated == {} && coopTimerStartedAt == None && nativeRelay == None
    {
      hide JoinsApart, Spec.FirstSeats, Spec.FirstOwner, R.AllAlive;
      BeginAttempt(None, finishOngoingRuns);
      FreezeSeats();
    }

    method StartRelayed(ghost seed: bv64)
      requires mode == Coop && JoinsApart(clients) && nativeRelayEnabled
      modifies `sessionActive, `coop, `collectablesOwner, `coopAlive, `coopSeated, `coopTimerStartedAt,
               `coopSlots, `coopAuthority, `coopRunSettings, `nativeRelay, `coopGeneration, `coopAccumMs, `outbox,
               `attemptExpired, `allowNewRuns, `raceScores, `attemptDeadline, `finishOngoingRuns
      ensures Consistent()
      ensures var d := Spec.StartCoop(old(View()), seed); View() == d.room && outbox == old(outbox) + d.out
    {
      hide RelayOf, Spec.StartCoop, Spec.FirstSeats, R.Opening, PhaseView, Consistent, JoinsApart;
      ghost var d := Spec.StartCoop(View(), seed);
      RelayStartIs(View(), seed);
      PrepareRelay();
      assert View() == d.room;
      PhaseKind();
      hide Spec.StartCoop, View;
      TellRelayOpening();
    }

    method PrepareRelay()
      requires mode == Coop && JoinsApart(clients)
      modifies `sessionActive, `coop, `collectablesOwner, `coopAlive, `coopSeated, `coopTimerStartedAt,
               `coopSlots, `coopAuthority, `coopRunSettings, `nativeRelay, `coopGeneration, `coopAccumMs,
               `attemptExpired, `allowNewRuns, `raceScores, `attemptDeadline, `finishOngoingRuns
      ensures RelayLive() && Consistent() && PhaseView() == Spec.Relayed(RelayView())
      ensures RelayView() == RelayOf(old(coopGeneration) + 1, RosterView(), settings)
      ensures nativeRelay.value.initializer == collectablesOwner && coopGeneration == old(coopGeneration) + 1
      ensures AttemptView() == old(AttemptView()).(expired := false, allowNew := true, scores := map[], deadline := None)
    {
      hide Spec.FirstSeats, Spec.FirstOwner, R.AllAlive, JoinsApart, SimLive, SimView;
      PrepareCoop();
      LaunchRelay();
    }

    method TellRelayOpening()
      requires RelayLive() && Consistent() && nativeRelay.value.initializer == collectablesOwner
      modifies `collectablesOwner, `outbox
      ensures collectablesOwner == old(collectablesOwner)
      ensures Consistent() && View() == old(View())
      ensures outbox == old(outbox) + Spec.All(R.Opening(RelayView()) + [Spec.RosterMsg(View())])
    {
      hide R.Opening;
      TellOpening();
      BroadcastRoster();
    }

    method StartSimulated(seed: bv64)
      requires mode == Coop && JoinsApart(clients) && !nativeRelayEnabled
      modifies `sessionActive, `coop, `collectablesOwner, `coopAlive, `coopSeated, `coopTimerStartedAt,
               `coopSlots, `coopAuthority, `coopRunSettings, `nativeRelay, `coopGeneration, `coopAccumMs, `outbox,
               `attemptExpired, `allowNewRuns, `raceScores, `attemptDeadline, `finishOngoingRuns
      ensures Consistent()
      ensures var d := Spec.StartCoop(old(View()), seed); View() == d.room && outbox == old(outbox) + d.out
    {
      hide SimOf, Spec.StartCoop, Spec.FirstSeats, M.FrameOf, Spec.SimMeta, PhaseView, Consistent, JoinsApart;
      FewSeats(clients);
      ghost var d := Spec.StartCoop(View(), seed);
      SimStartIs(View(), seed);
      PrepareSim(seed);
      assert View() == d.room;
      TellSimOpening();
      hide Spec.StartCoop, SimView, View;
    }

    method PrepareSim(seed: bv64)
      requires mode == Coop && JoinsApart(clients) && |Spec.FirstSeats(clients)| <= MAX_COOP_PLAYERS
      modifies `sessionActive, `coop, `collectablesOwner, `coopAlive, `coopSeated, `coopTimerStartedAt,
               `coopSlots, `coopAuthority, `coopRunSettings, `nativeRelay, `coopGeneration, `coopAccumMs,
               `attemptExpired, `allowNewRuns, `raceScores, `attemptDeadline, `finishOngoingRuns
      ensures SimLive() && Consistent() && PhaseView() == Spec.Simulated(SimView())
      ensures SimView() == SimOf(old(coopGeneration) + 1, RosterView(), settings, seed)
      ensures coopGeneration == old(coopGeneration) + 1
      ensures AttemptView() == old(AttemptView()).(expired := false, allowNew := true, scores := map[], deadline := None)
    {
      hide Spec.FirstSeats, Spec.FirstOwner, S.NewGame, R.AllAlive, SimConfig, Spec.SeatsOf, PhaseView, Consistent, JoinsApart, SimLive, SimView;
      PrepareCoop();
      LaunchSim(seed);
    }

    method StartCoopSession(seed: bv64)
      requires mode == Coop && JoinsApart(clients)
      modifies `sessionActive, `coop, `collectablesOwner, `coopAlive, `coopSeated, `coopTimerStartedAt,
               `coopSlots, `coopAuthority, `coopRunSettings, `nativeRelay, `coopGeneration, `coopAccumMs, `outbox,
               `attemptExpired, `allowNewRuns, `raceScores, `attemptDeadline, `finishOngoingRuns
      ensures Consistent()
      ensures var d := Spec.StartCoop(old(View()), seed); View() == d.room && outbox == old(outbox) + d.out
    {
      hide Spec.StartCoop, PhaseView, Consistent, JoinsApart;
      if nativeRelayEnabled {
        StartRelayed(seed);
      } else {
        StartSimulated(seed);
      }
    }

    method StartSession(from: ClientId, payload: Option<Settings>, finishOngoing: Option<bool>, now: nat, seed: bv64) returns (err: Option<Err>)
      requires Consistent() && JoinsApart(clients)
      modifies `settings, `sessionActive, `coop, `collectablesOwner, `coopAlive, `coopSeated, `coopTimerStartedAt,
               `coopSlots, `coopAuthority, `coopRunSettings, `nativeRelay, `coopGeneration, `coopAccumMs, `outbox,
               `attemptExpired, `allowNewRuns, `raceScores, `attemptDeadline, `finishOngoingRuns
      ensures Consistent()
      ensures var d := Spec.StartSession(old(View()), from, payload, finishOngoing, now, seed);
              View() == d.room && outbox == old(outbox) + d.out && err == d.err
    {
      hide PhaseView, Consistent, Spec.StartRace, Spec.StartCoop, JoinsApart, AllPlayersReady;
      PhaseKind();
      if !FromAdmin(from) {
        return Some(NotAdmin);
      }
      var ready := EverybodyReady();
      if !ready {
        return Some(NotAllReady);
      }
      if mode == Coop && sessionActive {
        return Some(SessionIsActive);
      }
      ghost var before := View();
      if payload.Some? {
        settings := payload.value;
      }
      ghost var staged := View();
      assert staged == before.(settings := payload.GetOr(before.settings));
      StartDone(before, from, payload, finishOngoing, now, seed, staged);
      if mode == Race {
        StartRaceSession(finishOngoing, now);
      } else {
        StartCoopSession(seed);
      }
      err := None;
    }

    // ---------------------------------------------------------------- departure

    method LoseNativeSeat(c: ClientId, reason: Reason)
      requires RelayLive()
      modifies `sessionActive, `coop, `coopAccumMs, `collectablesOwner, `coopAlive, `coopSeated, `coopTimerStartedAt,
               `coopSlots, `coopAuthority, `coopRunSettings, `nativeRelay, `clients, `outbox
      ensures coop == null || coop == old(coop)
      ensures Consistent()
      ensures var d := Spec.RelayAct(old(View()), R.GoneOp(c, reason)); View() == d.room && outbox == old(outbox) + d.out
    {
      var poses := nativeRelay.value.poses;
      var remains := if c in poses && poses[c].Live? then LastPose(poses[c].pose) else Nothing;
      GoneDone(View(), RelayView(), c, reason);
      hide R.MarkDead, Spec.RelayDone, Spec.RelayAct, PhaseView;
      PhaseKind();
      MarkNativeSeatDead(c, reason, remains);
    }

    /** Take the client out of the client and score tables. */
    method DropClient(id: ClientId)
      modifies `clients, `raceScores
      ensures clients == old(clients) - {id} && raceScores == old(raceScores) - {id}
    {
      clients := clients - {id};
      raceScores := raceScores - {id};
    }

    /** A departing client's place in the simulation. */
    method LeaveSim(id: ClientId)
      requires SimLive() && coop.Valid() && JoinsApart(clients)
      modifies `coopAlive, `collectablesOwner, `outbox, coop
      ensures SimLive()
      ensures var o := M.MarkDead(old(SimView()), id, Disconnect);
              var sim := if R.Alive(old(coopAlive), id) then o.sim else M.Forget(old(SimView()), id);
              && SimView() == (if sim.owner == Some(id) then sim.(owner := Spec.PickOwner(RosterView())) else sim)
              && outbox == old(outbox) + Spec.All(if R.Alive(old(coopAlive), id) then o.out else [])
      requires forall c :: c in coopAlive ==> c in coopSlots
    {
      hide S.Kill, G.GameInv, M.FrameOf, R.AllSeatsDead, Spec.PickOwner, JoinsApart;
      if id in coopSlots && id in coopAlive && coopAlive[id] {
        KillSeat(id, Disconnect);
      } else {
        coopAlive := coopAlive - {id};
      }
      if collectablesOwner == Some(id) {
        collectablesOwner := PickCollectablesOwner();
      }
    }

    method PassAdmin(id: ClientId)
      requires JoinsApart(clients)
      modifies `adminId
      ensures adminId == if old(adminId) == Some(id) then NextAdmin(clients) else old(adminId)
    {
      if adminId == Some(id) {
        adminId := OldestClient();
      }
    }

    /** Outside a simulation: the tables forget the client, unless the relay keeps its corpse. */
    method LeaveTables(id: ClientId)
      requires !SimLive() && Consistent()
      requires RelayLive() && id !in coopSlots ==> id !in coopAlive && collectablesOwner != Some(id)
      modifies `coopAlive
      ensures Consistent() && PhaseView() == old(PhaseView())
    {
      var frozen := RelayLive() && id in coopSlots;
      if !frozen {
        assert RelayLive() ==> coopAlive - {id} == coopAlive;
        coopAlive := coopAlive - {id};
      }
    }

    /** From the tables to the next administrator; the seat in a simulation dies or is forgotten. */
    method Vacate(id: ClientId)
      requires CanVacate(id)
      modifies `clients, `raceScores, `adminId, `coopAlive, `collectablesOwner, `outbox, coop
      ensures Consistent()
      ensures View() == Inv.Vacated(old(View()), id)
      ensures outbox == old(outbox) + Spec.All(Spec.Unseated(old(View()), id).1)
    {
      hide PhaseView, Consistent, Inv.Vacated, Spec.Unseated, Spec.PickOwner, G.GameInv, SimView, RelayView, JoinsApart, SimWithout;
      PhaseKind();
      VacatedIs(View(), id);
      Unseat(id);
      PassAdminTo(id);
    }

    /** Out of the tables and out of the session. */
    method Unseat(id: ClientId)
      requires Consistent() && JoinsApart(clients)
      requires SimLive() ==> coop.Valid() && forall c :: c in coopAlive ==> c in coopSlots
      requires RelayLive() && id !in coopSlots ==> id !in coopAlive && collectablesOwner != Some(id)
      modifies `clients, `raceScores, `coopAlive, `collectablesOwner, `outbox, coop
      ensures Consistent() && JoinsApart(clients)
      ensures RosterView() == old(RosterView()).(clients := old(clients) - {id})
      ensures AttemptView() == old(AttemptView()).(scores := old(raceScores) - {id})
      ensures if old(SimLive()) then
                var (sim, msgs) := SimWithout(old(SimView()), RosterView(), id);
                PhaseView() == Spec.Simulated(sim) && outbox == old(outbox) + Spec.All(msgs)
              else PhaseView() == old(PhaseView()) && outbox == old(outbox)
    {
      hide PhaseView, Consistent, Spec.PickOwner, G.GameInv, RelayView, JoinsApart, SimWithout;
      DropApart(clients, id);
      DropClient(id);
      if SimLive() {
        LeaveSimPhase(id);
      } else {
        LeaveTables(id);
      }
    }

    method LeaveSimPhase(id: ClientId)
      requires SimLive() && coop.Valid() && JoinsApart(clients) && forall c :: c in coopAlive ==> c in coopSlots
      modifies `coopAlive, `collectablesOwner, `outbox, coop
      ensures Consistent()
      ensures var (phase, msgs) := SimWithout(old(SimView()), RosterView(), id);
              PhaseView() == Spec.Simulated(phase) && outbox == old(outbox) + Spec.All(msgs)
    {
      hide S.Kill, G.GameInv, M.FrameOf, M.MarkDead, Spec.PickOwner, R.AllSeatsDead, JoinsApart;
      LeaveSim(id);
    }

    method PassAdminTo(id: ClientId)
      requires JoinsApart(clients)
      modifies `adminId
      ensures RosterView() == old(RosterView()).(admin := if old(adminId) == Some(id) then NextAdmin(clients) else old(adminId))
    {
      hide JoinsApart;
      PassAdmin(id);
    }

    /** The checks after a departure, then the news or, for an empty room, silence. */
    method AfterLeave()
      requires Consistent()
      modifies `sessionActive, `coop, `coopAccumMs, `collectablesOwner, `coopAlive, `coopSeated, `coopTimerStartedAt,
               `coopSlots, `coopAuthority, `coopRunSettings, `nativeRelay, `clients, `outbox, `attemptDeadline
      ensures Consistent()
      ensures View() == Spec.AfterLeave(old(View())).0
      ensures outbox == old(outbox) + Spec.AfterLeave(old(View())).1
    {
      hide PhaseView, Consistent, Spec.MaybeEndAllDead, Spec.MaybeEndGrace, NobodyReady;
      MaybeEndCoopAllDead();
      MaybeEndRaceGrace();
      PhaseKind();
      if clients != map[] {
        BroadcastRoster();
      } else if sessionActive {
        ClearCoopRunState();
      }
    }

    /** What a departure relies on, also halfway through a kick. */
    ghost predicate CanLeave()
      reads this, coop
    {
      Consistent() && LeaveAllowed(View())
    }

    method Leave(id: ClientId)
      requires CanLeave()
      modifies `sessionActive, `coop, `coopAccumMs, `collectablesOwner, `coopAlive, `coopSeated, `coopTimerStartedAt,
               `coopSlots, `coopAuthority, `coopRunSettings, `nativeRelay, `clients, `outbox, `raceScores, `adminId, `attemptDeadline, coop
      ensures Consistent()
      ensures View() == Spec.Leave(old(View()), id).0
      ensures outbox == old(outbox) + Spec.Leave(old(View()), id).1
    {
      Inv.LeaveStranger(View(), id);
      hide Spec.Leave, PhaseView, Consistent, LeaveAllowed;
      if id in clients {
        LeaveMember(id);
      }
    }

    method LeaveMember(id: ClientId)
      requires CanLeave() && id in clients
      modifies `sessionActive, `coop, `coopAccumMs, `collectablesOwner, `coopAlive, `coopSeated, `coopTimerStartedAt,
               `coopSlots, `coopAuthority, `coopRunSettings, `nativeRelay, `clients, `outbox, `raceScores, `adminId, `attemptDeadline, coop
      ensures Consistent()
      ensures View() == Spec.Leave(old(View()), id).0
      ensures outbox == old(outbox) + Spec.Leave(old(View()), id).1
    {
      hide Spec.Leave, Spec.AfterLeave, Inv.Vacated, Inv.Released, Spec.Unseated, CanLeave, CanVacate, Consistent, PhaseView, AttemptView;
      LeaveIs(View(), id);
      hide View;
      ReleaseSeat(id);
      FinishLeave(id);
    }

    method FinishLeave(id: ClientId)
      requires CanVacate(id)
      modifies `sessionActive, `coop, `coopAccumMs, `collectablesOwner, `coopAlive, `coopSeated, `coopTimerStartedAt,
               `coopSlots, `coopAuthority, `coopRunSettings, `nativeRelay, `clients, `outbox, `raceScores, `adminId, `attemptDeadline, coop
      ensures Consistent()
      ensures var left := Inv.Vacated(old(View()), id);
              && View() == Spec.AfterLeave(left).0
              && outbox == old(outbox) + Spec.All(Spec.Unseated(old(View()), id).1) + Spec.AfterLeave(left).1
    {
      hide Spec.AfterLeave, Inv.Vacated, Spec.Unseated, View, Consistent, CanVacate;
      Vacate(id);
      AfterLeave();
    }

    /** What the tables must satisfy for a client to be taken out of them. */
    ghost predicate CanVacate(id: ClientId)
      reads this, coop
    {
      && Consistent() && id in clients && JoinsApart(clients)
      && (SimLive() ==> coop.Valid() && forall c :: c in coopAlive ==> c in coopSlots)
      && (RelayLive() && id !in coopSlots ==> id !in coopAlive && collectablesOwner != Some(id))
    }

    /** The relay marks a departing seat dead before the tables forget its client. */
    method ReleaseSeat(id: ClientId)
      requires CanLeave() && id in clients
      modifies `sessionActive, `coop, `coopAccumMs, `collectablesOwner, `coopAlive, `coopSeated, `coopTimerStartedAt,
               `coopSlots, `coopAuthority, `coopRunSettings, `nativeRelay, `clients, `outbox
      ensures coop == null || coop == old(coop)
      ensures CanVacate(id)
      ensures var d := Inv.Released(old(View()), id); View() == d.room && outbox == old(outbox) + d.out
    {
      hide PhaseView, Spec.RelayAct, Inv.RoomOk, G.GameInv, M.SimOk, RosterOk, Inv.CoopOk, Players, Inv.Released, JoinsApart;
      ghost var s := View();
      PhaseKind();
      Inv.ReleasedKeeps(s, id);
      SeatlessGone(s, id);
      if RelayLive() && id in coopSlots {
        LoseNativeSeat(id, Disconnect);
      }
      PhaseKind();
      LeaveFacts(View(), id, Players(s.roster.clients));
    }

    // ---------------------------------------------------------------- roles

    /** A kicked or demoted client loses its frozen seat, if it holds one. */
    method LoseSeat(c: ClientId, reason: Reason)
      requires Consistent() && (SimLive() ==> coop.Valid())
      modifies `sessionActive, `coop, `coopAccumMs, `collectablesOwner, `coopAlive, `coopSeated, `coopTimerStartedAt,
               `coopSlots, `coopAuthority, `coopRunSettings, `nativeRelay, `clients, `outbox, coop
      ensures coop == null || coop == old(coop)
      ensures Consistent()
      ensures var d := Spec.SeatGone(old(View()), c, reason); View() == d.room && outbox == old(outbox) + d.out
    {
      PhaseKind();
      hide PhaseView, Spec.RelayAct, Spec.SimAct, M.MarkDead, RelayView, G.GameInv, Consistent;
      if RelayLive() {
        LoseNativeSeat(c, reason);
      } else if SimLive() {
        MarkServerSimSeatDead(c, reason);
      }
    }

    method Promote(id: ClientId)
      requires id in clients
      modifies `clients, `promoteSeq
      ensures RosterView() == Promoted(old(RosterView()), mode, id)
    {
      hide WithFreeColor;
      promoteSeq := promoteSeq + 1;
      clients := clients[id := clients[id].(role := Player, ready := false, promoteOrder := Some(promoteSeq))];
      if mode == Coop {
        EnsureUniqueCoopColor(id);
      }
    }

    method CountPlayers() returns (n: nat)
      ensures n == |Players(clients)|
    {
      var players := set id | id in clients && clients[id].role == Player;
      assert players == Players(clients);
      n := |players|;
    }

    method SetRole(from: ClientId, target: Option<ClientId>, role: Option<Role>) returns (err: Option<Err>)
      requires Valid()
      modifies `sessionActive, `coop, `coopAccumMs, `collectablesOwner, `coopAlive, `coopSeated, `coopTimerStartedAt,
               `coopSlots, `coopAuthority, `coopRunSettings, `nativeRelay, `clients, `outbox, `promoteSeq, `attemptDeadline, coop
      ensures Consistent()
      ensures var d := Spec.SetRole(old(View()), from, target, role);
              View() == d.room && outbox == old(outbox) + d.out && err == d.err
    {
      hide PhaseView, Consistent, Promoted, Spec.SeatGone, Inv.RoomOk, G.GameInv, Demoted, Players, Spec.MaybeEndGrace, Valid, LeaveAllowed, JoinsApart;
      Parts();
      if !FromAdmin(from) {
        return Some(NotAdmin);
      }
      if target.None? {
        return Some(MissingClientId);
      }
      if role.None? {
        return Some(BadRole);
      }
      err := None;
      if target.value !in clients {
        return Some(UnknownClient);
      }
      if clients[target.value].role == role.value {
        BroadcastRoster();
        return None;
      }
      if role.value == Player {
        err := StepUp(target.value);
      } else {
        DemotionKeeps(View(), target.value);
        StepDown(target.value);
      }
    }

    method StepUp(id: ClientId) returns (err: Option<Err>)
      requires Consistent() && id in clients
      modifies `clients, `promoteSeq, `sessionActive, `attemptDeadline, `outbox
      ensures Consistent()
      ensures |Players(old(clients))| >= CapOf(mode) ==>
                err == Some(RoomTypes.PlayerCap) && View() == old(View()) && outbox == old(outbox)
      ensures |Players(old(clients))| < CapOf(mode) ==>
                var d := Spec.WithGrace(old(View()).(roster := Promoted(old(RosterView()), mode, id)), []);
                err == None && View() == d.room && outbox == old(outbox) + d.out
    {
      hide PhaseView, Consistent, Promoted, Spec.MaybeEndGrace, Spec.Announce;
      var count := CountPlayers();
      if count >= CapOf(mode) {
        return Some(RoomTypes.PlayerCap);
      }
      Promote(id);
      SettleRoles();
      err := None;
    }

    method StepDown(id: ClientId)
      requires Consistent() && (SimLive() ==> coop.Valid()) && id in Spec.SeatGone(View(), id, Demotion).room.roster.clients
      modifies `sessionActive, `coop, `coopAccumMs, `collectablesOwner, `coopAlive, `coopSeated, `coopTimerStartedAt,
               `coopSlots, `coopAuthority, `coopRunSettings, `nativeRelay, `clients, `outbox, `attemptDeadline, coop
      ensures Consistent()
      ensures var gone := Spec.SeatGone(old(View()), id, Demotion);
              var d := Spec.WithGrace(gone.room.(roster := Demoted(gone.room.roster, id)), gone.out);
              View() == d.room && outbox == old(outbox) + d.out
    {
      hide View, Demoted, Consistent, SimLive, Spec.SeatGone, Spec.MaybeEndGrace, G.GameInv, Spec.Announce;
      LoseSeat(id, Demotion);
      LowerAndSettle(id);
    }

    method LowerAndSettle(id: ClientId)
      requires Consistent() && id in View().roster.clients
      modifies `clients, `sessionActive, `attemptDeadline, `outbox
      ensures Consistent()
      ensures var lowered := old(View()).(roster := Demoted(old(View()).roster, id));
              && View() == Spec.MaybeEndGrace(lowered).0
              && outbox == old(outbox) + (Spec.MaybeEndGrace(lowered).1 + Spec.Announce(View()))
    {
      hide PhaseView, Consistent, Spec.MaybeEndGrace, Spec.Announce;
      Lower(id);
      SettleRoles();
    }

    method Lower(id: ClientId)
      requires id in clients
      modifies `clients
      ensures RosterView() == Demoted(old(RosterView()), id)
    {
      clients := clients[id := clients[id].(role := Spectator, ready := false, promoteOrder := None)];
    }

    /** After a change of roles: the grace check and the roster. */
    method SettleRoles()
      requires Consistent()
      modifies `sessionActive, `attemptDeadline, `outbox
      ensures Consistent()
      ensures View() == Spec.MaybeEndGrace(old(View())).0
      ensures outbox == old(outbox) + (Spec.MaybeEndGrace(old(View())).1 + Spec.Announce(View()))
    {
      hide PhaseView, Consistent, Spec.MaybeEndGrace;
      MaybeEndRaceGrace();
      BroadcastRoster();
    }

    method Kick(from: ClientId, target: Option<ClientId>) returns (err: Option<Err>)
      requires Valid()
      modifies `sessionActive, `coop, `coopAccumMs, `collectablesOwner, `coopAlive, `coopSeated, `coopTimerStartedAt,
               `coopSlots, `coopAuthority, `coopRunSettings, `nativeRelay, `clients, `outbox, `raceScores, `adminId, `attemptDeadline, coop
      ensures Consistent()
      ensures var d := Spec.Kick(old(View()), from, target);
              View() == d.room && outbox == old(outbox) + d.out && err == d.err
    {
      hide PhaseView, Consistent, Spec.SeatGone, Spec.Leave, Inv.RoomOk, G.GameInv, LeaveAllowed, Valid, JoinsApart;
      Parts();
      if !FromAdmin(from) {
        return Some(NotAdmin);
      }
      if target.None? {
        return Some(MissingClientId);
      }
      if target.value == from {
        return Some(CannotKickSelf);
      }
      if target.value !in clients {
        return Some(UnknownClient);
      }
      KickLeaves(View(), target.value);
      RoomTrace.KickIs(View(), from, target.value);
      hide Spec.Kick, View, RosterView;
      ThrowOutAndLeave(target.value);
      err := None;
    }

    method ThrowOutAndLeave(id: ClientId)
      requires Consistent() && (SimLive() ==> coop.Valid()) && LeaveAllowed(Spec.SeatGone(View(), id, Kicked).room)
      modifies `sessionActive, `coop, `coopAccumMs, `collectablesOwner, `coopAlive, `coopSeated, `coopTimerStartedAt,
               `coopSlots, `coopAuthority, `coopRunSettings, `nativeRelay, `clients, `outbox, `raceScores, `adminId, `attemptDeadline, coop
      ensures Consistent()
      ensures var gone := Spec.SeatGone(old(View()), id, Kicked);
              var (left, out) := Spec.Leave(gone.room, id);
              && View() == left
              && outbox == old(outbox) + (gone.out + Spec.To(id, [Error(WasKicked)]) + Spec.All([KickNotice(id)]) + out)
    {
      hide Spec.SeatGone, Spec.Leave, LeaveAllowed, View, Consistent, SimLive, G.GameInv;
      ThrowOut(id);
      Leave(id);
    }

    /** The seat is gone, the client is told, and so is everybody else. */
    method ThrowOut(id: ClientId)
      requires Consistent() && (SimLive() ==> coop.Valid())
      modifies `sessionActive, `coop, `coopAccumMs, `collectablesOwner, `coopAlive, `coopSeated, `coopTimerStartedAt,
               `coopSlots, `coopAuthority, `coopRunSettings, `nativeRelay, `clients, `outbox, coop
      ensures Consistent() && (coop == null || coop == old(coop))
      ensures var gone := Spec.SeatGone(old(View()), id, Kicked);
              && View() == gone.room
              && outbox == old(outbox) + gone.out + Spec.To(id, [Error(WasKicked)]) + Spec.All([KickNotice(id)])
    {
      hide PhaseView, Consistent, Spec.SeatGone, G.GameInv;
      LoseSeat(id, Kicked);
      SendTo(id, Error(WasKicked));
      Broadcast(KickNotice(id));
    }

    // ---------------------------------------------------------------- published messages

    method TakePose(from: ClientId, p: PoseIn, now: nat) returns (err: Option<Err>)
      requires Consistent()
      modifies `nativeRelay, `coopSeated, `coopTimerStartedAt, `outbox
      ensures Consistent()
      ensures var d := Spec.Publish(old(View()), R.PoseOp(from, p, now));
              View() == d.room && outbox == old(outbox) + d.out && err == d.err
    {
      hide R.PublishPose, SimView;
      PhaseKind();
      if mode != Coop || !sessionActive {
        return None;
      }
      if coopAuthority == Some(Session.ServerSim) {
        return None;
      }
      PublishedDone(View(), RelayView(), R.PoseOp(from, p, now));
      err := SnakeDelta(from, p, now);
    }

    method TakeBoard(from: ClientId, b: BoardIn) returns (err: Option<Err>)
      requires Consistent()
      modifies `nativeRelay, `outbox
      ensures Consistent()
      ensures var d := Spec.Publish(old(View()), R.BoardOp(from, b));
              View() == d.room && outbox == old(outbox) + d.out && err == d.err
    {
      hide R.PublishBoard, SimView;
      PhaseKind();
      if mode != Coop || !sessionActive {
        return None;
      }
      if coopAuthority == Some(Session.ServerSim) {
        return None;
      }
      PublishedDone(View(), RelayView(), R.BoardOp(from, b));
      err := CollectablesDelta(from, b);
    }

    method TakeDeath(from: ClientId, b: DeathIn) returns (err: Option<Err>)
      requires Consistent()
      modifies `sessionActive, `coop, `coopAccumMs, `collectablesOwner, `coopAlive, `coopSeated, `coopTimerStartedAt,
               `coopSlots, `coopAuthority, `coopRunSettings, `nativeRelay, `clients, `outbox
      ensures Consistent()
      ensures var d := Spec.Publish(old(View()), R.DeathOp(from, b));
              View() == d.room && outbox == old(outbox) + d.out && err == d.err
    {
      hide Spec.RelayAct, PhaseView;
      PhaseKind();
      if mode != Coop || !sessionActive {
        return None;
      }
      if coopAuthority == Some(Session.ServerSim) {
        return None;
      }
      err := PlayerDied(from, b);
    }

    method TakeSpeed(from: ClientId, e: SpeedIn) returns (err: Option<Err>)
      requires Consistent()
      modifies `nativeRelay, `outbox
      ensures Consistent()
      ensures var d := Spec.ShiftSpeed(old(View()), from, e);
              View() == d.room && outbox == old(outbox) + d.out && err == d.err
    {
      hide R.PublishSpeed, SimView;
      PhaseKind();
      if RelayLive() {
        PublishedDone(View(), RelayView(), R.SpeedOp(from, e));
        err := SpeedTransition(from, e);
      } else if e.source.None? {
        return Some(BadSourceEventId);
      } else {
        err := RequireNativeSender(from, e.generation, e.eventSeq);
      }
    }

    // ---------------------------------------------------------------- replay

    method SendAll(to: ClientId, ms: seq<Msg>)
      modifies `outbox
      ensures outbox == old(outbox) + Spec.To(to, ms)
    {
      for i := 0 to |ms|
        invariant outbox == old(outbox) + Spec.To(to, ms[..i])
      {
        outbox := outbox + [Out(Some(to), ms[i])];
        assert Spec.To(to, ms[..i + 1]) == Spec.To(to, ms[..i]) + [Out(Some(to), ms[i])];
      }
      assert ms[..|ms|] == ms;
    }

    /** The stored figures in seat order. */
    method StoredFigures() returns (ms: seq<Msg>)
      requires RelayLive()
      ensures ms == R.FigureMsgs(RelayView(), |coopSlots|)
    {
      ms := [];
      var poses := nativeRelay.value.poses;
      for k := 0 to |coopSlots|
        invariant ms == R.FigureMsgs(RelayView(), k)
      {
        if coopSlots[k] in poses {
          var figure := poses[coopSlots[k]];
          ms := ms + [if figure.Corpse? then PlayerDead(figure) else Msg.SnakeDelta(figure)];
        }
      }
    }

    method ReplayRelay(to: ClientId)
      requires RelayLive()
      modifies `outbox
      ensures outbox == old(outbox) + Spec.To(to, R.Replay(RelayView()))
    {
      hide R.FigureMsgs;
      var state := nativeRelay.value;
      var ms := [SessionStart(R.MetaOf(RelayView()))];
      if state.board.Some? {
        ms := ms + [Msg.CollectablesDelta(state.board.value), BoardReady(coopGeneration, state.revision, collectablesOwner, state.modeKey)];
      }
      var figures := StoredFigures();
      ms := ms + figures;
      if coopTimerStartedAt.Some? {
        ms := ms + [TimerStart(Some(coopGeneration), coopTimerStartedAt.value)];
      }
      ms := ms + [Msg.SpeedTransition(coopGeneration, state.epoch, state.speed, None)];
      assert ms == R.Replay(RelayView());
      SendAll(to, ms);
    }

    method ReplaySim(to: ClientId)
      requires SimLive()
      modifies `outbox
      ensures outbox == old(outbox) + Spec.To(to, [SessionStart(Spec.SimMeta(SimView())), CoopState(M.FrameOf(SimView().game))]
                                                  + R.TimerMsgs(coopGeneration, coopTimerStartedAt))
    {
      hide M.FrameOf;
      var frame := Snapshot();
      var ms := [SessionStart(SimMetaOf()), CoopState(frame)];
      if coopTimerStartedAt.Some? {
        ms := ms + [TimerStart(Some(coopGeneration), coopTimerStartedAt.value)];
      }
      SendAll(to, ms);
    }

    /** Everything a client needs to rejoin the picture, in canonical order, then the roster. */
    method Resync(from: ClientId)
      requires Consistent()
      modifies `outbox
      ensures View() == old(View()) && Consistent()
      ensures outbox == old(outbox) + Spec.Resync(View(), from).out
    {
      hide R.Replay, M.FrameOf, Spec.SimMeta;
      ghost var s := View();
      ghost var was := outbox;
      PhaseKind();
      if mode == Coop && sessionActive {
        if RelayLive() {
          ReplayRelay(from);
        } else {
          ReplaySim(from);
        }
      }
      if mode == Race {
        SendTo(from, SettingsSync(settings));
      }
      assert outbox == was + Spec.To(from, Spec.ReplayMsgs(s));
      SendTo(from, RosterUpdate(mode, RosterView(), sessionActive, collectablesOwner));
      assert Spec.To(from, Spec.ReplayMsgs(s)) + Spec.To(from, [Spec.RosterMsg(s)]) == Spec.To(from, Spec.ReplayMsgs(s) + [Spec.RosterMsg(s)]);
    }

    // ---------------------------------------------------------------- the doors of the room

    /** One room tick. */
    method Tick(now: nat)
      requires Valid()
      modifies `sessionActive, `coop, `coopAccumMs, `collectablesOwner, `coopAlive, `coopSeated, `coopTimerStartedAt,
               `coopSlots, `coopAuthority, `coopRunSettings, `nativeRelay, `clients, `outbox, `attemptDeadline, `attemptExpired, `allowNewRuns, coop
      ensures Valid()
      ensures var d := Spec.Tick(old(View()), now); View() == d.room && outbox == old(outbox) + d.out
    {
      hide PhaseView, Consistent, Spec.RaceTick, Spec.SimAct, M.Tick, Inv.RoomOk, LeaveAllowed, JoinsApart, G.GameInv;
      Parts();
      PhaseKind();
      Inv.TickKeepsRoom(View(), now);
      if mode == Race {
        TickRace(now);
      } else if SimLive() {
        TickCoopSim();
      }
    }

    /** A connection is gone. */
    method ConnectionLost(id: ClientId)
      requires Valid()
      modifies `sessionActive, `coop, `coopAccumMs, `collectablesOwner, `coopAlive, `coopSeated, `coopTimerStartedAt,
               `coopSlots, `coopAuthority, `coopRunSettings, `nativeRelay, `clients, `outbox, `raceScores, `adminId, `attemptDeadline, coop
      ensures Valid()
      ensures View() == Spec.Leave(old(View()), id).0
      ensures outbox == old(outbox) + Spec.Leave(old(View()), id).1
    {
      hide View, Spec.Leave, Inv.RoomOk, LeaveAllowed, JoinsApart, Consistent;
      Parts();
      Inv.ApplyKeeps(View(), Spec.LeaveCmd(id));
      Leave(id);
    }

    /** Requests that touch no session. */
    method HandleLobby(from: ClientId, q: Spec.Request, now: nat, seed: bv64) returns (err: Option<Err>)
      requires Consistent() && ForLobby(q)
      modifies `durationMin, `raceGoal, `raceScores, `settings, `adminId, `clients, `outbox
      ensures Consistent()
      ensures var d := Spec.Perform(old(View()), from, q, now, seed);
              View() == d.room && outbox == old(outbox) + d.out && err == d.err
    {
      hide View, Consistent, Spec.SetDuration, Spec.SetRaceGoal, Spec.Ready, Spec.ColorClaim, Spec.SyncSettings, Spec.AdminTransfer;
      match q {
        case SetDurationReq(minutes) => err := SetDuration(from, minutes);
        case SetRaceGoalReq(goal) => err := SetRaceGoal(from, goal);
        case ReadyReq(ready) => err := MarkReady(from, ready);
        case ColorClaimReq(color) => err := ClaimColor(from, color);
        case SettingsSyncReq(payload) => err := SyncSettings(from, payload);
        case AdminTransferReq(target) => err := AdminTransfer(from, target);
        case PlaySyncReq =>
          PlayChangesNothing(View(), from);
          err := SyncPlay(from);
        case ResyncReq =>
          ResyncChangesNothing(View(), from);
          Resync(from);
          err := None;
        case ServerOwnedReq => err := Some(ServerOwnedMessage);
        case _ =>
      }
    }

    /** Requests of administrators that change roles, modes and sessions. */
    method HandleAdmin(from: ClientId, q: Spec.Request, now: nat, seed: bv64) returns (err: Option<Err>)
      requires Valid() && ForAdmin(q)
      modifies this, coop
      ensures Consistent()
      ensures var d := Spec.Perform(old(View()), from, q, now, seed);
              View() == d.room && outbox == old(outbox) + d.out && err == d.err
    {
      hide View, Valid, Consistent, Spec.SetRole, Spec.Kick, Spec.ModeChange, Spec.StartSession, Spec.EndSession, JoinsApart, Inv.RoomOk, LeaveAllowed;
      Parts();
      match q {
        case SetRoleReq(target, role) => err := SetRole(from, target, role);
        case KickReq(target) => err := Kick(from, target);
        case ModeChangeReq(next) => err := ChangeMode(from, next);
        case SessionStartReq(bundle, finishOngoing) => err := StartSession(from, bundle, finishOngoing, now, seed);
        case SessionEndReq => err := EndSession(from);
        case _ =>
      }
    }

    /** Requests of players in a session. */
    method HandlePlay(from: ClientId, q: Spec.Request, now: nat, seed: bv64) returns (err: Option<Err>)
      requires Valid() && !ForLobby(q) && !ForAdmin(q)
      modifies this, coop
      ensures Consistent()
      ensures var d := Spec.Perform(old(View()), from, q, now, seed);
              View() == d.room && outbox == old(outbox) + d.out && err == d.err
    {
      hide View, Valid, Consistent, Spec.Input, Spec.Pulse, Spec.Publish, Spec.ShiftSpeed, Spec.Goal, JoinsApart, Inv.RoomOk, LeaveAllowed;
      Parts();
      match q {
        case InputReq(dir) => err := SimInput(from, dir, now);
        case PulseReq(pulse) => err := ScorePulse(from, pulse);
        case PoseReq(pose) => err := TakePose(from, pose, now);
        case BoardReq(board) => err := TakeBoard(from, board);
        case DeathReq(death) => err := TakeDeath(from, death);
        case SpeedReq(speed) => err := TakeSpeed(from, speed);
        case GoalReq(claim) => err := CoopGoal(from, claim);
        case _ =>
      }
    }

    method Route(from: ClientId, q: Spec.Request, now: nat, seed: bv64) returns (err: Option<Err>)
      requires Valid()
      modifies this, coop
      ensures Consistent()
      ensures var d := Spec.Perform(old(View()), from, q, now, seed);
              View() == d.room && outbox == old(outbox) + d.out && err == d.err
    {
      hide View, Valid, Consistent, Spec.Perform, JoinsApart, Inv.RoomOk, LeaveAllowed;
      Parts();
      if ForLobby(q) {
        err := HandleLobby(from, q, now, seed);
      } else if ForAdmin(q) {
        err := HandleAdmin(from, q, now, seed);
      } else {
        err := HandlePlay(from, q, now, seed);
      }
    }

    /** One message of a client; an error goes back to the sender alone. */
    method Handle(from: ClientId, q: Spec.Request, now: nat, seed: bv64)
      requires Valid()
      modifies this, coop
      ensures Valid()
      ensures var d := Spec.Apply(old(View()), Spec.Handle(from, q, now, seed));
              View() == d.room && outbox == old(outbox) + d.out
    {
      hide View, Consistent, Spec.Perform, JoinsApart, Inv.RoomOk, LeaveAllowed;
      Inv.ApplyKeeps(View(), Spec.Handle(from, q, now, seed));
      var err := Route(from, q, now, seed);
      Answer(from, err);
    }

    method Answer(to: ClientId, err: Option<Err>)
      modifies `outbox
      ensures View() == old(View()) && Consistent() == old(Consistent())
      ensures outbox == old(outbox) + if err.Some? then Spec.To(to, [Error(err.value)]) else []
    {
      if err.Some? {
        SendTo(to, Error(err.value));
      }
    }
  }

  lemma PoseHasNumbers(r: R.Relay, here: set<ClientId>, from: ClientId, p: PoseIn)
    requires R.CheckSender(r, here, from, p.generation, p.eventSeq).None? && R.CheckPoseOrder(r, from, p).None?
    ensures p.eventSeq.Some? && p.poseSeq.Some?
  {
  }

  lemma SenderHasNumber(r: R.Relay, here: set<ClientId>, from: ClientId, generation: Option<nat>, eventSeq: Option<nat>)
    requires R.CheckSender(r, here, from, generation, eventSeq).None?
    ensures eventSeq.Some?
  {
  }

  lemma FirstBoardHasKey(r: R.Relay, from: ClientId, b: BoardIn)
    requires R.CheckFirstBoard(r, from, b).None?
    ensures b.modeKey.Key? && b.baseRevision == Some(0)
  {
  }

  lemma NextBoardHasBase(r: R.Relay, from: ClientId, b: BoardIn)
    requires R.CheckNextBoard(r, from, b).None?
    ensures b.baseRevision.Some?
  {
  }

  /** The relay after a death and, where needed, the handoff; and what is told of it. */
  predicate FallsTo(r: R.Relay, here: set<ClientId>, c: ClientId, reason: Reason, remains: Remains, now: R.Relay, out: seq<Msg>) {
    var fallen := R.Fall(r, c, reason, remains);
    var dead := PlayerDead(Corpse(c, r.generation, reason, remains));
    if R.NeedsHandoff(fallen, c) then now == R.HandOff(fallen, here) && out == [dead] + R.InitRequest(now)
    else now == fallen && out == [dead]
  }

  /** Marking a seat dead is falling, handing the board over where needed, and the closing check. */
  lemma DeathEnds(s: Spec.Room, r: R.Relay, here: set<ClientId>, c: ClientId, reason: Reason, remains: Remains, now: R.Relay, out: seq<Msg>)
    requires c in r.slots && R.Alive(r.alive, c)
    requires FallsTo(r, here, c, reason, remains, now, out)
    ensures var d := Spec.RelayDone(s, R.MarkDead(r, here, c, reason, remains));
            var (next, closing) := Spec.MaybeEndAllDead(s.(phase := Spec.Relayed(now)));
            d.room == next && d.out == Spec.All(out) + closing
  {
    hide R.AllSeatsDead, R.Fall, R.NextInitializer, NobodyReady;
  }

  lemma NotMarked(s: Spec.Room, r: R.Relay, here: set<ClientId>, c: ClientId, reason: Reason, remains: Remains)
    requires s.phase == Spec.Relayed(r) && (c !in r.slots || !R.Alive(r.alive, c))
    ensures var d := Spec.RelayDone(s, R.MarkDead(r, here, c, reason, remains)); d.room == s && d.out == []
  {
  }

  /** A death report that is ignored or refused at the door, seen from the room. */
  lemma DeathDone(s: Spec.Room, r: R.Relay, here: set<ClientId>, from: ClientId, d: DeathIn)
    requires s.phase == Spec.Relayed(r) && here == s.roster.clients.Keys
    ensures var done := Spec.RelayAct(s, R.DeathOp(from, d));
            var sender := R.CheckSender(r, here, from, d.generation, d.eventSeq);
            if from in r.slots && !R.Alive(r.alive, from) then done == Spec.Done(s, [], None)
            else if sender.Some? then done == Spec.Done(s, [], sender)
            else d.eventSeq.Some? && done == Spec.RelayDone(s, R.ReportDeath(r, here, from, d))
  {
    hide R.ReportDeath;
  }

  /** A report with refused bodies, or a seat marked dead. */
  lemma ReportDone(s: Spec.Room, r: R.Relay, here: set<ClientId>, from: ClientId, d: DeathIn)
    requires d.eventSeq.Some?
    ensures var done := Spec.RelayDone(s, R.ReportDeath(r, here, from, d));
            var seated := r.(seated := r.seated + {from});
            if R.CheckDeath(r, d).Some? then done == Spec.Done(s.(phase := Spec.Relayed(seated)), [], R.CheckDeath(r, d))
            else
              done.err.None? &&
              done == Spec.RelayDone(s.(phase := Spec.Relayed(seated)),
                                     R.MarkDead(seated, here, from, if d.reason.Some? then Custom(d.reason.value) else OwnReport,
                                                Report(d.eventSeq.value, d.body, d.body2, d.look)))
  {
    hide R.CheckDeath;
  }

  lemma SameDeathCheck(r: R.Relay, from: ClientId, d: DeathIn)
    ensures R.CheckDeath(r.(seated := r.seated + {from}), d) == R.CheckDeath(r, d)
  {
  }

  lemma SimIsSound(s: Spec.Room)
    requires Inv.RoomOk(s) && s.phase.Simulated?
    ensures G.GameInv(s.phase.sim.game)
  {
    hide RosterOk, G.GameInv, M.SeatsMatch, M.AliveMatches, M.ClockOk;
  }

  lemma SimInputDone(s: Spec.Room, from: ClientId, dir: Dir, now: nat)
    requires s.phase.Simulated?
    ensures var o := M.Input(s.phase.sim, from, dir, now);
            Spec.SimAct(s, o) == Spec.Done(s.(phase := Spec.Simulated(o.sim)), Spec.All(o.out), None)
  {
    hide S.SetInput;
  }

  lemma SimFallDone(s: Spec.Room, sim: M.Sim, c: ClientId, cause: Reason)
    requires s.phase == Spec.Simulated(sim) && c in sim.slots && R.Alive(sim.alive, c)
    ensures var next := sim.(alive := sim.alive[c := false], game := S.Kill(sim.game, c));
            var d := Spec.SimAct(s, M.MarkDead(sim, c, cause));
            var (room, closing) := Spec.MaybeEndAllDead(s.(phase := Spec.Simulated(next)));
            d.room == room && d.out == Spec.All([SimDead(c, cause), CoopState(M.FrameOf(next.game))]) + closing
  {
    hide S.Kill, M.FrameOf, R.AllSeatsDead, NobodyReady;
  }

  /** When catching up stops: nothing left to pay with, or a game that is over or standing still. */
  lemma CatchupCases(s: M.Sim, interval: nat, stepped: bool)
    requires interval > 0
    ensures var o := M.Catchup(s, interval, stepped);
            var told := if stepped then [CoopState(M.FrameOf(s.game))] else [];
            if s.accum < interval then o == M.Outcome(s, told, None)
            else
              var paid := s.(accum := s.accum - interval);
              && (s.game.ended ==> o == M.Outcome(paid, [CoopState(M.FrameOf(s.game))], Some(M.EndOf(s.game))))
              && (!s.game.ended && !s.game.running ==> o == M.Outcome(paid, told, None))
  {
    hide S.Step, M.FrameOf, M.EndOf, M.AliveFrom;
  }

  /** An outcome of the simulation, seen from the room in any phase. */
  lemma SimActOverAt(s: Spec.Room, o: M.Outcome, p: Spec.Phase)
    ensures var d := Spec.SimAct(s, o);
            if o.over.Some? then
              var (ended, out) := Spec.EndCoop(s.(phase := p), o.over.value);
              d.room == ended && d.out == Spec.All(o.out) + out
            else d == Spec.Done(s.(phase := Spec.Simulated(o.sim)), Spec.All(o.out), None)
  {
    hide NobodyReady;
  }

  lemma OldestIsAdmin(cs: map<ClientId, Client>, oldest: Option<ClientId>)
    requires JoinsApart(cs)
    requires if oldest.None? then cs.Keys == {} else IsOldest(cs, oldest.value)
    ensures oldest == NextAdmin(cs)
  {
    NonEmptyKeys(cs);
  }

  lemma SeatOrderStarts(cs: map<ClientId, Client>, ids: set<ClientId>, first: ClientId)
    requires JoinsApart(cs) && ids <= cs.Keys && IsFirst(cs, ids, first)
    ensures SeatOrder(cs, ids) == [first] + SeatOrder(cs, ids - {first})
  {
    FirstIsUnique(cs, ids, SeatOrder(cs, ids)[0], first);
  }

  lemma AscendingStarts(ids: set<ClientId>, least: ClientId)
    requires IsLeast(ids, least)
    ensures Ascending(ids) == [least] + Ascending(ids - {least})
  {
    assert IsLeast(ids, Ascending(ids)[0]);
  }

  lemma AscendingListsSet(ids: set<ClientId>)
    ensures forall id :: id in Ascending(ids) <==> id in ids
  {
    AscendingLists(ids);
    assert forall id :: id in Ascending(ids) <==> id in SetOf(Ascending(ids));
  }

  lemma KeepAll(cs: map<ClientId, Client>, order: seq<ClientId>)
    requires JoinsApart(cs) && SetOf(order) == Players(cs) && order == SeatOrder(cs, Players(cs))
    ensures KeepOnly(cs, SetOf(order)) == cs
    ensures |order| <= MAX_COOP_PLAYERS ==> Kept(cs) == SetOf(order)
    ensures |order| > MAX_COOP_PLAYERS ==> Kept(cs) == SetOf(order[..MAX_COOP_PLAYERS])
  {
  }

  lemma KeepOneLess(cs: map<ClientId, Client>, order: seq<ClientId>, k: nat)
    requires NoDup(order) && SetOf(order) == Players(cs) && k < |order|
    ensures order[k] in KeepOnly(cs, SetOf(order[..k + 1]))
    ensures KeepOnly(cs, SetOf(order[..k])) ==
            KeepOnly(cs, SetOf(order[..k + 1]))[order[k] := Lowered(KeepOnly(cs, SetOf(order[..k + 1]))[order[k]])]
  {
    var id := order[k];
    assert id in SetOf(order);
    assert order[..k + 1] == order[..k] + [id];
    assert id !in order[..k];
    assert forall x :: x in order[..k + 1] <==> x in order[..k] || x == id;
  }

  /** The room after a change of mode. */
  ghost function ModeTarget(s: Spec.Room, mode: Mode): Spec.Room {
    var aborted := Spec.AbortRun(s);
    var switched := aborted.(mode := mode, attempt := aborted.attempt.(scores := map[], expired := false));
    if mode == Coop && JoinsApart(aborted.roster.clients) then switched.(roster := Trimmed(aborted.roster)) else switched
  }

  lemma AbortedLobby(s: Spec.Room)
    requires JoinsApart(s.roster.clients)
    ensures JoinsApart(Spec.AbortRun(s).roster.clients) && Spec.AbortRun(s).phase.Lobby?
  {
  }

  lemma ModeChangeIs(s: Spec.Room, from: ClientId, mode: Mode)
    requires Spec.IsAdmin(s, from)
    ensures var next := ModeTarget(s, mode);
            Spec.ModeChange(s, from, Some(mode)) ==
            Spec.Accept(next, Spec.All([SessionEnd(EndReason.Aborted), ModeChanged(mode), Spec.RosterMsg(next)]))
  {
    hide Trimmed;
  }

  /** The simulation a co-op start opens. */
  ghost function SimOf(generation: nat, ro: Roster, settings: Settings, seed: bv64): M.Sim {
    var slots := Spec.FirstSeats(ro.clients);
    M.Sim(generation, slots, settings, Spec.FirstOwner(ro.admin, slots),
          S.NewGame(Spec.SeatsOf(ro.clients, slots), SimConfig(settings, seed)), 0, R.AllAlive(slots), None)
  }

  /** The relay a co-op start opens. */
  ghost function RelayOf(generation: nat, ro: Roster, settings: Settings): R.Relay {
    var slots := Spec.FirstSeats(ro.clients);
    R.NewRelay(generation, slots, settings, Spec.FirstOwner(ro.admin, slots))
  }

  lemma RelayStartIs(s: Spec.Room, seed: bv64)
    requires s.relayEnabled
    ensures var relay := RelayOf(s.generation + 1, s.roster, s.settings);
            var next := s.(generation := s.generation + 1, phase := Spec.Relayed(relay),
                           attempt := s.attempt.(expired := false, allowNew := true, scores := map[], deadline := None));
            Spec.StartCoop(s, seed) == Spec.Accept(next, Spec.All(R.Opening(relay) + [Spec.RosterMsg(next)]))
  {
    hide Spec.FirstSeats, Spec.FirstOwner, R.Opening, R.NewRelay;
  }

  lemma SimStartIs(s: Spec.Room, seed: bv64)
    requires !s.relayEnabled
    ensures var sim := SimOf(s.generation + 1, s.roster, s.settings, seed);
            var next := s.(generation := s.generation + 1, phase := Spec.Simulated(sim),
                           attempt := s.attempt.(expired := false, allowNew := true, scores := map[], deadline := None));
            Spec.StartCoop(s, seed) ==
            Spec.Accept(next, Spec.All([SessionStart(Spec.SimMeta(sim)), PlaySync, CoopState(M.FrameOf(sim.game)), Spec.RosterMsg(next)]))
  {
    hide Spec.FirstSeats, Spec.FirstOwner, S.NewGame, M.FrameOf, SimConfig;
  }

  lemma FewSeats(cs: map<ClientId, Client>)
    ensures |Spec.FirstSeats(cs)| <= MAX_COOP_PLAYERS
  {
    hide Spec.Seating;
  }

  lemma StartDone(s: Spec.Room, from: ClientId, payload: Option<Settings>, finishOngoing: Option<bool>, now: nat, seed: bv64, staged: Spec.Room)
    requires Spec.IsAdmin(s, from) && AllPlayersReady(s.roster.clients) && (s.mode == Coop ==> s.phase.Lobby?)
    requires staged == s.(settings := payload.GetOr(s.settings))
    ensures Spec.StartSession(s, from, payload, finishOngoing, now, seed) ==
            if s.mode == Race then Spec.StartRace(staged, finishOngoing, now) else Spec.StartCoop(staged, seed)
    ensures (if s.mode == Race then Spec.StartRace(staged, finishOngoing, now) else Spec.StartCoop(staged, seed)).err.None?
  {
    hide Spec.FirstSeats, Spec.FirstOwner, S.NewGame, M.FrameOf, R.Opening, SimConfig, AllPlayersReady;
  }

  lemma GoneDone(s: Spec.Room, r: R.Relay, c: ClientId, reason: Reason)
    requires s.phase == Spec.Relayed(r)
    ensures Spec.RelayAct(s, R.GoneOp(c, reason)) ==
            Spec.RelayDone(s, R.MarkDead(r, s.roster.clients.Keys, c, reason, R.RemainsOf(r, c)))
  {
    hide R.MarkDead;
  }

  /** The simulation without a client, and what is told of it. */
  ghost function SimWithout(sim: M.Sim, ro: Roster, id: ClientId): (M.Sim, seq<Msg>) {
    var fallen := M.MarkDead(sim, id, Disconnect);
    var next := if R.Alive(sim.alive, id) then fallen.sim else M.Forget(sim, id);
    (if next.owner == Some(id) then next.(owner := Spec.PickOwner(ro)) else next, if R.Alive(sim.alive, id) then fallen.out else [])
  }

  lemma VacatedIs(s: Spec.Room, id: ClientId)
    ensures var left := Inv.Vacated(s, id);
            && left == s.(phase := left.phase, roster := left.roster, attempt := s.attempt.(scores := s.attempt.scores - {id}))
            && left.roster == Departed(s.roster, id)
            && (if s.phase.Simulated?
                then var (sim, msgs) := SimWithout(s.phase.sim, s.roster.(clients := s.roster.clients - {id}), id);
                     left.phase == Spec.Simulated(sim) && Spec.Unseated(s, id).1 == msgs
                else left.phase == s.phase && Spec.Unseated(s, id).1 == [])
  {
    hide Spec.PickOwner, M.MarkDead, NextAdmin;
  }

  lemma DropApart(cs: map<ClientId, Client>, id: ClientId)
    ensures JoinsApart(cs) ==> JoinsApart(cs - {id})
  {
  }

  lemma LeaveIs(s: Spec.Room, id: ClientId)
    requires id in s.roster.clients
    ensures var gone := Inv.Released(s, id);
            var left := Inv.Vacated(gone.room, id);
            Spec.Leave(s, id) ==
            (Spec.AfterLeave(left).0, gone.out + Spec.All(Spec.Unseated(gone.room, id).1) + Spec.AfterLeave(left).1)
  {
    hide Spec.RelayAct, Spec.Unseated, Departed, Spec.AfterLeave;
  }

  /** A client without a frozen seat is nothing to the relay. */
  lemma SeatlessGone(s: Spec.Room, id: ClientId)
    ensures var d := Inv.Released(s, id);
            if s.phase.Relayed? && id in s.phase.relay.slots then d == Spec.RelayAct(s, R.GoneOp(id, Disconnect))
            else d.room == s && d.out == []
  {
  }

  lemma LeaveFacts(s: Spec.Room, id: ClientId, players: set<ClientId>)
    requires RosterOk(s.roster, s.mode)
    requires if s.phase.Simulated? then Inv.CoopOk(s, players) else Inv.CoopOk(s, players - {id})
    ensures JoinsApart(s.roster.clients)
    ensures s.phase.Simulated? ==> G.GameInv(s.phase.sim.game) && forall c :: c in s.phase.sim.alive ==> c in s.phase.sim.slots
    ensures s.phase.Relayed? && id !in s.phase.relay.slots ==> id !in s.phase.relay.alive && s.phase.relay.owner != Some(id)
  {
    RosterInv.OrdersGiveJoins(s.roster);
    hide OrdersOk, G.GameInv, ColorsLocked, Players, M.SeatsMatch, M.ClockOk, RI.FiguresOk, RI.JournalsOk;
  }

  ghost predicate LeaveAllowed(s: Spec.Room) {
    && RosterOk(s.roster, s.mode) && Inv.CoopOk(s, Players(s.roster.clients)) && Inv.GraceHeld(s)
    && (s.phase.Relayed? ==> Inv.RoomOk(s))
  }

  lemma RoomAllowsLeave(s: Spec.Room)
    requires Inv.RoomOk(s)
    ensures LeaveAllowed(s) && JoinsApart(s.roster.clients)
  {
    Inv.RoomParts(s);
    RosterInv.OrdersGiveJoins(s.roster);
    hide Inv.RoomOk, OrdersOk, ColorsLocked, Inv.CoopOk;
  }

  lemma SimIsSoundIf(s: Spec.Room)
    requires Inv.RoomOk(s)
    ensures s.phase.Simulated? ==> G.GameInv(s.phase.sim.game)
  {
    hide Inv.RoomOk, G.GameInv;
    if s.phase.Simulated? {
      SimIsSound(s);
    }
  }

  lemma DemotionKeeps(s: Spec.Room, id: ClientId)
    requires Inv.RoomOk(s) && id in s.roster.clients
    ensures id in Spec.SeatGone(s, id, Demotion).room.roster.clients
  {
    Inv.SeatGoneKeeps(s, id, Demotion);
    hide Spec.SeatGone, RosterOk, Players, Inv.CoopOk;
  }

  /** A seat taken away leaves the room fit for the departure to follow. */
  lemma KickLeaves(s: Spec.Room, id: ClientId)
    requires Inv.RoomOk(s)
    ensures LeaveAllowed(Spec.SeatGone(s, id, Kicked).room)
  {
    var gone := Spec.SeatGone(s, id, Kicked).room;
    var players := Players(s.roster.clients);
    Inv.SeatGoneKeeps(s, id, Kicked);
    hide Spec.SeatGone, RosterOk, Players, Inv.CoopOk;
    Inv.MorePlayers(gone, players - {id}, players);
  }

  /** Poses, boards and speed events never end a session. */
  lemma PublishedDone(s: Spec.Room, r: R.Relay, op: R.Op)
    requires s.phase == Spec.Relayed(r) && (op.PoseOp? || op.BoardOp? || op.SpeedOp?)
    ensures var o := R.Perform(r, s.roster.clients.Keys, op);
            Spec.RelayAct(s, op) == Spec.Done(s.(phase := Spec.Relayed(o.relay)), Spec.All(o.out), o.err)
  {
    hide R.CheckPose, R.CheckTurns, R.CheckSender, R.CheckPoseOrder, R.CheckFirstBoard, R.CheckNextBoard, R.NextSpeed,
         R.StorePose, R.StoreBoard, R.StoreSpeed;
  }

  predicate ForLobby(q: Spec.Request) {
    || q.SetDurationReq? || q.SetRaceGoalReq? || q.ReadyReq? || q.ColorClaimReq? || q.SettingsSyncReq?
    || q.AdminTransferReq? || q.PlaySyncReq? || q.ResyncReq? || q.ServerOwnedReq?
  }

  predicate ForAdmin(q: Spec.Request) {
    q.SetRoleReq? || q.KickReq? || q.ModeChangeReq? || q.SessionStartReq? || q.SessionEndReq?
  }

  lemma PlayChangesNothing(s: Spec.Room, from: ClientId)
    ensures Spec.SyncPlay(s, from).room == s
  {
  }

  lemma ResyncChangesNothing(s: Spec.Room, from: ClientId)
    ensures Spec.Resync(s, from).room == s && Spec.Resync(s, from).err.None?
  {
    hide Spec.ReplayMsgs;
  }
}
