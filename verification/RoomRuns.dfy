/** Whole runs of a room: any sequence of arrivals, departures, requests and ticks. */
module RoomRuns {
  import opened Prelude
  import opened Grid
  import opened RoomTypes
  import opened RosterSpec
  import opened RosterInv
  import opened RoomSpec
  import opened RoomInv
  import opened RoomTrace
  import opened RelayView
  import opened RelayTrace
  import C = Colors
  import R = Relay
  import RI = RelayInv
  import M = SimRun
  import S = CoopSpec
  import B = CoopBoard
  import P = CoopPath
  import G = CoopRuns
  import T = Turns

  /** The broadcasts of a run from a new room. */
  ghost function Heralded(s: Room, cs: seq<Cmd>): seq<Msg> {
    Broadcasts(Sent(s, cs))
  }

  // ---------------------------------------------------------------- the roster of every room

  /** In every reachable room: there is an admin exactly when there is anybody, and the admin is
      present; at most thirty are connected; the players fit the cap of the current mode; in co-op
      the ready players hold claimable and pairwise distinct colours. */
  lemma EveryRoster(relayEnabled: bool, settings: Settings, cs: seq<Cmd>)
    requires EnabledRun(NewRoom(relayEnabled, settings), cs)
    ensures var s := Run(NewRoom(relayEnabled, settings), cs);
            var clients := s.roster.clients;
            && (s.roster.admin.Some? <==> clients != map[])
            && (s.roster.admin.Some? ==> s.roster.admin.value in clients)
            && |clients| <= 30
            && |Players(clients)| <= (if s.mode == Race then 9 else 4)
            && (s.mode == Coop ==>
                  && (forall a :: a in ReadyPlayers(clients) ==> clients[a].color.Some? && C.Claimable(clients[a].color.value))
                  && (forall a, b :: a in ReadyPlayers(clients) && b in ReadyPlayers(clients) && a != b ==> clients[a].color != clients[b].color))
  {
    NewRoomOk(relayEnabled, settings);
    RunKeeps(NewRoom(relayEnabled, settings), cs);
    hide OrdersOk, C.Claimable, Run, EnabledRun;
  }

  /** In every reachable room a race past its time is open only while its grace period is on and
      some current player is still running; a player without a pulse counts as running. */
  lemma EveryGrace(relayEnabled: bool, settings: Settings, cs: seq<Cmd>)
    requires EnabledRun(NewRoom(relayEnabled, settings), cs)
    ensures var s := Run(NewRoom(relayEnabled, settings), cs);
            s.phase.Racing? && s.attempt.expired ==>
              && s.attempt.finishOngoing
              && exists id :: id in s.roster.clients && s.roster.clients[id].role == Player
                              && (id in s.attempt.scores ==> s.attempt.scores[id].alive)
  {
    NewRoomOk(relayEnabled, settings);
    RunKeeps(NewRoom(relayEnabled, settings), cs);
    hide RosterOk, CoopOk, Run, EnabledRun;
  }

  // ---------------------------------------------------------------- the board handshake

  /** In every reachable native session some frozen seat is alive, every living seat is a
      connected player, and until the board is ready such a seat is asked to set it up. */
  lemma EveryHandshake(relayEnabled: bool, settings: Settings, cs: seq<Cmd>)
    requires EnabledRun(NewRoom(relayEnabled, settings), cs)
    ensures var s := Run(NewRoom(relayEnabled, settings), cs);
            s.phase.Relayed? ==>
              var r := s.phase.relay;
              && (exists id :: id in r.slots && R.Alive(r.alive, id))
              && (forall id :: R.Alive(r.alive, id) ==> id in s.roster.clients && s.roster.clients[id].role == Player)
              && (!r.native.ready ==>
                    && r.native.initializer.Some? && r.owner == r.native.initializer
                    && r.native.initializer.value in r.slots && R.Alive(r.alive, r.native.initializer.value))
              && NoDup(r.slots) && 1 <= |r.slots| <= 4
              && (forall id :: id in r.native.journals ==> T.JournalOk(r.native.journals[id]))
              && r.native.epoch == |r.native.sources|
  {
    NewRoomOk(relayEnabled, settings);
    RunKeeps(NewRoom(relayEnabled, settings), cs);
    hide RosterOk, Run, EnabledRun, RI.FiguresOk, T.JournalOk;
  }

  /** In every reachable simulated session the board is partitioned, the paths are unbroken, the
      game has not ended, no step precedes the first input, and a seat counts as alive exactly
      when its snake is. */
  lemma EverySimulation(relayEnabled: bool, settings: Settings, cs: seq<Cmd>)
    requires EnabledRun(NewRoom(relayEnabled, settings), cs)
    ensures var s := Run(NewRoom(relayEnabled, settings), cs);
            s.phase.Simulated? ==>
              var sim := s.phase.sim;
              && B.BoardInv(sim.game) && P.PathInv(sim.game)
              && sim.game.running && !sim.game.ended && sim.accum < M.Interval(sim)
              && (sim.timer.None? ==> sim.game.tick == 0 && sim.accum == 0)
              && |sim.game.snakes| == |sim.slots| && NoDup(sim.slots)
              && (forall i :: 0 <= i < |sim.slots| ==>
                    && sim.game.snakes[i].client == sim.slots[i]
                    && (R.Alive(sim.alive, sim.slots[i]) <==> sim.game.snakes[i].alive)
                    && (sim.game.snakes[i].alive ==> sim.slots[i] in s.roster.clients && s.roster.clients[sim.slots[i]].role == Player))
  {
    NewRoomOk(relayEnabled, settings);
    RunKeeps(NewRoom(relayEnabled, settings), cs);
    hide RosterOk, Run, EnabledRun, B.BoardInv, P.PathInv, S.SpeedInterval;
  }

  // ---------------------------------------------------------------- broadcasts

  lemma {:induction false} TraceOverRun(s: Room, cs: seq<Cmd>)
    requires RoomOk(s) && EnabledRun(s, cs) && RoomAgrees(SILENCE, s)
    ensures LawfulTrace(SILENCE, Heralded(s, cs))
    ensures RoomAgrees(ObserveAll(SILENCE, Heralded(s, cs)), Run(s, cs))
    decreases |cs|
  {
    hide RoomOk, Apply, Enabled, RoomAgrees, LawfulTrace, ObserveAll, Broadcasts;
    if cs == [] {
      SilenceIs();
      assert Heralded(s, cs) == [] by { NothingBroadcast(); }
    } else {
      var front := cs[..|cs| - 1];
      TraceOverRun(s, front);
      var before := Run(s, front);
      RunKeeps(s, front);
      var d := Apply(before, Last(cs));
      var m := ObserveAll(SILENCE, Heralded(s, front));
      ApplyTold(m, before, Last(cs));
      BroadcastsMore(Sent(s, front), d.out);
      TraceMore(SILENCE, Heralded(s, front), Broadcasts(d.out));
    }
  }

  lemma SilenceIs()
    ensures LawfulTrace(SILENCE, []) && ObserveAll(SILENCE, []) == SILENCE
  {
  }

  lemma NothingBroadcast()
    ensures Broadcasts([]) == []
  {
  }

  /** The broadcasts of every run are lawful. */
  lemma EveryTraceIsLawful(relayEnabled: bool, settings: Settings, cs: seq<Cmd>)
    requires EnabledRun(NewRoom(relayEnabled, settings), cs)
    ensures LawfulTrace(SILENCE, Heralded(NewRoom(relayEnabled, settings), cs))
  {
    NewRoomOk(relayEnabled, settings);
    hide RoomOk, EnabledRun;
    TraceOverRun(NewRoom(relayEnabled, settings), cs);
  }

  /** Any two broadcasts of one generation, in any run, stand in order: client events and pose
      numbers of a sender rise, move numbers never fall, a later board builds on the revision of
      an earlier one, the dead neither move nor die again, and the board opens and the timer
      starts at most once. Boards are numbered 1, 2, 3, ..., and neither does a pose move nor the
      timer of a relayed generation start before its board is ready. */
  lemma TraceSafety(relayEnabled: bool, settings: Settings, cs: seq<Cmd>, i: nat, j: nat)
    requires EnabledRun(NewRoom(relayEnabled, settings), cs)
    requires i < j < |Heralded(NewRoom(relayEnabled, settings), cs)|
    ensures var xs := Heralded(NewRoom(relayEnabled, settings), cs);
            && (GenerationOf(xs[i]).Some? && GenerationOf(xs[i]) == GenerationOf(xs[j]) ==> InOrder(xs[i], xs[j]))
            && (xs[j].CollectablesDelta? ==>
                  && xs[j].board.baseRevision == BoardsIn(xs[..j], xs[j].board.generation)
                  && xs[j].board.revision == xs[j].board.baseRevision + 1)
            && (xs[j].SnakeDelta? && xs[j].figure.Live? && xs[j].figure.pose.moved ==>
                  OpenedIn(xs[..j], xs[j].figure.pose.generation))
            && (xs[j].TimerStart? && xs[j].tag.Some? ==> OpenedIn(xs[..j], xs[j].tag.value))
  {
    var xs := Heralded(NewRoom(relayEnabled, settings), cs);
    EveryTraceIsLawful(relayEnabled, settings, cs);
    hide Heralded, EnabledRun, InOrder, OpenedIn, BoardsIn, LawfulTrace;
    BoardsAreNumbered(xs, j);
    if GenerationOf(xs[i]).Some? && GenerationOf(xs[i]) == GenerationOf(xs[j]) {
      TraceIsInOrder(xs, i, j);
    }
  }

  // ---------------------------------------------------------------- replay equals history

  lemma OnlyStartsEnter(x: Msg)
    ensures Hear(Offline, x).Online? ==> x.SessionStart?
    ensures x.SessionStart? ==> forall v :: Hear(v, x) == Enter(x.meta)
  {
  }

  /** Broadcasts that take an offline client into a session take every client to the same picture. */
  lemma {:induction false} StartIsForAll(v: View, ms: seq<Msg>)
    requires HearAll(Offline, ms).Online?
    ensures HearAll(v, ms) == HearAll(Offline, ms)
    decreases |ms|
  {
    hide Hear;
    var front := ms[..|ms| - 1];
    OnlyStartsEnter(Last(ms));
    if HearAll(Offline, front).Online? {
      StartIsForAll(v, front);
    } else {
      assert HearAll(Offline, front) == Offline;
    }
  }

  lemma {:induction false} HistoryOverRun(s: Room, cs: seq<Cmd>)
    requires RoomOk(s) && EnabledRun(s, cs) && PictureOf(s) == Offline
    ensures PictureOf(Run(s, cs)).Online? ==> HearAll(Offline, Heralded(s, cs)) == PictureOf(Run(s, cs))
    decreases |cs|
  {
    hide RoomOk, Apply, Enabled, HearAll, Broadcasts, Obeyed, Picture, SimPicture;
    if cs != [] {
      var front := cs[..|cs| - 1];
      HistoryOverRun(s, front);
      var before := Run(s, front);
      RunKeeps(s, front);
      var d := Apply(before, Last(cs));
      ApplyTold(SILENCE, before, Last(cs));
      BroadcastsMore(Sent(s, front), d.out);
      HearMore(Offline, Heralded(s, front), Broadcasts(d.out));
      if PictureOf(d.room).Online? && PictureOf(before) == Offline {
        StartIsForAll(HearAll(Offline, Heralded(s, front)), Broadcasts(d.out));
      }
    }
  }

  lemma SimReplayHeard(v: View, sim: M.Sim)
    ensures HearAll(v, [SessionStart(SimMeta(sim)), CoopState(M.FrameOf(sim.game))] + R.TimerMsgs(sim.generation, sim.timer)) == SimPicture(sim)
  {
    hide M.FrameOf, HearAll;
    var start, frame := SessionStart(SimMeta(sim)), CoopState(M.FrameOf(sim.game));
    HearTwo(v, start, frame);
    HearMore(v, [start, frame], R.TimerMsgs(sim.generation, sim.timer));
    HearNothing(HearAll(v, [start, frame]));
    if sim.timer.Some? {
      HearOne(HearAll(v, [start, frame]), TimerStart(Some(sim.generation), sim.timer.value));
    }
  }

  lemma ResyncHeard(v: View, s: Room, from: ClientId)
    requires RoomOk(s) && PictureOf(s).Online?
    ensures HearAll(v, DirectedTo(from, Resync(s, from).out)) == PictureOf(s)
  {
    hide RoomOk, HearAll, R.Replay, Resync, M.FrameOf, DirectedTo, ReplayMsgs, PictureOf;
    ResyncTold(SILENCE, s, from);
    ReplaySeen(v, s);
    HearMore(v, ReplayMsgs(s), [RosterMsg(s)]);
    RosterSeen(s);
  }

  lemma ReplaySeen(v: View, s: Room)
    requires RoomOk(s) && PictureOf(s).Online?
    ensures HearAll(v, ReplayMsgs(s)) == PictureOf(s)
  {
    hide HearAll, R.Replay, M.FrameOf;
    if s.phase.Relayed? {
      assert RI.RelayOk(s.phase.relay, Players(s.roster.clients)) by { hide RosterOk; }
      hide RoomOk;
      ReplayHeard(v, s.phase.relay, Players(s.roster.clients));
    } else {
      hide RoomOk;
      SimReplayHeard(v, s.phase.sim);
    }
  }

  lemma RosterSeen(s: Room)
    requires PictureOf(s).Online?
    ensures HearAll(PictureOf(s), [RosterMsg(s)]) == PictureOf(s)
  {
    hide HearAll, M.FrameOf;
    HearOne(PictureOf(s), RosterMsg(s));
  }

  /** After any run that leaves a co-op session live, a client that has heard every broadcast and
      a client that asks for a replay, whatever it believed before, see the same picture: the one
      the room's own state calls for. */
  lemma ReplayEqualsHistory(relayEnabled: bool, settings: Settings, cs: seq<Cmd>, v: View, from: ClientId)
    requires EnabledRun(NewRoom(relayEnabled, settings), cs)
    requires PictureOf(Run(NewRoom(relayEnabled, settings), cs)).Online?
    ensures var s0 := NewRoom(relayEnabled, settings);
            var s := Run(s0, cs);
            && HearAll(Offline, Heralded(s0, cs)) == PictureOf(s)
            && HearAll(v, DirectedTo(from, Resync(s, from).out)) == PictureOf(s)
  {
    NewRoomOk(relayEnabled, settings);
    hide RoomOk, EnabledRun, HearAll, DirectedTo, Resync;
    RunKeeps(NewRoom(relayEnabled, settings), cs);
    HistoryOverRun(NewRoom(relayEnabled, settings), cs);
    ResyncHeard(v, Run(NewRoom(relayEnabled, settings), cs), from);
  }

  // ---------------------------------------------------------------- session start

  /** Every player holds one seat, in promotion order, and no two seats share a colour. */
  ghost predicate AllSeated(cs: map<ClientId, Client>, slots: seq<ClientId>) {
    && (forall id :: id in slots <==> id in Players(cs))
    && (forall i :: 0 <= i < |slots| ==> slots[i] in cs && cs[slots[i]].color.Some? && C.Claimable(cs[slots[i]].color.value))
    && (forall i, j :: 0 <= i < j < |slots| ==>
          slots[i] in cs && slots[j] in cs && cs[slots[i]].color != cs[slots[j]].color && Before(cs[slots[i]], cs[slots[j]]))
  }

  function SlotsOf(p: Phase): seq<ClientId> {
    match p
    case Relayed(relay) => relay.slots
    case Simulated(sim) => sim.slots
    case _ => []
  }

  lemma FirstSeatsSeatAll(ro: Roster)
    requires RosterOk(ro, Coop) && AllPlayersReady(ro.clients)
    ensures AllSeated(ro.clients, FirstSeats(ro.clients))
  {
    hide RosterOk, FirstSeats, Players, Before, C.Claimable, AllPlayersReady;
    FirstSeatsAre(ro);
  }

  /** A co-op session starts a new generation with every player seated, in promotion order, and no
      two seats of one colour. */
  lemma StartSeatsEveryone(s: Room, from: ClientId, settings: Option<Settings>, finishOngoing: Option<bool>, now: nat, seed: bv64)
    requires RoomOk(s) && s.mode == Coop && StartSession(s, from, settings, finishOngoing, now, seed).err.None?
    ensures var next := StartSession(s, from, settings, finishOngoing, now, seed).room;
            && (next.phase.Relayed? || next.phase.Simulated?)
            && next.generation == s.generation + 1
            && next.roster == s.roster
            && AllSeated(s.roster.clients, SlotsOf(next.phase))
  {
    var staged := s.(settings := settings.GetOr(s.settings));
    hide RosterOk, CoopOk, FirstSeats, AllSeated, NewSim, R.NewRelay, AllPlayersReady, StartCoop;
    FirstSeatsSeatAll(s.roster);
    StartCoopTouches(staged, seed);
    NewSlots(staged, FirstSeats(s.roster.clients), FirstOwner(s.roster.admin, FirstSeats(s.roster.clients)), seed);
    StartIsCoop(s, from, settings, finishOngoing, now, seed);
    hide StartSession;
  }

  lemma StartIsCoop(s: Room, from: ClientId, settings: Option<Settings>, finishOngoing: Option<bool>, now: nat, seed: bv64)
    requires s.mode == Coop && StartSession(s, from, settings, finishOngoing, now, seed).err.None?
    ensures AllPlayersReady(s.roster.clients) && s.phase.Lobby?
    ensures StartSession(s, from, settings, finishOngoing, now, seed) == StartCoop(s.(settings := settings.GetOr(s.settings)), seed)
  {
    hide StartCoop, AllPlayersReady;
  }

  lemma NewSlots(s: Room, slots: seq<ClientId>, owner: Option<ClientId>, seed: bv64)
    ensures NewSim(s, slots, owner, seed).slots == slots
    ensures R.NewRelay(s.generation + 1, slots, s.settings, owner).slots == slots
  {
    hide S.NewGame;
  }

  /** The snakes of a new simulation wear the colours of their seats. */
  lemma SnakesWearTheirColors(cs: map<ClientId, Client>, slots: seq<ClientId>, cfg: S.Config)
    requires |slots| <= MAX_COOP_PLAYERS && AllSeated(cs, slots)
    ensures var snakes := S.NewGame(SeatsOf(cs, slots), cfg).snakes;
            |snakes| == |slots| && forall i :: 0 <= i < |slots| ==> Some(snakes[i].color) == cs[slots[i]].color
  {
    var seats := SeatsOf(cs, slots);
    G.NewSeats(seats, cfg);
    hide S.NewGame, S.Plant, S.StockFruit, S.Fill, S.SpawnRow, S.Covered, Before, C.Claimable, Players;
    var (w, h) := S.BoardDims(cfg.sizeIndex);
    assert S.FillGame(G.Planted(seats, cfg)).snakes == S.NewSnakes(w, h, seats);
  }
}
