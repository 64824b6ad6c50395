/** A simulated session that outlives its players: the room-level run, from the start of the
    session to the tick that ends it or never comes. */
module RoomOrphans {
  import opened Prelude
  import opened Grid
  import opened RoomTypes
  import opened RosterSpec
  import opened RosterInv
  import opened RoomSpec
  import opened RoomInv
  import R = Relay
  import M = SimRun
  import S = CoopSpec
  import C = Colors

  /** A room about to simulate a session for two ready players, run by an admin who only watches. */
  ghost predicate TwoSeats(s: Room, admin: ClientId, a: ClientId, b: ClientId) {
    && RoomOk(s) && s.mode == Coop && s.phase.Lobby? && !s.relayEnabled
    && IsAdmin(s, admin) && admin != a && admin != b && a != b
    && Players(s.roster.clients) == {a, b} && AllPlayersReady(s.roster.clients)
    && Before(s.roster.clients[a], s.roster.clients[b])
  }

  /** An admin who watches and two ready players. */
  const TRIO: Roster :=
    Roster(map[0 := Client(Spectator, false, None, 1, None), 1 := Client(Player, true, Some(0), 2, Some(1)),
               2 := Client(Player, true, Some(1), 3, Some(2))], Some(0), 3, 2)

  lemma TrioPlays()
    ensures Players(TRIO.clients) == {1, 2} && ReadyPlayers(TRIO.clients) == {1, 2}
    ensures AllPlayersReady(TRIO.clients) && Before(TRIO.clients[1], TRIO.clients[2])
  {
    var cs := TRIO.clients;
    assert Players(cs) == {1, 2};
    assert ReadyPlayers(cs) == {1, 2};
  }

  lemma TrioOrders()
    ensures OrdersOk(TRIO)
  {
    var cs := TRIO.clients;
    forall x, y | x in cs && y in cs && x != y
      ensures cs[x].joinOrder != cs[y].joinOrder
      ensures cs[x].promoteOrder.Some? ==> cs[x].promoteOrder != cs[y].promoteOrder
    {
    }
  }

  lemma TrioColors()
    ensures ColorsLocked(TRIO.clients)
  {
    TrioPlays();
    C.ClaimableRange(0);
    C.ClaimableRange(1);
    hide ReadyPlayers, C.Claimable;
  }

  lemma TrioIsOk()
    ensures RosterOk(TRIO, Coop)
  {
    TrioPlays();
    TrioOrders();
    TrioColors();
    hide Players, ReadyPlayers, AllPlayersReady, Before, OrdersOk, ColorsLocked;
    assert |TRIO.clients| == 3;
  }

  /** The smallest such room. */
  lemma TwoSeatsExist(settings: Settings)
    ensures TwoSeats(NewRoom(false, settings).(mode := Coop, roster := TRIO), 0, 1, 2)
  {
    hide RosterOk, AllPlayersReady;
    TrioPlays();
    TrioIsOk();
  }

  lemma SeatsOfTwo(s: Room, admin: ClientId, a: ClientId, b: ClientId)
    requires TwoSeats(s, admin, a, b)
    ensures FirstSeats(s.roster.clients) == [a, b]
  {
    var cs, slots := s.roster.clients, FirstSeats(s.roster.clients);
    RosterIsOk(s);
    FirstSeatsAre(s.roster);
    hide RoomOk, RosterOk, FirstSeats, C.Claimable, Players, AllPlayersReady;
    assert SetOf(slots) == {a, b};
    NoDupCount(slots);
    assert |slots| == 2;
    assert slots[0] in slots && slots[1] in slots && slots[0] != slots[1];
    NotBothBefore(cs[a], cs[b]);
    assert slots[0] == a;
  }

  lemma NotBothBefore(a: Client, b: Client)
    ensures Before(a, b) ==> !Before(b, a)
  {
  }

  lemma RosterIsOk(s: Room)
    requires RoomOk(s)
    ensures RosterOk(s.roster, s.mode)
  {
    hide RosterOk, CoopOk;
  }

  /** The room while it simulates the session of `a` and `b`, with these entries left. */
  ghost predicate Playing(s: Room, admin: ClientId, a: ClientId, b: ClientId, alive: map<ClientId, bool>) {
    && RoomOk(s) && s.mode == Coop && IsAdmin(s, admin) && admin in s.roster.clients
    && s.phase.Simulated? && s.phase.sim.slots == [a, b] && s.phase.sim.alive == alive && s.phase.sim.timer.None?
  }

  lemma AdminIsHere(s: Room, admin: ClientId)
    requires RoomOk(s) && IsAdmin(s, admin)
    ensures admin in s.roster.clients
  {
    hide OrdersOk, CoopOk;
  }

  lemma StartPlays(s: Room, admin: ClientId, a: ClientId, b: ClientId, now: nat, seed: bv64)
    requires TwoSeats(s, admin, a, b)
    ensures Playing(StartSession(s, admin, None, None, now, seed).room, admin, a, b, map[a := true, b := true])
  {
    hide RoomOk, AllPlayersReady, FirstSeats, StartCoop, StartSession, NewSim, R.NewRelay;
    AdminIsHere(s, admin);
    SeatsOfTwo(s, admin, a, b);
    StartKeeps(s, admin, None, None, now, seed);
    StartsSim(s, admin, now, seed);
    StartCoopTouches(s, seed);
    FreshSim(s, FirstSeats(s.roster.clients), FirstOwner(s.roster.admin, FirstSeats(s.roster.clients)), seed);
    assert R.AllAlive([a, b]) == map[a := true, b := true];
  }

  lemma FreshSim(s: Room, slots: seq<ClientId>, owner: Option<ClientId>, seed: bv64)
    ensures var sim := NewSim(s, slots, owner, seed); sim.slots == slots && sim.alive == R.AllAlive(slots) && sim.timer.None?
  {
    hide S.NewGame;
  }

  lemma StartsSim(s: Room, admin: ClientId, now: nat, seed: bv64)
    requires IsAdmin(s, admin) && AllPlayersReady(s.roster.clients) && s.mode == Coop && s.phase.Lobby?
    ensures StartSession(s, admin, None, None, now, seed) == StartCoop(s, seed)
  {
    hide AllPlayersReady, StartCoop;
  }

  lemma SeatIsConnected(s: Room, c: ClientId)
    requires RoomOk(s) && s.phase.Simulated? && R.Alive(s.phase.sim.alive, c)
    ensures c in s.roster.clients
  {
    hide RosterOk, M.SeatsMatch, M.AliveMatches, M.ClockOk;
  }

  /** A kick that leaves some other seat alive or without an entry takes the seat's entry away and
      lets the session go on. */
  lemma KickedOut(s: Room, admin: ClientId, a: ClientId, b: ClientId, c: ClientId, w: ClientId, alive: map<ClientId, bool>)
    requires Playing(s, admin, a, b, alive)
    requires c in [a, b] && w in [a, b] && c != w && c != admin
    requires R.Alive(alive, c) && (w !in alive || alive[w])
    ensures Playing(Kick(s, admin, Some(c)).room, admin, a, b, alive - {c})
  {
    hide RoomOk, S.Kill, SeatGone, Leave, Kick;
    SeatIsConnected(s, c);
    KickKeeps(s, admin, Some(c));
    KickedSeat(s, a, b, c, w);
    KickIs(s, admin, c);
    LeavesQuietly(SeatGone(s, c, Kicked).room, c, w);
    assert alive[c := false] - {c} == alive - {c};
  }

  lemma KickIs(s: Room, admin: ClientId, c: ClientId)
    requires IsAdmin(s, admin) && c != admin && c in s.roster.clients
    ensures Kick(s, admin, Some(c)).room == Leave(SeatGone(s, c, Kicked).room, c).0
  {
    hide SeatGone, Leave;
  }

  lemma KickedSeat(s: Room, a: ClientId, b: ClientId, c: ClientId, w: ClientId)
    requires s.phase.Simulated? && s.phase.sim.slots == [a, b]
    requires c in [a, b] && w in [a, b] && c != w
    requires R.Alive(s.phase.sim.alive, c) && (w !in s.phase.sim.alive || s.phase.sim.alive[w])
    ensures var gone := SeatGone(s, c, Kicked).room;
            && gone == s.(phase := gone.phase) && gone.phase.Simulated?
            && gone.phase.sim == s.phase.sim.(alive := s.phase.sim.alive[c := false], game := S.Kill(s.phase.sim.game, c))
  {
    hide S.Kill, M.FrameOf;
    var next := M.MarkDead(s.phase.sim, c, Kicked).sim;
    assert w in next.slots && !(w in next.alive && !next.alive[w]);
  }

  /** A dead seat that leaves while another is alive or forgotten only takes its entry along. */
  lemma LeavesQuietly(s: Room, c: ClientId, w: ClientId)
    requires s.phase.Simulated? && c in s.roster.clients && s.roster.admin.Some? && s.roster.admin != Some(c)
    requires s.roster.admin.value in s.roster.clients
    requires !R.Alive(s.phase.sim.alive, c)
    requires w in s.phase.sim.slots && w != c && (w !in s.phase.sim.alive || s.phase.sim.alive[w])
    ensures var left := Leave(s, c).0;
            && left.mode == s.mode && left.roster.admin == s.roster.admin && left.roster.clients == s.roster.clients - {c}
            && left.phase.Simulated? && left.phase.sim.slots == s.phase.sim.slots && left.phase.sim.timer == s.phase.sim.timer
            && left.phase.sim.alive == s.phase.sim.alive - {c}
  {
    hide PickOwner, NextAdmin, M.MarkDead;
    var left := Vacated(s, c);
    assert left.phase.sim.alive == s.phase.sim.alive - {c};
    assert !AllDeadIn(left.phase) by {
      assert w in left.phase.sim.slots && !(w in left.phase.sim.alive && !left.phase.sim.alive[w]);
    }
    assert s.roster.admin.value in left.roster.clients;
    LeaveIs(s, c);
  }

  lemma LeaveIs(s: Room, c: ClientId)
    requires s.phase.Simulated? && c in s.roster.clients
    ensures Leave(s, c).0 == AfterLeave(Vacated(s, c)).0
  {
    hide AfterLeave, Unseated, Departed;
  }

  lemma NobodyIsAlive(s: Room, admin: ClientId, a: ClientId, b: ClientId)
    requires Playing(s, admin, a, b, map[])
    ensures M.NobodyAlive(s.phase.sim) && forall now :: Tick(s, now) == Accept(s, [])
  {
    M.TickKeeps(s.phase.sim, Players(s.roster.clients));
    SimAlive(s);
    hide RoomOk, M.Tick, NobodyReady;
  }

  lemma SimAlive(s: Room)
    requires RoomOk(s) && s.phase.Simulated?
    ensures M.SimOk(s.phase.sim, Players(s.roster.clients)) && |s.phase.sim.game.snakes| == |s.phase.sim.slots|
    ensures forall i :: 0 <= i < |s.phase.sim.slots| ==> (R.Alive(s.phase.sim.alive, s.phase.sim.slots[i]) <==> s.phase.sim.game.snakes[i].alive)
  {
    hide RosterOk;
  }

  /** The requests of the admin that start the session and kick both players. */
  function StartAndKick(admin: ClientId, a: ClientId, b: ClientId, now: nat, seed: bv64): seq<Cmd> {
    [Handle(admin, SessionStartReq(None, None), now, seed)]
    + [Handle(admin, KickReq(Some(a)), now, seed)] + [Handle(admin, KickReq(Some(b)), now, seed)]
  }

  lemma RunMore(s: Room, cs: seq<Cmd>, from: ClientId, q: Request, now: nat, seed: bv64)
    ensures Run(s, cs + [Handle(from, q, now, seed)]) == Perform(Run(s, cs), from, q, now, seed).room
  {
    assert (cs + [Handle(from, q, now, seed)])[..|cs|] == cs;
    hide Perform;
  }

  /** The session starts, both players are kicked, and it is still there without a living snake;
      until somebody's input arms its timer every tick leaves it so. */
  lemma KickedSessionGoesOn(s: Room, admin: ClientId, a: ClientId, b: ClientId, now: nat, seed: bv64)
    requires TwoSeats(s, admin, a, b)
    ensures var left := Run(s, StartAndKick(admin, a, b, now, seed));
            && RoomOk(left) && left.phase.Simulated? && M.NobodyAlive(left.phase.sim) && left.phase.sim.timer.None?
            && forall t :: Tick(left, t) == Accept(left, [])
  {
    hide Kick, StartSession, RoomOk, FirstSeats, AllPlayersReady, Run;
    StartPlays(s, admin, a, b, now, seed);
    var started := StartSession(s, admin, None, None, now, seed).room;
    KickedOut(started, admin, a, b, a, b, map[a := true, b := true]);
    var once := Kick(started, admin, Some(a)).room;
    assert map[a := true, b := true] - {a} == map[b := true];
    KickedOut(once, admin, a, b, b, a, map[b := true]);
    assert map[b := true] - {b} == map[];
    var left := Kick(once, admin, Some(b)).room;
    NobodyIsAlive(left, admin, a, b);
    RunIs(s, admin, a, b, now, seed);
  }

  lemma RunIs(s: Room, admin: ClientId, a: ClientId, b: ClientId, now: nat, seed: bv64)
    ensures Run(s, StartAndKick(admin, a, b, now, seed))
         == Kick(Kick(StartSession(s, admin, None, None, now, seed).room, admin, Some(a)).room, admin, Some(b)).room
  {
    hide Run, Kick, StartSession, Perform;
    var start := Handle(admin, SessionStartReq(None, None), now, seed);
    assert [] + [start] == [start];
    NoRun(s);
    RunMore(s, [], admin, start.request, now, seed);
    RunMore(s, [start], admin, KickReq(Some(a)), now, seed);
    RunMore(s, [start] + [Handle(admin, KickReq(Some(a)), now, seed)], admin, KickReq(Some(b)), now, seed);
    PerformsStart(s, admin, now, seed);
    PerformsKick(Run(s, [start]), admin, a, now, seed);
    PerformsKick(Run(s, [start] + [Handle(admin, KickReq(Some(a)), now, seed)]), admin, b, now, seed);
  }

  lemma PerformsStart(s: Room, from: ClientId, now: nat, seed: bv64)
    ensures Perform(s, from, SessionStartReq(None, None), now, seed) == StartSession(s, from, None, None, now, seed)
  {
    hide StartSession;
  }

  lemma PerformsKick(s: Room, from: ClientId, c: ClientId, now: nat, seed: bv64)
    ensures Perform(s, from, KickReq(Some(c)), now, seed) == Kick(s, from, Some(c))
  {
    hide Kick;
  }

  lemma NoRun(s: Room)
    ensures Run(s, []) == s
  {
  }

  /** Once the timer of such a session is armed, the tick that makes its next step ends it, and no
      tick before that does. */
  lemma ArmedOrphanEnds(s: Room, now: nat)
    requires RoomOk(s) && s.phase.Simulated? && M.NobodyAlive(s.phase.sim) && s.phase.sim.timer.Some?
    ensures var sim, next := s.phase.sim, Tick(s, now).room;
            if sim.accum + M.ROOM_TICK_MS >= M.Interval(sim) then next.phase.Lobby?
            else next == s.(phase := Simulated(sim.(accum := sim.accum + M.ROOM_TICK_MS)))
  {
    SimAlive(s);
    M.ArmedDeadSessionEnds(s.phase.sim, Players(s.roster.clients));
    SimInCoop(s);
    hide RoomOk, M.SimOk, M.Tick, S.SpeedInterval, NobodyReady;
  }

  lemma SimInCoop(s: Room)
    requires RoomOk(s) && s.phase.Simulated?
    ensures s.mode == Coop
  {
    hide RosterOk, M.SimOk;
  }
}
