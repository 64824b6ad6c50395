/** What the room broadcasts, heard by its clients and watched by the monitor, command by command. */
module RoomTrace {
  import opened Prelude
  import opened Grid
  import opened RoomTypes
  import opened RosterSpec
  import opened RoomSpec
  import opened RoomInv
  import opened RelayView
  import opened RelayTrace
  import R = Relay
  import RI = RelayInv
  import M = SimRun
  import S = CoopSpec
  import RaceScore
  import Colors

  /** The broadcasts among everything sent, in order. */
  function Broadcasts(out: seq<Out>): seq<Msg>
    decreases |out|
  {
    if out == [] then []
    else Broadcasts(out[..|out| - 1]) + if Last(out).to.None? then [Last(out).msg] else []
  }

  /** The messages addressed to one client. */
  function DirectedTo(c: ClientId, out: seq<Out>): seq<Msg>
    decreases |out|
  {
    if out == [] then []
    else DirectedTo(c, out[..|out| - 1]) + if Last(out).to == Some(c) then [Last(out).msg] else []
  }

  lemma {:induction false} BroadcastsMore(a: seq<Out>, b: seq<Out>)
    ensures Broadcasts(a + b) == Broadcasts(a) + Broadcasts(b)
    decreases |b|
  {
    if b == [] {
      assert a + b == a;
    } else {
      BroadcastsMore(a, b[..|b| - 1]);
      assert (a + b)[..|a + b| - 1] == a + b[..|b| - 1];
    }
  }

  lemma {:induction false} BroadcastsAll(ms: seq<Msg>)
    ensures Broadcasts(All(ms)) == ms
    decreases |ms|
  {
    if ms != [] {
      BroadcastsAll(ms[..|ms| - 1]);
      assert All(ms)[..|ms| - 1] == All(ms[..|ms| - 1]);
    }
  }

  lemma {:induction false} BroadcastsTo(c: ClientId, ms: seq<Msg>)
    ensures Broadcasts(To(c, ms)) == []
    ensures DirectedTo(c, To(c, ms)) == ms
    decreases |ms|
  {
    if ms != [] {
      BroadcastsTo(c, ms[..|ms| - 1]);
      assert To(c, ms)[..|ms| - 1] == To(c, ms[..|ms| - 1]);
    }
  }

  // ---------------------------------------------------------------- pictures

  function SimPicture(sim: M.Sim): View {
    Online(sim.generation, sim.settings, sim.slots, false, sim.owner, None, 0, true, None, map[], sim.timer, 0,
           sim.settings.speed, Some(M.FrameOf(sim.game)))
  }

  /** The picture of the session that the room's state calls for. */
  function PictureOf(s: Room): View {
    match s.phase
    case Relayed(relay) => Picture(relay)
    case Simulated(sim) => SimPicture(sim)
    case _ => Offline
  }

  /** A client that had the right picture before has it after. */
  predicate Heard(s: Room, ms: seq<Msg>, next: Room) {
    HearAll(PictureOf(s), ms) == PictureOf(next)
  }

  ghost predicate RoomAgrees(m: Monitor, s: Room) {
    && m.generation == s.generation && !m.due
    && match s.phase
       case Relayed(relay) => Agrees(m, relay)
       case Simulated(sim) => m.live && !m.relay && m.timer == sim.timer.Some?
       case _ => true
  }

  /** A lawful trace stays lawful and the monitor in step. */
  ghost predicate Obeyed(m: Monitor, s: Room, ms: seq<Msg>, next: Room) {
    RoomAgrees(m, s) ==> LawfulTrace(m, ms) && RoomAgrees(ObserveAll(m, ms), next)
  }

  /** Both at once. */
  ghost predicate Told(m: Monitor, s: Room, ms: seq<Msg>, next: Room) {
    Heard(s, ms, next) && Obeyed(m, s, ms, next)
  }

  lemma ObeyedChain(m: Monitor, a: Room, x: seq<Msg>, b: Room, y: seq<Msg>, c: Room)
    requires Obeyed(m, a, x, b) && Obeyed(ObserveAll(m, x), b, y, c)
    ensures Obeyed(m, a, x + y, c)
  {
    hide RoomAgrees;
    TraceMore(m, x, y);
  }

  lemma ToldChain(m: Monitor, a: Room, x: seq<Msg>, b: Room, y: seq<Msg>, c: Room)
    requires Told(m, a, x, b) && Told(ObserveAll(m, x), b, y, c)
    ensures Told(m, a, x + y, c)
  {
    ObeyedChain(m, a, x, b, y, c);
    HearMore(PictureOf(a), x, y);
    hide Obeyed, HearAll, PictureOf;
  }

  // ---------------------------------------------------------------- messages that change nothing

  /** News that concerns no session: only a roster message is looked at, and it agrees. */
  predicate Noise(x: Msg, p: Phase) {
    match x
    case RosterUpdate(_, _, _, owner) => p.Lobby? || p.Racing? || owner == OwnerOf(p)
    case PlaySync => true
    case KickNotice(_) => true
    case ModeChanged(_) => true
    case SettingsSync(_) => true
    case ScorePulse(_, _) => true
    case AttemptExpired(_, _) => true
    case _ => false
  }

  lemma NoiseTold(m: Monitor, s: Room, x: Msg)
    requires Noise(x, s.phase)
    ensures Told(m, s, [x], s)
  {
    HearOne(PictureOf(s), x);
    TraceOne(m, x);
    hide HearAll, ObserveAll, LawfulTrace, Agrees, M.FrameOf;
  }

  lemma SilenceTold(m: Monitor, s: Room, next: Room)
    requires PictureOf(next) == PictureOf(s) && next.generation == s.generation
    requires s.phase.Relayed? || next.phase.Relayed? ==> next.phase == s.phase
    requires s.phase.Simulated? <==> next.phase.Simulated?
    ensures Told(m, s, [], next)
  {
    HearNothing(PictureOf(s));
    TraceNothing(m);
    hide HearAll, ObserveAll, LawfulTrace, Agrees, M.FrameOf;
  }

  lemma AnnounceTold(m: Monitor, s: Room)
    ensures Broadcasts(Announce(s)) == [RosterMsg(s)]
    ensures Told(m, s, [RosterMsg(s)], s)
  {
    BroadcastsAll([RosterMsg(s)]);
    NoiseTold(m, s, RosterMsg(s));
  }

  /** A session that ends: everyone is back in the lobby. */
  lemma EndTold(m: Monitor, s: Room, reason: EndReason, next: Room)
    requires next.phase.Lobby? && next.generation == s.generation
    ensures Told(m, s, [SessionEnd(reason)], next)
  {
    HearOne(PictureOf(s), SessionEnd(reason));
    TraceOne(m, SessionEnd(reason));
    hide HearAll, ObserveAll, LawfulTrace, Agrees, M.FrameOf;
  }

  lemma EndCoopTold(m: Monitor, s: Room, reason: EndReason)
    ensures var (next, out) := EndCoop(s, reason); Told(m, s, Broadcasts(out), next)
  {
    var (next, out) := EndCoop(s, reason);
    var x, y := SessionEnd(reason), RosterMsg(next);
    BroadcastsAll([x, y]);
    EndTold(m, s, reason, next);
    NoiseTold(ObserveAll(m, [x]), next, y);
    ToldChain(m, s, [x], next, [y], next);
    assert [x] + [y] == [x, y];
  }

  // ---------------------------------------------------------------- the live session

  lemma RelayActTold(m: Monitor, s: Room, op: R.Op)
    requires RoomOk(s) && s.phase.Relayed?
    ensures Told(m, s, Broadcasts(RelayAct(s, op).out), RelayAct(s, op).room)
  {
    var relay := s.phase.relay;
    var here := s.roster.clients.Keys;
    var players := Players(s.roster.clients);
    PlayersAreHere(s.roster.clients);
    var o := R.Perform(relay, here, op);
    var next := s.(phase := Relayed(o.relay));
    RI.SeatsAreFrozen(relay, here, op);
    PerformHeard(relay, here, players, op);
    if RoomAgrees(m, s) {
      PerformObeys(m, relay, here, players, op);
    }
    BroadcastsAll(o.out);
    if o.over {
      NothingStarts(relay, here, op);
      OverTold(m, s, o);
    } else {
      hide R.Perform, RosterOk, RI.RelayOk, Agrees, HearAll, Picture, ObserveAll, LawfulTrace, Cleared;
      RelayAgrees(m, s, o.out, next);
    }
  }

  lemma RelayAgrees(m: Monitor, s: Room, ms: seq<Msg>, next: Room)
    requires s.phase.Relayed? && next.phase.Relayed? && next.generation == s.generation
    requires next.phase.relay.generation == s.phase.relay.generation
    requires RoomAgrees(m, s) ==> LawfulTrace(m, ms) && Agrees(ObserveAll(m, ms), next.phase.relay)
    ensures Obeyed(m, s, ms, next)
  {
  }

  predicate NoStart(ms: seq<Msg>) {
    forall x :: x in ms ==> !x.SessionStart?
  }

  lemma OneStays(m: Monitor, x: Msg)
    ensures !x.SessionStart? ==> Observe(m, x).generation == m.generation
  {
  }

  lemma {:induction false} StaysInGeneration(m: Monitor, ms: seq<Msg>)
    requires NoStart(ms)
    ensures ObserveAll(m, ms).generation == m.generation
    decreases |ms|
  {
    hide Observe;
    if ms != [] {
      StaysInGeneration(m, ms[..|ms| - 1]);
      assert Last(ms) in ms;
      OneStays(ObserveAll(m, ms[..|ms| - 1]), Last(ms));
    }
  }

  lemma NothingStarts(relay: R.Relay, here: set<ClientId>, op: R.Op)
    ensures NoStart(R.Perform(relay, here, op).out)
  {
    hide R.CheckSender, R.CheckPoseOrder, R.CheckPose, R.CheckTurns, R.CheckFirstBoard, R.CheckNextBoard, R.NextSpeed,
         R.CheckDeath, R.NextInitializer, R.RemainsOf, R.StorePose, R.StoreBoard, R.StoreSpeed, R.Fall, R.AllSeatsDead;
  }

  /** The last death and the end of the session in one breath. */
  lemma OverTold(m: Monitor, s: Room, o: R.Outcome)
    requires s.phase.Relayed? && (RoomAgrees(m, s) ==> LawfulTrace(m, o.out) && !ObserveAll(m, o.out).due) && NoStart(o.out)
    ensures var (ended, out) := EndCoop(s.(phase := Relayed(o.relay)), AllDead);
            Told(m, s, Broadcasts(All(o.out) + out), ended)
  {
    var (ended, out) := EndCoop(s.(phase := Relayed(o.relay)), AllDead);
    var x, y := SessionEnd(AllDead), RosterMsg(ended);
    BroadcastsMore(All(o.out), out);
    BroadcastsAll(o.out);
    BroadcastsAll([x, y]);
    ClosingTold(m, s, o.out, AllDead, ended, y);
  }

  /** Whatever came before it, SESSION_END leaves everyone offline. */
  lemma ClosingTold(m: Monitor, s: Room, ms: seq<Msg>, reason: EndReason, next: Room, y: Msg)
    requires (RoomAgrees(m, s) ==> LawfulTrace(m, ms) && !ObserveAll(m, ms).due) && NoStart(ms)
    requires next.phase.Lobby? && next.generation == s.generation && y.RosterUpdate?
    ensures Told(m, s, ms + [SessionEnd(reason), y], next)
  {
    var x := SessionEnd(reason);
    StaysInGeneration(m, ms);
    hide Agrees, SimPicture, Picture, HearAll, LawfulTrace, ObserveAll;
    HearMore(PictureOf(s), ms, [x, y]);
    HearTwo(HearAll(PictureOf(s), ms), x, y);
    TraceMore(m, ms, [x, y]);
    TraceTwo(ObserveAll(m, ms), x, y);
    assert RoomAgrees(m, s) ==> m.generation == s.generation;
  }

  // ---------------------------------------------------------------- the simulation speaks

  ghost predicate SimAgrees(m: Monitor, sim: M.Sim) {
    m.live && !m.relay && !m.due && m.timer == sim.timer.Some?
  }

  /** What an outcome of the simulation says is heard right and lawful. */
  ghost predicate SimTold(m: Monitor, sim: M.Sim, o: M.Outcome) {
    && NoStart(o.out)
    && (o.over.None? ==> HearAll(SimPicture(sim), o.out) == SimPicture(o.sim))
    && (SimAgrees(m, sim) ==> LawfulTrace(m, o.out) && SimAgrees(ObserveAll(m, o.out), o.sim))
  }

  lemma SimInputTold(m: Monitor, sim: M.Sim, from: ClientId, dir: Dir, now: nat)
    requires M.InPlay(sim.game)
    ensures SimTold(m, sim, M.Input(sim, from, dir, now))
  {
    M.InputFrame(sim.game, from, dir);
    hide HearAll, LawfulTrace, ObserveAll, M.FrameOf, S.SetInput;
    HearNothing(SimPicture(sim));
    TraceNothing(m);
    HearOne(SimPicture(sim), TimerStart(None, now));
    TraceOne(m, TimerStart(None, now));
  }

  lemma SimFallTold(m: Monitor, sim: M.Sim, c: ClientId, cause: Reason)
    ensures SimTold(m, sim, M.MarkDead(sim, c, cause))
  {
    hide HearAll, LawfulTrace, ObserveAll, M.FrameOf, S.Kill, R.AllSeatsDead;
    HearNothing(SimPicture(sim));
    TraceNothing(m);
    var frame := CoopState(M.FrameOf(S.Kill(sim.game, c)));
    HearTwo(SimPicture(sim), SimDead(c, cause), frame);
    TraceTwo(m, SimDead(c, cause), frame);
  }

  /** The closing frame of a tick, when there is one. */
  lemma {:induction false} CatchupSays(s: M.Sim, interval: nat, stepped: bool)
    requires interval > 0
    ensures var o := M.Catchup(s, interval, stepped);
            && (o.over.None? ==> o.out == (if o.out == [] then [] else [CoopState(M.FrameOf(o.sim.game))]))
            && (o.out == [] ==> !stepped && o.sim.game == s.game)
            && (o.over.Some? ==> |o.out| == 1 && o.out[0].CoopState?)
            && o.sim == s.(accum := o.sim.accum, game := o.sim.game, alive := o.sim.alive)
    decreases s.accum
  {
    hide S.Step, M.FrameOf, M.AliveFrom, M.EndOf;
    if s.accum >= interval && !s.game.ended && s.game.running {
      var game := S.Step(s.game);
      var next := s.(accum := s.accum - interval, game := game, alive := M.AliveFrom(s.alive, game.snakes));
      if !game.ended {
        CatchupSays(next, interval, true);
      }
    }
  }

  lemma TickSays(sim: M.Sim)
    ensures var o := M.Tick(sim);
            && o.sim == sim.(accum := o.sim.accum, game := o.sim.game, alive := o.sim.alive)
            && (o.out == [] || (|o.out| == 1 && o.out[0].CoopState?))
            && (o.over.None? && o.out != [] ==> o.out[0].frame == M.FrameOf(o.sim.game))
            && (o.over.None? && o.out == [] ==> o.sim.game == sim.game)
  {
    M.IntervalRange(sim.game.speedIndex);
    if sim.timer.Some? {
      CatchupSays(sim.(accum := sim.accum + M.ROOM_TICK_MS), M.Interval(sim), false);
    }
    hide M.Catchup, M.FrameOf, S.SpeedInterval;
  }

  lemma SimTickTold(m: Monitor, sim: M.Sim)
    ensures SimTold(m, sim, M.Tick(sim))
  {
    TickSays(sim);
    hide HearAll, LawfulTrace, ObserveAll, M.FrameOf, M.Tick;
    var o := M.Tick(sim);
    HearNothing(SimPicture(sim));
    TraceNothing(m);
    if o.out != [] {
      assert o.out == [o.out[0]];
      HearOne(SimPicture(sim), o.out[0]);
      TraceOne(m, o.out[0]);
    }
  }

  lemma SimActTold(m: Monitor, s: Room, o: M.Outcome)
    requires s.phase.Simulated? && SimTold(m, s.phase.sim, o)
    ensures Told(m, s, Broadcasts(SimAct(s, o).out), SimAct(s, o).room)
  {
    hide HearAll, LawfulTrace, ObserveAll, M.FrameOf, SimPicture, Cleared;
    BroadcastsAll(o.out);
    if o.over.Some? {
      var (ended, out) := EndCoop(s.(phase := Simulated(o.sim)), o.over.value);
      var x, y := SessionEnd(o.over.value), RosterMsg(ended);
      BroadcastsMore(All(o.out), out);
      BroadcastsAll([x, y]);
      ClearedTouches(s.(phase := Simulated(o.sim)));
      ClosingTold(m, s, o.out, o.over.value, ended, y);
    } else {
      StaysInGeneration(m, o.out);
    }
  }

  // ---------------------------------------------------------------- quiet commands

  predicate NoSession(p: Phase) {
    p.Lobby? || p.Racing?
  }

  predicate AllNoise(ms: seq<Msg>, p: Phase) {
    forall x :: x in ms ==> Noise(x, p)
  }

  lemma {:induction false} QuietTold(m: Monitor, s: Room, ms: seq<Msg>, next: Room)
    requires AllNoise(ms, s.phase) && next.generation == s.generation
    requires next.phase == s.phase || (NoSession(s.phase) && NoSession(next.phase))
    ensures Told(m, s, ms, next)
    decreases |ms|
  {
    hide Told, Noise;
    if ms == [] {
      QuietNothing(m, s, next);
    } else {
      var front := ms[..|ms| - 1];
      QuietTold(m, s, front, s);
      assert Last(ms) in ms;
      NoiseTold(ObserveAll(m, front), s, Last(ms));
      ToldChain(m, s, front, s, [Last(ms)], s);
      assert front + [Last(ms)] == ms;
      QuietNothing(ObserveAll(m, ms), s, next);
      ToldChain(m, s, ms, s, [], next);
      assert ms + [] == ms;
    }
  }

  lemma QuietNothing(m: Monitor, s: Room, next: Room)
    requires next.generation == s.generation
    requires next.phase == s.phase || (NoSession(s.phase) && NoSession(next.phase))
    ensures Told(m, s, [], next)
  {
    hide Picture, SimPicture;
    SilenceTold(m, s, next);
  }

  lemma MaybeEndGraceTold(m: Monitor, s: Room)
    ensures var (next, out) := MaybeEndGrace(s); Told(m, s, Broadcasts(out), next)
  {
    hide Told, AnyRunning;
    var (next, out) := MaybeEndGrace(s);
    if InGrace(s) && !AnyRunning(s) {
      var ms := [AttemptExpired(false, true), RosterMsg(next)];
      BroadcastsAll(ms);
      QuietTold(m, s, ms, next);
    } else {
      QuietTold(m, s, [], s);
    }
  }

  /** What the check for the end of a grace period says, and the roster after it. */
  ghost function GraceNews(s: Room): seq<Msg> {
    Broadcasts(MaybeEndGrace(s).1) + [RosterMsg(MaybeEndGrace(s).0)]
  }

  lemma GraceNewsTold(m: Monitor, s: Room)
    ensures Told(m, s, GraceNews(s), MaybeEndGrace(s).0)
  {
    hide Told, MaybeEndGrace, Broadcasts;
    var (next, closing) := MaybeEndGrace(s);
    MaybeEndGraceTold(m, s);
    AnnounceTold(ObserveAll(m, Broadcasts(closing)), next);
    ToldChain(m, s, Broadcasts(closing), next, [RosterMsg(next)], next);
  }

  lemma WithGraceSays(s: Room, out: seq<Out>)
    ensures Broadcasts(WithGrace(s, out).out) == Broadcasts(out) + GraceNews(s)
    ensures WithGrace(s, out).room == MaybeEndGrace(s).0
  {
    hide MaybeEndGrace, Broadcasts;
    var (next, closing) := MaybeEndGrace(s);
    BroadcastsMore(out + closing, Announce(next));
    BroadcastsMore(out, closing);
    BroadcastsAll([RosterMsg(next)]);
    assert Broadcasts(out) + Broadcasts(closing) + [RosterMsg(next)] == Broadcasts(out) + GraceNews(s);
  }

  /** A change, told by `first`, then the usual check and the roster. */
  lemma ThenGraceTold(m: Monitor, s: Room, out: seq<Out>, mid: Room)
    requires Told(m, s, Broadcasts(out), mid)
    ensures Told(m, s, Broadcasts(WithGrace(mid, out).out), WithGrace(mid, out).room)
  {
    hide Told, WithGrace, MaybeEndGrace, GraceNews, Broadcasts;
    GraceNewsTold(ObserveAll(m, Broadcasts(out)), mid);
    WithGraceSays(mid, out);
    ToldChain(m, s, Broadcasts(out), mid, GraceNews(mid), WithGrace(mid, out).room);
  }

  // ---------------------------------------------------------------- roster commands

  lemma SeatGoneTold(m: Monitor, s: Room, c: ClientId, reason: Reason)
    requires RoomOk(s)
    ensures Told(m, s, Broadcasts(SeatGone(s, c, reason).out), SeatGone(s, c, reason).room)
  {
    match s.phase
    case Relayed(relay) => RelayActTold(m, s, R.GoneOp(c, reason));
    case Simulated(sim) =>
      hide Told, SimTold, SimAct, M.MarkDead, RoomOk;
      SimFallTold(m, sim, c, reason);
      SimActTold(m, s, M.MarkDead(sim, c, reason));
    case _ =>
      hide Told, RoomOk;
      QuietTold(m, s, [], s);
  }

  lemma RosterChangeTold(m: Monitor, s: Room, ro: Roster)
    ensures Told(m, s, [], s.(roster := ro))
  {
    hide Told;
    QuietTold(m, s, [], s.(roster := ro));
  }

  lemma SetRoleTold(m: Monitor, s: Room, from: ClientId, target: Option<ClientId>, role: Option<Role>)
    requires RoomOk(s)
    ensures var d := SetRole(s, from, target, role); Told(m, s, Broadcasts(d.out), d.room)
  {
    hide Told, RoomOk, WithGrace, SeatGone, Promoted, Demoted, Announce;
    AnnounceTold(m, s);
    QuietTold(m, s, [], s);
    if target.Some? && role.Some? && target.value in s.roster.clients && s.roster.clients[target.value].role != role.value {
      var id := target.value;
      if role.value == Player {
        var ro := Promoted(s.roster, s.mode, id);
        RosterChangeTold(m, s, ro);
        ThenGraceTold(m, s, [], s.(roster := ro));
      } else {
        var gone := SeatGone(s, id, Demotion);
        SeatGoneTold(m, s, id, Demotion);
        if id in gone.room.roster.clients {
          var next := gone.room.(roster := Demoted(gone.room.roster, id));
          var ms := Broadcasts(gone.out);
          RosterChangeTold(ObserveAll(m, ms), gone.room, Demoted(gone.room.roster, id));
          ToldChain(m, s, ms, gone.room, [], next);
          assert ms + [] == ms;
          ThenGraceTold(m, s, gone.out, next);
        }
      }
    }
  }

  /** A command that only changes the record and tells noise. */
  lemma PlainTold(m: Monitor, s: Room, ms: seq<Msg>, next: Room)
    requires AllNoise(ms, s.phase) && next.generation == s.generation && next.phase == s.phase
    ensures Told(m, s, Broadcasts(All(ms)), next)
  {
    hide Told, Noise;
    BroadcastsAll(ms);
    QuietTold(m, s, ms, next);
  }

  lemma JoinTold(m: Monitor, s: Room, id: ClientId, sameRoom: bool)
    ensures var d := Join(s, id, sameRoom); Told(m, s, Broadcasts(d.out), d.room)
  {
    hide Told, Joined;
    QuietTold(m, s, [], s);
    var next := s.(roster := Joined(s.roster, id));
    var hello := To(id, [Welcome(id, next.roster.admin == Some(id))]);
    BroadcastsMore(hello, Announce(next));
    BroadcastsTo(id, [Welcome(id, next.roster.admin == Some(id))]);
    PlainTold(m, s, [RosterMsg(next)], next);
    assert [] + Broadcasts(Announce(next)) == Broadcasts(Announce(next));
  }

  // ---------------------------------------------------------------- departures

  /** The picture of `s`, or of a simulation whose new board owner has not been announced yet. */
  predicate NearPicture(v: View, s: Room) {
    || v == PictureOf(s)
    || (s.phase.Simulated? && v.Online? && v == PictureOf(s).(owner := v.owner))
  }

  lemma AnnounceHeard(v: View, s: Room)
    requires NearPicture(v, s)
    ensures HearAll(v, [RosterMsg(s)]) == PictureOf(s)
  {
    hide M.FrameOf, HearAll;
    HearOne(v, RosterMsg(s));
  }

  /** Once offline, roster news changes nothing. */
  lemma EndedHeard(v: View, reason: EndReason, x: Msg, y: Msg)
    requires x.RosterUpdate? && y.RosterUpdate?
    ensures HearAll(v, [SessionEnd(reason), x, y]) == Offline && HearAll(v, [SessionEnd(reason), x]) == Offline
  {
    HearTwo(v, SessionEnd(reason), x);
    HearMore(v, [SessionEnd(reason), x], [y]);
    HearOne(HearAll(v, [SessionEnd(reason), x]), y);
    assert [SessionEnd(reason), x, y] == [SessionEnd(reason), x] + [y];
  }

  lemma AfterLeaveObeyed(m: Monitor, s: Room)
    ensures var (next, out) := AfterLeave(s); Obeyed(m, s, Broadcasts(out), next)
  {
    var (s1, out1) := MaybeEndAllDead(s);
    var (s2, out2) := MaybeEndGrace(s1);
    EndCoopTold(m, s, AllDead);
    QuietTold(m, s, [], s);
    var m1 := ObserveAll(m, Broadcasts(out1));
    hide RoomAgrees, MaybeEndGrace, Heard, EndCoop, AllDeadIn;
    assert Obeyed(m, s, Broadcasts(out1), s1);
    MaybeEndGraceTold(m1, s1);
    ObeyedChain(m, s, Broadcasts(out1), s1, Broadcasts(out2), s2);
    BroadcastsMore(out1, out2);
    var ms := Broadcasts(out1 + out2);
    AnnounceTold(ObserveAll(m, ms), s2);
    ObeyedChain(m, s, ms, s2, [RosterMsg(s2)], s2);
    BroadcastsMore(out1 + out2, Announce(s2));
    ClearedQuiet(m, s, ms, s2);
  }

  /** Clearing an empty room says nothing; no monitor expects anything of a lobby. */
  lemma ClearedQuiet(m: Monitor, s: Room, ms: seq<Msg>, next: Room)
    requires Obeyed(m, s, ms, next)
    ensures Obeyed(m, s, ms, Cleared(next))
  {
    ClearedTouches(next);
    hide Cleared, Agrees;
  }

  lemma AfterLeaveHeard(v: View, s: Room)
    requires NearPicture(v, s) && (s.phase.Racing? || s.phase.Lobby? ==> v == Offline)
    ensures var (next, out) := AfterLeave(s);
            Deserted(next) || HearAll(v, Broadcasts(out)) == PictureOf(next)
  {
    var (s1, out1) := MaybeEndAllDead(s);
    var (s2, out2) := MaybeEndGrace(s1);
    BroadcastsMore(out1, out2);
    BroadcastsMore(out1 + out2, Announce(s2));
    AnnounceTold(SILENCE, s2);
    ClearedTouches(s);
    hide HearAll, Cleared, Picture, SimPicture, AnyRunning, Obeyed;
    AfterLeaveClears(s);
    if AllDeadIn(s.phase) {
      BroadcastsAll([SessionEnd(AllDead), RosterMsg(s1)]);
      EndedHeard(v, AllDead, RosterMsg(s1), RosterMsg(s2));
      assert [SessionEnd(AllDead), RosterMsg(s1)] + [] + [RosterMsg(s2)] == [SessionEnd(AllDead), RosterMsg(s1), RosterMsg(s2)];
    } else if InGrace(s) && !AnyRunning(s) {
      BroadcastsAll([AttemptExpired(false, true), RosterMsg(s2)]);
      OfflineHears(AttemptExpired(false, true), RosterMsg(s2), RosterMsg(s2));
      assert [] + [AttemptExpired(false, true), RosterMsg(s2)] + [RosterMsg(s2)] == [AttemptExpired(false, true), RosterMsg(s2), RosterMsg(s2)];
    } else {
      AnnounceHeard(v, s2);
      assert [] + [] + [RosterMsg(s2)] == [RosterMsg(s2)];
    }
  }

  lemma OfflineHears(x: Msg, y: Msg, z: Msg)
    requires x.AttemptExpired? && y.RosterUpdate? && z.RosterUpdate?
    ensures HearAll(Offline, [x, y, z]) == Offline
  {
    HearTwo(Offline, x, y);
    HearMore(Offline, [x, y], [z]);
    HearOne(Offline, z);
    assert [x, y, z] == [x, y] + [z];
  }

  /** Only an empty room goes back to the lobby without a word. */
  lemma AfterLeaveClears(s: Room)
    ensures var s2 := MaybeEndGrace(MaybeEndAllDead(s).0).0;
            Deserted(AfterLeave(s).0) ||
              (AfterLeave(s).0 == s2 && AfterLeave(s).1 == MaybeEndAllDead(s).1 + MaybeEndGrace(MaybeEndAllDead(s).0).1 + Announce(s2))
  {
    var s2 := MaybeEndGrace(MaybeEndAllDead(s).0).0;
    NobodyReadyKeys(s2.roster);
    NonEmptyKeys(s2.roster.clients);
    NonEmptyKeys(Cleared(s2).roster.clients);
    ClearedTouches(s2);
    hide MaybeEndGrace, MaybeEndAllDead;
  }

  lemma VacatedTold(m: Monitor, t: Room, id: ClientId)
    ensures var msgs := Unseated(t, id).1;
            var left := Vacated(t, id);
            && Obeyed(m, t, msgs, left)
            && NearPicture(HearAll(PictureOf(t), msgs), left)
            && (NoSession(left.phase) ==> HearAll(PictureOf(t), msgs) == Offline)
  {
    var msgs := Unseated(t, id).1;
    var left := Vacated(t, id);
    OnlySimUnseats(t, id);
    HearNothing(PictureOf(t));
    TraceNothing(m);
    if t.phase.Simulated? {
      SimFallTold(m, t.phase.sim, id, Disconnect);
      SimFallSays(t.phase.sim, id, Disconnect);
    }
    hide HearAll, ObserveAll, LawfulTrace, M.MarkDead, Departed, PickOwner, Agrees, M.FrameOf;
    if t.phase.Simulated? {
      StaysInGeneration(m, msgs);
    }
  }

  lemma SimFallSays(sim: M.Sim, c: ClientId, cause: Reason)
    ensures var o := M.MarkDead(sim, c, cause);
            && o.sim == sim.(alive := o.sim.alive, game := o.sim.game)
            && HearAll(SimPicture(sim), o.out) == SimPicture(o.sim)
  {
    hide M.FrameOf, S.Kill, R.AllSeatsDead, HearAll;
    HearNothing(SimPicture(sim));
    var frame := CoopState(M.FrameOf(S.Kill(sim.game, c)));
    HearTwo(SimPicture(sim), SimDead(c, cause), frame);
  }

  predicate Deserted(s: Room) {
    s.roster.clients == map[] && s.phase.Lobby?
  }

  /** Told, unless the room has emptied and nobody is left to tell. */
  ghost predicate ToldIfHere(m: Monitor, s: Room, ms: seq<Msg>, next: Room) {
    Obeyed(m, s, ms, next) && (Deserted(next) || Heard(s, ms, next))
  }

  lemma ReleasedTold(m: Monitor, s: Room, id: ClientId)
    requires s.phase.Relayed? ==> RoomOk(s)
    ensures Told(m, s, Broadcasts(Released(s, id).out), Released(s, id).room)
  {
    hide Told, RoomOk, RelayAct;
    if s.phase.Relayed? {
      RelayActTold(m, s, R.GoneOp(id, Disconnect));
    } else {
      QuietTold(m, s, [], s);
    }
  }

  lemma LeaveTold(m: Monitor, s: Room, id: ClientId)
    requires s.phase.Relayed? ==> RoomOk(s)
    ensures var (next, out) := Leave(s, id); ToldIfHere(m, s, Broadcasts(out), next)
  {
    hide RoomOk, HearAll, AfterLeave, Unseated, Departed, RoomAgrees;
    if id in s.roster.clients {
      var gone := Released(s, id);
      var msgs := Unseated(gone.room, id).1;
      var left := Vacated(gone.room, id);
      var (next, out) := AfterLeave(left);
      ReleasedTold(m, s, id);
      var x := Broadcasts(gone.out);
      var m1 := ObserveAll(m, x);
      VacatedTold(m1, gone.room, id);
      ObeyedChain(m, s, x, gone.room, msgs, left);
      TraceMore(m, x, msgs);
      AfterLeaveObeyed(ObserveAll(m, x + msgs), left);
      ObeyedChain(m, s, x + msgs, left, Broadcasts(out), next);
      BroadcastsAll(msgs);
      BroadcastsMore(gone.out, All(msgs));
      BroadcastsMore(gone.out + All(msgs), out);
      var v := HearAll(PictureOf(gone.room), msgs);
      AfterLeaveHeard(v, left);
      HearMore(PictureOf(s), x, msgs);
      HearMore(PictureOf(s), x + msgs, Broadcasts(out));
      assert Leave(s, id) == (next, gone.out + All(msgs) + out);
    } else {
      LeaveStranger(s, id);
      QuietTold(m, s, [], s);
    }
  }

  lemma ClearedKeys(s: Room)
    ensures Cleared(s).roster.clients.Keys == s.roster.clients.Keys
  {
  }

  lemma RelayActKeys(s: Room, op: R.Op)
    requires s.phase.Relayed?
    ensures RelayAct(s, op).room.roster.clients.Keys == s.roster.clients.Keys
  {
    hide R.Perform, Cleared;
    ClearedKeys(s.(phase := Relayed(R.Perform(s.phase.relay, s.roster.clients.Keys, op).relay)));
  }

  lemma AfterLeaveKeys(s: Room)
    ensures AfterLeave(s).0.roster.clients.Keys == s.roster.clients.Keys
  {
    var s1 := MaybeEndAllDead(s).0;
    ClearedKeys(s);
    ClearedKeys(MaybeEndGrace(s1).0);
    hide Cleared, AllDeadIn, AnyRunning;
  }

  lemma LeaveKeys(s: Room, id: ClientId)
    ensures Leave(s, id).0.roster.clients.Keys == s.roster.clients.Keys - {id}
  {
    hide AfterLeave, Unseated, RelayAct, NextAdmin;
    if id in s.roster.clients {
      if s.phase.Relayed? {
        RelayActKeys(s, R.GoneOp(id, Disconnect));
      }
      var left := Vacated(Released(s, id).room, id);
      AfterLeaveKeys(left);
      assert Leave(s, id).0 == AfterLeave(left).0;
      assert left.roster.clients.Keys == s.roster.clients.Keys - {id};
    }
  }

  lemma KickTold(m: Monitor, s: Room, from: ClientId, target: Option<ClientId>)
    requires RoomOk(s)
    ensures var d := Kick(s, from, target); Told(m, s, Broadcasts(d.out), d.room)
  {
    QuietTold(m, s, [], s);
    if IsAdmin(s, from) && target.Some? && target.value != from && target.value in s.roster.clients {
      KickedTold(m, s, from, target.value);
    }
    hide SeatGone, Leave, RoomOk, Told;
  }

  lemma AdminIsHere(s: Room, from: ClientId)
    requires RoomOk(s) && IsAdmin(s, from)
    ensures from in s.roster.clients
  {
    hide OrdersOk, ColorsLocked;
  }

  lemma LeaveToldHere(m: Monitor, s: Room, id: ClientId, from: ClientId)
    requires (s.phase.Relayed? ==> RoomOk(s)) && from in s.roster.clients && from != id
    ensures Told(m, s, Broadcasts(Leave(s, id).1), Leave(s, id).0)
  {
    hide RoomOk, Leave, Obeyed, Heard;
    LeaveTold(m, s, id);
    LeaveKeys(s, id);
    assert from in Leave(s, id).0.roster.clients;
  }

  lemma KickIs(s: Room, from: ClientId, id: ClientId)
    requires IsAdmin(s, from) && id != from && id in s.roster.clients
    ensures var gone := SeatGone(s, id, Kicked);
            var (left, out) := Leave(gone.room, id);
            Kick(s, from, Some(id)) ==
            Accept(left, gone.out + To(id, [Error(WasKicked)]) + All([KickNotice(id)]) + out)
  {
    hide SeatGone, Leave;
  }

  lemma KickedTold(m: Monitor, s: Room, from: ClientId, id: ClientId)
    requires RoomOk(s) && IsAdmin(s, from) && id != from && id in s.roster.clients
    ensures var d := Kick(s, from, Some(id)); Told(m, s, Broadcasts(d.out), d.room)
  {
    hide RoomOk, SeatGone, Leave, Told, Kick, Broadcasts, To, All;
    AdminIsHere(s, from);
    KickIs(s, from, id);
    var gone := SeatGone(s, id, Kicked);
    var (left, out) := Leave(gone.room, id);
    SeatGoneSound(s, id, Kicked);
    SeatGoneTold(m, s, id, Kicked);
    var x := Broadcasts(gone.out);
    var notice := [KickNotice(id)];
    QuietTold(ObserveAll(m, x), gone.room, notice, gone.room);
    ToldChain(m, s, x, gone.room, notice, gone.room);
    LeaveToldHere(ObserveAll(m, x + notice), gone.room, id, from);
    ToldChain(m, s, x + notice, gone.room, Broadcasts(out), left);
    KickOut(gone.out, id, out);
  }

  lemma KickOut(first: seq<Out>, id: ClientId, rest: seq<Out>)
    ensures Broadcasts(first + To(id, [Error(WasKicked)]) + All([KickNotice(id)]) + rest) ==
            Broadcasts(first) + [KickNotice(id)] + Broadcasts(rest)
  {
    BroadcastsMore(first + To(id, [Error(WasKicked)]) + All([KickNotice(id)]), rest);
    BroadcastsMore(first + To(id, [Error(WasKicked)]), All([KickNotice(id)]));
    BroadcastsMore(first, To(id, [Error(WasKicked)]));
    BroadcastsTo(id, [Error(WasKicked)]);
    BroadcastsAll([KickNotice(id)]);
    assert Broadcasts(first) + [] == Broadcasts(first);
  }

  /** A seat taken away leaves the room sound enough for the departure to follow. */
  lemma SeatGoneSound(s: Room, id: ClientId, reason: Reason)
    requires RoomOk(s)
    ensures var gone := SeatGone(s, id, reason).room;
            && gone.roster.clients.Keys == s.roster.clients.Keys
            && (gone.phase.Relayed? ==> RoomOk(gone))
  {
    SeatGoneKeeps(s, id, reason);
    var gone := SeatGone(s, id, reason).room;
    var players := Players(s.roster.clients);
    hide SeatGone, RosterOk, Players, CoopOk;
    MorePlayers(gone, players - {id}, players);
  }

  // ---------------------------------------------------------------- sessions

  lemma EndSessionTold(m: Monitor, s: Room, from: ClientId)
    ensures var d := EndSession(s, from); Told(m, s, Broadcasts(d.out), d.room)
  {
    QuietTold(m, s, [], s);
    var next := AbortRun(s);
    EndTold(m, s, EndReason.Aborted, next);
    BroadcastsAll([SessionEnd(EndReason.Aborted), RosterMsg(next)]);
    hide Told, AbortRun;
    NoiseTold(ObserveAll(m, [SessionEnd(EndReason.Aborted)]), next, RosterMsg(next));
    ToldChain(m, s, [SessionEnd(EndReason.Aborted)], next, [RosterMsg(next)], next);
    assert [SessionEnd(EndReason.Aborted)] + [RosterMsg(next)] == [SessionEnd(EndReason.Aborted), RosterMsg(next)];
  }

  lemma ModeChangeTold(m: Monitor, s: Room, from: ClientId, mode: Option<Mode>)
    ensures var d := ModeChange(s, from, mode); Told(m, s, Broadcasts(d.out), d.room)
  {
    hide Told, TrimmedIfCoop;
    QuietTold(m, s, [], s);
    if IsAdmin(s, from) && mode.Some? {
      var next := ModeChange(s, from, mode).room;
      var first := [SessionEnd(EndReason.Aborted)];
      var rest := [ModeChanged(mode.value), RosterMsg(next)];
      EndTold(m, s, EndReason.Aborted, next);
      QuietTold(ObserveAll(m, first), next, rest, next);
      ToldChain(m, s, first, next, rest, next);
      assert first + rest == [SessionEnd(EndReason.Aborted), ModeChanged(mode.value), RosterMsg(next)];
      BroadcastsAll(first + rest);
    }
  }

  lemma RaceStartTold(m: Monitor, s: Room, settings: Settings)
    requires NoSession(s.phase)
    ensures Told(m, s, [RaceStart(settings)], s)
  {
    HearOne(Offline, RaceStart(settings));
    TraceOne(m, RaceStart(settings));
    hide HearAll, ObserveAll, LawfulTrace;
  }

  lemma StartRaceTold(m: Monitor, s: Room, finishOngoing: Option<bool>, now: nat)
    requires NoSession(s.phase)
    ensures var d := StartRace(s, finishOngoing, now); Told(m, s, Broadcasts(d.out), d.room)
  {
    hide Told;
    var next := StartRace(s, finishOngoing, now).room;
    var first := [RaceStart(s.settings)];
    var rest := [PlaySync, RosterMsg(next)];
    RaceStartTold(m, s, s.settings);
    QuietTold(ObserveAll(m, first), s, rest, next);
    ToldChain(m, s, first, s, rest, next);
    assert first + rest == [RaceStart(s.settings), PlaySync, RosterMsg(next)];
    BroadcastsAll(first + rest);
  }

  lemma OpeningTold(m: Monitor, s: Room, relay: R.Relay, next: Room)
    requires NoSession(s.phase) && next.phase == Relayed(relay) && relay.generation == next.generation == s.generation + 1
    requires relay.native == R.NewNative(relay.owner, relay.settings.speed) && relay.timer == None && relay.owner.Some?
    requires forall id :: id in relay.slots || id in relay.alive ==> R.Alive(relay.alive, id)
    ensures Told(m, s, R.Opening(relay), next)
  {
    OpeningHeard(Offline, relay);
    if RoomAgrees(m, s) {
      OpeningObeys(m, relay);
    }
    hide HearAll, LawfulTrace, ObserveAll, R.Opening, Picture;
  }

  lemma SimOpeningTold(m: Monitor, s: Room, sim: M.Sim, next: Room)
    requires NoSession(s.phase) && next.phase == Simulated(sim) && sim.generation == next.generation == s.generation + 1
    requires sim.timer.None?
    ensures Told(m, s, [SessionStart(SimMeta(sim)), PlaySync] + [CoopState(M.FrameOf(sim.game))], next)
  {
    hide HearAll, LawfulTrace, ObserveAll, M.FrameOf;
    var start := SessionStart(SimMeta(sim));
    var frame := CoopState(M.FrameOf(sim.game));
    HearTwo(Offline, start, PlaySync);
    HearMore(Offline, [start, PlaySync], [frame]);
    HearOne(HearAll(Offline, [start, PlaySync]), frame);
    TraceTwo(m, start, PlaySync);
    TraceMore(m, [start, PlaySync], [frame]);
    TraceOne(ObserveAll(m, [start, PlaySync]), frame);
  }

  lemma StartRelayTold(m: Monitor, s: Room, seed: bv64)
    requires NoSession(s.phase) && s.relayEnabled && FirstOwner(s.roster.admin, FirstSeats(s.roster.clients)).Some?
    ensures var d := StartCoop(s, seed); Told(m, s, Broadcasts(d.out), d.room)
  {
    hide Told, FirstSeats, FirstOwner;
    var d := StartCoop(s, seed);
    var relay := d.room.phase.relay;
    assert d.out == All(R.Opening(relay) + [RosterMsg(d.room)]);
    assert relay.generation == s.generation + 1;
    hide StartCoop, R.Opening, All;
    OpeningTold(m, s, relay, d.room);
    ThenRosterTold(m, s, R.Opening(relay), d.room);
  }

  lemma StartSimTold(m: Monitor, s: Room, seed: bv64)
    requires NoSession(s.phase) && !s.relayEnabled
    ensures var d := StartCoop(s, seed); Told(m, s, Broadcasts(d.out), d.room)
  {
    hide Told, FirstSeats, FirstOwner, S.NewGame, M.FrameOf, SeatsOf, SimConfig;
    var d := StartCoop(s, seed);
    var sim := d.room.phase.sim;
    var ms := [SessionStart(SimMeta(sim)), PlaySync] + [CoopState(M.FrameOf(sim.game))];
    assert ms + [RosterMsg(d.room)] == [SessionStart(SimMeta(sim)), PlaySync, CoopState(M.FrameOf(sim.game)), RosterMsg(d.room)];
    assert d.out == All(ms + [RosterMsg(d.room)]);
    assert sim.generation == s.generation + 1 && sim.timer.None?;
    hide StartCoop, SimMeta, All;
    SimOpeningTold(m, s, sim, d.room);
    ThenRosterTold(m, s, ms, d.room);
  }

  lemma StartCoopTold(m: Monitor, s: Room, seed: bv64)
    requires RoomOk(s) && s.mode == Coop && s.phase.Lobby? && AllPlayersReady(s.roster.clients)
    ensures var d := StartCoop(s, seed); Told(m, s, Broadcasts(d.out), d.room)
  {
    hide Told, RosterOk, FirstSeats, FirstOwner, AllPlayersReady, StartCoop;
    FirstSeatsArePlayers(s.roster);
    FirstOwnerIsSeated(s.roster.admin, FirstSeats(s.roster.clients));
    if s.relayEnabled {
      StartRelayTold(m, s, seed);
    } else {
      StartSimTold(m, s, seed);
    }
  }

  lemma ThenRosterTold(m: Monitor, s: Room, ms: seq<Msg>, next: Room)
    requires Told(m, s, ms, next)
    ensures Told(m, s, Broadcasts(All(ms + [RosterMsg(next)])), next)
  {
    hide Told;
    NoiseTold(ObserveAll(m, ms), next, RosterMsg(next));
    ToldChain(m, s, ms, next, [RosterMsg(next)], next);
    BroadcastsAll(ms + [RosterMsg(next)]);
  }

  lemma StartSessionTold(m: Monitor, s: Room, from: ClientId, settings: Option<Settings>, finishOngoing: Option<bool>, now: nat, seed: bv64)
    requires RoomOk(s)
    ensures var d := StartSession(s, from, settings, finishOngoing, now, seed); Told(m, s, Broadcasts(d.out), d.room)
  {
    hide Told, StartRace, StartCoop, AllPlayersReady;
    QuietTold(m, s, [], s);
    var staged := s.(settings := settings.GetOr(s.settings));
    AttemptKeeps(s, s.attempt, settings.GetOr(s.settings));
    assert staged == s.(attempt := s.attempt, settings := settings.GetOr(s.settings));
    RacesAreNoSession(s);
    hide RoomOk;
    QuietTold(m, s, [], staged);
    var m1 := ObserveAll(m, []);
    if s.mode == Race {
      StartRaceTold(m1, staged, finishOngoing, now);
      ToldChain(m, s, [], staged, Broadcasts(StartRace(staged, finishOngoing, now).out), StartRace(staged, finishOngoing, now).room);
      assert [] + Broadcasts(StartRace(staged, finishOngoing, now).out) == Broadcasts(StartRace(staged, finishOngoing, now).out);
    } else if s.phase.Lobby? && AllPlayersReady(s.roster.clients) {
      StartCoopTold(m1, staged, seed);
      ToldChain(m, s, [], staged, Broadcasts(StartCoop(staged, seed).out), StartCoop(staged, seed).room);
      assert [] + Broadcasts(StartCoop(staged, seed).out) == Broadcasts(StartCoop(staged, seed).out);
    }
  }

  lemma RacesAreNoSession(s: Room)
    requires RoomOk(s)
    ensures s.mode == Race ==> NoSession(s.phase)
    ensures s.phase.Simulated? ==> M.InPlay(s.phase.sim.game)
  {
    hide RosterOk, RI.RelayOk, M.SeatsMatch, M.AliveMatches, M.ClockOk;
  }

  // ---------------------------------------------------------------- play and time

  lemma InputTold(m: Monitor, s: Room, from: ClientId, dir: DirField, now: nat)
    requires RoomOk(s)
    ensures var d := Input(s, from, dir, now); Told(m, s, Broadcasts(d.out), d.room)
  {
    RacesAreNoSession(s);
    hide Told, RoomOk, SimAct, M.Input, SimTold;
    QuietTold(m, s, [], s);
    if s.phase.Simulated? && dir.Heading? {
      SimInputTold(m, s.phase.sim, from, dir.dir, now);
      SimActTold(m, s, M.Input(s.phase.sim, from, dir.dir, now));
    }
  }

  lemma PulseTold(m: Monitor, s: Room, from: ClientId, p: RaceScore.Pulse)
    requires RoomOk(s)
    ensures var d := Pulse(s, from, p); Told(m, s, Broadcasts(d.out), d.room)
  {
    RacesAreNoSession(s);
    hide Told, RoomOk, MaybeEndGrace, RaceScore.AfterPulse, CleanPulse;
    QuietTold(m, s, [], s);
    if from in s.roster.clients && s.mode == Race {
      var before := if from in s.attempt.scores then s.attempt.scores[from] else RaceScore.FRESH;
      var entry := RaceScore.AfterPulse(s.attempt.goal, before, CleanPulse(p, s.attempt.expired));
      var scored := s.(attempt := s.attempt.(scores := s.attempt.scores[from := entry]));
      var (next, out) := MaybeEndGrace(scored);
      var first := [ScorePulse(from, entry)];
      QuietTold(m, s, first, scored);
      MaybeEndGraceTold(ObserveAll(m, first), scored);
      ToldChain(m, s, first, scored, Broadcasts(out), next);
      BroadcastsAll(first);
      BroadcastsMore(All(first), out);
    }
  }

  lemma GoalTold(m: Monitor, s: Room, from: ClientId, g: GoalIn)
    ensures var d := Goal(s, from, g); Told(m, s, Broadcasts(d.out), d.room)
  {
    hide Told, R.CheckGoal;
    QuietTold(m, s, [], s);
    EndCoopTold(m, s, AllApples);
    hide EndCoop;
  }

  lemma PublishTold(m: Monitor, s: Room, op: R.Op)
    requires RoomOk(s)
    ensures var d := Publish(s, op); Told(m, s, Broadcasts(d.out), d.room)
  {
    hide Told, RoomOk, RelayAct;
    QuietTold(m, s, [], s);
    if s.phase.Relayed? {
      RelayActTold(m, s, op);
    }
  }

  lemma RaceTickTold(m: Monitor, s: Room, now: nat)
    requires NoSession(s.phase)
    ensures var d := RaceTick(s, now); Told(m, s, Broadcasts(d.out), d.room)
  {
    hide Told, MaybeEndGrace;
    QuietTold(m, s, [], s);
    var expired := s.(attempt := s.attempt.(expired := true, allowNew := false));
    if s.attempt.finishOngoing {
      var first := [AttemptExpired(true, false), RosterMsg(expired)];
      QuietTold(m, s, first, expired);
      MaybeEndGraceTold(ObserveAll(m, first), expired);
      ToldChain(m, s, first, expired, Broadcasts(MaybeEndGrace(expired).1), MaybeEndGrace(expired).0);
      BroadcastsAll(first);
      BroadcastsMore(All(first), MaybeEndGrace(expired).1);
    } else {
      var closed := expired.(phase := Lobby, attempt := expired.attempt.(deadline := None));
      var ms := [AttemptExpired(false, false), RosterMsg(closed)];
      QuietTold(m, s, ms, closed);
      BroadcastsAll(ms);
    }
  }

  lemma TickTold(m: Monitor, s: Room, now: nat)
    requires RoomOk(s)
    ensures var d := Tick(s, now); Told(m, s, Broadcasts(d.out), d.room)
  {
    RacesAreNoSession(s);
    hide Told, RoomOk, RaceTick, SimAct, M.Tick, SimTold;
    QuietTold(m, s, [], s);
    if s.mode == Race {
      RaceTickTold(m, s, now);
    } else if s.phase.Simulated? {
      SimTickTold(m, s.phase.sim);
      SimActTold(m, s, M.Tick(s.phase.sim));
    }
  }

  // ---------------------------------------------------------------- every command

  lemma ColorTold(m: Monitor, s: Room, from: ClientId, color: Option<nat>)
    ensures var d := ColorClaim(s, from, color); Told(m, s, Broadcasts(d.out), d.room)
  {
    hide Told, Painted, ColorLocked, Colors.Claimable;
    QuietTold(m, s, [], s);
    if color.Some? && from in s.roster.clients {
      var next := s.(roster := Painted(s.roster, from, color.value % 256));
      PlainTold(m, s, [RosterMsg(next)], next);
    }
  }

  lemma ReadyTold(m: Monitor, s: Room, from: ClientId, ready: Option<bool>)
    ensures var d := Ready(s, from, ready); Told(m, s, Broadcasts(d.out), d.room)
  {
    hide Told, Readied;
    QuietTold(m, s, [], s);
    if from in s.roster.clients {
      var next := s.(roster := Readied(s.roster, s.mode, from, ready.GetOr(true)));
      PlainTold(m, s, [RosterMsg(next)], next);
    }
  }

  lemma LobbyTold(m: Monitor, s: Room, from: ClientId, q: Request, now: nat, seed: bv64)
    requires q.SetDurationReq? || q.SetRaceGoalReq? || q.SettingsSyncReq? || q.PlaySyncReq? || q.AdminTransferReq? || q.ServerOwnedReq?
    ensures var d := Perform(s, from, q, now, seed); Told(m, s, Broadcasts(d.out), d.room)
  {
    hide Told, RaceScore.AfterGoalChange, AllPlayersReady, Broadcasts;
    QuietTold(m, s, [], s);
    NothingSent();
    var d := Perform(s, from, q, now, seed);
    if d.out != [] {
      assert d.out == All([d.out[0].msg]);
      PlainTold(m, s, [d.out[0].msg], d.room);
    }
  }

  lemma NothingSent()
    ensures Broadcasts([]) == []
  {
  }

  lemma ResyncTold(m: Monitor, s: Room, from: ClientId)
    ensures var d := Resync(s, from); Told(m, s, Broadcasts(d.out), d.room)
    ensures DirectedTo(from, Resync(s, from).out) == ReplayMsgs(s) + [RosterMsg(s)]
  {
    hide Told, ReplayMsgs;
    BroadcastsTo(from, ReplayMsgs(s) + [RosterMsg(s)]);
    QuietTold(m, s, [], s);
  }

  lemma PerformTold(m: Monitor, s: Room, from: ClientId, q: Request, now: nat, seed: bv64)
    requires RoomOk(s)
    ensures var d := Perform(s, from, q, now, seed); Told(m, s, Broadcasts(d.out), d.room)
  {
    hide Told, RoomOk, SetRole, Kick, SetDuration, SetRaceGoal, Ready, ColorClaim, ModeChange, StartSession, EndSession,
         Input, Pulse, AdminTransfer, Publish, Goal, SyncSettings, SyncPlay, Resync, Broadcasts, ShiftSpeed;
    match q
    case SetRoleReq(target, role) => SetRoleTold(m, s, from, target, role);
    case KickReq(target) => KickTold(m, s, from, target);
    case ReadyReq(ready) => ReadyTold(m, s, from, ready);
    case ColorClaimReq(color) => ColorTold(m, s, from, color);
    case ModeChangeReq(mode) => ModeChangeTold(m, s, from, mode);
    case SessionStartReq(bundle, finishOngoing) => StartSessionTold(m, s, from, bundle, finishOngoing, now, seed);
    case SessionEndReq => EndSessionTold(m, s, from);
    case InputReq(dir) => InputTold(m, s, from, dir, now);
    case PulseReq(pulse) => PulseTold(m, s, from, pulse);
    case ResyncReq => ResyncTold(m, s, from);
    case PoseReq(pose) => PublishTold(m, s, R.PoseOp(from, pose, now));
    case BoardReq(board) => PublishTold(m, s, R.BoardOp(from, board));
    case DeathReq(death) => PublishTold(m, s, R.DeathOp(from, death));
    case SpeedReq(speed) => SpeedTold(m, s, from, speed);
    case GoalReq(claim) => GoalTold(m, s, from, claim);
    case _ => LobbyTold(m, s, from, q, now, seed);
  }

  lemma SpeedTold(m: Monitor, s: Room, from: ClientId, e: SpeedIn)
    requires RoomOk(s)
    ensures var d := ShiftSpeed(s, from, e); Told(m, s, Broadcasts(d.out), d.room)
  {
    hide Told, RoomOk, RelayAct;
    PublishTold(m, s, R.SpeedOp(from, e));
    QuietTold(m, s, [], s);
  }

  /** Every command keeps the trace lawful, and everyone who is still there in the picture. */
  lemma ApplyTold(m: Monitor, s: Room, c: Cmd)
    requires RoomOk(s)
    ensures var d := Apply(s, c); ToldIfHere(m, s, Broadcasts(d.out), d.room)
  {
    hide RoomOk, Join, Leave, Tick, Perform, Broadcasts, Obeyed, Heard;
    match c
    case JoinCmd(id, sameRoom) => JoinTold(m, s, id, sameRoom);
    case LeaveCmd(id) => LeaveTold(m, s, id);
    case TickCmd(now) => TickTold(m, s, now);
    case Handle(from, request, now, seed) =>
      PerformTold(m, s, from, request, now, seed);
      AnsweredSays(Perform(s, from, request, now, seed), from);
  }

  lemma AnsweredSays(d: Done, from: ClientId)
    ensures Broadcasts(Answered(d, from).out) == Broadcasts(d.out) && Answered(d, from).room == d.room
  {
    if d.err.Some? {
      BroadcastsMore(d.out, To(from, [Error(d.err.value)]));
      BroadcastsTo(from, [Error(d.err.value)]);
      assert Broadcasts(d.out) + [] == Broadcasts(d.out);
    }
  }
}
