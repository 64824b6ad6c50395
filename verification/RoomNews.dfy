/** What every run of a room tells: the laws of its broadcasts, from a new room on. */
module RoomNews {
  import opened Prelude
  import opened RoomTypes
  import opened RoomSpec
  import opened RoomInv
  import opened RoomTrace
  import opened RoomRuns
  import opened RelayTrace
  import opened TraceLaws
  import R = Relay

  /** After any run of a new room its broadcasts are lawful and the monitor is in step. */
  lemma NewsIsLawful(relayEnabled: bool, settings: Settings, cs: seq<Cmd>)
    requires EnabledRun(NewRoom(relayEnabled, settings), cs)
    ensures var s0 := NewRoom(relayEnabled, settings);
            LawfulTrace(SILENCE, Heralded(s0, cs)) && RoomAgrees(ObserveAll(SILENCE, Heralded(s0, cs)), Run(s0, cs))
  {
    NewRoomOk(relayEnabled, settings);
    hide RoomOk, EnabledRun;
    TraceOverRun(NewRoom(relayEnabled, settings), cs);
  }

  /** The shared timer of a relayed session starts with its first move and not before: over every run,
      the first pose of a generation that has moved is followed at once by the start of its timer, no
      timer starts otherwise, and the room's timer runs exactly when such a pose has been seen. */
  lemma TimerStartsWithFirstMove(relayEnabled: bool, settings: Settings, cs: seq<Cmd>)
    requires EnabledRun(NewRoom(relayEnabled, settings), cs)
    ensures var xs := Heralded(NewRoom(relayEnabled, settings), cs);
            var s := Run(NewRoom(relayEnabled, settings), cs);
            && TimersFollowMoves(xs)
            && (s.phase.Relayed? ==> (s.phase.relay.timer.Some? <==> MovedIn(xs, s.generation)))
  {
    var xs := Heralded(NewRoom(relayEnabled, settings), cs);
    NewsIsLawful(relayEnabled, settings, cs);
    hide Heralded, Run, EnabledRun, LawfulTrace, ObserveAll, MovedIn, RoomAgrees, TimersFollowMoves, Timed;
    TimerIsTimed(xs);
    StateIsTimed(ObserveAll(SILENCE, xs), Run(NewRoom(relayEnabled, settings), cs), xs);
    TimersAreInStep(xs);
  }

  lemma StateIsTimed(m: Monitor, s: Room, xs: seq<Msg>)
    requires RoomAgrees(m, s) && Timed(xs, m)
    ensures !m.due && (s.phase.Relayed? ==> (s.phase.relay.timer.Some? <==> MovedIn(xs, s.generation)))
  {
    hide MovedIn, SameNumbers, SameDead, SameShown;
  }

  /** Over every run: a board is asked for, after a death, of the first seat nobody has reported dead;
      every pose is that of a living seat, with its bodies on the board; and a corpse shows the last
      pose of its player, or nothing, or a body on the board. */
  lemma NewsFits(relayEnabled: bool, settings: Settings, cs: seq<Cmd>, j: nat)
    requires EnabledRun(NewRoom(relayEnabled, settings), cs)
    requires j < |Heralded(NewRoom(relayEnabled, settings), cs)|
    ensures var xs := Heralded(NewRoom(relayEnabled, settings), cs);
            var start := LastStart(xs[..j]);
            && (xs[j].BoardInit? || xs[j].SnakeDelta? || xs[j].PlayerDead? ==> start.Some?)
            && (xs[j].BoardInit? && FallenIn(xs[..j]) != {} ==>
                  FirstLeft(start.value.slots, FallenIn(xs[..j]), xs[j].initializer))
            && (xs[j].SnakeDelta? ==>
                  && xs[j].figure.Live?
                  && xs[j].figure.pose.client in start.value.slots && xs[j].figure.pose.client !in FallenIn(xs[..j])
                  && OnBoard(xs[j].figure.pose.body, RelayDims(start.value.settings))
                  && (R.Present(xs[j].figure.pose.body2) ==> OnBoard(xs[j].figure.pose.body2, RelayDims(start.value.settings))))
            && (xs[j].PlayerDead? ==>
                  && xs[j].figure.Corpse?
                  && xs[j].figure.client in start.value.slots && xs[j].figure.client !in FallenIn(xs[..j])
                  && (xs[j].figure.remains.LastPose? ==> ShownIn(xs[..j], xs[j].figure.client) == Some(xs[j].figure.remains.pose))
                  && (xs[j].figure.remains.Nothing? ==> ShownIn(xs[..j], xs[j].figure.client) == None)
                  && (xs[j].figure.remains.Report? ==> OnBoardOrGone(xs[j].figure.remains.body, RelayDims(start.value.settings))))
  {
    var xs := Heralded(NewRoom(relayEnabled, settings), cs);
    NewsIsLawful(relayEnabled, settings, cs);
    hide Heralded, Run, EnabledRun, LawfulTrace, ObserveAll, RoomAgrees, OnBoard, OnBoardOrGone, FirstLeft, LastStart, FallenIn, ShownIn;
    if xs[j].BoardInit? {
      HandoverGoesToFirstSeat(xs, j);
    } else if xs[j].SnakeDelta? {
      PosesLieOnTheBoard(xs, j);
    } else if xs[j].PlayerDead? {
      CorpsesShowLastPoses(xs, j);
    }
  }
}
