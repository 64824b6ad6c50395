/** The receiving client as a fold over messages, and the two ways to reach the same picture:
    hearing every broadcast of the generation, or hearing one replay. */
module RelayView {
  import opened Prelude
  import opened Grid
  import opened RoomTypes
  import opened Relay
  import opened RelayInv
  import T = Turns

  /** What a receiver knows of a co-op session. */
  datatype View =
    | Offline
    | Online(generation: nat, settings: Settings, slots: seq<ClientId>, relay: bool, owner: Option<ClientId>,
             board: Option<Board>, revision: nat, ready: bool, modeKey: Option<ModeKey>,
             figures: map<ClientId, Figure>, timer: Option<nat>, epoch: nat, speed: Speed, frame: Option<Frame>)

  function Enter(m: Meta): View {
    Online(m.generation, m.settings, m.slots, m.relay, m.owner, None, m.revision, m.ready, m.modeKey, map[], m.timer,
           m.epoch, m.speed, None)
  }

  /** One message. A board that becomes ready makes the receiver forget the poses seen so far. */
  function Hear(v: View, m: Msg): View {
    if m.SessionStart? then Enter(m.meta)
    else if m.SessionEnd? || m.RaceStart? then Offline
    else if v.Offline? then v
    else
      match m
      case BoardInit(_, initializer) => v.(owner := Some(initializer))
      case CollectablesDelta(board) => v.(board := Some(board), revision := board.revision)
      case BoardReady(_, revision, owner, modeKey) =>
        v.(ready := true, revision := revision, owner := owner, modeKey := modeKey, figures := map[])
      case SnakeDelta(figure) => v.(figures := v.figures[Owner(figure) := figure])
      case PlayerDead(figure) => v.(figures := v.figures[Owner(figure) := figure])
      case TimerStart(_, timer) => v.(timer := Some(timer))
      case SpeedTransition(_, epoch, speed, _) => v.(epoch := epoch, speed := speed)
      case CoopState(frame) => v.(frame := Some(frame))
      case RosterUpdate(_, _, _, owner) => v.(owner := owner)
      case _ => v
  }

  function HearAll(v: View, ms: seq<Msg>): View
    decreases |ms|
  {
    if ms == [] then v else Hear(HearAll(v, ms[..|ms| - 1]), Last(ms))
  }

  lemma {:induction false} HearMore(v: View, a: seq<Msg>, b: seq<Msg>)
    ensures HearAll(v, a + b) == HearAll(HearAll(v, a), b)
    decreases |b|
  {
    if b == [] {
      assert a + b == a;
    } else {
      HearMore(v, a, b[..|b| - 1]);
      assert (a + b)[..|a + b| - 1] == a + b[..|b| - 1];
    }
  }

  lemma HearOne(v: View, m: Msg)
    ensures HearAll(v, [m]) == Hear(v, m)
  {
    assert [m][..0] == [];
  }

  lemma HearTwo(v: View, a: Msg, b: Msg)
    ensures HearAll(v, [a, b]) == Hear(Hear(v, a), b)
  {
    HearOne(v, a);
    assert [a, b][..1] == [a];
  }

  /** The picture that the room's own state calls for. */
  function Picture(r: Relay): View {
    Online(r.generation, r.settings, r.slots, true, r.owner, r.native.board, r.native.revision, r.native.ready,
           r.native.modeKey, r.native.poses, r.timer, r.native.epoch, r.native.speed, None)
  }

  // ---------------------------------------------------------------- history

  lemma PoseHeard(r: Relay, here: set<ClientId>, from: ClientId, p: PoseIn, now: nat)
    ensures var o := PublishPose(r, here, from, p, now); HearAll(Picture(r), o.out) == Picture(o.relay)
  {
    hide CheckPose, CheckTurns, HearAll;
    if p.eventSeq.Some? && p.poseSeq.Some? && CheckTurns(r, from, p).Ok? {
      var journal := CheckTurns(r, from, p).value;
      var pose := CleanPose(r, from, p, journal.turns);
      HearOne(Picture(r), SnakeDelta(Live(pose)));
      HearTwo(Picture(r), SnakeDelta(Live(pose)), TimerStart(Some(r.generation), now));
    }
    HearNothing(Picture(r));
  }

  lemma HearNothing(v: View)
    ensures HearAll(v, []) == v
  {
  }

  lemma BoardHeard(r: Relay, here: set<ClientId>, players: set<ClientId>, from: ClientId, b: BoardIn)
    requires RelayOk(r, players)
    ensures var o := PublishBoard(r, here, from, b); HearAll(Picture(r), o.out) == Picture(o.relay)
  {
    hide HearAll, SlotsOk, SeatsOk, FiguresOk, JournalsOk;
    var o := PublishBoard(r, here, from, b);
    HearNothing(Picture(r));
    if |o.out| == 2 {
      HearTwo(Picture(r), o.out[0], o.out[1]);
      assert o.out == [o.out[0], o.out[1]];
    } else if |o.out| == 1 {
      HearOne(Picture(r), o.out[0]);
      assert o.out == [o.out[0]];
    }
  }

  lemma FallHeard(r: Relay, here: set<ClientId>, players: set<ClientId>, c: ClientId, reason: Reason, remains: Remains)
    requires RelayOk(r, players) && players <= here
    ensures var o := MarkDead(r, here, c, reason, remains); !o.over ==> HearAll(Picture(r), o.out) == Picture(o.relay)
  {
    hide HearAll, FiguresOk, JournalsOk, RelayOk;
    FallKeeps(r, here, players, c, reason, remains);
    HearNothing(Picture(r));
    if c in r.slots && Alive(r.alive, c) {
      var fallen := Fall(r, c, reason, remains);
      var dead := PlayerDead(Corpse(c, r.generation, reason, remains));
      HearOne(Picture(r), dead);
      assert Hear(Picture(r), dead) == Picture(fallen);
      HandedOver(r, here, players, c, reason, remains);
    }
  }

  lemma HandedOver(r: Relay, here: set<ClientId>, players: set<ClientId>, c: ClientId, reason: Reason, remains: Remains)
    requires RelayOk(r, players) && players <= here && c in r.slots && Alive(r.alive, c)
    requires var dead := PlayerDead(Corpse(c, r.generation, reason, remains));
             Hear(Picture(r), dead) == Picture(Fall(r, c, reason, remains))
    ensures var fallen := Fall(r, c, reason, remains);
            var dead := PlayerDead(Corpse(c, r.generation, reason, remains));
            var next := HandOff(fallen, here);
            && ([dead] + [] == [dead])
            && (!AllSeatsDead(fallen.slots, fallen.alive) ==>
                  HearAll(Picture(r), [dead] + InitRequest(next)) == Picture(next))
  {
    var fallen := Fall(r, c, reason, remains);
    var dead := PlayerDead(Corpse(c, r.generation, reason, remains));
    FallenOk(r, players, c, reason, remains);
    hide HearAll, FiguresOk, JournalsOk, NextInitializer, Fall;
    if !AllSeatsDead(fallen.slots, fallen.alive) {
      SomeoneTakesOver(fallen, here, players);
      var next := HandOff(fallen, here);
      HearTwo(Picture(r), dead, BoardInit(fallen.generation, next.native.initializer.value));
      assert [dead] + InitRequest(next) == [dead, BoardInit(fallen.generation, next.native.initializer.value)];
    }
  }

  lemma DeathHeard(r: Relay, here: set<ClientId>, players: set<ClientId>, from: ClientId, d: DeathIn)
    requires RelayOk(r, players) && players <= here
    ensures var o := PublishDeath(r, here, from, d); !o.over ==> HearAll(Picture(r), o.out) == Picture(o.relay)
  {
    var seated := r.(seated := r.seated + {from});
    SeatingKeeps(r, players, from);
    hide *;
    DeathHeardSeated(r, here, players, from, d);
  }

  lemma DeathHeardSeated(r: Relay, here: set<ClientId>, players: set<ClientId>, from: ClientId, d: DeathIn)
    requires RelayOk(r.(seated := r.seated + {from}), players) && players <= here
    ensures var o := PublishDeath(r, here, from, d); !o.over ==> HearAll(Picture(r), o.out) == Picture(o.relay)
  {
    var seated := r.(seated := r.seated + {from});
    HearNothing(Picture(r));
    hide RelayOk, CheckDeath, MarkDead, HearAll;
    if d.eventSeq.Some? {
      FallHeard(seated, here, players, from, if d.reason.Some? then Custom(d.reason.value) else OwnReport,
                Report(d.eventSeq.value, d.body, d.body2, d.look));
    }
  }

  lemma SpeedHeard(r: Relay, here: set<ClientId>, from: ClientId, s: SpeedIn)
    ensures var o := PublishSpeed(r, here, from, s); HearAll(Picture(r), o.out) == Picture(o.relay)
  {
    hide HearAll, CheckSender, NextSpeed;
    var o := PublishSpeed(r, here, from, s);
    HearNothing(Picture(r));
    if o.out != [] {
      HearOne(Picture(r), o.out[0]);
      assert o.out == [o.out[0]];
    }
  }

  /** A client that knows the room's picture knows it again after every handler's broadcasts. */
  lemma PerformHeard(r: Relay, here: set<ClientId>, players: set<ClientId>, op: Op)
    requires RelayOk(r, players) && players <= here
    ensures var o := Perform(r, here, op); !o.over ==> HearAll(Picture(r), o.out) == Picture(o.relay)
  {
    hide RelayOk, PublishPose, PublishBoard, PublishDeath, PublishSpeed, MarkDead, HearAll;
    match op
    case PoseOp(from, pose, now) => PoseHeard(r, here, from, pose, now);
    case BoardOp(from, board) => BoardHeard(r, here, players, from, board);
    case DeathOp(from, death) => DeathHeard(r, here, players, from, death);
    case SpeedOp(from, speed) => SpeedHeard(r, here, from, speed);
    case GoneOp(c, reason) => FallHeard(r, here, players, c, reason, RemainsOf(r, c));
  }

  /** The opening broadcasts of a generation give the picture of its first state. */
  lemma OpeningHeard(v: View, r: Relay)
    requires r.native == NewNative(r.owner, r.settings.speed) && r.timer == None && r.owner.Some?
    ensures HearAll(v, Opening(r)) == Picture(r)
  {
    var start := SessionStart(MetaOf(r));
    HearTwo(v, start, PlaySync);
    HearOne(Hear(Hear(v, start), PlaySync), BoardInit(r.generation, r.owner.value));
    HearMore(v, [start, PlaySync], InitRequest(r));
  }

  // ---------------------------------------------------------------- replay

  /** The stored figures of the first `k` seats. */
  function FiguresUpTo(r: Relay, k: nat): map<ClientId, Figure>
    requires k <= |r.slots|
  {
    map c | c in r.native.poses && c in r.slots[..k] :: r.native.poses[c]
  }

  lemma FiguresGrow(r: Relay, k: nat)
    requires 0 < k <= |r.slots|
    ensures var c := r.slots[k - 1];
            FiguresUpTo(r, k) ==
            if c in r.native.poses then FiguresUpTo(r, k - 1)[c := r.native.poses[c]] else FiguresUpTo(r, k - 1)
  {
    assert r.slots[..k] == r.slots[..k - 1] + [r.slots[k - 1]];
  }

  lemma {:induction false} FiguresReplayed(v: View, r: Relay, k: nat)
    requires v.Online? && v.figures == map[] && FiguresOk(r) && k <= |r.slots|
    ensures HearAll(v, FigureMsgs(r, k)) == v.(figures := FiguresUpTo(r, k))
    decreases k
  {
    hide FiguresOk;
    HearNothing(v);
    if k == 0 {
      assert FiguresUpTo(r, 0) == map[];
    } else {
      FiguresReplayed(v, r, k - 1);
      var c := r.slots[k - 1];
      FiguresGrow(r, k);
      var sofar := v.(figures := FiguresUpTo(r, k - 1));
      hide HearAll, FiguresUpTo, FigureMsg;
      HearNothing(sofar);
      if c in r.native.poses {
        FigureHeard(sofar, r, c);
        HearMore(v, FigureMsgs(r, k - 1), [FigureMsg(r.native.poses[c])]);
      } else {
        assert FigureMsgs(r, k) == FigureMsgs(r, k - 1);
      }
    }
  }

  lemma FigureHeard(v: View, r: Relay, c: ClientId)
    requires v.Online? && FiguresOk(r) && c in r.native.poses
    ensures HearAll(v, [FigureMsg(r.native.poses[c])]) == v.(figures := v.figures[c := r.native.poses[c]])
  {
    HearOne(v, FigureMsg(r.native.poses[c]));
  }

  lemma BoardReplayed(r: Relay, players: set<ClientId>)
    requires RelayOk(r, players)
    ensures HearAll(Enter(MetaOf(r)), BoardMsgs(r)) == Enter(MetaOf(r)).(board := r.native.board)
  {
    var v := Enter(MetaOf(r));
    if r.native.board.Some? {
      HearTwo(v, BoardMsgs(r)[0], BoardMsgs(r)[1]);
      assert BoardMsgs(r) == [BoardMsgs(r)[0], BoardMsgs(r)[1]];
    }
  }

  lemma HearFive(v: View, a: seq<Msg>, b: seq<Msg>, c: seq<Msg>, d: seq<Msg>, e: seq<Msg>)
    ensures HearAll(v, a + b + c + d + e) == HearAll(HearAll(HearAll(HearAll(HearAll(v, a), b), c), d), e)
  {
    hide HearAll;
    HearMore(v, a + b + c + d, e);
    HearMore(v, a + b + c, d);
    HearMore(v, a + b, c);
    HearMore(v, a, b);
  }

  lemma AllFigures(r: Relay)
    requires FiguresOk(r)
    ensures FiguresUpTo(r, |r.slots|) == r.native.poses
  {
    assert r.slots[..|r.slots|] == r.slots;
  }

  lemma TimerReplayed(v: View, generation: nat, timer: Option<nat>)
    requires v.Online? && v.timer == timer
    ensures HearAll(v, TimerMsgs(generation, timer)) == v
  {
    HearNothing(v);
    if timer.Some? {
      HearOne(v, TimerStart(Some(generation), timer.value));
    }
  }

  /** Whatever a client believed before, one replay gives it the room's picture. */
  lemma ReplayHeard(v: View, r: Relay, players: set<ClientId>)
    requires RelayOk(r, players)
    ensures HearAll(v, Replay(r)) == Picture(r)
  {
    var head := [SessionStart(MetaOf(r))];
    var timer := TimerMsgs(r.generation, r.timer);
    var speed := SpeedTransition(r.generation, r.native.epoch, r.native.speed, None);
    BoardReplayed(r, players);
    AllFigures(r);
    var entered := Enter(MetaOf(r));
    var boarded := entered.(board := r.native.board);
    var peopled := boarded.(figures := r.native.poses);
    FiguresReplayed(boarded, r, |r.slots|);
    hide RelayOk, BoardMsgs, FigureMsgs, HearAll, FiguresUpTo, SlotsOk, SeatsOk, BoardOk, FiguresOk, JournalsOk, TimerMsgs;
    HearFive(v, head, BoardMsgs(r), FigureMsgs(r, |r.slots|), timer, [speed]);
    HearOne(v, head[0]);
    TimerReplayed(peopled, r.generation, r.timer);
    HearOne(peopled, speed);
  }
}
