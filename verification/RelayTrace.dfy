/** The broadcast trace of a room: a monitor states what may follow what, every handler obeys
    it, and an obedient trace is in order message by message. */
module RelayTrace {
  import opened Prelude
  import opened Grid
  import opened RoomTypes
  import opened Relay
  import opened RelayInv
  import T = Turns

  datatype Monitor = Monitor(
    live: bool, relay: bool, generation: nat, revision: nat, ready: bool, timer: bool, epoch: nat,
    lastEvent: map<ClientId, nat>, lastPose: map<ClientId, nat>, lastMove: map<ClientId, nat>, dead: set<ClientId>,
    slots: seq<ClientId>, settings: Settings, modeKey: Option<ModeKey>, due: bool, shown: map<ClientId, Pose>)

  const SILENCE: Monitor :=
    Monitor(false, false, 0, 0, false, false, 0, map[], map[], map[], {}, [], Settings(0, 0, NoSpeed, 0), None, false, map[])

  /** The generation a message belongs to; only relay traffic carries one. */
  function GenerationOf(m: Msg): Option<nat> {
    match m
    case SnakeDelta(f) => Some(FigureGeneration(f))
    case PlayerDead(f) => Some(FigureGeneration(f))
    case CollectablesDelta(b) => Some(b.generation)
    case BoardInit(g, _) => Some(g)
    case BoardReady(g, _, _, _) => Some(g)
    case SpeedTransition(g, _, _, _) => Some(g)
    case TimerStart(tag, _) => tag
    case _ => None
  }

  /** The client event behind a broadcast, with its number. */
  function EventOf(m: Msg): Option<(ClientId, nat)> {
    match m
    case SnakeDelta(f) => if f.Live? then Some((f.pose.client, f.pose.eventSeq)) else None
    case CollectablesDelta(b) => Some((b.client, b.eventSeq))
    case SpeedTransition(_, _, _, sender) => sender
    case PlayerDead(f) => if f.Corpse? && f.remains.Report? then Some((f.client, f.remains.eventSeq)) else None
    case _ => None
  }

  /** The sender holds a frozen seat and numbers its events upwards. */
  predicate Newer(m: Monitor, e: Option<(ClientId, nat)>) {
    e.Some? && e.value.0 in m.slots && LastOf(m.lastEvent, e.value.0) < e.value.1
  }

  /** A body of one to four hundred cells, all of them on a board of these dimensions. */
  predicate OnBoard(b: BodyField, dims: (nat, nat)) {
    && b.Cells? && 1 <= |b.cells| <= 400
    && forall k :: 0 <= k < |b.cells| ==>
         b.cells[k].Some? && 0 <= b.cells[k].value.x < dims.0 && 0 <= b.cells[k].value.y < dims.1
  }

  /** Bodies lie on the board of the session; once that is ready the pose agrees with its mode. */
  predicate Fits(m: Monitor, p: Pose) {
    && OnBoard(p.body, RelayDims(m.settings))
    && (Present(p.body2) ==> OnBoard(p.body2, RelayDims(m.settings)))
    && (m.ready ==>
          && m.modeKey.Some? && p.modeKey == m.modeKey && p.moveSeq.Some?
          && (Present(p.body2) <==> YinYang(m.modeKey.value)))
  }

  predicate LawfulPose(m: Monitor, p: Pose) {
    && p.client !in m.dead
    && LastOf(m.lastPose, p.client) < p.poseSeq
    && (p.moveSeq.Some? && p.client in m.lastMove ==> m.lastMove[p.client] <= p.moveSeq.value)
    && (p.moved ==> p.seated && m.ready)
    && Fits(m, p)
  }

  predicate OnBoardOrGone(b: BodyField, dims: (nat, nat)) {
    b.NoBody? || b == Cells([]) || OnBoard(b, dims)
  }

  /** A corpse reported by its player lies on the board; any other shows the last pose its player
      published since the board opened, if there was one. */
  predicate CorpseFits(m: Monitor, c: ClientId, remains: Remains) {
    match remains
    case Report(eventSeq, body, body2, _) =>
      && Newer(m, Some((c, eventSeq)))
      && OnBoardOrGone(body, RelayDims(m.settings)) && (body2.NullBody? || OnBoardOrGone(body2, RelayDims(m.settings)))
    case LastPose(p) => c in m.shown && m.shown[c] == p
    case Nothing => c !in m.shown
  }

  /** `c` is the first seat nobody has reported dead. */
  predicate FirstLeft(slots: seq<ClientId>, dead: set<ClientId>, c: ClientId) {
    exists i :: 0 <= i < |slots| && slots[i] == c && c !in dead && forall j :: 0 <= j < i ==> slots[j] in dead
  }

  /** May `x` be broadcast now? */
  predicate Lawful(m: Monitor, x: Msg) {
    && (GenerationOf(x).Some? ==> m.live && GenerationOf(x).value == m.generation)
    && (m.due ==> x.TimerStart?)
    && match x
       case SessionStart(meta) => meta.generation > m.generation
       case SnakeDelta(f) => m.relay && f.Live? && Newer(m, EventOf(x)) && LawfulPose(m, f.pose)
       case PlayerDead(f) => m.relay && f.Corpse? && Owner(f) in m.slots && Owner(f) !in m.dead && CorpseFits(m, f.client, f.remains)
       case CollectablesDelta(b) =>
         m.relay && Newer(m, EventOf(x)) && b.baseRevision == m.revision && b.revision == m.revision + 1 && (b.initial <==> m.revision == 0)
       case BoardInit(_, c) => m.relay && !m.ready && c !in m.dead && (m.dead != {} ==> FirstLeft(m.slots, m.dead, c))
       case BoardReady(_, revision, _, key) => m.relay && !m.ready && m.revision == 1 && revision == 1 && key.Some?
       case SpeedTransition(_, epoch, _, _) => m.relay && m.ready && Newer(m, EventOf(x)) && epoch == m.epoch + 1
       case TimerStart(tag, _) => m.live && !m.timer && (m.relay <==> tag.Some?) && (m.relay ==> m.ready && m.due)
       case SimDead(c, _) => m.live && !m.relay
       case CoopState(_) => m.live && !m.relay
       case _ => true
  }

  function Noted(m: Monitor, e: Option<(ClientId, nat)>): Monitor {
    if e.None? then m else m.(lastEvent := m.lastEvent[e.value.0 := e.value.1])
  }

  function Observe(m: Monitor, x: Msg): Monitor {
    match x
    case SessionStart(meta) => SILENCE.(live := true, relay := meta.relay, generation := meta.generation, slots := meta.slots, settings := meta.settings)
    case SessionEnd(_) => m.(live := false)
    case SnakeDelta(f) =>
      if f.Corpse? then m
      else
        Noted(m, EventOf(x)).(
        lastPose := m.lastPose[f.pose.client := f.pose.poseSeq],
        lastMove := if f.pose.moveSeq.Some? then m.lastMove[f.pose.client := f.pose.moveSeq.value] else m.lastMove,
        due := f.pose.moved && !m.timer,
        shown := m.shown[f.pose.client := f.pose])
    case PlayerDead(f) => Noted(m, EventOf(x)).(dead := m.dead + {Owner(f)})
    case CollectablesDelta(b) => Noted(m, EventOf(x)).(revision := b.revision)
    case BoardReady(_, _, _, key) => m.(ready := true, modeKey := key, shown := map[])
    case SpeedTransition(_, epoch, _, _) => Noted(m, EventOf(x)).(epoch := epoch)
    case TimerStart(_, _) => m.(timer := true, due := false)
    case _ => m
  }

  function ObserveAll(m: Monitor, xs: seq<Msg>): Monitor
    decreases |xs|
  {
    if xs == [] then m else Observe(ObserveAll(m, xs[..|xs| - 1]), Last(xs))
  }

  predicate LawfulTrace(m: Monitor, xs: seq<Msg>)
    decreases |xs|
  {
    xs == [] || (LawfulTrace(m, xs[..|xs| - 1]) && Lawful(ObserveAll(m, xs[..|xs| - 1]), Last(xs)))
  }

  lemma {:induction false} TraceMore(m: Monitor, a: seq<Msg>, b: seq<Msg>)
    ensures ObserveAll(m, a + b) == ObserveAll(ObserveAll(m, a), b)
    ensures LawfulTrace(m, a + b) <==> LawfulTrace(m, a) && LawfulTrace(ObserveAll(m, a), b)
    decreases |b|
  {
    if b == [] {
      assert a + b == a;
    } else {
      TraceMore(m, a, b[..|b| - 1]);
      assert (a + b)[..|a + b| - 1] == a + b[..|b| - 1];
    }
  }

  lemma TraceOne(m: Monitor, x: Msg)
    ensures ObserveAll(m, [x]) == Observe(m, x)
    ensures LawfulTrace(m, [x]) <==> Lawful(m, x)
  {
    assert [x][..0] == [];
  }

  lemma TraceTwo(m: Monitor, x: Msg, y: Msg)
    ensures ObserveAll(m, [x, y]) == Observe(Observe(m, x), y)
    ensures LawfulTrace(m, [x, y]) <==> Lawful(m, x) && Lawful(Observe(m, x), y)
  {
    TraceOne(m, x);
    assert [x, y][..1] == [x];
  }

  // ---------------------------------------------------------------- the handlers obey

  /** The monitor agrees with the relay state. */
  ghost predicate Agrees(m: Monitor, r: Relay) {
    !m.due && SameStage(m, r) && SameNumbers(m, r) && SameDead(m, r) && SameShown(m, r)
  }

  predicate SameStage(m: Monitor, r: Relay) {
    && m.live && m.relay && m.generation == r.generation
    && m.revision == r.native.revision && m.ready == r.native.ready
    && m.timer == r.timer.Some? && m.epoch == r.native.epoch
    && m.slots == r.slots && m.settings == r.settings && m.modeKey == r.native.modeKey
  }

  predicate SameNumbers(m: Monitor, r: Relay) {
    && (forall c :: c in m.lastEvent ==> c in r.native.lastEvent && m.lastEvent[c] <= r.native.lastEvent[c])
    && m.lastPose == r.native.lastPose && m.lastMove == r.native.lastMove
  }

  predicate SameDead(m: Monitor, r: Relay) {
    && (forall c :: c in m.dead ==> c in r.slots && !Alive(r.alive, c))
    && (forall c :: c in r.slots && !Alive(r.alive, c) ==> c in m.dead)
  }

  ghost predicate SameShown(m: Monitor, r: Relay) {
    forall c :: Alive(r.alive, c) ==>
      && (c in m.shown <==> c in r.native.poses)
      && (c in m.shown ==> r.native.poses[c] == Live(m.shown[c]))
  }

  lemma PoseStored(m: Monitor, r: Relay, pose: Pose, journal: T.Journal)
    requires Agrees(m, r) && pose.generation == r.generation && Alive(r.alive, pose.client) && pose.client in r.slots
    requires LastOf(r.native.lastEvent, pose.client) < pose.eventSeq && LastOf(r.native.lastPose, pose.client) < pose.poseSeq
    requires pose.moveSeq.Some? && pose.client in r.native.lastMove ==> r.native.lastMove[pose.client] <= pose.moveSeq.value
    requires (pose.moved ==> pose.seated && r.native.ready) && Fits(m, pose)
    ensures var x := SnakeDelta(Live(pose));
            && Lawful(m, x)
            && Observe(m, x).due == (pose.moved && r.timer.None?)
            && Agrees(Observe(m, x).(due := false), StorePose(r, pose, journal))
  {
    hide Fits;
    PoseIsLawful(m, r, pose);
    PoseStage(m, r, pose, journal);
    PoseNumbers(m, r, pose, journal);
    PoseShown(m, r, pose, journal);
    hide SameStage, SameNumbers, SameDead, SameShown, Lawful, Observe, StorePose;
  }

  lemma PoseStage(m: Monitor, r: Relay, pose: Pose, journal: T.Journal)
    requires Agrees(m, r)
    ensures var n := Observe(m, SnakeDelta(Live(pose)));
            n.due == (pose.moved && r.timer.None?) && SameStage(n.(due := false), StorePose(r, pose, journal))
  {
    hide SameNumbers, SameDead, SameShown;
  }

  lemma PoseShown(m: Monitor, r: Relay, pose: Pose, journal: T.Journal)
    requires Agrees(m, r)
    ensures var n, next := Observe(m, SnakeDelta(Live(pose))).(due := false), StorePose(r, pose, journal);
            SameDead(n, next) && SameShown(n, next)
  {
    hide SameNumbers, SameStage;
  }

  lemma PoseIsLawful(m: Monitor, r: Relay, pose: Pose)
    requires Agrees(m, r) && pose.generation == r.generation && Alive(r.alive, pose.client) && pose.client in r.slots
    requires LastOf(r.native.lastEvent, pose.client) < pose.eventSeq && LastOf(r.native.lastPose, pose.client) < pose.poseSeq
    requires pose.moveSeq.Some? && pose.client in r.native.lastMove ==> r.native.lastMove[pose.client] <= pose.moveSeq.value
    requires (pose.moved ==> pose.seated && r.native.ready) && Fits(m, pose)
    ensures Lawful(m, SnakeDelta(Live(pose)))
  {
    hide Fits, SameShown;
  }

  lemma PoseNumbers(m: Monitor, r: Relay, pose: Pose, journal: T.Journal)
    requires Agrees(m, r)
    ensures SameNumbers(Observe(m, SnakeDelta(Live(pose))).(due := false), StorePose(r, pose, journal))
  {
    hide SameDead, SameShown, SameStage;
  }

  lemma TimerStored(m: Monitor, r: Relay, now: nat)
    requires m.due && Agrees(m.(due := false), r) && r.timer.None? && r.native.ready
    ensures var x := TimerStart(Some(r.generation), now); Lawful(m, x) && Agrees(Observe(m, x), r.(timer := Some(now)))
  {
  }

  lemma {:induction false} CellsOnBoard(cells: seq<Option<Point>>, k: nat, w: nat, h: nat)
    requires k <= |cells|
    ensures FirstBadCell(cells, k, w, h).None? <==>
              forall j :: k <= j < |cells| ==> cells[j].Some? && 0 <= cells[j].value.x < w && 0 <= cells[j].value.y < h
    decreases |cells| - k
  {
    if k < |cells| {
      CellsOnBoard(cells, k + 1, w, h);
    }
  }

  /** The server accepts exactly the bodies of one to four hundred cells that lie on the board. */
  lemma BodyIsChecked(b: BodyField, dims: (nat, nat))
    ensures CheckBody(b, dims).None? <==> OnBoard(b, dims)
  {
    if b.Cells? {
      CellsOnBoard(b.cells, 0, dims.0, dims.1);
    }
  }

  lemma ContentFits(m: Monitor, r: Relay, from: ClientId, p: PoseIn, turns: seq<T.Turn>)
    requires m.settings == r.settings && m.ready == r.native.ready && m.modeKey == r.native.modeKey
    requires p.eventSeq.Some? && p.poseSeq.Some? && CheckPose(r, from, p).None?
    ensures Fits(m, CleanPose(r, from, p, turns))
  {
    BodyIsChecked(p.body, RelayDims(r.settings));
    BodyIsChecked(p.body2, RelayDims(r.settings));
    hide CheckBody, OnBoard, CheckPoseMotion, RelayDims, YinYang;
  }

  lemma PoseObeys(m: Monitor, r: Relay, here: set<ClientId>, from: ClientId, p: PoseIn, now: nat)
    requires Agrees(m, r)
    ensures var o := PublishPose(r, here, from, p, now); LawfulTrace(m, o.out) && Agrees(ObserveAll(m, o.out), o.relay)
  {
    hide CheckSender, CheckPoseOrder, CheckPose, CheckTurns, ObserveAll, LawfulTrace, StorePose, Fits, Lawful, Observe;
    TraceNothing(m);
    if CheckSender(r, here, from, p.generation, p.eventSeq).None? && CheckPoseOrder(r, from, p).None?
       && Alive(r.alive, from) && CheckPose(r, from, p).None? && CheckTurns(r, from, p).Ok? {
      AcceptedPose(r, here, from, p);
      var journal := CheckTurns(r, from, p).value;
      var pose := CleanPose(r, from, p, journal.turns);
      ContentFits(m, r, from, p, journal.turns);
      hide Agrees;
      PoseStored(m, r, pose, journal);
      var x := SnakeDelta(Live(pose));
      var stored := StorePose(r, pose, journal);
      StoreKeepsReady(r, pose, journal);
      TraceOne(m, x);
      if pose.moved && r.timer.None? {
        TimerStored(Observe(m, x), stored, now);
        TraceTwo(m, x, TimerStart(Some(stored.generation), now));
      } else {
        assert Observe(m, x).(due := false) == Observe(m, x);
      }
    }
  }

  lemma TraceNothing(m: Monitor)
    ensures ObserveAll(m, []) == m && LawfulTrace(m, [])
  {
  }

  lemma BoardNumbers(m: Monitor, r: Relay, board: Board)
    requires Agrees(m, r)
    ensures SameNumbers(Observe(m, CollectablesDelta(board)), StoreBoard(r, board))
  {
    hide SameDead, SameShown, SameStage;
  }

  lemma BoardStored(m: Monitor, r: Relay, board: Board)
    requires Agrees(m, r) && board.generation == r.generation && board.client in r.slots
    requires LastOf(r.native.lastEvent, board.client) < board.eventSeq
    requires board.baseRevision == r.native.revision && board.revision == board.baseRevision + 1
    requires board.initial <==> board.baseRevision == 0
    ensures var x := CollectablesDelta(board); Lawful(m, x) && Agrees(Observe(m, x), StoreBoard(r, board))
  {
    BoardNumbers(m, r, board);
    assert SameNumbers(m, r) ==> LastOf(m.lastEvent, board.client) <= LastOf(r.native.lastEvent, board.client);
    hide SameNumbers;
  }

  lemma BoardOpened(m: Monitor, r: Relay, board: Board)
    requires Agrees(m, r) && !r.native.ready && r.native.revision == 1 && board.generation == r.generation
    ensures var x := BoardReady(r.generation, 1, Some(board.client), Some(board.modeKey));
            && Lawful(m, x)
            && Agrees(Observe(m, x), r.(native := r.native.(ready := true, modeKey := Some(board.modeKey), poses := map[])))
  {
  }

  lemma BoardObeys(m: Monitor, r: Relay, here: set<ClientId>, from: ClientId, b: BoardIn)
    requires Agrees(m, r) && BoardOk(r)
    ensures var o := PublishBoard(r, here, from, b); LawfulTrace(m, o.out) && Agrees(ObserveAll(m, o.out), o.relay)
  {
    hide ObserveAll, LawfulTrace, Agrees;
    var o := PublishBoard(r, here, from, b);
    TraceNothing(m);
    if o.out != [] {
      var x := o.out[0];
      BoardStored(m, r, x.board);
      TraceOne(m, x);
      if r.native.ready {
        assert o.out == [x];
      } else {
        BoardOpened(Observe(m, x), StoreBoard(r, x.board), x.board);
        TraceTwo(m, x, o.out[1]);
        assert o.out == [x, o.out[1]];
      }
    }
  }

  lemma SpeedNumbers(m: Monitor, r: Relay, from: ClientId, eventSeq: nat, source: nat, speed: Speed, epoch: nat)
    requires Agrees(m, r)
    ensures SameNumbers(Observe(m, SpeedTransition(r.generation, epoch, speed, Some((from, eventSeq)))),
                        StoreSpeed(r, from, eventSeq, source, speed))
  {
    hide SameDead, SameShown, SameStage;
  }

  lemma SpeedStored(m: Monitor, r: Relay, from: ClientId, eventSeq: nat, source: nat, speed: Speed)
    requires Agrees(m, r) && r.native.ready && from in r.slots && LastOf(r.native.lastEvent, from) < eventSeq
    ensures var next := StoreSpeed(r, from, eventSeq, source, speed);
            var x := SpeedTransition(r.generation, next.native.epoch, speed, Some((from, eventSeq)));
            Lawful(m, x) && Agrees(Observe(m, x), next)
  {
    SpeedNumbers(m, r, from, eventSeq, source, speed, r.native.epoch + 1);
    assert LastOf(m.lastEvent, from) <= LastOf(r.native.lastEvent, from) by { hide SameStage, SameDead, SameShown; }
    hide SameNumbers, LastOf;
  }

  lemma SpeedObeys(m: Monitor, r: Relay, here: set<ClientId>, from: ClientId, s: SpeedIn)
    requires Agrees(m, r)
    ensures var o := PublishSpeed(r, here, from, s); LawfulTrace(m, o.out) && Agrees(ObserveAll(m, o.out), o.relay)
  {
    hide ObserveAll, LawfulTrace, NextSpeed, Agrees, StoreSpeed;
    var o := PublishSpeed(r, here, from, s);
    TraceNothing(m);
    if o.out != [] {
      SpeedStored(m, r, from, s.eventSeq.value, s.source.value, NextSpeed(r.native.speed, s).value);
      TraceOne(m, o.out[0]);
      assert o.out == [o.out[0]];
    }
  }

  lemma FallIsLawful(m: Monitor, r: Relay, c: ClientId, reason: Reason, remains: Remains)
    requires Agrees(m, r) && Alive(r.alive, c) && c in r.slots && CorpseFits(m, c, remains)
    ensures Lawful(m, PlayerDead(Corpse(c, r.generation, reason, remains)))
  {
    hide CorpseFits, SameNumbers, SameShown;
  }

  lemma FallNumbers(m: Monitor, r: Relay, c: ClientId, reason: Reason, remains: Remains)
    requires Agrees(m, r)
    ensures var n, next := Observe(m, PlayerDead(Corpse(c, r.generation, reason, remains))), Fall(r, c, reason, remains);
            !n.due && SameStage(n, next) && SameNumbers(n, next)
  {
    hide SameDead, SameShown;
  }

  lemma FallDead(m: Monitor, r: Relay, c: ClientId, reason: Reason, remains: Remains)
    requires Agrees(m, r) && c in r.slots
    ensures SameDead(Observe(m, PlayerDead(Corpse(c, r.generation, reason, remains))), Fall(r, c, reason, remains))
  {
    var n, next := Observe(m, PlayerDead(Corpse(c, r.generation, reason, remains))), Fall(r, c, reason, remains);
    DeathNoted(m, Corpse(c, r.generation, reason, remains));
    assert next.alive == r.alive[c := false] && next.slots == r.slots;
    hide SameNumbers, SameStage, SameShown, Observe, Fall;
    assert forall id :: Alive(next.alive, id) <==> Alive(r.alive, id) && id != c;
  }

  lemma DeathNoted(m: Monitor, f: Figure)
    ensures var n := Observe(m, PlayerDead(f)); n.dead == m.dead + {Owner(f)} && n.shown == m.shown
  {
  }

  lemma FallShown(m: Monitor, r: Relay, c: ClientId, reason: Reason, remains: Remains)
    requires Agrees(m, r)
    ensures SameShown(Observe(m, PlayerDead(Corpse(c, r.generation, reason, remains))), Fall(r, c, reason, remains))
  {
    var n, next := Observe(m, PlayerDead(Corpse(c, r.generation, reason, remains))), Fall(r, c, reason, remains);
    DeathNoted(m, Corpse(c, r.generation, reason, remains));
    assert next.alive == r.alive[c := false];
    assert forall id :: id != c ==> (id in next.native.poses <==> id in r.native.poses)
                                    && (id in r.native.poses ==> next.native.poses[id] == r.native.poses[id]);
    hide SameNumbers, SameStage, SameDead, Observe, Fall;
  }

  lemma FallStored(m: Monitor, r: Relay, c: ClientId, reason: Reason, remains: Remains)
    requires Agrees(m, r) && Alive(r.alive, c) && c in r.slots && CorpseFits(m, c, remains)
    ensures var x := PlayerDead(Corpse(c, r.generation, reason, remains));
            Lawful(m, x) && Agrees(Observe(m, x), Fall(r, c, reason, remains))
  {
    FallIsLawful(m, r, c, reason, remains);
    FallNumbers(m, r, c, reason, remains);
    FallDead(m, r, c, reason, remains);
    FallShown(m, r, c, reason, remains);
    hide Lawful, Observe, Fall, SameStage, SameNumbers, SameDead, SameShown;
  }

  lemma TakerIsFirstLeft(m: Monitor, r: Relay, here: set<ClientId>)
    requires SameDead(m, r) && m.slots == r.slots && forall id :: Alive(r.alive, id) ==> id in here
    ensures NextInitializer(r, here).Some? ==>
              NextInitializer(r, here).value !in m.dead && FirstLeft(m.slots, m.dead, NextInitializer(r, here).value)
  {
    if NextInitializer(r, here).Some? {
      var c := NextInitializer(r, here).value;
      assert FirstStanding(r.slots, r.alive, here, 0, c);
      var i :| 0 <= i < |r.slots| && r.slots[i] == c && forall j :: 0 <= j < i ==> r.slots[j] !in here || !Alive(r.alive, r.slots[j]);
      hide NextInitializer;
      assert forall j :: 0 <= j < i ==> m.slots[j] in m.dead;
    }
  }

  lemma TakeoverStored(m: Monitor, r: Relay, here: set<ClientId>)
    requires Agrees(m, r) && !r.native.ready && forall id :: Alive(r.alive, id) ==> id in here
    ensures var next := HandOff(r, here);
            && Agrees(m, next)
            && (next.native.initializer.Some? ==>
                  var x := BoardInit(r.generation, next.native.initializer.value); Lawful(m, x) && Observe(m, x) == m)
  {
    TakerIsFirstLeft(m, r, here);
    hide NextInitializer, FirstLeft;
  }

  lemma NothingDue(m: Monitor, r: Relay)
    requires Agrees(m, r)
    ensures !m.due
  {
  }

  lemma FallLeavesAlive(r: Relay, c: ClientId, reason: Reason, remains: Remains)
    ensures forall id :: Alive(Fall(r, c, reason, remains).alive, id) ==> Alive(r.alive, id)
  {
  }

  lemma FallObeys(m: Monitor, r: Relay, here: set<ClientId>, c: ClientId, reason: Reason, remains: Remains)
    requires Agrees(m, r) && forall id :: Alive(r.alive, id) ==> id in here
    requires Alive(r.alive, c) && c in r.slots ==> CorpseFits(m, c, remains)
    ensures var o := MarkDead(r, here, c, reason, remains);
            LawfulTrace(m, o.out) && !ObserveAll(m, o.out).due && (!o.over ==> Agrees(ObserveAll(m, o.out), o.relay))
  {
    hide ObserveAll, LawfulTrace, NextInitializer, Agrees, Lawful, Observe, AllSeatsDead, CorpseFits, Fall;
    TraceNothing(m);
    NothingDue(m, r);
    if c in r.slots && Alive(r.alive, c) {
      var fallen := Fall(r, c, reason, remains);
      var dead := PlayerDead(Corpse(c, r.generation, reason, remains));
      FallStored(m, r, c, reason, remains);
      FallLeavesAlive(r, c, reason, remains);
      FallGeneration(r, c, reason, remains);
      TraceOne(m, dead);
      NothingDue(Observe(m, dead), fallen);
      if NeedsHandoff(fallen, c) {
        var next := HandOff(fallen, here);
        TakeoverStored(Observe(m, dead), fallen, here);
        if next.native.initializer.Some? {
          TraceTwo(m, dead, BoardInit(fallen.generation, next.native.initializer.value));
          assert [dead] + InitRequest(next) == [dead, BoardInit(fallen.generation, next.native.initializer.value)];
        } else {
          assert [dead] + InitRequest(next) == [dead];
        }
      }
    }
  }

  lemma FallGeneration(r: Relay, c: ClientId, reason: Reason, remains: Remains)
    ensures Fall(r, c, reason, remains).generation == r.generation
  {
  }

  lemma RemainsAreChecked(b: BodyField, dims: (nat, nat))
    ensures CheckRemains(b, dims).None? <==> OnBoardOrGone(b, dims)
  {
    BodyIsChecked(b, dims);
    hide CheckBody, OnBoard;
  }

  lemma ReportFits(m: Monitor, r: Relay, from: ClientId, d: DeathIn)
    requires Agrees(m, r) && d.eventSeq.Some? && from in r.slots && LastOf(r.native.lastEvent, from) < d.eventSeq.value
    requires CheckDeath(r, d).None?
    ensures CorpseFits(m, from, Report(d.eventSeq.value, d.body, d.body2, d.look))
  {
    RemainsAreChecked(d.body, RelayDims(r.settings));
    RemainsAreChecked(d.body2, RelayDims(r.settings));
    hide CheckRemains, OnBoardOrGone, RelayDims;
  }

  lemma SenderIsSeated(r: Relay, here: set<ClientId>, from: ClientId, generation: Option<nat>, eventSeq: Option<nat>)
    requires CheckSender(r, here, from, generation, eventSeq).None?
    ensures from in r.slots && eventSeq.Some? && LastOf(r.native.lastEvent, from) < eventSeq.value
  {
  }

  lemma DeathObeys(m: Monitor, r: Relay, here: set<ClientId>, from: ClientId, d: DeathIn)
    requires Agrees(m, r) && forall id :: Alive(r.alive, id) ==> id in here
    ensures var o := PublishDeath(r, here, from, d);
            LawfulTrace(m, o.out) && !ObserveAll(m, o.out).due && (!o.over ==> Agrees(ObserveAll(m, o.out), o.relay))
  {
    TraceNothing(m);
    NothingDue(m, r);
    var seated := r.(seated := r.seated + {from});
    assert Agrees(m, seated);
    hide Agrees, ObserveAll, LawfulTrace, MarkDead, CheckDeath, CorpseFits, CheckSender;
    if CheckSender(r, here, from, d.generation, d.eventSeq).None? {
      SenderIsSeated(r, here, from, d.generation, d.eventSeq);
      if CheckDeath(seated, d).None? {
        ReportFits(m, seated, from, d);
        FallObeys(m, seated, here, from, if d.reason.Some? then Custom(d.reason.value) else OwnReport,
                  Report(d.eventSeq.value, d.body, d.body2, d.look));
      }
    }
  }

  lemma LastPoseFits(m: Monitor, r: Relay, c: ClientId)
    requires Agrees(m, r) && FiguresOk(r)
    ensures Alive(r.alive, c) ==> CorpseFits(m, c, RemainsOf(r, c))
  {
  }

  /** Whatever a handler broadcasts is lawful, and the monitor stays in step with the state. */
  lemma PerformObeys(m: Monitor, r: Relay, here: set<ClientId>, players: set<ClientId>, op: Op)
    requires Agrees(m, r) && RelayOk(r, players) && players <= here
    ensures var o := Perform(r, here, op);
            LawfulTrace(m, o.out) && !ObserveAll(m, o.out).due && (!o.over ==> Agrees(ObserveAll(m, o.out), o.relay))
  {
    assert forall id :: Alive(r.alive, id) ==> id in here;
    assert BoardOk(r) && FiguresOk(r);
    hide RelayOk, BoardOk, FiguresOk;
    hide Agrees, PublishPose, PublishBoard, PublishDeath, PublishSpeed, MarkDead, ObserveAll, LawfulTrace;
    var o := Perform(r, here, op);
    match op
    case PoseOp(from, pose, now) => PoseObeys(m, r, here, from, pose, now); NothingDue(ObserveAll(m, o.out), o.relay);
    case BoardOp(from, board) => BoardObeys(m, r, here, from, board); NothingDue(ObserveAll(m, o.out), o.relay);
    case DeathOp(from, death) => DeathObeys(m, r, here, from, death);
    case SpeedOp(from, speed) => SpeedObeys(m, r, here, from, speed); NothingDue(ObserveAll(m, o.out), o.relay);
    case GoneOp(c, reason) =>
      LastPoseFits(m, r, c);
      FallObeys(m, r, here, c, reason, RemainsOf(r, c));
  }

  lemma StartAgrees(m: Monitor, r: Relay)
    requires r.native == NewNative(r.owner, r.settings.speed) && r.timer == None && r.owner.Some?
    requires m.generation < r.generation && forall id :: id in r.slots || id in r.alive ==> Alive(r.alive, id)
    ensures Agrees(Observe(m, SessionStart(MetaOf(r))), r)
  {
  }

  lemma OpeningObeys(m: Monitor, r: Relay)
    requires r.native == NewNative(r.owner, r.settings.speed) && r.timer == None && r.owner.Some?
    requires m.generation < r.generation && !m.due && forall id :: id in r.slots || id in r.alive ==> Alive(r.alive, id)
    ensures LawfulTrace(m, Opening(r)) && Agrees(ObserveAll(m, Opening(r)), r)
  {
    var start := SessionStart(MetaOf(r));
    StartAgrees(m, r);
    hide Agrees, ObserveAll, LawfulTrace, FirstLeft, SameDead, SameShown;
    TraceTwo(m, start, PlaySync);
    TraceOne(Observe(m, start), BoardInit(r.generation, r.owner.value));
    TraceMore(m, [start, PlaySync], InitRequest(r));
  }

  // ---------------------------------------------------------------- a lawful trace is in order

  /** What the monitor still knows of an earlier message of its generation. */
  predicate Remembers(m: Monitor, x: Msg) {
    GenerationOf(x).Some? ==>
      && GenerationOf(x).value <= m.generation
      && (GenerationOf(x).value == m.generation ==>
            && (EventOf(x).Some? ==> EventOf(x).value.1 <= LastOf(m.lastEvent, EventOf(x).value.0))
            && match x
               case SnakeDelta(f) =>
                 f.Live? ==>
                   && f.pose.poseSeq <= LastOf(m.lastPose, f.pose.client)
                   && (f.pose.moveSeq.Some? ==> f.pose.client in m.lastMove && f.pose.moveSeq.value <= m.lastMove[f.pose.client])
               case PlayerDead(f) => Owner(f) in m.dead
               case CollectablesDelta(b) => b.revision <= m.revision
               case BoardReady(_, _, _, key) => m.ready && m.modeKey == key
               case SpeedTransition(_, epoch, _, _) => epoch <= m.epoch
               case TimerStart(_, _) => m.timer
               case _ => true)
  }

  /** A monitor forgets nothing but with a new generation. */
  predicate Grown(m: Monitor, n: Monitor) {
    && m.generation <= n.generation
    && (m.generation == n.generation ==>
          && (forall c :: c in m.lastEvent ==> LastOf(m.lastEvent, c) <= LastOf(n.lastEvent, c))
          && (forall c :: c in m.lastPose ==> LastOf(m.lastPose, c) <= LastOf(n.lastPose, c))
          && (forall c :: c in m.lastMove ==> c in n.lastMove && m.lastMove[c] <= n.lastMove[c])
          && m.dead <= n.dead && m.revision <= n.revision && m.epoch <= n.epoch
          && (m.ready ==> n.ready && n.modeKey == m.modeKey) && (m.timer ==> n.timer))
  }

  lemma MonitorGrows(m: Monitor, y: Msg)
    requires Lawful(m, y)
    ensures Grown(m, Observe(m, y))
  {
    hide CorpseFits, FirstLeft, Fits;
    if y.PlayerDead? {
      DeathIsNoted(m, y.figure);
      hide Observe;
    }
  }

  lemma DeathIsNoted(m: Monitor, f: Figure)
    requires Lawful(m, PlayerDead(f))
    ensures Grown(m, Observe(m, PlayerDead(f)))
  {
    DeathIsNewer(m, f);
    NotedGrows(m, EventOf(PlayerDead(f)));
    hide Lawful, Newer, LastOf;
  }

  lemma DeathIsNewer(m: Monitor, f: Figure)
    requires Lawful(m, PlayerDead(f))
    ensures EventOf(PlayerDead(f)).Some? ==> Newer(m, EventOf(PlayerDead(f)))
  {
    hide FirstLeft, OnBoardOrGone, Newer;
  }

  lemma NotedGrows(m: Monitor, e: Option<(ClientId, nat)>)
    requires e.Some? ==> Newer(m, e)
    ensures forall c :: c in m.lastEvent ==> LastOf(m.lastEvent, c) <= LastOf(Noted(m, e).lastEvent, c)
  {
  }

  lemma StillRemembers(m: Monitor, x: Msg, y: Msg)
    requires Remembers(m, x) && Lawful(m, y)
    ensures Remembers(Observe(m, y), x)
  {
    MonitorGrows(m, y);
    hide Lawful, Observe;
  }

  lemma RemembersNow(m: Monitor, y: Msg)
    requires Lawful(m, y)
    ensures Remembers(Observe(m, y), y)
  {
  }

  lemma {:induction false} RemembersAll(xs: seq<Msg>, i: nat)
    requires LawfulTrace(SILENCE, xs) && i < |xs|
    ensures Remembers(ObserveAll(SILENCE, xs), xs[i])
    decreases |xs|
  {
    var front := xs[..|xs| - 1];
    hide Remembers, Lawful;
    if i < |front| {
      RemembersAll(front, i);
      StillRemembers(ObserveAll(SILENCE, front), xs[i], Last(xs));
    } else {
      RemembersNow(ObserveAll(SILENCE, front), Last(xs));
    }
  }

  /** `x` may come before `y` in one generation. */
  predicate InOrder(x: Msg, y: Msg) {
    // every client event published by one sender carries a higher number than the last
    && (EventOf(x).Some? && EventOf(y).Some? && EventOf(x).value.0 == EventOf(y).value.0 ==> EventOf(x).value.1 < EventOf(y).value.1)
    && (x.SnakeDelta? && y.SnakeDelta? && Owner(x.figure) == Owner(y.figure) ==> PosesInOrder(x.figure, y.figure))
    && (x.CollectablesDelta? && y.CollectablesDelta? ==> x.board.revision <= y.board.baseRevision < y.board.revision)
    && (x.SpeedTransition? && y.SpeedTransition? ==> x.epoch < y.epoch)
    // the dead neither move nor die again
    && (x.PlayerDead? && (y.SnakeDelta? || y.PlayerDead?) ==> Owner(x.figure) != Owner(y.figure))
    // the board opens once, the timer starts once
    && (x.BoardReady? ==> !y.BoardReady? && !y.BoardInit?)
    // poses follow the mode of the board
    && (x.BoardReady? && y.SnakeDelta? && y.figure.Live? ==> x.modeKey.Some? && InMode(y.figure.pose, x.modeKey.value))
    && (x.TimerStart? ==> !y.TimerStart?)
  }

  predicate InMode(p: Pose, key: ModeKey) {
    p.modeKey == Some(key) && p.moveSeq.Some? && (Present(p.body2) <==> YinYang(key))
  }

  predicate PosesInOrder(f: Figure, g: Figure) {
    && f.Live? && g.Live?
    && f.pose.poseSeq < g.pose.poseSeq
    && (f.pose.moveSeq.Some? && g.pose.moveSeq.Some? ==> f.pose.moveSeq.value <= g.pose.moveSeq.value)
  }

  lemma RememberedThenLawful(m: Monitor, x: Msg, y: Msg)
    requires Remembers(m, x) && Lawful(m, y) && GenerationOf(x).Some? && GenerationOf(x) == GenerationOf(y)
    requires x.SnakeDelta? ==> x.figure.Live?
    ensures InOrder(x, y)
  {
  }

  lemma {:induction false} PrefixIsLawful(m: Monitor, xs: seq<Msg>, k: nat)
    requires LawfulTrace(m, xs) && k <= |xs|
    ensures LawfulTrace(m, xs[..k])
    ensures k < |xs| ==> Lawful(ObserveAll(m, xs[..k]), xs[k])
    decreases |xs| - k
  {
    if k == |xs| {
      assert xs[..k] == xs;
    } else {
      PrefixIsLawful(m, xs, k + 1);
      assert xs[..k + 1][..k] == xs[..k];
    }
  }

  /** Any two messages of one generation in a lawful trace stand in order. */
  lemma TraceIsInOrder(xs: seq<Msg>, i: nat, j: nat)
    requires LawfulTrace(SILENCE, xs) && i < j < |xs|
    requires GenerationOf(xs[i]).Some? && GenerationOf(xs[i]) == GenerationOf(xs[j])
    ensures InOrder(xs[i], xs[j])
  {
    PrefixIsLawful(SILENCE, xs, i);
    PrefixIsLawful(SILENCE, xs, j);
    RemembersAll(xs[..j], i);
    assert xs[..j][i] == xs[i];
    hide Remembers, InOrder;
    RememberedThenLawful(ObserveAll(SILENCE, xs[..j]), xs[i], xs[j]);
  }

  /** How many boards generation `g` has seen. */
  function BoardsIn(xs: seq<Msg>, g: nat): nat
    decreases |xs|
  {
    if xs == [] then 0
    else BoardsIn(xs[..|xs| - 1], g) + if Last(xs).CollectablesDelta? && Last(xs).board.generation == g then 1 else 0
  }

  predicate OpenedIn(xs: seq<Msg>, g: nat) {
    exists k :: 0 <= k < |xs| && xs[k].BoardReady? && GenerationOf(xs[k]) == Some(g)
  }

  lemma {:induction false} NoBoardsYet(xs: seq<Msg>, g: nat)
    requires LawfulTrace(SILENCE, xs) && g > ObserveAll(SILENCE, xs).generation
    ensures BoardsIn(xs, g) == 0
    decreases |xs|
  {
    if xs != [] {
      RemembersAll(xs, |xs| - 1);
      GenerationsGrow(ObserveAll(SILENCE, xs[..|xs| - 1]), Last(xs));
      hide Lawful, ObserveAll;
      assert ObserveAll(SILENCE, xs[..|xs| - 1]).generation < g;
      NoBoardsYet(xs[..|xs| - 1], g);
    }
  }

  lemma GenerationsGrow(m: Monitor, x: Msg)
    requires Lawful(m, x)
    ensures m.generation <= Observe(m, x).generation
  {
  }

  /** What the monitor's revision and readiness mean for the trace behind it. */
  ghost predicate Means(xs: seq<Msg>, m: Monitor) {
    m.revision == BoardsIn(xs, m.generation) && (m.ready ==> OpenedIn(xs, m.generation))
  }

  lemma MeansOneMore(xs: seq<Msg>, m: Monitor, x: Msg)
    requires Means(xs, m) && Lawful(m, x)
    requires x.SessionStart? ==> BoardsIn(xs, x.meta.generation) == 0
    ensures Means(xs + [x], Observe(m, x))
  {
    OpenedStays(xs, x, m.generation);
    hide OpenedIn;
    assert (xs + [x])[..|xs|] == xs;
  }

  lemma {:induction false} RevisionsAreCounted(xs: seq<Msg>)
    requires LawfulTrace(SILENCE, xs)
    ensures Means(xs, ObserveAll(SILENCE, xs))
    decreases |xs|
  {
    if xs != [] {
      var front := xs[..|xs| - 1];
      RevisionsAreCounted(front);
      var m := ObserveAll(SILENCE, front);
      hide Means, BoardsIn, OpenedIn, Observe;
      if Last(xs).SessionStart? {
        NoBoardsYet(front, Last(xs).meta.generation);
      }
      assert xs == front + [Last(xs)];
      MeansOneMore(front, m, Last(xs));
    }
  }

  lemma OpenedStays(xs: seq<Msg>, x: Msg, g: nat)
    ensures OpenedIn(xs, g) ==> OpenedIn(xs + [x], g)
    ensures x.BoardReady? && GenerationOf(x) == Some(g) ==> OpenedIn(xs + [x], g)
  {
    var more := xs + [x];
    assert more[|xs|] == x;
    if OpenedIn(xs, g) {
      var k :| 0 <= k < |xs| && xs[k].BoardReady? && GenerationOf(xs[k]) == Some(g);
      assert more[k] == xs[k];
    }
  }

  /** The boards of a generation carry the revisions 1, 2, 3, ... in order, each based on the one
      before; no pose moves and no timer starts before its board is ready. */
  lemma BoardsAreNumbered(xs: seq<Msg>, j: nat)
    requires LawfulTrace(SILENCE, xs) && j < |xs|
    ensures xs[j].CollectablesDelta? ==>
              && xs[j].board.baseRevision == BoardsIn(xs[..j], xs[j].board.generation)
              && xs[j].board.revision == xs[j].board.baseRevision + 1
              && (xs[j].board.initial <==> xs[j].board.baseRevision == 0)
    ensures xs[j].SnakeDelta? && xs[j].figure.Live? && xs[j].figure.pose.moved ==>
              OpenedIn(xs[..j], xs[j].figure.pose.generation)
    ensures xs[j].TimerStart? && xs[j].tag.Some? ==> OpenedIn(xs[..j], xs[j].tag.value)
  {
    PrefixIsLawful(SILENCE, xs, j);
    RevisionsAreCounted(xs[..j]);
    hide OpenedIn, BoardsIn, ObserveAll;
  }
}
