/** One native-relay generation: the messages seated players publish, what the room stores of
    them and what it broadcasts. Every function is one handler of the server, as a value. */
module Relay {
  import opened Prelude
  import opened Grid
  import opened RoomTypes
  import T = Turns

  datatype Native = Native(
    ready: bool, revision: nat, board: Option<Board>, modeKey: Option<ModeKey>, initializer: Option<ClientId>,
    lastEvent: map<ClientId, nat>, lastPose: map<ClientId, nat>, lastMove: map<ClientId, nat>,
    journals: map<ClientId, T.Journal>, poses: map<ClientId, Figure>,
    epoch: nat, speed: Speed, sources: set<nat>, ending: bool)

  datatype Relay = Relay(
    generation: nat, slots: seq<ClientId>, settings: Settings, alive: map<ClientId, bool>, seated: set<ClientId>,
    timer: Option<nat>, owner: Option<ClientId>, native: Native)

  /** What one handler leaves: the state, its broadcasts, whether the session is over, the error. */
  datatype Outcome = Outcome(relay: Relay, out: seq<Msg>, over: bool, err: Option<Err>)

  function Refuse(r: Relay, e: Err): Outcome {
    Outcome(r, [], false, Some(e))
  }

  function Ignore(r: Relay): Outcome {
    Outcome(r, [], false, None)
  }

  // ---------------------------------------------------------------- lookups

  function LastOf(m: map<ClientId, nat>, c: ClientId): nat {
    if c in m then m[c] else 0
  }

  predicate Alive(alive: map<ClientId, bool>, c: ClientId) {
    c in alive && alive[c]
  }

  function JournalOf(n: Native, c: ClientId): T.Journal {
    if c in n.journals then n.journals[c] else T.Journal(0, [])
  }

  /** A seat without an entry counts as alive here. */
  predicate AllSeatsDead(slots: seq<ClientId>, alive: map<ClientId, bool>) {
    forall id :: id in slots ==> id in alive && !alive[id]
  }

  /** Seat `c` stands at `k` or later, and every seat from `k` up to it is absent or dead. */
  predicate FirstStanding(slots: seq<ClientId>, alive: map<ClientId, bool>, here: set<ClientId>, k: nat, c: ClientId) {
    exists i :: k <= i < |slots| && slots[i] == c && forall j :: k <= j < i ==> slots[j] !in here || !Alive(alive, slots[j])
  }

  /** The first frozen seat from `k` on that is connected and alive. */
  function NextInitializerFrom(slots: seq<ClientId>, alive: map<ClientId, bool>, here: set<ClientId>, k: nat): (r: Option<ClientId>)
    requires k <= |slots|
    ensures r.Some? ==> r.value in slots && r.value in here && Alive(alive, r.value)
    ensures r.Some? ==> FirstStanding(slots, alive, here, k, r.value)
    ensures r.None? ==> forall i :: k <= i < |slots| ==> slots[i] !in here || !Alive(alive, slots[i])
    decreases |slots| - k
  {
    if k == |slots| then None
    else if slots[k] in here && Alive(alive, slots[k]) then Some(slots[k])
    else NextInitializerFrom(slots, alive, here, k + 1)
  }

  function NextInitializer(r: Relay, here: set<ClientId>): Option<ClientId> {
    NextInitializerFrom(r.slots, r.alive, here, 0)
  }

  // ---------------------------------------------------------------- shared checks

  const MAX_BODY: nat := 400

  function FirstBadCell(cells: seq<Option<Point>>, k: nat, w: nat, h: nat): Option<Err>
    requires k <= |cells|
    decreases |cells| - k
  {
    if k == |cells| then None
    else if cells[k].None? then Some(BadBodyCell)
    else if !InBounds(cells[k].value, w, h) then Some(BodyOutOfBounds)
    else FirstBadCell(cells, k + 1, w, h)
  }

  function CheckBody(b: BodyField, dims: (nat, nat)): Option<Err> {
    if !b.Cells? then Some(BadBody)
    else if b.cells == [] || |b.cells| > MAX_BODY then Some(BadBodyLength)
    else FirstBadCell(b.cells, 0, dims.0, dims.1)
  }

  predicate Present(b: BodyField) {
    !b.NoBody? && !b.NullBody?
  }

  /** The sender must hold a frozen seat and number its events upwards within the generation. */
  function CheckSender(r: Relay, here: set<ClientId>, from: ClientId, generation: Option<nat>, eventSeq: Option<nat>): Option<Err> {
    if from !in r.slots || from !in here then Some(NotFrozenSeat)
    else if generation.None? then Some(MissingGeneration)
    else if generation.value != r.generation then Some(StaleGeneration)
    else if eventSeq.None? || eventSeq.value == 0 then Some(BadEventSeq)
    else if eventSeq.value <= LastOf(r.native.lastEvent, from) then Some(StaleEventSeq)
    else None
  }

  // ---------------------------------------------------------------- poses

  function CheckPoseOrder(r: Relay, from: ClientId, p: PoseIn): Option<Err> {
    if p.poseSeq.None? || p.poseSeq.value == 0 then Some(BadPoseSeq)
    else if p.poseSeq.value <= LastOf(r.native.lastPose, from) then Some(StalePoseSeq)
    else if p.tooLarge then Some(PoseTooLarge)
    else if p.moved && !p.seated then Some(MovedBeforeSeated)
    else if p.moved && !r.native.ready then Some(BoardNotReady)
    else None
  }

  function CheckPoseContent(r: Relay, p: PoseIn): Option<Err> {
    if p.visual.Some? then Some(Content(p.visual.value))
    else if p.body.NoBody? then Some(MissingBody)
    else if CheckBody(p.body, RelayDims(r.settings)).Some? then CheckBody(p.body, RelayDims(r.settings))
    else if Present(p.body2) && CheckBody(p.body2, RelayDims(r.settings)).Some? then CheckBody(p.body2, RelayDims(r.settings))
    else if p.render.Some? then Some(Content(p.render.value))
    else if p.modeKey.BadKey? then Some(BadModeKey)
    else None
  }

  /** Once the board is ready every pose must agree with its mode. */
  function CheckPoseMode(n: Native, p: PoseIn): Option<Err> {
    if !n.ready then None
    else if n.modeKey.None? then Some(MissingCanonicalMode)
    else if p.modeKey != Key(n.modeKey.value) then Some(ModeKeyMismatch)
    else if YinYang(n.modeKey.value) && !Present(p.body2) then Some(YinYangBody2Required)
    else if !YinYang(n.modeKey.value) && Present(p.body2) then Some(Body2NotAllowed)
    else if p.moveSeq.None? then Some(MissingMoveSeq)
    else None
  }

  function CheckHead(c: CellField, ready: bool, dims: (nat, nat)): Option<Err> {
    match c
    case NoCell => if ready then Some(MissingHead) else None
    case Cell(at) => if at.None? || !InBounds(at.value, dims.0, dims.1) then Some(BadHead) else None
  }

  function CheckPoseMotion(r: Relay, from: ClientId, p: PoseIn): Option<Err> {
    if p.moveSeq.Some? && from in r.native.lastMove && p.moveSeq.value < r.native.lastMove[from] then Some(MoveSeqRegression)
    else if CheckHead(p.fromHead, r.native.ready, RelayDims(r.settings)).Some? then CheckHead(p.fromHead, r.native.ready, RelayDims(r.settings))
    else if CheckHead(p.toHead, r.native.ready, RelayDims(r.settings)).Some? then CheckHead(p.toHead, r.native.ready, RelayDims(r.settings))
    else if p.headings.Some? then Some(Content(p.headings.value))
    else if r.native.ready && p.movingHeadings.Some? then Some(Content(p.movingHeadings.value))
    else None
  }

  function CheckTurns(r: Relay, from: ClientId, p: PoseIn): Result<T.Journal, Err> {
    if p.turns.NotTurns? then Err(BadTurns)
    else
      var (w, h) := RelayDims(r.settings);
      var list := if p.turns.NoTurns? then [] else p.turns.list;
      match T.Validate(JournalOf(r.native, from), list, w, h)
      case Ok(journal) => Ok(journal)
      case Err(e) => Err(TurnRefused(e))
  }

  function First(a: Option<Err>, b: Option<Err>): Option<Err> {
    if a.Some? then a else b
  }

  function CheckPose(r: Relay, from: ClientId, p: PoseIn): Option<Err> {
    First(CheckPoseContent(r, p), First(CheckPoseMode(r.native, p), CheckPoseMotion(r, from, p)))
  }

  function CleanPose(r: Relay, from: ClientId, p: PoseIn, turns: seq<T.Turn>): Pose
    requires p.eventSeq.Some? && p.poseSeq.Some?
  {
    Pose(from, r.generation, p.eventSeq.value, p.poseSeq.value, p.seated, p.moved, p.body, p.body2,
         if p.modeKey.Key? then Some(p.modeKey.key) else None, p.moveSeq, turns, p.look)
  }

  function StorePose(r: Relay, pose: Pose, journal: T.Journal): Relay {
    r.(seated := if pose.seated then r.seated + {pose.client} else r.seated,
    native := r.native.(
    lastEvent := r.native.lastEvent[pose.client := pose.eventSeq],
    lastPose := r.native.lastPose[pose.client := pose.poseSeq],
    lastMove := if pose.moveSeq.Some? then r.native.lastMove[pose.client := pose.moveSeq.value] else r.native.lastMove,
    journals := r.native.journals[pose.client := journal],
    poses := r.native.poses[pose.client := Live(pose)]))
  }

  /** The shared timer starts with the first moved pose. */
  function ArmTimer(r: Relay, pose: Pose, now: nat): Outcome {
    if pose.moved && pose.seated && r.timer.None?
    then Outcome(r.(timer := Some(now)), [SnakeDelta(Live(pose)), TimerStart(Some(r.generation), now)], false, None)
    else Outcome(r, [SnakeDelta(Live(pose))], false, None)
  }

  function PublishPose(r: Relay, here: set<ClientId>, from: ClientId, p: PoseIn, now: nat): Outcome {
    var early := First(CheckSender(r, here, from, p.generation, p.eventSeq), CheckPoseOrder(r, from, p));
    if early.Some? then Refuse(r, early.value)
    else if !Alive(r.alive, from) then Ignore(r)
    else if CheckPose(r, from, p).Some? then Refuse(r, CheckPose(r, from, p).value)
    else
      match CheckTurns(r, from, p)
      case Err(e) => Refuse(r, e)
      case Ok(journal) =>
        var pose := CleanPose(r, from, p, journal.turns);
        ArmTimer(StorePose(r, pose, journal), pose, now)
  }

  // ---------------------------------------------------------------- boards

  function CheckFirstBoard(r: Relay, from: ClientId, b: BoardIn): Option<Err> {
    if r.native.initializer != Some(from) then Some(NotBoardInitializer)
    else if r.native.revision != 0 then Some(RuntimeBoardUpdatesDisabled)
    else if !b.initial || b.baseRevision != Some(0) then Some(InitialBoardRequired)
    else if from !in r.seated then Some(InitializerNotSeated)
    else if b.modeKey.NoKey? then Some(MissingModeKey)
    else if !b.modeKey.Key? then Some(BadModeKey)
    else if b.problem.Some? then Some(Content(b.problem.value))
    else None
  }

  function CheckNextBoard(r: Relay, from: ClientId, b: BoardIn): Option<Err> {
    if b.initial then Some(InitialAlreadyCommitted)
    else if from !in r.seated then Some(SeatNotSeated)
    else if b.baseRevision.None? then Some(MissingBaseRevision)
    else if b.baseRevision.value != r.native.revision then Some(StaleBoardRevision)
    else if b.modeKey.NullKey? || b.modeKey.BadKey? then Some(BadModeKey)
    else if b.problem.Some? then Some(Content(b.problem.value))
    else None
  }

  /** A later board may name its own mode; otherwise it takes the committed one. */
  function BoardKey(n: Native, k: KeyField): ModeKey {
    if k.Key? then k.key else n.modeKey.GetOr(CLASSIC)
  }

  function StoreBoard(r: Relay, board: Board): Relay {
    r.(native := r.native.(
    lastEvent := r.native.lastEvent[board.client := board.eventSeq], revision := board.revision, board := Some(board)))
  }

  /** The first commit opens the board and forgets every pose seen before it. */
  function OpenBoard(r: Relay, board: Board): Outcome {
    var stored := StoreBoard(r, board);
    Outcome(stored.(native := stored.native.(ready := true, modeKey := Some(board.modeKey), poses := map[])),
            [CollectablesDelta(board), BoardReady(r.generation, 1, Some(board.client), Some(board.modeKey))], false, None)
  }

  function PublishBoard(r: Relay, here: set<ClientId>, from: ClientId, b: BoardIn): Outcome {
    var sender := CheckSender(r, here, from, b.generation, b.eventSeq);
    if sender.Some? then Refuse(r, sender.value)
    else if !r.native.ready then
      if CheckFirstBoard(r, from, b).Some? then Refuse(r, CheckFirstBoard(r, from, b).value)
      else OpenBoard(r, Board(from, r.generation, b.eventSeq.value, 1, true, 0, b.modeKey.key, b.content))
    else if CheckNextBoard(r, from, b).Some? then Refuse(r, CheckNextBoard(r, from, b).value)
    else
      var board := Board(from, r.generation, b.eventSeq.value, r.native.revision + 1, false, b.baseRevision.value,
                         BoardKey(r.native, b.modeKey), b.content);
      Outcome(StoreBoard(r, board), [CollectablesDelta(board)], false, None)
  }

  // ---------------------------------------------------------------- deaths

  function RemainsOf(r: Relay, c: ClientId): Remains {
    if c in r.native.poses && r.native.poses[c].Live? then LastPose(r.native.poses[c].pose) else Nothing
  }

  function Fall(r: Relay, c: ClientId, reason: Reason, remains: Remains): Relay {
    r.(alive := r.alive[c := false],
    native := r.native.(
    lastEvent := if remains.Report? then r.native.lastEvent[c := remains.eventSeq] else r.native.lastEvent,
    poses := r.native.poses[c := Corpse(c, r.generation, reason, remains)]))
  }

  predicate NeedsHandoff(r: Relay, c: ClientId) {
    !r.native.ready && r.native.initializer == Some(c)
  }

  /** Until the board is ready, the next living seat takes over from a dead initialiser. */
  function HandOff(r: Relay, here: set<ClientId>): Relay {
    var next := NextInitializer(r, here);
    r.(owner := next, native := r.native.(initializer := next))
  }

  function InitRequest(r: Relay): seq<Msg> {
    match r.native.initializer
    case None => []
    case Some(c) => [BoardInit(r.generation, c)]
  }

  /** The session ends once every frozen seat is dead. */
  function EndIfAllDead(r: Relay, out: seq<Msg>): Outcome {
    if AllSeatsDead(r.slots, r.alive) && !r.native.ending
    then Outcome(r.(native := r.native.(ending := true)), out, true, None)
    else Outcome(r, out, false, None)
  }

  function MarkDead(r: Relay, here: set<ClientId>, c: ClientId, reason: Reason, remains: Remains): Outcome {
    if c !in r.slots || !Alive(r.alive, c) then Ignore(r)
    else
      var fallen := Fall(r, c, reason, remains);
      var dead := PlayerDead(Corpse(c, r.generation, reason, remains));
      if NeedsHandoff(fallen, c)
      then
        var handed := HandOff(fallen, here);
        EndIfAllDead(handed, [dead] + InitRequest(handed))
      else EndIfAllDead(fallen, [dead])
  }

  /** An empty list of cells means that the report brings no corpse. */
  function CheckRemains(b: BodyField, dims: (nat, nat)): Option<Err> {
    if b.NoBody? || b == Cells([]) then None else CheckBody(b, dims)
  }

  function CheckDeath(r: Relay, d: DeathIn): Option<Err> {
    var dims := RelayDims(r.settings);
    First(CheckRemains(d.body, dims), if d.body2.NullBody? then None else CheckRemains(d.body2, dims))
  }

  /** The sender of a death counts as seated from here on, also when its bodies are then refused. */
  function ReportDeath(r: Relay, here: set<ClientId>, from: ClientId, d: DeathIn): Outcome
    requires d.eventSeq.Some?
  {
    var seated := r.(seated := r.seated + {from});
    if CheckDeath(r, d).Some? then Refuse(seated, CheckDeath(r, d).value)
    else
      MarkDead(seated, here, from, if d.reason.Some? then Custom(d.reason.value) else OwnReport,
               Report(d.eventSeq.value, d.body, d.body2, d.look))
  }

  /** A death report takes the seat even before the board is ready. */
  function PublishDeath(r: Relay, here: set<ClientId>, from: ClientId, d: DeathIn): Outcome {
    if from in r.slots && !Alive(r.alive, from) then Ignore(r)
    else
      var sender := CheckSender(r, here, from, d.generation, d.eventSeq);
      if sender.Some? then Refuse(r, sender.value) else ReportDeath(r, here, from, d)
  }

  // ---------------------------------------------------------------- speed and goal

  function NextSpeed(now: Speed, s: SpeedIn): Result<Speed, Err> {
    match s.kind
    case NoKind => Err(BadSpeedTransition)
    case OtherKind => Err(BadSpeedTransition)
    case Set =>
      if s.value.Some? then Ok(s.value.value)
      else if s.effective.Some? then Ok(s.effective.value)
      else Err(MissingSpeedValue)
    case Toggle =>
      if now.Flag? then Ok(Flag(!now.on))
      else if s.effective.Some? then Ok(s.effective.value)
      else Err(MissingSpeedValue)
  }

  predicate KnownSource(r: Relay, s: SpeedIn) {
    s.source.Some? && s.generation == Some(r.generation) && s.source.value in r.native.sources
  }

  function StoreSpeed(r: Relay, from: ClientId, eventSeq: nat, source: nat, speed: Speed): Relay {
    r.(native := r.native.(
    lastEvent := r.native.lastEvent[from := eventSeq], sources := r.native.sources + {source},
    epoch := r.native.epoch + 1, speed := speed))
  }

  /** A source is counted once; resending it changes nothing, whoever sends it. */
  function PublishSpeed(r: Relay, here: set<ClientId>, from: ClientId, s: SpeedIn): Outcome {
    if s.source.None? then Refuse(r, BadSourceEventId)
    else if KnownSource(r, s) then Ignore(r)
    else
      var sender := CheckSender(r, here, from, s.generation, s.eventSeq);
      if sender.Some? then Refuse(r, sender.value)
      else if !r.native.ready then Refuse(r, BoardNotReady)
      else
        match NextSpeed(r.native.speed, s)
        case Err(e) => Refuse(r, e)
        case Ok(speed) =>
          var next := StoreSpeed(r, from, s.eventSeq.value, s.source.value, speed);
          Outcome(next, [SpeedTransition(r.generation, next.native.epoch, speed, Some((from, s.eventSeq.value)))], false, None)
  }

  function CheckGoal(r: Relay, from: ClientId, g: GoalIn): Option<Err> {
    if from !in r.seated then Some(SeatNotSeated)
    else if !r.native.ready then Some(BoardNotReady)
    else if !g.allApples then Some(BadGoalReason)
    else if g.generation.Some? && g.generation.value != r.generation then Some(StaleGeneration)
    else None
  }

  // ---------------------------------------------------------------- all handlers

  datatype Op =
    | PoseOp(from: ClientId, pose: PoseIn, now: nat)
    | BoardOp(from: ClientId, board: BoardIn)
    | DeathOp(from: ClientId, death: DeathIn)
    | SpeedOp(from: ClientId, speed: SpeedIn)
    | GoneOp(client: ClientId, reason: Reason)

  /** One publication, or a seat taken away by the room. */
  function Perform(r: Relay, here: set<ClientId>, op: Op): Outcome {
    match op
    case PoseOp(from, pose, now) => PublishPose(r, here, from, pose, now)
    case BoardOp(from, board) => PublishBoard(r, here, from, board)
    case DeathOp(from, death) => PublishDeath(r, here, from, death)
    case SpeedOp(from, speed) => PublishSpeed(r, here, from, speed)
    case GoneOp(client, reason) => MarkDead(r, here, client, reason, RemainsOf(r, client))
  }

  // ---------------------------------------------------------------- start and replay

  function NewNative(initializer: Option<ClientId>, speed: Speed): Native {
    Native(false, 0, None, None, initializer, map[], map[], map[], map[], map[], 0, speed, {}, false)
  }

  function AllAlive(slots: seq<ClientId>): map<ClientId, bool> {
    map id | id in slots :: true
  }

  function NewRelay(generation: nat, slots: seq<ClientId>, settings: Settings, owner: Option<ClientId>): Relay {
    Relay(generation, slots, settings, AllAlive(slots), {}, None, owner, NewNative(owner, settings.speed))
  }

  function MetaOf(r: Relay): Meta {
    Meta(r.generation, r.settings, r.slots, r.owner, true, r.native.revision, r.native.ready, r.native.modeKey,
         r.native.epoch, r.native.speed, r.timer)
  }

  /** What a fresh generation broadcasts. */
  function Opening(r: Relay): seq<Msg> {
    [SessionStart(MetaOf(r)), PlaySync] + InitRequest(r)
  }

  function FigureMsg(f: Figure): Msg {
    if f.Corpse? then PlayerDead(f) else SnakeDelta(f)
  }

  /** The stored figures of the first `k` seats, in seat order. */
  function FigureMsgs(r: Relay, k: nat): seq<Msg>
    requires k <= |r.slots|
    decreases k
  {
    if k == 0 then []
    else FigureMsgs(r, k - 1)
         + (if r.slots[k - 1] in r.native.poses then [FigureMsg(r.native.poses[r.slots[k - 1]])] else [])
  }

  function BoardMsgs(r: Relay): seq<Msg> {
    if r.native.board.None? then []
    else [CollectablesDelta(r.native.board.value), BoardReady(r.generation, r.native.revision, r.owner, r.native.modeKey)]
  }

  function TimerMsgs(generation: nat, timer: Option<nat>): seq<Msg> {
    if timer.None? then [] else [TimerStart(Some(generation), timer.value)]
  }

  /** The replay sent to one client: metadata, board, figures, timer, speed. */
  function Replay(r: Relay): seq<Msg> {
    [SessionStart(MetaOf(r))] + BoardMsgs(r) + FigureMsgs(r, |r.slots|) + TimerMsgs(r.generation, r.timer)
    + [SpeedTransition(r.generation, r.native.epoch, r.native.speed, None)]
  }
}
