/** What the room stores, what its clients send and what it sends back. */
module RoomTypes {
  import opened Prelude
  import opened Grid
  import CoopSpec
  import RaceScore
  import Turns

  type ClientId = nat

  datatype Mode = Race | Coop

  datatype Role = Spectator | Player

  datatype Client = Client(role: Role, ready: bool, color: Option<nat>, joinOrder: nat, promoteOrder: Option<nat>)

  datatype Roster = Roster(clients: map<ClientId, Client>, admin: Option<ClientId>, joinSeq: nat, promoteSeq: nat)

  // ---------------------------------------------------------------- settings

  datatype Speed = Flag(on: bool) | Number(n: nat) | NoSpeed

  /** The lobby settings the room itself reads; `rest` stands for everything it only relays. */
  datatype Settings = Settings(size: nat, count: nat, speed: Speed, rest: nat)

  /** Board size under which relayed poses are checked: the size is cut to one byte. */
  function RelayDims(s: Settings): (nat, nat) {
    CoopSpec.BoardDims(s.size % 256)
  }

  /** What the simulation reads: each index is clamped to one byte, a seed of zero becomes one. */
  function SimConfig(s: Settings, seed: bv64): CoopSpec.Config {
    CoopSpec.Config(Min(s.size, 255), Min(s.count, 255),
                    if s.speed.Number? then Min(s.speed.n, 255) else 0,
                    if seed == 0 then 1 else seed)
  }

  // ---------------------------------------------------------------- incoming payloads

  /** A mode key that is well formed: lower-case parts joined by '+'. */
  type ModeKey = seq<string>

  const CLASSIC: ModeKey := ["classic"]

  predicate YinYang(key: ModeKey) {
    "yin_yang" in key
  }

  datatype KeyField = NoKey | NullKey | BadKey | Key(key: ModeKey)

  /** A body as it arrives; a cell is None when it has no integer coordinates. */
  datatype BodyField = NoBody | NullBody | NotCells | Cells(cells: seq<Option<Point>>)

  datatype CellField = NoCell | Cell(at: Option<Point>)

  datatype TurnsField = NoTurns | NotTurns | TurnList(list: seq<Turns.RawTurn>)

  /** A published pose. `visual`, `render`, `headings` and `movingHeadings` are the verdicts of
      the cosmetic checks (the last one applies once the board is ready); `look` is the rest. */
  datatype PoseIn = PoseIn(
    generation: Option<nat>, eventSeq: Option<nat>, poseSeq: Option<nat>, tooLarge: bool,
    seated: bool, moved: bool, body: BodyField, body2: BodyField, modeKey: KeyField,
    moveSeq: Option<nat>, fromHead: CellField, toHead: CellField, turns: TurnsField,
    visual: Option<nat>, render: Option<nat>, headings: Option<nat>, movingHeadings: Option<nat>, look: nat)

  /** A board commit; `problem` is the verdict of the entity checks, `content` the entities. */
  datatype BoardIn = BoardIn(
    generation: Option<nat>, eventSeq: Option<nat>, initial: bool, baseRevision: Option<nat>,
    modeKey: KeyField, problem: Option<nat>, content: nat)

  datatype DeathIn = DeathIn(
    generation: Option<nat>, eventSeq: Option<nat>, body: BodyField, body2: BodyField, reason: Option<nat>, look: nat)

  datatype SpeedKind = NoKind | Set | Toggle | OtherKind

  /** A speed event; `source` is None when the identifier is missing, empty or too long. */
  datatype SpeedIn = SpeedIn(
    generation: Option<nat>, eventSeq: Option<nat>, source: Option<nat>, kind: SpeedKind,
    value: Option<Speed>, effective: Option<Speed>)

  /** A claim that all apples are eaten; `allApples` says that the reason is absent or ALL_APPLES. */
  datatype GoalIn = GoalIn(generation: Option<nat>, allApples: bool)

  datatype DirField = NoDir | BadDir | Heading(dir: Dir)

  // ---------------------------------------------------------------- stored relay state

  datatype Pose = Pose(
    client: ClientId, generation: nat, eventSeq: nat, poseSeq: nat, seated: bool, moved: bool,
    body: BodyField, body2: BodyField, modeKey: Option<ModeKey>, moveSeq: Option<nat>,
    turns: seq<Turns.Turn>, look: nat)

  datatype Reason = OwnReport | Disconnect | Kicked | Demotion | Custom(text: nat)

  /** What a corpse is made of: the death report, the last pose, or nothing. */
  datatype Remains = Report(eventSeq: nat, body: BodyField, body2: BodyField, look: nat) | LastPose(pose: Pose) | Nothing

  datatype Figure = Live(pose: Pose) | Corpse(client: ClientId, generation: nat, reason: Reason, remains: Remains)

  function Owner(f: Figure): ClientId {
    if f.Live? then f.pose.client else f.client
  }

  function FigureGeneration(f: Figure): nat {
    if f.Live? then f.pose.generation else f.generation
  }

  datatype Board = Board(
    client: ClientId, generation: nat, eventSeq: nat, revision: nat, initial: bool, baseRevision: nat,
    modeKey: ModeKey, content: nat)

  // ---------------------------------------------------------------- outgoing messages

  datatype EndReason = Aborted | AllApples | AllDead | Ended

  /** The session metadata of SESSION_START, also the head of every replay. */
  datatype Meta = Meta(
    generation: nat, settings: Settings, slots: seq<ClientId>, owner: Option<ClientId>, relay: bool,
    revision: nat, ready: bool, modeKey: Option<ModeKey>, epoch: nat, speed: Speed, timer: Option<nat>)

  /** What COOP_STATE shows of a snake and of the simulation. */
  datatype SnakeFrame = SnakeFrame(client: ClientId, slot: nat, color: nat, body: seq<Point>, dir: Dir, alive: bool, score: nat)

  datatype Frame = Frame(
    width: nat, height: nat, snakes: seq<SnakeFrame>, fruit: seq<Point>, score: nat, tick: nat, seqNo: nat,
    running: bool, ended: bool, reason: Option<CoopSpec.EndReason>, speedIndex: nat, target: nat)

  datatype Msg =
    | Welcome(client: ClientId, isAdmin: bool)
    | RosterUpdate(mode: Mode, roster: Roster, active: bool, owner: Option<ClientId>)
    | Error(err: Err)
    | KickNotice(client: ClientId)
    | ModeChanged(mode: Mode)
    | SettingsSync(settings: Settings)
    | PlaySync
    | RaceStart(settings: Settings)
    | SessionStart(meta: Meta)
    | SessionEnd(reason: EndReason)
    | BoardInit(generation: nat, initializer: ClientId)
    | SnakeDelta(figure: Figure)
    | PlayerDead(figure: Figure)
    | CollectablesDelta(board: Board)
    | BoardReady(generation: nat, revision: nat, owner: Option<ClientId>, modeKey: Option<ModeKey>)
    | TimerStart(tag: Option<nat>, timer: nat)
    | SpeedTransition(generation: nat, epoch: nat, speed: Speed, sender: Option<(ClientId, nat)>)
    | SimDead(client: ClientId, cause: Reason)
    | CoopState(frame: Frame)
    | ScorePulse(client: ClientId, entry: RaceScore.Entry)
    | AttemptExpired(finishOngoing: bool, runsComplete: bool)

  /** A message and its addressee; None is everybody. */
  datatype Out = Out(to: Option<ClientId>, msg: Msg)

  datatype Err =
    | RoomFull | BadRoom | WasKicked | NotAdmin | MissingClientId | UnknownClient | BadRole | PlayerCap | CannotKickSelf
    | BadMinutes | BadRaceGoal | SpectatorsCannotReady | BadColor | ColorNotClaimable | ColorTaken | BadMode
    | NotAllReady | AttemptIsExpired | SessionIsActive | NotCoop | NativeRelayUsesPose | NotPlayer | MissingDir | BadDirection
    | NotRacePlayer | ServerOwnedMessage
    | NotNativeRelay | NotFrozenSeat | MissingGeneration | StaleGeneration | BadEventSeq | StaleEventSeq
    | BadPoseSeq | StalePoseSeq | PoseTooLarge | MovedBeforeSeated | BoardNotReady | Content(code: nat)
    | MissingBody | BadBody | BadBodyLength | BadBodyCell | BodyOutOfBounds
    | BadModeKey | MissingModeKey | MissingCanonicalMode | ModeKeyMismatch | YinYangBody2Required | Body2NotAllowed
    | MissingMoveSeq | MoveSeqRegression | BadHead | MissingHead | BadTurns | TurnRefused(error: Turns.TurnError)
    | NotBoardInitializer | RuntimeBoardUpdatesDisabled | InitialBoardRequired | InitializerNotSeated
    | InitialAlreadyCommitted | SeatNotSeated | MissingBaseRevision | StaleBoardRevision
    | BadGoalReason | BadSourceEventId | BadSpeedTransition | MissingSpeedValue
}
