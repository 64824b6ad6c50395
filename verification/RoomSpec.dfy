/** The room as a state machine: every command of a client, every arrival, departure and tick,
    as a function from the room before to the room after and the messages it sends. */
module RoomSpec {
  import opened Prelude
  import opened Grid
  import opened RoomTypes
  import opened RosterSpec
  import C = Colors
  import R = Relay
  import M = SimRun
  import S = CoopSpec
  import E = RaceScore

  /** The race attempt: its clock, its rules and the players' records. */
  datatype Attempt = Attempt(
    durationMin: nat, goal: E.Goal, deadline: Option<nat>, expired: bool, allowNew: bool, finishOngoing: bool,
    scores: map<ClientId, E.Entry>)

  /** What the room is doing; a session is active in every phase but the lobby. */
  datatype Phase = Lobby | Racing | Simulated(sim: M.Sim) | Relayed(relay: R.Relay)

  datatype Room = Room(
    mode: Mode, roster: Roster, attempt: Attempt, settings: Settings, phase: Phase, generation: nat, relayEnabled: bool)

  datatype Done = Done(room: Room, out: seq<Out>, err: Option<Err>)

  const DEFAULT_DURATION_MIN: nat := 30

  function NewRoom(relayEnabled: bool, settings: Settings): Room {
    Room(Race, Roster(map[], None, 0, 0), Attempt(DEFAULT_DURATION_MIN, E.Score, None, false, true, true, map[]), settings,
         Lobby, 0, relayEnabled)
  }

  // ---------------------------------------------------------------- messages

  /** Broadcast each message in turn. */
  function All(ms: seq<Msg>): (out: seq<Out>)
    ensures |out| == |ms|
    ensures forall i :: 0 <= i < |ms| ==> out[i] == Out(None, ms[i])
  {
    seq(|ms|, i requires 0 <= i < |ms| => Out(None, ms[i]))
  }

  function To(c: ClientId, ms: seq<Msg>): (out: seq<Out>)
    ensures |out| == |ms|
    ensures forall i :: 0 <= i < |ms| ==> out[i] == Out(Some(c), ms[i])
  {
    seq(|ms|, i requires 0 <= i < |ms| => Out(Some(c), ms[i]))
  }

  function OwnerOf(p: Phase): Option<ClientId> {
    match p
    case Simulated(sim) => sim.owner
    case Relayed(relay) => relay.owner
    case _ => None
  }

  function RosterMsg(s: Room): Msg {
    RosterUpdate(s.mode, s.roster, !s.phase.Lobby?, OwnerOf(s.phase))
  }

  function Announce(s: Room): seq<Out> {
    All([RosterMsg(s)])
  }

  function Accept(s: Room, out: seq<Out>): Done {
    Done(s, out, None)
  }

  function Refused(s: Room, e: Err): Done {
    Done(s, [], Some(e))
  }

  predicate IsAdmin(s: Room, from: ClientId) {
    s.roster.admin == Some(from)
  }

  // ---------------------------------------------------------------- ends of sessions

  /** Back to the lobby: nothing of the co-op run is left and nobody is ready. */
  function Cleared(s: Room): Room {
    s.(phase := Lobby, roster := NobodyReady(s.roster))
  }

  function EndCoop(s: Room, reason: EndReason): (Room, seq<Out>) {
    (Cleared(s), All([SessionEnd(reason), RosterMsg(Cleared(s))]))
  }

  /** An attempt aborted by the admin keeps its results on show. */
  function AbortRun(s: Room): Room {
    Cleared(s).(attempt := s.attempt.(deadline := None, allowNew := true, expired := s.attempt.scores != map[]))
  }

  predicate Running(s: Room, id: ClientId) {
    id in s.roster.clients && s.roster.clients[id].role == Player && (id in s.attempt.scores ==> s.attempt.scores[id].alive)
  }

  predicate AnyRunning(s: Room) {
    exists id :: id in s.roster.clients && Running(s, id)
  }

  predicate InGrace(s: Room) {
    s.phase.Racing? && s.attempt.expired && s.attempt.finishOngoing
  }

  /** The grace period after the clock closes once no current player is still running. */
  function MaybeEndGrace(s: Room): (Room, seq<Out>) {
    if InGrace(s) && !AnyRunning(s) then
      var closed := s.(phase := Lobby, attempt := s.attempt.(deadline := None));
      (closed, All([AttemptExpired(false, true), RosterMsg(closed)]))
    else (s, [])
  }

  // ---------------------------------------------------------------- seats

  /** The room after a handler of the relay; the last death ends the session. */
  function RelayDone(s: Room, o: R.Outcome): Done {
    var next := s.(phase := Relayed(o.relay));
    if o.over then
      var (ended, out) := EndCoop(next, AllDead);
      Done(ended, All(o.out) + out, o.err)
    else Done(next, All(o.out), o.err)
  }

  function RelayAct(s: Room, op: R.Op): Done
    requires s.phase.Relayed?
  {
    RelayDone(s, R.Perform(s.phase.relay, s.roster.clients.Keys, op))
  }

  ghost function SimAct(s: Room, o: M.Outcome): Done {
    var next := s.(phase := Simulated(o.sim));
    if o.over.Some? then
      var (ended, out) := EndCoop(next, o.over.value);
      Done(ended, All(o.out) + out, None)
    else Done(next, All(o.out), None)
  }

  /** A kicked or demoted client loses its frozen seat, if it holds one. */
  ghost function SeatGone(s: Room, c: ClientId, reason: Reason): Done {
    match s.phase
    case Relayed(_) => RelayAct(s, R.GoneOp(c, reason))
    case Simulated(sim) => SimAct(s, M.MarkDead(sim, c, reason))
    case _ => Accept(s, [])
  }

  /** Players in seat order. Arrival numbers are distinct in every room that can arise. */
  ghost function Seating(cs: map<ClientId, Client>): seq<ClientId> {
    if JoinsApart(cs) then SeatOrder(cs, Players(cs)) else []
  }

  /** Board owner: the admin while playing, else the player promoted first. */
  ghost function PickOwner(ro: Roster): Option<ClientId> {
    if ro.admin.Some? && ro.admin.value in Players(ro.clients) then ro.admin
    else if Seating(ro.clients) == [] then None
    else Some(Seating(ro.clients)[0])
  }

  // ---------------------------------------------------------------- arrivals and departures

  ghost function Join(s: Room, id: ClientId, sameRoom: bool): Done {
    if |s.roster.clients| >= MAX_CONNECTIONS then Refused(s, RoomFull)
    else if !sameRoom then Refused(s, BadRoom)
    else
      var next := s.(roster := Joined(s.roster, id));
      Accept(next, To(id, [Welcome(id, next.roster.admin == Some(id))]) + Announce(next))
  }

  /** The phase once `id` is out of the client table; a living simulated seat dies here. */
  ghost function Unseated(s: Room, id: ClientId): (Phase, seq<Msg>) {
    match s.phase
    case Simulated(sim) =>
      var fallen := M.MarkDead(sim, id, Disconnect);
      var next := if R.Alive(sim.alive, id) then fallen.sim else M.Forget(sim, id);
      (Simulated(if next.owner == Some(id) then next.(owner := PickOwner(s.roster.(clients := s.roster.clients - {id}))) else next),
       if R.Alive(sim.alive, id) then fallen.out else [])
    case p => (p, [])
  }

  function AllDeadIn(p: Phase): bool {
    match p
    case Simulated(sim) => R.AllSeatsDead(sim.slots, sim.alive)
    case Relayed(relay) => R.AllSeatsDead(relay.slots, relay.alive) && !relay.native.ending
    case _ => false
  }

  function MaybeEndAllDead(s: Room): (Room, seq<Out>) {
    if AllDeadIn(s.phase) then EndCoop(s, AllDead) else (s, [])
  }

  /** What follows every departure: checks, then the news or, for an empty room, silence. */
  function AfterLeave(s: Room): (Room, seq<Out>) {
    var (s1, out1) := MaybeEndAllDead(s);
    var (s2, out2) := MaybeEndGrace(s1);
    if s2.roster.clients != map[] then (s2, out1 + out2 + Announce(s2))
    else if !s2.phase.Lobby? then (Cleared(s2), out1 + out2)
    else (s2, out1 + out2)
  }

  ghost function Leave(s: Room, id: ClientId): (Room, seq<Out>) {
    if id !in s.roster.clients then (s, [])
    else
      var gone := if s.phase.Relayed? then RelayAct(s, R.GoneOp(id, Disconnect)) else Accept(s, []);
      var (phase, msgs) := Unseated(gone.room, id);
      var left := gone.room.(phase := phase, roster := Departed(gone.room.roster, id),
                             attempt := gone.room.attempt.(scores := gone.room.attempt.scores - {id}));
      var (after, out) := AfterLeave(left);
      (after, gone.out + All(msgs) + out)
  }

  // ---------------------------------------------------------------- roster commands

  ghost function SetRole(s: Room, from: ClientId, target: Option<ClientId>, role: Option<Role>): Done {
    if !IsAdmin(s, from) then Refused(s, NotAdmin)
    else if target.None? then Refused(s, MissingClientId)
    else if role.None? then Refused(s, BadRole)
    else if target.value !in s.roster.clients then Refused(s, UnknownClient)
    else if s.roster.clients[target.value].role == role.value then Accept(s, Announce(s))
    else if role.value == Player then
      if |Players(s.roster.clients)| >= CapOf(s.mode) then Refused(s, RoomTypes.PlayerCap)
      else WithGrace(s.(roster := Promoted(s.roster, s.mode, target.value)), [])
    else
      var gone := SeatGone(s, target.value, Demotion);
      if target.value !in gone.room.roster.clients then gone
      else WithGrace(gone.room.(roster := Demoted(gone.room.roster, target.value)), gone.out)
  }

  function WithGrace(s: Room, out: seq<Out>): Done {
    var (next, closing) := MaybeEndGrace(s);
    Accept(next, out + closing + Announce(next))
  }

  ghost function Kick(s: Room, from: ClientId, target: Option<ClientId>): Done {
    if !IsAdmin(s, from) then Refused(s, NotAdmin)
    else if target.None? then Refused(s, MissingClientId)
    else if target.value == from then Refused(s, CannotKickSelf)
    else if target.value !in s.roster.clients then Refused(s, UnknownClient)
    else
      var gone := SeatGone(s, target.value, Kicked);
      var (left, out) := Leave(gone.room, target.value);
      Accept(left, gone.out + To(target.value, [Error(WasKicked)]) + All([KickNotice(target.value)]) + out)
  }

  function SetDuration(s: Room, from: ClientId, minutes: Option<nat>): Done {
    if !IsAdmin(s, from) then Refused(s, NotAdmin)
    else if minutes.None? then Refused(s, BadMinutes)
    else
      var mins := minutes.value % 0x1_0000_0000;
      if mins == 0 || mins > 24 * 60 then Refused(s, BadMinutes)
      else
        var next := s.(attempt := s.attempt.(durationMin := mins));
        Accept(next, Announce(next))
  }

  function SetRaceGoal(s: Room, from: ClientId, goal: Option<E.Goal>): Done {
    if !IsAdmin(s, from) then Refused(s, NotAdmin)
    else if goal.None? then Refused(s, BadRaceGoal)
    else
      var scores := map id | id in s.attempt.scores :: E.AfterGoalChange(goal.value, s.attempt.scores[id]);
      var next := s.(attempt := s.attempt.(goal := goal.value, scores := scores));
      Accept(next, Announce(next))
  }

  function Ready(s: Room, from: ClientId, ready: Option<bool>): Done {
    if from !in s.roster.clients then Refused(s, UnknownClient)
    else if s.roster.clients[from].role != Player then Refused(s, SpectatorsCannotReady)
    else
      var next := s.(roster := Readied(s.roster, s.mode, from, ready.GetOr(true)));
      Accept(next, Announce(next))
  }

  function ColorClaim(s: Room, from: ClientId, color: Option<nat>): Done {
    if color.None? then Refused(s, BadColor)
    else
      var id := color.value % 256;
      if !C.Claimable(id) then Refused(s, ColorNotClaimable)
      else if s.mode == Coop && ColorLocked(s.roster.clients, from, id) then Refused(s, ColorTaken)
      else if from !in s.roster.clients then Refused(s, UnknownClient)
      else
        var next := s.(roster := Painted(s.roster, from, id));
        Accept(next, Announce(next))
  }

  function AdminTransfer(s: Room, from: ClientId, target: Option<ClientId>): Done {
    if !IsAdmin(s, from) then Refused(s, NotAdmin)
    else if target.None? then Refused(s, MissingClientId)
    else if target.value !in s.roster.clients then Refused(s, UnknownClient)
    else
      var next := s.(roster := s.roster.(admin := target));
      Accept(next, Announce(next))
  }

  ghost function TrimmedIfCoop(ro: Roster, mode: Mode): Roster {
    if mode == Coop && JoinsApart(ro.clients) then Trimmed(ro) else ro
  }

  /** A change of mode aborts the session and drops the results; co-op sheds its newest players. */
  ghost function ModeChange(s: Room, from: ClientId, mode: Option<Mode>): Done {
    if !IsAdmin(s, from) then Refused(s, NotAdmin)
    else if mode.None? then Refused(s, BadMode)
    else
      var aborted := AbortRun(s);
      var next := aborted.(mode := mode.value,
                           attempt := aborted.attempt.(scores := map[], expired := false),
                           roster := TrimmedIfCoop(aborted.roster, mode.value));
      Accept(next, All([SessionEnd(EndReason.Aborted), ModeChanged(mode.value), RosterMsg(next)]))
  }

  function SyncSettings(s: Room, from: ClientId, settings: Settings): Done {
    if !IsAdmin(s, from) then Refused(s, NotAdmin)
    else Accept(s.(settings := settings), All([SettingsSync(settings)]))
  }

  function SyncPlay(s: Room, from: ClientId): Done {
    if !IsAdmin(s, from) then Refused(s, NotAdmin)
    else if !AllPlayersReady(s.roster.clients) then Refused(s, NotAllReady)
    else if s.mode == Race && !s.attempt.allowNew then Refused(s, AttemptIsExpired)
    else Accept(s, All([PlaySync]))
  }

  function EndSession(s: Room, from: ClientId): Done {
    if !IsAdmin(s, from) then Refused(s, NotAdmin)
    else Accept(AbortRun(s), All([SessionEnd(EndReason.Aborted), RosterMsg(AbortRun(s))]))
  }

  // ---------------------------------------------------------------- session start

  function SimMeta(sim: M.Sim): Meta {
    Meta(sim.generation, sim.settings, sim.slots, sim.owner, false, 0, true, None, 0, sim.settings.speed, sim.timer)
  }

  /** The seats handed to the simulation; a player without a colour would get its slot number. */
  function SeatsOf(cs: map<ClientId, Client>, slots: seq<ClientId>): (r: seq<S.Seat>)
    ensures |r| == |slots|
    ensures forall i :: 0 <= i < |slots| ==>
              r[i] == S.Seat(slots[i], if slots[i] in cs then cs[slots[i]].color.GetOr(i) else i, i)
  {
    seq(|slots|, i requires 0 <= i < |slots| => S.Seat(slots[i], if slots[i] in cs then cs[slots[i]].color.GetOr(i) else i, i))
  }

  ghost function NewSim(s: Room, slots: seq<ClientId>, owner: Option<ClientId>, seed: bv64): M.Sim {
    M.Sim(s.generation + 1, slots, s.settings, owner, S.NewGame(SeatsOf(s.roster.clients, slots), SimConfig(s.settings, seed)),
          0, R.AllAlive(slots), None)
  }

  ghost function FirstSeats(cs: map<ClientId, Client>): seq<ClientId> {
    var order := Seating(cs);
    if |order| <= MAX_COOP_PLAYERS then order else order[..MAX_COOP_PLAYERS]
  }

  function FirstOwner(admin: Option<ClientId>, slots: seq<ClientId>): Option<ClientId> {
    if admin.Some? && admin.value in slots then admin
    else if slots == [] then None
    else Some(slots[0])
  }

  ghost function StartCoop(s: Room, seed: bv64): Done {
    var slots := FirstSeats(s.roster.clients);
    var owner := FirstOwner(s.roster.admin, slots);
    var begun := s.(generation := s.generation + 1,
                    attempt := s.attempt.(expired := false, allowNew := true, scores := map[], deadline := None));
    if s.relayEnabled then
      var relay := R.NewRelay(s.generation + 1, slots, s.settings, owner);
      var next := begun.(phase := Relayed(relay));
      Accept(next, All(R.Opening(relay) + [RosterMsg(next)]))
    else
      var sim := NewSim(s, slots, owner, seed);
      var next := begun.(phase := Simulated(sim));
      Accept(next, All([SessionStart(SimMeta(sim)), PlaySync, CoopState(M.FrameOf(sim.game)), RosterMsg(next)]))
  }

  function StartRace(s: Room, finishOngoing: Option<bool>, now: nat): Done {
    var attempt := s.attempt.(expired := false, allowNew := true, scores := map[],
                              deadline := Some(now + s.attempt.durationMin * 60000),
                              finishOngoing := finishOngoing.GetOr(s.attempt.finishOngoing));
    var next := s.(phase := Racing, attempt := attempt);
    Accept(next, All([RaceStart(s.settings), PlaySync, RosterMsg(next)]))
  }

  ghost function StartSession(s: Room, from: ClientId, settings: Option<Settings>, finishOngoing: Option<bool>, now: nat, seed: bv64): Done {
    if !IsAdmin(s, from) then Refused(s, NotAdmin)
    else if !AllPlayersReady(s.roster.clients) then Refused(s, NotAllReady)
    else if s.mode == Coop && !s.phase.Lobby? then Refused(s, SessionIsActive)
    else
      var staged := s.(settings := settings.GetOr(s.settings));
      if s.mode == Race then StartRace(staged, finishOngoing, now) else StartCoop(staged, seed)
  }

  // ---------------------------------------------------------------- play

  ghost function Input(s: Room, from: ClientId, dir: DirField, now: nat): Done {
    if s.mode != Coop then Refused(s, NotCoop)
    else if s.phase.Lobby? then Accept(s, [])
    else if s.phase.Relayed? then Refused(s, NativeRelayUsesPose)
    else if from !in s.roster.clients then Refused(s, UnknownClient)
    else if s.roster.clients[from].role != Player then Refused(s, NotPlayer)
    else if dir.NoDir? then Refused(s, MissingDir)
    else if dir.BadDir? then Refused(s, BadDirection)
    else if s.phase.Simulated? then SimAct(s, M.Input(s.phase.sim, from, dir.dir, now))
    else Accept(s, [])
  }

  /** Reported scores and times are capped; a late claim of all apples does not count. */
  function CleanPulse(p: E.Pulse, expired: bool): E.Pulse {
    p.(score := Min(p.score, 100000), timeMs := Min(p.timeMs, 24 * 60 * 60 * 1000), goalAll := p.goalAll && !expired)
  }

  function Pulse(s: Room, from: ClientId, p: E.Pulse): Done {
    if from !in s.roster.clients then Refused(s, UnknownClient)
    else if s.roster.clients[from].role != Player || s.mode != Race then Refused(s, NotRacePlayer)
    else if s.phase.Lobby? then Accept(s, [])
    else
      var before := if from in s.attempt.scores then s.attempt.scores[from] else E.FRESH;
      var entry := E.AfterPulse(s.attempt.goal, before, CleanPulse(p, s.attempt.expired));
      var (next, out) := MaybeEndGrace(s.(attempt := s.attempt.(scores := s.attempt.scores[from := entry])));
      Accept(next, All([ScorePulse(from, entry)]) + out)
  }

  /** Poses, boards and deaths mean nothing outside a relayed session. */
  function Publish(s: Room, op: R.Op): Done {
    if !s.phase.Relayed? then Accept(s, []) else RelayAct(s, op)
  }

  function ShiftSpeed(s: Room, from: ClientId, e: SpeedIn): Done {
    if s.phase.Relayed? then RelayAct(s, R.SpeedOp(from, e))
    else if e.source.None? then Refused(s, BadSourceEventId)
    else Refused(s, NotNativeRelay)
  }

  function Goal(s: Room, from: ClientId, g: GoalIn): Done {
    if !s.phase.Relayed? then Accept(s, [])
    else
      var problem := R.CheckGoal(s.phase.relay, from, g);
      if problem.Some? then Refused(s, problem.value)
      else
        var (ended, out) := EndCoop(s, AllApples);
        Accept(ended, out)
  }

  /** The replay sent to one client. */
  function ReplayMsgs(s: Room): seq<Msg> {
    match s.phase
    case Relayed(relay) => R.Replay(relay)
    case Simulated(sim) =>
      [SessionStart(SimMeta(sim)), CoopState(M.FrameOf(sim.game))] + R.TimerMsgs(sim.generation, sim.timer)
    case _ => if s.mode == Race then [SettingsSync(s.settings)] else []
  }

  function Resync(s: Room, from: ClientId): Done {
    Accept(s, To(from, ReplayMsgs(s) + [RosterMsg(s)]))
  }

  // ---------------------------------------------------------------- time

  function RaceTick(s: Room, now: nat): Done {
    if s.attempt.deadline.None? || now < s.attempt.deadline.value || s.attempt.expired then Accept(s, [])
    else
      var expired := s.(attempt := s.attempt.(expired := true, allowNew := false));
      if s.attempt.finishOngoing then
        var (next, out) := MaybeEndGrace(expired);
        Accept(next, All([AttemptExpired(true, false), RosterMsg(expired)]) + out)
      else
        var closed := expired.(phase := Lobby, attempt := expired.attempt.(deadline := None));
        Accept(closed, All([AttemptExpired(false, false), RosterMsg(closed)]))
  }

  ghost function Tick(s: Room, now: nat): Done {
    if s.mode == Race then RaceTick(s, now)
    else if s.phase.Simulated? then SimAct(s, M.Tick(s.phase.sim))
    else Accept(s, [])
  }

  // ---------------------------------------------------------------- all commands

  datatype Cmd =
    | JoinCmd(id: ClientId, sameRoom: bool)
    | LeaveCmd(id: ClientId)
    | TickCmd(now: nat)
    | Handle(from: ClientId, request: Request, now: nat, seed: bv64)

  datatype Request =
    | SetRoleReq(target: Option<ClientId>, role: Option<Role>)
    | KickReq(target: Option<ClientId>)
    | SetDurationReq(minutes: Option<nat>)
    | SetRaceGoalReq(goal: Option<E.Goal>)
    | ReadyReq(ready: Option<bool>)
    | ColorClaimReq(color: Option<nat>)
    | ModeChangeReq(mode: Option<Mode>)
    | SettingsSyncReq(settings: Settings)
    | PlaySyncReq
    | SessionStartReq(bundle: Option<Settings>, finishOngoing: Option<bool>)
    | SessionEndReq
    | InputReq(dir: DirField)
    | PulseReq(pulse: E.Pulse)
    | AdminTransferReq(target: Option<ClientId>)
    | ResyncReq
    | PoseReq(pose: PoseIn)
    | BoardReq(board: BoardIn)
    | DeathReq(death: DeathIn)
    | SpeedReq(speed: SpeedIn)
    | GoalReq(claim: GoalIn)
    | ServerOwnedReq

  ghost function Perform(s: Room, from: ClientId, q: Request, now: nat, seed: bv64): Done {
    match q
    case SetRoleReq(target, role) => SetRole(s, from, target, role)
    case KickReq(target) => Kick(s, from, target)
    case SetDurationReq(minutes) => SetDuration(s, from, minutes)
    case SetRaceGoalReq(goal) => SetRaceGoal(s, from, goal)
    case ReadyReq(ready) => Ready(s, from, ready)
    case ColorClaimReq(color) => ColorClaim(s, from, color)
    case ModeChangeReq(mode) => ModeChange(s, from, mode)
    case SettingsSyncReq(settings) => SyncSettings(s, from, settings)
    case PlaySyncReq => SyncPlay(s, from)
    case SessionStartReq(bundle, finishOngoing) => StartSession(s, from, bundle, finishOngoing, now, seed)
    case SessionEndReq => EndSession(s, from)
    case InputReq(dir) => Input(s, from, dir, now)
    case PulseReq(pulse) => Pulse(s, from, pulse)
    case AdminTransferReq(target) => AdminTransfer(s, from, target)
    case ResyncReq => Resync(s, from)
    case PoseReq(pose) => Publish(s, R.PoseOp(from, pose, now))
    case BoardReq(board) => Publish(s, R.BoardOp(from, board))
    case DeathReq(death) => Publish(s, R.DeathOp(from, death))
    case SpeedReq(speed) => ShiftSpeed(s, from, speed)
    case GoalReq(claim) => Goal(s, from, claim)
    case ServerOwnedReq => Refused(s, ServerOwnedMessage)
  }

  /** An error goes back to the sender alone. */
  function Answered(d: Done, from: ClientId): Done {
    if d.err.None? then d else Done(d.room, d.out + To(from, [Error(d.err.value)]), d.err)
  }

  ghost function Apply(s: Room, c: Cmd): Done {
    match c
    case JoinCmd(id, sameRoom) => Join(s, id, sameRoom)
    case LeaveCmd(id) => var (next, out) := Leave(s, id); Accept(next, out)
    case TickCmd(now) => Tick(s, now)
    case Handle(from, request, now, seed) => Answered(Perform(s, from, request, now, seed), from)
  }

  /** Every client that joins is new to the room. */
  predicate Enabled(s: Room, c: Cmd) {
    c.JoinCmd? ==> c.id !in s.roster.clients
  }

  ghost function Run(s: Room, cs: seq<Cmd>): Room
    decreases |cs|
  {
    if cs == [] then s else Apply(Run(s, cs[..|cs| - 1]), Last(cs)).room
  }

  /** Everything sent along a run, in order. */
  ghost function Sent(s: Room, cs: seq<Cmd>): seq<Out>
    decreases |cs|
  {
    if cs == [] then [] else Sent(s, cs[..|cs| - 1]) + Apply(Run(s, cs[..|cs| - 1]), Last(cs)).out
  }

  ghost predicate EnabledRun(s: Room, cs: seq<Cmd>)
    decreases |cs|
  {
    cs == [] || (EnabledRun(s, cs[..|cs| - 1]) && Enabled(Run(s, cs[..|cs| - 1]), Last(cs)))
  }
}
