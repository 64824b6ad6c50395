/** What every handler of a native-relay generation keeps: living seats, the board handshake,
    stored figures, turn journals and the speed count. */
module RelayInv {
  import opened Prelude
  import opened Grid
  import opened RoomTypes
  import opened Relay
  import T = Turns

  const MAX_SEATS: nat := 4

  ghost predicate SlotsOk(r: Relay) {
    && NoDup(r.slots) && 1 <= |r.slots| <= MAX_SEATS
    && (forall id :: id in r.alive <==> id in r.slots)
  }

  /** Some frozen seat is alive, and every living seat is a connected player. */
  ghost predicate SeatsOk(r: Relay, players: set<ClientId>) {
    && (exists id :: id in r.slots && Alive(r.alive, id))
    && (forall id :: Alive(r.alive, id) ==> id in players)
  }

  /** Before the board is ready a living seat is asked for it; afterwards there is a board. */
  predicate BoardOk(r: Relay) {
    var n := r.native;
    if n.ready then
      && n.revision > 0 && n.board.Some? && n.board.value.revision == n.revision
      && n.board.value.generation == r.generation && n.modeKey.Some? && r.owner.Some? && r.owner.value in r.slots
    else
      && n.revision == 0 && n.board.None? && n.modeKey.None? && r.timer.None? && n.epoch == 0
      && n.initializer.Some? && Alive(r.alive, n.initializer.value) && r.owner == n.initializer
  }

  /** Each stored figure belongs to its seat and lies dead exactly when the seat is. */
  predicate FiguresOk(r: Relay) {
    forall c :: c in r.native.poses ==>
                  && c in r.slots && Owner(r.native.poses[c]) == c
                  && FigureGeneration(r.native.poses[c]) == r.generation
                  && (r.native.poses[c].Live? <==> Alive(r.alive, c))
  }

  predicate JournalsOk(n: Native) {
    forall c :: c in n.journals ==> T.JournalOk(n.journals[c])
  }

  ghost predicate RelayOk(r: Relay, players: set<ClientId>) {
    && SlotsOk(r) && SeatsOk(r, players) && BoardOk(r) && FiguresOk(r) && JournalsOk(r.native)
    && r.native.epoch == |r.native.sources| && !r.native.ending
  }

  // ---------------------------------------------------------------- the handlers keep it

  lemma TurnsKeepJournals(r: Relay, from: ClientId, p: PoseIn)
    requires JournalsOk(r.native)
    ensures CheckTurns(r, from, p).Ok? ==>
              var journal := CheckTurns(r, from, p).value;
              T.JournalOk(journal) && JournalOf(r.native, from).highest <= journal.highest
  {
    var (w, h) := RelayDims(r.settings);
    var list := if p.turns.TurnList? then p.turns.list else [];
    hide RelayDims, T.Validate, T.JournalOk;
    if T.Validate(JournalOf(r.native, from), list, w, h).Ok? {
      assert T.JournalOk(JournalOf(r.native, from)) by { FreshJournal(); }
      T.ValidateKeepsJournal(JournalOf(r.native, from), list, w, h);
    }
  }

  lemma FreshJournal()
    ensures T.JournalOk(T.Journal(0, []))
  {
  }

  lemma StorePoseKeeps(r: Relay, players: set<ClientId>, pose: Pose, journal: T.Journal)
    requires RelayOk(r, players) && T.JournalOk(journal)
    requires Alive(r.alive, pose.client) && pose.generation == r.generation
    ensures RelayOk(StorePose(r, pose, journal), players)
  {
    hide T.JournalOk;
    var next := StorePose(r, pose, journal);
    assert FiguresOk(next) && JournalsOk(next.native) && SlotsOk(next) && SeatsOk(next, players) && BoardOk(next);
  }

  lemma AcceptedPose(r: Relay, here: set<ClientId>, from: ClientId, p: PoseIn)
    requires CheckSender(r, here, from, p.generation, p.eventSeq).None? && CheckPoseOrder(r, from, p).None?
    requires CheckPose(r, from, p).None?
    ensures p.eventSeq.Some? && LastOf(r.native.lastEvent, from) < p.eventSeq.value
    ensures p.poseSeq.Some? && LastOf(r.native.lastPose, from) < p.poseSeq.value
    ensures p.moveSeq.Some? && from in r.native.lastMove ==> r.native.lastMove[from] <= p.moveSeq.value
    ensures p.moved ==> p.seated && r.native.ready
    ensures from in r.slots
  {
    hide CheckPoseContent, CheckPoseMode;
  }

  lemma PoseKeeps(r: Relay, here: set<ClientId>, players: set<ClientId>, from: ClientId, p: PoseIn, now: nat)
    requires RelayOk(r, players)
    ensures var o := PublishPose(r, here, from, p, now); !o.over && RelayOk(o.relay, players)
  {
    TurnsKeepJournals(r, from, p);
    hide JournalsOk, SlotsOk, SeatsOk, BoardOk, FiguresOk;
    hide CheckSender, CheckPoseOrder, CheckPose, CheckTurns, T.JournalOk, StorePose, RelayOk;
    if CheckSender(r, here, from, p.generation, p.eventSeq).None? && CheckPoseOrder(r, from, p).None?
       && Alive(r.alive, from) && CheckPose(r, from, p).None? && CheckTurns(r, from, p).Ok? {
      AcceptedPose(r, here, from, p);
      var journal := CheckTurns(r, from, p).value;
      var pose := CleanPose(r, from, p, journal.turns);
      StorePoseKeeps(r, players, pose, journal);
      var stored := StorePose(r, pose, journal);
      if !pose.moved || stored.native.ready {
        TimerKeeps(stored, players, now);
      }
      StoreKeepsReady(r, pose, journal);
    }
  }

  lemma StoreKeepsReady(r: Relay, pose: Pose, journal: T.Journal)
    ensures var next := StorePose(r, pose, journal);
            next.native.ready == r.native.ready && next.timer == r.timer && next.generation == r.generation
  {
  }

  lemma TimerKeeps(r: Relay, players: set<ClientId>, now: nat)
    requires RelayOk(r, players)
    ensures r.native.ready ==> RelayOk(r.(timer := Some(now)), players)
  {
    hide T.JournalOk;
  }

  lemma BoardKeeps(r: Relay, here: set<ClientId>, players: set<ClientId>, from: ClientId, b: BoardIn)
    requires RelayOk(r, players)
    ensures var o := PublishBoard(r, here, from, b); !o.over && RelayOk(o.relay, players)
  {
    hide T.JournalOk;
  }

  lemma SpeedKeeps(r: Relay, here: set<ClientId>, players: set<ClientId>, from: ClientId, s: SpeedIn)
    requires RelayOk(r, players)
    ensures var o := PublishSpeed(r, here, from, s); !o.over && RelayOk(o.relay, players)
  {
    hide T.JournalOk;
    if s.source.Some? && s.generation == Some(r.generation) {
      assert s.source.value !in r.native.sources ==> |r.native.sources + {s.source.value}| == |r.native.sources| + 1;
    }
  }

  /** What a death leaves sound before anyone takes over the board. */
  lemma FallenOk(r: Relay, players: set<ClientId>, c: ClientId, reason: Reason, remains: Remains)
    requires RelayOk(r, players) && c in r.slots
    ensures var fallen := Fall(r, c, reason, remains);
            && SlotsOk(fallen) && FiguresOk(fallen) && JournalsOk(fallen.native)
            && (forall id :: Alive(fallen.alive, id) <==> Alive(r.alive, id) && id != c)
  {
    hide T.JournalOk;
  }

  lemma SomeoneTakesOver(r: Relay, here: set<ClientId>, players: set<ClientId>)
    requires SlotsOk(r) && !AllSeatsDead(r.slots, r.alive) && players <= here
    requires forall id :: Alive(r.alive, id) ==> id in players
    ensures SeatsOk(r, players)
    ensures NextInitializer(r, here).Some?
  {
    var id :| id in r.slots && !(id in r.alive && !r.alive[id]);
    assert Alive(r.alive, id) && id in here;
    var k :| 0 <= k < |r.slots| && r.slots[k] == id;
  }

  lemma FallKeeps(r: Relay, here: set<ClientId>, players: set<ClientId>, c: ClientId, reason: Reason, remains: Remains)
    requires RelayOk(r, players) && players <= here
    ensures var o := MarkDead(r, here, c, reason, remains);
            && (o.over <==> AllSeatsDead(o.relay.slots, o.relay.alive))
            && (!o.over ==> RelayOk(o.relay, players) && !(c in r.slots && Alive(o.relay.alive, c)))
  {
    hide T.JournalOk, FiguresOk, JournalsOk, NextInitializer;
    if c in r.slots && Alive(r.alive, c) {
      var fallen := Fall(r, c, reason, remains);
      FallenOk(r, players, c, reason, remains);
      var next := if NeedsHandoff(fallen, c) then HandOff(fallen, here) else fallen;
      HandOffKeepsRest(fallen, here);
      if !AllSeatsDead(next.slots, next.alive) {
        SomeoneTakesOver(fallen, here, players);
        assert SeatsOk(next, players);
        assert BoardOk(next) by { TakerIsAlive(fallen, here); }
      }
    } else {
      SomeoneLives(r, players);
    }
  }

  lemma HandOffKeepsRest(r: Relay, here: set<ClientId>)
    ensures var next := HandOff(r, here);
            && next.slots == r.slots && next.alive == r.alive
            && (SlotsOk(r) ==> SlotsOk(next)) && (FiguresOk(r) ==> FiguresOk(next))
            && (JournalsOk(r.native) ==> JournalsOk(next.native))
  {
    hide T.JournalOk, NextInitializer;
  }

  lemma TakerIsAlive(r: Relay, here: set<ClientId>)
    ensures NextInitializer(r, here).Some? ==> Alive(r.alive, NextInitializer(r, here).value)
  {
  }

  lemma SeatingKeeps(r: Relay, players: set<ClientId>, from: ClientId)
    requires RelayOk(r, players)
    ensures RelayOk(r.(seated := r.seated + {from}), players)
  {
    hide T.JournalOk;
  }

  lemma DeathKeeps(r: Relay, here: set<ClientId>, players: set<ClientId>, from: ClientId, d: DeathIn)
    requires RelayOk(r, players) && players <= here
    ensures var o := PublishDeath(r, here, from, d);
            && (o.over <==> AllSeatsDead(o.relay.slots, o.relay.alive))
            && (!o.over ==> RelayOk(o.relay, players))
  {
    var seated := r.(seated := r.seated + {from});
    SeatingKeeps(r, players, from);
    hide RelayOk, CheckDeath, CheckSender;
    if d.eventSeq.Some? {
      FallKeeps(seated, here, players, from, if d.reason.Some? then Custom(d.reason.value) else OwnReport,
                Report(d.eventSeq.value, d.body, d.body2, d.look));
    }
    SomeoneLives(r, players);
    SomeoneLives(seated, players);
  }

  lemma SomeoneLives(r: Relay, players: set<ClientId>)
    requires RelayOk(r, players)
    ensures !AllSeatsDead(r.slots, r.alive)
  {
  }

  /** Every handler keeps the generation sound, and the session is over exactly when the last
      frozen seat has died. */
  lemma PerformKeeps(r: Relay, here: set<ClientId>, players: set<ClientId>, op: Op)
    requires RelayOk(r, players) && players <= here
    ensures var o := Perform(r, here, op);
            && (o.over <==> AllSeatsDead(o.relay.slots, o.relay.alive))
            && (!o.over ==> RelayOk(o.relay, players))
            && (!o.over && op.GoneOp? ==> RelayOk(o.relay, players - {op.client}))
  {
    match op
    case PoseOp(from, pose, now) =>
      PoseKeeps(r, here, players, from, pose, now);
      SomeoneLives(PublishPose(r, here, from, pose, now).relay, players);
    case BoardOp(from, board) =>
      BoardKeeps(r, here, players, from, board);
      SomeoneLives(PublishBoard(r, here, from, board).relay, players);
    case DeathOp(from, death) => DeathKeeps(r, here, players, from, death);
    case SpeedOp(from, speed) =>
      SpeedKeeps(r, here, players, from, speed);
      SomeoneLives(PublishSpeed(r, here, from, speed).relay, players);
    case GoneOp(c, reason) =>
      FallKeeps(r, here, players, c, reason, RemainsOf(r, c));
      hide MarkDead, T.JournalOk;
  }

  lemma NewRelayOk(generation: nat, slots: seq<ClientId>, settings: Settings, owner: Option<ClientId>, players: set<ClientId>)
    requires NoDup(slots) && 1 <= |slots| <= MAX_SEATS && owner.Some? && owner.value in slots
    requires forall id :: id in slots ==> id in players
    ensures RelayOk(NewRelay(generation, slots, settings, owner), players)
  {
    var r := NewRelay(generation, slots, settings, owner);
    assert Alive(r.alive, owner.value);
  }

  // ---------------------------------------------------------------- refusals

  /** A refused pose, board or speed event leaves the relay state unchanged and is told to nobody. */
  lemma RefusedIsNoOp(r: Relay, here: set<ClientId>, op: Op)
    requires op.PoseOp? || op.BoardOp? || op.SpeedOp?
    requires Perform(r, here, op).err.Some?
    ensures Perform(r, here, op).relay == r && Perform(r, here, op).out == []
  {
    hide CheckPose, CheckSender, CheckTurns, CheckPoseOrder, CheckFirstBoard, CheckNextBoard, NextSpeed;
  }

  /** A refused death can change one thing, the sender's seated mark, and does so exactly when
      the report came from a living seat in due order but without acceptable bodies. */
  lemma RefusedDeathSeats(r: Relay, here: set<ClientId>, from: ClientId, d: DeathIn)
    requires SlotsOk(r) && PublishDeath(r, here, from, d).err.Some?
    ensures var o := PublishDeath(r, here, from, d);
            && o.out == []
            && o.relay == (if CheckSender(r, here, from, d.generation, d.eventSeq).None?
                           then r.(seated := r.seated + {from}) else r)
            && (o.relay != r <==> CheckSender(r, here, from, d.generation, d.eventSeq).None? && from !in r.seated)
  {
    hide CheckSender, CheckDeath;
    assert r.(seated := r.seated + {from}) == r ==> from in r.seated;
  }

  /** The smallest case: one living seat, never seated, reports a death with a malformed body. */
  lemma RefusedDeathIsNotANoOp()
    ensures var r := NewRelay(1, [7], Settings(0, 0, NoSpeed, 0), Some(7));
            var d := DeathIn(Some(1), Some(1), NotCells, NoBody, None, 0);
            var o := PublishDeath(r, {7}, 7, d);
            o.err == Some(BadBody) && o.relay != r
  {
    var r := NewRelay(1, [7], Settings(0, 0, NoSpeed, 0), Some(7));
    assert 7 in r.slots;
    assert 7 in (r.seated + {7});
  }

  // ---------------------------------------------------------------- frozen seats

  /** The part of a generation that no publication but the named one can touch. */
  predicate SameSeats(a: Relay, b: Relay) {
    a.slots == b.slots && a.settings == b.settings && a.generation == b.generation
  }

  predicate SameSpeed(a: Native, b: Native) {
    a.sources == b.sources && a.epoch == b.epoch && a.speed == b.speed
  }

  lemma PoseFrame(r: Relay, here: set<ClientId>, from: ClientId, p: PoseIn, now: nat)
    ensures var next := PublishPose(r, here, from, p, now).relay;
            SameSeats(next, r) && SameSpeed(next.native, r.native) && next.alive == r.alive
  {
    hide CheckPose, CheckSender, CheckTurns, CheckPoseOrder;
  }

  lemma BoardFrame(r: Relay, here: set<ClientId>, from: ClientId, b: BoardIn)
    ensures var next := PublishBoard(r, here, from, b).relay;
            SameSeats(next, r) && SameSpeed(next.native, r.native) && next.alive == r.alive
  {
    hide CheckFirstBoard, CheckNextBoard;
  }

  lemma FallFrame(r: Relay, here: set<ClientId>, c: ClientId, reason: Reason, remains: Remains)
    ensures var next := MarkDead(r, here, c, reason, remains).relay;
            SameSeats(next, r) && SameSpeed(next.native, r.native)
            && (next.alive == r.alive || next.alive == r.alive[c := false])
  {
    hide NextInitializer;
  }

  lemma DeathFrame(r: Relay, here: set<ClientId>, from: ClientId, d: DeathIn)
    ensures var next := PublishDeath(r, here, from, d).relay;
            SameSeats(next, r) && SameSpeed(next.native, r.native)
            && (next.alive == r.alive || next.alive == r.alive[from := false])
  {
    hide MarkDead, CheckDeath;
    if d.eventSeq.Some? {
      FallFrame(r.(seated := r.seated + {from}), here, from, if d.reason.Some? then Custom(d.reason.value) else OwnReport,
                Report(d.eventSeq.value, d.body, d.body2, d.look));
    }
  }

  /** Nothing a seated player does, and no seat taken away, changes who is seated, the settings
      of the run or its generation; nobody comes back to life. */
  lemma SeatsAreFrozen(r: Relay, here: set<ClientId>, op: Op)
    ensures var next := Perform(r, here, op).relay;
            && SameSeats(next, r)
            && forall id :: Alive(next.alive, id) ==> Alive(r.alive, id)
  {
    hide PublishPose, PublishBoard, PublishDeath, MarkDead;
    match op
    case PoseOp(from, pose, now) => PoseFrame(r, here, from, pose, now);
    case BoardOp(from, board) => BoardFrame(r, here, from, board);
    case DeathOp(from, death) => DeathFrame(r, here, from, death);
    case SpeedOp(from, speed) =>
    case GoneOp(c, reason) => FallFrame(r, here, c, reason, RemainsOf(r, c));
  }

  // ---------------------------------------------------------------- speed

  /** Does the handler count this speed event? */
  predicate Counted(r: Relay, here: set<ClientId>, op: Op) {
    op.SpeedOp? && Perform(r, here, op).out != []
  }

  /** A speed event is counted only when its source is new to the generation; it then counts
      once, and only then does the speed change. */
  lemma SpeedCountsOnce(r: Relay, here: set<ClientId>, op: Op)
    ensures var next := Perform(r, here, op).relay.native;
            if Counted(r, here, op) then
              && op.speed.source.Some? && op.speed.source.value !in r.native.sources
              && next.sources == r.native.sources + {op.speed.source.value}
              && next.epoch == r.native.epoch + 1
              && Ok(next.speed) == NextSpeed(r.native.speed, op.speed)
            else SameSpeed(next, r.native)
  {
    hide PublishPose, PublishBoard, PublishDeath, MarkDead;
    match op
    case PoseOp(from, pose, now) => PoseFrame(r, here, from, pose, now);
    case BoardOp(from, board) => BoardFrame(r, here, from, board);
    case DeathOp(from, death) => DeathFrame(r, here, from, death);
    case SpeedOp(from, speed) =>
      hide CheckSender;
    case GoneOp(c, reason) => FallFrame(r, here, c, reason, RemainsOf(r, c));
  }

  // ---------------------------------------------------------------- runs of one generation

  /** One handler call, with the clients connected at that moment. */
  datatype Step = Step(here: set<ClientId>, op: Op)

  function RunOps(r: Relay, steps: seq<Step>): Relay
    decreases |steps|
  {
    if steps == [] then r
    else Perform(RunOps(r, steps[..|steps| - 1]), Last(steps).here, Last(steps).op).relay
  }

  /** The speed events counted along a run, in order. */
  function CountedIn(r: Relay, steps: seq<Step>): seq<SpeedIn>
    decreases |steps|
  {
    if steps == [] then []
    else
      var front := steps[..|steps| - 1];
      CountedIn(r, front)
      + (if Counted(RunOps(r, front), Last(steps).here, Last(steps).op) then [Last(steps).op.speed] else [])
  }

  /** The speed after a list of events, each either setting or flipping it. */
  function SpeedFold(start: Speed, events: seq<SpeedIn>): Speed
    decreases |events|
  {
    if events == [] then start
    else
      var before := SpeedFold(start, events[..|events| - 1]);
      match NextSpeed(before, Last(events))
      case Ok(speed) => speed
      case Err(_) => before
  }

  /** Every event sets or flips the speed it meets. */
  predicate Effective(start: Speed, events: seq<SpeedIn>) {
    forall k :: 0 <= k < |events| ==> NextSpeed(SpeedFold(start, events[..k]), events[k]).Ok?
  }

  lemma OneMoreEffective(start: Speed, events: seq<SpeedIn>, e: SpeedIn)
    requires Effective(start, events) && NextSpeed(SpeedFold(start, events), e).Ok?
    ensures Effective(start, events + [e])
  {
    var more := events + [e];
    hide NextSpeed, SpeedFold;
    forall k | 0 <= k < |more|
      ensures NextSpeed(SpeedFold(start, more[..k]), more[k]).Ok?
    {
      assert more[..k] == events[..k];
      if k == |events| {
        assert events[..k] == events;
      } else {
        assert more[k] == events[k];
      }
    }
  }

  /** The state `n` counts exactly `events` on top of `start`, each source once. */
  ghost predicate Counts(start: Native, events: seq<SpeedIn>, n: Native) {
    && n.epoch == start.epoch + |events|
    && n.speed == SpeedFold(start.speed, events)
    && (forall e :: e in events ==> e.source.Some? && e.source.value in n.sources && e.source.value !in start.sources)
    && (forall s :: s in n.sources && s !in start.sources ==> exists e :: e in events && e.source == Some(s))
    && (forall s :: s in start.sources ==> s in n.sources)
    && (forall i, j :: 0 <= i < j < |events| ==> events[i].source != events[j].source)
  }

  lemma CountsOneMore(start: Native, events: seq<SpeedIn>, n: Native, e: SpeedIn, next: Native)
    requires Counts(start, events, n)
    requires e.source.Some? && e.source.value !in n.sources
    requires next.sources == n.sources + {e.source.value} && next.epoch == n.epoch + 1
    requires Ok(next.speed) == NextSpeed(n.speed, e)
    ensures Counts(start, events + [e], next)
  {
    var more := events + [e];
    assert more[..|events|] == events;
    hide NextSpeed;
    forall s | s in next.sources && s !in start.sources
      ensures exists x :: x in more && x.source == Some(s)
    {
      if s == e.source.value {
        assert e in more;
      } else {
        var x :| x in events && x.source == Some(s);
        assert x in more;
      }
    }
  }

  /** Over any run of a generation, under any resending: each source counts at most once, the
      epoch is the number of sources counted, and the speed is the fold of the counted events. */
  lemma {:induction false} SpeedOverRun(r: Relay, steps: seq<Step>)
    ensures Counts(r.native, CountedIn(r, steps), RunOps(r, steps).native)
    ensures Effective(r.native.speed, CountedIn(r, steps))
    decreases |steps|
  {
    if steps != [] {
      var front := steps[..|steps| - 1];
      SpeedOverRun(r, front);
      var before := RunOps(r, front);
      SpeedCountsOnce(before, Last(steps).here, Last(steps).op);
      SpeedSoFar(r.native, CountedIn(r, front), before.native);
      hide Perform, NextSpeed, Counts, Counted, Effective;
      if Counted(before, Last(steps).here, Last(steps).op) {
        OneMoreEffective(r.native.speed, CountedIn(r, front), Last(steps).op.speed);
        CountsOneMore(r.native, CountedIn(r, front), before.native, Last(steps).op.speed, RunOps(r, steps).native);
      } else {
        CountsSame(r.native, CountedIn(r, front), before.native, RunOps(r, steps).native);
        assert CountedIn(r, steps) == CountedIn(r, front);
      }
    }
  }

  lemma SpeedSoFar(start: Native, events: seq<SpeedIn>, n: Native)
    requires Counts(start, events, n)
    ensures n.speed == SpeedFold(start.speed, events)
  {
  }

  lemma CountsSame(start: Native, events: seq<SpeedIn>, n: Native, next: Native)
    requires Counts(start, events, n) && SameSpeed(next, n)
    ensures Counts(start, events, next)
  {
  }

  /** The value an event brings along. */
  function Brought(e: SpeedIn): Option<Speed> {
    if e.kind == Set && e.value.Some? then e.value else e.effective
  }

  /** Does event `i` replace the speed by the value it brings? A toggle of a flag does not. */
  predicate Replaces(start: Speed, events: seq<SpeedIn>, i: nat)
    requires i < |events|
  {
    events[i].kind == Set || (events[i].kind == Toggle && !SpeedFold(start, events[..i]).Flag?)
  }

  /** The first `i` events leave `v`, the value brought by the last of them or that of the start,
      and only toggles of a flag follow. */
  predicate FixedAt(start: Speed, events: seq<SpeedIn>, i: nat, v: Speed) {
    && i <= |events|
    && (if i == 0 then v == start else Replaces(start, events, i - 1) && Brought(events[i - 1]) == Some(v))
    && (v.Flag? || i == |events|)
    && (forall k :: i <= k < |events| ==> events[k].kind == Toggle)
  }

  function Flipped(v: Speed, times: nat): Speed {
    if v.Flag? && times % 2 == 1 then Flag(!v.on) else v
  }

  /** The speed is the value last brought (or that of the start), flipped once for each later toggle. */
  lemma {:induction false} SpeedIsParity(start: Speed, events: seq<SpeedIn>, i: nat, v: Speed)
    requires FixedAt(start, events, i, v)
    ensures SpeedFold(start, events) == Flipped(v, |events| - i)
    decreases |events| - i
  {
    if |events| > i {
      var front := events[..|events| - 1];
      assert i > 0 ==> front[..i - 1] == events[..i - 1];
      SpeedIsParity(start, front, i, v);
    }
  }

  /** The speed is that of some such moment, flipped once for each later toggle. */
  ghost predicate Settled(start: Speed, events: seq<SpeedIn>) {
    exists i: nat, v: Speed :: FixedAt(start, events, i, v) && SpeedFold(start, events) == Flipped(v, |events| - i)
  }

  /** Events that all take effect leave such a moment. */
  lemma {:induction false} SpeedIsSettled(start: Speed, events: seq<SpeedIn>)
    requires Effective(start, events)
    ensures Settled(start, events)
    decreases |events|
  {
    if events == [] {
      assert FixedAt(start, events, 0, start) && SpeedFold(start, events) == Flipped(start, |events| - 0);
    } else {
      FrontEffective(start, events);
      hide *;
      SpeedIsSettled(start, events[..|events| - 1]);
      OneMoreSettled(start, events);
    }
  }

  lemma FrontEffective(start: Speed, events: seq<SpeedIn>)
    requires Effective(start, events) && events != []
    ensures Effective(start, events[..|events| - 1])
    ensures NextSpeed(SpeedFold(start, events[..|events| - 1]), Last(events)).Ok?
  {
    var front := events[..|events| - 1];
    hide NextSpeed, SpeedFold;
    forall k | 0 <= k < |front|
      ensures NextSpeed(SpeedFold(start, front[..k]), front[k]).Ok?
    {
      assert front[..k] == events[..k] && front[k] == events[k];
    }
  }

  lemma OneMoreSettled(start: Speed, events: seq<SpeedIn>)
    requires events != [] && Settled(start, events[..|events| - 1])
    requires NextSpeed(SpeedFold(start, events[..|events| - 1]), Last(events)).Ok?
    ensures Settled(start, events)
  {
    var n := |events| - 1;
    var front := events[..n];
    var i: nat, v :| FixedAt(start, front, i, v) && SpeedFold(start, front) == Flipped(v, n - i);
    if Replaces(start, events, n) {
      var u := Brought(events[n]).value;
      assert FixedAt(start, events, n + 1, u);
      SpeedIsParity(start, events, n + 1, u);
    } else {
      assert i > 0 ==> front[..i - 1] == events[..i - 1];
      assert FixedAt(start, events, i, v);
      SpeedIsParity(start, events, i, v);
    }
  }
}
