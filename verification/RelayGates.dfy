/** What it takes to be heard: for every kind of publication the exact condition on the message and
    the state under which the server accepts it, and what acceptance leaves. */
module RelayGates {
  import opened Prelude
  import opened Grid
  import opened RoomTypes
  import opened Relay
  import opened RelayTrace
  import RI = RelayInv
  import T = Turns

  /** The sender sits in the session, is connected, and numbers the event above its last. */
  predicate MaySpeak(r: Relay, here: set<ClientId>, from: ClientId, generation: Option<nat>, eventSeq: Option<nat>) {
    && from in r.slots && from in here
    && generation == Some(r.generation)
    && eventSeq.Some? && eventSeq.value > 0
    && (from in r.native.lastEvent ==> r.native.lastEvent[from] < eventSeq.value)
  }

  lemma SenderIsChecked(r: Relay, here: set<ClientId>, from: ClientId, generation: Option<nat>, eventSeq: Option<nat>)
    ensures CheckSender(r, here, from, generation, eventSeq).None? <==> MaySpeak(r, here, from, generation, eventSeq)
  {
  }

  // ---------------------------------------------------------------- poses

  predicate InSequence(r: Relay, from: ClientId, p: PoseIn) {
    && p.poseSeq.Some? && p.poseSeq.value > 0
    && (from in r.native.lastPose ==> r.native.lastPose[from] < p.poseSeq.value)
    && (p.moveSeq.Some? && from in r.native.lastMove ==> r.native.lastMove[from] <= p.moveSeq.value)
  }

  predicate HeadOnBoard(c: CellField, dims: (nat, nat)) {
    c.NoCell? || (c.at.Some? && 0 <= c.at.value.x < dims.0 && 0 <= c.at.value.y < dims.1)
  }

  /** The bodies, heads and headings of the pose are in order. */
  predicate Drawable(r: Relay, p: PoseIn) {
    && p.visual.None? && p.render.None? && p.headings.None? && !p.tooLarge && !p.modeKey.BadKey?
    && OnBoard(p.body, RelayDims(r.settings))
    && (Present(p.body2) ==> OnBoard(p.body2, RelayDims(r.settings)))
    && HeadOnBoard(p.fromHead, RelayDims(r.settings)) && HeadOnBoard(p.toHead, RelayDims(r.settings))
  }

  /** Once the board is ready a pose must say all of its mode, moves, heads and headings. */
  predicate Complete(n: Native, p: PoseIn) {
    n.ready ==>
      && n.modeKey.Some? && p.modeKey == Key(n.modeKey.value) && (YinYang(n.modeKey.value) <==> Present(p.body2))
      && p.moveSeq.Some? && p.fromHead.Cell? && p.toHead.Cell? && p.movingHeadings.None?
  }

  function ListOf(p: PoseIn): seq<T.RawTurn> {
    if p.turns.TurnList? then p.turns.list else []
  }

  predicate TurnsContinue(r: Relay, from: ClientId, p: PoseIn) {
    !p.turns.NotTurns? && ListContinues(JournalOf(r.native, from), ListOf(p), RelayDims(r.settings).0, RelayDims(r.settings).1)
  }

  /** At most eight turns, each the next or a repetition, not short of the last one stored. */
  predicate ListContinues(j: T.Journal, list: seq<T.RawTurn>, w: nat, h: nat) {
    && |list| <= 8
    && (forall k :: 0 <= k < |list| ==> T.Continues(j, list, k, w, h))
    && (list != [] ==> T.NumberOf(Last(list)) >= j.highest)
  }

  predicate Publishable(r: Relay, here: set<ClientId>, from: ClientId, p: PoseIn) {
    && MaySpeak(r, here, from, p.generation, p.eventSeq) && Alive(r.alive, from)
    && InSequence(r, from, p) && (p.moved ==> p.seated && r.native.ready)
    && Drawable(r, p) && Complete(r.native, p) && TurnsContinue(r, from, p)
  }

  lemma OrderIsChecked(r: Relay, from: ClientId, p: PoseIn)
    ensures CheckPoseOrder(r, from, p).None? <==>
              && p.poseSeq.Some? && p.poseSeq.value > 0
              && (from in r.native.lastPose ==> r.native.lastPose[from] < p.poseSeq.value)
              && !p.tooLarge && (p.moved ==> p.seated && r.native.ready)
  {
  }

  lemma ContentIsChecked(r: Relay, from: ClientId, p: PoseIn)
    requires CheckPoseOrder(r, from, p).None?
    ensures CheckPose(r, from, p).None? <==> Drawable(r, p) && Complete(r.native, p) && InSequence(r, from, p)
  {
    OrderIsChecked(r, from, p);
    BodyIsChecked(p.body, RelayDims(r.settings));
    BodyIsChecked(p.body2, RelayDims(r.settings));
    HeadIsChecked(p.fromHead, r.native.ready, RelayDims(r.settings));
    HeadIsChecked(p.toHead, r.native.ready, RelayDims(r.settings));
    assert p.body.NoBody? ==> !OnBoard(p.body, RelayDims(r.settings));
    hide CheckBody, OnBoard, CheckHead, HeadOnBoard, RelayDims, YinYang, CheckPoseOrder;
  }

  lemma HeadIsChecked(c: CellField, ready: bool, dims: (nat, nat))
    ensures CheckHead(c, ready, dims).None? <==> HeadOnBoard(c, dims) && (ready ==> c.Cell?)
  {
  }

  lemma TurnsAreChecked(r: Relay, from: ClientId, p: PoseIn)
    requires RI.JournalsOk(r.native)
    ensures CheckTurns(r, from, p).Ok? <==> TurnsContinue(r, from, p)
  {
    var (w, h) := RelayDims(r.settings);
    var j, list := JournalOf(r.native, from), ListOf(p);
    assert T.JournalOk(j) by { RI.FreshJournal(); hide T.JournalOk; }
    hide T.JournalOk, JournalOf, T.Continues;
    T.AcceptedExactly(j, list, w, h);
    assert T.Validate(j, list, w, h).Ok? <==> ListContinues(j, list, w, h);
    hide T.Validate, ListContinues, RelayDims;
    assert !p.turns.NotTurns? ==> list == if p.turns.NoTurns? then [] else p.turns.list;
  }

  /** A pose is published exactly when all of this holds of it. A refusal names an error, except that a
      dead seat is ignored once its pose is in order; the pose published is the one sent, with the
      server's journal, and it seats its sender if it says so. */
  lemma PosesAreHeardExactly(r: Relay, here: set<ClientId>, from: ClientId, p: PoseIn, now: nat)
    requires RI.JournalsOk(r.native)
    ensures var o := PublishPose(r, here, from, p, now);
            && (o.out != [] <==> Publishable(r, here, from, p))
            && (o.out == [] ==> o.relay == r)
            && (o.out == [] && o.err.None? ==> !Alive(r.alive, from))
            && (o.out != [] ==>
                  && o.err.None? && o.out[0].SnakeDelta? && o.out[0].figure.Live?
                  && var q := o.out[0].figure.pose;
                     && q.client == from && q.eventSeq == p.eventSeq.value && q.poseSeq == p.poseSeq.value
                     && q.seated == p.seated && q.moved == p.moved && q.body == p.body && q.body2 == p.body2
                     && q.moveSeq == p.moveSeq && q.look == p.look && q.turns == JournalOf(o.relay.native, from).turns
                     && o.relay.native.poses == r.native.poses[from := Live(q)]
                     && o.relay.seated == (if p.seated then r.seated + {from} else r.seated))
  {
    SenderIsChecked(r, here, from, p.generation, p.eventSeq);
    OrderIsChecked(r, from, p);
    TurnsAreChecked(r, from, p);
    if CheckPoseOrder(r, from, p).None? {
      ContentIsChecked(r, from, p);
    }
    hide CheckSender, CheckPoseOrder, CheckPose, CheckTurns, Drawable, Complete, TurnsContinue, RI.JournalsOk;
    assert Publishable(r, here, from, p) <==>
           && CheckSender(r, here, from, p.generation, p.eventSeq).None? && CheckPoseOrder(r, from, p).None?
           && Alive(r.alive, from) && CheckPose(r, from, p).None? && CheckTurns(r, from, p).Ok? by {
      if Publishable(r, here, from, p) {
        DrawableIsSmall(r, p);
      }
    }
    hide Publishable, MaySpeak, InSequence;
    PublishedPose(r, here, from, p, now);
  }

  lemma DrawableIsSmall(r: Relay, p: PoseIn)
    requires Drawable(r, p)
    ensures !p.tooLarge
  {
    hide OnBoard, HeadOnBoard, RelayDims;
  }

  lemma PublishedPose(r: Relay, here: set<ClientId>, from: ClientId, p: PoseIn, now: nat)
    ensures var o := PublishPose(r, here, from, p, now);
            if CheckSender(r, here, from, p.generation, p.eventSeq).None? && CheckPoseOrder(r, from, p).None?
               && Alive(r.alive, from) && CheckPose(r, from, p).None? && CheckTurns(r, from, p).Ok? then
              && p.eventSeq.Some? && p.poseSeq.Some?
              && var q := CleanPose(r, from, p, CheckTurns(r, from, p).value.turns);
                 && o.out != [] && o.err.None? && o.out[0] == SnakeDelta(Live(q))
                 && JournalOf(o.relay.native, from).turns == q.turns
                 && o.relay.native.poses == r.native.poses[from := Live(q)]
                 && o.relay.seated == (if p.seated then r.seated + {from} else r.seated)
            else o.out == [] && o.relay == r && (o.err.None? ==> !Alive(r.alive, from))
  {
    hide CheckPose, CheckTurns;
    if CheckSender(r, here, from, p.generation, p.eventSeq).None? && CheckPoseOrder(r, from, p).None? {
      assert p.eventSeq.Some? && p.poseSeq.Some?;
    }
    hide CheckSender, CheckPoseOrder;
  }

  // ---------------------------------------------------------------- boards

  /** The first board comes from its initialiser, seated, as an initial commit on nothing; every later
      one from a seated player, on the revision the room has reached. */
  predicate Committable(r: Relay, here: set<ClientId>, from: ClientId, b: BoardIn) {
    && MaySpeak(r, here, from, b.generation, b.eventSeq) && from in r.seated && b.problem.None?
    && if r.native.ready then
         !b.initial && b.baseRevision == Some(r.native.revision) && (b.modeKey.NoKey? || b.modeKey.Key?)
       else
         r.native.initializer == Some(from) && b.initial && b.baseRevision == Some(0) && b.modeKey.Key?
  }

  /** A board is committed exactly under these conditions. It raises the revision by one and becomes
      the room's board as sent; the first opens the room in its mode and forgets the poses before it. */
  lemma BoardsAreHeardExactly(r: Relay, here: set<ClientId>, from: ClientId, b: BoardIn)
    requires RI.BoardOk(r)
    ensures var o := PublishBoard(r, here, from, b);
            && (o.out != [] <==> Committable(r, here, from, b)) && (o.out != [] <==> o.err.None?)
            && (o.out == [] ==> o.relay == r)
            && (o.out != [] ==>
                  && o.out[0].CollectablesDelta? && o.relay.native.board == Some(o.out[0].board)
                  && var c := o.out[0].board;
                     && c.client == from && c.content == b.content && c.revision == r.native.revision + 1
                     && o.relay.native.revision == c.revision && o.relay.native.ready
                     && c.modeKey == (if b.modeKey.Key? then b.modeKey.key else r.native.modeKey.GetOr(CLASSIC))
                     && o.relay.native.modeKey == (if r.native.ready then r.native.modeKey else Some(c.modeKey))
                     && o.relay.native.poses == (if r.native.ready then r.native.poses else map[])
                     && (!r.native.ready ==> |o.out| == 2 && o.out[1] == BoardReady(r.generation, 1, Some(from), Some(c.modeKey))))
  {
    SenderIsChecked(r, here, from, b.generation, b.eventSeq);
    assert CheckSender(r, here, from, b.generation, b.eventSeq).None? ==> b.eventSeq.Some?;
    hide CheckSender, MaySpeak;
  }

  // ---------------------------------------------------------------- deaths, goals, speeds

  /** A death report kills its sender exactly when the seat lives, may speak, and brings acceptable
      remains; a report for a seat already dead is ignored. */
  lemma DeathsAreHeardExactly(r: Relay, here: set<ClientId>, from: ClientId, d: DeathIn)
    ensures var o := PublishDeath(r, here, from, d);
            var dims := RelayDims(r.settings);
            && (o.out != [] <==>
                  && MaySpeak(r, here, from, d.generation, d.eventSeq) && Alive(r.alive, from)
                  && OnBoardOrGone(d.body, dims) && (d.body2.NullBody? || OnBoardOrGone(d.body2, dims)))
            && (from in r.slots && !Alive(r.alive, from) ==> o == Ignore(r))
            && (o.out != [] ==> o.out[0] == PlayerDead(Corpse(from, r.generation, if d.reason.Some? then Custom(d.reason.value) else OwnReport,
                                                              Report(d.eventSeq.value, d.body, d.body2, d.look))))
  {
    SenderIsChecked(r, here, from, d.generation, d.eventSeq);
    RemainsAreChecked(d.body, RelayDims(r.settings));
    RemainsAreChecked(d.body2, RelayDims(r.settings));
    assert CheckSender(r, here, from, d.generation, d.eventSeq).None? ==> from in r.slots && d.eventSeq.Some?;
    hide CheckSender, MaySpeak, CheckRemains, OnBoardOrGone, RelayDims, NextInitializer, AllSeatsDead;
  }

  /** A speed event counts exactly when its source is new, its sender may speak, the board is ready
      and it says what to do; a source already counted is ignored, whoever sends it. */
  lemma SpeedsAreHeardExactly(r: Relay, here: set<ClientId>, from: ClientId, s: SpeedIn)
    ensures var o := PublishSpeed(r, here, from, s);
            && (o.out != [] <==>
                  && s.source.Some? && s.source.value !in r.native.sources
                  && MaySpeak(r, here, from, s.generation, s.eventSeq) && r.native.ready
                  && (s.kind == Set || s.kind == Toggle)
                  && (s.kind == Set && s.value.None? ==> s.effective.Some?)
                  && (s.kind == Toggle && !r.native.speed.Flag? ==> s.effective.Some?))
            && (s.source.Some? && s.source.value in r.native.sources && s.generation == Some(r.generation) ==> o == Ignore(r))
  {
    SenderIsChecked(r, here, from, s.generation, s.eventSeq);
    assert CheckSender(r, here, from, s.generation, s.eventSeq).None? ==> s.generation == Some(r.generation);
    hide CheckSender, MaySpeak;
  }

  /** A claim of all apples is granted exactly to a seated player, once the board is ready. */
  lemma GoalsAreHeardExactly(r: Relay, from: ClientId, g: GoalIn)
    ensures CheckGoal(r, from, g).None? <==>
              from in r.seated && r.native.ready && g.allApples && (g.generation.Some? ==> g.generation.value == r.generation)
  {
  }
}
