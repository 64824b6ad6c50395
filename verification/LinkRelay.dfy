/** The link of `TurnProtocol` and the room's relay are one server: what the link says of a pose
    is what the relay does with it once every check that has nothing to do with its order passes. */
module LinkRelay {
  import opened Prelude
  import opened Grid
  import opened RoomTypes
  import opened Relay
  import T = Turns
  import L = TurnProtocol

  /** The relay's figures for a client are the server half of the link. */
  predicate Mirrors(n: Native, c: ClientId, l: L.Link) {
    LastOf(n.lastPose, c) == l.lastPose && LastOf(n.lastMove, c) == l.lastMove && JournalOf(n, c) == l.journal
  }

  /** The pose message that carries flight `k`. */
  predicate Carries(p: PoseIn, l: L.Link, k: nat)
    requires k < |l.sent|
  {
    && p.poseSeq == Some(k + 1) && p.moveSeq == Some(l.sent[k].moveSeq)
    && p.turns == TurnList(T.RawAll(l.sent[k].turns))
  }

  /** Everything the relay checks of a pose apart from its place in the order of poses, moves and turns. */
  predicate PassesTheRest(r: Relay, here: set<ClientId>, from: ClientId, p: PoseIn) {
    && CheckSender(r, here, from, p.generation, p.eventSeq).None?
    && !p.tooLarge && (p.moved ==> p.seated && r.native.ready)
    && Alive(r.alive, from)
    && CheckPoseContent(r, p).None? && CheckPoseMode(r.native, p).None?
    && CheckHead(p.fromHead, r.native.ready, RelayDims(r.settings)).None?
    && CheckHead(p.toHead, r.native.ready, RelayDims(r.settings)).None?
    && p.headings.None? && (r.native.ready ==> p.movingHeadings.None?)
  }

  function ErrOf(e: L.Refusal): Err {
    match e
    case StalePose => StalePoseSeq
    case MoveRegression => MoveSeqRegression
    case Turns(error) => TurnRefused(error)
  }

  lemma StoredMirrors(r: Relay, pose: Pose, journal: T.Journal, now: nat, l: L.Link)
    requires l.lastPose == pose.poseSeq && pose.moveSeq == Some(l.lastMove) && l.journal == journal
    ensures var o := ArmTimer(StorePose(r, pose, journal), pose, now);
            o.err.None? && Mirrors(o.relay.native, pose.client, l)
  {
  }

  lemma SenderNumbers(r: Relay, here: set<ClientId>, from: ClientId, p: PoseIn)
    requires CheckSender(r, here, from, p.generation, p.eventSeq).None?
    ensures p.eventSeq.Some?
  {
  }

  /** The relay refuses a pose with the link's error, and otherwise stores the link's journal: the
      two stay mirrors of each other. */
  lemma RelayIsTheLinksServer(r: Relay, here: set<ClientId>, from: ClientId, p: PoseIn, now: nat, l: L.Link, k: nat)
    requires k < |l.sent| && k !in l.lost && Carries(p, l, k)
    requires Mirrors(r.native, from, l) && PassesTheRest(r, here, from, p)
    ensures var (w, h) := RelayDims(r.settings);
            var o := PublishPose(r, here, from, p, now);
            var v := L.Verdict(l, k, w, h);
            && Mirrors(o.relay.native, from, L.Act(l, L.Deliver(k), w, h))
            && o.err == (if v.Ok? then None else Some(ErrOf(v.error)))
            && (v.Err? ==> o.relay == r)
            && (forall j :: v == Ok(j) <==> o.err.None? && JournalOf(o.relay.native, from) == j)
  {
    hide CheckSender, CheckPoseContent, CheckPoseMode, CheckHead, ArmTimer, StorePose, T.Validate;
    var (w, h) := RelayDims(r.settings);
    if k + 1 > l.lastPose && l.sent[k].moveSeq >= l.lastMove && CheckTurns(r, from, p).Ok? {
      var journal := CheckTurns(r, from, p).value;
      SenderNumbers(r, here, from, p);
      StoredMirrors(r, CleanPose(r, from, p, journal.turns), journal, now, L.Act(l, L.Deliver(k), w, h));
    }
  }
}
