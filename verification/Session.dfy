/** The client's session controller: phases of a co-op run, sequence counters, death
    authority and the journal of turns it repeats until they are acknowledged. */
module Session {
  import opened Prelude
  import opened Grid
  import opened Turns

  datatype Authority = ServerSim | NativeRelay

  datatype Phase = Lobby | Seating | Live | Ending

  datatype Session = Session(
    phase: Phase, gen: nat, authority: Option<Authority>, boardReady: bool,
    eventSeq: nat, poseSeq: nat, deadSent: bool, seated: bool, boardRev: nat,
    moveSeq: nat, turnSeq: nat, acked: nat, turns: seq<Turn>,
    lastHead: Option<Point>, lastHeadDir: Option<Dir>, lastMoveDir: Option<Dir>)

  const NewSession: Session :=
    Session(Lobby, 0, None, false, 0, 0, false, false, 0, 0, 0, 0, [], None, None, None)

  /** What a pose shows of the engine: the head cell and the heading field, when readable. */
  datatype Seen = Seen(head: Option<Point>, headDir: Option<Dir>)

  datatype Pose = Pose(
    moveSeq: nat, fromHead: Option<Point>, toHead: Option<Point>, transitionDir: Option<Dir>,
    movementDir: Option<Dir>, headDir: Option<Dir>, turns: seq<Turn>)

  // ---------------------------------------------------------------- poses and turns

  function TransitionDir(from: Option<Point>, to: Option<Point>): (d: Option<Dir>)
    ensures d.Some? ==> from.Some? && to == Some(Move(from.value, d.value))
    ensures d.None? && from.Some? && to.Some? ==> forall e :: to.value != Move(from.value, e)
  {
    if from.None? || to.None? then None
    else if to.value == Move(from.value, Right) then Some(Right)
    else if to.value == Move(from.value, Left) then Some(Left)
    else if to.value == Move(from.value, Down) then Some(Down)
    else if to.value == Move(from.value, Up) then Some(Up)
    else None
  }

  /** The heading believed: the engine's field, unless the observed path contradicts it. */
  function BelievedDir(s: Session, p: Seen): Option<Dir> {
    var moved := TransitionDir(s.lastHead, p.head);
    if moved.Some? && s.lastHeadDir.Some?
       && (p.headDir.None? || Opposite(s.lastHeadDir.value) == p.headDir.value || p.headDir != moved)
    then s.lastHeadDir
    else p.headDir
  }

  function MoveCount(s: Session, p: Seen): nat {
    if s.lastHead.Some? && p.head.Some? && s.lastHead != p.head then s.moveSeq + 1 else s.moveSeq
  }

  /** The turn this pose proves, if any. */
  function IssuedTurn(s: Session, p: Seen): Option<Turn> {
    var dir := BelievedDir(s, p);
    if s.lastHead.Some? && p.head.Some? && s.lastHeadDir.Some? && dir.Some?
       && dir != s.lastHeadDir && Opposite(s.lastHeadDir.value) != dir.value
       && TransitionDir(s.lastHead, p.head) == dir
    then Some(Turn(s.turnSeq + 1, s.lastHead.value, s.lastHeadDir.value, dir.value, MoveCount(s, p)))
    else None
  }

  function OrElse<T>(a: Option<T>, b: Option<T>): Option<T> {
    if a.Some? then a else b
  }

  function Observed(s: Session, p: Seen): Session {
    var issued := IssuedTurn(s, p);
    var dir := BelievedDir(s, p);
    s.(moveSeq := MoveCount(s, p),
    turnSeq := if issued.Some? then s.turnSeq + 1 else s.turnSeq,
    turns := if issued.Some? then Tail(s.turns + [issued.value], MAX_TURNS) else s.turns,
    lastMoveDir := OrElse(TransitionDir(s.lastHead, p.head), s.lastMoveDir),
    lastHeadDir := OrElse(dir, s.lastHeadDir),
    lastHead := OrElse(p.head, s.lastHead))
  }

  function Enriched(s: Session, p: Seen): Pose {
    var next := Observed(s, p);
    var moved := TransitionDir(s.lastHead, p.head);
    var dir := BelievedDir(s, p);
    var movement := OrElse(OrElse(moved, s.lastMoveDir), dir);
    Pose(next.moveSeq, OrElse(s.lastHead, p.head), p.head, moved, movement, OrElse(dir, movement),
         Tail(NewerThan(next.turns, s.acked), MAX_TURNS))
  }

  /** Acknowledgement by echo: forget the turns the server is known to hold. */
  function Acked(s: Session, n: int): Session {
    if n <= s.acked then s
    else
      var a := Min(n, s.turnSeq);
      if a < 0 then s else s.(acked := a, turns := NewerThan(s.turns, a))
  }

  // ---------------------------------------------------------------- phases

  predicate BindRefused(s: Session, gen: int, auth: Authority) {
    gen < 1 || gen > MAX_SAFE_INTEGER || (s.gen == gen && s.authority.Some? && s.authority != Some(auth))
  }

  function Bound(s: Session, gen: int, auth: Authority, ready: bool): Session {
    if BindRefused(s, gen, auth) then s
    else if s.gen == gen then s.(authority := Some(auth), boardReady := ready)
    else Session(Seating, gen, Some(auth), ready, 0, 0, false, false, 0, 0, 0, 0, [], None, None, None)
  }

  function Seat(s: Session): Session {
    if s.phase == Ending || s.phase == Lobby then s
    else s.(seated := true, phase := if s.authority == Some(NativeRelay) && !s.boardReady then Seating else Live)
  }

  function ReadyBoard(s: Session, rev: int): Session {
    if rev < 1 || rev > MAX_SAFE_INTEGER || rev < s.boardRev then s
    else s.(boardRev := rev, boardReady := true, phase := if s.seated then Live else s.phase)
  }

  predicate CanPublishDeath(s: Session) {
    (s.phase == Live || s.phase == Seating) && s.seated && !s.deadSent
  }

  function Died(s: Session): Session {
    if CanPublishDeath(s) then s.(deadSent := true) else s
  }

  function ToLobby(s: Session): Session {
    s.(phase := Lobby, deadSent := false, seated := false, boardRev := 0, boardReady := false)
  }

  class SessionController {
    var state: Phase
    var gen: nat
    var authority: Option<Authority>
    var boardReady: bool
    var eventSeq: nat
    var poseSeq: nat
    var deadSent: bool
    var seated: bool
    var boardRev: nat
    var moveSeq: nat
    var turnSeq: nat
    var ackedTurnSeq: nat
    var turns: seq<Turn>
    var lastPoseHead: Option<Point>
    var lastHeadDir: Option<Dir>
    var lastMovementDir: Option<Dir>

    function View(): Session
      reads this
    {
      Session(state, gen, authority, boardReady, eventSeq, poseSeq, deadSent, seated, boardRev,
              moveSeq, turnSeq, ackedTurnSeq, turns, lastPoseHead, lastHeadDir, lastMovementDir)
    }

    constructor ()
      ensures View() == NewSession
    {
      state, gen, authority, boardReady := Lobby, 0, None, false;
      eventSeq, poseSeq, deadSent, seated, boardRev := 0, 0, false, false, 0;
      moveSeq, turnSeq, ackedTurnSeq, turns := 0, 0, 0, [];
      lastPoseHead, lastHeadDir, lastMovementDir := None, None, None;
    }

    method BindGeneration(generation: int, auth: Authority, ready: bool) returns (bound: bool)
      modifies this
      ensures View() == Bound(old(View()), generation, auth, ready)
      ensures bound <==> !BindRefused(old(View()), generation, auth)
    {
      if generation < 1 || generation > MAX_SAFE_INTEGER {
        return false;
      }
      if gen == generation && authority.Some? && authority != Some(auth) {
        return false;
      }
      var isNew := gen != generation;
      gen := generation;
      authority := Some(auth);
      boardReady := ready;
      if isNew {
        ResetRun();
        ResetJournal();
      }
      return true;
    }

    method ResetRun()
      modifies this`eventSeq, this`poseSeq, this`deadSent, this`seated, this`boardRev, this`state
      ensures View() == old(View()).(eventSeq := 0, poseSeq := 0, deadSent := false, seated := false, boardRev := 0, phase := Seating)
    {
      eventSeq, poseSeq := 0, 0;
      deadSent, seated, boardRev := false, false, 0;
      state := Seating;
    }

    method ResetJournal()
      modifies this`moveSeq, this`turnSeq, this`ackedTurnSeq, this`turns
      modifies this`lastPoseHead, this`lastHeadDir, this`lastMovementDir
      ensures View() == old(View()).(moveSeq := 0, turnSeq := 0, acked := 0, turns := [],
                                     lastHead := None, lastHeadDir := None, lastMoveDir := None)
    {
      moveSeq, turnSeq, ackedTurnSeq, turns := 0, 0, 0, [];
      lastPoseHead, lastHeadDir, lastMovementDir := None, None, None;
    }

    method NextEventSeq() returns (n: nat)
      modifies this`eventSeq
      ensures View() == old(View()).(eventSeq := old(eventSeq) + 1) && n == eventSeq
    {
      eventSeq := eventSeq + 1;
      n := eventSeq;
    }

    method NextPoseSeq() returns (n: nat)
      modifies this`poseSeq
      ensures View() == old(View()).(poseSeq := old(poseSeq) + 1) && n == poseSeq
    {
      poseSeq := poseSeq + 1;
      n := poseSeq;
    }

    /** Enrich a pose after a native tick; journal a turn only when the head path proves it. */
    method ObserveNativePose(head: Option<Point>, dirField: Option<Dir>) returns (pose: Pose)
      modifies this`moveSeq, this`turnSeq, this`turns, this`lastPoseHead, this`lastHeadDir, this`lastMovementDir
      ensures View() == Observed(old(View()), Seen(head, dirField))
      ensures pose == Enriched(old(View()), Seen(head, dirField))
    {
      var headDir := Believe(head, dirField);
      var movedDir := TransitionDir(lastPoseHead, head);
      var turn := ProvedTurn(head, dirField, headDir);
      CountMove(head);
      PushTurn(turn);
      var movement := OrElse(OrElse(movedDir, lastMovementDir), headDir);
      pose := Pose(moveSeq, OrElse(lastPoseHead, head), head, movedDir, movement, OrElse(headDir, movement),
                   Tail(NewerThan(turns, ackedTurnSeq), MAX_TURNS));
      NoteHeading(movedDir, headDir, head);
    }

    /** The heading to advertise: never one that the observed head path contradicts. */
    method Believe(head: Option<Point>, dirField: Option<Dir>) returns (headDir: Option<Dir>)
      ensures headDir == BelievedDir(View(), Seen(head, dirField))
    {
      headDir := dirField;
      var movedDir := TransitionDir(lastPoseHead, head);
      if movedDir.Some? && lastHeadDir.Some? {
        if headDir.None? || Opposite(lastHeadDir.value) == headDir.value || headDir != movedDir {
          headDir := lastHeadDir;
        }
      }
    }

    method ProvedTurn(head: Option<Point>, dirField: Option<Dir>, headDir: Option<Dir>) returns (turn: Option<Turn>)
      requires headDir == BelievedDir(View(), Seen(head, dirField))
      ensures turn == IssuedTurn(View(), Seen(head, dirField))
    {
      turn := None;
      if lastPoseHead.Some? && head.Some? && lastHeadDir.Some? && headDir.Some? {
        if headDir != lastHeadDir && Opposite(lastHeadDir.value) != headDir.value
           && TransitionDir(lastPoseHead, head) == headDir
        {
          var moves := if lastPoseHead != head then moveSeq + 1 else moveSeq;
          turn := Some(Turn(turnSeq + 1, lastPoseHead.value, lastHeadDir.value, headDir.value, moves));
        }
      }
    }

    method CountMove(head: Option<Point>)
      modifies this`moveSeq
      ensures moveSeq == MoveCount(old(View()), Seen(head, None))
    {
      if lastPoseHead.Some? && head.Some? && lastPoseHead != head {
        moveSeq := moveSeq + 1;
      }
    }

    method PushTurn(turn: Option<Turn>)
      modifies this`turnSeq, this`turns
      ensures turnSeq == if turn.Some? then old(turnSeq) + 1 else old(turnSeq)
      ensures turns == if turn.Some? then Tail(old(turns) + [turn.value], MAX_TURNS) else old(turns)
    {
      if turn.Some? {
        turnSeq := turnSeq + 1;
        turns := turns + [turn.value];
        if |turns| > MAX_TURNS {
          turns := turns[|turns| - MAX_TURNS..];
        }
      }
    }

    method NoteHeading(movedDir: Option<Dir>, headDir: Option<Dir>, head: Option<Point>)
      modifies this`lastPoseHead, this`lastHeadDir, this`lastMovementDir
      ensures lastMovementDir == OrElse(movedDir, old(lastMovementDir))
      ensures lastHeadDir == OrElse(headDir, old(lastHeadDir))
      ensures lastPoseHead == OrElse(head, old(lastPoseHead))
    {
      if movedDir.Some? {
        lastMovementDir := movedDir;
      }
      if headDir.Some? {
        lastHeadDir := headDir;
      }
      if head.Some? {
        lastPoseHead := head;
      }
    }

    method AckTurns(n: int) returns (advanced: bool)
      modifies this`ackedTurnSeq, this`turns
      ensures View() == Acked(old(View()), n)
      ensures advanced <==> n > old(ackedTurnSeq)
    {
      if n <= ackedTurnSeq {
        return false;
      }
      ackedTurnSeq := Min(n, turnSeq);
      turns := NewerThan(turns, ackedTurnSeq);
      return true;
    }

    method MarkBoardReady(revision: int) returns (ok: bool)
      modifies this`boardRev, this`boardReady, this`state
      ensures View() == ReadyBoard(old(View()), revision)
      ensures ok <==> 1 <= revision <= MAX_SAFE_INTEGER && revision >= old(boardRev)
    {
      if revision < 1 || revision > MAX_SAFE_INTEGER || revision < boardRev {
        return false;
      }
      boardRev := revision;
      boardReady := true;
      if seated {
        state := Live;
      }
      return true;
    }

    method MarkSeated() returns (ok: bool)
      modifies this`seated, this`state
      ensures View() == Seat(old(View()))
      ensures ok <==> old(state) != Ending && old(state) != Lobby
    {
      if state == Ending || state == Lobby {
        return false;
      }
      seated := true;
      state := if authority == Some(NativeRelay) && !boardReady then Seating else Live;
      return true;
    }

    method MarkDead() returns (ok: bool)
      modifies this`deadSent
      ensures View() == Died(old(View()))
      ensures ok <==> CanPublishDeath(old(View()))
    {
      if !((state == Live || state == Seating) && seated && !deadSent) {
        return false;
      }
      deadSent := true;
      return true;
    }

    method EnterEnding()
      modifies this`state
      ensures View() == old(View()).(phase := Ending)
    {
      state := Ending;
    }

    method EnterLobby()
      modifies this
      ensures View() == ToLobby(old(View()))
    {
      state := Lobby;
      deadSent, seated, boardRev, boardReady := false, false, 0, false;
    }
  }

  // ---------------------------------------------------------------- turns are proved by the path

  /** A journaled turn is a quarter turn that the head path really took. */
  lemma IssuedTurnIsOnThePath(s: Session, p: Seen)
    requires IssuedTurn(s, p).Some?
    ensures var t := IssuedTurn(s, p).value;
            && s.lastHead == Some(t.at) && p.head == Some(Move(t.at, t.toDir))
            && s.lastHeadDir == Some(t.fromDir)
            && t.toDir != t.fromDir && t.toDir != Opposite(t.fromDir)
            && t.turnSeq == s.turnSeq + 1 && t.moveSeq == s.moveSeq + 1
  {
  }

  // ---------------------------------------------------------------- headings follow the path

  /** The head moved one step while a heading was remembered: the engine's field is believed when it
      names the direction of the step and that is no reversal, and otherwise the remembered heading
      stands. That heading is advertised and remembered, and a turn is journaled exactly when it is a
      quarter turn from the remembered one. */
  lemma HeadingFollowsThePath(s: Session, p: Seen, from: Point, d: Dir, m: Dir)
    requires s.lastHead == Some(from) && s.lastHeadDir == Some(d) && p.head == Some(Move(from, m))
    ensures var pose, next := Enriched(s, p), Observed(s, p);
            var h := if p.headDir == Some(m) && m != Opposite(d) then m else d;
            && pose.headDir == Some(h) && next.lastHeadDir == Some(h)
            && pose.fromHead == Some(from) && pose.toHead == p.head && next.lastHead == p.head
            && pose.transitionDir == Some(m) && pose.movementDir == Some(m) && next.lastMoveDir == Some(m)
            && next.moveSeq == s.moveSeq + 1 && pose.moveSeq == next.moveSeq
            && (h != d && h != Opposite(d) <==> next.turnSeq == s.turnSeq + 1)
            && (next.turnSeq == s.turnSeq + 1 ==> next.turns == Tail(s.turns + [Turn(s.turnSeq + 1, from, d, m, s.moveSeq + 1)], MAX_TURNS))
            && (next.turnSeq != s.turnSeq + 1 ==> next.turnSeq == s.turnSeq && next.turns == s.turns)
  {
    assert forall e :: Move(from, e) == Move(from, m) ==> e == m;
    assert TransitionDir(s.lastHead, p.head) == Some(m);
    assert Move(from, m) != from;
  }

  /** The direction of the step from one head to the next, when it is one. */
  predicate Stepped(s: Session, p: Seen) {
    s.lastHead.Some? && p.head.Some? && exists m :: p.head.value == Move(s.lastHead.value, m)
  }

  /** Without such a step, or before any heading is known, the field is taken as it comes and no turn
      is journaled; moves are counted whenever the head is seen to have changed. */
  lemma FieldIsTakenOtherwise(s: Session, p: Seen)
    requires !Stepped(s, p) || s.lastHeadDir.None?
    ensures var pose, next := Enriched(s, p), Observed(s, p);
            && next.turnSeq == s.turnSeq && next.turns == s.turns
            && next.lastHeadDir == (if p.headDir.Some? then p.headDir else s.lastHeadDir)
            && (p.headDir.Some? ==> pose.headDir == p.headDir)
            && (p.headDir.None? && !Stepped(s, p) ==> pose.headDir == s.lastMoveDir && pose.movementDir == s.lastMoveDir)
            && next.lastHead == (if p.head.Some? then p.head else s.lastHead)
            && (!Stepped(s, p) ==> pose.transitionDir == None && next.lastMoveDir == s.lastMoveDir)
            && next.moveSeq == s.moveSeq + (if s.lastHead.Some? && p.head.Some? && s.lastHead != p.head then 1 else 0)
  {
    assert TransitionDir(s.lastHead, p.head).Some? ==> Stepped(s, p);
    hide TransitionDir, NewerThan;
  }

  /** A pose repeats exactly the journaled turns that are not known to be acknowledged. */
  lemma PoseRepeatsUnackedTurns(s: Session, p: Seen, t: Turn)
    requires |s.turns| <= MAX_TURNS
    ensures t in Enriched(s, p).turns <==> t in Observed(s, p).turns && t.turnSeq > s.acked
  {
    var turns := Observed(s, p).turns;
    assert |turns| <= MAX_TURNS by { hide IssuedTurn, BelievedDir; }
    hide Observed, NewerThan;
    NewerMembers(turns, s.acked, t);
    NewerIsShorter(turns, s.acked);
  }

  /** An acknowledgement never goes back nor beyond what was issued, and forgets exactly the turns up to
      it. */
  lemma AcksPruneExactly(s: Session, n: int, t: Turn)
    requires s.acked <= s.turnSeq
    ensures var next := Acked(s, n);
            && next.acked == Max(s.acked, Min(n, s.turnSeq))
            && next == s.(acked := next.acked, turns := next.turns)
            && (n <= s.acked ==> next == s)
            && (n > s.acked ==> (t in next.turns <==> t in s.turns && t.turnSeq > next.acked))
  {
    NewerMembers(s.turns, Acked(s, n).acked, t);
    hide NewerThan;
  }

  /** Within a generation the board revision of a client only grows, and a revision below it is refused. */
  lemma RevisionsOnlyGrow(s: Session, e: Event)
    requires !e.Leave? && (e.Bind? ==> e.gen == s.gen)
    ensures Next(s, e).gen == s.gen && Next(s, e).boardRev >= s.boardRev
    ensures e.Ready? ==> Next(s, e).boardRev == if s.boardRev <= e.rev && 1 <= e.rev <= MAX_SAFE_INTEGER then e.rev else s.boardRev
    ensures Next(s, e).deadSent <==> s.deadSent || (e.Die? && s.seated && (s.phase == Live || s.phase == Seating))
  {
    hide IssuedTurn, BelievedDir, TransitionDir, NewerThan;
  }

  lemma {:induction false} NewerMembers(ts: seq<Turn>, n: nat, t: Turn)
    ensures t in NewerThan(ts, n) <==> t in ts && t.turnSeq > n
    decreases |ts|
  {
    if ts != [] {
      NewerMembers(ts[..|ts| - 1], n, t);
      assert ts == ts[..|ts| - 1] + [Last(ts)];
    }
  }

  lemma {:induction false} NewerIsShorter(ts: seq<Turn>, n: nat)
    ensures |NewerThan(ts, n)| <= |ts|
    decreases |ts|
  {
    if ts != [] {
      NewerIsShorter(ts[..|ts| - 1], n);
    }
  }

  // ---------------------------------------------------------------- one death per generation

  datatype Event =
    | Bind(gen: int, auth: Authority, ready: bool) | Sit | Ready(rev: int) | Die | End | Leave
    | Observe(seen: Seen) | Ack(n: int)

  function Next(s: Session, e: Event): Session {
    match e
    case Bind(g, a, r) => Bound(s, g, a, r)
    case Sit => Seat(s)
    case Ready(rev) => ReadyBoard(s, rev)
    case Die => Died(s)
    case End => s.(phase := Ending)
    case Leave => ToLobby(s)
    case Observe(seen) => Observed(s, seen)
    case Ack(n) => Acked(s, n)
  }

  function RunSession(s: Session, es: seq<Event>): Session {
    if es == [] then s else Next(RunSession(s, es[..|es| - 1]), Last(es))
  }

  /** A client is live only while it is seated, never in the lobby, and goes live under the relay only
      once the board is ready. */
  lemma {:induction false} LiveMeansSeated(es: seq<Event>)
    ensures var s := RunSession(NewSession, es);
            && (s.phase == Live ==> s.seated && s.gen > 0)
            && (s.phase == Lobby ==> !s.seated)
            && (s.phase == Seating || s.seated ==> s.gen > 0)
    ensures es != [] && RunSession(NewSession, es).phase == Live && RunSession(NewSession, es[..|es| - 1]).phase != Live ==>
              RunSession(NewSession, es).authority != Some(NativeRelay) || RunSession(NewSession, es).boardReady
    decreases |es|
  {
    if es != [] {
      LiveMeansSeated(es[..|es| - 1]);
      hide IssuedTurn, BelievedDir, TransitionDir, NewerThan;
    }
  }

  /** Number of deaths published along a run. */
  function Deaths(s: Session, es: seq<Event>): nat {
    if es == [] then 0
    else Deaths(s, es[..|es| - 1]) + (if Last(es) == Die && CanPublishDeath(RunSession(s, es[..|es| - 1])) then 1 else 0)
  }

  predicate NoRebind(gen: nat, es: seq<Event>) {
    forall k :: 0 <= k < |es| && es[k].Bind? ==> es[k].gen == gen
  }

  lemma {:induction false} DeathsLeaveATrace(s: Session, es: seq<Event>)
    requires !s.deadSent && NoRebind(s.gen, es)
    ensures var now := RunSession(s, es);
            && now.gen == s.gen
            && Deaths(s, es) <= 1
            && (Deaths(s, es) == 1 ==> now.deadSent || (!now.seated && (now.phase == Lobby || now.phase == Ending)))
    decreases |es|
  {
    if es != [] {
      DeathsLeaveATrace(s, es[..|es| - 1]);
    }
  }

  /** However often it dies, returns to the lobby or is re-announced the same generation, a
      client publishes at most one death before it is bound to another generation. */
  lemma OneDeathPerGeneration(s: Session, gen: nat, auth: Authority, ready: bool, es: seq<Event>)
    requires 1 <= gen <= MAX_SAFE_INTEGER && s.gen != gen && NoRebind(gen, es)
    ensures Deaths(Bound(s, gen, auth, ready), es) <= 1
  {
    DeathsLeaveATrace(Bound(s, gen, auth, ready), es);
  }
}
