/** The turn journal end to end: an honest client, a link that may delay, reorder, repeat or
    lose poses and echoes, and the server's journal.

    Every pose ever sent stays in `sent` and may be delivered at any later time, any number of
    times, until the rate limiter drops it for good; likewise every echo may come at any time. */
module TurnProtocol {
  import opened Prelude
  import opened Grid
  import opened Turns
  import opened Session
  import opened Receivers

  /** A pose in flight. `count` and `base` record how many turns the client had issued and
      had acknowledged when it sent the pose; no step of the protocol reads them. */
  datatype Flight = Flight(moveSeq: nat, turns: seq<Turn>, count: nat, base: nat)

  datatype Link = Link(
    client: Session, issued: seq<Turn>, sent: seq<Flight>, lost: set<nat>,
    lastPose: nat, lastMove: nat, journal: Journal, echoes: seq<nat>)

  datatype Step = Issue(seen: Seen) | Drop(k: nat) | Deliver(k: nat) | Echo(k: nat)

  datatype Refusal = StalePose | MoveRegression | Turns(error: TurnError)

  /** The server's verdict on pose number k + 1. */
  function Verdict(l: Link, k: nat, w: nat, h: nat): Result<Journal, Refusal>
    requires k < |l.sent|
  {
    if k + 1 <= l.lastPose then Err(StalePose)
    else if l.sent[k].moveSeq < l.lastMove then Err(MoveRegression)
    else
      match Validate(l.journal, RawAll(l.sent[k].turns), w, h)
      case Err(e) => Err(Turns(e))
      case Ok(j) => Ok(j)
  }

  function HighestIn(ts: seq<Turn>): nat {
    if ts == [] then 0 else Max(HighestIn(ts[..|ts| - 1]), Last(ts).turnSeq)
  }

  function Act(l: Link, s: Step, w: nat, h: nat): Link {
    match s
    case Issue(seen) =>
      var pose := Enriched(l.client, seen);
      var turn := IssuedTurn(l.client, seen);
      var next := Observed(l.client, seen);
      l.(client := next,
      issued := if turn.Some? then l.issued + [turn.value] else l.issued,
      sent := l.sent + [Flight(pose.moveSeq, pose.turns, next.turnSeq, next.acked)])
    case Drop(k) => if k >= |l.sent| then l else l.(lost := l.lost + {k})
    case Deliver(k) =>
      if k >= |l.sent| || k in l.lost || Verdict(l, k, w, h).Err? then l
      else
        var j := Verdict(l, k, w, h).value;
        l.(lastPose := k + 1, lastMove := l.sent[k].moveSeq, journal := j, echoes := l.echoes + [HighestIn(j.turns)])
    case Echo(k) =>
      if k >= |l.echoes| then l else l.(client := Acked(l.client, l.echoes[k]))
  }

  function RunLink(l: Link, steps: seq<Step>, w: nat, h: nat): Link {
    if steps == [] then l else Act(RunLink(l, steps[..|steps| - 1], w, h), Last(steps), w, h)
  }

  /** A freshly bound client and an empty server record. */
  function FreshLink(gen: nat): Link {
    Link(Bound(NewSession, gen, NativeRelay, false), [], [], {}, 0, 0, Journal(0, []), [])
  }

  predicate Honest(s: Step, w: nat, h: nat) {
    s.Issue? && s.seen.head.Some? ==> InBounds(s.seen.head.value, w, h)
  }

  predicate HonestRun(steps: seq<Step>, w: nat, h: nat) {
    forall i :: 0 <= i < |steps| ==> Honest(steps[i], w, h)
  }

  // ---------------------------------------------------------------- windows of the issued turns

  predicate Numbered(issued: seq<Turn>) {
    forall k :: 0 <= k < |issued| ==> issued[k].turnSeq == k + 1
  }

  function Lo(n: nat): nat {
    if n > MAX_TURNS then n - MAX_TURNS else 0
  }

  /** The last min(8, n) of the first n turns issued. */
  function Window(issued: seq<Turn>, n: nat): seq<Turn>
    requires n <= |issued|
  {
    issued[Lo(n)..n]
  }

  /** Where the unacknowledged part of the window starts. */
  function UnackedFrom(n: nat, base: nat): nat {
    Max(Lo(n), base)
  }

  /** What a pose carries: the unacknowledged part of the window. */
  function Unacked(issued: seq<Turn>, n: nat, base: nat): seq<Turn>
    requires base <= n <= |issued|
  {
    issued[UnackedFrom(n, base)..n]
  }

  lemma NewerStep(front: seq<Turn>, t: Turn, a: nat)
    ensures NewerThan(front + [t], a) == NewerThan(front, a) + (if t.turnSeq > a then [t] else [])
  {
    assert (front + [t])[..|front|] == front;
  }

  lemma SliceGrows<T>(s: seq<T>, from: nat, n: nat)
    requires from < n <= |s|
    ensures s[from..n] == s[from..n - 1] + [s[n - 1]]
  {
  }

  /** Dropping old entries from a numbered slice shortens it from the front. */
  lemma {:induction false} NewerOfSlice(issued: seq<Turn>, from: nat, n: nat, a: nat)
    requires Numbered(issued) && from <= n <= |issued|
    ensures NewerThan(issued[from..n], a) == if a < n then issued[Max(from, a)..n] else []
    decreases n - from
  {
    if from < n {
      NewerOfSlice(issued, from, n - 1, a);
      NewerSliceStep(issued, from, n, a, NewerThan(issued[from..n - 1], a));
    }
  }

  lemma NewerSliceStep(issued: seq<Turn>, from: nat, n: nat, a: nat, before: seq<Turn>)
    requires Numbered(issued) && from < n <= |issued|
    requires before == NewerThan(issued[from..n - 1], a)
    requires before == if a < n - 1 then issued[Max(from, a)..n - 1] else []
    ensures NewerThan(issued[from..n], a) == if a < n then issued[Max(from, a)..n] else []
  {
    var front, t := issued[from..n - 1], issued[n - 1];
    SliceGrows(issued, from, n);
    NewerStep(front, t, a);
    if a < n {
      SliceGrows(issued, Max(from, a), n);
    }
  }

  // ---------------------------------------------------------------- the invariant

  predicate ClientOk(l: Link, w: nat, h: nat) {
    && Numbered(l.issued) && |l.issued| == l.client.turnSeq
    && l.client.acked <= l.journal.highest <= l.client.turnSeq
    && l.client.turns == Unacked(l.issued, |l.issued|, l.client.acked)
    && (forall k :: 0 <= k < |l.issued| ==> InBounds(l.issued[k].at, w, h))
    && (l.client.lastHead.Some? ==> InBounds(l.client.lastHead.value, w, h))
  }

  predicate FlightOk(l: Link, k: nat)
    requires k < |l.sent|
  {
    var f := l.sent[k];
    && f.base <= f.count <= |l.issued|
    && f.base <= l.journal.highest
    && f.turns == Unacked(l.issued, f.count, f.base)
    && f.moveSeq <= l.client.moveSeq
  }

  predicate ServerOk(l: Link) {
    && l.lastPose <= |l.sent|
    && l.journal.highest <= |l.issued|
    && l.journal.turns == Window(l.issued, l.journal.highest)
    && l.journal.highest == (if l.lastPose == 0 then 0 else l.sent[l.lastPose - 1].count)
    && l.lastMove == (if l.lastPose == 0 then 0 else l.sent[l.lastPose - 1].moveSeq)
    && (forall k :: 0 <= k < |l.echoes| ==> l.echoes[k] <= l.journal.highest)
  }

  predicate LinkInv(l: Link, w: nat, h: nat) {
    && ClientOk(l, w, h)
    && ServerOk(l)
    && (forall k :: k in l.lost ==> k < |l.sent|)
    && (forall k :: 0 <= k < |l.sent| ==> FlightOk(l, k))
    && (forall i, j :: 0 <= i <= j < |l.sent| ==> l.sent[i].count <= l.sent[j].count && l.sent[i].moveSeq <= l.sent[j].moveSeq)
  }

  // ---------------------------------------------------------------- the server's verdict

  lemma {:induction false} StoredEntry(issued: seq<Turn>, from: nat, n: nat, s: nat)
    requires Numbered(issued) && from <= n <= |issued| && from < s <= n
    ensures EntryOf(issued[from..n], s) == Some(issued[s - 1])
    decreases n - from
  {
    var ts := issued[from..n];
    assert Last(ts) == issued[n - 1];
    if s < n {
      assert ts[..|ts| - 1] == issued[from..n - 1];
      StoredEntry(issued, from, n - 1, s);
    }
  }

  function ServerJournal(issued: seq<Turn>, n: nat): Journal
    requires n <= |issued|
  {
    Journal(n, Window(issued, n))
  }

  lemma ExpectedGrows(prev: Journal, accepted: seq<Turn>, t: Turn)
    ensures Expected(prev, accepted + [t]) == Expected(prev, accepted) + (if t.turnSeq > prev.highest then 1 else 0)
  {
    assert (accepted + [t])[..|accepted|] == accepted;
  }

  lemma CheckGrows(prev: Journal, incoming: seq<RawTurn>, m: nat, accepted: seq<Turn>, t: Turn, w: nat, h: nat)
    requires m < |incoming| && CheckEntries(prev, incoming, m, w, h) == Ok(accepted)
    requires incoming[m] == Raw(t) && InBounds(t.at, w, h)
    requires t.turnSeq > if accepted == [] then 0 else Last(accepted).turnSeq
    requires CheckEntry(prev, t, Expected(prev, accepted)) == None
    ensures CheckEntries(prev, incoming, m + 1, w, h) == Ok(accepted + [t])
  {
  }

  /** An issued turn passes its check when it is stored or is the next one. */
  lemma HonestEntry(issued: seq<Turn>, last: nat, s: nat)
    requires Numbered(issued) && last <= |issued| && Lo(last) < s <= |issued|
    ensures CheckEntry(ServerJournal(issued, last), issued[s - 1], Max(last, s - 1) + 1) == None
  {
    if s <= last {
      StoredEntry(issued, Lo(last), last, s);
    }
  }

  /** Every turn was made on the board. */
  predicate OnBoard(issued: seq<Turn>, w: nat, h: nat) {
    forall k :: 0 <= k < |issued| ==> InBounds(issued[k].at, w, h)
  }

  /** `raws` is what a pose carrying turns from+1 to n looks like on the wire. */
  predicate OnTheWire(issued: seq<Turn>, from: nat, n: nat, raws: seq<RawTurn>) {
    && from <= n <= |issued| && |raws| == n - from
    && forall k :: 0 <= k < |raws| ==> raws[k] == Raw(issued[from + k])
  }

  lemma HonestStep(issued: seq<Turn>, last: nat, from: nat, raws: seq<RawTurn>, m: nat, accepted: seq<Turn>, w: nat, h: nat)
    requires Numbered(issued) && last <= |issued| && Lo(last) <= from <= last && m < |raws|
    requires OnTheWire(issued, from, from + |raws|, raws)
    requires OnBoard(issued, w, h)
    requires accepted == issued[from..from + m]
    requires CheckEntries(ServerJournal(issued, last), raws, m, w, h) == Ok(accepted)
    requires Expected(ServerJournal(issued, last), accepted) == Max(last, from + m) + 1
    ensures CheckEntries(ServerJournal(issued, last), raws, m + 1, w, h) == Ok(accepted + [issued[from + m]])
    ensures Expected(ServerJournal(issued, last), accepted + [issued[from + m]]) == Max(last, from + m + 1) + 1
  {
    hide CheckEntries, Expected, CheckEntry, Window;
    var t := issued[from + m];
    assert m > 0 ==> Last(accepted) == issued[from + m - 1];
    HonestEntry(issued, last, from + m + 1);
    CheckGrows(ServerJournal(issued, last), raws, m, accepted, t, w, h);
    ExpectedGrows(ServerJournal(issued, last), accepted, t);
  }

  lemma HonestBase(issued: seq<Turn>, last: nat, from: nat, raws: seq<RawTurn>, w: nat, h: nat)
    requires last <= |issued| && from <= last
    ensures CheckEntries(ServerJournal(issued, last), raws, 0, w, h) == Ok(issued[from..from])
    ensures Expected(ServerJournal(issued, last), issued[from..from]) == Max(last, from) + 1
  {
    assert issued[from..from] == [];
  }

  /** Entry by entry, a list that starts inside the stored window is accepted whole. */
  lemma {:induction false} HonestListChecks(issued: seq<Turn>, last: nat, from: nat, raws: seq<RawTurn>, m: nat, w: nat, h: nat)
    requires Numbered(issued) && last <= |issued| && Lo(last) <= from <= last && m <= |raws|
    requires OnTheWire(issued, from, from + |raws|, raws)
    requires OnBoard(issued, w, h)
    ensures CheckEntries(ServerJournal(issued, last), raws, m, w, h) == Ok(issued[from..from + m])
    ensures Expected(ServerJournal(issued, last), issued[from..from + m]) == Max(last, from + m) + 1
    decreases m
  {
    assert from + |raws| <= |issued|;
    hide *;
    if m == 0 {
      HonestBase(issued, last, from, raws, w, h);
    } else {
      var k := m - 1;
      var accepted := issued[from..from + k];
      HonestListChecks(issued, last, from, raws, k, w, h);
      HonestStep(issued, last, from, raws, k, accepted, w, h);
      assert issued[from..from + m] == accepted + [issued[from + k]] by {
        SliceGrows(issued, from, from + m);
      }
    }
  }

  lemma WindowGrows(issued: seq<Turn>, last: nat, n: nat)
    requires last <= n <= |issued|
    ensures Tail(Window(issued, last) + issued[last..n], MAX_TURNS) == Window(issued, n)
  {
    assert Window(issued, last) + issued[last..n] == issued[Lo(last)..n];
  }

  lemma ValidateMerges(prev: Journal, raws: seq<RawTurn>, accepted: seq<Turn>, w: nat, h: nat)
    requires |raws| <= MAX_TURNS && CheckEntries(prev, raws, |raws|, w, h) == Ok(accepted)
    requires accepted == [] || Last(accepted).turnSeq >= prev.highest
    ensures Validate(prev, raws, w, h) == Ok(MergeJournal(prev, accepted))
  {
  }

  lemma MergeCatchesUp(issued: seq<Turn>, last: nat, from: nat, n: nat)
    requires Numbered(issued) && from <= last <= n <= |issued|
    ensures MergeJournal(ServerJournal(issued, last), issued[from..n]) == ServerJournal(issued, n)
  {
    NewerOfSlice(issued, from, n, last);
    assert last == n ==> issued[last..n] == [];
    WindowGrows(issued, last, n);
  }

  /** A list reaching back to the stored journal brings the server exactly up to date. */
  lemma HonestListAccepted(issued: seq<Turn>, last: nat, from: nat, n: nat, raws: seq<RawTurn>, w: nat, h: nat)
    requires Numbered(issued) && last <= n <= |issued| && Lo(n) <= from <= last
    requires OnTheWire(issued, from, n, raws)
    requires OnBoard(issued, w, h)
    ensures Validate(ServerJournal(issued, last), raws, w, h) == Ok(ServerJournal(issued, n))
  {
    hide CheckEntries, Expected, Validate, MergeJournal, OnBoard, Window;
    HonestListChecks(issued, last, from, raws, |raws|, w, h);
    assert from + |raws| == n;
    assert from < n ==> Last(issued[from..n]) == issued[n - 1];
    ValidateMerges(ServerJournal(issued, last), raws, issued[from..n], w, h);
    MergeCatchesUp(issued, last, from, n);
  }

  /** A list that starts beyond the next new turn is refused for its gap. */
  lemma GapRefused(issued: seq<Turn>, last: nat, from: nat, n: nat, raws: seq<RawTurn>, w: nat, h: nat)
    requires Numbered(issued) && last < from < n <= |issued| && n - from <= MAX_TURNS
    requires OnTheWire(issued, from, n, raws)
    requires OnBoard(issued, w, h)
    ensures Validate(ServerJournal(issued, last), raws, w, h) == Err(TurnSuffixNotContiguous)
  {
    var prev := ServerJournal(issued, last);
    assert raws[0] == Raw(issued[from]);
    assert CleanEntry(raws[0], 0, w, h) == Ok(issued[from]);
    assert CheckEntries(prev, raws, 0, w, h) == Ok([]);
    assert CheckEntries(prev, raws, 1, w, h) == Err(TurnSuffixNotContiguous);
    CheckStops(prev, raws, 1, w, h);
  }

  /** The verdict on any pose newer than the last accepted one: accepted, leaving the server
      with exactly the last eight turns issued up to that pose, unless more than eight turns
      were issued since the last accepted pose, and then refused for the gap. */
  lemma HonestVerdict(l: Link, k: nat, w: nat, h: nat)
    requires LinkInv(l, w, h) && l.lastPose <= k < |l.sent|
    ensures var f := l.sent[k];
            && l.journal.highest <= f.count <= |l.issued|
            && Verdict(l, k, w, h) ==
               if f.count > l.journal.highest + MAX_TURNS then Err(Turns(TurnSuffixNotContiguous))
               else Ok(ServerJournal(l.issued, f.count))
  {
    var f := l.sent[k];
    var last := l.journal.highest;
    FlightIsNewer(l, k, w, h);
    var from := UnackedFrom(f.count, f.base);
    assert OnTheWire(l.issued, from, f.count, RawAll(f.turns));
    if f.count > last + MAX_TURNS {
      GapRefused(l.issued, last, from, f.count, RawAll(f.turns), w, h);
    } else {
      HonestListAccepted(l.issued, last, from, f.count, RawAll(f.turns), w, h);
    }
  }

  lemma FlightIsNewer(l: Link, k: nat, w: nat, h: nat)
    requires LinkInv(l, w, h) && l.lastPose <= k < |l.sent|
    ensures FlightOk(l, k)
    ensures l.journal.highest <= l.sent[k].count <= |l.issued| && l.lastMove <= l.sent[k].moveSeq
    ensures l.journal == ServerJournal(l.issued, l.journal.highest)
  {
  }

  // ---------------------------------------------------------------- every step keeps the invariant

  lemma UnackedGrows(issued: seq<Turn>, base: nat, t: Turn)
    requires base <= |issued|
    ensures Tail(Unacked(issued, |issued|, base) + [t], MAX_TURNS) == Unacked(issued + [t], |issued| + 1, base)
  {
    var n := |issued|;
    var from := UnackedFrom(n, base);
    var longer := issued + [t];
    var whole := issued[from..n] + [t];
    assert whole == longer[from..n + 1];
    assert Tail(whole, MAX_TURNS) == longer[Max(from, Lo(n + 1))..n + 1];
  }

  lemma UnackedIsNewer(issued: seq<Turn>, base: nat)
    requires Numbered(issued) && base <= |issued|
    ensures Tail(NewerThan(Unacked(issued, |issued|, base), base), MAX_TURNS) == Unacked(issued, |issued|, base)
  {
    NewerOfSlice(issued, UnackedFrom(|issued|, base), |issued|, base);
  }

  lemma IssueTurns(l: Link, seen: Seen, w: nat, h: nat)
    requires ClientOk(l, w, h)
    ensures var next := Act(l, Issue(seen), w, h);
            && Numbered(next.issued) && |next.issued| == next.client.turnSeq && l.issued <= next.issued
            && next.client.turns == Unacked(next.issued, |next.issued|, l.client.acked)
  {
    if IssuedTurn(l.client, seen).Some? {
      UnackedGrows(l.issued, l.client.acked, IssuedTurn(l.client, seen).value);
    }
  }

  lemma IssueClient(l: Link, seen: Seen, w: nat, h: nat)
    requires ClientOk(l, w, h) && Honest(Issue(seen), w, h)
    ensures var next := Act(l, Issue(seen), w, h);
            && ClientOk(next, w, h)
            && l.issued <= next.issued
            && Enriched(l.client, seen).turns == next.client.turns
            && next.client.moveSeq >= l.client.moveSeq
  {
    var next := Act(l, Issue(seen), w, h);
    hide Unacked, NewerThan;
    IssueTurns(l, seen, w, h);
    UnackedIsNewer(next.issued, l.client.acked);
  }

  lemma FlightsGrow(l: Link, next: Link, k: nat)
    requires k < |l.sent| && FlightOk(l, k) && l.sent <= next.sent && l.issued <= next.issued
    requires l.journal.highest <= next.journal.highest && l.client.moveSeq <= next.client.moveSeq
    ensures FlightOk(next, k)
  {
    var f := l.sent[k];
    assert Unacked(next.issued, f.count, f.base) == Unacked(l.issued, f.count, f.base);
  }

  lemma IssueKeeps(l: Link, seen: Seen, w: nat, h: nat)
    requires LinkInv(l, w, h) && Honest(Issue(seen), w, h)
    ensures LinkInv(Act(l, Issue(seen), w, h), w, h)
  {
    var next := Act(l, Issue(seen), w, h);
    IssueClient(l, seen, w, h);
    hide IssuedTurn, BelievedDir, TransitionDir, NewerThan;
    forall k | 0 <= k < |next.sent|
      ensures FlightOk(next, k)
      ensures k < |l.sent| ==> next.sent[k] == l.sent[k] && next.sent[k].count <= |l.issued| && next.sent[k].moveSeq <= l.client.moveSeq
    {
      if k < |l.sent| {
        FlightsGrow(l, next, k);
      }
    }
    assert next.issued[Lo(l.journal.highest)..l.journal.highest] == l.issued[Lo(l.journal.highest)..l.journal.highest];
  }

  lemma DeliverKeeps(l: Link, k: nat, w: nat, h: nat)
    requires LinkInv(l, w, h)
    ensures LinkInv(Act(l, Deliver(k), w, h), w, h)
  {
    if l.lastPose <= k < |l.sent| && k !in l.lost && Verdict(l, k, w, h).Ok? {
      HonestVerdict(l, k, w, h);
      FlightIsNewer(l, k, w, h);
      var next := Act(l, Deliver(k), w, h);
      HighestOfWindow(l.issued, Lo(l.sent[k].count), l.sent[k].count);
      hide Verdict, Unacked, HighestIn, Window, Numbered;
      assert next.journal == ServerJournal(l.issued, l.sent[k].count);
      hide Act;
      forall i | 0 <= i < |next.sent|
        ensures FlightOk(next, i)
      {
        FlightsGrow(l, next, i);
      }
      assert ClientOk(next, w, h);
      assert ServerOk(next);
    }
  }

  lemma {:induction false} HighestOfWindow(issued: seq<Turn>, from: nat, n: nat)
    requires Numbered(issued) && from <= n <= |issued|
    ensures HighestIn(issued[from..n]) == if from == n then 0 else n
    decreases n - from
  {
    if from < n {
      var ts := issued[from..n];
      assert ts[..|ts| - 1] == issued[from..n - 1];
      assert Last(ts) == issued[n - 1];
      HighestOfWindow(issued, from, n - 1);
    }
  }

  lemma EchoClient(l: Link, k: nat, w: nat, h: nat)
    requires ClientOk(l, w, h) && k < |l.echoes| && l.echoes[k] <= l.journal.highest
    ensures var next := Act(l, Echo(k), w, h);
            && ClientOk(next, w, h)
            && next == l.(client := next.client) && next.client.moveSeq == l.client.moveSeq
  {
    if l.echoes[k] > l.client.acked {
      var n := |l.issued|;
      NewerOfSlice(l.issued, UnackedFrom(n, l.client.acked), n, l.echoes[k]);
      hide NewerThan;
      assert Acked(l.client, l.echoes[k]).turns == Unacked(l.issued, n, l.echoes[k]);
    }
  }

  lemma EchoKeeps(l: Link, k: nat, w: nat, h: nat)
    requires LinkInv(l, w, h)
    ensures LinkInv(Act(l, Echo(k), w, h), w, h)
  {
    if k < |l.echoes| {
      var next := Act(l, Echo(k), w, h);
      EchoClient(l, k, w, h);
      hide ClientOk, Act, Unacked, Window;
      forall i | 0 <= i < |next.sent|
        ensures FlightOk(next, i)
      {
        FlightsGrow(l, next, i);
      }
    }
  }

  lemma FreshLinkOk(gen: nat, w: nat, h: nat)
    requires 1 <= gen <= MAX_SAFE_INTEGER
    ensures LinkInv(FreshLink(gen), w, h)
  {
  }

  lemma DropKeeps(l: Link, k: nat, w: nat, h: nat)
    requires LinkInv(l, w, h)
    ensures LinkInv(Act(l, Drop(k), w, h), w, h)
  {
    var next := Act(l, Drop(k), w, h);
    forall i | 0 <= i < |next.sent|
      ensures FlightOk(next, i)
    {
      FlightsGrow(l, next, i);
    }
  }

  lemma ActKeeps(l: Link, s: Step, w: nat, h: nat)
    requires LinkInv(l, w, h) && Honest(s, w, h)
    ensures LinkInv(Act(l, s, w, h), w, h)
    ensures Act(l, s, w, h).journal.highest >= l.journal.highest
  {
    hide LinkInv;
    match s
    case Issue(seen) => IssueKeeps(l, seen, w, h);
    case Drop(k) => DropKeeps(l, k, w, h);
    case Deliver(k) =>
      DeliverKeeps(l, k, w, h);
      if l.lastPose <= k < |l.sent| {
        HonestVerdict(l, k, w, h);
      }
    case Echo(k) => EchoKeeps(l, k, w, h);
  }

  lemma {:induction false} RunKeeps(l: Link, steps: seq<Step>, w: nat, h: nat)
    requires LinkInv(l, w, h) && HonestRun(steps, w, h)
    ensures LinkInv(RunLink(l, steps, w, h), w, h)
    decreases |steps|
  {
    if steps != [] {
      hide LinkInv, Act;
      RunKeeps(l, steps[..|steps| - 1], w, h);
      ActKeeps(RunLink(l, steps[..|steps| - 1], w, h), Last(steps), w, h);
    }
  }

  /** The end-to-end theorem: after any run of issuing, delivery, loss, delay and echo, the
      acknowledged number, the server's number and the client's number are ordered, and the
      server's journal is the last eight of the turns issued up to its number. */
  lemma JournalEndToEnd(gen: nat, steps: seq<Step>, w: nat, h: nat)
    requires 1 <= gen <= MAX_SAFE_INTEGER && HonestRun(steps, w, h)
    ensures var l := RunLink(FreshLink(gen), steps, w, h);
            && LinkInv(l, w, h)
            && l.client.acked <= l.journal.highest <= l.client.turnSeq == |l.issued|
            && l.journal.turns == Window(l.issued, l.journal.highest)
  {
    FreshLinkOk(gen, w, h);
    RunKeeps(FreshLink(gen), steps, w, h);
  }

  // ---------------------------------------------------------------- no way back from a gap

  /** Every pose that can still arrive left the server's window behind, and so will all to come. */
  predicate Stranded(l: Link) {
    && l.client.turnSeq > l.journal.highest + MAX_TURNS
    && forall k :: l.lastPose <= k < |l.sent| && k !in l.lost ==> l.sent[k].count > l.journal.highest + MAX_TURNS
  }

  lemma StrandedStep(l: Link, s: Step, w: nat, h: nat)
    requires LinkInv(l, w, h) && Honest(s, w, h) && Stranded(l)
    ensures var next := Act(l, s, w, h);
            Stranded(next) && next.journal == l.journal && next.lastPose == l.lastPose
  {
    match s
    case Deliver(k) =>
      if l.lastPose <= k < |l.sent| {
        HonestVerdict(l, k, w, h);
      }
    case _ =>
  }

  /** Once that is so, no pose is accepted again in this generation: the window is not a
      retransmission buffer. */
  lemma {:induction false} StrandedForever(l: Link, steps: seq<Step>, w: nat, h: nat)
    requires LinkInv(l, w, h) && HonestRun(steps, w, h) && Stranded(l)
    ensures var last := RunLink(l, steps, w, h);
            Stranded(last) && last.journal == l.journal && last.lastPose == l.lastPose
    decreases |steps|
  {
    if steps != [] {
      hide LinkInv, Act, Stranded;
      var front := steps[..|steps| - 1];
      StrandedForever(l, front, w, h);
      RunKeeps(l, front, w, h);
      StrandedStep(RunLink(l, front, w, h), Last(steps), w, h);
    }
  }

  lemma DeliveredIsAccepted(l: Link, k: nat, w: nat, h: nat)
    requires LinkInv(l, w, h) && l.lastPose <= k < |l.sent| && k !in l.lost
    requires l.sent[k].count <= l.journal.highest + MAX_TURNS
    ensures Act(l, Deliver(k), w, h).lastPose == k + 1
  {
    HonestVerdict(l, k, w, h);
  }

  lemma RunOne(l: Link, s: Step, w: nat, h: nat)
    ensures RunLink(l, [s], w, h) == Act(l, s, w, h)
  {
    hide Act;
    assert [s][..0] == [];
    assert RunLink(l, [], w, h) == l;
  }

  lemma RunMore(l: Link, steps: seq<Step>, s: Step, w: nat, h: nat)
    ensures RunLink(l, steps + [s], w, h) == Act(RunLink(l, steps, w, h), s, w, h)
  {
    hide Act;
    assert (steps + [s])[..|steps|] == steps;
  }

  /** A pose that shows nothing of the engine repeats the journal as it is. */
  lemma BlankPose(l: Link, w: nat, h: nat)
    requires LinkInv(l, w, h)
    ensures var next := Act(l, Issue(Seen(None, None)), w, h);
            && LinkInv(next, w, h)
            && |next.sent| == |l.sent| + 1 && Last(next.sent).count == l.client.turnSeq
            && next.lost == l.lost && next.lastPose == l.lastPose && next.journal == l.journal
            && |l.sent| !in next.lost && l.lastPose <= |l.sent|
  {
    IssueKeeps(l, Seen(None, None), w, h);
  }

  lemma WayBack(l: Link, w: nat, h: nat) returns (steps: seq<Step>)
    requires LinkInv(l, w, h) && !Stranded(l)
    ensures HonestRun(steps, w, h) && RunLink(l, steps, w, h).lastPose > l.lastPose
  {
    hide LinkInv, Act;
    if l.client.turnSeq <= l.journal.highest + MAX_TURNS {
      var blank := Issue(Seen(None, None));
      BlankPose(l, w, h);
      DeliveredIsAccepted(Act(l, blank, w, h), |l.sent|, w, h);
      RunOne(l, blank, w, h);
      RunMore(l, [blank], Deliver(|l.sent|), w, h);
      steps := [blank] + [Deliver(|l.sent|)];
    } else {
      var k :| l.lastPose <= k < |l.sent| && k !in l.lost && l.sent[k].count <= l.journal.highest + MAX_TURNS;
      DeliveredIsAccepted(l, k, w, h);
      RunOne(l, Deliver(k), w, h);
      steps := [Deliver(k)];
    }
  }

  /** No run accepts another pose exactly when more than eight turns lie between the last accepted
      pose and everything that has survived or is yet to be sent. */
  lemma NoWayBackExactly(l: Link, w: nat, h: nat)
    requires LinkInv(l, w, h)
    ensures Stranded(l) <==> forall steps :: HonestRun(steps, w, h) ==> RunLink(l, steps, w, h).lastPose == l.lastPose
  {
    hide LinkInv, Stranded, RunLink, HonestRun;
    if Stranded(l) {
      forall steps | HonestRun(steps, w, h)
        ensures RunLink(l, steps, w, h).lastPose == l.lastPose
      {
        StrandedForever(l, steps, w, h);
      }
    } else {
      var steps := WayBack(l, w, h);
      assert HonestRun(steps, w, h) && RunLink(l, steps, w, h).lastPose != l.lastPose;
    }
  }

  /** A head that goes round a block of four cells turns at every move. */
  function Corner(n: nat): Seen {
    if n % 4 == 0 then Seen(Some(Point(0, 0)), Some(Left))
    else if n % 4 == 1 then Seen(Some(Point(0, 1)), Some(Down))
    else if n % 4 == 2 then Seen(Some(Point(1, 1)), Some(Right))
    else Seen(Some(Point(1, 0)), Some(Up))
  }

  /** `n` turns, every pose of which the rate limiter drops. */
  function Circling(n: nat): seq<Step> {
    (if n == 0 then [] else Circling(n - 1)) + [Issue(Corner(n))] + [Drop(n)]
  }

  predicate AllLostAfter(l: Link, n: nat) {
    && l.client.turnSeq == n && l.client.lastHead == Corner(n).head && l.client.lastHeadDir == Corner(n).headDir
    && |l.sent| == n + 1 && (forall k :: 0 <= k <= n ==> k in l.lost)
    && l.lastPose == 0 && l.journal == Journal(0, [])
  }

  lemma CornerTurns(l: Link, n: nat, w: nat, h: nat)
    requires n > 0 && AllLostAfter(l, n - 1)
    ensures AllLostAfter(Act(Act(l, Issue(Corner(n)), w, h), Drop(n), w, h), n)
  {
    assert (n - 1) % 4 == (n + 3) % 4;
    assert IssuedTurn(l.client, Corner(n)).Some?;
  }

  lemma FirstCorner(gen: nat, w: nat, h: nat)
    requires 1 <= gen <= MAX_SAFE_INTEGER
    ensures AllLostAfter(Act(Act(FreshLink(gen), Issue(Corner(0)), w, h), Drop(0), w, h), 0)
  {
  }

  lemma CornersAreHonest(n: nat, w: nat, h: nat)
    requires w >= 2 && h >= 2
    ensures Honest(Issue(Corner(n)), w, h) && Honest(Drop(n), w, h)
  {
  }

  lemma RunNone(l: Link, w: nat, h: nat)
    ensures RunLink(l, [], w, h) == l
  {
  }

  lemma {:induction false} CirclingLoses(gen: nat, n: nat, w: nat, h: nat)
    requires 1 <= gen <= MAX_SAFE_INTEGER && w >= 2 && h >= 2
    ensures HonestRun(Circling(n), w, h)
    ensures AllLostAfter(RunLink(FreshLink(gen), Circling(n), w, h), n)
    decreases n
  {
    hide Act, RunLink, Corner, Honest;
    var before := if n == 0 then [] else Circling(n - 1);
    RunMore(FreshLink(gen), before, Issue(Corner(n)), w, h);
    RunMore(FreshLink(gen), before + [Issue(Corner(n))], Drop(n), w, h);
    CornersAreHonest(n, w, h);
    if n == 0 {
      RunNone(FreshLink(gen), w, h);
      FirstCorner(gen, w, h);
    } else {
      CirclingLoses(gen, n - 1, w, h);
      CornerTurns(RunLink(FreshLink(gen), before, w, h), n, w, h);
    }
  }

  /** A client whose every pose is dropped is stranded by its ninth turn, and not before. */
  lemma NinthLostTurnStrands(gen: nat, n: nat, w: nat, h: nat)
    requires 1 <= gen <= MAX_SAFE_INTEGER && w >= 2 && h >= 2
    ensures var l := RunLink(FreshLink(gen), Circling(n), w, h);
            HonestRun(Circling(n), w, h) && LinkInv(l, w, h) && (Stranded(l) <==> n >= 9)
  {
    hide Act, RunLink, Circling, HonestRun, LinkInv, Corner;
    CirclingLoses(gen, n, w, h);
    JournalEndToEnd(gen, Circling(n), w, h);
  }

  // ---------------------------------------------------------------- receivers converge

  /** Every issued turn is a quarter turn, made on a move of its own. */
  predicate OnThePath(l: Link) {
    && l.client.turnSeq <= l.client.moveSeq
    && forall k :: 0 <= k < |l.issued| ==>
         && l.issued[k].toDir != l.issued[k].fromDir && l.issued[k].toDir != Opposite(l.issued[k].fromDir)
         && 1 <= l.issued[k].turnSeq <= l.issued[k].moveSeq <= l.client.moveSeq
  }

  lemma ActStaysOnPath(l: Link, s: Step, w: nat, h: nat)
    requires OnThePath(l)
    ensures OnThePath(Act(l, s, w, h))
  {
    match s
    case Issue(seen) =>
      if IssuedTurn(l.client, seen).Some? {
        IssuedTurnIsOnThePath(l.client, seen);
      }
    case _ =>
  }

  lemma {:induction false} RunStaysOnPath(gen: nat, steps: seq<Step>, w: nat, h: nat)
    requires 1 <= gen <= MAX_SAFE_INTEGER
    ensures OnThePath(RunLink(FreshLink(gen), steps, w, h))
    decreases |steps|
  {
    if steps != [] {
      hide Act, OnThePath;
      RunStaysOnPath(gen, steps[..|steps| - 1], w, h);
      ActStaysOnPath(RunLink(FreshLink(gen), steps[..|steps| - 1], w, h), Last(steps), w, h);
    }
  }

  lemma {:induction false} NumberGrows(l: Link, steps: seq<Step>, n: nat, w: nat, h: nat)
    requires LinkInv(l, w, h) && HonestRun(steps, w, h) && n <= |steps|
    ensures RunLink(l, steps[..n], w, h).journal.highest <= RunLink(l, steps, w, h).journal.highest
    decreases |steps|
  {
    if n == |steps| {
      assert steps[..n] == steps;
    } else {
      hide LinkInv, Act;
      var front := steps[..|steps| - 1];
      NumberGrows(l, front, n, w, h);
      assert front[..n] == steps[..n];
      RunKeeps(l, front, w, h);
      ActKeeps(RunLink(l, front, w, h), Last(steps), w, h);
    }
  }

  lemma ServerJournalOk(l: Link, w: nat, h: nat)
    requires LinkInv(l, w, h)
    ensures JournalOk(l.journal)
    ensures OnThePath(l) && l.client.moveSeq <= MAX_SAFE_INTEGER ==> AllQuarterTurns(l.journal.turns)
  {
    var n := l.journal.highest;
    assert forall k :: 0 <= k < |l.journal.turns| ==> l.journal.turns[k] == l.issued[Lo(n) + k];
  }

  /** An honest client's journals hold quarter turns only, so over any run a receiver that holds the
      server's journal of some earlier moment and merges a later one ends with the later one. */
  lemma HonestReceiverConverges(gen: nat, steps: seq<Step>, n: nat, w: nat, h: nat, merged: seq<Turn>)
    requires 1 <= gen <= MAX_SAFE_INTEGER && HonestRun(steps, w, h) && n <= |steps|
    requires var early, late := RunLink(FreshLink(gen), steps[..n], w, h), RunLink(FreshLink(gen), steps, w, h);
             && late.client.moveSeq <= MAX_SAFE_INTEGER
             && IsMerge(Table(RawAll(early.journal.turns) + RawAll(late.journal.turns)), merged)
    ensures merged == RunLink(FreshLink(gen), steps, w, h).journal.turns
  {
    var early, late := RunLink(FreshLink(gen), steps[..n], w, h), RunLink(FreshLink(gen), steps, w, h);
    JournalEndToEnd(gen, steps[..n], w, h);
    JournalEndToEnd(gen, steps, w, h);
    FreshLinkOk(gen, w, h);
    hide LinkInv, RunLink, HonestRun, OnThePath, IsMerge, Table;
    NumberGrows(FreshLink(gen), steps, n, w, h);
    RunStaysOnPath(gen, steps, w, h);
    ServerJournalOk(early, w, h);
    ServerJournalOk(late, w, h);
    forall s | s in Table(RawAll(early.journal.turns))
      ensures s <= late.journal.highest
    {
      JournalTable(early.journal, s);
    }
    MergeIsJournal(RawAll(early.journal.turns), late.journal, merged);
  }
}
