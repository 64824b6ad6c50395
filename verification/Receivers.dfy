/** Receivers of turn journals: what merging the journals they see leaves them with, whatever
    they held before and however often a message comes. */
module Receivers {
  import opened Prelude
  import opened Grid
  import opened Turns

  /** What a receiver keeps of an entry; the server also stores entries that turn nowhere. */
  predicate QuarterTurn(t: Turn) {
    && 1 <= t.turnSeq <= MAX_SAFE_INTEGER && t.moveSeq <= MAX_SAFE_INTEGER
    && t.toDir != t.fromDir && t.toDir != Opposite(t.fromDir)
  }

  predicate AllQuarterTurns(ts: seq<Turn>) {
    forall k :: 0 <= k < |ts| ==> QuarterTurn(ts[k])
  }

  lemma NormalIsQuarterTurn(r: RawTurn, t: Turn)
    ensures NormalizeTurn(r) == Some(t) ==> QuarterTurn(t)
    ensures NormalizeTurn(Raw(t)) == if QuarterTurn(t) then Some(t) else None
  {
  }

  // ---------------------------------------------------------------- tables

  lemma {:induction false} TableHoldsQuarterTurns(rs: seq<RawTurn>)
    ensures forall s :: s in Table(rs) ==> QuarterTurn(Table(rs)[s]) && Table(rs)[s].turnSeq == s
    decreases |rs|
  {
    if rs != [] {
      TableHoldsQuarterTurns(rs[..|rs| - 1]);
      if NormalizeTurn(Last(rs)).Some? {
        NormalIsQuarterTurn(Last(rs), NormalizeTurn(Last(rs)).value);
      }
    }
  }

  /** Entries of the second list replace those of the first. */
  lemma {:induction false} TableOfBoth(a: seq<RawTurn>, b: seq<RawTurn>)
    ensures Table(a + b) == Table(a) + Table(b)
    decreases |b|
  {
    if b == [] {
      assert a + b == a;
    } else {
      TableOfBoth(a, b[..|b| - 1]);
      assert (a + b)[..|a + b| - 1] == a + b[..|b| - 1];
    }
  }

  /** A list numbered from base + 1 tabulates to its quarter turns. */
  lemma {:induction false} TableOfList(ts: seq<Turn>, base: int, s: nat)
    requires forall k :: 0 <= k < |ts| ==> ts[k].turnSeq == base + k + 1
    ensures s in Table(RawAll(ts)) <==> base < s <= base + |ts| && QuarterTurn(ts[s - base - 1])
    ensures s in Table(RawAll(ts)) ==> Table(RawAll(ts))[s] == ts[s - base - 1]
    decreases |ts|
  {
    if ts != [] {
      var front := ts[..|ts| - 1];
      TableOfList(front, base, s);
      assert RawAll(ts)[..|ts| - 1] == RawAll(front);
      NormalIsQuarterTurn(Raw(Last(ts)), Last(ts));
    }
  }

  // ---------------------------------------------------------------- convergence

  lemma JournalTable(j: Journal, s: nat)
    requires JournalOk(j)
    ensures s in Table(RawAll(j.turns)) ==> 0 < s <= j.highest
    ensures AllQuarterTurns(j.turns) ==>
              (s in Table(RawAll(j.turns)) <==> j.highest - |j.turns| < s <= j.highest)
              && (s in Table(RawAll(j.turns)) ==> Table(RawAll(j.turns))[s] == j.turns[s - (j.highest - |j.turns|) - 1])
  {
    TableOfList(j.turns, j.highest - |j.turns|, s);
  }

  /** A journal of quarter turns is the merge of every table that agrees with it and ends with it. */
  lemma JournalIsMerge(table: map<nat, Turn>, j: Journal)
    requires JournalOk(j)
    requires forall s :: s in table ==> 0 < s <= j.highest
    requires forall k :: 0 <= k < |j.turns| ==> j.turns[k].turnSeq in table && table[j.turns[k].turnSeq] == j.turns[k]
    ensures IsMerge(table, j.turns)
  {
    if j.turns == [] {
      assert forall s :: s !in table;
      assert table.Keys == {};
    }
  }

  /** Whatever a receiver holds, merging a journal of the server leaves it with exactly that journal
      if and only if the journal holds quarter turns only and nothing held is numbered beyond it. */
  lemma MergeIsJournal(held: seq<RawTurn>, j: Journal, merged: seq<Turn>)
    requires JournalOk(j) && IsMerge(Table(held + RawAll(j.turns)), merged)
    ensures merged == j.turns <==> AllQuarterTurns(j.turns) && forall s :: s in Table(held) ==> s <= j.highest
  {
    var table := Table(held + RawAll(j.turns));
    TableOfBoth(held, RawAll(j.turns));
    TableHoldsQuarterTurns(held + RawAll(j.turns));
    TableHoldsQuarterTurns(held);
    forall s: nat
      ensures s in Table(RawAll(j.turns)) ==> 0 < s <= j.highest
    {
      JournalTable(j, s);
    }
    if AllQuarterTurns(j.turns) && forall s :: s in Table(held) ==> s <= j.highest {
      forall k | 0 <= k < |j.turns|
        ensures j.turns[k].turnSeq in table && table[j.turns[k].turnSeq] == j.turns[k]
      {
        JournalTable(j, j.turns[k].turnSeq);
      }
      JournalIsMerge(table, j);
      MergeIsUnique(table, merged, j.turns);
    }
    if merged == j.turns {
      HighestIsLast(table, j, merged);
    }
  }

  lemma HighestIsLast(table: map<nat, Turn>, j: Journal, merged: seq<Turn>)
    requires JournalOk(j) && IsMerge(table, merged) && merged == j.turns
    requires forall s :: s in table ==> QuarterTurn(table[s])
    ensures AllQuarterTurns(merged) && forall s :: s in table ==> s <= j.highest
  {
    if merged == [] {
      assert forall s :: s in table ==> s in table.Keys;
    }
  }

  /** The journal after a sequence of lists, those refused leaving it as it was. */
  function Stored(j: Journal, lists: seq<seq<RawTurn>>, w: nat, h: nat): Journal
    decreases |lists|
  {
    if lists == [] then j
    else
      var before := Stored(j, lists[..|lists| - 1], w, h);
      match Validate(before, Last(lists), w, h)
      case Ok(next) => next
      case Err(_) => before
  }

  lemma {:induction false} StoredGrows(j: Journal, lists: seq<seq<RawTurn>>, w: nat, h: nat)
    requires JournalOk(j)
    ensures JournalOk(Stored(j, lists, w, h)) && Stored(j, lists, w, h).highest >= j.highest
    decreases |lists|
  {
    if lists != [] {
      var front := lists[..|lists| - 1];
      StoredGrows(j, front, w, h);
      var before := Stored(j, front, w, h);
      hide Validate, JournalOk;
      if Validate(before, Last(lists), w, h).Ok? {
        ValidateKeepsJournal(before, Last(lists), w, h);
      }
    }
  }

  /** A receiver that holds the server's journal of a seat at one time and merges the one of any later
      time, whatever lists came in between, ends with the later one exactly when that holds quarter
      turns only. */
  lemma ReceiverConverges(early: Journal, lists: seq<seq<RawTurn>>, w: nat, h: nat, merged: seq<Turn>)
    requires JournalOk(early)
    requires IsMerge(Table(RawAll(early.turns) + RawAll(Stored(early, lists, w, h).turns)), merged)
    ensures merged == Stored(early, lists, w, h).turns <==> AllQuarterTurns(Stored(early, lists, w, h).turns)
  {
    var late := Stored(early, lists, w, h);
    StoredGrows(early, lists, w, h);
    forall s | s in Table(RawAll(early.turns))
      ensures s <= late.highest
    {
      JournalTable(early, s);
    }
    MergeIsJournal(RawAll(early.turns), late, merged);
  }

  /** `held[k]` is what a receiver holds once it has merged the first `k` journals, one after another. */
  predicate Merges(journals: seq<Journal>, held: seq<seq<Turn>>) {
    && |held| == |journals| + 1 && held[0] == []
    && forall k :: 0 <= k < |journals| ==> IsMerge(Table(RawAll(held[k]) + RawAll(journals[k].turns)), held[k + 1])
  }

  predicate Ascending(journals: seq<Journal>) {
    forall i, j :: 0 <= i <= j < |journals| ==> journals[i].highest <= journals[j].highest
  }

  /** A receiver never holds more than the last journal it merged. */
  lemma {:induction false} HeldIsBounded(journals: seq<Journal>, held: seq<seq<Turn>>, n: nat, s: nat)
    requires (forall k :: 0 <= k < |journals| ==> JournalOk(journals[k])) && Ascending(journals)
    requires Merges(journals, held) && n <= |journals|
    ensures s in Table(RawAll(held[n])) ==> n > 0 && s <= journals[n - 1].highest
    decreases n
  {
    if n > 0 {
      var raws := RawAll(held[n - 1]) + RawAll(journals[n - 1].turns);
      forall x: nat
        ensures x in Table(raws) ==> x <= journals[n - 1].highest
      {
        HeldIsBounded(journals, held, n - 1, x);
        JournalTable(journals[n - 1], x);
        TableOfBoth(RawAll(held[n - 1]), RawAll(journals[n - 1].turns));
      }
      assert IsMerge(Table(raws), held[n]);
      HeldComesFrom(Table(raws), held[n], s);
    }
  }

  lemma HeldComesFrom(table: map<nat, Turn>, merged: seq<Turn>, s: nat)
    requires IsMerge(table, merged)
    ensures s in Table(RawAll(merged)) ==> s in table
  {
    if merged != [] {
      TableOfList(merged, merged[0].turnSeq - 1, s);
      if s in Table(RawAll(merged)) {
        assert merged[s - merged[0].turnSeq].turnSeq == s;
      }
    }
  }

  /** A receiver that sees any selection of a seat's journals, in order, holds the last one it saw
      exactly when that holds quarter turns only, whatever the earlier ones held. */
  lemma ReceiverCatchesUp(journals: seq<Journal>, held: seq<seq<Turn>>)
    requires journals != [] && (forall k :: 0 <= k < |journals| ==> JournalOk(journals[k])) && Ascending(journals)
    requires Merges(journals, held)
    ensures Last(held) == Last(journals).turns <==> AllQuarterTurns(Last(journals).turns)
  {
    var n := |journals| - 1;
    forall s | s in Table(RawAll(held[n]))
      ensures s <= Last(journals).highest
    {
      HeldIsBounded(journals, held, n, s);
    }
    MergeIsJournal(RawAll(held[n]), Last(journals), Last(held));
  }

  /** The server stores an entry that turns nowhere; its receivers drop it and keep nothing. */
  lemma StoredButDropped()
    ensures var t := Turn(1, Point(0, 0), Up, Up, 0);
            && Validate(Journal(0, []), [Raw(t)], 10, 9) == Ok(Journal(1, [t]))
            && IsMerge(Table(RawAll([t])), [])
  {
    var t := Turn(1, Point(0, 0), Up, Up, 0);
    var j := Journal(0, []);
    var empty: seq<Turn> := [];
    assert CheckEntries(j, [Raw(t)], 0, 10, 9) == Ok(empty);
    assert CheckEntry(j, t, Expected(j, empty)) == None;
    assert CheckEntries(j, [Raw(t)], 1, 10, 9) == Ok(empty + [t]);
    assert empty + [t] == [t];
    assert NewerThan([t], 0) == NewerThan([], 0) + [t];
    assert RawAll([t])[..0] == [];
    assert Table(RawAll([t])) == map[];
  }

  // ---------------------------------------------------------------- repetition

  /** Of a table only what the merge shows and what lies below it matters. */
  lemma MergeOfPart(table: map<nat, Turn>, part: map<nat, Turn>, merged: seq<Turn>)
    requires IsMerge(table, merged)
    requires forall s :: s in part ==> s in table && part[s] == table[s]
    requires forall k :: 0 <= k < |merged| ==> merged[k].turnSeq in part
    ensures IsMerge(part, merged)
  {
    if merged == [] {
      assert forall s :: s in part ==> s in table.Keys;
      assert part.Keys == {};
    }
  }

  lemma TableOfMerge(table: map<nat, Turn>, merged: seq<Turn>, s: nat)
    requires IsMerge(table, merged) && forall x :: x in table ==> QuarterTurn(table[x]) && table[x].turnSeq == x
    ensures s in Table(RawAll(merged)) <==> exists k :: 0 <= k < |merged| && merged[k].turnSeq == s
    ensures s in Table(RawAll(merged)) ==> s in table && Table(RawAll(merged))[s] == table[s]
  {
    if merged != [] {
      TableOfList(merged, merged[0].turnSeq - 1, s);
      if s in Table(RawAll(merged)) {
        assert merged[s - merged[0].turnSeq].turnSeq == s;
      }
    }
  }

  /** Merging is idempotent: for any two lists, to merge the result with itself changes nothing. */
  lemma MergeIdempotent(previous: seq<RawTurn>, incoming: seq<RawTurn>, merged: seq<Turn>, again: seq<Turn>)
    requires IsMerge(Table(previous + incoming), merged)
    requires IsMerge(Table(RawAll(merged) + RawAll(merged)), again)
    ensures again == merged
  {
    MergeAgain(previous + incoming, RawAll(merged), merged, again);
  }

  /** Neither does merging the incoming list once more. */
  lemma RedeliveryChangesNothing(previous: seq<RawTurn>, incoming: seq<RawTurn>, merged: seq<Turn>, again: seq<Turn>)
    requires IsMerge(Table(previous + incoming), merged)
    requires IsMerge(Table(RawAll(merged) + incoming), again)
    ensures again == merged
  {
    TableOfBoth(previous, incoming);
    MergeAgain(previous + incoming, incoming, merged, again);
  }

  lemma MergeAgain(rs: seq<RawTurn>, more: seq<RawTurn>, merged: seq<Turn>, again: seq<Turn>)
    requires IsMerge(Table(rs), merged) && IsMerge(Table(RawAll(merged) + more), again)
    requires more == RawAll(merged) || forall s :: s in Table(more) ==> s in Table(rs) && Table(more)[s] == Table(rs)[s]
    ensures again == merged
  {
    var table, part := Table(rs), Table(RawAll(merged) + more);
    TableHoldsQuarterTurns(rs);
    TableIsOk(RawAll(merged) + more);
    TableOfBoth(RawAll(merged), more);
    forall s: nat
      ensures s in Table(RawAll(merged)) <==> exists k :: 0 <= k < |merged| && merged[k].turnSeq == s
      ensures s in Table(RawAll(merged)) ==> s in table && Table(RawAll(merged))[s] == table[s]
    {
      TableOfMerge(table, merged, s);
    }
    hide Table, RawAll;
    MergeOfPart(table, part, merged);
    MergeIsUnique(part, merged, again);
  }
}
