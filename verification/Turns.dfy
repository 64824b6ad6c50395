/** Turn journals: the entries a player's client publishes, how the server validates and
    merges them, and how receivers merge the journals they see. */
module Turns {
  import opened Prelude
  import opened Grid

  datatype Turn = Turn(turnSeq: nat, at: Point, fromDir: Dir, toDir: Dir, moveSeq: nat)

  /** A journal entry as it arrives: any field may be missing or malformed. `exact` says
      that the entry has the five journal fields and no other. */
  datatype RawTurn = RawTurn(
    exact: bool, turnSeq: Option<int>, at: Option<Point>,
    fromDir: Option<Dir>, toDir: Option<Dir>, moveSeq: Option<int>)

  const MAX_TURNS: nat := 8
  const MAX_SAFE_INTEGER: nat := 9007199254740991

  function Raw(t: Turn): RawTurn {
    RawTurn(true, Some(t.turnSeq), Some(t.at), Some(t.fromDir), Some(t.toDir), Some(t.moveSeq))
  }

  function RawAll(ts: seq<Turn>): (r: seq<RawTurn>)
    ensures |r| == |ts|
    ensures forall i :: 0 <= i < |ts| ==> r[i] == Raw(ts[i])
  {
    seq(|ts|, i requires 0 <= i < |ts| => Raw(ts[i]))
  }

  /** The last `n` entries, or all of them. */
  function Tail<T>(s: seq<T>, n: nat): (r: seq<T>)
    ensures |r| == Min(|s|, n)
  {
    if |s| > n then s[|s| - n..] else s
  }

  predicate Contiguous(ts: seq<Turn>) {
    forall i :: 0 <= i < |ts| ==> ts[i].turnSeq == ts[0].turnSeq + i
  }

  // ---------------------------------------------------------------- receivers

  function NormalizeTurn(r: RawTurn): Option<Turn> {
    if r.turnSeq.None? || r.turnSeq.value < 1 || r.turnSeq.value > MAX_SAFE_INTEGER
       || r.moveSeq.None? || r.moveSeq.value < 0 || r.moveSeq.value > MAX_SAFE_INTEGER
       || r.at.None? || r.fromDir.None? || r.toDir.None?
       || r.fromDir == r.toDir || Opposite(r.fromDir.value) == r.toDir.value then None
    else Some(Turn(r.turnSeq.value, r.at.value, r.fromDir.value, r.toDir.value, r.moveSeq.value))
  }

  /** Valid entries by sequence number; a later entry replaces an earlier one. */
  function Table(rs: seq<RawTurn>): map<nat, Turn> {
    if rs == [] then map[]
    else
      var table := Table(rs[..|rs| - 1]);
      match NormalizeTurn(Last(rs))
      case None => table
      case Some(t) => table[t.turnSeq := t]
  }

  predicate TableOk(table: map<nat, Turn>) {
    forall s :: s in table ==> table[s].turnSeq == s && s > 0
  }

  lemma {:induction false} TableIsOk(rs: seq<RawTurn>)
    ensures TableOk(Table(rs))
    decreases |rs|
  {
    if rs != [] {
      TableIsOk(rs[..|rs| - 1]);
    }
  }

  /** `merged` is the longest gap-free run of the table that ends at its highest number,
      cut to the last eight entries. */
  predicate IsMerge(table: map<nat, Turn>, merged: seq<Turn>) {
    if merged == [] then table.Keys == {}
    else
      var hi := Last(merged).turnSeq;
      && |merged| <= MAX_TURNS
      && Contiguous(merged)
      && (forall i :: 0 <= i < |merged| ==> merged[i].turnSeq in table && merged[i] == table[merged[i].turnSeq])
      && (forall s :: s in table ==> s <= hi)
      && (|merged| == MAX_TURNS || merged[0].turnSeq - 1 !in table)
  }

  /** The merge is determined by the table. */
  lemma MergeIsUnique(table: map<nat, Turn>, a: seq<Turn>, b: seq<Turn>)
    requires TableOk(table) && IsMerge(table, a) && IsMerge(table, b)
    ensures a == b
  {
    if a != [] && b != [] {
      assert Last(a).turnSeq == Last(b).turnSeq;
      MergeLength(table, a, b);
      MergeLength(table, b, a);
      assert a[0].turnSeq == b[0].turnSeq;
    }
  }

  lemma MergeHolds(table: map<nat, Turn>, b: seq<Turn>, s: int)
    requires IsMerge(table, b) && b != []
    ensures Last(b).turnSeq - |b| < s <= Last(b).turnSeq ==> s in table
  {
    if Last(b).turnSeq - |b| < s <= Last(b).turnSeq {
      assert b[|b| - 1 - (Last(b).turnSeq - s)].turnSeq == s;
    }
  }

  lemma MergeLength(table: map<nat, Turn>, a: seq<Turn>, b: seq<Turn>)
    requires TableOk(table) && IsMerge(table, a) && IsMerge(table, b) && a != [] && b != []
    requires Last(a).turnSeq == Last(b).turnSeq
    ensures |a| >= |b|
  {
    MergeHolds(table, b, a[0].turnSeq - 1);
  }

  method SortedKeys(table: map<nat, Turn>) returns (keys: seq<nat>)
    ensures SetOf(keys) == table.Keys
    ensures forall i, j :: 0 <= i < j < |keys| ==> keys[i] < keys[j]
  {
    keys := [];
    var rest := table.Keys;
    while rest != {}
      invariant SetOf(keys) + rest == table.Keys
      invariant forall i, j :: 0 <= i < j < |keys| ==> keys[i] < keys[j]
      invariant forall i, s :: 0 <= i < |keys| && s in rest ==> keys[i] < s
      decreases rest
    {
      var least :| least in rest;
      var others := rest - {least};
      while others != {}
        invariant least in rest && others <= rest
        invariant forall s :: s in rest && s !in others ==> least <= s
        decreases others
      {
        var s :| s in others;
        if s < least {
          least := s;
        }
        others := others - {s};
      }
      assert SetOf(keys + [least]) == SetOf(keys) + {least};
      keys := keys + [least];
      rest := rest - {least};
    }
  }

  /** Merge repeated overlap with a new suffix, as receivers of a pose do. */
  method MergePoseTurns(previous: seq<RawTurn>, incoming: seq<RawTurn>) returns (merged: seq<Turn>)
    ensures IsMerge(Table(previous + incoming), merged)
  {
    var bySeq := BuildTable(previous + incoming);
    TableIsOk(previous + incoming);
    if bySeq.Keys == {} {
      return [];
    }
    var contiguous := LongestRun(bySeq);
    merged := Tail(contiguous, MAX_TURNS);
  }

  method BuildTable(all: seq<RawTurn>) returns (bySeq: map<nat, Turn>)
    ensures bySeq == Table(all)
  {
    bySeq := map[];
    for i := 0 to |all|
      invariant bySeq == Table(all[..i])
    {
      assert all[..i + 1][..i] == all[..i];
      var clean := NormalizeTurn(all[i]);
      if clean.Some? {
        bySeq := bySeq[clean.value.turnSeq := clean.value];
      }
    }
    assert all[..|all|] == all;
  }

  /** `run` holds the entries of the keys from `i` on, and they follow on without a gap. */
  predicate RunsFrom(table: map<nat, Turn>, keys: seq<nat>, i: nat, run: seq<Turn>) {
    && i < |keys| && |run| == |keys| - i && Contiguous(run)
    && forall k :: 0 <= k < |run| ==> run[k].turnSeq == keys[i + k] && keys[i + k] in table && run[k] == table[keys[i + k]]
  }

  lemma RunGrows(table: map<nat, Turn>, keys: seq<nat>, i: nat, run: seq<Turn>)
    requires RunsFrom(table, keys, i, run) && i > 0 && TableOk(table) && keys[i - 1] in table
    requires keys[i - 1] == run[0].turnSeq - 1
    ensures RunsFrom(table, keys, i - 1, [table[keys[i - 1]]] + run)
  {
    var longer := [table[keys[i - 1]]] + run;
    forall k | 0 <= k < |longer|
      ensures longer[k].turnSeq == keys[i - 1 + k] && keys[i - 1 + k] in table && longer[k] == table[keys[i - 1 + k]]
      ensures longer[k].turnSeq == longer[0].turnSeq + k
    {
      if k > 0 {
        assert longer[k] == run[k - 1];
        assert run[k - 1].turnSeq == run[0].turnSeq + (k - 1);
      }
    }
  }

  /** Walk down from the highest number until the first gap. */
  method LongestRun(table: map<nat, Turn>) returns (contiguous: seq<Turn>)
    requires TableOk(table) && table.Keys != {}
    ensures contiguous != [] && Contiguous(contiguous)
    ensures forall k :: 0 <= k < |contiguous| ==> contiguous[k].turnSeq in table && contiguous[k] == table[contiguous[k].turnSeq]
    ensures forall s :: s in table ==> s <= Last(contiguous).turnSeq
    ensures contiguous[0].turnSeq - 1 !in table
  {
    var seqs := SortedKeys(table);
    KeysAreSorted(table, seqs);
    contiguous := [table[seqs[|seqs| - 1]]];
    var i := |seqs| - 1;
    assert RunsFrom(table, seqs, i, contiguous);
    hide SetOf, RunsFrom, Contiguous;
    while i > 0
      invariant 0 <= i < |seqs| && contiguous != []
      invariant RunsFrom(table, seqs, i, contiguous)
    {
      if seqs[i - 1] != contiguous[0].turnSeq - 1 {
        break;
      }
      RunGrows(table, seqs, i, contiguous);
      contiguous := [table[seqs[i - 1]]] + contiguous;
      i := i - 1;
    }
    RunEnds(table, seqs, i, contiguous);
    GapBefore(table, seqs, i, contiguous[0].turnSeq);
  }

  lemma RunEnds(table: map<nat, Turn>, keys: seq<nat>, i: nat, run: seq<Turn>)
    requires RunsFrom(table, keys, i, run) && TableOk(table)
    ensures run != [] && Contiguous(run) && run[0].turnSeq == keys[i] > 0 && Last(run).turnSeq == Last(keys)
    ensures forall k :: 0 <= k < |run| ==> run[k].turnSeq in table && run[k] == table[run[k].turnSeq]
  {
  }

  lemma KeysAreSorted(table: map<nat, Turn>, keys: seq<nat>)
    requires SetOf(keys) == table.Keys && table.Keys != {}
    requires forall i, j :: 0 <= i < j < |keys| ==> keys[i] < keys[j]
    ensures keys != [] && (forall k :: 0 <= k < |keys| ==> keys[k] in table)
    ensures forall s :: s in table ==> s <= Last(keys)
  {
    assert keys == [] ==> SetOf(keys) == {};
    assert forall s :: s in table <==> s in SetOf(keys);
    assert forall k :: 0 <= k < |keys| ==> keys[k] in SetOf(keys);
  }

  lemma GapBefore(table: map<nat, Turn>, keys: seq<nat>, i: nat, s: nat)
    requires SetOf(keys) == table.Keys && i < |keys| && keys[i] == s && s > 0
    requires forall a, b :: 0 <= a < b < |keys| ==> keys[a] < keys[b]
    ensures i == 0 || keys[i - 1] != s - 1 ==> s - 1 !in table
  {
    if i == 0 || keys[i - 1] != s - 1 {
      forall k | 0 <= k < |keys|
        ensures keys[k] != s - 1
      {
      }
      assert s - 1 !in SetOf(keys);
    }
  }

  // ---------------------------------------------------------------- the server

  datatype TurnError =
    | TooManyTurns | BadTurnShape | BadTurnSeq | TurnsNotOrdered | BadTurnMoveSeq | BadTurnCell
    | BadFromDir | BadToDir | StaleTurnOverlap | TurnOverlapMismatch | TurnSuffixNotContiguous
    | TurnSeqRegression

  datatype Journal = Journal(highest: nat, turns: seq<Turn>)

  predicate HasSeq(ts: seq<Turn>, s: nat) {
    exists k :: 0 <= k < |ts| && ts[k].turnSeq == s
  }

  /** The stored entry with number `s`; later entries win. */
  function EntryOf(ts: seq<Turn>, s: nat): (r: Option<Turn>)
    ensures r.None? ==> !HasSeq(ts, s)
    ensures r.Some? ==> r.value in ts && r.value.turnSeq == s
  {
    if ts == [] then None
    else if Last(ts).turnSeq == s then Some(Last(ts))
    else EntryOf(ts[..|ts| - 1], s)
  }

  function CleanEntry(r: RawTurn, prior: nat, w: nat, h: nat): Result<Turn, TurnError> {
    if !r.exact then Err(BadTurnShape)
    else if r.turnSeq.None? || r.turnSeq.value <= 0 then Err(BadTurnSeq)
    else if r.turnSeq.value <= prior then Err(TurnsNotOrdered)
    else if r.moveSeq.None? || r.moveSeq.value < 0 then Err(BadTurnMoveSeq)
    else if r.at.None? || !InBounds(r.at.value, w, h) then Err(BadTurnCell)
    else if r.fromDir.None? then Err(BadFromDir)
    else if r.toDir.None? then Err(BadToDir)
    else Ok(Turn(r.turnSeq.value, r.at.value, r.fromDir.value, r.toDir.value, r.moveSeq.value))
  }

  /** One entry against the stored journal: repeated entries must match, new ones must follow on. */
  function CheckEntry(prev: Journal, t: Turn, expected: nat): Option<TurnError> {
    if t.turnSeq <= prev.highest then
      match EntryOf(prev.turns, t.turnSeq)
      case None => Some(StaleTurnOverlap)
      case Some(stored) => if stored != t then Some(TurnOverlapMismatch) else None
    else if t.turnSeq != expected then Some(TurnSuffixNotContiguous)
    else None
  }

  /** The number the next new entry must carry once `accepted` have been checked. */
  function Expected(prev: Journal, accepted: seq<Turn>): nat {
    if accepted == [] then prev.highest + 1
    else if Last(accepted).turnSeq > prev.highest then Expected(prev, accepted[..|accepted| - 1]) + 1
    else Expected(prev, accepted[..|accepted| - 1])
  }

  /** Check the first `n` incoming entries, stopping at the first error. */
  function CheckEntries(prev: Journal, incoming: seq<RawTurn>, n: nat, w: nat, h: nat): (r: Result<seq<Turn>, TurnError>)
    requires n <= |incoming|
    ensures r.Ok? ==> |r.value| == n
  {
    if n == 0 then Ok([])
    else
      var before := CheckEntries(prev, incoming, n - 1, w, h);
      if before.Err? then before
      else
        var accepted := before.value;
        var prior := if accepted == [] then 0 else Last(accepted).turnSeq;
        var entry := CleanEntry(incoming[n - 1], prior, w, h);
        if entry.Err? then Err(entry.error)
        else
          var problem := CheckEntry(prev, entry.value, Expected(prev, accepted));
          if problem.Some? then Err(problem.value) else Ok(accepted + [entry.value])
  }

  function NewerThan(ts: seq<Turn>, s: nat): seq<Turn> {
    if ts == [] then []
    else NewerThan(ts[..|ts| - 1], s) + (if Last(ts).turnSeq > s then [Last(ts)] else [])
  }

  function MergeJournal(prev: Journal, accepted: seq<Turn>): Journal {
    var turns := Tail(prev.turns + NewerThan(accepted, prev.highest), MAX_TURNS);
    Journal(if turns == [] then prev.highest else Last(turns).turnSeq, turns)
  }

  function Validate(prev: Journal, incoming: seq<RawTurn>, w: nat, h: nat): Result<Journal, TurnError> {
    if |incoming| > MAX_TURNS then Err(TooManyTurns)
    else
      var checked := CheckEntries(prev, incoming, |incoming|, w, h);
      if checked.Err? then Err(checked.error)
      else if checked.value != [] && Last(checked.value).turnSeq < prev.highest then Err(TurnSeqRegression)
      else Ok(MergeJournal(prev, checked.value))
  }

  /** The server's validation: check every entry, then append the new ones and trim. */
  method ValidateNativeTurns(prev: Journal, incoming: seq<RawTurn>, w: nat, h: nat) returns (r: Result<Journal, TurnError>)
    ensures r == Validate(prev, incoming, w, h)
  {
    if |incoming| > MAX_TURNS {
      return Err(TooManyTurns);
    }
    var checked := NormalizeAll(prev, incoming, w, h);
    if checked.Err? {
      return Err(checked.error);
    }
    var normalized := checked.value;
    if normalized != [] && normalized[|normalized| - 1].turnSeq < prev.highest {
      return Err(TurnSeqRegression);
    }
    var merged := AppendNew(prev, normalized);
    return Ok(merged);
  }

  method AppendNew(prev: Journal, normalized: seq<Turn>) returns (j: Journal)
    ensures j == MergeJournal(prev, normalized)
  {
    var merged := prev.turns;
    for k := 0 to |normalized|
      invariant merged == prev.turns + NewerThan(normalized[..k], prev.highest)
    {
      assert normalized[..k + 1][..k] == normalized[..k];
      if normalized[k].turnSeq > prev.highest {
        merged := merged + [normalized[k]];
      }
    }
    assert normalized[..|normalized|] == normalized;
    if |merged| > MAX_TURNS {
      merged := merged[|merged| - MAX_TURNS..];
    }
    j := Journal(if merged == [] then prev.highest else merged[|merged| - 1].turnSeq, merged);
  }

  method NormalizeAll(prev: Journal, incoming: seq<RawTurn>, w: nat, h: nat) returns (r: Result<seq<Turn>, TurnError>)
    ensures r == CheckEntries(prev, incoming, |incoming|, w, h)
  {
    var normalized: seq<Turn> := [];
    var priorInPayload := 0;
    var expectedNew := prev.highest + 1;
    for i := 0 to |incoming|
      invariant CheckEntries(prev, incoming, i, w, h) == Ok(normalized)
      invariant priorInPayload == if normalized == [] then 0 else Last(normalized).turnSeq
      invariant expectedNew == Expected(prev, normalized)
    {
      CheckStops(prev, incoming, i + 1, w, h);
      var entry := CleanEntry(incoming[i], priorInPayload, w, h);
      if entry.Err? {
        return Err(entry.error);
      }
      var t := entry.value;
      priorInPayload := t.turnSeq;
      if t.turnSeq <= prev.highest {
        var stored := EntryOf(prev.turns, t.turnSeq);
        if stored.None? {
          return Err(StaleTurnOverlap);
        }
        if stored.value != t {
          return Err(TurnOverlapMismatch);
        }
      } else {
        if t.turnSeq != expectedNew {
          return Err(TurnSuffixNotContiguous);
        }
        expectedNew := expectedNew + 1;
      }
      assert (normalized + [t])[..|normalized|] == normalized;
      normalized := normalized + [t];
    }
    return Ok(normalized);
  }

  /** An error among the first entries is the error of the whole list. */
  lemma {:induction false} CheckStops(prev: Journal, incoming: seq<RawTurn>, n: nat, w: nat, h: nat)
    requires n <= |incoming|
    ensures CheckEntries(prev, incoming, n, w, h).Err? ==>
              CheckEntries(prev, incoming, |incoming|, w, h) == CheckEntries(prev, incoming, n, w, h)
    decreases |incoming| - n
  {
    if n < |incoming| && CheckEntries(prev, incoming, n, w, h).Err? {
      CheckStops(prev, incoming, n + 1, w, h);
    }
  }

  // ---------------------------------------------------------------- what validation keeps

  /** A journal is the gap-free window of the last eight turns up to `highest`. */
  predicate JournalOk(j: Journal) {
    && |j.turns| == Min(j.highest, MAX_TURNS)
    && forall k :: 0 <= k < |j.turns| ==> j.turns[k].turnSeq == j.highest - |j.turns| + k + 1
  }

  lemma {:induction false} CheckedShape(prev: Journal, incoming: seq<RawTurn>, n: nat, w: nat, h: nat)
    requires n <= |incoming| && CheckEntries(prev, incoming, n, w, h).Ok?
    ensures var accepted := CheckEntries(prev, incoming, n, w, h).value;
            var newer := NewerThan(accepted, prev.highest);
            && Expected(prev, accepted) == prev.highest + |newer| + 1
            && (forall k :: 0 <= k < |newer| ==> newer[k].turnSeq == prev.highest + k + 1)
            && (forall k :: 0 <= k < |accepted| && accepted[k].turnSeq <= prev.highest ==> accepted[k] in prev.turns)
            && (newer != [] ==> accepted != [] && Last(accepted) == Last(newer))
    decreases n
  {
    if n > 0 {
      CheckedShape(prev, incoming, n - 1, w, h);
      var before := CheckEntries(prev, incoming, n - 1, w, h).value;
      var accepted := CheckEntries(prev, incoming, n, w, h).value;
      assert accepted[..|accepted| - 1] == before;
      var newer := NewerThan(before, prev.highest);
      if newer != [] {
        assert Last(accepted).turnSeq > Last(before).turnSeq;
      }
    }
  }

  /** An accepted list leaves a gap-free window that never goes backwards and keeps the
      stored entries. */
  lemma ValidateKeepsJournal(prev: Journal, incoming: seq<RawTurn>, w: nat, h: nat)
    requires JournalOk(prev) && Validate(prev, incoming, w, h).Ok?
    ensures var next := Validate(prev, incoming, w, h).value;
            && JournalOk(next)
            && next.highest >= prev.highest
            && (forall k :: 0 <= k < |next.turns| && next.turns[k].turnSeq <= prev.highest ==> next.turns[k] in prev.turns)
  {
    CheckedShape(prev, incoming, |incoming|, w, h);
    var accepted := CheckEntries(prev, incoming, |incoming|, w, h).value;
    JournalGrows(prev, NewerThan(accepted, prev.highest));
  }

  lemma JournalGrows(prev: Journal, newer: seq<Turn>)
    requires JournalOk(prev)
    requires forall k :: 0 <= k < |newer| ==> newer[k].turnSeq == prev.highest + k + 1
    ensures var turns := Tail(prev.turns + newer, MAX_TURNS);
            && JournalOk(Journal(prev.highest + |newer|, turns))
            && (if turns == [] then prev.highest else Last(turns).turnSeq) == prev.highest + |newer|
            && (forall k :: 0 <= k < |turns| && turns[k].turnSeq <= prev.highest ==> turns[k] in prev.turns)
  {
    var whole := prev.turns + newer;
    var turns := Tail(whole, MAX_TURNS);
    var first := |whole| - |turns|;
    forall k | 0 <= k < |turns|
      ensures turns[k].turnSeq == prev.highest + |newer| - |turns| + k + 1
      ensures turns[k].turnSeq <= prev.highest ==> turns[k] in prev.turns
    {
      assert turns[k] == whole[first + k];
    }
  }

  /** Entries an accepted list repeats are the stored ones. */
  lemma OverlapIsStored(prev: Journal, incoming: seq<RawTurn>, w: nat, h: nat, k: nat)
    requires JournalOk(prev) && Validate(prev, incoming, w, h).Ok? && k < |incoming|
    ensures incoming[k].turnSeq.Some?
    ensures incoming[k].turnSeq.value <= prev.highest ==>
              exists t :: t in prev.turns && incoming[k] == Raw(t)
  {
    CheckedShape(prev, incoming, |incoming|, w, h);
    AcceptedEntries(prev, incoming, |incoming|, w, h);
    var accepted := CheckEntries(prev, incoming, |incoming|, w, h).value;
    assert incoming[k] == Raw(accepted[k]);
  }

  lemma {:induction false} AcceptedEntries(prev: Journal, incoming: seq<RawTurn>, n: nat, w: nat, h: nat)
    requires n <= |incoming| && CheckEntries(prev, incoming, n, w, h).Ok?
    ensures forall k :: 0 <= k < n ==>
              incoming[k] == Raw(CheckEntries(prev, incoming, n, w, h).value[k])
    decreases n
  {
    if n > 0 {
      AcceptedEntries(prev, incoming, n - 1, w, h);
    }
  }

  // ---------------------------------------------------------------- what validation accepts

  /** An entry with the five fields, positive number, known directions and a cell of the board. */
  predicate CleanRaw(r: RawTurn, w: nat, h: nat) {
    && r.exact && r.turnSeq.Some? && r.turnSeq.value > 0 && r.moveSeq.Some? && r.moveSeq.value >= 0
    && r.at.Some? && 0 <= r.at.value.x < w && 0 <= r.at.value.y < h && r.fromDir.Some? && r.toDir.Some?
  }

  function NumberOf(r: RawTurn): int {
    r.turnSeq.GetOr(0)
  }

  /** The last number known before entry `k`: that of the entry before it, or of the journal. */
  function Before(prev: Journal, incoming: seq<RawTurn>, k: nat): int
    requires k <= |incoming|
  {
    if k == 0 || NumberOf(incoming[k - 1]) <= prev.highest then prev.highest else NumberOf(incoming[k - 1])
  }

  /** Entry `k` is clean, numbered above the one before it, and either repeats a stored turn word for
      word or carries the next number. */
  predicate Continues(prev: Journal, incoming: seq<RawTurn>, k: nat, w: nat, h: nat)
    requires k < |incoming|
  {
    && CleanRaw(incoming[k], w, h)
    && (k > 0 ==> NumberOf(incoming[k - 1]) < NumberOf(incoming[k]))
    && if NumberOf(incoming[k]) <= prev.highest then exists t :: t in prev.turns && incoming[k] == Raw(t)
       else NumberOf(incoming[k]) == Before(prev, incoming, k) + 1
  }

  lemma {:induction false} EntryIsUnique(ts: seq<Turn>, t: Turn)
    requires forall i, j :: 0 <= i < j < |ts| ==> ts[i].turnSeq != ts[j].turnSeq
    ensures EntryOf(ts, t.turnSeq) == Some(t) <==> t in ts
    decreases |ts|
  {
    if ts != [] {
      EntryIsUnique(ts[..|ts| - 1], t);
      assert t in ts <==> t in ts[..|ts| - 1] || t == Last(ts);
    }
  }

  lemma CleanIsRaw(r: RawTurn, prior: nat, w: nat, h: nat)
    ensures CleanEntry(r, prior, w, h).Ok? <==> CleanRaw(r, w, h) && r.turnSeq.value > prior
    ensures CleanEntry(r, prior, w, h).Ok? ==> r == Raw(CleanEntry(r, prior, w, h).value)
  {
  }

  lemma CheckedEntry(prev: Journal, t: Turn, expected: nat)
    requires JournalOk(prev)
    ensures CheckEntry(prev, t, expected).None? <==> if t.turnSeq <= prev.highest then t in prev.turns else t.turnSeq == expected
  {
    EntryIsUnique(prev.turns, t);
  }

  /** `accepted` is what the first `n` entries say, and the server expects the number after theirs. */
  predicate Checked(prev: Journal, incoming: seq<RawTurn>, n: nat, accepted: seq<Turn>)
    requires n <= |incoming|
  {
    && |accepted| == n && (forall k :: 0 <= k < n ==> incoming[k] == Raw(accepted[k]))
    && Expected(prev, accepted) == Before(prev, incoming, n) + 1
  }

  function PriorOf(accepted: seq<Turn>): nat {
    if accepted == [] then 0 else Last(accepted).turnSeq
  }

  lemma CheckUnfolds(prev: Journal, incoming: seq<RawTurn>, n: nat, accepted: seq<Turn>, w: nat, h: nat)
    requires n < |incoming| && CheckEntries(prev, incoming, n, w, h) == Ok(accepted)
    ensures var entry := CleanEntry(incoming[n], PriorOf(accepted), w, h);
            CheckEntries(prev, incoming, n + 1, w, h) ==
              if entry.Err? then Err(entry.error)
              else if CheckEntry(prev, entry.value, Expected(prev, accepted)).Some? then Err(CheckEntry(prev, entry.value, Expected(prev, accepted)).value)
              else Ok(accepted + [entry.value])
  {
    hide CleanEntry, CheckEntry, Expected;
  }

  lemma ContinuesIs(prev: Journal, incoming: seq<RawTurn>, n: nat, accepted: seq<Turn>, w: nat, h: nat)
    requires JournalOk(prev) && n < |incoming| && Checked(prev, incoming, n, accepted)
    ensures var entry := CleanEntry(incoming[n], PriorOf(accepted), w, h);
            Continues(prev, incoming, n, w, h) <==>
              entry.Ok? && CheckEntry(prev, entry.value, Expected(prev, accepted)).None?
  {
    var prior := PriorOf(accepted);
    CleanIsRaw(incoming[n], prior, w, h);
    assert n > 0 ==> incoming[n - 1] == Raw(accepted[n - 1]);
    var entry := CleanEntry(incoming[n], prior, w, h);
    if entry.Ok? {
      CheckedEntry(prev, entry.value, Expected(prev, accepted));
      StoredRaw(prev, entry.value);
    }
    hide CleanEntry, CheckEntry, JournalOk, Expected;
  }

  lemma NextIsChecked(prev: Journal, incoming: seq<RawTurn>, n: nat, accepted: seq<Turn>, w: nat, h: nat)
    requires JournalOk(prev) && n < |incoming| && Checked(prev, incoming, n, accepted)
    requires CheckEntries(prev, incoming, n, w, h) == Ok(accepted)
    ensures CheckEntries(prev, incoming, n + 1, w, h).Ok? <==> Continues(prev, incoming, n, w, h)
    ensures CheckEntries(prev, incoming, n + 1, w, h).Ok? ==>
              Checked(prev, incoming, n + 1, CheckEntries(prev, incoming, n + 1, w, h).value)
  {
    hide JournalOk, CleanEntry, CheckEntry, CleanRaw, CheckEntries;
    CheckUnfolds(prev, incoming, n, accepted, w, h);
    ContinuesIs(prev, incoming, n, accepted, w, h);
    if Continues(prev, incoming, n, w, h) {
      var t := CleanEntry(incoming[n], PriorOf(accepted), w, h).value;
      CleanIsRaw(incoming[n], PriorOf(accepted), w, h);
      ExpectedNext(prev, accepted, t);
    }
  }

  lemma ExpectedNext(prev: Journal, accepted: seq<Turn>, t: Turn)
    ensures Expected(prev, accepted + [t]) == if t.turnSeq > prev.highest then Expected(prev, accepted) + 1 else Expected(prev, accepted)
  {
    assert (accepted + [t])[..|accepted|] == accepted;
  }

  lemma {:induction false} ChecksExactly(prev: Journal, incoming: seq<RawTurn>, n: nat, w: nat, h: nat)
    requires JournalOk(prev) && n <= |incoming|
    ensures CheckEntries(prev, incoming, n, w, h).Ok? <==> forall k :: 0 <= k < n ==> Continues(prev, incoming, k, w, h)
    ensures CheckEntries(prev, incoming, n, w, h).Ok? ==> Checked(prev, incoming, n, CheckEntries(prev, incoming, n, w, h).value)
    decreases n
  {
    if n > 0 {
      ChecksExactly(prev, incoming, n - 1, w, h);
      var before := CheckEntries(prev, incoming, n - 1, w, h);
      hide JournalOk, Checked, Continues;
      if before.Ok? {
        NextIsChecked(prev, incoming, n - 1, before.value, w, h);
      } else {
        assert CheckEntries(prev, incoming, n, w, h).Err?;
      }
    }
  }

  /** A list is accepted exactly when it has at most eight entries, each of which continues the journal
      or repeats it, and does not stop short of the last number stored. */
  lemma AcceptedExactly(prev: Journal, incoming: seq<RawTurn>, w: nat, h: nat)
    requires JournalOk(prev)
    ensures Validate(prev, incoming, w, h).Ok? <==>
              && |incoming| <= MAX_TURNS
              && (forall k :: 0 <= k < |incoming| ==> Continues(prev, incoming, k, w, h))
              && (incoming != [] ==> NumberOf(Last(incoming)) >= prev.highest)
  {
    ChecksExactly(prev, incoming, |incoming|, w, h);
    hide Continues, CheckEntries, JournalOk, MergeJournal;
  }

  lemma {:induction false} NewerHolds(ts: seq<Turn>, n: nat, t: Turn)
    ensures t in NewerThan(ts, n) <==> t in ts && t.turnSeq > n
    decreases |ts|
  {
    if ts != [] {
      NewerHolds(ts[..|ts| - 1], n, t);
      assert ts == ts[..|ts| - 1] + [Last(ts)];
    }
  }

  /** The journal an accepted list leaves: numbered up to the higher of the two, it holds exactly those
      of the old and the listed turns that are among the last eight numbers. */
  lemma JournalAfterwards(prev: Journal, incoming: seq<RawTurn>, w: nat, h: nat, t: Turn)
    requires JournalOk(prev) && Validate(prev, incoming, w, h).Ok?
    ensures var next := Validate(prev, incoming, w, h).value;
            && next.highest == (if incoming == [] then prev.highest else Max(prev.highest, NumberOf(Last(incoming))))
            && (t in next.turns <==> (t in prev.turns || Raw(t) in incoming) && t.turnSeq > next.highest - MAX_TURNS)
  {
    var accepted := CheckEntries(prev, incoming, |incoming|, w, h).value;
    var newer := NewerThan(accepted, prev.highest);
    var whole := prev.turns + newer;
    ChecksExactly(prev, incoming, |incoming|, w, h);
    CheckedShape(prev, incoming, |incoming|, w, h);
    JournalGrows(prev, newer);
    NewerHolds(accepted, prev.highest, t);
    if accepted != [] {
      NewerHolds(accepted, prev.highest, Last(accepted));
    }
    hide CheckEntries, NewerThan, Expected;
    assert t in accepted <==> Raw(t) in incoming by { hide Validate; RawMembers(accepted, incoming, t); }
    assert Validate(prev, incoming, w, h).value == MergeJournal(prev, accepted);
    hide Validate;
    TailHolds(whole, prev.highest + |newer|, t);
  }

  lemma RawMembers(accepted: seq<Turn>, incoming: seq<RawTurn>, t: Turn)
    requires |accepted| == |incoming| && forall k :: 0 <= k < |accepted| ==> incoming[k] == Raw(accepted[k])
    ensures t in accepted <==> Raw(t) in incoming
  {
    if t in accepted {
      var k :| 0 <= k < |accepted| && accepted[k] == t;
      assert incoming[k] == Raw(t);
    }
    if Raw(t) in incoming {
      var k :| 0 <= k < |incoming| && incoming[k] == Raw(t);
      assert accepted[k] == t;
    }
  }

  lemma TailHolds(whole: seq<Turn>, top: nat, t: Turn)
    requires |whole| <= top && forall k :: 0 <= k < |whole| ==> whole[k].turnSeq == top - |whole| + k + 1
    ensures t in Tail(whole, MAX_TURNS) <==> t in whole && t.turnSeq > top - MAX_TURNS
  {
    var tail := Tail(whole, MAX_TURNS);
    if t in whole && t.turnSeq > top - MAX_TURNS {
      var k :| 0 <= k < |whole| && whole[k] == t;
      assert tail[k - (|whole| - |tail|)] == t;
    }
    if t in tail {
      var k :| 0 <= k < |tail| && tail[k] == t;
      assert whole[k + (|whole| - |tail|)] == t;
    }
  }

  lemma StoredRaw(prev: Journal, t: Turn)
    ensures t in prev.turns <==> exists u :: u in prev.turns && Raw(t) == Raw(u)
  {
  }
}
