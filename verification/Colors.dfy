/** The snake palette and the searches for a free colour. */
module Colors {
  import opened Prelude

  datatype Kind = Solid | Rainbow | Random

  datatype Color = Color(id: nat, kind: Kind)

  const PALETTE_SIZE: nat := 47

  function KindOf(id: nat): Kind {
    if id == 46 then Random
    else if id == 10 || 35 <= id <= 45 then Rainbow
    else Solid
  }

  /** The palette in table order. */
  function Palette(): (r: seq<Color>)
    ensures |r| == PALETTE_SIZE
    ensures forall i :: 0 <= i < |r| ==> r[i] == Color(i, KindOf(i))
  {
    seq(PALETTE_SIZE, i requires 0 <= i < PALETTE_SIZE => Color(i, KindOf(i)))
  }

  predicate Claimable(id: nat) {
    exists i :: 0 <= i < PALETTE_SIZE && Palette()[i].id == id && Palette()[i].kind != Random
  }

  /** Exactly the first 46 identifiers can be claimed. */
  lemma ClaimableRange(id: nat)
    ensures Claimable(id) <==> id < 46
  {
    if id < 46 {
      assert Palette()[id].id == id;
    }
  }

  const CLAIMABLE: nat := 46

  // ---------------------------------------------------------------- what the searches find

  /** `c` is the first colour, in table order, that may be claimed and is not taken. */
  predicate IsFirstFree(c: Option<nat>, taken: set<nat>) {
    match c
    case Some(id) => Claimable(id) && id !in taken && forall d :: 0 <= d < id ==> !Claimable(d) || d in taken
    case None => forall d :: 0 <= d < PALETTE_SIZE ==> !Claimable(d) || d in taken
  }

  /** Steps from the colour after `from` to `c`, going round the claimable colours. */
  function StepsAfter(from: nat, c: nat): nat {
    var start := if Claimable(from) then (from + 1) % CLAIMABLE else 0;
    (c + CLAIMABLE - start) % CLAIMABLE
  }

  /** `c` is the free claimable colour met first when going round after `from`. */
  predicate IsNextFree(c: Option<nat>, from: nat, taken: set<nat>) {
    match c
    case Some(id) =>
      && Claimable(id) && id !in taken
      && forall d :: 0 <= d < CLAIMABLE && d !in taken ==> StepsAfter(from, id) <= StepsAfter(from, d)
    case None => forall d :: 0 <= d < CLAIMABLE ==> d in taken
  }

  /** The colour `k` places round from `start`. */
  function Ring(start: nat, k: nat): nat {
    (start + k) % CLAIMABLE
  }

  function FirstFreeFrom(i: nat, taken: set<nat>): Option<nat>
    requires i <= PALETTE_SIZE
    decreases PALETTE_SIZE - i
  {
    if i == PALETTE_SIZE then None
    else if KindOf(i) != Random && i !in taken then Some(i)
    else FirstFreeFrom(i + 1, taken)
  }

  function FirstFree(taken: set<nat>): Option<nat> {
    FirstFreeFrom(0, taken)
  }

  function NextFreeFrom(start: nat, offset: nat, taken: set<nat>): Option<nat>
    requires offset <= CLAIMABLE
    decreases CLAIMABLE - offset
  {
    if offset == CLAIMABLE then None
    else if Ring(start, offset) !in taken then Some(Ring(start, offset))
    else NextFreeFrom(start, offset + 1, taken)
  }

  function NextFree(from: nat, taken: set<nat>): Option<nat> {
    NextFreeFrom(if Claimable(from) then (from + 1) % CLAIMABLE else 0, 0, taken)
  }

  lemma {:induction false} FirstFreeScan(i: nat, taken: set<nat>)
    requires i <= PALETTE_SIZE && forall d :: 0 <= d < i ==> !Claimable(d) || d in taken
    ensures IsFirstFree(FirstFreeFrom(i, taken), taken)
    decreases PALETTE_SIZE - i
  {
    if i < PALETTE_SIZE {
      ClaimableRange(i);
      if KindOf(i) == Random || i in taken {
        FirstFreeScan(i + 1, taken);
      }
    }
  }

  lemma FirstFreeIsFirst(taken: set<nat>)
    ensures IsFirstFree(FirstFree(taken), taken)
  {
    FirstFreeScan(0, taken);
  }

  lemma Around(start: nat, c: nat)
    requires start < CLAIMABLE && c < CLAIMABLE
    ensures var k := (c + CLAIMABLE - start) % CLAIMABLE; k < CLAIMABLE && Ring(start, k) == c
  {
  }

  lemma AroundBack(start: nat, k: nat)
    requires start < CLAIMABLE && k < CLAIMABLE
    ensures (Ring(start, k) + CLAIMABLE - start) % CLAIMABLE == k
  {
  }

  lemma {:induction false} NextFreeScan(start: nat, offset: nat, taken: set<nat>)
    requires start < CLAIMABLE && offset <= CLAIMABLE
    requires forall k :: 0 <= k < offset ==> Ring(start, k) in taken
    ensures var c := NextFreeFrom(start, offset, taken);
            match c
            case Some(id) =>
              exists n :: 0 <= n < CLAIMABLE && id == Ring(start, n) && id !in taken && forall k :: 0 <= k < n ==> Ring(start, k) in taken
            case None => forall k :: 0 <= k < CLAIMABLE ==> Ring(start, k) in taken
    decreases CLAIMABLE - offset
  {
    if offset < CLAIMABLE && Ring(start, offset) in taken {
      NextFreeScan(start, offset + 1, taken);
    }
  }

  /** The wrapping search returns the cyclically first free colour. */
  lemma NextFreeIsNext(from: nat, taken: set<nat>)
    ensures IsNextFree(NextFree(from, taken), from, taken)
  {
    ClaimableRange(from);
    var start := if from < CLAIMABLE then (from + 1) % CLAIMABLE else 0;
    NextFreeScan(start, 0, taken);
    match NextFree(from, taken)
    case None =>
      forall d | 0 <= d < CLAIMABLE
        ensures d in taken
      {
        Around(start, d);
      }
    case Some(id) =>
      var n :| 0 <= n < CLAIMABLE && id == Ring(start, n) && id !in taken && forall k :: 0 <= k < n ==> Ring(start, k) in taken;
      AroundBack(start, n);
      ClaimableRange(id);
      forall d | 0 <= d < CLAIMABLE && d !in taken
        ensures StepsAfter(from, id) <= StepsAfter(from, d)
      {
        Around(start, d);
      }
  }

  /** Fewer taken colours than the palette holds leave both searches with an answer. */
  lemma SomeColorIsFree(from: nat, taken: set<nat>)
    requires |taken| < CLAIMABLE
    ensures FirstFree(taken).Some? && NextFree(from, taken).Some?
  {
    var d := Spare(CLAIMABLE, taken);
    FirstFreeIsFirst(taken);
    NextFreeIsNext(from, taken);
    ClaimableRange(d);
  }

  lemma {:induction false} Spare(n: nat, taken: set<nat>) returns (d: nat)
    requires |taken| < n
    ensures d < n && d !in taken
    decreases n
  {
    if n - 1 !in taken {
      d := n - 1;
    } else {
      d := Spare(n - 1, taken - {n - 1});
    }
  }

  // ---------------------------------------------------------------- the loops

  method FirstFreeClaimable(taken: set<nat>) returns (c: Option<nat>)
    ensures c == FirstFree(taken)
  {
    for i := 0 to PALETTE_SIZE
      invariant FirstFree(taken) == FirstFreeFrom(i, taken)
    {
      if Palette()[i].kind == Random {
        continue;
      }
      if Palette()[i].id !in taken {
        return Some(Palette()[i].id);
      }
    }
    return None;
  }

  method NextFreeClaimable(from: nat, taken: set<nat>) returns (c: Option<nat>)
    ensures c == NextFree(from, taken)
  {
    ClaimableRange(from);
    var start := if from < CLAIMABLE then (from + 1) % CLAIMABLE else 0;
    for offset := 0 to CLAIMABLE
      invariant NextFree(from, taken) == NextFreeFrom(start, offset, taken)
    {
      var id := Ring(start, offset);
      if id !in taken {
        return Some(id);
      }
    }
    return None;
  }
}
