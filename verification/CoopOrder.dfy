/** The order of the snake list is invisible: stepping a permuted list gives the permuted
    result, with the same fruit list, score, generator state and outcome. */
module CoopOrder {
  import opened Prelude
  import opened Grid
  import opened CoopSpec
  import opened CoopBoard

  predicate Permutation(perm: seq<nat>, n: nat) {
    && |perm| == n
    && (forall i :: 0 <= i < n ==> perm[i] < n)
    && NoDup(perm)
  }

  /** `b` lists at place `i` the snake that `a` lists at place `perm[i]`. */
  predicate Reordered(a: seq<Snake>, b: seq<Snake>, perm: seq<nat>) {
    && Permutation(perm, |a|)
    && |b| == |a|
    && forall i :: 0 <= i < |b| ==> b[i] == a[perm[i]]
  }

  function Places(n: nat): (r: set<nat>)
    ensures |r| == n
    ensures forall i :: i in r <==> 0 <= i < n
  {
    if n == 0 then {} else Places(n - 1) + {n - 1}
  }

  /** Every place is the image of some place. */
  lemma PlaceOf(perm: seq<nat>, n: nat, j: nat) returns (i: nat)
    requires Permutation(perm, n) && j < n
    ensures i < n && perm[i] == j
  {
    NoDupCount(perm);
    SubsetCount(SetOf(perm), Places(n));
    assert j in SetOf(perm);
    i :| 0 <= i < n && perm[i] == j;
  }

  function Image(s: set<nat>, perm: seq<nat>): set<nat> {
    set i | i in s && i < |perm| :: perm[i]
  }

  lemma {:induction false} ImageCount(s: set<nat>, perm: seq<nat>)
    requires NoDup(perm) && forall i :: i in s ==> i < |perm|
    ensures |Image(s, perm)| == |s|
    decreases |s|
  {
    if s == {} {
      assert Image(s, perm) == {};
    } else {
      var i :| i in s;
      ImageCount(s - {i}, perm);
      assert Image(s, perm) == Image(s - {i}, perm) + {perm[i]};
      assert perm[i] !in Image(s - {i}, perm);
    }
  }

  lemma TurnReordered(a: seq<Snake>, b: seq<Snake>, perm: seq<nat>)
    requires Reordered(a, b, perm)
    ensures Reordered(TurnAll(a), TurnAll(b), perm)
  {
  }

  lemma FateReordered(w: nat, h: nat, a: seq<Snake>, b: seq<Snake>, perm: seq<nat>, i: nat)
    requires Reordered(a, b, perm) && i < |b|
    ensures Dies(w, h, b, i) == Dies(w, h, a, perm[i])
    ensures Survives(w, h, b, i) == Survives(w, h, a, perm[i])
  {
    if NextHead(b[i]).Some? {
      var p := NextHead(b[i]).value;
      HitReordered(a, b, perm, i, p);
      HeadOnReordered(a, b, perm, i, p);
    }
  }

  lemma HitReordered(a: seq<Snake>, b: seq<Snake>, perm: seq<nat>, i: nat, p: Point)
    requires Reordered(a, b, perm) && i < |b|
    ensures Hit(b, i, p) == Hit(a, perm[i], p)
  {
    if Hit(b, i, p) {
      var j :| 0 <= j < |b| && p in b[j].body && !(j == i && b[i].grow == 0 && p == Last(b[i].body));
      assert p in a[perm[j]].body;
    }
    if Hit(a, perm[i], p) {
      var j :| 0 <= j < |a| && p in a[j].body && !(j == perm[i] && a[perm[i]].grow == 0 && p == Last(a[perm[i]].body));
      var k := PlaceOf(perm, |a|, j);
      assert p in b[k].body;
    }
  }

  lemma HeadOnReordered(a: seq<Snake>, b: seq<Snake>, perm: seq<nat>, i: nat, p: Point)
    requires Reordered(a, b, perm) && i < |b|
    ensures HeadOn(b, i, p) == HeadOn(a, perm[i], p)
  {
    if HeadOn(b, i, p) {
      var j :| 0 <= j < |b| && j != i && NextHead(b[j]) == Some(p);
      assert NextHead(a[perm[j]]) == Some(p);
    }
    if HeadOn(a, perm[i], p) {
      var j :| 0 <= j < |a| && j != perm[i] && NextHead(a[j]) == Some(p);
      var k := PlaceOf(perm, |a|, j);
      assert NextHead(b[k]) == Some(p);
    }
  }

  lemma EatersReordered(w: nat, h: nat, a: seq<Snake>, b: seq<Snake>, perm: seq<nat>, fruit: seq<Point>)
    requires Reordered(a, b, perm)
    ensures |Eaters(w, h, b, fruit)| == |Eaters(w, h, a, fruit)|
    ensures Eaters(w, h, b, fruit) == {} <==> Eaters(w, h, a, fruit) == {}
  {
    var ea, eb := Eaters(w, h, a, fruit), Eaters(w, h, b, fruit);
    ImageCount(eb, perm);
    forall j: nat
      ensures j in Image(eb, perm) <==> j in ea
    {
      if j in Image(eb, perm) {
        var i :| i in eb && i < |perm| && perm[i] == j;
        FateReordered(w, h, a, b, perm, i);
      }
      if j in ea {
        var i := PlaceOf(perm, |a|, j);
        FateReordered(w, h, a, b, perm, i);
        assert i in eb;
      }
    }
    assert Image(eb, perm) == ea;
    if eb == {} {
      assert |ea| == 0;
    }
  }

  lemma EnteredReordered(w: nat, h: nat, a: seq<Snake>, b: seq<Snake>, perm: seq<nat>)
    requires Reordered(a, b, perm)
    ensures Entered(w, h, b) == Entered(w, h, a)
  {
    forall p
      ensures p in Entered(w, h, b) <==> p in Entered(w, h, a)
    {
      if p in Entered(w, h, b) {
        var i :| 0 <= i < |b| && Survives(w, h, b, i) && NextHead(b[i]).value == p;
        FateReordered(w, h, a, b, perm, i);
        assert Survives(w, h, a, perm[i]);
      }
      if p in Entered(w, h, a) {
        var j :| 0 <= j < |a| && Survives(w, h, a, j) && NextHead(a[j]).value == p;
        var i := PlaceOf(perm, |a|, j);
        FateReordered(w, h, a, b, perm, i);
        assert Survives(w, h, b, i);
      }
    }
  }

  lemma CoveredReordered(a: seq<Snake>, b: seq<Snake>, perm: seq<nat>)
    requires Reordered(a, b, perm)
    ensures Covered(a) == Covered(b)
  {
    forall p
      ensures p in Covered(a) <==> p in Covered(b)
    {
      CoveredMember(a, p);
      CoveredMember(b, p);
      if p in Covered(a) {
        var j :| 0 <= j < |a| && p in a[j].body;
        var i := PlaceOf(perm, |a|, j);
        assert p in b[i].body;
      }
      if p in Covered(b) {
        var i :| 0 <= i < |b| && p in b[i].body;
        assert p in a[perm[i]].body;
      }
    }
  }

  lemma AllDeadReordered(a: seq<Snake>, b: seq<Snake>, perm: seq<nat>)
    requires Reordered(a, b, perm)
    ensures AllSnakesDead(a) == AllSnakesDead(b)
  {
    forall j | 0 <= j < |a|
      ensures exists i :: 0 <= i < |b| && b[i] == a[j]
    {
      var i := PlaceOf(perm, |a|, j);
      assert b[i] == a[j];
    }
  }

  /** Two games that differ only in the order of the snake list. */
  predicate GamesReordered(a: Game, b: Game, perm: seq<nat>) {
    Reordered(a.snakes, b.snakes, perm) && b == a.(snakes := b.snakes)
  }

  lemma StepSnakeReordered(w: nat, h: nat, a: seq<Snake>, b: seq<Snake>, perm: seq<nat>, fruit: seq<Point>, i: nat)
    requires Reordered(a, b, perm) && i < |b|
    ensures StepSnake(w, h, b, fruit, i) == StepSnake(w, h, a, fruit, perm[i])
  {
    FateReordered(w, h, a, b, perm, i);
    hide Dies, Survives, Advance;
  }

  lemma MoveAllReordered(a: Game, b: Game, perm: seq<nat>)
    requires GamesReordered(a, b, perm)
    ensures GamesReordered(MoveAll(a), MoveAll(b), perm)
    ensures AteAny(a) == AteAny(b)
  {
    hide StepSnake, Entered, Eaters, Without, Permutation;
    var ta, tb := TurnAll(a.snakes), TurnAll(b.snakes);
    TurnReordered(a.snakes, b.snakes, perm);
    EnteredReordered(a.width, a.height, ta, tb, perm);
    EatersReordered(a.width, a.height, ta, tb, perm, a.fruit);
    assert Reordered(ta, tb, perm) && |ta| == |a.snakes|;
    PermutationInRange(perm, |a.snakes|);
    forall i | 0 <= i < |b.snakes|
      ensures MoveAll(b).snakes[i] == MoveAll(a).snakes[perm[i]]
    {
      StepSnakeReordered(a.width, a.height, ta, tb, perm, a.fruit, i);
    }
  }

  lemma PermutationInRange(perm: seq<nat>, n: nat)
    requires Permutation(perm, n)
    ensures |perm| == n && forall i :: 0 <= i < n ==> perm[i] < n
  {
  }

  lemma RefillReordered(a: Game, b: Game, perm: seq<nat>)
    requires GamesReordered(a, b, perm)
    ensures GamesReordered(Refill(a), Refill(b), perm)
    ensures GamesReordered(CheckDead(a), CheckDead(b), perm)
  {
    CoveredReordered(a.snakes, b.snakes, perm);
    AllDeadReordered(a.snakes, b.snakes, perm);
    hide Fill, FreeCells, Covered, AllSnakesDead;
  }

  /** One step of a reordered game is the reordered step: the sequential loops of the server
      decide nothing by list position. */
  lemma StepIgnoresOrder(a: Game, b: Game, perm: seq<nat>)
    requires GamesReordered(a, b, perm)
    ensures GamesReordered(Step(a), Step(b), perm)
  {
    MoveAllReordered(a, b, perm);
    RefillReordered(MoveAll(a), MoveAll(b), perm);
  }
}
