/** Which colour a player ends up with: nobody loses a colour that is free to keep, and whoever does
    gets the first, or the next, that is free. */
module RosterColors {
  import opened Prelude
  import opened RoomTypes
  import opened RosterSpec
  import opened RosterInv
  import C = Colors

  /** The colours worn by these clients. */
  function Worn(cs: map<ClientId, Client>, ids: set<ClientId>): set<nat> {
    set id | id in ids && id in cs && cs[id].color.Some? :: cs[id].color.value
  }

  /** A colour that can be claimed and is not worn. */
  predicate Keepable(color: Option<nat>, worn: set<nat>) {
    color.Some? && color.value < 46 && color.value !in worn
  }

  lemma KeepableIs(color: Option<nat>, worn: set<nat>)
    ensures Keepable(color, worn) <==> !NeedsColor(color, worn)
  {
    if color.Some? {
      C.ClaimableRange(color.value);
    }
    hide C.Claimable;
  }

  /** In co-op a promoted player keeps a colour that no other player wears, and otherwise gets the first
      one that none does. In a race nobody's colour changes. */
  lemma PromotionPicksColor(ro: Roster, mode: Mode, id: ClientId)
    requires id in ro.clients && |Worn(ro.clients, Players(ro.clients) - {id})| < 46
    ensures var worn := Worn(ro.clients, Players(ro.clients) - {id});
            var color := Promoted(ro, mode, id).clients[id].color;
            if mode == Race || Keepable(ro.clients[id].color, worn) then color == ro.clients[id].color
            else color.Some? && C.IsFirstFree(color, worn)
  {
    var cs := ro.clients[id := ro.clients[id].(role := Player, ready := false, promoteOrder := Some(ro.promoteSeq + 1))];
    var worn := Worn(ro.clients, Players(ro.clients) - {id});
    assert Players(cs) - {id} == Players(ro.clients) - {id};
    assert ColorsOf(cs, Players(cs) - {id}) == worn;
    KeepableIs(ro.clients[id].color, worn);
    C.FirstFreeIsFirst(worn);
    C.SomeColorIsFree(0, worn);
    hide C.FirstFree, C.Claimable, NeedsColor, Keepable, C.IsFirstFree, C.NextFree;
  }

  /** In co-op a player that readies up keeps a colour that no other ready player wears, and otherwise
      moves on to the next free one after its own. */
  lemma ReadyPicksColor(ro: Roster, mode: Mode, id: ClientId, ready: bool)
    requires id in ro.clients && |Worn(ro.clients, ReadyPlayers(ro.clients) - {id})| < 46
    ensures var worn := Worn(ro.clients, ReadyPlayers(ro.clients) - {id});
            var color := Readied(ro, mode, id, ready).clients[id].color;
            if !ready || mode == Race || Keepable(ro.clients[id].color, worn) then color == ro.clients[id].color
            else color.Some? && C.IsNextFree(color, ro.clients[id].color.GetOr(0), worn)
  {
    var worn := Worn(ro.clients, ReadyPlayers(ro.clients) - {id});
    assert ColorsOf(ro.clients, ReadyPlayers(ro.clients) - {id}) == worn;
    KeepableIs(ro.clients[id].color, worn);
    C.NextFreeIsNext(ro.clients[id].color.GetOr(0), worn);
    C.SomeColorIsFree(ro.clients[id].color.GetOr(0), worn);
    hide C.FirstFree, C.Claimable, NeedsColor, Keepable, C.IsNextFree, C.NextFree;
  }

  /** The colours already dealt when player `k` of a rematch has its turn. */
  function Dealt(next: map<ClientId, Client>, ids: seq<ClientId>, seen: set<nat>, k: nat): set<nat>
    requires k <= |ids|
  {
    seen + Worn(next, SetOf(ids[..k]))
  }

  /** A rematch goes round the players in order: each keeps a colour that none of those before it ended
      up with, and otherwise gets the first one that none did. */
  lemma {:induction false} RematchDealsInOrder(cs: map<ClientId, Client>, ids: seq<ClientId>, seen: set<nat>, k: nat)
    requires NoDup(ids) && (forall id :: id in ids ==> id in cs) && |seen| + |ids| < C.CLAIMABLE && k < |ids|
    ensures var next := Rematched(cs, ids, seen);
            && ids[k] in next
            && var dealt := Dealt(next, ids, seen, k);
               if Keepable(cs[ids[k]].color, dealt) then next[ids[k]].color == cs[ids[k]].color
               else next[ids[k]].color.Some? && C.IsFirstFree(next[ids[k]].color, dealt)
    decreases |ids|
  {
    var first := ids[0];
    C.SomeColorIsFree(0, seen);
    C.FirstFreeIsFirst(seen);
    KeepableIs(cs[first].color, seen);
    hide C.Claimable, C.FirstFree, C.NextFree, NeedsColor, C.IsFirstFree, Keepable;
    var color := if !NeedsColor(cs[first].color, seen) then cs[first].color.value else C.FirstFree(seen).value;
    assert !NeedsColor(cs[first].color, seen) ==> cs[first].color.Some? by { NeedyIsSome(cs[first].color, seen); }
    var dealt := cs[first := cs[first].(color := Some(color))];
    var next := Rematched(cs, ids, seen);
    assert dealt == cs || NeedsColor(cs[first].color, seen);
    assert next == Rematched(dealt, ids[1..], seen + {color});
    RematchChanges(dealt, ids[1..], seen + {color});
    assert first !in ids[1..];
    assert next[first].color == Some(color);
    if k == 0 {
      assert Dealt(next, ids, seen, 0) == seen;
    } else {
      RematchDealsInOrder(dealt, ids[1..], seen + {color}, k - 1);
      DealtOnward(next, ids, seen, color, k);
      assert dealt[ids[k]] == cs[ids[k]];
    }
  }

  lemma NeedyIsSome(color: Option<nat>, seen: set<nat>)
    ensures !NeedsColor(color, seen) ==> color.Some?
  {
  }

  lemma DealtOnward(next: map<ClientId, Client>, ids: seq<ClientId>, seen: set<nat>, color: nat, k: nat)
    requires 0 < k <= |ids| && ids[0] in next && next[ids[0]].color == Some(color)
    ensures Dealt(next, ids, seen, k) == Dealt(next, ids[1..], seen + {color}, k - 1)
  {
    assert ids[..k] == [ids[0]] + ids[1..][..k - 1];
    assert SetOf(ids[..k]) == {ids[0]} + SetOf(ids[1..][..k - 1]);
    assert Worn(next, SetOf(ids[..k])) == {color} + Worn(next, SetOf(ids[1..][..k - 1]));
  }
}
