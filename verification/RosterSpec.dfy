/** Who is in the room: the admin, players and spectators, seat order and snake colours. */
module RosterSpec {
  import opened Prelude
  import opened RoomTypes
  import C = Colors

  const MAX_CONNECTIONS: nat := 30
  const MAX_RACE_PLAYERS: nat := 9
  const MAX_COOP_PLAYERS: nat := 4

  function CapOf(mode: Mode): nat {
    if mode == Race then MAX_RACE_PLAYERS else MAX_COOP_PLAYERS
  }

  function Players(cs: map<ClientId, Client>): set<ClientId> {
    set id | id in cs && cs[id].role == Player
  }

  function ReadyPlayers(cs: map<ClientId, Client>): set<ClientId> {
    set id | id in cs && cs[id].role == Player && cs[id].ready
  }

  predicate AllPlayersReady(cs: map<ClientId, Client>) {
    Players(cs) != {} && forall id :: id in cs && cs[id].role == Player ==> cs[id].ready
  }

  // ---------------------------------------------------------------- orders

  ghost predicate IsOldest(cs: map<ClientId, Client>, id: ClientId) {
    id in cs && forall k :: k in cs ==> cs[id].joinOrder <= cs[k].joinOrder
  }

  lemma {:induction false} SomeOldest(cs: map<ClientId, Client>, ids: set<ClientId>) returns (id: ClientId)
    requires ids != {} && forall k :: k in ids ==> k in cs
    ensures id in ids && forall k :: k in ids ==> cs[id].joinOrder <= cs[k].joinOrder
    decreases |ids|
  {
    id :| id in ids;
    if ids != {id} {
      assert ids - {id} != {};
      var other := SomeOldest(cs, ids - {id});
      if cs[other].joinOrder < cs[id].joinOrder {
        id := other;
      }
    }
  }

  /** The longest-connected client becomes admin. */
  ghost function NextAdmin(cs: map<ClientId, Client>): (r: Option<ClientId>)
    ensures cs == map[] ==> r == None
    ensures cs != map[] ==> r.Some? && IsOldest(cs, r.value)
  {
    if cs == map[] then None
    else
      assert exists id :: IsOldest(cs, id) by { NonEmptyKeys(cs); var id := SomeOldest(cs, cs.Keys); assert IsOldest(cs, id); }
      var id :| IsOldest(cs, id);
      Some(id)
  }

  lemma NonEmptyKeys<K, V>(m: map<K, V>)
    ensures m != map[] <==> m.Keys != {}
  {
    if m.Keys == {} {
      assert m == map[];
    }
  }

  /** Seat order: earlier promotion first, then earlier arrival. */
  predicate Before(a: Client, b: Client) {
    || (a.promoteOrder.Some? && (b.promoteOrder.None? || a.promoteOrder.value < b.promoteOrder.value))
    || (a.promoteOrder == b.promoteOrder && a.joinOrder < b.joinOrder)
  }

  ghost predicate IsFirst(cs: map<ClientId, Client>, ids: set<ClientId>, id: ClientId) {
    id in ids && id in cs && forall k :: k in ids && k in cs && k != id ==> Before(cs[id], cs[k])
  }

  predicate JoinsApart(cs: map<ClientId, Client>) {
    forall a, b :: a in cs && b in cs && a != b ==> cs[a].joinOrder != cs[b].joinOrder
  }

  lemma {:induction false} SomeFirst(cs: map<ClientId, Client>, ids: set<ClientId>) returns (id: ClientId)
    requires ids != {} && JoinsApart(cs) && forall k :: k in ids ==> k in cs
    ensures IsFirst(cs, ids, id)
    decreases |ids|
  {
    id :| id in ids;
    if ids != {id} {
      assert ids - {id} != {};
      var other := SomeFirst(cs, ids - {id});
      if Before(cs[other], cs[id]) {
        id := other;
      }
    }
  }

  /** The players `ids` in seat order. */
  ghost function SeatOrder(cs: map<ClientId, Client>, ids: set<ClientId>): seq<ClientId>
    requires JoinsApart(cs) && forall k :: k in ids ==> k in cs
    decreases |ids|
  {
    if ids == {} then []
    else
      assert exists id :: IsFirst(cs, ids, id) by { var id := SomeFirst(cs, ids); }
      var id :| IsFirst(cs, ids, id);
      [id] + SeatOrder(cs, ids - {id})
  }

  lemma FirstIsUnique(cs: map<ClientId, Client>, ids: set<ClientId>, a: ClientId, b: ClientId)
    requires IsFirst(cs, ids, a) && IsFirst(cs, ids, b)
    ensures a == b
  {
  }

  /** Seat order lists each player once, every earlier seat promoted before every later one. */
  lemma {:induction false} SeatOrderIsSorted(cs: map<ClientId, Client>, ids: set<ClientId>)
    requires JoinsApart(cs) && forall k :: k in ids ==> k in cs
    ensures var s := SeatOrder(cs, ids);
            && SetOf(s) == ids && |s| == |ids| && NoDup(s)
            && (forall i, j :: 0 <= i < j < |s| ==> Before(cs[s[i]], cs[s[j]]))
    decreases |ids|
  {
    if ids != {} {
      var s := SeatOrder(cs, ids);
      var id := s[0];
      SeatOrderIsSorted(cs, ids - {id});
      var rest := SeatOrder(cs, ids - {id});
      assert s == [id] + rest;
      assert IsFirst(cs, ids, id);
      assert forall k :: k in rest <==> k in SetOf(rest);
      assert forall k :: k in s <==> k == id || k in rest;
      assert SetOf(s) == ids;
    } else {
      assert SetOf(SeatOrder(cs, ids)) == {};
    }
  }

  // ---------------------------------------------------------------- colours

  function ColorsOf(cs: map<ClientId, Client>, ids: set<ClientId>): set<nat> {
    set id | id in ids && id in cs && cs[id].color.Some? :: cs[id].color.value
  }

  predicate NeedsColor(color: Option<nat>, taken: set<nat>) {
    color.None? || !C.Claimable(color.value) || color.value in taken
  }

  /** A promoted player keeps a colour nobody else plays, or takes the first free one. */
  function WithFreeColor(cs: map<ClientId, Client>, id: ClientId): map<ClientId, Client>
    requires id in cs
  {
    var taken := ColorsOf(cs, Players(cs) - {id});
    if NeedsColor(cs[id].color, taken) && C.FirstFree(taken).Some?
    then cs[id := cs[id].(color := C.FirstFree(taken))]
    else cs
  }

  /** Readying up in co-op moves to the next colour that no ready player holds. */
  function WithReadyColor(cs: map<ClientId, Client>, id: ClientId): map<ClientId, Client>
    requires id in cs
  {
    var taken := ColorsOf(cs, ReadyPlayers(cs) - {id});
    var free := C.NextFree(cs[id].color.GetOr(0), taken);
    if NeedsColor(cs[id].color, taken) && free.Some?
    then cs[id := cs[id].(color := free)]
    else cs
  }

  /** Give each player in turn a colour none of the earlier ones holds. */
  function Rematched(cs: map<ClientId, Client>, ids: seq<ClientId>, seen: set<nat>): map<ClientId, Client>
    requires forall id :: id in ids ==> id in cs
    decreases |ids|
  {
    if ids == [] then cs
    else
      var color := cs[ids[0]].color;
      if !NeedsColor(color, seen) then Rematched(cs, ids[1..], seen + {color.value})
      else
        match C.FirstFree(seen)
        case None => Rematched(cs, ids[1..], seen)
        case Some(free) => Rematched(cs[ids[0] := cs[ids[0]].(color := Some(free))], ids[1..], seen + {free})
  }

  // ---------------------------------------------------------------- changes

  ghost function Joined(ro: Roster, id: ClientId): Roster {
    Roster(ro.clients[id := Client(Spectator, false, None, ro.joinSeq + 1, None)],
           if ro.clients == map[] then Some(id) else ro.admin, ro.joinSeq + 1, ro.promoteSeq)
  }

  ghost function Departed(ro: Roster, id: ClientId): Roster {
    var rest := ro.clients - {id};
    ro.(clients := rest, admin := if ro.admin == Some(id) then NextAdmin(rest) else ro.admin)
  }

  function Promoted(ro: Roster, mode: Mode, id: ClientId): Roster
    requires id in ro.clients
  {
    var cs := ro.clients[id := ro.clients[id].(role := Player, ready := false, promoteOrder := Some(ro.promoteSeq + 1))];
    ro.(promoteSeq := ro.promoteSeq + 1, clients := if mode == Coop then WithFreeColor(cs, id) else cs)
  }

  function Lowered(c: Client): Client {
    c.(role := Spectator, ready := false, promoteOrder := None)
  }

  function Demoted(ro: Roster, id: ClientId): Roster
    requires id in ro.clients
  {
    ro.(clients := ro.clients[id := Lowered(ro.clients[id])])
  }

  function Readied(ro: Roster, mode: Mode, id: ClientId, ready: bool): Roster
    requires id in ro.clients
  {
    var cs := if ready && mode == Coop then WithReadyColor(ro.clients, id) else ro.clients;
    ro.(clients := cs[id := cs[id].(ready := ready)])
  }

  function Painted(ro: Roster, id: ClientId, color: nat): Roster
    requires id in ro.clients
  {
    ro.(clients := ro.clients[id := ro.clients[id].(color := Some(color))])
  }

  /** Is the colour locked by another ready player? */
  predicate ColorLocked(cs: map<ClientId, Client>, id: ClientId, color: nat) {
    exists k :: k in cs && k != id && cs[k].color == Some(color) && cs[k].role == Player && cs[k].ready
  }

  function NobodyReady(ro: Roster): Roster {
    ro.(clients := map id | id in ro.clients :: ro.clients[id].(ready := false))
  }

  /** Co-op holds four: the players promoted last step down. */
  ghost function Kept(cs: map<ClientId, Client>): set<ClientId>
    requires JoinsApart(cs)
  {
    var order := SeatOrder(cs, Players(cs));
    if |order| <= MAX_COOP_PLAYERS then Players(cs) else SetOf(order[..MAX_COOP_PLAYERS])
  }

  function KeepOnly(cs: map<ClientId, Client>, kept: set<ClientId>): map<ClientId, Client> {
    map id | id in cs :: if cs[id].role == Player && id !in kept then Lowered(cs[id]) else cs[id]
  }

  /** The members of a finite set in ascending order. */
  ghost function Ascending(ids: set<ClientId>): seq<ClientId>
    decreases |ids|
  {
    if ids == {} then []
    else
      assert exists id :: IsLeast(ids, id) by { var id := SomeLeast(ids); }
      var id :| IsLeast(ids, id);
      [id] + Ascending(ids - {id})
  }

  ghost predicate IsLeast(ids: set<ClientId>, id: ClientId) {
    id in ids && forall k :: k in ids ==> id <= k
  }

  lemma {:induction false} SomeLeast(ids: set<ClientId>) returns (id: ClientId)
    requires ids != {}
    ensures IsLeast(ids, id)
    decreases |ids|
  {
    id :| id in ids;
    if ids != {id} {
      assert ids - {id} != {};
      var other := SomeLeast(ids - {id});
      assert forall k :: k in ids ==> k == id || k in ids - {id};
      if other < id {
        id := other;
      }
    }
  }

  lemma {:induction false} AscendingLists(ids: set<ClientId>)
    ensures SetOf(Ascending(ids)) == ids && NoDup(Ascending(ids))
    decreases |ids|
  {
    var s := Ascending(ids);
    if ids == {} {
      assert SetOf(s) == {};
    } else {
      var id := s[0];
      var rest := Ascending(ids - {id});
      assert s == [id] + rest;
      AscendingLists(ids - {id});
      assert IsLeast(ids, id) && id !in SetOf(rest);
      assert forall k :: k in rest <==> k in SetOf(rest);
      assert forall k :: k in s <==> k == id || k in rest;
      assert SetOf(s) == ids;
    }
  }

  /** The roster of a room that has just switched to co-op. */
  ghost function Trimmed(ro: Roster): Roster
    requires JoinsApart(ro.clients)
  {
    var cs := KeepOnly(ro.clients, Kept(ro.clients));
    AscendingLists(Players(cs));
    assert forall id :: id in Ascending(Players(cs)) <==> id in SetOf(Ascending(Players(cs)));
    ro.(clients := Rematched(cs, Ascending(Players(cs)), {}))
  }

  // ---------------------------------------------------------------- the invariant

  /** Somebody is admin exactly when somebody is there, and the admin is there. */
  predicate AdminOk(ro: Roster) {
    && (ro.admin.Some? <==> ro.clients != map[])
    && (ro.admin.Some? ==> ro.admin.value in ro.clients)
  }

  predicate ClientOk(ro: Roster, c: Client) {
    && c.joinOrder <= ro.joinSeq
    && (c.role == Player <==> c.promoteOrder.Some?)
    && (c.promoteOrder.Some? ==> c.promoteOrder.value <= ro.promoteSeq)
    && (c.ready ==> c.role == Player)
  }

  predicate ClientsOk(ro: Roster) {
    forall id :: id in ro.clients ==> ClientOk(ro, ro.clients[id])
  }

  predicate PromotionsApart(cs: map<ClientId, Client>) {
    forall a, b :: a in cs && b in cs && a != b && cs[a].promoteOrder.Some? ==> cs[a].promoteOrder != cs[b].promoteOrder
  }

  /** Ready players of a co-op room hold claimable, pairwise distinct colours. */
  predicate ColorsLocked(cs: map<ClientId, Client>) {
    && (forall id :: id in ReadyPlayers(cs) ==> cs[id].color.Some? && C.Claimable(cs[id].color.value))
    && (forall a, b :: a in ReadyPlayers(cs) && b in ReadyPlayers(cs) && a != b ==> cs[a].color != cs[b].color)
  }

  /** Arrival and promotion numbers are within bounds and tell clients apart. */
  predicate OrdersOk(ro: Roster) {
    ClientsOk(ro) && JoinsApart(ro.clients) && PromotionsApart(ro.clients)
  }

  predicate RosterOk(ro: Roster, mode: Mode) {
    && AdminOk(ro) && OrdersOk(ro)
    && |ro.clients| <= MAX_CONNECTIONS
    && |Players(ro.clients)| <= CapOf(mode)
    && (mode == Coop ==> ColorsLocked(ro.clients))
  }
}
