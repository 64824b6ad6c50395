/** What every change of the roster keeps. */
module RosterInv {
  import opened Prelude
  import opened RoomTypes
  import opened RosterSpec
  import C = Colors

  lemma ColorCount(cs: map<ClientId, Client>, ids: set<ClientId>)
    ensures |ColorsOf(cs, ids)| <= |ids|
    decreases |ids|
  {
    if ids == {} {
      assert ColorsOf(cs, ids) == {};
    } else {
      var id :| id in ids;
      ColorCount(cs, ids - {id});
      var rest := ColorsOf(cs, ids - {id});
      if id in cs && cs[id].color.Some? {
        assert ColorsOf(cs, ids) == rest + {cs[id].color.value};
      } else {
        assert ColorsOf(cs, ids) == rest;
      }
      assert |ids| == |ids - {id}| + 1;
    }
  }

  lemma SmallerSet(a: set<ClientId>, b: set<ClientId>)
    requires a <= b
    ensures |a| <= |b|
  {
    SubsetCount(a, b);
  }

  /** The player cap leaves every search for a colour with an answer. */
  lemma PaletteSuffices(cs: map<ClientId, Client>, ids: set<ClientId>, from: nat)
    requires |ids| <= MAX_RACE_PLAYERS
    ensures var taken := ColorsOf(cs, ids);
            && C.FirstFree(taken).Some? && C.NextFree(from, taken).Some?
            && C.IsFirstFree(C.FirstFree(taken), taken)
            && C.IsNextFree(C.NextFree(from, taken), from, taken)
  {
    ColorCount(cs, ids);
    C.SomeColorIsFree(from, ColorsOf(cs, ids));
    C.FirstFreeIsFirst(ColorsOf(cs, ids));
    C.NextFreeIsNext(from, ColorsOf(cs, ids));
  }

  lemma NewRosterOk(mode: Mode)
    ensures RosterOk(Roster(map[], None, 0, 0), mode)
  {
    assert Players(map[]) == {};
  }

  // ---------------------------------------------------------------- orders

  /** `b` has no client that `a` lacks, and none with a new arrival or promotion number. */
  predicate Derived(a: map<ClientId, Client>, b: map<ClientId, Client>) {
    forall k :: k in b ==>
                  && k in a && b[k].joinOrder == a[k].joinOrder
                  && (b[k].promoteOrder.None? || b[k].promoteOrder == a[k].promoteOrder)
                  && (b[k].role == Player <==> b[k].promoteOrder.Some?)
                  && (b[k].ready ==> b[k].role == Player)
  }

  lemma DerivedClients(ro: Roster, next: Roster)
    requires ClientsOk(ro) && Derived(ro.clients, next.clients) && next.joinSeq == ro.joinSeq && next.promoteSeq == ro.promoteSeq
    ensures ClientsOk(next)
  {
  }

  lemma DerivedJoins(a: map<ClientId, Client>, b: map<ClientId, Client>)
    requires JoinsApart(a) && Derived(a, b)
    ensures JoinsApart(b)
  {
  }

  lemma DerivedPromotions(a: map<ClientId, Client>, b: map<ClientId, Client>)
    requires PromotionsApart(a) && Derived(a, b)
    ensures PromotionsApart(b)
  {
  }

  lemma DerivedKeeps(ro: Roster, next: Roster)
    requires OrdersOk(ro) && Derived(ro.clients, next.clients) && next.joinSeq == ro.joinSeq && next.promoteSeq == ro.promoteSeq
    ensures OrdersOk(next) && |next.clients| <= |ro.clients|
  {
    hide ClientsOk, JoinsApart, PromotionsApart;
    DerivedClients(ro, next);
    DerivedJoins(ro.clients, next.clients);
    DerivedPromotions(ro.clients, next.clients);
    SmallerSet(next.clients.Keys, ro.clients.Keys);
    assert |next.clients| == |next.clients.Keys|;
    assert |ro.clients| == |ro.clients.Keys|;
  }

  /** Fewer ready players with the same colours are still locked. */
  lemma LockedSubset(a: map<ClientId, Client>, b: map<ClientId, Client>)
    requires ColorsLocked(a)
    requires forall id :: id in ReadyPlayers(b) ==> id in ReadyPlayers(a) && b[id].color == a[id].color
    ensures ColorsLocked(b)
  {
    hide C.Claimable;
  }

  lemma ClientIsOk(ro: Roster, id: ClientId)
    requires OrdersOk(ro) && id in ro.clients
    ensures ClientOk(ro, ro.clients[id])
  {
  }

  lemma OrdersGiveJoins(ro: Roster)
    requires OrdersOk(ro)
    ensures JoinsApart(ro.clients)
  {
  }

  lemma OneClientDerived(ro: Roster, id: ClientId, c: Client)
    requires OrdersOk(ro) && id in ro.clients && c.joinOrder == ro.clients[id].joinOrder
    requires c.promoteOrder.None? || c.promoteOrder == ro.clients[id].promoteOrder
    requires (c.role == Player <==> c.promoteOrder.Some?) && (c.ready ==> c.role == Player)
    ensures Derived(ro.clients, ro.clients[id := c])
    ensures ro.clients[id := c].Keys == ro.clients.Keys
  {
    hide JoinsApart, PromotionsApart;
  }

  // ---------------------------------------------------------------- arrivals and departures

  lemma JoinOrders(ro: Roster, id: ClientId)
    requires OrdersOk(ro) && id !in ro.clients
    ensures ClientsOk(Joined(ro, id)) && JoinsApart(Joined(ro, id).clients) && PromotionsApart(Joined(ro, id).clients)
  {
    hide PromotionsApart;
    assert ClientsOk(Joined(ro, id));
    JoinPromotions(ro, id);
  }

  lemma JoinPromotions(ro: Roster, id: ClientId)
    requires PromotionsApart(ro.clients)
    ensures PromotionsApart(Joined(ro, id).clients)
  {
  }

  lemma JoinKeeps(ro: Roster, mode: Mode, id: ClientId)
    requires RosterOk(ro, mode) && id !in ro.clients && |ro.clients| < MAX_CONNECTIONS
    ensures RosterOk(Joined(ro, id), mode)
    ensures Players(Joined(ro, id).clients) == Players(ro.clients)
  {
    hide C.Claimable, ClientsOk, JoinsApart, PromotionsApart, ColorsLocked;
    var next := Joined(ro, id);
    JoinOrders(ro, id);
    assert Players(next.clients) == Players(ro.clients);
    assert ReadyPlayers(next.clients) == ReadyPlayers(ro.clients);
    if mode == Coop {
      LockedSubset(ro.clients, next.clients);
    }
  }

  lemma LeaveSets(ro: Roster, id: ClientId)
    requires ClientsOk(ro)
    ensures var next := Departed(ro, id);
            && Derived(ro.clients, next.clients)
            && next.joinSeq == ro.joinSeq && next.promoteSeq == ro.promoteSeq
            && Players(next.clients) == Players(ro.clients) - {id}
            && ReadyPlayers(next.clients) == ReadyPlayers(ro.clients) - {id}
            && (forall k :: k in next.clients ==> next.clients[k] == ro.clients[k])
  {
    hide NextAdmin;
  }

  lemma LeaveAdmin(ro: Roster, id: ClientId)
    requires AdminOk(ro) && id in ro.clients
    ensures AdminOk(Departed(ro, id))
  {
    var rest := ro.clients - {id};
    NonEmptyKeys(rest);
    NonEmptyKeys(ro.clients);
    if ro.admin != Some(id) {
      assert ro.admin.value in rest;
    }
  }

  lemma LeaveKeeps(ro: Roster, mode: Mode, id: ClientId)
    requires RosterOk(ro, mode) && id in ro.clients
    ensures RosterOk(Departed(ro, id), mode)
    ensures Players(Departed(ro, id).clients) == Players(ro.clients) - {id}
  {
    LeaveSets(ro, id);
    LeaveAdmin(ro, id);
    hide OrdersOk, ColorsLocked, Derived, Departed, Players, ReadyPlayers, AdminOk;
    var next := Departed(ro, id);
    DerivedKeeps(ro, next);
    SmallerSet(Players(next.clients), Players(ro.clients));
    if mode == Coop {
      LeaveLocks(ro, id);
    }
  }

  lemma LeaveLocks(ro: Roster, id: ClientId)
    requires ClientsOk(ro) && ColorsLocked(ro.clients)
    ensures ColorsLocked(Departed(ro, id).clients)
  {
    LeaveSets(ro, id);
    hide ColorsLocked, Departed;
    LockedSubset(ro.clients, Departed(ro, id).clients);
  }

  // ---------------------------------------------------------------- roles

  lemma DemoteKeeps(ro: Roster, mode: Mode, id: ClientId)
    requires RosterOk(ro, mode) && id in ro.clients
    ensures RosterOk(Demoted(ro, id), mode)
    ensures Players(Demoted(ro, id).clients) == Players(ro.clients) - {id}
  {
    hide C.Claimable, OrdersOk, ColorsLocked, Derived;
    var next := Demoted(ro, id);
    OneClientDerived(ro, id, Lowered(ro.clients[id]));
    DerivedKeeps(ro, next);
    assert Players(next.clients) == Players(ro.clients) - {id};
    SmallerSet(Players(next.clients), Players(ro.clients));
    if mode == Coop {
      LockedSubset(ro.clients, next.clients);
    }
  }

  /** A free colour given to a player whose lock is off changes nobody else. */
  lemma FreeColorChanges(cs: map<ClientId, Client>, id: ClientId)
    requires id in cs
    ensures var next := WithFreeColor(cs, id);
            && next.Keys == cs.Keys
            && (forall k :: k in cs && k != id ==> next[k] == cs[k])
            && next[id] == cs[id].(color := next[id].color)
  {
    hide C.Claimable, C.FirstFree;
  }

  lemma PromoteOrders(ro: Roster, id: ClientId)
    requires OrdersOk(ro) && id in ro.clients
    ensures OrdersOk(Promoted(ro, Race, id))
  {
    var next := Promoted(ro, Race, id);
    assert JoinsApart(next.clients) by { hide PromotionsApart; }
    assert ClientsOk(next) by { hide PromotionsApart, JoinsApart; }
    assert PromotionsApart(next.clients) by { hide JoinsApart; }
  }

  /** Colours play no part in the orders or the roles. */
  lemma Recolored(ro: Roster, next: Roster)
    requires OrdersOk(ro)
    requires next == ro.(clients := next.clients) && next.clients.Keys == ro.clients.Keys
    requires forall k :: k in ro.clients ==> next.clients[k] == ro.clients[k].(color := next.clients[k].color)
    ensures OrdersOk(next) && |next.clients| <= |ro.clients|
    ensures Players(next.clients) == Players(ro.clients) && ReadyPlayers(next.clients) == ReadyPlayers(ro.clients)
  {
    assert Derived(ro.clients, next.clients) by { hide JoinsApart, PromotionsApart; }
    hide OrdersOk, Derived;
    DerivedKeeps(ro, next);
  }

  lemma PromoteSets(ro: Roster, id: ClientId)
    requires id in ro.clients && ro.clients[id].role == Spectator
    ensures var next := Promoted(ro, Race, id);
            && next.clients.Keys == ro.clients.Keys && |next.clients| == |ro.clients|
            && Players(next.clients) == Players(ro.clients) + {id}
            && ReadyPlayers(next.clients) == ReadyPlayers(ro.clients)
            && (ColorsLocked(ro.clients) ==> ColorsLocked(next.clients))
  {
    var next := Promoted(ro, Race, id);
    assert next.clients.Keys == ro.clients.Keys;
    assert |next.clients| == |next.clients.Keys| && |ro.clients| == |ro.clients.Keys|;
    assert Players(next.clients) == Players(ro.clients) + {id};
    assert ReadyPlayers(next.clients) == ReadyPlayers(ro.clients);
    hide C.Claimable;
  }

  lemma PromoteKeepsRace(ro: Roster, mode: Mode, id: ClientId)
    requires RosterOk(ro, mode) && id in ro.clients && ro.clients[id].role == Spectator
    requires |Players(ro.clients)| < CapOf(mode)
    ensures RosterOk(Promoted(ro, Race, id), mode)
    ensures Players(Promoted(ro, Race, id).clients) == Players(ro.clients) + {id}
  {
    PromotedIs(ro, Race, id);
    PromoteOrders(ro, id);
    PromoteSets(ro, id);
    hide OrdersOk, Players, ReadyPlayers, ColorsLocked, Promoted, RosterOk;
    PromoteAssembles(ro, Promoted(ro, Race, id), mode, id);
  }

  lemma PromoteAssembles(ro: Roster, next: Roster, mode: Mode, id: ClientId)
    requires RosterOk(ro, mode) && |Players(ro.clients)| < CapOf(mode)
    requires OrdersOk(next) && next.clients.Keys == ro.clients.Keys && |next.clients| == |ro.clients| && next.admin == ro.admin
    requires Players(next.clients) == Players(ro.clients) + {id} && (ColorsLocked(ro.clients) ==> ColorsLocked(next.clients))
    ensures RosterOk(next, mode)
  {
    hide OrdersOk, Players, ColorsLocked;
    NonEmptyKeys(ro.clients);
    NonEmptyKeys(next.clients);
  }

  lemma PromoteKeeps(ro: Roster, mode: Mode, id: ClientId)
    requires RosterOk(ro, mode) && id in ro.clients && ro.clients[id].role == Spectator
    requires |Players(ro.clients)| < CapOf(mode)
    ensures RosterOk(Promoted(ro, mode, id), mode)
    ensures Players(Promoted(ro, mode, id).clients) == Players(ro.clients) + {id}
  {
    PromoteKeepsRace(ro, mode, id);
    if mode == Coop {
      var plain := Promoted(ro, Race, id);
      PromotedIs(ro, Coop, id);
      FreeColorChanges(plain.clients, id);
      hide WithFreeColor, Promoted;
      RecolorKeeps(plain, Promoted(ro, Coop, id), id);
    }
  }

  /** A new colour for one client that is not ready. */
  lemma RecolorKeeps(ro: Roster, next: Roster, id: ClientId)
    requires RosterOk(ro, Coop) && id in ro.clients && !ro.clients[id].ready
    requires next == ro.(clients := next.clients) && next.clients.Keys == ro.clients.Keys
    requires forall k :: k in ro.clients && k != id ==> next.clients[k] == ro.clients[k]
    requires next.clients[id] == ro.clients[id].(color := next.clients[id].color)
    ensures RosterOk(next, Coop) && Players(next.clients) == Players(ro.clients)
  {
    hide OrdersOk, Players, ReadyPlayers, ColorsLocked;
    Recolored(ro, next);
    SameLocks(ro.clients, next.clients, id);
    NonEmptyKeys(ro.clients);
    NonEmptyKeys(next.clients);
  }

  lemma PromotedIs(ro: Roster, mode: Mode, id: ClientId)
    requires id in ro.clients
    ensures var plain := Promoted(ro, Race, id);
            && id in plain.clients && !plain.clients[id].ready && plain.admin == ro.admin
            && Promoted(ro, mode, id) == plain.(clients := if mode == Coop then WithFreeColor(plain.clients, id) else plain.clients)
  {
  }

  lemma SameLocks(a: map<ClientId, Client>, b: map<ClientId, Client>, id: ClientId)
    requires ColorsLocked(a) && ReadyPlayers(b) == ReadyPlayers(a) && id in a && !a[id].ready
    requires a.Keys == b.Keys && forall k :: k in a && k != id ==> b[k] == a[k]
    ensures ColorsLocked(b)
  {
    hide ColorsLocked;
    LockedSubset(a, b);
  }

  /** After a promotion in co-op the new player holds a claimable colour no other player has. */
  lemma PromotedColor(ro: Roster, id: ClientId)
    requires RosterOk(ro, Coop) && id in ro.clients && ro.clients[id].role == Spectator
    requires |Players(ro.clients)| < CapOf(Coop)
    ensures var cs := Promoted(ro, Coop, id).clients;
            && cs[id].color.Some? && C.Claimable(cs[id].color.value)
            && forall k :: k in cs && k != id && cs[k].role == Player ==> cs[k].color != cs[id].color
  {
    var cs := Promoted(ro, Race, id).clients;
    assert Players(cs) - {id} == Players(ro.clients);
    PaletteSuffices(cs, Players(cs) - {id}, 0);
    FreeColorChanges(cs, id);
    hide C.Claimable, C.FirstFree, C.NextFree;
    var next := WithFreeColor(cs, id);
    forall k | k in next && k != id && next[k].role == Player && next[k].color.Some?
      ensures next[k].color.value in ColorsOf(cs, Players(cs) - {id})
    {
      assert k in Players(cs) - {id};
    }
  }

  // ---------------------------------------------------------------- ready and colour

  lemma ReadyColorChanges(cs: map<ClientId, Client>, id: ClientId)
    requires id in cs && |Players(cs)| <= MAX_COOP_PLAYERS
    ensures var next := WithReadyColor(cs, id);
            && next.Keys == cs.Keys
            && (forall k :: k in cs && k != id ==> next[k] == cs[k])
            && next[id] == cs[id].(color := next[id].color)
            && next[id].color.Some? && C.Claimable(next[id].color.value)
            && next[id].color.value !in ColorsOf(cs, ReadyPlayers(cs) - {id})
  {
    SmallerSet(ReadyPlayers(cs) - {id}, Players(cs));
    PaletteSuffices(cs, ReadyPlayers(cs) - {id}, cs[id].color.GetOr(0));
    hide C.Claimable, C.FirstFree, C.NextFree;
  }

  lemma ReadyDerived(ro: Roster, mode: Mode, id: ClientId, ready: bool)
    requires OrdersOk(ro) && id in ro.clients && ro.clients[id].role == Player
    ensures var next := Readied(ro, mode, id, ready).clients;
            && next == ro.clients[id := next[id]]
            && next[id] == ro.clients[id].(ready := ready, color := next[id].color)
            && Derived(ro.clients, next) && next.Keys == ro.clients.Keys && Players(next) == Players(ro.clients)
  {
    var next := Readied(ro, mode, id, ready).clients;
    ReadyOnlyColors(ro.clients, id);
    hide WithReadyColor, OrdersOk, Derived;
    ClientIsOk(ro, id);
    assert next == ro.clients[id := next[id]];
    OneClientDerived(ro, id, next[id]);
    assert Players(next) == Players(ro.clients);
  }

  lemma ReadyOnlyColors(cs: map<ClientId, Client>, id: ClientId)
    requires id in cs
    ensures var next := WithReadyColor(cs, id);
            && next.Keys == cs.Keys
            && (forall k :: k in cs && k != id ==> next[k] == cs[k])
            && next[id] == cs[id].(color := next[id].color)
  {
    hide C.Claimable, C.NextFree;
  }

  lemma ReadyKeeps(ro: Roster, mode: Mode, id: ClientId, ready: bool)
    requires RosterOk(ro, mode) && id in ro.clients && ro.clients[id].role == Player
    ensures RosterOk(Readied(ro, mode, id, ready), mode)
    ensures Players(Readied(ro, mode, id, ready).clients) == Players(ro.clients)
  {
    var next := Readied(ro, mode, id, ready);
    ReadyDerived(ro, mode, id, ready);
    if mode == Coop {
      ReadyColorChanges(ro.clients, id);
      ReadyLocksAll(ro, id, ready);
    }
    hide Readied, OrdersOk, ColorsLocked, Derived, ReadyPlayers, Players;
    DerivedKeeps(ro, next);
    ReadyTouches(ro, mode, id, ready);
  }

  lemma ReadyTouches(ro: Roster, mode: Mode, id: ClientId, ready: bool)
    requires id in ro.clients
    ensures var next := Readied(ro, mode, id, ready); next == ro.(clients := next.clients)
  {
  }

  lemma ReadyLocksAll(ro: Roster, id: ClientId, ready: bool)
    requires ColorsLocked(ro.clients) && id in ro.clients && |Players(ro.clients)| <= MAX_COOP_PLAYERS
    ensures ColorsLocked(Readied(ro, Coop, id, ready).clients)
  {
    var next := Readied(ro, Coop, id, ready);
    ReadyColorChanges(ro.clients, id);
    hide C.Claimable, WithReadyColor, ColorsLocked;
    if ready {
      ReadyLocks(ro.clients, next.clients, id);
    } else {
      LockedSubset(ro.clients, next.clients);
    }
  }

  lemma ReadyLocks(a: map<ClientId, Client>, b: map<ClientId, Client>, id: ClientId)
    requires ColorsLocked(a) && id in a && b.Keys == a.Keys && (forall k :: k in a && k != id ==> b[k] == a[k])
    requires b[id].role == Player && b[id].ready ==>
               b[id].color.Some? && C.Claimable(b[id].color.value) && b[id].color.value !in ColorsOf(a, ReadyPlayers(a) - {id})
    ensures ColorsLocked(b)
  {
    hide C.Claimable;
    forall k | k in ReadyPlayers(b) && k != id
      ensures k in ReadyPlayers(a) && b[k].color == a[k].color
      ensures a[k].color.Some? ==> a[k].color.value in ColorsOf(a, ReadyPlayers(a) - {id})
    {
    }
  }

  lemma PaintKeeps(ro: Roster, mode: Mode, id: ClientId, color: nat)
    requires RosterOk(ro, mode) && id in ro.clients && C.Claimable(color)
    requires mode == Coop ==> !ColorLocked(ro.clients, id, color)
    ensures RosterOk(Painted(ro, id, color), mode)
    ensures Players(Painted(ro, id, color).clients) == Players(ro.clients)
  {
    hide C.Claimable, OrdersOk, ColorsLocked, Derived;
    var next := Painted(ro, id, color);
    ClientIsOk(ro, id);
    OneClientDerived(ro, id, next.clients[id]);
    DerivedKeeps(ro, next);
    assert Players(next.clients) == Players(ro.clients);
    if mode == Coop {
      assert color !in ColorsOf(ro.clients, ReadyPlayers(ro.clients) - {id});
      ReadyLocks(ro.clients, next.clients, id);
    }
  }

  lemma UnreadyKeeps(ro: Roster, mode: Mode)
    requires RosterOk(ro, mode)
    ensures RosterOk(NobodyReady(ro), mode) && ReadyPlayers(NobodyReady(ro).clients) == {}
    ensures Players(NobodyReady(ro).clients) == Players(ro.clients)
  {
    var next := NobodyReady(ro);
    assert Derived(ro.clients, next.clients) by { hide JoinsApart, PromotionsApart; }
    assert next.clients.Keys == ro.clients.Keys;
    assert ReadyPlayers(next.clients) == {};
    hide C.Claimable, OrdersOk, Derived;
    DerivedKeeps(ro, next);
    assert Players(next.clients) == Players(ro.clients);
  }

  lemma TransferKeeps(ro: Roster, mode: Mode, id: ClientId)
    requires RosterOk(ro, mode) && id in ro.clients
    ensures RosterOk(ro.(admin := Some(id)), mode)
  {
  }

  // ---------------------------------------------------------------- the switch to co-op

  /** At most four stay players, and everyone who stays was promoted before everyone who goes. */
  lemma KeptAreEarliest(cs: map<ClientId, Client>)
    requires JoinsApart(cs)
    ensures Kept(cs) <= Players(cs) && |Kept(cs)| <= MAX_COOP_PLAYERS
    ensures forall a, b :: a in Kept(cs) && b in Players(cs) - Kept(cs) ==> Before(cs[a], cs[b])
    ensures |Players(cs)| <= MAX_COOP_PLAYERS ==> Kept(cs) == Players(cs)
  {
    SeatOrderIsSorted(cs, Players(cs));
    var order := SeatOrder(cs, Players(cs));
    hide Before;
    assert forall k :: k in order <==> k in SetOf(order);
    if |order| > MAX_COOP_PLAYERS {
      var front := order[..MAX_COOP_PLAYERS];
      NoDupCount(front);
      assert forall k :: k in front <==> k in SetOf(front);
      forall a, b | a in SetOf(front) && b in Players(cs) - SetOf(front)
        ensures Before(cs[a], cs[b])
      {
        var i :| 0 <= i < |front| && front[i] == a;
        var j :| 0 <= j < |order| && order[j] == b;
        FrontHolds(order, front, j);
      }
    }
  }

  lemma FrontHolds(s: seq<ClientId>, front: seq<ClientId>, j: nat)
    requires j < |s| && |front| <= |s| && front == s[..|front|]
    ensures j < |front| ==> s[j] in front
  {
    if j < |front| {
      assert front[j] == s[j];
    }
  }

  lemma {:induction false} RematchChanges(cs: map<ClientId, Client>, ids: seq<ClientId>, seen: set<nat>)
    requires forall id :: id in ids ==> id in cs
    ensures var next := Rematched(cs, ids, seen);
            && next.Keys == cs.Keys
            && (forall k :: k in cs ==> next[k] == cs[k].(color := next[k].color))
            && (forall k :: k in cs && k !in ids ==> next[k] == cs[k])
    decreases |ids|
  {
    hide C.Claimable, C.FirstFree;
    if ids != [] {
      var color := cs[ids[0]].color;
      var free := C.FirstFree(seen);
      assert forall k :: k in ids <==> k == ids[0] || k in ids[1..];
      if !NeedsColor(color, seen) {
        RematchChanges(cs, ids[1..], seen + {color.value});
      } else if free.Some? {
        RematchChanges(cs[ids[0] := cs[ids[0]].(color := free)], ids[1..], seen + {free.value});
      } else {
        RematchChanges(cs, ids[1..], seen);
      }
    }
  }

  /** The players rematched hold claimable colours, distinct and not among those already seen. */
  ghost predicate Spread(cs: map<ClientId, Client>, ids: seq<ClientId>, seen: set<nat>) {
    && (forall id :: id in ids ==> id in cs && cs[id].color.Some? && C.Claimable(cs[id].color.value) && cs[id].color.value !in seen)
    && (forall i, j :: 0 <= i < j < |ids| ==> ids[i] in cs && ids[j] in cs && cs[ids[i]].color != cs[ids[j]].color)
  }

  lemma SpreadOneMore(cs: map<ClientId, Client>, ids: seq<ClientId>, seen: set<nat>, color: nat)
    requires ids != [] && ids[0] in cs && cs[ids[0]].color == Some(color) && C.Claimable(color) && color !in seen
    requires Spread(cs, ids[1..], seen + {color})
    ensures Spread(cs, ids, seen)
  {
    hide C.Claimable;
    assert forall k :: k in ids <==> k == ids[0] || k in ids[1..];
    forall i, j | 0 <= i < j < |ids|
      ensures ids[i] in cs && ids[j] in cs && cs[ids[i]].color != cs[ids[j]].color
    {
      assert ids[j] == ids[1..][j - 1];
      if i > 0 {
        assert ids[i] == ids[1..][i - 1];
      }
    }
  }

  lemma {:induction false} RematchSpreads(cs: map<ClientId, Client>, ids: seq<ClientId>, seen: set<nat>)
    requires NoDup(ids) && (forall id :: id in ids ==> id in cs) && |seen| + |ids| < C.CLAIMABLE
    ensures Spread(Rematched(cs, ids, seen), ids, seen)
    decreases |ids|
  {
    C.SomeColorIsFree(0, seen);
    C.FirstFreeIsFirst(seen);
    hide C.Claimable, C.FirstFree, C.NextFree, Spread;
    if ids == [] {
      SpreadNobody(Rematched(cs, ids, seen), seen);
    } else {
      var first := ids[0];
      var color := if !NeedsColor(cs[first].color, seen) then cs[first].color.value else C.FirstFree(seen).value;
      var next := cs[first := cs[first].(color := Some(color))];
      assert next == cs || NeedsColor(cs[first].color, seen);
      RematchChanges(next, ids[1..], seen + {color});
      RematchSpreads(next, ids[1..], seen + {color});
      assert first !in ids[1..];
      SpreadOneMore(Rematched(next, ids[1..], seen + {color}), ids, seen, color);
    }
  }

  lemma SpreadNobody(cs: map<ClientId, Client>, seen: set<nat>)
    ensures Spread(cs, [], seen)
  {
  }

  lemma KeepOnlyDerived(ro: Roster, kept: set<ClientId>)
    requires ClientsOk(ro) && kept <= Players(ro.clients)
    ensures var next := KeepOnly(ro.clients, kept);
            Derived(ro.clients, next) && next.Keys == ro.clients.Keys && Players(next) == kept
  {
  }

  lemma KeepOnlyKeeps(ro: Roster, kept: set<ClientId>)
    requires OrdersOk(ro) && kept <= Players(ro.clients)
    ensures var next := ro.(clients := KeepOnly(ro.clients, kept));
            && OrdersOk(next) && |next.clients| <= |ro.clients|
            && next.clients.Keys == ro.clients.Keys && Players(next.clients) == kept
  {
    var next := ro.(clients := KeepOnly(ro.clients, kept));
    hide ClientsOk, JoinsApart, PromotionsApart, KeepOnly, Derived, Players;
    KeepOnlyDerived(ro, kept);
    DerivedKeeps(ro, next);
  }

  /** All of `ids` hold claimable and pairwise distinct colours. */
  ghost predicate AllApart(cs: map<ClientId, Client>, ids: set<ClientId>) {
    && (forall id :: id in ids ==> id in cs && cs[id].color.Some? && C.Claimable(cs[id].color.value))
    && (forall a, b :: a in ids && b in ids && a != b ==> a in cs && b in cs && cs[a].color != cs[b].color)
  }

  lemma TrimColors(cs: map<ClientId, Client>, kept: set<ClientId>)
    requires |kept| <= MAX_COOP_PLAYERS && (forall id :: id in kept ==> id in cs)
    ensures SetOf(Ascending(kept)) == kept && forall id :: id in Ascending(kept) ==> id in cs
    ensures AllApart(Rematched(cs, Ascending(kept), {}), kept)
  {
    var ids := Ascending(kept);
    AscendingLists(kept);
    NoDupCount(ids);
    assert forall id :: id in ids <==> id in SetOf(ids);
    hide C.Claimable, Ascending, Rematched;
    RematchChanges(cs, ids, {});
    RematchSpreads(cs, ids, {});
    SpreadApart(Rematched(cs, ids, {}), ids);
  }

  /** After the switch at most four players remain, the earliest promoted, all with claimable
      and pairwise distinct colours. */
  lemma TrimKeeps(ro: Roster, mode: Mode)
    requires RosterOk(ro, mode) && ReadyPlayers(ro.clients) == {}
    ensures JoinsApart(ro.clients)
    ensures var next := Trimmed(ro);
            && RosterOk(next, Coop)
            && Players(next.clients) == Kept(ro.clients)
            && AllApart(next.clients, Players(next.clients))
  {
    OrdersGiveJoins(ro);
    hide C.Claimable, OrdersOk, JoinsApart, Kept, KeepOnly, Ascending, Rematched, AllApart, Players, ReadyPlayers, ColorsLocked, Trimmed;
    var kept := Kept(ro.clients);
    var lower := ro.(clients := KeepOnly(ro.clients, kept));
    KeptAreEarliest(ro.clients);
    KeepOnlyKeeps(ro, kept);
    NobodyReadyKept(ro.clients, kept);
    TrimColors(lower.clients, kept);
    RematchChanges(lower.clients, Ascending(kept), {});
    TrimmedIs(ro);
    var next := Trimmed(ro);
    Recolored(lower, next);
    NobodyLocked(next.clients);
    assert AdminOk(next);
  }

  lemma TrimmedIs(ro: Roster)
    requires JoinsApart(ro.clients) && Players(KeepOnly(ro.clients, Kept(ro.clients))) == Kept(ro.clients)
    requires forall id :: id in Ascending(Kept(ro.clients)) ==> id in KeepOnly(ro.clients, Kept(ro.clients))
    ensures Trimmed(ro) == ro.(clients := Rematched(KeepOnly(ro.clients, Kept(ro.clients)), Ascending(Kept(ro.clients)), {}))
  {
    hide JoinsApart, Kept, KeepOnly, Ascending, Rematched, Players;
  }

  lemma NobodyLocked(cs: map<ClientId, Client>)
    ensures ReadyPlayers(cs) == {} ==> ColorsLocked(cs)
  {
  }

  lemma NobodyReadyKept(cs: map<ClientId, Client>, kept: set<ClientId>)
    requires ReadyPlayers(cs) == {}
    ensures ReadyPlayers(KeepOnly(cs, kept)) == {}
  {
    forall id | id in cs && KeepOnly(cs, kept)[id].role == Player
      ensures !KeepOnly(cs, kept)[id].ready
    {
      assert id !in ReadyPlayers(cs);
    }
  }

  lemma SpreadApart(cs: map<ClientId, Client>, ids: seq<ClientId>)
    requires Spread(cs, ids, {})
    ensures AllApart(cs, SetOf(ids))
  {
    hide C.Claimable;
    forall a, b | a in ids && b in ids && a != b
      ensures a in cs && b in cs && cs[a].color != cs[b].color
    {
      var i :| 0 <= i < |ids| && ids[i] == a;
      var j :| 0 <= j < |ids| && ids[j] == b;
      if i < j {
        assert cs[ids[i]].color != cs[ids[j]].color;
      } else {
        assert cs[ids[j]].color != cs[ids[i]].color;
      }
    }
  }

  // ---------------------------------------------------------------- the seats of a session

  /** Among players seat order is the order of their promotions. */
  lemma PlayersSitByPromotion(ro: Roster, a: ClientId, b: ClientId)
    requires OrdersOk(ro) && a in Players(ro.clients) && b in Players(ro.clients) && a != b
    ensures ro.clients[a].promoteOrder.Some? && ro.clients[b].promoteOrder.Some?
    ensures Before(ro.clients[a], ro.clients[b]) <==> ro.clients[a].promoteOrder.value < ro.clients[b].promoteOrder.value
  {
  }

  /** When everybody is ready, the seats of a new co-op session are all the players, in
      promotion order, with claimable and pairwise distinct colours. */
  lemma SessionSeats(ro: Roster)
    requires RosterOk(ro, Coop) && AllPlayersReady(ro.clients)
    ensures var slots := SeatOrder(ro.clients, Players(ro.clients));
            && 1 <= |slots| <= MAX_COOP_PLAYERS && NoDup(slots) && SetOf(slots) == Players(ro.clients)
            && (forall i :: 0 <= i < |slots| ==> slots[i] in ro.clients && ro.clients[slots[i]].color.Some? && C.Claimable(ro.clients[slots[i]].color.value))
            && (forall i, j :: 0 <= i < j < |slots| ==>
                  && ro.clients[slots[i]].color != ro.clients[slots[j]].color
                  && Before(ro.clients[slots[i]], ro.clients[slots[j]]))
  {
    var slots := SeatOrder(ro.clients, Players(ro.clients));
    SeatOrderIsSorted(ro.clients, Players(ro.clients));
    hide C.Claimable, SeatOrder, Before, OrdersOk, AdminOk;
    assert Players(ro.clients) != {};
    forall i | 0 <= i < |slots|
      ensures slots[i] in ReadyPlayers(ro.clients)
    {
      assert slots[i] in SetOf(slots);
    }
  }

  lemma SeatOrderLists(cs: map<ClientId, Client>)
    requires JoinsApart(cs)
    ensures var order := SeatOrder(cs, Players(cs)); SetOf(order) == Players(cs) && NoDup(order)
  {
    SeatOrderIsSorted(cs, Players(cs));
  }
}
