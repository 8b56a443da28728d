/** Catalog administration: guarded deletions, absolute quota edits, and the derived sold count. */
module AdminService {
  import opened Wrappers
  import opened Schema
  import opened Request
  import opened Transactions
  import opened System
  import opened Invariant
  import opened Storage
  import Guarantees

  datatype Reply = Succeeded | NotFound | HasOrders | Invalid | Unavailable

  lemma ValidRefs(store: Store)
    requires store.Valid()
    ensures RefsOk(store.rows)
  {
    hide Run, Spawns;
    store.Sound();
  }

  // --- Deleting an event ----------------------------------------------------------------------

  /** The body of DeleteEvent: the order guard, the event's types, and then the event. */
  method DeleteEventBody(store: Store, e: EventId) returns (found: bool, refused: bool, err: bool)
    requires RefsOk(store.work)
    modifies store`work
    ensures var r := DeleteEventTx(old(store.work), e);
            && (!err && found ==> r == Deleted(store.work))
            && (!err && !found ==> r == Missing && store.work == old(store.work))
            && (refused ==> err && r == Refused)
            && (err && !refused ==> !store.reliable)
  {
    var ids := TypesOfEvent(store.work.types, e);
    found := false;
    refused := false;
    err := store.Fails();
    if err {
      return;
    }
    refused := exists t <- ids :: Referenced(store.work, t);
    if refused {
      return false, true, true;
    }
    err := store.DeleteTypes(ids);
    if err {
      return;
    }
    found, err := store.RemoveEvent(e);
    assert !found && !err ==> store.work == old(store.work) by {
      if !found && !err {
        assert ids == {};
        assert old(store.work).types - ids == old(store.work).types;
        assert old(store.work).events - {e} == old(store.work).events;
      }
    }
  }

  /** An event goes with all its ticket types, or nothing goes. */
  method DeleteEvent(store: Store, e: EventId) returns (r: Reply, ghost acts: seq<Action>)
    requires store.Valid()
    modifies store
    ensures store.Valid() && old(store.trace) <= store.trace
    ensures store.own == old(store.own) + acts && (acts == [] || acts == [System.DeleteEvent(e)])
    ensures r in {Succeeded, NotFound} ==> acts == [System.DeleteEvent(e)]
    ensures r == Succeeded ==> e !in store.rows.events && TypesOfEvent(store.rows.types, e) == {}
    ensures store.alone ==> store.rows == old(store.rows) || DeleteEventTx(old(store.rows), e) == Deleted(store.rows)
    ensures store.alone && store.reliable ==>
              match DeleteEventTx(old(store.rows), e)
              case Deleted(db) => r == Succeeded && store.rows == db
              case Missing => r == NotFound && store.rows == old(store.rows)
              case Refused => r == HasOrders && store.rows == old(store.rows)
    ensures store.alone && store.reliable ==>
              var ids := set t | t in old(store.rows).types && old(store.rows).types[t].event == e;
              && (r == HasOrders <==> exists t <- ids :: Referenced(old(store.rows), t))
              && (r == Succeeded <==> e in old(store.rows).events && forall t <- ids :: !Referenced(old(store.rows), t))
              && (r == Succeeded ==> TypesGone(old(store.rows), store.rows, ids)
                                     && store.rows.events == old(store.rows).events - {e})
  {
    hide Store.Running, Next, RefsOk, Referenced;
    DeleteEventIff(store.rows, e);
    acts := [];
    store.Pause();
    ValidRefs(store);
    var found, refused := false, false;
    var err := store.Begin();
    if !err {
      found, refused, err := DeleteEventBody(store, e);
    }
    var fate := store.Finish(err);
    if fate != RollsBack {
      EventMove(store.sys, e);
      store.TakeQuietly(System.DeleteEvent(e));
      acts := [System.DeleteEvent(e)];
    }
    if refused {
      return HasOrders, acts;
    }
    if fate != Commits {
      return Unavailable, acts;
    }
    r := if found then Succeeded else NotFound;
  }

  lemma EventMove(s: Sys, e: EventId)
    ensures var t, r := Next(s, System.DeleteEvent(e)), DeleteEventTx(s.facts.db, e);
            t.clock == s.clock && t.facts.db == if r.Deleted? then r.db else s.facts.db
  {
    hide DeleteEventTx;
  }

  // --- Deleting and editing a ticket type ----------------------------------------------------------

  method DeleteTypeBody(store: Store, t: TypeId) returns (found: bool, refused: bool, err: bool)
    modifies store`work
    ensures var r := DeleteTypeTx(old(store.work), t);
            && (!err && found ==> r == Deleted(store.work))
            && (!err && !found ==> r == Missing && store.work == old(store.work))
            && (refused ==> err && r == Refused)
            && (err && !refused ==> !store.reliable)
  {
    found := t in store.work.types;
    refused := false;
    err := store.Fails();
    if err {
      return;
    }
    refused := Referenced(store.work, t);
    if refused {
      return found, true, true;
    }
    err := store.DeleteTypes({t});
    assert !found && !err ==> store.work == old(store.work) by {
      if !found && !err {
        assert old(store.work).types - {t} == old(store.work).types;
      }
    }
  }

  method DeleteTicketType(store: Store, t: TypeId) returns (r: Reply, ghost acts: seq<Action>)
    requires store.Valid()
    modifies store
    ensures store.Valid() && old(store.trace) <= store.trace
    ensures store.own == old(store.own) + acts && (acts == [] || acts == [DeleteType(t)])
    ensures r in {Succeeded, NotFound} ==> acts == [DeleteType(t)]
    ensures r == Succeeded ==> t !in store.rows.types
    ensures store.alone ==> store.rows == old(store.rows) || DeleteTypeTx(old(store.rows), t) == Deleted(store.rows)
    ensures store.alone && store.reliable ==>
              match DeleteTypeTx(old(store.rows), t)
              case Deleted(db) => r == Succeeded && store.rows == db
              case Missing => r == NotFound && store.rows == old(store.rows)
              case Refused => r == HasOrders && store.rows == old(store.rows)
    ensures store.alone && store.reliable ==>
              && (r == HasOrders <==> Referenced(old(store.rows), t))
              && (r == Succeeded <==> t in old(store.rows).types && !Referenced(old(store.rows), t))
              && (r == Succeeded ==> TypesGone(old(store.rows), store.rows, {t})
                                     && store.rows.events == old(store.rows).events)
  {
    hide Store.Running, Next, Referenced;
    acts := [];
    store.Pause();
    var found, refused := false, false;
    var err := store.Begin();
    if !err {
      found, refused, err := DeleteTypeBody(store, t);
    }
    var fate := store.Finish(err);
    if fate != RollsBack {
      TypeMove(store.sys, t);
      store.TakeQuietly(DeleteType(t));
      acts := [DeleteType(t)];
    }
    if refused {
      return HasOrders, acts;
    }
    if fate != Commits {
      return Unavailable, acts;
    }
    r := if found then Succeeded else NotFound;
  }

  lemma TypeMove(s: Sys, t: TypeId)
    ensures var u, r := Next(s, DeleteType(t)), DeleteTypeTx(s.facts.db, t);
            u.clock == s.clock && u.facts.db == if r.Deleted? then r.db else s.facts.db
  {
    hide DeleteTypeTx;
  }

  /** The name check is given as its verdict; a zero time is None. */
  datatype TypeRequest = TypeRequest(
    nameGiven: bool, price: int, quota: int32, salesStart: Option<int>, salesEnd: Option<int>)

  predicate AcceptsType(req: TypeRequest) {
    && req.nameGiven && req.price >= 0 && req.quota >= 0
    && req.salesStart.Some? && req.salesEnd.Some? && req.salesStart.value <= req.salesEnd.value
  }

  /** The row an edit asks for; the event is never changed. */
  function Edited(req: TypeRequest): TicketType
    requires AcceptsType(req)
  {
    TicketType(0, req.price, req.quota, req.salesStart.value, req.salesEnd.value)
  }

  /** The submitted quota replaces the remaining quota, whatever has been sold meanwhile. */
  method UpdateTicketType(store: Store, t: TypeId, req: TypeRequest) returns (r: Reply, ghost acts: seq<Action>)
    requires store.Valid()
    modifies store
    ensures store.Valid() && old(store.trace) <= store.trace
    ensures r == Invalid <==> !AcceptsType(req)
    ensures store.own == old(store.own) + acts
    ensures r == Invalid ==> acts == [] && store.rows == old(store.rows)
    ensures r != Invalid ==> acts == [] || acts == [UpdateType(t, Edited(req))]
    ensures r in {Succeeded, NotFound} ==> acts == [UpdateType(t, Edited(req))]
    ensures store.alone && store.rows != old(store.rows) ==>
              AcceptsType(req) && UpdateTypeTx(old(store.rows), t, Edited(req)) == Applied(store.rows)
    ensures store.alone && store.reliable && AcceptsType(req) ==>
              match UpdateTypeTx(old(store.rows), t, Edited(req))
              case Applied(db) => r == Succeeded && store.rows == db
              case _ => store.rows == old(store.rows) && r == if PriceFits(req.price) then NotFound else Unavailable
    ensures store.alone && store.reliable ==>
              && (r == Succeeded <==> AcceptsType(req) && t in old(store.rows).types && req.price <= MAX_AMOUNT)
              && (r == Succeeded ==> TypeEdited(old(store.rows), store.rows, t, req.price, req.quota,
                                                req.salesStart.value, req.salesEnd.value))
  {
    hide Store.Running, Next;
    acts := [];
    if !AcceptsType(req) {
      return Invalid, acts;
    }
    store.Pause();
    var found := false;
    var err := store.Begin();
    if !err {
      found, err := store.UpdateType(t, Edited(req));
    }
    var fate := store.Finish(err);
    if fate != RollsBack {
      UpdateMove(store.sys, t, Edited(req));
      store.TakeQuietly(UpdateType(t, Edited(req)));
      acts := [UpdateType(t, Edited(req))];
    }
    if fate != Commits {
      return Unavailable, acts;
    }
    r := if found then Succeeded else NotFound;
  }

  lemma UpdateMove(s: Sys, t: TypeId, row: TicketType)
    ensures var u, r := Next(s, UpdateType(t, row)), UpdateTypeTx(s.facts.db, t, row);
            u.clock == s.clock && u.facts.db == if r.Applied? then r.db else s.facts.db
  {
    hide UpdateTypeTx, Reallocated;
  }

  // --- The derived sold count --------------------------------------------------------------------------

  /** SELECT SUM(quantity) FROM order_items WHERE ticket_type_id = t. */
  function Sold(items: seq<ItemRow>, t: TypeId): (n: int) {
    if items == [] then 0
    else
      var last := items[|items| - 1];
      Sold(items[..|items| - 1], t) + if last.typ == t then last.qty else 0
  }

  /** Seats of type t in the first n orders, whatever their status. */
  function PlacedBy(items: seq<ItemRow>, n: nat, t: TypeId): (seats: int) {
    if n == 0 then 0 else PlacedBy(items, n - 1, t) + QtyOf(items, n - 1, t)
  }

  /** Seats of type t that the first n orders have given back. */
  function ReleasedBy(orders: seq<Order>, items: seq<ItemRow>, n: nat, t: TypeId): (seats: int)
    requires n <= |orders|
  {
    if n == 0 then 0
    else
      ReleasedBy(orders, items, n - 1, t)
      + if Holds(orders[n - 1].status) then 0 else QtyOf(items, n - 1, t)
  }

  lemma {:induction false} NothingPlaced(n: nat, t: TypeId)
    ensures PlacedBy([], n, t) == 0
  {
    if n != 0 {
      NothingPlaced(n - 1, t);
    }
  }

  /** One item more is one order's seats more. */
  lemma {:induction false} PlacedStep(items: seq<ItemRow>, row: ItemRow, n: nat, t: TypeId)
    ensures PlacedBy(items + [row], n, t)
         == PlacedBy(items, n, t) + if row.order < n && row.typ == t then row.qty else 0
  {
    if n != 0 {
      PlacedStep(items, row, n - 1, t);
      LinesOfAppend(items, [row], n - 1);
      var line := if row.order == n - 1 then [Line(row.typ, row.qty, row.price)] else [];
      assert [row][..0] == [];
      assert LinesOf([row], n - 1) == line;
      QtyAppend(LinesOf(items, n - 1), line, t);
      assert line != [] ==> line[..0] == [];
    }
  }

  /** The sum over rows is the sum over orders. */
  lemma {:induction false} SoldIsPlaced(items: seq<ItemRow>, n: nat, t: TypeId)
    requires forall r <- items :: r.order < n
    ensures Sold(items, t) == PlacedBy(items, n, t)
  {
    if items == [] {
      NothingPlaced(n, t);
    } else {
      var front, last := items[..|items| - 1], items[|items| - 1];
      assert items == front + [last];
      SoldIsPlaced(front, n, t);
      PlacedStep(front, last, n, t);
    }
  }

  lemma {:induction false} PlacedIsHeldAndReleased(orders: seq<Order>, items: seq<ItemRow>, n: nat, t: TypeId)
    requires n <= |orders|
    ensures PlacedBy(items, n, t) == HeldBy(orders, items, n, t) + ReleasedBy(orders, items, n, t)
  {
    if n != 0 {
      PlacedIsHeldAndReleased(orders, items, n - 1, t);
    }
  }

  /** None of the first n orders gave back seats of type t. */
  predicate NoneReleased(orders: seq<Order>, items: seq<ItemRow>, n: nat, t: TypeId)
    requires n <= |orders|
  {
    forall o :: 0 <= o < n && !Holds(orders[o].status) ==> QtyOf(items, o, t) == 0
  }

  lemma {:induction false} NothingReleased(orders: seq<Order>, items: seq<ItemRow>, n: nat, t: TypeId)
    requires n <= |orders| && forall r <- items :: r.qty >= 1
    ensures ReleasedBy(orders, items, n, t) >= 0
    ensures ReleasedBy(orders, items, n, t) == 0 <==> NoneReleased(orders, items, n, t)
  {
    hide QtyOf, Holds;
    if n != 0 {
      NothingReleased(orders, items, n - 1, t);
      QtyOfNonNegative(items, n - 1, t);
      assert NoneReleased(orders, items, n, t) <==>
             NoneReleased(orders, items, n - 1, t) && (Holds(orders[n - 1].status) || QtyOf(items, n - 1, t) == 0);
    }
  }

  /** The sold count is derived from all items, so a release is never taken off it: in every
      reachable state it exceeds what is allocated and no longer remaining by exactly the seats
      given back, and agrees with it exactly when no settled order of the type gave any back. */
  lemma SoldCountsReleases(s: Sys, t: TypeId)
    requires Reachable(s) && t in s.facts.db.types
    ensures var db := s.facts.db;
            && t in s.facts.alloc
            && Sold(db.items, t) == s.facts.alloc[t] - db.types[t].quota + ReleasedBy(db.orders, db.items, |db.orders|, t)
            && (Sold(db.items, t) == s.facts.alloc[t] - db.types[t].quota <==>
                NoneReleased(db.orders, db.items, |db.orders|, t))
  {
    var db := s.facts.db;
    Guarantees.SeatConservation(s, t);
    Guarantees.ReachableDb(s);
    SoldIsPlaced(db.items, |db.orders|, t);
    PlacedIsHeldAndReleased(db.orders, db.items, |db.orders|, t);
    NothingReleased(db.orders, db.items, |db.orders|, t);
  }

  datatype TypeView = TypeView(id: TypeId, row: TicketType, sold: int)

  /** One batched query for a page of ticket types; a type without items has no entry. */
  method SoldCountByTicketType(store: Store, ids: seq<TypeId>) returns (sold: map<TypeId, int>, err: bool)
    ensures store.reliable ==> !err
    ensures !err ==> forall t <- ids :: Sold(store.rows.items, t) == if t in sold then sold[t] else 0
  {
    sold := map t | t in ids && (exists r <- store.rows.items :: r.typ == t) :: Sold(store.rows.items, t);
    err := store.Fails();
    forall t <- ids | t !in sold ensures Sold(store.rows.items, t) == 0 {
      NoneSold(store.rows.items, t);
    }
  }

  lemma {:induction false} NoneSold(items: seq<ItemRow>, t: TypeId)
    requires forall r <- items :: r.typ != t
    ensures Sold(items, t) == 0
  {
    if items != [] {
      NoneSold(items[..|items| - 1], t);
    }
  }

  method WithSoldCounts(store: Store, page: seq<(TypeId, TicketType)>) returns (views: seq<TypeView>, err: bool)
    ensures store.reliable ==> !err
    ensures !err ==>
              && |views| == |page|
              && forall i :: 0 <= i < |page| ==>
                   views[i] == TypeView(page[i].0, page[i].1, Sold(store.rows.items, page[i].0))
  {
    views, err := [], false;
    if |page| == 0 {
      return;
    }
    var ids := [];
    for i := 0 to |page|
      invariant |ids| == i && forall k :: 0 <= k < i ==> ids[k] == page[k].0
    {
      ids := ids + [page[i].0];
    }
    var sold;
    sold, err := SoldCountByTicketType(store, ids);
    if err {
      return;
    }
    for i := 0 to |page|
      invariant |views| == i
      invariant forall k :: 0 <= k < i ==> views[k] == TypeView(page[k].0, page[k].1, Sold(store.rows.items, page[k].0))
    {
      var t := page[i].0;
      assert ids[i] in ids;
      views := views + [TypeView(t, page[i].1, if t in sold then sold[t] else 0)];
    }
  }
}
