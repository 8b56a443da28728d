/** Catalog administration: the only actions that change an allocation, and deletions that
    never leave an order, an attendee or a ticket type without what it refers to. */
module CatalogSteps {
  import opened Schema
  import opened Transactions
  import opened System
  import opened Invariant
  import opened SettleSteps

  /** Only the catalog has changed. */
  ghost predicate CatalogEdit(a: Db, b: Db) {
    b == a.(types := b.types, events := b.events)
  }

  /** Every type in use still exists, and every type's event does. */
  ghost predicate CatalogOk(a: Db, b: Db) {
    && CatalogEdit(a, b) && QuotasOk(b.types)
    && (forall t :: t in b.types ==> b.types[t].event in b.events)
    && forall t :: Referenced(a, t) ==> t in b.types
  }

  lemma CatalogRefs(a: Db, b: Db)
    requires RefsOk(a) && CatalogOk(a, b)
    ensures RefsOk(b)
  {
    forall r <- b.items ensures r.typ in b.types {
      assert Referenced(a, r.typ);
    }
    forall r <- b.attendees ensures r.typ in b.types {
      assert Referenced(a, r.typ);
    }
  }

  lemma CatalogRest(a: Db, b: Db)
    requires CatalogEdit(a, b)
    ensures SeatsMatch(a) ==> SeatsMatch(b)
    ensures TotalsMatch(a) ==> TotalsMatch(b)
    ensures IssuedOk(a) ==> IssuedOk(b)
    ensures DbLater(a, b)
  {
    assert forall o: OrderId :: FullyIssued(a, o) ==> FullyIssued(b, o);
  }

  lemma CatalogDbOk(a: Db, b: Db)
    requires DbOk(a) && CatalogOk(a, b)
    ensures DbOk(b)
  {
    CatalogRefs(a, b);
    CatalogRest(a, b);
    hide RefsOk, SeatsMatch, TotalsMatch, IssuedOk, DbLater;
  }

  lemma CatalogHistory(f: Facts, b: Db)
    requires HistoryOk(f) && CatalogEdit(f.db, b)
    ensures HistoryOk(f.(db := b))
  {
    HistoryParts(f);
    EmailFlags(f);
    CatalogRest(f.db, b);
    assert FulfilmentsOk(b, f.owner, f.log) && AuditOk(b);
    hide FulfilmentsOk, AuditOk, SettlementsOk, DoorOk, DeliveriesOk, DbLater;
    HistoryCarries(f, b);
  }

  lemma HistoryIgnoresAlloc(f: Facts, alloc: map<TypeId, int>)
    requires HistoryOk(f)
    ensures HistoryOk(f.(alloc := alloc))
  { }

  lemma CatalogFacts(f: Facts, b: Db, alloc: map<TypeId, int>)
    requires FactsOk(f) && CatalogOk(f.db, b) && Conserved(b, alloc)
    ensures FactsOk(f.(db := b, alloc := alloc)) && FactsLater(f, f.(db := b, alloc := alloc))
  {
    CatalogRest(f.db, b);
    hide DbOk, Conserved, HistoryOk, DbLater;
    CatalogDbOk(f.db, b);
    CatalogHistory(f, b);
    HistoryIgnoresAlloc(f.(db := b), alloc);
  }

  lemma CatalogKeeps(s: Sys, b: Db, alloc: map<TypeId, int>)
    requires Inv(s) && CatalogOk(s.facts.db, b) && Conserved(b, alloc)
    ensures var t := s.(facts := s.facts.(db := b, alloc := alloc)); Inv(t) && Later(s, t)
  {
    var f := s.facts.(db := b, alloc := alloc);
    assert CatalogEdit(s.facts.db, b);
    hide FactsOk, FactsLater, ProcOk, CatalogOk, Conserved;
    CatalogFacts(s.facts, b, alloc);
    forall p | p in s.procs ensures ProcOk(f, p, s.procs[p]) {
      ProcStable(s.facts, f, p, s.procs[p]);
    }
  }

  // --- The edits ------------------------------------------------------------------------

  lemma ReferencedExist(db: Db, t: TypeId)
    requires RefsOk(db) && Referenced(db, t)
    ensures t in db.types
  { }

  lemma {:induction false} NoLinesOfType(items: seq<ItemRow>, o: OrderId, t: TypeId)
    requires forall r <- items :: r.typ != t
    ensures QtyOf(items, o, t) == 0
  {
    LinesOfFromRows(items, o);
    forall i | 0 <= i < |LinesOf(items, o)| ensures LinesOf(items, o)[i].typ != t {
      assert LinesOf(items, o)[i] in LinesOf(items, o);
    }
    QtyOfAbsent(LinesOf(items, o), t);
  }

  /** Nobody holds a seat of a type no order refers to. */
  lemma {:induction false} UnreferencedUnheld(orders: seq<Order>, items: seq<ItemRow>, n: nat, t: TypeId)
    requires n <= |orders| && forall r <- items :: r.typ != t
    ensures HeldBy(orders, items, n, t) == 0
  {
    if n != 0 {
      NoLinesOfType(items, n - 1, t);
      UnreferencedUnheld(orders, items, n - 1, t);
    }
  }

  lemma HeldIgnoresCatalog(a: Db, b: Db, t: TypeId)
    requires CatalogEdit(a, b)
    ensures Held(b, t) == Held(a, t)
  { }

  lemma FactsParts(f: Facts)
    requires FactsOk(f)
    ensures RefsOk(f.db) && QuotasOk(f.db.types) && Conserved(f.db, f.alloc)
  { }

  /** An edit is sound if it keeps every type in use, and allocates what it adds. */
  lemma CatalogEdited(s: Sys, b: Db, alloc: map<TypeId, int>)
    requires Inv(s) && CatalogEdit(s.facts.db, b) && QuotasOk(b.types)
    requires forall t :: t in b.types ==> b.types[t].event in b.events
    requires forall t :: t in s.facts.db.types && Referenced(s.facts.db, t) ==> t in b.types
    requires alloc.Keys == b.types.Keys
    requires forall t :: t in b.types ==> b.types[t].quota + Held(s.facts.db, t) == alloc[t]
    ensures var t := s.(facts := s.facts.(db := b, alloc := alloc)); Inv(t) && Later(s, t)
  {
    var db := s.facts.db;
    FactsParts(s.facts);
    hide Inv, FactsOk, Later, QuotasOk;
    forall t | Referenced(db, t) { ReferencedExist(db, t); }
    hide RefsOk, Referenced;
    forall t | t in b.types { HeldIgnoresCatalog(db, b, t); }
    hide Held;
    CatalogKeeps(s, b, alloc);
  }

  lemma InvParts(s: Sys)
    requires Inv(s)
    ensures RefsOk(s.facts.db) && QuotasOk(s.facts.db.types) && Conserved(s.facts.db, s.facts.alloc)
  { }

  lemma CreateEventKeeps(s: Sys, e: EventId)
    requires Inv(s)
    ensures Inv(Next(s, CreateEvent(e))) && Later(s, Next(s, CreateEvent(e)))
  {
    InvParts(s);
    hide Inv, Later, Referenced, Held;
    CatalogEdited(s, s.facts.db.(events := s.facts.db.events + {e}), s.facts.alloc);
  }

  lemma NewTypeUnheld(db: Db, t: TypeId)
    requires RefsOk(db) && t !in db.types
    ensures Held(db, t) == 0
  {
    UnreferencedUnheld(db.orders, db.items, |db.orders|, t);
  }

  lemma CreateTypeKeeps(s: Sys, t: TypeId, row: TicketType)
    requires Inv(s)
    ensures Inv(DoCreateType(s, t, row)) && Later(s, DoCreateType(s, t, row))
  {
    InvParts(s);
    LaterReflexive(s);
    hide Inv, Later, Referenced, Held;
    var r := CreateTypeTx(s.facts.db, t, row);
    if r.Applied? {
      NewTypeUnheld(s.facts.db, t);
      CatalogEdited(s, r.db, s.facts.alloc[t := row.quota]);
    }
  }

  lemma UpdateTypeKeeps(s: Sys, t: TypeId, row: TicketType)
    requires Inv(s)
    ensures Inv(DoUpdateType(s, t, row)) && Later(s, DoUpdateType(s, t, row))
  {
    InvParts(s);
    LaterReflexive(s);
    hide Inv, Later, Referenced, Held;
    var r := UpdateTypeTx(s.facts.db, t, row);
    if r.Applied? {
      CatalogEdited(s, r.db, Reallocated(s.facts, t, row.quota));
    }
  }

  lemma DeleteTypeKeeps(s: Sys, t: TypeId)
    requires Inv(s)
    ensures Inv(DoDeleteType(s, t)) && Later(s, DoDeleteType(s, t))
  {
    InvParts(s);
    LaterReflexive(s);
    hide Inv, Later, Referenced, Held;
    var r := DeleteTypeTx(s.facts.db, t);
    if r.Deleted? {
      CatalogEdited(s, r.db, s.facts.alloc - {t});
    }
  }

  lemma DeleteEventKeeps(s: Sys, e: EventId)
    requires Inv(s)
    ensures Inv(DoDeleteEvent(s, e)) && Later(s, DoDeleteEvent(s, e))
  {
    InvParts(s);
    LaterReflexive(s);
    hide Inv, Later, Referenced, Held;
    var r := DeleteEventTx(s.facts.db, e);
    if r.Deleted? {
      CatalogEdited(s, r.db, s.facts.alloc - TypesOfEvent(s.facts.db.types, e));
    }
  }
}
