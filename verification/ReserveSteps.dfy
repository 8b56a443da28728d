/** The reservation transaction: it adds one PENDING order with its items and attendees, and
    takes from every quota what the order now holds. */
module ReserveSteps {
  import opened Wrappers
  import opened Schema
  import opened Request
  import opened Transactions
  import opened System
  import opened Invariant
  import opened SettleSteps

  /** The rows after a reservation. */
  ghost predicate ReservedRows(db: Db, now: int, number: string, req: CheckoutRequest, done: ReserveDone) {
    && done.id == |db.orders|
    && !NumberTaken(db.orders, number)
    && ReservedFrom(db.types, now, req.items, Reservation(done.db.types, done.lines))
    && done.db == db.(types := done.db.types,
                      orders := db.orders + [NewOrder(number, Amount(done.lines))],
                      items := db.items + ItemRows(done.id, done.lines),
                      attendees := db.attendees + AttendeeRows(done.id, Types(req.attendees)))
  }

  lemma ReserveRows(db: Db, now: int, number: string, req: CheckoutRequest, done: ReserveDone)
    requires QuotasOk(db.types) && Accepts(req)
    requires ReserveTx(db, now, number, req) == Ok(done)
    ensures ReservedRows(db, now, number, req, done)
  {
    ReserveLinesEffect(db.types, now, req.items);
  }

  /** Rows of the new order are invisible to every older order. */
  lemma OlderOrdersSame(db: Db, id: OrderId, lines: seq<Line>, types: seq<TypeId>, o: OrderId)
    requires o != id
    ensures LinesOf(db.items + ItemRows(id, lines), o) == LinesOf(db.items, o)
    ensures AttendeesOf(db.attendees + AttendeeRows(id, types), o) == AttendeesOf(db.attendees, o)
    ensures AttendeeTypes(db.attendees + AttendeeRows(id, types), o) == AttendeeTypes(db.attendees, o)
  {
    LinesOfAppend(db.items, ItemRows(id, lines), o);
    LinesOfOthers(ItemRows(id, lines), o);
    AttendeesAppend(db.attendees, AttendeeRows(id, types), o);
  }

  lemma {:induction false} NoAttendeesYet(attendees: seq<AttendeeRow>, o: OrderId)
    requires forall r <- attendees :: r.order != o
    ensures AttendeeTypes(attendees, o) == []
  {
    if attendees != [] {
      NoAttendeesYet(attendees[..|attendees| - 1], o);
    }
  }

  lemma {:induction false} NoTicketsYet(tickets: seq<TicketRow>, o: OrderId)
    requires forall r <- tickets :: r.order != o
    ensures TicketsOf(tickets, o) == []
  {
    if tickets != [] {
      NoTicketsYet(tickets[..|tickets| - 1], o);
    }
  }

  /** The new order's items and attendees are exactly the reserved lines and the request's. */
  lemma NewOrderRows(db: Db, id: OrderId, lines: seq<Line>, types: seq<TypeId>)
    requires RefsOk(db) && id == |db.orders|
    ensures LinesOf(db.items + ItemRows(id, lines), id) == lines
    ensures AttendeeTypes(db.attendees + AttendeeRows(id, types), id) == types
    ensures TicketsOf(db.tickets, id) == []
  {
    LinesOfAppend(db.items, ItemRows(id, lines), id);
    LinesOfOthers(db.items, id);
    ItemRowsLines(id, lines);
    AttendeesAppend(db.attendees, AttendeeRows(id, types), id);
    NoAttendeesYet(db.attendees, id);
    AttendeeRowsTypes(id, types);
    NoTicketsYet(db.tickets, id);
  }

  lemma ReserveRefs(db: Db, now: int, number: string, req: CheckoutRequest, done: ReserveDone)
    requires RefsOk(db) && ReservedRows(db, now, number, req, done) && Accepts(req)
    ensures RefsOk(done.db)
  {
    forall r <- ItemRows(done.id, done.lines) ensures r.order < |done.db.orders| && r.typ in done.db.types {
      var i :| 0 <= i < |done.lines| && ItemRows(done.id, done.lines)[i] == r;
      assert FromType(db.types, now, req.items[i], done.lines[i]);
    }
    forall r <- AttendeeRows(done.id, Types(req.attendees))
      ensures r.order < |done.db.orders| && r.typ in done.db.types
    {
      assert Ordered(req.items, r.typ) by { assert r.typ in Types(req.attendees); }
      var i :| 0 <= i < |req.items| && req.items[i].typ == r.typ;
      assert FromType(db.types, now, req.items[i], done.lines[i]);
    }
    TicketRefsGrow(db, done.db);
  }

  lemma TicketRefsGrow(db: Db, after: Db)
    requires RefsOk(db) && after.tickets == db.tickets && db.attendees <= after.attendees && |db.orders| <= |after.orders|
    ensures forall r <- after.tickets ::
              && r.order < |after.orders| && r.attendee < |after.attendees|
              && after.attendees[r.attendee].order == r.order
  { }

  lemma ReserveSeats(db: Db, now: int, number: string, req: CheckoutRequest, done: ReserveDone)
    requires RefsOk(db) && SeatsMatch(db) && TotalsMatch(db)
    requires ReservedRows(db, now, number, req, done) && Accepts(req)
    ensures SeatsMatch(done.db) && TotalsMatch(done.db)
  {
    var types := Types(req.attendees);
    NewOrderRows(db, done.id, done.lines, types);
    forall o: OrderId, t: TypeId | o < |done.db.orders|
      ensures CountOf(AttendeeTypes(done.db.attendees, o), t) == QtyOf(done.db.items, o, t)
    {
      if o == done.id {
        assert forall i :: 0 <= i < |req.items| ==> FromType(db.types, now, req.items[i], done.lines[i]);
        ExactCounts(req.items, types, done.lines, t);
      } else {
        OlderOrdersSame(db, done.id, done.lines, types, o);
      }
    }
    forall o: OrderId | o < |done.db.orders| ensures done.db.orders[o].total == Amount(LinesOf(done.db.items, o)) {
      if o != done.id {
        OlderOrdersSame(db, done.id, done.lines, types, o);
      }
    }
  }

  lemma ReserveIssued(db: Db, now: int, number: string, req: CheckoutRequest, done: ReserveDone)
    requires RefsOk(db) && IssuedOk(db) && ReservedRows(db, now, number, req, done)
    ensures IssuedOk(done.db)
  {
    var types := Types(req.attendees);
    NewOrderRows(db, done.id, done.lines, types);
    forall o: OrderId | o < |done.db.orders| ensures TicketsOf(done.db.tickets, o) == [] || FullyIssued(done.db, o) {
      if o != done.id {
        OlderOrdersSame(db, done.id, done.lines, types, o);
        assert FullyIssued(db, o) ==> FullyIssued(done.db, o);
      }
    }
  }

  lemma ReserveNumbers(db: Db, now: int, number: string, req: CheckoutRequest, done: ReserveDone)
    requires NumbersUnique(db.orders) && ReservedRows(db, now, number, req, done)
    ensures NumbersUnique(done.db.orders)
  { }

  lemma ReservePositive(db: Db, now: int, number: string, req: CheckoutRequest, done: ReserveDone)
    requires (forall r <- db.items :: r.qty >= 1) && ReservedRows(db, now, number, req, done)
    requires PositiveQuantities(req.items)
    ensures forall r <- done.db.items :: r.qty >= 1
  {
    forall r <- ItemRows(done.id, done.lines) ensures r.qty >= 1 {
      var i :| 0 <= i < |done.lines| && ItemRows(done.id, done.lines)[i] == r;
      assert FromType(db.types, now, req.items[i], done.lines[i]) && req.items[i] in req.items;
    }
  }

  lemma ReserveDbOk(db: Db, now: int, number: string, req: CheckoutRequest, done: ReserveDone)
    requires DbOk(db) && ReservedRows(db, now, number, req, done) && Accepts(req)
    ensures DbOk(done.db)
  {
    hide RefsOk, NumbersUnique, SeatsMatch, TotalsMatch, IssuedOk, CodesUnique;
    ReserveRefs(db, now, number, req, done);
    ReserveSeats(db, now, number, req, done);
    ReserveIssued(db, now, number, req, done);
    ReserveNumbers(db, now, number, req, done);
    ReservePositive(db, now, number, req, done);
  }

  /** What leaves the quotas is what the new order holds. */
  lemma ReserveConserves(db: Db, alloc: map<TypeId, int>, now: int, number: string, req: CheckoutRequest, done: ReserveDone)
    requires RefsOk(db) && Conserved(db, alloc) && ReservedRows(db, now, number, req, done)
    ensures Conserved(done.db, alloc)
  {
    var types := Types(req.attendees);
    NewOrderRows(db, done.id, done.lines, types);
    forall o: OrderId | o < |db.orders| ensures LinesOf(done.db.items, o) == LinesOf(db.items, o) {
      OlderOrdersSame(db, done.id, done.lines, types, o);
    }
    forall t | t in db.types ensures done.db.types[t].quota + Held(done.db, t) == alloc[t] {
      HeldSame(db.orders, db.items, done.db.orders, done.db.items, |db.orders|, t);
    }
  }

  lemma ReserveLater(db: Db, now: int, number: string, req: CheckoutRequest, done: ReserveDone)
    requires ReservedRows(db, now, number, req, done)
    ensures DbLater(db, done.db)
  {
    forall o: OrderId | o < |db.orders| {
      OlderOrdersSame(db, done.id, done.lines, Types(req.attendees), o);
    }
  }

  lemma ReserveFulfilments(f: Facts, now: int, number: string, req: CheckoutRequest, done: ReserveDone)
    requires FulfilmentsOk(f.db, f.owner, f.log) && RefsOk(f.db) && ReservedRows(f.db, now, number, req, done)
    ensures FulfilmentsOk(done.db, f.owner, f.log)
  {
    NewOrderRows(f.db, done.id, done.lines, Types(req.attendees));
  }

  lemma ReserveSettlements(f: Facts, now: int, number: string, req: CheckoutRequest, done: ReserveDone)
    requires SettlementsOk(f.db.orders, f.winner, f.log) && ReservedRows(f.db, now, number, req, done)
    ensures SettlementsOk(done.db.orders, f.winner, f.log)
  { }

  lemma ReserveAudit(db: Db, now: int, number: string, req: CheckoutRequest, done: ReserveDone)
    requires AuditOk(db) && ReservedRows(db, now, number, req, done)
    ensures AuditOk(done.db) && done.db.tickets == db.tickets
    ensures forall x: OrderId :: x < |done.db.orders| && done.db.orders[x].emailSent ==>
              x < |db.orders| && db.orders[x].emailSent
  { }

  lemma ReserveHistory(f: Facts, now: int, number: string, req: CheckoutRequest, done: ReserveDone)
    requires HistoryOk(f) && RefsOk(f.db) && ReservedRows(f.db, now, number, req, done)
    ensures HistoryOk(f.(db := done.db))
  {
    HistoryParts(f);
    hide *;
    ReserveLater(f.db, now, number, req, done);
    ReserveSettlements(f, now, number, req, done);
    ReserveFulfilments(f, now, number, req, done);
    ReserveAudit(f.db, now, number, req, done);
    HistoryCarries(f, done.db);
  }

  lemma ReserveFactsOk(f: Facts, now: int, number: string, req: CheckoutRequest, done: ReserveDone)
    requires FactsOk(f) && RefsOk(f.db) && Accepts(req) && ReservedRows(f.db, now, number, req, done)
    ensures FactsOk(f.(db := done.db)) && FactsLater(f, f.(db := done.db))
  {
    hide ReservedRows, HistoryOk, Conserved, DbOk, RefsOk, Accepts, DbLater;
    ReserveDbOk(f.db, now, number, req, done);
    ReserveConserves(f.db, f.alloc, now, number, req, done);
    ReserveHistory(f, now, number, req, done);
    ReserveLater(f.db, now, number, req, done);
  }

  lemma ReserveKeeps(f: Facts, now: int, number: string, req: CheckoutRequest, done: ReserveDone)
    requires FactsOk(f) && Accepts(req) && ReserveTx(f.db, now, number, req) == Ok(done)
    ensures FactsOk(f.(db := done.db)) && FactsLater(f, f.(db := done.db))
    ensures done.id < |done.db.orders| && done.lines == LinesOf(done.db.items, done.id)
  {
    FactsQuotas(f);
    DbRefs(f.db);
    hide FactsOk, FactsLater, RefsOk, Accepts, ReserveTx, ReservedFrom;
    ReserveRows(f.db, now, number, req, done);
    NewOrderRows(f.db, done.id, done.lines, Types(req.attendees));
    ReserveFactsOk(f, now, number, req, done);
  }

  lemma DbRefs(db: Db)
    requires DbOk(db)
    ensures RefsOk(db)
  { }

  lemma ReserveProcs(f: Facts, p: Pid, req: CheckoutRequest, attempts: nat, done: ReserveDone)
    requires ProcOk(f, p, Reserving(req, attempts))
    ensures Accepts(req)
    ensures attempts > 1 ==> ProcOk(f, p, Reserving(req, attempts - 1))
    ensures ProcOk(f, p, Finished(Failure))
    ensures done.id < |f.db.orders| && done.lines == LinesOf(f.db.items, done.id) ==>
              ProcOk(f, p, OpeningPayment(done.id, done.lines))
  { }

  lemma DoReserveKeeps(s: Sys, p: Pid, number: string, fate: Fate)
    requires Inv(s)
    ensures Inv(DoReserve(s, p, number, fate)) && Later(s, DoReserve(s, p, number, fate))
  {
    LaterReflexive(s);
    if p in s.procs && s.procs[p].Reserving? {
      assert ProcOk(s.facts, p, s.procs[p]);
      InvFacts(s);
      hide Inv, Later, ProcOk, FactsOk, FactsLater, ReserveTx, Accepts, Unissued;
      var req, attempts := s.procs[p].req, s.procs[p].attempts;
      var r := ReserveTx(s.facts.db, s.clock, number, req);
      if r.Ok? && fate != RollsBack {
        var f := s.facts.(db := r.value.db);
        ReserveProcs(s.facts, p, req, attempts, r.value);
        ReserveKeeps(s.facts, s.clock, number, req, r.value);
        FinishedOk(f, p);
        OpeningOk(f, p, r.value);
        assert r.value.db.tickets == s.facts.db.tickets by { ReserveTickets(s.facts.db, s.clock, number, req, r.value); }
        UnissuedSame(s.facts, r.value.db, p);
        CommitStep(s, f, p, DoReserve(s, p, number, fate).procs[p]);
      } else {
        ReserveProcs(s.facts, p, req, attempts, ReserveDone(s.facts.db, 0, []));
        LocalStep(s, p, DoReserve(s, p, number, fate).procs[p]);
      }
    }
  }

  lemma ReserveTickets(db: Db, now: int, number: string, req: CheckoutRequest, done: ReserveDone)
    requires ReserveTx(db, now, number, req) == Ok(done)
    ensures done.db.tickets == db.tickets
  { }

  lemma OpeningOk(f: Facts, p: Pid, done: ReserveDone)
    requires done.id < |f.db.orders| && done.lines == LinesOf(f.db.items, done.id)
    ensures ProcOk(f, p, OpeningPayment(done.id, done.lines))
  { }
}
