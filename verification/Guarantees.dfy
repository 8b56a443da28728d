/** What holds in every state of every run, however the processes interleave and whichever
    statements, commits, gateway calls and sends fail. */
module Guarantees {
  import opened Wrappers
  import opened Schema
  import opened Request
  import opened ProviderStatus
  import opened Transactions
  import opened System
  import opened Invariant
  import opened ReserveSteps
  import opened Runs
  import opened History

  // --- Seats ----------------------------------------------------------------------------

  /** Remaining quota and the seats of PENDING and PAID orders make up the allocation. */
  lemma SeatConservation(s: Sys, t: TypeId)
    requires Reachable(s) && t in s.facts.db.types
    ensures t in s.facts.alloc
    ensures s.facts.db.types[t].quota + Held(s.facts.db, t) == s.facts.alloc[t]
  {
    ReachableInv(s);
  }

  /** The types that attendees were registered for. */
  function TypesAt(attendees: seq<AttendeeRow>, ids: seq<AttendeeId>): (types: seq<TypeId>)
    requires forall i :: 0 <= i < |ids| ==> ids[i] < |attendees|
  {
    seq(|ids|, i requires 0 <= i < |ids| => attendees[ids[i]].typ)
  }

  ghost predicate InRange(attendees: seq<AttendeeRow>, tickets: seq<TicketRow>) {
    forall i :: 0 <= i < |tickets| ==> tickets[i].attendee < |attendees|
  }

  /** Tickets of type t among these rows. */
  function IssuedOf(attendees: seq<AttendeeRow>, tickets: seq<TicketRow>, t: TypeId): (n: nat)
    requires InRange(attendees, tickets)
  {
    if tickets == [] then 0
    else
      IssuedOf(attendees, tickets[..|tickets| - 1], t)
      + if attendees[tickets[|tickets| - 1].attendee].typ == t then 1 else 0
  }

  /** Tickets of type t that were admitted. */
  function UsedOf(attendees: seq<AttendeeRow>, tickets: seq<TicketRow>, t: TypeId): (n: nat)
    requires InRange(attendees, tickets)
  {
    if tickets == [] then 0
    else
      var last := tickets[|tickets| - 1];
      UsedOf(attendees, tickets[..|tickets| - 1], t)
      + if last.status == Used && attendees[last.attendee].typ == t then 1 else 0
  }

  lemma {:induction false} UsedAtMostIssued(attendees: seq<AttendeeRow>, tickets: seq<TicketRow>, t: TypeId)
    requires InRange(attendees, tickets)
    ensures UsedOf(attendees, tickets, t) <= IssuedOf(attendees, tickets, t)
  {
    if tickets != [] {
      UsedAtMostIssued(attendees, tickets[..|tickets| - 1], t);
    }
  }

  lemma TicketsOfInRange(attendees: seq<AttendeeRow>, tickets: seq<TicketRow>, o: OrderId)
    requires InRange(attendees, tickets)
    ensures InRange(attendees, TicketsOf(tickets, o))
  {
    TicketsOfAreRows(tickets, o);
    var rows := TicketsOf(tickets, o);
    forall i | 0 <= i < |rows| ensures rows[i].attendee < |attendees| {
      assert rows[i] in tickets;
    }
  }

  /** Tickets of type t of the first n orders, counted order by order. */
  function IssuedBy(attendees: seq<AttendeeRow>, tickets: seq<TicketRow>, n: nat, t: TypeId): (m: nat)
    requires InRange(attendees, tickets)
  {
    if n == 0 then 0
    else
      TicketsOfInRange(attendees, tickets, n - 1);
      IssuedBy(attendees, tickets, n - 1, t) + IssuedOf(attendees, TicketsOf(tickets, n - 1), t)
  }

  lemma {:induction false} NoneIssued(attendees: seq<AttendeeRow>, n: nat, t: TypeId)
    ensures IssuedBy(attendees, [], n, t) == 0
  {
    if n != 0 {
      NoneIssued(attendees, n - 1, t);
    }
  }

  lemma IssuedOfAppend(attendees: seq<AttendeeRow>, rows: seq<TicketRow>, row: TicketRow, t: TypeId)
    requires InRange(attendees, rows) && row.attendee < |attendees|
    ensures IssuedOf(attendees, rows + [row], t)
         == IssuedOf(attendees, rows, t) + if attendees[row.attendee].typ == t then 1 else 0
  {
    assert (rows + [row])[..|rows|] == rows;
  }

  lemma TicketsOfAppend(tickets: seq<TicketRow>, row: TicketRow, o: OrderId)
    ensures TicketsOf(tickets + [row], o) == TicketsOf(tickets, o) + if row.order == o then [row] else []
  {
    assert (tickets + [row])[..|tickets|] == tickets;
  }

  /** One more row adds to the count of its own order, once. */
  lemma {:induction false} IssuedByAppend(attendees: seq<AttendeeRow>, tickets: seq<TicketRow>, row: TicketRow, n: nat, t: TypeId)
    requires InRange(attendees, tickets) && row.attendee < |attendees|
    ensures IssuedBy(attendees, tickets + [row], n, t)
         == IssuedBy(attendees, tickets, n, t)
            + if row.order < n && attendees[row.attendee].typ == t then 1 else 0
  {
    hide TicketsOf, IssuedOf;
    if n != 0 {
      var rows := TicketsOf(tickets, n - 1);
      IssuedByAppend(attendees, tickets, row, n - 1, t);
      TicketsOfInRange(attendees, tickets, n - 1);
      TicketsOfAppend(tickets, row, n - 1);
      IssuedOfAppend(attendees, rows, row, t);
      assert rows + [] == rows;
      assert IssuedBy(attendees, tickets + [row], n, t)
          == IssuedBy(attendees, tickets + [row], n - 1, t) + IssuedOf(attendees, TicketsOf(tickets + [row], n - 1), t);
    }
  }

  /** Counting the table and counting order by order agree. */
  lemma {:induction false} CountByOrder(attendees: seq<AttendeeRow>, tickets: seq<TicketRow>, n: nat, t: TypeId)
    requires InRange(attendees, tickets) && forall i :: 0 <= i < |tickets| ==> tickets[i].order < n
    ensures IssuedOf(attendees, tickets, t) == IssuedBy(attendees, tickets, n, t)
  {
    if tickets == [] {
      NoneIssued(attendees, n, t);
    } else {
      var front, last := tickets[..|tickets| - 1], tickets[|tickets| - 1];
      CountByOrder(attendees, front, n, t);
      IssuedByAppend(attendees, front, last, n, t);
      assert tickets == front + [last];
    }
  }

  /** The tickets' own types are the types of their holders. */
  lemma {:induction false} IssuedOfHolders(attendees: seq<AttendeeRow>, rows: seq<TicketRow>, t: TypeId)
    requires InRange(attendees, rows)
    ensures forall i :: 0 <= i < |rows| ==> Holders(rows)[i] < |attendees|
    ensures IssuedOf(attendees, rows, t) == CountOf(TypesAt(attendees, Holders(rows)), t)
  {
    if rows != [] {
      var front := rows[..|rows| - 1];
      IssuedOfHolders(attendees, front, t);
      assert Holders(rows)[..|rows| - 1] == Holders(front);
      assert TypesAt(attendees, Holders(rows))[..|rows| - 1] == TypesAt(attendees, Holders(front));
    }
  }

  /** Looking up the ids of an order's attendees gives the types they were registered for. */
  lemma {:induction false} TypesOfAttendees(all: seq<AttendeeRow>, n: nat, o: OrderId)
    requires n <= |all|
    ensures forall i :: 0 <= i < |AttendeesOf(all[..n], o)| ==> AttendeesOf(all[..n], o)[i] < n
    ensures TypesAt(all, AttendeesOf(all[..n], o)) == AttendeeTypes(all[..n], o)
  {
    if n != 0 {
      assert all[..n][..n - 1] == all[..n - 1];
      TypesOfAttendees(all, n - 1, o);
    }
  }

  /** No order has more tickets of a type than seats of it that it holds. */
  lemma IssuedWithinHeld(db: Db, o: OrderId, t: TypeId)
    requires IssuedOk(db) && SeatsMatch(db) && InRange(db.attendees, db.tickets) && o < |db.orders|
    requires InRange(db.attendees, TicketsOf(db.tickets, o))
    ensures IssuedOf(db.attendees, TicketsOf(db.tickets, o), t)
         <= if Holds(db.orders[o].status) && TicketsOf(db.tickets, o) != [] then QtyOf(db.items, o, t) else 0
  {
    var rows := TicketsOf(db.tickets, o);
    if rows != [] {
      IssuedOfHolders(db.attendees, rows, t);
      TypesOfAttendees(db.attendees, |db.attendees|, o);
      assert db.attendees[..|db.attendees|] == db.attendees;
      assert FullyIssued(db, o);
    }
  }

  lemma {:induction false} IssuedByWithinHeld(db: Db, n: nat, t: TypeId)
    requires IssuedOk(db) && SeatsMatch(db) && InRange(db.attendees, db.tickets) && n <= |db.orders|
    requires forall r <- db.items :: r.qty >= 1
    ensures IssuedBy(db.attendees, db.tickets, n, t) <= HeldBy(db.orders, db.items, n, t)
  {
    hide SeatsMatch, IssuedOk, IssuedOf, TicketsOf, QtyOf;
    if n != 0 {
      IssuedByWithinHeld(db, n - 1, t);
      TicketsOfInRange(db.attendees, db.tickets, n - 1);
      IssuedWithinHeld(db, n - 1, t);
      QtyOfNonNegative(db.items, n - 1, t);
    }
  }

  lemma IssuedAtMostHeld(db: Db, t: TypeId)
    requires DbOk(db)
    ensures InRange(db.attendees, db.tickets)
    ensures IssuedOf(db.attendees, db.tickets, t) <= Held(db, t)
  {
    CountByOrder(db.attendees, db.tickets, |db.orders|, t);
    IssuedByWithinHeld(db, |db.orders|, t);
  }

  /** No overselling: tickets issued plus remaining quota never exceed the seats allocated, and
      admissions never exceed the tickets. */
  lemma NoOverselling(s: Sys, t: TypeId)
    requires Reachable(s) && t in s.facts.db.types
    ensures InRange(s.facts.db.attendees, s.facts.db.tickets) && t in s.facts.alloc
    ensures IssuedOf(s.facts.db.attendees, s.facts.db.tickets, t) + s.facts.db.types[t].quota <= s.facts.alloc[t]
    ensures UsedOf(s.facts.db.attendees, s.facts.db.tickets, t) <= IssuedOf(s.facts.db.attendees, s.facts.db.tickets, t)
  {
    ReachableDb(s);
    SeatConservation(s, t);
    hide *;
    IssuedAtMostHeld(s.facts.db, t);
    UsedAtMostIssued(s.facts.db.attendees, s.facts.db.tickets, t);
  }

  /** The catalog actions on one type of one event. */
  predicate EditsType(a: Action, t: TypeId, e: EventId) {
    || ((a.CreateType? || a.UpdateType? || a.DeleteType?) && a.typ == t)
    || (a.DeleteEvent? && a.event == e)
  }

  lemma OtherEditsLeaveType(s: Sys, a: Action, t: TypeId)
    requires s.facts.alloc.Keys == s.facts.db.types.Keys && t in s.facts.db.types
    requires EditsCatalog(a) && !EditsType(a, t, s.facts.db.types[t].event)
    ensures var f, g := s.facts, Next(s, a).facts;
            t in g.db.types && g.db.types[t] == f.db.types[t] && t in g.alloc && g.alloc[t] == f.alloc[t]
  {
    hide Referenced;
  }

  lemma UntouchedType(s: Sys, a: Action, t: TypeId)
    requires Inv(s) && t in s.facts.db.types && !EditsType(a, t, s.facts.db.types[t].event)
    ensures var f, g := s.facts, Next(s, a).facts;
            && t in g.db.types && g.db.types[t].event == f.db.types[t].event
            && t in f.alloc && t in g.alloc && g.alloc[t] == f.alloc[t]
  {
    AllocatedTypes(s);
    if EditsCatalog(a) {
      OtherEditsLeaveType(s, a, t);
    } else {
      OrdersKeepTypes(s, a);
      AllocationKept(s, a);
    }
    hide Inv, Next;
  }

  lemma {:induction false} AllocationStands(s: Sys, actions: seq<Action>, t: TypeId)
    requires Inv(s) && t in s.facts.db.types
    requires forall a <- actions :: !EditsType(a, t, s.facts.db.types[t].event)
    ensures var f, g := s.facts, Run(s, actions).facts;
            && t in g.db.types && g.db.types[t].event == f.db.types[t].event
            && t in f.alloc && t in g.alloc && g.alloc[t] == f.alloc[t]
    ensures Inv(Run(s, actions))
  {
    RunKeeps(s, actions);
    if actions == [] {
      AllocatedTypes(s);
    } else {
      hide Inv, Next, EditsType, Later;
      var front, last := actions[..|actions| - 1], actions[|actions| - 1];
      assert last in actions && forall a <- front :: a in actions;
      AllocationStands(s, front, t);
      UntouchedType(Run(s, front), last, t);
    }
  }

  lemma InvSeats(s: Sys, t: TypeId)
    requires Inv(s) && t in s.facts.db.types
    ensures t in s.facts.alloc && s.facts.alloc[t] == s.facts.db.types[t].quota + Held(s.facts.db, t)
    ensures DbOk(s.facts.db)
  { }

  /** Without the history: over any run with no catalog action on a type, its remaining quota
      and held seats keep their sum, and the tickets ever issued for it fit in what remains. */
  lemma SeatsStand(s: Sys, actions: seq<Action>, t: TypeId)
    requires Reachable(s) && t in s.facts.db.types
    requires forall a <- actions :: !EditsType(a, t, s.facts.db.types[t].event)
    ensures var a, b := s.facts.db, Run(s, actions).facts.db;
            && t in b.types
            && b.types[t].quota + Held(b, t) == a.types[t].quota + Held(a, t)
            && InRange(b.attendees, b.tickets)
            && IssuedOf(b.attendees, b.tickets, t) + b.types[t].quota <= a.types[t].quota + Held(a, t)
  {
    ReachableInv(s);
    AllocationStands(s, actions, t);
    InvSeats(s, t);
    InvSeats(Run(s, actions), t);
    hide Inv, Run, DbOk, Held, IssuedOf;
    IssuedAtMostHeld(Run(s, actions).facts.db, t);
  }

  /** So a type that is created with n seats, and not edited since, never has more than n tickets. */
  lemma NeverMoreThanCreated(s: Sys, t: TypeId, row: TicketType, actions: seq<Action>)
    requires Reachable(s) && CreateTypeTx(s.facts.db, t, row).Applied?
    requires forall a <- actions :: !EditsType(a, t, row.event)
    ensures var b := Run(Next(s, CreateType(t, row)), actions).facts.db;
            && t in b.types && InRange(b.attendees, b.tickets)
            && IssuedOf(b.attendees, b.tickets, t) + b.types[t].quota <= row.quota
  {
    ReachableInv(s);
    NextKeeps(s, CreateType(t, row));
    var created := Next(s, CreateType(t, row));
    AllocationOf(s, CreateType(t, row), t);
    AllocationStands(created, actions, t);
    InvSeats(Run(created, actions), t);
    hide Inv, Run, DbOk, Held, IssuedOf, Reachable;
    IssuedAtMostHeld(Run(created, actions).facts.db, t);
  }

  lemma ReachableDb(s: Sys)
    requires Reachable(s)
    ensures DbOk(s.facts.db) && HistoryOk(s.facts)
  {
    ReachableInv(s);
  }

  // --- Settlement ---------------------------------------------------------------------------

  /** Over a whole run an order is settled at most once and its seats are released at most
      once: exactly when it ended CANCELLED or EXPIRED, and never when it was paid. */
  lemma SettledAtMostOnce(s: Sys, o: OrderId)
    requires Reachable(s)
    ensures SettledCount(s.facts.log, o) == if IsSettled(s.facts.db, o) then 1 else 0
    ensures ReleasedCount(s.facts.log, o)
         == if IsSettled(s.facts.db, o) && s.facts.db.orders[o].status != Paid then 1 else 0
  {
    ReachableInv(s);
  }

  /** A settled order never changes status again, and nothing about its seats either. */
  lemma SettledForGood(s: Sys, actions: seq<Action>, o: OrderId)
    requires Reachable(s) && IsSettled(s.facts.db, o)
    ensures var later := Run(s, actions).facts.db;
            && o < |later.orders| && later.orders[o].status == s.facts.db.orders[o].status
            && LinesOf(later.items, o) == LinesOf(s.facts.db.items, o)
    ensures SettledCount(Run(s, actions).facts.log, o) == 1
  {
    ReachableInv(s);
    RunKeeps(s, actions);
  }

  /** An order in any reachable state can be restored line by line: all its types exist, so a
      release fails only when a quota would leave its column. */
  lemma ReleaseIff(s: Sys, o: OrderId, status: Status)
    requires Reachable(s) && IsPending(s.facts.db, o)
    ensures SettleTx(s.facts.db, o, status, true, LinesOf(s.facts.db.items, o)).Applied? <==>
            forall t :: t in s.facts.db.types ==>
              s.facts.db.types[t].quota + QtyOf(s.facts.db.items, o, t) <= MAX_INT32
  {
    ReachableDb(s);
    LinesOk(s.facts.db, o);
    hide DbOk, HistoryOk;
    RestoreIff(s.facts.db.types, LinesOf(s.facts.db.items, o));
  }

  lemma LinesOk(db: Db, o: OrderId)
    requires DbOk(db)
    ensures QuotasOk(db.types)
    ensures forall l <- LinesOf(db.items, o) :: l.qty >= 1 && l.typ in db.types
  {
    QtyOfNonNegative(db.items, o, 0);
    LinesOfFromRows(db.items, o);
  }

  /** As long as no type was allocated more seats than its quota column can hold, a release
      never fails. */
  lemma ReleaseFits(s: Sys, o: OrderId, status: Status)
    requires Reachable(s) && IsPending(s.facts.db, o)
    requires forall t :: t in s.facts.alloc ==> s.facts.alloc[t] <= MAX_INT32
    ensures SettleTx(s.facts.db, o, status, true, LinesOf(s.facts.db.items, o)).Applied?
  {
    ReleaseIff(s, o, status);
    ReachableInv(s);
    var db := s.facts.db;
    forall t | t in db.types ensures db.types[t].quota + QtyOf(db.items, o, t) <= MAX_INT32 {
      HeldAtLeast(db.orders, db.items, |db.orders|, o, t);
    }
  }

  /** Nothing but administration can make a release fail: an absolute quota edit to the top of
      the column, while an order holds seats, leaves that order unable to give them back. */
  lemma ReleaseMayFail(db: Db, o: OrderId, status: Status, t: TypeId, row: TicketType)
    requires DbOk(db) && IsPending(db, o) && t in db.types && QtyOf(db.items, o, t) >= 1
    requires row.quota == MAX_INT32 && PriceFits(row.price)
    ensures UpdateTypeTx(db, t, row).Applied?
    ensures SettleTx(UpdateTypeTx(db, t, row).db, o, status, true, LinesOf(db.items, o)) == Failed
  {
    LinesOk(db, o);
    RestoreIff(UpdateTypeTx(db, t, row).db.types, LinesOf(db.items, o));
  }

  /** The two restorers agree: what checkout remembers of its reservation is what the order's
      rows say, whenever it comes to compensate. */
  lemma RestorersAgree(s: Sys, p: Pid)
    requires Reachable(s) && p in s.procs && (s.procs[p].Compensating? || s.procs[p].OpeningPayment?)
    ensures s.procs[p].lines == LinesOf(s.facts.db.items, s.procs[p].id)
  {
    ReachableInv(s);
    assert ProcOk(s.facts, p, s.procs[p]);
  }

  lemma LineOf(lines: seq<Line>, items: seq<CheckoutItem>, types: map<TypeId, TicketType>, now: int, i: nat)
    requires DistinctTypes(items) && |lines| == |items| && i < |items|
    requires forall j :: 0 <= j < |items| ==> FromType(types, now, items[j], lines[j])
    ensures Qty(lines, items[i].typ) == items[i].qty
  {
    QtyOfDistinct(lines, i);
  }

  /** A reservation takes from each ordered type exactly its quantity and from no other type
      anything, and adds exactly one PENDING order: at its items' current prices, with the
      request's attendees, and with no ticket. */
  lemma ReservationIsExact(db: Db, now: int, number: string, req: CheckoutRequest, done: ReserveDone)
    requires QuotasOk(db.types) && RefsOk(db) && Accepts(req) && ReserveTx(db, now, number, req) == Ok(done)
    ensures done.db.types.Keys == db.types.Keys
    ensures forall i :: 0 <= i < |req.items| ==>
              var t := req.items[i].typ;
              t in db.types && done.db.types[t] == db.types[t].(quota := db.types[t].quota - req.items[i].qty)
    ensures forall t :: t in db.types && !Ordered(req.items, t) ==> done.db.types[t] == db.types[t]
    ensures done.id == |db.orders|
    ensures done.db.orders == db.orders + [Order(number, Amount(done.lines), Pending, None, None, false)]
    ensures var lines := LinesOf(done.db.items, done.id);
            && |lines| == |req.items|
            && forall i :: 0 <= i < |req.items| ==> FromType(db.types, now, req.items[i], lines[i])
    ensures AttendeeTypes(done.db.attendees, done.id) == Types(req.attendees)
    ensures TicketsOf(done.db.tickets, done.id) == []
  {
    hide RefsOk, ReserveTx, NumberTaken, Exact;
    ReserveRows(db, now, number, req, done);
    NewOrderRows(db, done.id, done.lines, Types(req.attendees));
    forall i | 0 <= i < |req.items| ensures Qty(done.lines, req.items[i].typ) == req.items[i].qty {
      LineOf(done.lines, req.items, db.types, now, i);
    }
    forall t | !Ordered(req.items, t) ensures Qty(done.lines, t) == 0 {
      QtyOfAbsent(done.lines, t);
    }
  }

  /** Giving back what was reserved is the inverse of reserving it. */
  lemma RestoringUndoesReserving(types: map<TypeId, TicketType>, now: int, items: seq<CheckoutItem>, r: Reservation)
    requires QuotasOk(types) && PositiveQuantities(items) && ReservedFrom(types, now, items, r)
    ensures RestoreLines(r.types, r.lines) == Some(types)
  {
    ReservedLinesOk(types, now, items, r);
    hide RestoreLines;
    RestoreIff(r.types, r.lines);
    RestoreEffect(r.types, r.lines);
    assert RestoreLines(r.types, r.lines).value == types;
  }

  /** So a gateway failure that nothing comes between restores every quota exactly. */
  lemma CompensationIsExact(db: Db, now: int, number: string, req: CheckoutRequest, done: ReserveDone)
    requires QuotasOk(db.types) && Accepts(req) && ReserveTx(db, now, number, req) == Ok(done)
    ensures var r := SettleTx(done.db, done.id, Cancelled, true, done.lines);
            r.Applied? && r.db.types == db.types
  {
    hide ReserveLines, RestoreLines, QuotasOk, PositiveQuantities, ReservedFrom, Exact, NumberTaken;
    ReserveLinesEffect(db.types, now, req.items);
    RestoringUndoesReserving(db.types, now, req.items, Reservation(done.db.types, done.lines));
  }

  lemma ReservedLinesOk(types: map<TypeId, TicketType>, now: int, items: seq<CheckoutItem>, r: Reservation)
    requires ReservedFrom(types, now, items, r) && PositiveQuantities(items)
    ensures forall l <- r.lines :: l.qty >= 1 && l.typ in r.types
  {
    forall l <- r.lines ensures l.qty >= 1 && l.typ in r.types {
      var i :| 0 <= i < |r.lines| && r.lines[i] == l;
      assert FromType(types, now, items[i], r.lines[i]) && items[i] in items;
    }
  }

  // --- Issuance and delivery -------------------------------------------------------------------

  /** Different rows of the table are different rows among their order's tickets. */
  lemma {:induction false} RowsApart(tickets: seq<TicketRow>, o: OrderId, i: nat, j: nat) returns (x: nat, y: nat)
    requires i < j < |tickets| && tickets[i].order == o == tickets[j].order
    ensures x < y < |TicketsOf(tickets, o)|
    ensures TicketsOf(tickets, o)[x] == tickets[i] && TicketsOf(tickets, o)[y] == tickets[j]
  {
    var front := tickets[..|tickets| - 1];
    if j < |front| {
      x, y := RowsApart(front, o, i, j);
    } else {
      TicketsOfAreRows(front, o);
      assert front[i] in front;
      x :| 0 <= x < |TicketsOf(front, o)| && TicketsOf(front, o)[x] == tickets[i];
      y := |TicketsOf(front, o)|;
    }
  }

  lemma HoldersApart(db: Db, o: OrderId, x: nat, y: nat)
    requires FullyIssued(db, o) && x < y < |TicketsOf(db.tickets, o)|
    ensures TicketsOf(db.tickets, o)[x].attendee != TicketsOf(db.tickets, o)[y].attendee
  {
    AttendeesOfAscend(db.attendees, o);
    assert Holders(TicketsOf(db.tickets, o))[x] < Holders(TicketsOf(db.tickets, o))[y];
  }

  /** No attendee ever gets two tickets. */
  lemma OneTicketPerAttendee(s: Sys, i: nat, j: nat)
    requires Reachable(s) && i < j < |s.facts.db.tickets|
    ensures s.facts.db.tickets[i].attendee != s.facts.db.tickets[j].attendee
    ensures s.facts.db.tickets[i].code != s.facts.db.tickets[j].code
  {
    ReachableDb(s);
    var db := s.facts.db;
    assert db.tickets[i] in db.tickets && db.tickets[j] in db.tickets;
    if db.tickets[i].order == db.tickets[j].order {
      var o := db.tickets[i].order;
      var x, y := RowsApart(db.tickets, o, i, j);
      assert FullyIssued(db, o);
      HoldersApart(db, o, x, y);
    }
  }

  /** An order that has any ticket is PAID and has one for every attendee, in order. */
  lemma AllOrNoTickets(s: Sys, row: TicketRow, id: AttendeeId)
    requires Reachable(s) && row in s.facts.db.tickets
    requires id < |s.facts.db.attendees| && s.facts.db.attendees[id].order == row.order
    ensures row.order < |s.facts.db.orders| && s.facts.db.orders[row.order].status == Paid
    ensures exists other :: other in s.facts.db.tickets && other.order == row.order && other.attendee == id
  {
    var db, o := s.facts.db, row.order;
    TicketsOfAreRows(db.tickets, o);
    AttendeesOfAreRows(db.attendees, o);
    assert row in TicketsOf(db.tickets, o);
    IssuedInFull(s, row);
    hide Reachable, Run;
    assert id in AttendeesOf(db.attendees, o);
    var k :| 0 <= k < |AttendeesOf(db.attendees, o)| && AttendeesOf(db.attendees, o)[k] == id;
    assert Holders(TicketsOf(db.tickets, o))[k] == TicketsOf(db.tickets, o)[k].attendee;
    assert TicketsOf(db.tickets, o)[k] in TicketsOf(db.tickets, o);
  }

  lemma IssuedInFull(s: Sys, row: TicketRow)
    requires Reachable(s) && row in s.facts.db.tickets && TicketsOf(s.facts.db.tickets, row.order) != []
    ensures FullyIssued(s.facts.db, row.order)
  {
    ReachableDb(s);
    assert RefsOk(s.facts.db);
  }

  /** A settling commit that pays starts the fulfilment exactly when it is reported as such. */
  lemma PaymentStartsFulfilment(s: Sys, p: Pid, fate: Fate, child: Pid)
    requires Reachable(s) && p in s.procs && child !in s.procs && (s.procs[p].Settling? || s.procs[p].Committing?)
    requires s.procs[p].outcome == PAYS && IsPending(s.facts.db, s.procs[p].ord.id) && fate != RollsBack
    ensures var o, later := s.procs[p].ord.id, Next(s, Settle(p, fate, child)).facts;
            && o < |later.db.orders| && later.db.orders[o].status == Paid
            && (o in later.owner <==> fate == Commits)
  {
    PayingCaller(s, p);
    hide Reachable, RestoreLines, LinesOf;
  }

  /** Only an answer pays, and a PENDING order has no fulfilment yet. */
  lemma PayingCaller(s: Sys, p: Pid)
    requires Reachable(s) && p in s.procs && (s.procs[p].Settling? || s.procs[p].Committing?)
    requires s.procs[p].outcome == PAYS && IsPending(s.facts.db, s.procs[p].ord.id)
    ensures s.procs[p].caller.ForAnswer? && s.procs[p].ord.id !in s.facts.owner
  {
    ReachableInv(s);
    assert ProcOk(s.facts, p, s.procs[p]);
    assert FulfilmentsOk(s.facts.db, s.facts.owner, s.facts.log);
  }

  lemma OwnerComesWithPayment(s: Sys, a: Action, o: OrderId)
    requires IsSettled(s.facts.db, o) && o !in s.facts.owner
    ensures o !in Next(s, a).facts.owner
  {
    OwnersAndWinners(s, a);
    hide Next, Starts, Settles;
  }

  /** So an order that was paid by a commit reported as an error never gets a ticket: no later
      notification, refresh or sweep starts its fulfilment. */
  lemma {:induction false} NeverFulfilled(s: Sys, actions: seq<Action>, o: OrderId)
    requires Reachable(s) && IsSettled(s.facts.db, o) && o !in s.facts.owner
    ensures o !in Run(s, actions).facts.owner && TicketsOf(Run(s, actions).facts.db.tickets, o) == []
  {
    ReachableInv(s);
    RunKeeps(s, actions);
    hide Reachable, Next, Inv;
    if actions != [] {
      var before := Run(s, actions[..|actions| - 1]);
      NeverFulfilled(s, actions[..|actions| - 1], o);
      SettledForGood(s, actions[..|actions| - 1], o);
      OwnerComesWithPayment(before, actions[|actions| - 1], o);
    }
    UnownedHasNoTickets(Run(s, actions), o);
  }

  lemma UnownedHasNoTickets(s: Sys, o: OrderId)
    requires Inv(s) && o !in s.facts.owner
    ensures TicketsOf(s.facts.db.tickets, o) == []
  {
    assert FulfilmentsOk(s.facts.db, s.facts.owner, s.facts.log) && RefsOk(s.facts.db);
    hide Inv;
    if o >= |s.facts.db.orders| {
      NoTicketsYet(s.facts.db.tickets, o);
    }
  }

  /** Fulfilment starts at most once per order, and only when it was paid. */
  lemma FulfilledAtMostOnce(s: Sys, o: OrderId)
    requires Reachable(s)
    ensures StartedCount(s.facts.log, o) <= 1
    ensures StartedCount(s.facts.log, o) == 1 ==> IsSettled(s.facts.db, o) && s.facts.db.orders[o].status == Paid
  {
    ReachableDb(s);
  }

  /** Every email for an order, first send or resend, carries the same complete ticket list. */
  lemma EmailsAgree(s: Sys, o: OrderId, a: seq<string>, b: seq<string>)
    requires Reachable(s) && Emailed(o, a) in s.facts.log && Emailed(o, b) in s.facts.log
    ensures a == b && a != []
    ensures FullyIssued(s.facts.db, o) && a == Codes(TicketsOf(s.facts.db.tickets, o))
  {
    ReachableDb(s);
    assert Deliverable(s.facts.db, o, a) && Deliverable(s.facts.db, o, b);
  }

  /** The delivery flag means a complete delivery of a paid order. */
  lemma SentMeansDelivered(s: Sys, o: OrderId)
    requires Reachable(s) && o < |s.facts.db.orders| && s.facts.db.orders[o].emailSent
    ensures Emailed(o, Codes(TicketsOf(s.facts.db.tickets, o))) in s.facts.log
    ensures FullyIssued(s.facts.db, o) && TicketsOf(s.facts.db.tickets, o) != []
  {
    ReachableDb(s);
    assert WasEmailed(s.facts.log, o);
    var codes :| Emailed(o, codes) in s.facts.log;
    assert Deliverable(s.facts.db, o, codes);
    assert |codes| == |TicketsOf(s.facts.db.tickets, o)|;
  }

  // --- The door, and the audit trail ------------------------------------------------------------

  /** A code is admitted at most once over a run, exactly when its ticket is USED. */
  lemma AdmittedAtMostOnce(s: Sys, code: string)
    requires Reachable(s)
    ensures AdmittedCount(s.facts.log, code) == if IsUsed(s.facts.db.tickets, code) then 1 else 0
    ensures Admissible(s.facts.db.tickets, code) ==> AdmittedCount(s.facts.log, code) == 0
  {
    ReachableDb(s);
  }

  /** Every PAID order has a recorded provider answer that maps to PAID. */
  lemma PaidIsRecorded(s: Sys, o: OrderId)
    requires Reachable(s) && o < |s.facts.db.orders| && s.facts.db.orders[o].status == Paid
    ensures exists r :: r in s.facts.db.payments && r.order == o && OutcomeOf(r.answer).status == Some(Paid)
  {
    ReachableDb(s);
    assert PaymentRecorded(s.facts.db.payments, o);
  }

  /** Everything an order, an attendee or a ticket refers to exists, after any deletion. */
  lemma ReferencesIntact(s: Sys)
    requires Reachable(s)
    ensures RefsOk(s.facts.db)
  {
    ReachableDb(s);
  }

  // --- Refresh ----------------------------------------------------------------------------------------

  /** A refresh that says it changed the order reports the final status that it wrote itself. */
  lemma ChangedIsTruthful(s: Sys, p: Pid, actions: seq<Action>)
    requires Reachable(s) && p in s.procs && s.procs[p].Finished?
    requires s.procs[p].reply.Refreshed? && s.procs[p].reply.changed
    ensures var reply, later := s.procs[p].reply, Run(s, actions).facts;
            && reply.status != Pending
            && reply.id < |later.db.orders| && later.db.orders[reply.id].status == reply.status
            && reply.id in later.winner && later.winner[reply.id] == p
  {
    ReachableInv(s);
    ChangedReply(s, p);
    hide Inv, Run, Reachable;
    RunKeeps(s, actions);
  }

  lemma ChangedReply(s: Sys, p: Pid)
    requires Inv(s) && p in s.procs && s.procs[p].Finished?
    requires s.procs[p].reply.Refreshed? && s.procs[p].reply.changed
    ensures var reply := s.procs[p].reply;
            && reply.id < |s.facts.db.orders| && s.facts.db.orders[reply.id].status == reply.status != Pending
            && reply.id in s.facts.winner && s.facts.winner[reply.id] == p
  {
    assert ProcOk(s.facts, p, s.procs[p]);
  }

  /** So at most one refresh of an order ever says so. */
  lemma ChangedAtMostOnce(s: Sys, p: Pid, q: Pid)
    requires Reachable(s) && p in s.procs && q in s.procs && s.procs[p].Finished? && s.procs[q].Finished?
    requires s.procs[p].reply.Refreshed? && s.procs[p].reply.changed
    requires s.procs[q].reply.Refreshed? && s.procs[q].reply.changed
    requires s.procs[p].reply.id == s.procs[q].reply.id
    ensures p == q
  {
    ChangedIsTruthful(s, p, []);
    ChangedIsTruthful(s, q, []);
  }

  /** A refresh whose own deadline check found the order due never settles it by an answer. */
  lemma DueRefreshNeverPays(s: Sys, p: Pid, fate: Fate, child: Pid)
    requires Reachable(s) && p in s.procs && (s.procs[p].Settling? || s.procs[p].Committing?)
    requires s.procs[p].caller.ForAnswer? && s.procs[p].caller.wasDue
    ensures Next(s, Settle(p, fate, child)).facts == s.facts
  {
    DueIsSettled(s, p);
    hide Reachable;
    assert !SettleResult(s, p).Applied?;
  }

  lemma DueIsSettled(s: Sys, p: Pid)
    requires Reachable(s) && p in s.procs && (s.procs[p].Settling? || s.procs[p].Committing?)
    requires s.procs[p].caller.ForAnswer? && s.procs[p].caller.wasDue
    ensures IsSettled(s.facts.db, s.procs[p].ord.id)
  {
    ReachableInv(s);
    assert ProcOk(s.facts, p, s.procs[p]);
  }

  /** An answer that maps to PAID pays a PENDING order however late it comes: nothing between
      the lookup and the guarded update looks at the deadline. */
  lemma LateAnswerStillPays(s: Sys, p: Pid, child: Pid)
    requires Reachable(s) && p in s.procs && child !in s.procs && s.procs[p].Deciding?
    requires s.procs[p].ord.status == Pending && IsPending(s.facts.db, s.procs[p].ord.id)
    requires OutcomeOf(s.procs[p].answer).status == Some(Paid)
    ensures var o := s.procs[p].ord.id;
            var later := Next(Next(s, Decide(p)), Settle(p, Commits, child));
            o < |later.facts.db.orders| && later.facts.db.orders[o].status == Paid
  {
    var mid := Next(s, Decide(p));
    assert mid == Put(s, p, Settling(ForAnswer(s.procs[p].source, s.procs[p].wasDue), s.procs[p].ord, OutcomeOf(s.procs[p].answer)));
    assert SettleResult(mid, p).Applied?;
  }
}
