/** The seat ledger the whole system amounts to, and the proof that it does.

    The ledger has no processes, no snapshots and no faults. An order is booked once and then
    either sold or returned; returning gives back what the booking itself says. */
module Ledger {
  import opened Wrappers
  import opened Schema
  import opened Request
  import opened Transactions
  import opened System
  import opened Invariant
  import opened SettleSteps
  import opened ReserveSteps
  import opened Runs
  import opened History

  datatype Stage = Open | Sold | Returned

  datatype Booking = Booking(stage: Stage, lines: seq<Line>)

  datatype Ledger = Ledger(free: map<TypeId, int>, bookings: seq<Booking>)

  /** A new booking takes its seats, all of which were free. */
  ghost predicate Books(a: Ledger, b: Ledger) {
    && |b.bookings| == |a.bookings| + 1 && b.bookings[..|a.bookings|] == a.bookings
    && b.bookings[|a.bookings|].stage == Open
    && (forall l <- b.bookings[|a.bookings|].lines :: l.qty >= 1 && l.typ in a.free)
    && b.free.Keys == a.free.Keys
    && forall t :: t in a.free ==> b.free[t] == a.free[t] - Qty(b.bookings[|a.bookings|].lines, t) >= 0
  }

  /** An open booking is sold; no seat moves. */
  ghost predicate Sells(a: Ledger, b: Ledger, o: OrderId) {
    && o < |a.bookings| && a.bookings[o].stage == Open
    && b == a.(bookings := a.bookings[o := a.bookings[o].(stage := Sold)])
  }

  /** An open booking is returned; exactly its own seats come free. */
  ghost predicate Returns(a: Ledger, b: Ledger, o: OrderId) {
    && o < |a.bookings| && a.bookings[o].stage == Open
    && b.bookings == a.bookings[o := a.bookings[o].(stage := Returned)]
    && b.free.Keys == a.free.Keys
    && forall t :: t in a.free ==> b.free[t] == a.free[t] + Qty(a.bookings[o].lines, t)
  }

  /** A new type comes with its free seats. */
  ghost predicate Creates(a: Ledger, b: Ledger, t: TypeId, n: int) {
    t !in a.free && n >= 0 && b == a.(free := a.free[t := n])
  }

  /** One type's free seats are set, whatever they were. */
  ghost predicate Resets(a: Ledger, b: Ledger, t: TypeId, n: int) {
    t in a.free && n >= 0 && b == a.(free := a.free[t := n])
  }

  /** Types go that no booking ever had. */
  ghost predicate Withdraws(a: Ledger, b: Ledger, ids: set<TypeId>) {
    && b == a.(free := a.free - ids)
    && forall o, l :: 0 <= o < |a.bookings| && l in a.bookings[o].lines ==> l.typ !in ids
  }

  ghost predicate LedgerStep(a: Ledger, b: Ledger) {
    || Books(a, b)
    || (exists o :: Sells(a, b, o))
    || (exists o :: Returns(a, b, o))
    || (exists t, n :: Creates(a, b, t, n) || Resets(a, b, t, n))
    || (exists ids :: Withdraws(a, b, ids))
  }

  // --- The abstraction --------------------------------------------------------------------

  function StageOf(status: Status): Stage {
    match status
    case Pending => Open
    case Paid => Sold
    case _ => Returned
  }

  function BookingsOf(db: Db): (bookings: seq<Booking>)
    ensures |bookings| == |db.orders|
  {
    seq(|db.orders|, o requires 0 <= o < |db.orders| =>
      Booking(StageOf(db.orders[o].status), LinesOf(db.items, o)))
  }

  function Abstract(db: Db): Ledger {
    Ledger(map t | t in db.types :: db.types[t].quota, BookingsOf(db))
  }

  // --- Simulation ----------------------------------------------------------------------------

  /** Nothing the ledger knows of has changed. */
  ghost predicate SameSeats(a: Db, b: Db) {
    && b.types == a.types && b.items == a.items && |b.orders| == |a.orders|
    && forall o :: 0 <= o < |a.orders| ==> b.orders[o].status == a.orders[o].status
  }

  lemma SameSeatsSameLedger(a: Db, b: Db)
    requires SameSeats(a, b)
    ensures Abstract(b) == Abstract(a)
  {
    assert BookingsOf(b) == BookingsOf(a);
  }

  predicate MovesSeats(a: Action) {
    a.Reserve? || a.Settle? || a.Compensate? || EditsCatalog(a)
  }

  predicate EditsRows(a: Action) {
    a.Stamp? || a.Record? || a.Issue? || a.Send? || a.MarkSent? || a.AdmitTicket?
  }

  lemma OrderActionsStutter(s: Sys, a: Action)
    requires a.Stamp? || a.MarkSent? || a.Record?
    ensures SameSeats(s.facts.db, Next(s, a).facts.db)
  {
    hide SameSeats, DoStamp, DoMarkSent, DoRecord;
    match a
    case Stamp(p, fate) => StampStutters(s, p, fate);
    case MarkSent(p, fate) => MarkSentStutters(s, p, fate);
    case Record(p, fate) => RecordStutters(s, p, fate);
  }

  lemma TicketActionsStutter(s: Sys, a: Action)
    requires a.Issue? || a.Send? || a.AdmitTicket?
    ensures SameSeats(s.facts.db, Next(s, a).facts.db)
  {
    if a.Issue? {
      IssueStutters(s, a.p, a.codes, a.fate);
      assert a == Issue(a.p, a.codes, a.fate);
    } else if a.Send? {
      SendStutters(s, a.p, a.delivered, a.reported);
      assert a == Send(a.p, a.delivered, a.reported);
    } else {
      AdmitStutters(s, a.code);
      assert a == AdmitTicket(a.code);
    }
    hide *;
  }

  lemma RecordStutters(s: Sys, p: Pid, fate: Fate)
    ensures SameSeats(s.facts.db, DoRecord(s, p, fate).facts.db)
  { }

  lemma SendStutters(s: Sys, p: Pid, delivered: bool, reported: bool)
    ensures SameSeats(s.facts.db, Next(s, Send(p, delivered, reported)).facts.db)
  { }

  lemma AdmitStutters(s: Sys, code: string)
    ensures SameSeats(s.facts.db, Next(s, AdmitTicket(code)).facts.db)
  { }

  lemma StampStutters(s: Sys, p: Pid, fate: Fate)
    ensures SameSeats(s.facts.db, DoStamp(s, p, fate).facts.db)
  { }

  lemma MarkSentStutters(s: Sys, p: Pid, fate: Fate)
    ensures SameSeats(s.facts.db, DoMarkSent(s, p, fate).facts.db)
  { }

  lemma IssueStutters(s: Sys, p: Pid, codes: seq<string>, fate: Fate)
    ensures SameSeats(s.facts.db, Next(s, Issue(p, codes, fate)).facts.db)
  { }

  lemma CreateEventStutters(s: Sys, e: EventId)
    ensures SameSeats(s.facts.db, Next(s, CreateEvent(e)).facts.db)
  { }

  lemma OtherActionsStutter(s: Sys, a: Action)
    requires !MovesSeats(a) && !EditsRows(a) && !a.CreateEvent?
    ensures Next(s, a).facts.db == s.facts.db
  { }

  lemma SettledBookings(db: Db, o: OrderId, status: Status, after: Db)
    requires SettledRows(db, o, status, after)
    ensures BookingsOf(after) == BookingsOf(db)[o := BookingsOf(db)[o].(stage := StageOf(status))]
    ensures BookingsOf(db)[o] == Booking(Open, LinesOf(db.items, o))
  { }

  /** A settling commit is a sale or a return, by what the ledger itself has booked. */
  lemma SettleSimulates(f: Facts, o: OrderId, status: Status, restore: bool, lines: seq<Line>, after: Db)
    requires FactsOk(f) && IsPending(f.db, o) && status != Pending && (restore <==> status != Paid)
    requires restore ==> lines == LinesOf(f.db.items, o)
    requires SettleTx(f.db, o, status, restore, lines) == Applied(after)
    ensures if status == Paid then Sells(Abstract(f.db), Abstract(after), o) else Returns(Abstract(f.db), Abstract(after), o)
  {
    FactsQuotas(f);
    hide FactsOk;
    SettleRows(f.db, o, status, restore, lines, after);
    SettledBookings(f.db, o, status, after);
    var a, b := Abstract(f.db), Abstract(after);
    if status == Paid {
      SettlePaidTypes(f.db, o, lines, after);
      assert b.free == a.free;
      assert Sells(a, b, o);
    } else {
      assert Returns(a, b, o);
    }
  }

  lemma SettlePaidTypes(db: Db, o: OrderId, lines: seq<Line>, after: Db)
    requires SettleTx(db, o, Paid, false, lines) == Applied(after)
    ensures after.types == db.types
  { }

  lemma SettleActionIs(s: Sys, p: Pid, fate: Fate, child: Pid)
    requires DoSettle(s, p, fate, child).facts.db != s.facts.db
    ensures p in s.procs && (s.procs[p].Settling? || s.procs[p].Committing?)
    ensures SettleResult(s, p) == Applied(DoSettle(s, p, fate, child).facts.db)
  {
    hide SettleResult;
  }

  /** The order being settled is sold if the outcome is PAID, and returned otherwise. */
  ghost predicate SettlesAs(s: Sys, p: Pid, a: Ledger, b: Ledger) {
    && p in s.procs && (s.procs[p].Settling? || s.procs[p].Committing?)
    && if s.procs[p].outcome.status == Some(Paid) then Sells(a, b, s.procs[p].ord.id) else Returns(a, b, s.procs[p].ord.id)
  }

  lemma SettleActionSimulates(s: Sys, p: Pid, fate: Fate, child: Pid)
    requires Inv(s)
    ensures var a, b := Abstract(s.facts.db), Abstract(DoSettle(s, p, fate, child).facts.db); b == a || SettlesAs(s, p, a, b)
  {
    var after := DoSettle(s, p, fate, child).facts.db;
    if after != s.facts.db {
      SettleActionIs(s, p, fate, child);
      hide Inv, Abstract, Sells, Returns, SettleTx, DoSettle;
      var r := s.procs[p];
      SettlingFacts(s, p);
      InvFacts(s);
      var lines := if r.Committing? then r.lines else [];
      SettleSimulates(s.facts, r.ord.id, r.outcome.status.value, r.outcome.restore, lines, after);
    }
  }

  lemma SettlingFacts(s: Sys, p: Pid)
    requires Inv(s) && p in s.procs && (s.procs[p].Settling? || s.procs[p].Committing?)
    ensures var r := s.procs[p];
            && r.outcome.status.Some? && r.outcome.status != Some(Pending)
            && (r.outcome.restore <==> r.outcome.status != Some(Paid))
            && (r.Committing? ==> r.lines == LinesOf(s.facts.db.items, r.ord.id))
  {
    assert ProcOk(s.facts, p, s.procs[p]);
  }

  lemma CompensatingFacts(s: Sys, p: Pid)
    requires Inv(s) && p in s.procs && s.procs[p].Compensating?
    ensures s.procs[p].lines == LinesOf(s.facts.db.items, s.procs[p].id)
  {
    assert ProcOk(s.facts, p, s.procs[p]);
  }

  lemma CompensateSimulates(s: Sys, p: Pid, fate: Fate)
    requires Inv(s)
    ensures var a, b := Abstract(s.facts.db), Abstract(DoCompensate(s, p, fate).facts.db);
            b == a || (p in s.procs && s.procs[p].Compensating? && Returns(a, b, s.procs[p].id))
  {
    var t := DoCompensate(s, p, fate);
    if t.facts.db != s.facts.db {
      CompensatingFacts(s, p);
      InvFacts(s);
      hide Inv;
      SettleSimulates(s.facts, s.procs[p].id, Cancelled, true, s.procs[p].lines, t.facts.db);
    }
  }

  /** A reservation is a booking of exactly the reserved lines. */
  lemma BookingSimulates(db: Db, now: int, number: string, req: CheckoutRequest, done: ReserveDone)
    requires RefsOk(db) && PositiveQuantities(req.items) && ReservedRows(db, now, number, req, done)
    ensures Books(Abstract(db), Abstract(done.db))
  {
    var a, b := Abstract(db), Abstract(done.db);
    var id := |db.orders|;
    NewOrderRows(db, done.id, done.lines, Types(req.attendees));
    forall o | 0 <= o < id ensures b.bookings[o] == a.bookings[o] {
      OlderOrdersSame(db, done.id, done.lines, Types(req.attendees), o);
    }
    assert b.bookings[id] == Booking(Open, done.lines);
    forall l <- done.lines ensures l.qty >= 1 && l.typ in a.free {
      var i :| 0 <= i < |done.lines| && done.lines[i] == l;
      assert FromType(db.types, now, req.items[i], done.lines[i]) && req.items[i] in req.items;
    }
  }

  lemma ReserveActionIs(s: Sys, p: Pid, number: string, fate: Fate) returns (done: ReserveDone)
    requires DoReserve(s, p, number, fate).facts.db != s.facts.db
    ensures p in s.procs && s.procs[p].Reserving?
    ensures ReserveTx(s.facts.db, s.clock, number, s.procs[p].req) == Ok(done)
    ensures DoReserve(s, p, number, fate).facts.db == done.db
  {
    hide ReserveTx;
    done := ReserveTx(s.facts.db, s.clock, number, s.procs[p].req).value;
  }

  lemma ReservingFacts(s: Sys, p: Pid)
    requires Inv(s) && p in s.procs && s.procs[p].Reserving?
    ensures Accepts(s.procs[p].req) && QuotasOk(s.facts.db.types) && RefsOk(s.facts.db)
  {
    assert ProcOk(s.facts, p, s.procs[p]);
  }

  lemma ReserveSimulates(s: Sys, p: Pid, number: string, fate: Fate)
    requires Inv(s)
    ensures var a, b := Abstract(s.facts.db), Abstract(DoReserve(s, p, number, fate).facts.db);
            b == a || Books(a, b)
  {
    if DoReserve(s, p, number, fate).facts.db != s.facts.db {
      hide Inv, ReserveTx, Books, Abstract, ReservedRows, RefsOk, QuotasOk, DoReserve;
      var done := ReserveActionIs(s, p, number, fate);
      ReservingFacts(s, p);
      ReserveRows(s.facts.db, s.clock, number, s.procs[p].req, done);
      BookingSimulates(s.facts.db, s.clock, number, s.procs[p].req, done);
    }
  }

  /** The catalog step that an edit of the catalog is. */
  ghost predicate CatalogStepOf(s: Sys, a: Action, x: Ledger, y: Ledger) {
    match a
    case CreateType(t, row) => Creates(x, y, t, row.quota)
    case UpdateType(t, row) => Resets(x, y, t, row.quota)
    case DeleteType(t) => Withdraws(x, y, {t})
    case DeleteEvent(e) => Withdraws(x, y, TypesOfEvent(s.facts.db.types, e))
    case _ => false
  }

  lemma TypeSet(a: Db, b: Db, t: TypeId, row: TicketType)
    requires b == a.(types := a.types[t := row]) && row.quota >= 0
    ensures t !in a.types ==> Creates(Abstract(a), Abstract(b), t, row.quota)
    ensures t in a.types ==> Resets(Abstract(a), Abstract(b), t, row.quota)
  {
    assert BookingsOf(b) == BookingsOf(a);
  }

  lemma TypesWithdrawn(a: Db, b: Db, ids: set<TypeId>)
    requires b.orders == a.orders && b.items == a.items && b.types == a.types - ids
    requires forall t <- ids :: !Referenced(a, t)
    ensures Withdraws(Abstract(a), Abstract(b), ids)
  {
    assert BookingsOf(b) == BookingsOf(a);
    assert Abstract(b).free == Abstract(a).free - ids;
    forall o, l | 0 <= o < |a.orders| && l in BookingsOf(a)[o].lines ensures l.typ !in ids {
      LinesOfFromRows(a.items, o);
      assert l.typ in ids ==> Referenced(a, l.typ);
    }
  }

  lemma SettingSimulates(s: Sys, a: Action)
    requires a.CreateType? || a.UpdateType?
    ensures var x, y := Abstract(s.facts.db), Abstract(Next(s, a).facts.db); y == x || CatalogStepOf(s, a, x, y)
  {
    var db, after := s.facts.db, Next(s, a).facts.db;
    if after != db {
      var row := if a.CreateType? then a.row else a.row.(event := db.types[a.typ].event);
      TypeSet(db, after, a.typ, row);
      hide Abstract, Creates, Resets;
    }
  }

  lemma DeletingSimulates(s: Sys, a: Action)
    requires a.DeleteType? || a.DeleteEvent?
    ensures var x, y := Abstract(s.facts.db), Abstract(Next(s, a).facts.db); y == x || CatalogStepOf(s, a, x, y)
  {
    var db, after := s.facts.db, Next(s, a).facts.db;
    if after != db {
      TypesWithdrawn(db, after, if a.DeleteType? then {a.typ} else TypesOfEvent(db.types, a.event));
      hide Abstract, Withdraws, Referenced;
    }
  }

  /** Which ledger step an action is: reserving books, settling sells or returns its order,
      compensating returns its order, and a catalog edit sets or withdraws what it is about. No
      other action is one. */
  ghost predicate StepOf(s: Sys, a: Action, x: Ledger, y: Ledger) {
    if EditsCatalog(a) then CatalogStepOf(s, a, x, y)
    else if a.Reserve? then Books(x, y)
    else if a.Settle? then SettlesAs(s, a.p, x, y)
    else if a.Compensate? then a.p in s.procs && s.procs[a.p].Compensating? && Returns(x, y, s.procs[a.p].id)
    else false
  }

  lemma StepsAreLedgerSteps(s: Sys, a: Action, x: Ledger, y: Ledger)
    requires StepOf(s, a, x, y)
    ensures LedgerStep(x, y)
  {
    hide Books, Sells, Returns, Creates, Resets, Withdraws, TypesOfEvent;
  }

  /** Forward simulation: every action of every process is, for the ledger, a stutter or its
      own kind of ledger step, on the order that process is about. */
  lemma EveryActionSimulates(s: Sys, a: Action)
    requires Inv(s)
    ensures var x, y := Abstract(s.facts.db), Abstract(Next(s, a).facts.db); y == x || StepOf(s, a, x, y)
  {
    hide Inv, SettlesAs, DoReserve, DoSettle, DoCompensate, Books, Sells, Returns, CatalogStepOf, Abstract, SameSeats;
    if a.CreateType? || a.UpdateType? {
      SettingSimulates(s, a);
    } else if a.DeleteType? || a.DeleteEvent? {
      DeletingSimulates(s, a);
    } else if a.Reserve? {
      ReserveSimulates(s, a.p, a.number, a.fate);
    } else if a.Settle? {
      SettleActionSimulates(s, a.p, a.fate, a.child);
    } else if a.Compensate? {
      CompensateSimulates(s, a.p, a.fate);
    } else if EditsRows(a) {
      if a.Stamp? || a.MarkSent? || a.Record? {
        OrderActionsStutter(s, a);
      } else {
        TicketActionsStutter(s, a);
      }
      SameSeatsSameLedger(s.facts.db, Next(s, a).facts.db);
    } else if a.CreateEvent? {
      CreateEventStutters(s, a.event);
      SameSeatsSameLedger(s.facts.db, Next(s, a).facts.db);
    } else {
      OtherActionsStutter(s, a);
    }
  }

  /** A run of the ledger: consecutive states are equal or one step apart. */
  ghost predicate LedgerRun(ledgers: seq<Ledger>) {
    && |ledgers| >= 1 && ledgers[0] == Ledger(map[], [])
    && forall i :: 0 <= i < |ledgers| - 1 ==> ledgers[i + 1] == ledgers[i] || LedgerStep(ledgers[i], ledgers[i + 1])
  }

  lemma LedgerRunExtends(ledgers: seq<Ledger>, next: Ledger)
    requires LedgerRun(ledgers) && (next == ledgers[|ledgers| - 1] || LedgerStep(ledgers[|ledgers| - 1], next))
    ensures LedgerRun(ledgers + [next])
  {
    hide LedgerStep;
  }

  /** Every run of the system is, seat for seat, a run of the ledger. */
  lemma {:induction false} EveryRunRefines(actions: seq<Action>) returns (ledgers: seq<Ledger>)
    ensures LedgerRun(ledgers) && |ledgers| == |actions| + 1
    ensures forall i :: 0 <= i <= |actions| ==> ledgers[i] == Abstract(Run(INITIAL, actions[..i]).facts.db)
  {
    hide Inv, Later, Next, StepOf, LedgerStep, LedgerRun, Abstract;
    if actions == [] {
      ledgers := [Ledger(map[], [])];
      EmptyLedger();
    } else {
      var front := actions[..|actions| - 1];
      var before := EveryRunRefines(front);
      var s := Run(INITIAL, front);
      assert front[..|front|] == front && before[|front|] == Abstract(s.facts.db);
      InitialInv();
      RunKeeps(INITIAL, front);
      var a := actions[|actions| - 1];
      EveryActionSimulates(s, a);
      if StepOf(s, a, Abstract(s.facts.db), Abstract(Next(s, a).facts.db)) {
        StepsAreLedgerSteps(s, a, Abstract(s.facts.db), Abstract(Next(s, a).facts.db));
      }
      ledgers := before + [Abstract(Run(INITIAL, actions).facts.db)];
      LedgerRunExtends(before, Abstract(Run(INITIAL, actions).facts.db));
      forall i | 0 <= i < |actions| ensures actions[..i] == front[..i] { }
      assert actions[..|actions|] == actions;
    }
  }

  lemma EmptyLedger()
    ensures Abstract(EMPTY) == Ledger(map[], []) && LedgerRun([Ledger(map[], [])])
  { }
}
