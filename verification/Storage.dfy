/** The database as the services use it: committed rows, the rows as an open transaction sees
    them, and one method per SQL statement.

    `trace` is the run of the interleaved system that this execution has been so far, and `sys`
    the state it led to. A service method records the action it takes at each commit and at
    each read outside a transaction; `Valid` ties the state of the run to the rows. */
module Storage {
  import opened Wrappers
  import opened Schema
  import opened Transactions
  import opened System
  import opened Invariant
  import opened Runs
  import opened DueQuery
  import opened History

  datatype Deduction = Deducted | NotEnough | DeductionFails

  /** Each fulfilment in the log has been spawned, once, except perhaps one that is about to be. */
  ghost predicate Spawns(spawned: seq<OrderId>, log: seq<Event>, owed: Option<OrderId>) {
    forall o: OrderId :: multiset(spawned)[o] + (if owed == Some(o) then 1 else 0) == StartedCount(log, o)
  }

  lemma SpawnsAfter(spawned: seq<OrderId>, s: Sys, a: Action)
    requires Spawns(spawned, s.facts.log, None)
    ensures Spawns(spawned, Next(s, a).facts.log, Starts(s, a))
  {
    hide Next, StartedCount, Starts;
    forall o: OrderId
      ensures multiset(spawned)[o] + (if Starts(s, a) == Some(o) then 1 else 0) == StartedCount(Next(s, a).facts.log, o)
    {
      StartsAreLogged(s, a, o);
    }
  }

  lemma SpawnsNext(spawned: seq<OrderId>, log: seq<Event>, o: OrderId)
    requires Spawns(spawned, log, Some(o))
    ensures Spawns(spawned + [o], log, None)
  {
    hide StartedCount;
  }

  lemma RunNext(actions: seq<Action>, a: Action)
    ensures Run(INITIAL, actions + [a]) == Next(Run(INITIAL, actions), a)
  {
    hide Next;
    assert (actions + [a])[..|actions|] == actions;
  }

  class Store {
    // What has been committed, and the clock.
    var rows: Db
    var now: int
    // What the open transaction sees.
    var work: Db
    // Fulfilments started, oldest first.
    var spawned: seq<OrderId>

    ghost var trace: seq<Action>
    ghost var sys: Sys
    // The part of the trace that the services themselves have taken.
    ghost var own: seq<Action>

    // Nobody else is at work; nothing fails but what the rows make fail.
    const alone: bool
    const reliable: bool

    ghost predicate Running(owed: Option<OrderId>)
      reads this`trace, this`sys, this`spawned
    {
      sys == Run(INITIAL, trace) && Spawns(spawned, sys.facts.log, owed)
    }

    ghost predicate Owing(owed: Option<OrderId>)
      reads this`rows, this`now, this`trace, this`sys, this`spawned
    {
      Running(owed) && sys.facts.db == rows && sys.clock == now
    }

    ghost predicate Valid()
      reads this`rows, this`now, this`trace, this`sys, this`spawned
    {
      Owing(None)
    }

    ghost predicate At(p: Pid, proc: Proc)
      reads this`sys
    {
      p in sys.procs && sys.procs[p] == proc
    }

    /** An empty database, before any action. */
    constructor (alone: bool, reliable: bool)
      ensures Valid() && rows == EMPTY && sys == INITIAL && trace == [] && own == [] && spawned == []
      ensures this.alone == alone && this.reliable == reliable
    {
      this.alone, this.reliable := alone, reliable;
      rows, now, work, spawned := EMPTY, 0, EMPTY, [];
      trace, sys, own := [], INITIAL, [];
    }

    /** Other processes may act here, in any way that leaves process p where it is. */
    method Yield(ghost p: Pid, ghost proc: Proc)
      requires Valid() && At(p, proc)
      modifies this`rows, this`now, this`spawned, this`trace, this`sys
      ensures Valid() && old(trace) <= trace && At(p, proc)
      ensures forall i :: |old(trace)| <= i < |trace| ==> Mover(trace[i]) != Some(p)
      ensures alone ==> rows == old(rows) && now == old(now) && spawned == old(spawned) && sys == old(sys)
    { }

    /** The same, for a call that has no place of its own in between. */
    method Pause()
      requires Valid()
      modifies this`rows, this`now, this`spawned, this`trace, this`sys
      ensures Valid() && old(trace) <= trace
      ensures alone ==> rows == old(rows) && now == old(now) && spawned == old(spawned) && sys == old(sys)
    { }

    /** The action that has just been performed on the rows is the run's next, and our own. */
    ghost method Take(a: Action)
      requires Running(None)
      requires Next(sys, a).facts.db == rows && Next(sys, a).clock == now
      modifies this`trace, this`sys, this`own
      ensures Owing(Starts(old(sys), a)) && sys == Next(old(sys), a)
      ensures trace == old(trace) + [a] && own == old(own) + [a]
    {
      hide Run, Next, Spawns, Starts;
      RunNext(trace, a);
      SpawnsAfter(spawned, sys, a);
      trace, sys, own := trace + [a], Next(sys, a), own + [a];
    }

    /** An action that starts no fulfilment. */
    ghost method TakeQuietly(a: Action)
      requires Running(None) && Starts(sys, a).None?
      requires Next(sys, a).facts.db == rows && Next(sys, a).clock == now
      modifies this`trace, this`sys, this`own
      ensures Valid() && sys == Next(old(sys), a)
      ensures trace == old(trace) + [a] && own == old(own) + [a]
    {
      hide Running, Next, Starts;
      Take(a);
    }

    /** A move of process p that touches no row. */
    ghost method Move(a: Action, p: Pid, proc: Proc)
      requires Valid() && !a.Settle?
      requires var t := Next(sys, a);
               t.facts.db == sys.facts.db && t.clock == sys.clock && p in t.procs && t.procs[p] == proc
      modifies this`trace, this`sys, this`own
      ensures Valid() && At(p, proc)
      ensures trace == old(trace) + [a] && own == old(own) + [a]
    {
      hide Running, Next;
      TakeQuietly(a);
    }

    /** A read that fails ends the process. */
    ghost method Quit(p: Pid, proc: Proc)
      requires Valid() && At(p, proc) && !proc.Finished?
      modifies this`trace, this`sys, this`own
      ensures Valid() && old(trace) <= trace && At(p, Finished(Failure))
      ensures own == old(own) + [Abort(p)]
    {
      hide Running;
      Move(Abort(p), p, Finished(Failure));
    }

    /** Every state of the run is reachable, so the invariant holds. */
    lemma Sound()
      requires Valid()
      ensures Inv(sys)
    {
      hide Run, Inv, Spawns;
      assert Reachable(sys);
      ReachableInv(sys);
    }

    /** Any I/O may fail. */
    method Fails() returns (err: bool)
      ensures reliable ==> !err
    {
      err := *;
      if reliable {
        err := false;
      }
    }

    // --- Transactions -----------------------------------------------------------------

    method Begin() returns (err: bool)
      modifies this`work
      ensures reliable ==> !err
      ensures work == rows
    {
      work := rows;
      err := Fails();
    }

    /** The end of a transaction: rolled back if its body failed, and otherwise committed. A
        commit that reports an error may have taken effect or not. */
    method Finish(bodyErr: bool) returns (fate: Fate)
      modifies this`rows
      ensures bodyErr ==> fate == RollsBack
      ensures reliable && !bodyErr ==> fate == Commits
      ensures rows == if fate == RollsBack then old(rows) else work
    {
      if bodyErr {
        return RollsBack;
      }
      var reported := Fails();
      var lost: bool := *;
      if reported && lost {
        return RollsBack;
      }
      rows := work;
      fate := if reported then CommitsUnreported else Commits;
    }

    // --- Statements on orders ------------------------------------------------------------

    method UpdateStatusIfPending(o: OrderId, status: Status) returns (applied: bool, err: bool)
      modifies this`work
      ensures reliable ==> !err
      ensures !err ==> (applied <==> IsPending(old(work), o))
      ensures err ==> work == old(work)
      ensures !err && !applied ==> work == old(work)
      ensures !err && applied ==>
                work == old(work).(orders := old(work).orders[o := old(work).orders[o].(status := status)])
    {
      applied := IsPending(work, o);
      err := Fails();
      if !err && applied {
        work := work.(orders := work.orders[o := work.orders[o].(status := status)]);
      }
    }

    /** A taken number and a total out of range are the two ways an insert fails by itself. */
    method InsertOrder(number: string, total: int) returns (r: Result<OrderId, ReserveError>)
      modifies this`work
      ensures r.Ok? ==>
                && total <= MAX_AMOUNT && !NumberTaken(old(work).orders, number) && r.value == |old(work).orders|
                && work == old(work).(orders := old(work).orders + [Order(number, total, Pending, None, None, false)])
      ensures r.Err? ==> work == old(work) && r.error in {Taken, Rejected}
      ensures r == Err(Taken) ==> total <= MAX_AMOUNT && NumberTaken(old(work).orders, number)
      ensures r == Err(Rejected) && reliable ==> total > MAX_AMOUNT
    {
      var err := Fails();
      if err || total > MAX_AMOUNT {
        return Err(Rejected);
      }
      if NumberTaken(work.orders, number) {
        return Err(Taken);
      }
      r := Ok(|work.orders|);
      work := work.(orders := work.orders + [NewOrder(number, total)]);
    }

    method InsertItem(o: OrderId, line: Line) returns (err: bool)
      modifies this`work
      ensures err ==> work == old(work)
      ensures err && reliable ==> o >= |old(work).orders| || line.typ !in old(work).types
      ensures !err ==> o < |old(work).orders| && line.typ in old(work).types
      ensures !err ==> work == old(work).(items := old(work).items + [ItemRow(o, line.typ, line.qty, line.price)])
    {
      err := Fails();
      if err || o >= |work.orders| || line.typ !in work.types {
        return true;
      }
      work := work.(items := work.items + [ItemRow(o, line.typ, line.qty, line.price)]);
    }

    method InsertAttendee(o: OrderId, t: TypeId) returns (err: bool)
      modifies this`work
      ensures err ==> work == old(work)
      ensures err && reliable ==> o >= |old(work).orders| || t !in old(work).types
      ensures !err ==> o < |old(work).orders| && t in old(work).types
      ensures !err ==> work == old(work).(attendees := old(work).attendees + [AttendeeRow(o, t)])
    {
      err := Fails();
      if err || o >= |work.orders| || t !in work.types {
        return true;
      }
      work := work.(attendees := work.attendees + [AttendeeRow(o, t)]);
    }

    /** Empty payloads and zero deadlines are stored as NULL. */
    method UpdatePaymentDetails(o: OrderId, qr: string, deadline: Option<int>) returns (err: bool)
      modifies this`work
      ensures err ==> work == old(work)
      ensures err && reliable ==> o >= |old(work).orders|
      ensures !err ==> StampTx(old(work), o, qr, deadline) == Applied(work) && Stamped(old(work), work, o, qr, deadline)
    {
      err := Fails();
      if err || o >= |work.orders| {
        return true;
      }
      var payload := if qr == "" then None else Some(qr);
      work := work.(orders := work.orders[o := work.orders[o].(qr := payload, deadline := deadline)]);
    }

    method SetEmailSent(o: OrderId) returns (err: bool)
      modifies this`work
      ensures err ==> work == old(work)
      ensures err && reliable ==> o >= |old(work).orders|
      ensures !err ==> MarkSentTx(old(work), o) == Applied(work) && MarkedSent(old(work), work, o)
    {
      err := Fails();
      if err || o >= |work.orders| {
        return true;
      }
      work := work.(orders := work.orders[o := work.orders[o].(emailSent := true)]);
    }

    method InsertPayment(o: OrderId, answer: Answer) returns (err: bool)
      modifies this`work
      ensures err ==> work == old(work)
      ensures err && reliable ==> o >= |old(work).orders|
      ensures !err ==> work == old(work).(payments := old(work).payments + [PaymentRow(o, answer)])
      ensures !err ==> RecordTx(old(work), o, answer) == Applied(work)
    {
      err := Fails();
      if err || o >= |work.orders| {
        return true;
      }
      work := work.(payments := work.payments + [PaymentRow(o, answer)]);
    }

    // --- Statements on ticket types and events ----------------------------------------------

    method TicketTypeForCheckout(t: TypeId) returns (row: Option<TicketType>, err: bool)
      ensures reliable ==> !err
      ensures !err ==> row == if t in work.types then Some(work.types[t]) else None
    {
      err := Fails();
      row := if t in work.types then Some(work.types[t]) else None;
    }

    /** UPDATE ticket_types SET quota = quota - qty WHERE id = t AND quota >= qty. */
    method DeductQuota(t: TypeId, qty: int) returns (d: Deduction)
      modifies this`work
      ensures d != Deducted ==> work == old(work)
      ensures d == NotEnough ==> t !in work.types || work.types[t].quota < qty
      ensures d == DeductionFails && reliable ==> t in work.types && work.types[t].quota - qty > MAX_INT32
                                                  && work.types[t].quota >= qty
      ensures d == Deducted ==>
                && t in old(work).types && qty <= old(work).types[t].quota <= MAX_INT32 + qty
                && work == old(work).(types := old(work).types[t := old(work).types[t].(quota := old(work).types[t].quota - qty)])
    {
      var err := Fails();
      if err {
        return DeductionFails;
      }
      if t !in work.types || work.types[t].quota < qty {
        return NotEnough;
      }
      if work.types[t].quota - qty > MAX_INT32 {
        return DeductionFails;
      }
      work := work.(types := work.types[t := work.types[t].(quota := work.types[t].quota - qty)]);
      d := Deducted;
    }

    /** UPDATE ticket_types SET quota = quota + qty WHERE id = t. No row, or a quota outside its
        column, is an error. */
    method RestoreQuota(t: TypeId, qty: int) returns (err: bool)
      modifies this`work
      ensures err ==> work == old(work)
      ensures err && reliable ==> RestoreOne(old(work).types, t, qty).None?
      ensures !err ==> RestoreOne(old(work).types, t, qty) == Some(work.types) && work == old(work).(types := work.types)
    {
      err := Fails();
      if err || t !in work.types || work.types[t].quota + qty < 0 || work.types[t].quota + qty > MAX_INT32 {
        return true;
      }
      work := work.(types := work.types[t := work.types[t].(quota := work.types[t].quota + qty)]);
    }

    /** Refused while an order item or an attendee refers to one of them. */
    method DeleteTypes(ids: set<TypeId>) returns (err: bool)
      modifies this`work
      ensures err ==> work == old(work)
      ensures err && reliable ==> exists t <- ids :: Referenced(old(work), t)
      ensures !err ==> work == old(work).(types := old(work).types - ids)
      ensures !err ==> forall t <- ids :: !Referenced(old(work), t)
    {
      err := Fails();
      if err || exists t <- ids :: Referenced(work, t) {
        return true;
      }
      work := work.(types := work.types - ids);
    }

    /** Refused while a ticket type refers to it. */
    method RemoveEvent(e: EventId) returns (found: bool, err: bool)
      modifies this`work
      ensures err ==> work == old(work)
      ensures err && reliable ==> TypesOfEvent(old(work).types, e) != {}
      ensures !err ==> (found <==> e in old(work).events) && TypesOfEvent(old(work).types, e) == {}
      ensures !err ==> work == old(work).(events := old(work).events - {e})
    {
      found := e in work.events;
      err := Fails();
      if err || TypesOfEvent(work.types, e) != {} {
        return found, true;
      }
      work := work.(events := work.events - {e});
    }

    /** Every field but the event is replaced. No row is not an error, but a price that does not
        fit its column is, whatever the row. */
    method UpdateType(t: TypeId, row: TicketType) returns (found: bool, err: bool)
      requires 0 <= row.quota <= MAX_INT32
      modifies this`work
      ensures reliable && PriceFits(row.price) ==> !err
      ensures !PriceFits(row.price) ==> err
      ensures err ==> work == old(work)
      ensures !err && found ==> TypeEdited(old(work), work, t, row.price, row.quota, row.salesStart, row.salesEnd)
      ensures !err ==> if found then UpdateTypeTx(old(work), t, row) == Applied(work)
                       else UpdateTypeTx(old(work), t, row) == Failed && work == old(work)
    {
      found := t in work.types;
      err := Fails();
      err := err || !PriceFits(row.price);
      if !err && found {
        work := work.(types := work.types[t := row.(event := work.types[t].event)]);
      }
    }

    // --- Statements on tickets ----------------------------------------------------------------

    /** A taken code, or a missing order or attendee, fails the insert. */
    method InsertTicket(code: string, o: OrderId, attendee: AttendeeId) returns (err: bool)
      modifies this`work
      ensures err ==> work == old(work)
      ensures err && reliable ==>
                CodeTaken(old(work).tickets, code) || o >= |old(work).orders| || attendee >= |old(work).attendees|
      ensures !err ==> !CodeTaken(old(work).tickets, code) && o < |old(work).orders| && attendee < |old(work).attendees|
      ensures !err ==> work == old(work).(tickets := old(work).tickets + [TicketRow(code, o, attendee, Active)])
    {
      err := Fails();
      if err || CodeTaken(work.tickets, code) || o >= |work.orders| || attendee >= |work.attendees| {
        return true;
      }
      work := work.(tickets := work.tickets + [TicketRow(code, o, attendee, Active)]);
    }

    method UpdateTicketUsed(code: string) returns (applied: bool, err: bool)
      modifies this`work
      ensures reliable ==> !err
      ensures err ==> work == old(work)
      ensures !err ==> (applied <==> Admissible(old(work).tickets, code))
      ensures !err ==> work == old(work).(tickets := Admit(old(work).tickets, code))
    {
      applied := Admissible(work.tickets, code);
      err := Fails();
      if !err {
        work := work.(tickets := Admit(work.tickets, code));
      }
    }

    // --- Reads outside a transaction -----------------------------------------------------------

    method OrderByNumber(number: string) returns (ord: Option<OrderRef>, err: bool)
      ensures reliable ==> !err
      ensures !err ==> (ord.None? <==> FindByNumber(rows.orders, number).None?)
      ensures !err && ord.Some? ==>
                var o := FindByNumber(rows.orders, number).value; ord.value == RefTo(rows.orders, o)
    {
      err := Fails();
      match FindByNumber(rows.orders, number)
      case None => ord := None;
      case Some(o) => ord := Some(RefTo(rows.orders, o));
    }

    /** The members of a set of orders with the earliest deadline. */
    method Oldest(due: set<OrderId>) returns (oldest: OrderId)
      requires due != {} && due <= DueSet(rows.orders, now)
      ensures oldest in due
      ensures forall o <- due :: rows.orders[oldest].deadline.value <= rows.orders[o].deadline.value
    {
      oldest :| oldest in due;
      var rest := due - {oldest};
      while rest != {}
        invariant rest <= due && oldest in due
        invariant forall o <- due - rest :: rows.orders[oldest].deadline.value <= rows.orders[o].deadline.value
      {
        var o :| o in rest;
        rest := rest - {o};
        if rows.orders[o].deadline.value < rows.orders[oldest].deadline.value {
          oldest := o;
        }
      }
    }

    /** The expiry query: due orders by deadline, up to the limit. */
    method DueForExpiry() returns (batch: seq<OrderRef>, err: bool)
      ensures reliable ==> !err
      ensures !err ==> IsDueBatch(rows.orders, now, batch)
    {
      batch := [];
      err := Fails();
      var rest := DueSet(rows.orders, now);
      while rest != {} && |batch| < EXPIRY_BATCH_SIZE
        invariant Picked(rows.orders, now, batch, rest)
      {
        var o := Oldest(rest);
        PickNext(rows.orders, now, batch, rest, o);
        rest, batch := rest - {o}, batch + [RefTo(rows.orders, o)];
      }
    }

    method LineItems(o: OrderId) returns (lines: seq<Line>, err: bool)
      ensures reliable ==> !err
      ensures lines == LinesOf(rows.items, o)
    {
      lines := LinesOf(rows.items, o);
      err := Fails();
    }

    method AttendeeIds(o: OrderId) returns (ids: seq<AttendeeId>, err: bool)
      ensures reliable ==> !err
      ensures ids == AttendeesOf(rows.attendees, o)
    {
      ids := AttendeesOf(rows.attendees, o);
      err := Fails();
    }

    method TicketsByOrder(o: OrderId) returns (tickets: seq<TicketRow>, err: bool)
      ensures reliable ==> !err
      ensures tickets == TicketsOf(rows.tickets, o)
    {
      tickets := TicketsOf(rows.tickets, o);
      err := Fails();
    }

    method OrderForDelivery(o: OrderId) returns (status: Option<Status>, err: bool)
      ensures reliable ==> !err
      ensures !err ==> status == if o < |rows.orders| then Some(rows.orders[o].status) else None
    {
      err := Fails();
      status := if o < |rows.orders| then Some(rows.orders[o].status) else None;
    }

    /** The codes of an order's tickets, joined with attendee, type and event. */
    method TicketDetails(o: OrderId) returns (codes: seq<string>, err: bool)
      ensures reliable ==> !err
      ensures codes == JoinedCodes(rows, TicketsOf(rows.tickets, o))
    {
      codes := JoinedCodes(rows, TicketsOf(rows.tickets, o));
      err := Fails();
    }

    /** One ticket by its code, joined likewise. */
    method TicketDetail(code: string) returns (status: Option<TicketStatus>, err: bool)
      ensures reliable ==> !err
      ensures !err ==> status == JoinedStatus(rows, code)
    {
      err := Fails();
      status := JoinedStatus(rows, code);
    }

    /** One ticket by its code, from its own table. */
    method TicketStatusOf(code: string) returns (status: Option<TicketStatus>, err: bool)
      ensures reliable ==> !err
      ensures !err ==> status == StatusOf(rows.tickets, code)
    {
      err := Fails();
      status := StatusOf(rows.tickets, code);
    }
  }

  // --- The restore loop of every path that gives seats back --------------------------------------

  /** A line that cannot be restored fails the whole loop. */
  lemma {:induction false} RestorePrefix(types: map<TypeId, TicketType>, lines: seq<Line>, k: nat)
    requires k <= |lines|
    ensures RestoreLines(types, lines[..k]).None? ==> RestoreLines(types, lines).None?
    decreases |lines|
  {
    if k < |lines| {
      assert lines[..|lines| - 1][..k] == lines[..k];
      RestorePrefix(types, lines[..|lines| - 1], k);
    } else {
      assert lines[..k] == lines;
    }
  }

  /** One restore per line, stopping at the first that fails. */
  method ReleaseLines(store: Store, lines: seq<Line>) returns (err: bool)
    modifies store`work
    ensures err && store.reliable ==> RestoreLines(old(store.work).types, lines).None?
    ensures !err ==>
              && RestoreLines(old(store.work).types, lines) == Some(store.work.types)
              && store.work == old(store.work).(types := store.work.types)
  {
    err := false;
    assert lines[..0] == [];
    for i := 0 to |lines|
      invariant RestoreLines(old(store.work).types, lines[..i]) == Some(store.work.types)
      invariant store.work == old(store.work).(types := store.work.types)
    {
      assert lines[..i + 1][..i] == lines[..i];
      err := store.RestoreQuota(lines[i].typ, lines[i].qty);
      if err {
        RestorePrefix(old(store.work).types, lines, i + 1);
        return;
      }
    }
    assert lines[..|lines|] == lines;
  }

  // --- Whose actions ---------------------------------------------------------------------------

  predicate OwnMoves(p: Pid, acts: seq<Action>) {
    forall i :: 0 <= i < |acts| ==> Mover(acts[i]) == Some(p)
  }

  lemma OwnMovesAppend(p: Pid, a: seq<Action>, b: seq<Action>)
    requires OwnMoves(p, a) && OwnMoves(p, b)
    ensures OwnMoves(p, a + b)
  { }

  // --- Process ids -----------------------------------------------------------------------------

  lemma {:induction false} Bound(pids: set<Pid>) returns (b: Pid)
    ensures forall p <- pids :: p < b
  {
    b := 0;
    if pids != {} {
      var q :| q in pids;
      var rest := Bound(pids - {q});
      b := if rest <= q then q + 1 else rest;
      assert forall p <- pids :: p == q || p in pids - {q};
    }
  }

  /** There is always an unused process id. */
  lemma FreshPid(s: Sys) returns (p: Pid)
    ensures p !in s.procs
  {
    p := Bound(s.procs.Keys);
  }
}
