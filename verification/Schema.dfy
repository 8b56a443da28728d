/** The database tables, and what is counted over them.

    Tables whose rows are never deleted are sequences, and a row's id is its position:
    of a UUID only the distinctness is used. Ticket types and events can be deleted, so
    they are a map and a set. Money is in cents. */
module Schema {
  import opened Wrappers

  // Upper bounds of the INT and NUMERIC(12, 2) columns.
  const MAX_INT32: int := 0x7fff_ffff
  const MAX_AMOUNT: int := 999_999_999_999

  type EventId = nat
  type TypeId = nat
  type OrderId = nat
  type AttendeeId = nat

  datatype Status = Pending | Paid | Cancelled | Expired

  datatype TicketStatus = Active | Used | Revoked

  datatype TicketType = TicketType(event: EventId, price: int, quota: int, salesStart: int, salesEnd: int)

  datatype Order = Order(number: string, total: int, status: Status,
                         qr: Option<string>, deadline: Option<int>, emailSent: bool)

  datatype ItemRow = ItemRow(order: OrderId, typ: TypeId, qty: int, price: int)

  datatype AttendeeRow = AttendeeRow(order: OrderId, typ: TypeId)

  datatype TicketRow = TicketRow(code: string, order: OrderId, attendee: AttendeeId, status: TicketStatus)

  /** One provider answer as it was received; `txStatus` and `fraud` are the raw texts. */
  datatype Answer = Answer(number: string, txStatus: string, fraud: string)

  datatype PaymentRow = PaymentRow(order: OrderId, answer: Answer)

  datatype Db = Db(
    events: set<EventId>,
    types: map<TypeId, TicketType>,
    orders: seq<Order>,
    items: seq<ItemRow>,
    attendees: seq<AttendeeRow>,
    tickets: seq<TicketRow>,
    payments: seq<PaymentRow>)

  const EMPTY: Db := Db({}, map[], [], [], [], [], [])

  /** A quantity of one ticket type at one unit price. */
  datatype Line = Line(typ: TypeId, qty: int, price: int)

  /** The statuses under which an order keeps the seats it reserved. */
  predicate Holds(status: Status) {
    status == Pending || status == Paid
  }

  // --- Counting over lines ----------------------------------------------------

  function Qty(lines: seq<Line>, t: TypeId): (n: int) {
    if lines == [] then 0
    else
      var last := lines[|lines| - 1];
      Qty(lines[..|lines| - 1], t) + if last.typ == t then last.qty else 0
  }

  function Amount(lines: seq<Line>): (n: int) {
    if lines == [] then 0
    else
      var last := lines[|lines| - 1];
      Amount(lines[..|lines| - 1]) + last.price * last.qty
  }

  function CountOf(types: seq<TypeId>, t: TypeId): (n: nat) {
    if types == [] then 0
    else CountOf(types[..|types| - 1], t) + if types[|types| - 1] == t then 1 else 0
  }

  // --- Selecting over tables --------------------------------------------------

  /** The line items of one order, in row order. */
  function LinesOf(items: seq<ItemRow>, o: OrderId): (lines: seq<Line>) {
    if items == [] then []
    else
      var last := items[|items| - 1];
      LinesOf(items[..|items| - 1], o) + if last.order == o then [Line(last.typ, last.qty, last.price)] else []
  }

  function QtyOf(items: seq<ItemRow>, o: OrderId, t: TypeId): (n: int) {
    Qty(LinesOf(items, o), t)
  }

  /** The ids of one order's attendees, ascending. */
  function AttendeesOf(attendees: seq<AttendeeRow>, o: OrderId): (ids: seq<AttendeeId>) {
    if attendees == [] then []
    else
      AttendeesOf(attendees[..|attendees| - 1], o)
      + if attendees[|attendees| - 1].order == o then [|attendees| - 1] else []
  }

  /** The ticket types one order's attendees were registered for. */
  function AttendeeTypes(attendees: seq<AttendeeRow>, o: OrderId): (types: seq<TypeId>) {
    if attendees == [] then []
    else
      var last := attendees[|attendees| - 1];
      AttendeeTypes(attendees[..|attendees| - 1], o) + if last.order == o then [last.typ] else []
  }

  /** One order's tickets, in row order. */
  function TicketsOf(tickets: seq<TicketRow>, o: OrderId): (rows: seq<TicketRow>) {
    if tickets == [] then []
    else
      TicketsOf(tickets[..|tickets| - 1], o)
      + if tickets[|tickets| - 1].order == o then [tickets[|tickets| - 1]] else []
  }

  function Codes(rows: seq<TicketRow>): (codes: seq<string>)
    ensures |codes| == |rows|
  {
    seq(|rows|, i requires 0 <= i < |rows| => rows[i].code)
  }

  function Holders(rows: seq<TicketRow>): (ids: seq<AttendeeId>)
    ensures |ids| == |rows|
  {
    seq(|rows|, i requires 0 <= i < |rows| => rows[i].attendee)
  }

  /** Seats of type t held by the first n orders. */
  function HeldBy(orders: seq<Order>, items: seq<ItemRow>, n: nat, t: TypeId): (held: int)
    requires n <= |orders|
  {
    if n == 0 then 0
    else
      HeldBy(orders, items, n - 1, t)
      + if Holds(orders[n - 1].status) then QtyOf(items, n - 1, t) else 0
  }

  /** Seats of type t held by PENDING and PAID orders. */
  function Held(db: Db, t: TypeId): (held: int) {
    HeldBy(db.orders, db.items, |db.orders|, t)
  }

  // --- Lemmas about appending -------------------------------------------------

  lemma {:induction false} QtyAppend(a: seq<Line>, b: seq<Line>, t: TypeId)
    ensures Qty(a + b, t) == Qty(a, t) + Qty(b, t)
  {
    if b == [] {
      assert a + b == a;
    } else {
      var c := b[..|b| - 1];
      assert (a + b)[..|a + b| - 1] == a + c;
      QtyAppend(a, c, t);
    }
  }

  lemma {:induction false} QtyNonNegative(lines: seq<Line>, t: TypeId)
    requires forall l <- lines :: l.qty >= 1
    ensures Qty(lines, t) >= 0
    ensures (exists l <- lines :: l.typ == t) ==> Qty(lines, t) >= 1
  {
    if lines != [] {
      QtyNonNegative(lines[..|lines| - 1], t);
      assert lines == lines[..|lines| - 1] + [lines[|lines| - 1]];
    }
  }

  lemma {:induction false} LinesOfAppend(a: seq<ItemRow>, b: seq<ItemRow>, o: OrderId)
    ensures LinesOf(a + b, o) == LinesOf(a, o) + LinesOf(b, o)
  {
    if b == [] {
      assert a + b == a;
    } else {
      var c := b[..|b| - 1];
      assert (a + b)[..|a + b| - 1] == a + c;
      LinesOfAppend(a, c, o);
    }
  }

  lemma {:induction false} LinesOfOthers(rows: seq<ItemRow>, o: OrderId)
    requires forall r <- rows :: r.order != o
    ensures LinesOf(rows, o) == []
  {
    if rows != [] {
      LinesOfOthers(rows[..|rows| - 1], o);
    }
  }

  lemma {:induction false} AttendeesAppend(a: seq<AttendeeRow>, b: seq<AttendeeRow>, o: OrderId)
    ensures AttendeeTypes(a + b, o) == AttendeeTypes(a, o) + AttendeeTypes(b, o)
    ensures (forall r <- b :: r.order != o) ==> AttendeesOf(a + b, o) == AttendeesOf(a, o)
    ensures (forall r <- b :: r.order != o) ==> AttendeeTypes(b, o) == []
  {
    if b == [] {
      assert a + b == a;
    } else {
      var c := b[..|b| - 1];
      assert (a + b)[..|a + b| - 1] == a + c;
      AttendeesAppend(a, c, o);
    }
  }

  lemma {:induction false} TicketsAppend(a: seq<TicketRow>, b: seq<TicketRow>, o: OrderId)
    ensures TicketsOf(a + b, o) == TicketsOf(a, o) + TicketsOf(b, o)
  {
    if b == [] {
      assert a + b == a;
    } else {
      var c := b[..|b| - 1];
      assert (a + b)[..|a + b| - 1] == a + c;
      TicketsAppend(a, c, o);
    }
  }

  /** Every selected ticket is a row of the table, and of that order. */
  lemma {:induction false} TicketsOfAreRows(tickets: seq<TicketRow>, o: OrderId)
    ensures forall row :: row in TicketsOf(tickets, o) <==> row in tickets && row.order == o
  {
    if tickets != [] {
      TicketsOfAreRows(tickets[..|tickets| - 1], o);
      assert tickets == tickets[..|tickets| - 1] + [tickets[|tickets| - 1]];
    }
  }

  lemma {:induction false} AttendeesOfAreRows(attendees: seq<AttendeeRow>, o: OrderId)
    ensures forall id: AttendeeId :: id in AttendeesOf(attendees, o) <==> id < |attendees| && attendees[id].order == o
  {
    if attendees != [] {
      AttendeesOfAreRows(attendees[..|attendees| - 1], o);
    }
  }

  lemma {:induction false} AttendeesOfAscend(attendees: seq<AttendeeRow>, o: OrderId)
    ensures forall i, j :: 0 <= i < j < |AttendeesOf(attendees, o)|
              ==> AttendeesOf(attendees, o)[i] < AttendeesOf(attendees, o)[j]
  {
    if attendees != [] {
      AttendeesOfAscend(attendees[..|attendees| - 1], o);
      AttendeesOfAreRows(attendees[..|attendees| - 1], o);
      var s := AttendeesOf(attendees[..|attendees| - 1], o);
      assert forall i :: 0 <= i < |s| ==> s[i] in s;
    }
  }

  // --- Lemmas about held seats ------------------------------------------------

  /** Orders with the same statuses and items hold the same seats. */
  lemma {:induction false} HeldSame(a: seq<Order>, x: seq<ItemRow>, b: seq<Order>, y: seq<ItemRow>, n: nat, t: TypeId)
    requires n <= |a| && n <= |b|
    requires forall o :: 0 <= o < n ==> Holds(a[o].status) == Holds(b[o].status) && LinesOf(x, o) == LinesOf(y, o)
    ensures HeldBy(a, x, n, t) == HeldBy(b, y, n, t)
  {
    if n != 0 {
      HeldSame(a, x, b, y, n - 1, t);
    }
  }

  /** Moving one order from a holding status releases exactly its own seats, or none. */
  lemma {:induction false} HeldAfterChange(orders: seq<Order>, items: seq<ItemRow>, o: OrderId, row: Order, n: nat, t: TypeId)
    requires o < |orders| && n <= |orders| && Holds(orders[o].status)
    ensures HeldBy(orders[o := row], items, n, t)
         == HeldBy(orders, items, n, t) - if o < n && !Holds(row.status) then QtyOf(items, o, t) else 0
  {
    if n != 0 {
      HeldAfterChange(orders, items, o, row, n - 1, t);
    }
  }

  lemma {:induction false} HeldAtLeast(orders: seq<Order>, items: seq<ItemRow>, n: nat, o: OrderId, t: TypeId)
    requires o < n <= |orders| && Holds(orders[o].status)
    requires forall r <- items :: r.qty >= 1
    ensures HeldBy(orders, items, n, t) >= QtyOf(items, o, t)
  {
    hide QtyOf;
    HeldNonNegative(orders, items, n - 1, t);
    QtyOfNonNegative(items, n - 1, t);
    if o < n - 1 {
      HeldAtLeast(orders, items, n - 1, o, t);
    }
  }

  lemma {:induction false} HeldNonNegative(orders: seq<Order>, items: seq<ItemRow>, n: nat, t: TypeId)
    requires n <= |orders|
    requires forall r <- items :: r.qty >= 1
    ensures HeldBy(orders, items, n, t) >= 0
  {
    if n != 0 {
      HeldNonNegative(orders, items, n - 1, t);
      QtyOfNonNegative(items, n - 1, t);
    }
  }

  lemma {:induction false} QtyOfNonNegative(items: seq<ItemRow>, o: OrderId, t: TypeId)
    requires forall r <- items :: r.qty >= 1
    ensures forall l <- LinesOf(items, o) :: l.qty >= 1
    ensures QtyOf(items, o, t) >= 0
  {
    LinesOfFromRows(items, o);
    forall l <- LinesOf(items, o) ensures l.qty >= 1 {
      var r :| r in items && r.order == o && Line(r.typ, r.qty, r.price) == l;
    }
    QtyNonNegative(LinesOf(items, o), t);
  }

  /** Every selected line comes from a row of that order. */
  lemma {:induction false} LinesOfFromRows(items: seq<ItemRow>, o: OrderId)
    ensures forall l <- LinesOf(items, o) ::
              exists r :: r in items && r.order == o && Line(r.typ, r.qty, r.price) == l
  {
    if items != [] {
      var last := items[|items| - 1];
      LinesOfFromRows(items[..|items| - 1], o);
      forall l <- LinesOf(items, o)
        ensures exists r :: r in items && r.order == o && Line(r.typ, r.qty, r.price) == l
      {
        if l in LinesOf(items[..|items| - 1], o) {
          var r :| r in items[..|items| - 1] && r.order == o && Line(r.typ, r.qty, r.price) == l;
          assert r in items;
        } else {
          assert last in items && last.order == o;
        }
      }
    }
  }
}
