/** Each transaction of the program as a function from the rows it starts on to the rows it
    commits, and what that function does to quotas and to the order it touches.

    A transaction either commits all of its statements or leaves the rows as they were. */
module Transactions {
  import opened Wrappers
  import opened Schema
  import opened Request

  /** Quotas within their CHECK constraint and their column. */
  predicate QuotasOk(types: map<TypeId, TicketType>) {
    forall t :: t in types ==> 0 <= types[t].quota <= MAX_INT32
  }

  predicate NumberTaken(orders: seq<Order>, number: string) {
    exists o :: 0 <= o < |orders| && orders[o].number == number
  }

  /** SELECT ... FROM orders WHERE order_number = $1. */
  function FindByNumber(orders: seq<Order>, number: string): (found: Option<OrderId>)
    ensures found.None? <==> !NumberTaken(orders, number)
    ensures found.Some? ==> found.value < |orders| && orders[found.value].number == number
  {
    if orders == [] then None
    else if orders[|orders| - 1].number == number then Some(|orders| - 1)
    else
      var r := FindByNumber(orders[..|orders| - 1], number);
      assert r.None? ==> !NumberTaken(orders, number) by {
        assert forall o :: 0 <= o < |orders| - 1 ==> orders[o] == orders[..|orders| - 1][o];
      }
      r
  }

  // --- TX1: reserve -----------------------------------------------------------------

  datatype ReserveError = TypeUnknown | NotOnSale | Insufficient | Taken | Rejected

  datatype Reservation = Reservation(types: map<TypeId, TicketType>, lines: seq<Line>)

  function ReserveOne(r: Reservation, now: int, item: CheckoutItem): (next: Result<Reservation, ReserveError>) {
    if item.typ !in r.types then Err(TypeUnknown)
    else
      var row := r.types[item.typ];
      if now < row.salesStart || now > row.salesEnd then Err(NotOnSale)
      else if row.quota < item.qty then Err(Insufficient)
      else if row.quota - item.qty > MAX_INT32 then Err(Rejected)
      else Ok(Reservation(r.types[item.typ := row.(quota := row.quota - item.qty)],
                          r.lines + [Line(item.typ, item.qty, row.price)]))
  }

  /** The reservation loop: one guarded deduction per line, stopping at the first failure. */
  function ReserveLines(types: map<TypeId, TicketType>, now: int, items: seq<CheckoutItem>)
    : (r: Result<Reservation, ReserveError>)
  {
    if items == [] then Ok(Reservation(types, []))
    else
      match ReserveLines(types, now, items[..|items| - 1])
      case Err(e) => Err(e)
      case Ok(r) => ReserveOne(r, now, items[|items| - 1])
  }

  function ItemRows(o: OrderId, lines: seq<Line>): (rows: seq<ItemRow>)
    ensures |rows| == |lines|
  {
    seq(|lines|, i requires 0 <= i < |lines| => ItemRow(o, lines[i].typ, lines[i].qty, lines[i].price))
  }

  function AttendeeRows(o: OrderId, types: seq<TypeId>): (rows: seq<AttendeeRow>)
    ensures |rows| == |types|
  {
    seq(|types|, i requires 0 <= i < |types| => AttendeeRow(o, types[i]))
  }

  function NewOrder(number: string, total: int): Order {
    Order(number, total, Pending, None, None, false)
  }

  datatype ReserveDone = ReserveDone(db: Db, id: OrderId, lines: seq<Line>)

  /** reserveOnce: deduct every line, insert the order, its items and its attendees. */
  function ReserveTx(db: Db, now: int, number: string, req: CheckoutRequest): (r: Result<ReserveDone, ReserveError>) {
    match ReserveLines(db.types, now, req.items)
    case Err(e) => Err(e)
    case Ok(r) =>
      var total := Amount(r.lines);
      var id := |db.orders|;
      if total > MAX_AMOUNT then Err(Rejected)
      else if NumberTaken(db.orders, number) then Err(Taken)
      else if exists t <- Types(req.attendees) :: t !in r.types then Err(Rejected)
      else Ok(ReserveDone(
        db.(types := r.types,
            orders := db.orders + [NewOrder(number, total)],
            items := db.items + ItemRows(id, r.lines),
            attendees := db.attendees + AttendeeRows(id, Types(req.attendees))),
        id, r.lines))
  }

  /** What a reservation has deducted and recorded for the lines it went through. */
  predicate ReservedFrom(types: map<TypeId, TicketType>, now: int, items: seq<CheckoutItem>, r: Reservation) {
    && r.types.Keys == types.Keys && QuotasOk(r.types)
    && |r.lines| == |items|
    && (forall t :: t in types ==> r.types[t] == types[t].(quota := types[t].quota - Qty(r.lines, t)))
    && forall i :: 0 <= i < |items| ==> FromType(types, now, items[i], r.lines[i])
  }

  /** The line is the item, at its type's price, sold within its window. */
  predicate FromType(types: map<TypeId, TicketType>, now: int, item: CheckoutItem, line: Line) {
    && item.typ in types
    && types[item.typ].salesStart <= now <= types[item.typ].salesEnd
    && line == Line(item.typ, item.qty, types[item.typ].price)
  }

  lemma ReserveOneEffect(types: map<TypeId, TicketType>, now: int, items: seq<CheckoutItem>, r: Reservation, item: CheckoutItem)
    requires QuotasOk(types) && item.qty >= 1 && ReservedFrom(types, now, items, r)
    ensures var next := ReserveOne(r, now, item);
            next.Ok? ==> ReservedFrom(types, now, items + [item], next.value)
  {
    var next := ReserveOne(r, now, item);
    if next.Ok? {
      var line := Line(item.typ, item.qty, r.types[item.typ].price);
      assert next.value.lines == r.lines + [line];
      forall t | t in types
        ensures Qty(next.value.lines, t) == Qty(r.lines, t) + if t == item.typ then item.qty else 0
      {
        assert (r.lines + [line])[..|r.lines|] == r.lines;
      }
    }
  }

  lemma {:induction false} ReserveLinesEffect(types: map<TypeId, TicketType>, now: int, items: seq<CheckoutItem>)
    requires QuotasOk(types) && PositiveQuantities(items)
    ensures var r := ReserveLines(types, now, items);
            r.Ok? ==> ReservedFrom(types, now, items, r.value)
  {
    if items != [] {
      var front, last := items[..|items| - 1], items[|items| - 1];
      ReserveLinesEffect(types, now, front);
      assert last in items && items == front + [last];
      var before := ReserveLines(types, now, front);
      if before.Ok? {
        ReserveOneEffect(types, now, front, before.value, last);
      }
    }
  }

  /** Among distinct lines, a line's own quantity is all there is of its type. */
  lemma {:induction false} QtyOfDistinct(lines: seq<Line>, i: nat)
    requires i < |lines|
    requires forall j, k :: 0 <= j < k < |lines| ==> lines[j].typ != lines[k].typ
    ensures Qty(lines, lines[i].typ) == lines[i].qty
  {
    var front := lines[..|lines| - 1];
    if i == |front| {
      QtyOfAbsent(front, lines[i].typ);
    } else {
      QtyOfDistinct(front, i);
    }
  }

  lemma {:induction false} QtyOfAbsent(lines: seq<Line>, t: TypeId)
    requires forall i :: 0 <= i < |lines| ==> lines[i].typ != t
    ensures Qty(lines, t) == 0
  {
    if lines != [] {
      QtyOfAbsent(lines[..|lines| - 1], t);
    }
  }

  lemma {:induction false} CountOfAbsent(types: seq<TypeId>, t: TypeId)
    ensures CountOf(types, t) == 0 <==> t !in types
  {
    if types != [] {
      CountOfAbsent(types[..|types| - 1], t);
      assert types == types[..|types| - 1] + [types[|types| - 1]];
    }
  }

  /** For an exact request, the attendees of each type are the seats of that type. */
  lemma ExactCounts(items: seq<CheckoutItem>, types: seq<TypeId>, lines: seq<Line>, t: TypeId)
    requires DistinctTypes(items) && Exact(items, types) && |lines| == |items|
    requires forall i :: 0 <= i < |items| ==> lines[i].typ == items[i].typ && lines[i].qty == items[i].qty
    ensures CountOf(types, t) == Qty(lines, t)
  {
    if Ordered(items, t) {
      var i :| 0 <= i < |items| && items[i].typ == t;
      assert items[i] in items;
      QtyOfDistinct(lines, i);
    } else {
      QtyOfAbsent(lines, t);
      CountOfAbsent(types, t);
    }
  }

  /** The item's type is known, on sale, and has the quantity left. */
  predicate Covers(types: map<TypeId, TicketType>, now: int, item: CheckoutItem) {
    && item.typ in types && item.qty <= types[item.typ].quota
    && types[item.typ].salesStart <= now <= types[item.typ].salesEnd
  }

  predicate AllCovered(types: map<TypeId, TicketType>, now: int, items: seq<CheckoutItem>) {
    forall item <- items :: Covers(types, now, item)
  }

  lemma ReserveOneIff(types: map<TypeId, TicketType>, now: int, items: seq<CheckoutItem>, r: Reservation, item: CheckoutItem)
    requires QuotasOk(types) && item.qty >= 1 && ReservedFrom(types, now, items, r)
    requires forall i :: 0 <= i < |items| ==> items[i].typ != item.typ
    ensures ReserveOne(r, now, item).Ok? <==> Covers(types, now, item)
  {
    assert forall i :: 0 <= i < |items| ==> FromType(types, now, items[i], r.lines[i]);
    QtyOfAbsent(r.lines, item.typ);
    hide Qty;
  }

  lemma CoveredAppend(types: map<TypeId, TicketType>, now: int, items: seq<CheckoutItem>, item: CheckoutItem)
    ensures AllCovered(types, now, items + [item]) <==> AllCovered(types, now, items) && Covers(types, now, item)
  {
    hide Covers;
    assert forall x :: x in items + [item] <==> x in items || x == item;
  }

  /** Reservation succeeds exactly when every line is known, on sale and covered. */
  lemma {:induction false} ReserveLinesIff(types: map<TypeId, TicketType>, now: int, items: seq<CheckoutItem>)
    requires QuotasOk(types) && PositiveQuantities(items) && DistinctTypes(items)
    ensures ReserveLines(types, now, items).Ok? <==> AllCovered(types, now, items)
  {
    if items != [] {
      var front, last := items[..|items| - 1], items[|items| - 1];
      assert items == front + [last];
      ReserveLinesIff(types, now, front);
      ReserveLinesEffect(types, now, front);
      CoveredAppend(types, now, front, last);
      var before := ReserveLines(types, now, front);
      hide AllCovered, Covers, ReservedFrom, QuotasOk, ReserveOne;
      if before.Ok? {
        ReserveOneIff(types, now, front, before.value, last);
      }
    }
  }

  lemma {:induction false} ItemRowsLines(o: OrderId, lines: seq<Line>)
    ensures LinesOf(ItemRows(o, lines), o) == lines
  {
    if lines != [] {
      ItemRowsLines(o, lines[..|lines| - 1]);
      assert ItemRows(o, lines)[..|lines| - 1] == ItemRows(o, lines[..|lines| - 1]);
    }
  }

  lemma {:induction false} AttendeeRowsTypes(o: OrderId, types: seq<TypeId>)
    ensures AttendeeTypes(AttendeeRows(o, types), o) == types
  {
    if types != [] {
      AttendeeRowsTypes(o, types[..|types| - 1]);
      assert AttendeeRows(o, types)[..|types| - 1] == AttendeeRows(o, types[..|types| - 1]);
    }
  }

  // --- Settling: one guarded update, and perhaps a release ------------------------------

  function RestoreOne(types: map<TypeId, TicketType>, t: TypeId, qty: int): (r: Option<map<TypeId, TicketType>>) {
    if t in types && 0 <= types[t].quota + qty <= MAX_INT32
    then Some(types[t := types[t].(quota := types[t].quota + qty)])
    else None
  }

  /** The restore loop: the first line that cannot be restored fails the whole. */
  function RestoreLines(types: map<TypeId, TicketType>, lines: seq<Line>): (r: Option<map<TypeId, TicketType>>) {
    if lines == [] then Some(types)
    else
      match RestoreLines(types, lines[..|lines| - 1])
      case None => None
      case Some(m) => RestoreOne(m, lines[|lines| - 1].typ, lines[|lines| - 1].qty)
  }

  datatype TxResult = Applied(db: Db) | Skipped | Failed

  predicate IsPending(db: Db, o: OrderId) {
    o < |db.orders| && db.orders[o].status == Pending
  }

  /** UPDATE orders SET status = $2 WHERE id = $1 AND status = 'PENDING'; and, if a row
      matched and the outcome releases, one restore per line. */
  function SettleTx(db: Db, o: OrderId, status: Status, restore: bool, lines: seq<Line>): (r: TxResult) {
    if !IsPending(db, o) then Skipped
    else
      var orders := db.orders[o := db.orders[o].(status := status)];
      if !restore then Applied(db.(orders := orders))
      else
        match RestoreLines(db.types, lines)
        case Some(types) => Applied(db.(orders := orders, types := types))
        case None => Failed
  }

  lemma {:induction false} RestoreEffect(types: map<TypeId, TicketType>, lines: seq<Line>)
    requires QuotasOk(types)
    ensures var r := RestoreLines(types, lines);
            r.Some? ==>
              && r.value.Keys == types.Keys && QuotasOk(r.value)
              && forall t :: t in types ==> r.value[t] == types[t].(quota := types[t].quota + Qty(lines, t))
  {
    if lines != [] {
      RestoreEffect(types, lines[..|lines| - 1]);
    }
  }

  /** Restoring succeeds exactly when every type exists and no quota leaves its column. */
  lemma {:induction false} RestoreIff(types: map<TypeId, TicketType>, lines: seq<Line>)
    requires QuotasOk(types) && forall l <- lines :: l.qty >= 1
    ensures RestoreLines(types, lines).Some? <==>
            && (forall l <- lines :: l.typ in types)
            && forall t :: t in types ==> types[t].quota + Qty(lines, t) <= MAX_INT32
  {
    if lines != [] {
      var front, last := lines[..|lines| - 1], lines[|lines| - 1];
      assert lines == front + [last];
      assert last in lines && forall l :: l in front ==> l in lines;
      RestoreIff(types, front);
      RestoreEffect(types, front);
      RestoreEffect(types, lines);
      forall t | t in types ensures Qty(front, t) <= Qty(lines, t) { }
    }
  }

  function Without(lines: seq<Line>, i: nat): (rest: seq<Line>)
    requires i < |lines|
  {
    lines[..i] + lines[i + 1..]
  }

  lemma MembersWithout(lines: seq<Line>, i: nat)
    requires i < |lines|
    ensures multiset(Without(lines, i)) == multiset(lines) - multiset{lines[i]}
  {
    assert lines == lines[..i] + [lines[i]] + lines[i + 1..];
  }

  lemma QtyWithout(lines: seq<Line>, i: nat, t: TypeId)
    requires i < |lines|
    ensures Qty(lines, t) == Qty(Without(lines, i), t) + Qty([lines[i]], t)
  {
    var c, x, d := lines[..i], [lines[i]], lines[i + 1..];
    assert lines == c + x + d;
    QtyAppend(c, d, t);
    QtyAppend(c + x, d, t);
    QtyAppend(c, x, t);
  }

  lemma {:induction false} QtyIgnoresOrder(a: seq<Line>, b: seq<Line>, t: TypeId)
    requires multiset(a) == multiset(b)
    ensures Qty(a, t) == Qty(b, t)
    decreases |a|
  {
    if a == [] {
      assert |multiset(b)| == 0;
    } else {
      hide Qty, Without;
      var i := IndexOf(b, a[0]);
      MembersWithout(a, 0);
      MembersWithout(b, i);
      QtyWithout(a, 0, t);
      QtyWithout(b, i, t);
      assert |Without(a, 0)| == |multiset(Without(a, 0))| < |multiset(a)| == |a|;
      QtyIgnoresOrder(Without(a, 0), Without(b, i), t);
    }
  }

  lemma IndexOf(lines: seq<Line>, l: Line) returns (i: nat)
    requires l in multiset(lines)
    ensures i < |lines| && lines[i] == l
  {
    i :| 0 <= i < |lines| && lines[i] == l;
  }

  /** The line items come in no particular order, and none matters to a release. */
  lemma RestoreIgnoresOrder(types: map<TypeId, TicketType>, a: seq<Line>, b: seq<Line>)
    requires QuotasOk(types) && multiset(a) == multiset(b) && forall l <- a :: l.qty >= 1
    ensures RestoreLines(types, a) == RestoreLines(types, b)
  {
    SameMembers(a, b);
    forall t ensures Qty(a, t) == Qty(b, t) {
      QtyIgnoresOrder(a, b, t);
    }
    FitIgnoresOrder(types, a, b);
    RestoreEffect(types, a);
    RestoreEffect(types, b);
    hide *;
    if RestoreLines(types, a).Some? {
      RestoredSame(types, RestoreLines(types, a).value, RestoreLines(types, b).value, a, b);
    }
  }

  lemma FitIgnoresOrder(types: map<TypeId, TicketType>, a: seq<Line>, b: seq<Line>)
    requires QuotasOk(types) && (forall l <- a :: l.qty >= 1) && (forall l :: l in a <==> l in b)
    requires forall t :: Qty(a, t) == Qty(b, t)
    ensures RestoreLines(types, a).Some? <==> RestoreLines(types, b).Some?
  {
    RestoreIff(types, a);
    RestoreIff(types, b);
    hide *;
  }

  lemma RestoredSame(types: map<TypeId, TicketType>, x: map<TypeId, TicketType>, y: map<TypeId, TicketType>,
                     a: seq<Line>, b: seq<Line>)
    requires x.Keys == types.Keys == y.Keys && forall t :: Qty(a, t) == Qty(b, t)
    requires forall t :: t in types ==> x[t] == types[t].(quota := types[t].quota + Qty(a, t))
    requires forall t :: t in types ==> y[t] == types[t].(quota := types[t].quota + Qty(b, t))
    ensures x == y
  {
    hide *;
    forall t | t in types ensures x[t] == y[t] { }
  }

  lemma SameMembers(a: seq<Line>, b: seq<Line>)
    requires multiset(a) == multiset(b)
    ensures forall l :: l in a <==> l in b
  {
    forall l ensures l in a <==> l in b {
      assert (l in a <==> l in multiset(a)) && (l in b <==> l in multiset(b));
    }
  }

  // --- TX2: the payment stamp, and the delivery flag --------------------------------------

  /** UPDATE orders SET payment_qr_string = ..., payment_expires_at = ... WHERE id = $1. An
      empty payload is stored as NULL. */
  function StampTx(db: Db, o: OrderId, qr: string, deadline: Option<int>): (r: TxResult) {
    if o >= |db.orders| then Failed
    else
      var row := db.orders[o].(qr := if qr == "" then None else Some(qr), deadline := deadline);
      Applied(db.(orders := db.orders[o := row]))
  }

  /** The same tables, but for the row of one order. */
  ghost predicate OneOrderChanged(a: Db, b: Db, o: OrderId) {
    && b == a.(orders := b.orders) && o < |a.orders| == |b.orders|
    && forall x :: 0 <= x < |a.orders| && x != o ==> b.orders[x] == a.orders[x]
  }

  /** Order o holds the payload, unless it is empty, and the deadline, and is otherwise as before. */
  ghost predicate Stamped(a: Db, b: Db, o: OrderId, qr: string, deadline: Option<int>) {
    && OneOrderChanged(a, b, o)
    && (qr == "" ==> b.orders[o].qr == None) && (qr != "" ==> b.orders[o].qr == Some(qr))
    && b.orders[o].deadline == deadline
    && b.orders[o].number == a.orders[o].number && b.orders[o].total == a.orders[o].total
    && b.orders[o].status == a.orders[o].status && b.orders[o].emailSent == a.orders[o].emailSent
  }

  /** A stamp stores the session on the order's row, and fails only for a missing order. */
  lemma StampStores(db: Db, o: OrderId, qr: string, deadline: Option<int>)
    ensures var r := StampTx(db, o, qr, deadline);
            if o < |db.orders| then r.Applied? && Stamped(db, r.db, o, qr, deadline) else r == Failed
  { }

  /** UPDATE orders SET email_sent = TRUE WHERE id = $1. */
  function MarkSentTx(db: Db, o: OrderId): (r: TxResult) {
    if o >= |db.orders| then Failed
    else Applied(db.(orders := db.orders[o := db.orders[o].(emailSent := true)]))
  }

  /** Order o is marked, and is otherwise as before. */
  ghost predicate MarkedSent(a: Db, b: Db, o: OrderId) {
    && OneOrderChanged(a, b, o) && b.orders[o].emailSent
    && b.orders[o].number == a.orders[o].number && b.orders[o].total == a.orders[o].total
    && b.orders[o].status == a.orders[o].status && b.orders[o].qr == a.orders[o].qr
    && b.orders[o].deadline == a.orders[o].deadline
  }

  lemma MarkSentMarks(db: Db, o: OrderId)
    ensures var r := MarkSentTx(db, o);
            if o < |db.orders| then r.Applied? && MarkedSent(db, r.db, o) else r == Failed
  { }

  /** INSERT INTO payments. The order must exist. */
  function RecordTx(db: Db, o: OrderId, answer: Answer): (r: TxResult) {
    if o >= |db.orders| then Failed
    else Applied(db.(payments := db.payments + [PaymentRow(o, answer)]))
  }

  // --- Issuance and admission -----------------------------------------------------------------

  predicate CodeTaken(tickets: seq<TicketRow>, code: string) {
    exists i :: 0 <= i < |tickets| && tickets[i].code == code
  }

  /** The first ticket with a code. */
  function FindTicket(tickets: seq<TicketRow>, code: string): (found: Option<nat>)
    ensures found.None? <==> !CodeTaken(tickets, code)
    ensures found.Some? ==> found.value < |tickets| && tickets[found.value].code == code
  {
    if tickets == [] then None
    else
      var r := FindTicket(tickets[..|tickets| - 1], code);
      assert CodeTaken(tickets, code) ==> CodeTaken(tickets[..|tickets| - 1], code) || tickets[|tickets| - 1].code == code by {
        assert forall i :: 0 <= i < |tickets| - 1 ==> tickets[i] == tickets[..|tickets| - 1][i];
      }
      if r.Some? then r
      else if tickets[|tickets| - 1].code == code then Some(|tickets| - 1)
      else None
  }

  function StatusOf(tickets: seq<TicketRow>, code: string): Option<TicketStatus> {
    match FindTicket(tickets, code)
    case None => None
    case Some(i) => Some(tickets[i].status)
  }

  /** The insert loop of GenerateForOrder: a taken code fails the whole. */
  function InsertTickets(tickets: seq<TicketRow>, o: OrderId, ids: seq<AttendeeId>, codes: seq<string>)
    : (r: Option<seq<TicketRow>>)
    requires |ids| == |codes|
  {
    if ids == [] then Some(tickets)
    else
      match InsertTickets(tickets, o, ids[..|ids| - 1], codes[..|ids| - 1])
      case None => None
      case Some(rows) =>
        if CodeTaken(rows, codes[|ids| - 1]) then None
        else Some(rows + [TicketRow(codes[|ids| - 1], o, ids[|ids| - 1], Active)])
  }

  function IssueTx(db: Db, o: OrderId, ids: seq<AttendeeId>, codes: seq<string>): (r: TxResult)
    requires |ids| == |codes|
  {
    if o >= |db.orders| || exists id <- ids :: id >= |db.attendees| then Failed
    else
      match InsertTickets(db.tickets, o, ids, codes)
      case None => Failed
      case Some(rows) => Applied(db.(tickets := rows))
  }

  predicate CodesUnique(tickets: seq<TicketRow>) {
    forall i, j :: 0 <= i < j < |tickets| ==> tickets[i].code != tickets[j].code
  }

  /** Issuance appends one ACTIVE ticket per id, in order, and keeps all codes distinct. */
  lemma {:induction false} InsertTicketsEffect(tickets: seq<TicketRow>, o: OrderId, ids: seq<AttendeeId>, codes: seq<string>)
    requires |ids| == |codes| && CodesUnique(tickets)
    ensures var r := InsertTickets(tickets, o, ids, codes);
            r.Some? ==>
              && |r.value| == |tickets| + |ids| && tickets <= r.value && CodesUnique(r.value)
              && forall i :: 0 <= i < |ids| ==> r.value[|tickets| + i] == TicketRow(codes[i], o, ids[i], Active)
  {
    if ids != [] {
      InsertTicketsEffect(tickets, o, ids[..|ids| - 1], codes[..|ids| - 1]);
    }
  }

  lemma {:induction false} InsertedCodes(tickets: seq<TicketRow>, o: OrderId, ids: seq<AttendeeId>, codes: seq<string>, code: string)
    requires |ids| == |codes| && InsertTickets(tickets, o, ids, codes).Some?
    ensures CodeTaken(InsertTickets(tickets, o, ids, codes).value, code) <==> CodeTaken(tickets, code) || code in codes
  {
    if ids != [] {
      var n := |ids| - 1;
      InsertedCodes(tickets, o, ids[..n], codes[..n], code);
      var before, after := InsertTickets(tickets, o, ids[..n], codes[..n]).value, InsertTickets(tickets, o, ids, codes).value;
      assert codes == codes[..n] + [codes[n]];
      assert after == before + [TicketRow(codes[n], o, ids[n], Active)];
      if CodeTaken(before, code) {
        var i :| 0 <= i < |before| && before[i].code == code;
        assert after[i].code == code;
      }
      if CodeTaken(after, code) {
        var i :| 0 <= i < |after| && after[i].code == code;
        assert i < |before| ==> before[i].code == code;
      }
      assert after[|before|].code == codes[n];
    }
  }

  /** Issuance succeeds exactly when the codes are new and differ; nothing else stands in its
      way, not even tickets that the order already has. */
  lemma {:induction false} InsertTicketsIff(tickets: seq<TicketRow>, o: OrderId, ids: seq<AttendeeId>, codes: seq<string>)
    requires |ids| == |codes|
    ensures InsertTickets(tickets, o, ids, codes).Some? <==>
            && (forall i :: 0 <= i < |codes| ==> !CodeTaken(tickets, codes[i]))
            && forall i, j :: 0 <= i < j < |codes| ==> codes[i] != codes[j]
  {
    if ids != [] {
      var n := |ids| - 1;
      var front := codes[..n];
      InsertTicketsIff(tickets, o, ids[..n], front);
      if InsertTickets(tickets, o, ids[..n], front).Some? {
        InsertedCodes(tickets, o, ids[..n], front, codes[n]);
        assert codes[n] in front <==> exists i :: 0 <= i < n && codes[i] == codes[n];
      } else {
        assert forall i :: 0 <= i < n ==> front[i] == codes[i];
      }
    }
  }

  /** One of the codes is taken, or two of them are the same. */
  predicate Collide(tickets: seq<TicketRow>, codes: seq<string>) {
    || (exists i :: 0 <= i < |codes| && CodeTaken(tickets, codes[i]))
    || exists i, j :: 0 <= i < j < |codes| && codes[i] == codes[j]
  }

  /** The issuing transaction fails exactly for an order or attendee that does not exist, or for
      codes that collide. */
  lemma IssueTxIff(db: Db, o: OrderId, ids: seq<AttendeeId>, codes: seq<string>)
    requires |ids| == |codes|
    ensures IssueTx(db, o, ids, codes) == Failed <==>
            o >= |db.orders| || (exists id <- ids :: id >= |db.attendees|) || Collide(db.tickets, codes)
  {
    InsertTicketsIff(db.tickets, o, ids, codes);
    hide InsertTickets, CodeTaken;
  }

  /** UPDATE tickets SET status = 'USED' WHERE ticket_code = $1 AND status = 'ACTIVE'. */
  function Admit(tickets: seq<TicketRow>, code: string): (rows: seq<TicketRow>)
    ensures |rows| == |tickets|
  {
    seq(|tickets|, i requires 0 <= i < |tickets| =>
      if tickets[i].code == code && tickets[i].status == Active then tickets[i].(status := Used) else tickets[i])
  }

  /** Whether that update matches a row. */
  predicate Admissible(tickets: seq<TicketRow>, code: string) {
    exists i :: 0 <= i < |tickets| && tickets[i].code == code && tickets[i].status == Active
  }

  /** Where codes are distinct, admission turns the one ACTIVE ticket with the code USED and leaves
      every other ticket as it was. */
  lemma AdmitEffect(tickets: seq<TicketRow>, code: string)
    requires CodesUnique(tickets)
    ensures var after := Admit(tickets, code);
            && |after| == |tickets|
            && (forall i :: 0 <= i < |tickets| && tickets[i].code != code ==> after[i] == tickets[i])
            && (forall i :: 0 <= i < |tickets| && tickets[i].code == code ==>
                  after[i] == if tickets[i].status == Active then tickets[i].(status := Used) else tickets[i])
    ensures Admissible(tickets, code) <==> StatusOf(tickets, code) == Some(Active)
  {
    FoundOnly(tickets, code);
  }

  lemma FoundOnly(tickets: seq<TicketRow>, code: string)
    requires CodesUnique(tickets)
    ensures forall i :: 0 <= i < |tickets| && tickets[i].code == code ==> FindTicket(tickets, code) == Some(i)
  {
    forall i | 0 <= i < |tickets| && tickets[i].code == code ensures FindTicket(tickets, code) == Some(i) {
      var j := FindTicket(tickets, code).value;
      assert tickets[j].code == code;
    }
    hide FindTicket;
  }

  // --- Catalog administration --------------------------------------------------------------------

  /** Some order item or attendee refers to the type. */
  predicate Referenced(db: Db, t: TypeId) {
    || (exists r <- db.items :: r.typ == t)
    || exists r <- db.attendees :: r.typ == t
  }

  datatype DeleteResult = Deleted(db: Db) | Missing | Refused

  function DeleteTypeTx(db: Db, t: TypeId): (r: DeleteResult) {
    if Referenced(db, t) then Refused
    else if t !in db.types then Missing
    else Deleted(db.(types := db.types - {t}))
  }

  function TypesOfEvent(types: map<TypeId, TicketType>, e: EventId): (ids: set<TypeId>) {
    set t | t in types && types[t].event == e
  }

  /** The order guard over all the event's types, then the types, then the event. */
  function DeleteEventTx(db: Db, e: EventId): (r: DeleteResult) {
    var ids := TypesOfEvent(db.types, e);
    if exists t <- ids :: Referenced(db, t) then Refused
    else if e !in db.events then Missing
    else Deleted(db.(types := db.types - ids, events := db.events - {e}))
  }

  /** A type goes, alone, exactly if it is there and no item or attendee refers to it. */
  lemma DeleteTypeIff(db: Db, t: TypeId)
    ensures var r := DeleteTypeTx(db, t);
            var used := (exists row <- db.items :: row.typ == t) || exists row <- db.attendees :: row.typ == t;
            && (r == Refused <==> used)
            && (r == Missing <==> !used && t !in db.types)
            && (r.Deleted? <==> !used && t in db.types)
            && (r.Deleted? ==> TypesGone(db, r.db, {t}) && r.db.events == db.events)
  { }

  /** The given types are gone, and nothing else of the tables but perhaps events has changed. */
  ghost predicate TypesGone(a: Db, b: Db, ids: set<TypeId>) {
    && b == a.(types := b.types, events := b.events)
    && (forall t :: t in b.types <==> t in a.types && t !in ids)
    && forall t :: t in b.types ==> b.types[t] == a.types[t]
  }

  /** An event goes, with all its types and nothing else, exactly if it is there and no item or
      attendee refers to any of them. */
  lemma DeleteEventIff(db: Db, e: EventId)
    ensures var r := DeleteEventTx(db, e);
            var used := exists t :: t in db.types && db.types[t].event == e && Referenced(db, t);
            && (r == Refused <==> used)
            && (r == Missing <==> !used && e !in db.events)
            && (r.Deleted? <==> !used && e in db.events)
            && (r.Deleted? ==> TypesGone(db, r.db, set t | t in db.types && db.types[t].event == e)
                               && r.db.events == db.events - {e})
  {
    hide Referenced;
    assert forall t :: t in TypesOfEvent(db.types, e) <==> t in db.types && db.types[t].event == e;
  }

  /** Within NUMERIC(12, 2). */
  predicate PriceFits(price: int) {
    -MAX_AMOUNT <= price <= MAX_AMOUNT
  }

  /** UPDATE ticket_types: every field but the event; the quota is set absolutely. */
  function UpdateTypeTx(db: Db, t: TypeId, row: TicketType): (r: TxResult) {
    if t !in db.types || !PriceFits(row.price) || row.quota < 0 || row.quota > MAX_INT32 then Failed
    else Applied(db.(types := db.types[t := row.(event := db.types[t].event)]))
  }

  /** INSERT INTO ticket_types. The event must exist. */
  function CreateTypeTx(db: Db, t: TypeId, row: TicketType): (r: TxResult) {
    if t in db.types || row.event !in db.events || !PriceFits(row.price) || row.quota < 0 || row.quota > MAX_INT32 then Failed
    else Applied(db.(types := db.types[t := row]))
  }

  /** Type t has this price, quota and sale window; its event, and every other row, is as before. */
  ghost predicate TypeEdited(a: Db, b: Db, t: TypeId, price: int, quota: int, salesStart: int, salesEnd: int) {
    && b == a.(types := b.types) && b.types.Keys == a.types.Keys && t in a.types
    && b.types[t].price == price && b.types[t].quota == quota
    && b.types[t].salesStart == salesStart && b.types[t].salesEnd == salesEnd
    && b.types[t].event == a.types[t].event
    && forall x :: x in a.types && x != t ==> b.types[x] == a.types[x]
  }

  /** An edit replaces all of the type's row but its event, exactly if the type is there and price
      and quota fit their columns. */
  lemma UpdateTypeIff(db: Db, t: TypeId, row: TicketType)
    ensures var r := UpdateTypeTx(db, t, row);
            && (r.Applied? <==> t in db.types && -MAX_AMOUNT <= row.price <= MAX_AMOUNT && 0 <= row.quota <= MAX_INT32)
            && (r.Applied? ==> TypeEdited(db, r.db, t, row.price, row.quota, row.salesStart, row.salesEnd))
            && r != Skipped
  { }

  /** A creation adds exactly its row, exactly if there is none, the event is there, and price and
      quota fit. */
  lemma CreateTypeIff(db: Db, t: TypeId, row: TicketType)
    ensures var r := CreateTypeTx(db, t, row);
            && (r.Applied? <==> t !in db.types && row.event in db.events
                                && -MAX_AMOUNT <= row.price <= MAX_AMOUNT && 0 <= row.quota <= MAX_INT32)
            && (r.Applied? ==>
                  && r.db == db.(types := r.db.types) && r.db.types.Keys == db.types.Keys + {t} && r.db.types[t] == row
                  && forall x :: x in db.types ==> r.db.types[x] == db.types[x])
  { }
}
