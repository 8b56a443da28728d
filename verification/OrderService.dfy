/** Checkout: reserve in one transaction, open the payment outside any, then stamp the order or
    compensate. Each method takes its process's actions of the interleaved system. */
module OrderService {
  import opened Wrappers
  import opened Schema
  import opened Request
  import opened Transactions
  import opened System
  import opened Invariant
  import opened Runs
  import opened Placements
  import opened Storage
  import Guarantees

  // --- TX1 --------------------------------------------------------------------------------------

  /** A line that cannot be reserved fails the whole loop, with its own error. */
  lemma {:induction false} ReservePrefix(types: map<TypeId, TicketType>, now: int, items: seq<CheckoutItem>, k: nat)
    requires k <= |items|
    ensures ReserveLines(types, now, items[..k]).Err? ==> ReserveLines(types, now, items) == ReserveLines(types, now, items[..k])
    decreases |items|
  {
    if k < |items| {
      assert items[..|items| - 1][..k] == items[..k];
      ReservePrefix(types, now, items[..|items| - 1], k);
    } else {
      assert items[..k] == items;
    }
  }

  /** One more item is one more deduction. */
  lemma ReserveNext(types: map<TypeId, TicketType>, now: int, items: seq<CheckoutItem>, i: nat, r: Reservation)
    requires i < |items| && ReserveLines(types, now, items[..i]) == Ok(r)
    ensures var next := ReserveOne(r, now, items[i]);
            && ReserveLines(types, now, items[..i + 1]) == next
            && (next.Err? ==> ReserveLines(types, now, items) == next)
  {
    assert items[..i + 1][..i] == items[..i];
    ReservePrefix(types, now, items, i + 1);
  }

  lemma AmountNext(lines: seq<Line>, line: Line)
    ensures Amount(lines + [line]) == Amount(lines) + line.price * line.qty
  {
    assert (lines + [line])[..|lines|] == lines;
  }

  lemma {:induction false} ReservedTypesExist(types: map<TypeId, TicketType>, now: int, items: seq<CheckoutItem>)
    ensures var r := ReserveLines(types, now, items);
            r.Ok? ==> forall l <- r.value.lines :: l.typ in r.value.types
  {
    if items != [] {
      ReservedTypesExist(types, now, items[..|items| - 1]);
    }
  }

  /** One line: its type must be known, on sale, and covered. */
  method DeductLine(store: Store, item: CheckoutItem, ghost lines: seq<Line>) returns (r: Result<Line, ReserveError>)
    modifies store`work
    ensures r.Ok? ==>
              && ReserveOne(Reservation(old(store.work).types, lines), store.now, item)
                 == Ok(Reservation(store.work.types, lines + [r.value]))
              && store.work == old(store.work).(types := store.work.types)
    ensures r.Err? ==> r.error != Taken
    ensures r.Err? && (store.reliable || r.error != Rejected) ==>
              ReserveOne(Reservation(old(store.work).types, lines), store.now, item) == Err(r.error)
  {
    var info, err := store.TicketTypeForCheckout(item.typ);
    if err {
      return Err(Rejected);
    }
    if info.None? {
      return Err(TypeUnknown);
    }
    var row := info.value;
    if store.now < row.salesStart || store.now > row.salesEnd {
      return Err(NotOnSale);
    }
    var deduction := store.DeductQuota(item.typ, item.qty);
    if deduction == NotEnough {
      return Err(Insufficient);
    }
    if deduction == DeductionFails {
      return Err(Rejected);
    }
    r := Ok(Line(item.typ, item.qty, row.price));
  }

  /** The deductions of one order, and its total. */
  method DeductLines(store: Store, items: seq<CheckoutItem>) returns (r: Result<seq<Line>, ReserveError>, total: int)
    modifies store`work
    ensures r.Ok? ==>
              && ReserveLines(old(store.work).types, store.now, items) == Ok(Reservation(store.work.types, r.value))
              && store.work == old(store.work).(types := store.work.types)
              && total == Amount(r.value)
    ensures r.Err? ==> r.error != Taken
    ensures r.Err? && (store.reliable || r.error != Rejected) ==> ReserveLines(old(store.work).types, store.now, items) == Err(r.error)
  {
    ghost var before := store.work;
    var reserved: seq<Line> := [];
    total := 0;
    assert items[..0] == [];
    for i := 0 to |items|
      invariant ReserveLines(before.types, store.now, items[..i]) == Ok(Reservation(store.work.types, reserved))
      invariant store.work == before.(types := store.work.types)
      invariant total == Amount(reserved)
    {
      hide *;
      ReserveNext(before.types, store.now, items, i, Reservation(store.work.types, reserved));
      var line := DeductLine(store, items[i], reserved);
      if line.Err? {
        return Err(line.error), total;
      }
      AmountNext(reserved, line.value);
      total := total + line.value.price * line.value.qty;
      reserved := reserved + [line.value];
    }
    assert items[..|items|] == items;
    r := Ok(reserved);
  }

  method InsertItems(store: Store, o: OrderId, lines: seq<Line>) returns (err: bool)
    requires o < |store.work.orders| && forall l <- lines :: l.typ in store.work.types
    modifies store`work
    ensures store.reliable ==> !err
    ensures !err ==> store.work == old(store.work).(items := old(store.work).items + ItemRows(o, lines))
  {
    ghost var before := store.work;
    err := false;
    assert before.items + ItemRows(o, lines[..0]) == before.items;
    for i := 0 to |lines|
      invariant store.work == before.(items := before.items + ItemRows(o, lines[..i]))
      invariant !err
    {
      err := store.InsertItem(o, lines[i]);
      if err {
        return;
      }
      assert ItemRows(o, lines[..i + 1]) == ItemRows(o, lines[..i]) + [ItemRow(o, lines[i].typ, lines[i].qty, lines[i].price)];
    }
    assert lines[..|lines|] == lines;
  }

  method InsertAttendees(store: Store, o: OrderId, attendees: seq<CheckoutAttendee>) returns (err: bool)
    requires o < |store.work.orders|
    modifies store`work
    ensures err && store.reliable ==> exists t <- Types(attendees) :: t !in old(store.work).types
    ensures !err ==>
              && (forall t <- Types(attendees) :: t in old(store.work).types)
              && store.work == old(store.work).(attendees := old(store.work).attendees + AttendeeRows(o, Types(attendees)))
  {
    ghost var before := store.work;
    ghost var types := Types(attendees);
    err := false;
    assert before.attendees + AttendeeRows(o, types[..0]) == before.attendees;
    for i := 0 to |attendees|
      invariant store.work == before.(attendees := before.attendees + AttendeeRows(o, types[..i]))
      invariant !err && forall t <- types[..i] :: t in before.types
    {
      err := store.InsertAttendee(o, attendees[i].typ);
      if err {
        assert types[i] in types;
        return;
      }
      assert AttendeeRows(o, types[..i + 1]) == AttendeeRows(o, types[..i]) + [AttendeeRow(o, types[i])];
    }
    assert types[..|attendees|] == types;
  }

  datatype Placed = Placed(id: OrderId, number: string, total: int, lines: seq<Line>)

  /** The body of TX1. */
  method ReserveBody(store: Store, number: string, req: CheckoutRequest) returns (r: Result<Placed, ReserveError>)
    modifies store`work
    ensures r.Ok? ==>
              && ReserveTx(old(store.work), store.now, number, req) == Ok(ReserveDone(store.work, r.value.id, r.value.lines))
              && r.value.number == number && r.value.total == Amount(r.value.lines)
    ensures r.Err? && (store.reliable || r.error != Rejected) ==> ReserveTx(old(store.work), store.now, number, req) == Err(r.error)
  {
    hide ReserveLines, Amount, ItemRows, AttendeeRows;
    ReservedTypesExist(store.work.types, store.now, req.items);
    var reserved, total := DeductLines(store, req.items);
    if reserved.Err? {
      return Err(reserved.error);
    }
    var lines := reserved.value;
    var created := store.InsertOrder(number, total);
    if created.Err? {
      return Err(created.error);
    }
    var id := created.value;
    var err := InsertItems(store, id, lines);
    if err {
      return Err(Rejected);
    }
    err := InsertAttendees(store, id, req.attendees);
    if err {
      return Err(Rejected);
    }
    r := Ok(Placed(id, number, total, lines));
  }

  /** What one attempt at TX1 does to its process. A number that was taken leaves one attempt
      less; every other error ends the checkout. */
  lemma ReserveMove(s: Sys, p: Pid, req: CheckoutRequest, attempts: nat, number: string, work: Db,
                    r: Result<Placed, ReserveError>, fate: Fate)
    requires p in s.procs && s.procs[p] == Reserving(req, attempts)
    requires r.Ok? ==> ReserveTx(s.facts.db, s.clock, number, req) == Ok(ReserveDone(work, r.value.id, r.value.lines))
    requires r == Err(Taken) ==> ReserveTx(s.facts.db, s.clock, number, req) == Err(Taken)
    requires r.Err? ==> fate == RollsBack
    ensures var t := Next(s, System.Reserve(p, number, if r == Err(Taken) then Commits else fate));
            && t.clock == s.clock
            && t.facts.db == (if fate == RollsBack then s.facts.db else work)
            && p in t.procs
            && t.procs[p] == if fate == Commits then OpeningPayment(r.value.id, r.value.lines)
                             else if r == Err(Taken) && attempts > 1 then Reserving(req, attempts - 1)
                             else Finished(Failure)
  {
    hide ReserveTx;
  }

  /** One attempt reserved the request on these rows, and left those. */
  ghost predicate Reserves(db: Db, now: int, req: CheckoutRequest, after: Db, placed: Placed) {
    && ReserveTx(db, now, placed.number, req) == Ok(ReserveDone(after, placed.id, placed.lines))
    && placed.total == Amount(placed.lines)
  }

  /** The last action of the run was a reservation of the request, with this result. */
  ghost predicate JustReserved(trace: seq<Action>, req: CheckoutRequest, after: Db, placed: Placed) {
    && trace != []
    && var s := Run(INITIAL, trace[..|trace| - 1]);
       Reserves(s.facts.db, s.clock, req, after, placed)
  }

  /** The rows are as they were, or hold exactly one reservation of the request more. */
  ghost predicate AllOrNothing(db: Db, now: int, req: CheckoutRequest, after: Db) {
    after == db || exists placed :: Reserves(db, now, req, after, placed)
  }

  /** The reservation fails on these rows with this error, for some number. */
  ghost predicate Refuses(db: Db, now: int, req: CheckoutRequest, e: ReserveError) {
    exists number :: ReserveTx(db, now, number, req) == Err(e)
  }

  /** What the request costs at current prices. */
  function TotalOf(types: map<TypeId, TicketType>, items: seq<CheckoutItem>): (cents: int) {
    if items == [] then 0
    else
      var last := items[|items| - 1];
      TotalOf(types, items[..|items| - 1]) + if last.typ in types then types[last.typ].price * last.qty else 0
  }

  lemma {:induction false} AmountIsTotal(types: map<TypeId, TicketType>, now: int, items: seq<CheckoutItem>, lines: seq<Line>)
    requires |lines| == |items| && forall i :: 0 <= i < |items| ==> FromType(types, now, items[i], lines[i])
    ensures Amount(lines) == TotalOf(types, items)
  {
    if items != [] {
      AmountIsTotal(types, now, items[..|items| - 1], lines[..|lines| - 1]);
    }
  }

  lemma AttendeesHaveTypes(req: CheckoutRequest, types: map<TypeId, TicketType>)
    requires Accepts(req) && forall item <- req.items :: item.typ in types
    ensures forall t <- Types(req.attendees) :: t in types
  {
    forall t <- Types(req.attendees) ensures t in types {
      assert Ordered(req.items, t);
      var i :| 0 <= i < |req.items| && req.items[i].typ == t;
      assert req.items[i] in req.items;
    }
  }

  lemma {:induction false} LinesNeverTaken(types: map<TypeId, TicketType>, now: int, items: seq<CheckoutItem>)
    ensures ReserveLines(types, now, items) != Err(Taken)
  {
    if items != [] {
      LinesNeverTaken(types, now, items[..|items| - 1]);
    }
  }

  /** An accepted request is reserved exactly if it is covered, its total fits the column, and
      its order number is new. */
  lemma ReserveTxIff(db: Db, now: int, number: string, req: CheckoutRequest)
    requires QuotasOk(db.types) && Accepts(req)
    ensures ReserveTx(db, now, number, req).Ok? <==>
            && AllCovered(db.types, now, req.items)
            && TotalOf(db.types, req.items) <= MAX_AMOUNT
            && !NumberTaken(db.orders, number)
    ensures ReserveTx(db, now, number, req) == Err(Taken) ==> NumberTaken(db.orders, number)
    ensures ReserveTx(db, now, number, req) == Err(Rejected) && AllCovered(db.types, now, req.items) ==>
              TotalOf(db.types, req.items) > MAX_AMOUNT
  {
    LinesNeverTaken(db.types, now, req.items);
    ReserveLinesIff(db.types, now, req.items);
    ReserveLinesEffect(db.types, now, req.items);
    var r := ReserveLines(db.types, now, req.items);
    if r.Ok? {
      AmountIsTotal(db.types, now, req.items, r.value.lines);
      AttendeesHaveTypes(req, r.value.types);
    }
    hide ReserveLines, Accepts, Amount, TotalOf, Types, NumberTaken, QuotasOk;
  }

  /** So a refusal has its reason in the rows: the request is not covered, its total does not fit,
      or a number that is already taken was drawn. */
  lemma RefusalHasReason(db: Db, now: int, req: CheckoutRequest, e: ReserveError)
    requires QuotasOk(db.types) && Accepts(req) && Refuses(db, now, req, e)
    ensures || !AllCovered(db.types, now, req.items)
            || (e == Rejected && TotalOf(db.types, req.items) > MAX_AMOUNT)
            || (e == Taken && exists number :: NumberTaken(db.orders, number))
  {
    hide AllCovered, TotalOf, Accepts, NumberTaken, ReserveTx, QuotasOk;
    var number :| ReserveTx(db, now, number, req) == Err(e);
    ReserveTxIff(db, now, number, req);
    if e != Rejected && e != Taken {
      OtherErrorsUncovered(db, now, number, req, e);
    }
  }

  lemma OtherErrorsUncovered(db: Db, now: int, number: string, req: CheckoutRequest, e: ReserveError)
    requires QuotasOk(db.types) && Accepts(req) && ReserveTx(db, now, number, req) == Err(e) && e != Rejected && e != Taken
    ensures !AllCovered(db.types, now, req.items)
  {
    ReserveLinesIff(db.types, now, req.items);
    hide ReserveLines, Accepts, Amount;
  }

  // --- Numbers that are drawn ---------------------------------------------------------------------

  /** k is the first of the five attempts whose number is new. */
  ghost predicate FirstNew(orders: seq<Order>, draw: nat -> string, k: nat) {
    k < 5 && !NumberTaken(orders, draw(k)) && forall i :: 0 <= i < k ==> NumberTaken(orders, draw(i))
  }

  /** None of the five attempts draws a number that is new. */
  ghost predicate AllTaken(orders: seq<Order>, draw: nat -> string) {
    forall i :: 0 <= i < 5 ==> NumberTaken(orders, draw(i))
  }

  /** Every line can be reserved, and their total fits its column. */
  ghost predicate Affordable(db: Db, now: int, req: CheckoutRequest) {
    AllCovered(db.types, now, req.items) && TotalOf(db.types, req.items) <= MAX_AMOUNT
  }

  /** What the attempts with these draws come to: an order under the first new number, or the error
      of the request itself, or, if only the numbers stand in its way, that they are taken. */
  ghost predicate ReservesAs(db: Db, now: int, req: CheckoutRequest, draw: nat -> string, r: Result<Placed, ReserveError>) {
    match r
    case Ok(placed) => Affordable(db, now, req) && exists k :: FirstNew(db.orders, draw, k) && placed.number == draw(k)
    case Err(e) => if e == Taken then Affordable(db, now, req) && AllTaken(db.orders, draw) else !Affordable(db, now, req)
  }

  /** The number of attempt k is tried only after those before it were taken. */
  ghost predicate TakenBefore(db: Db, now: int, req: CheckoutRequest, draw: nat -> string, k: nat) {
    forall i :: 0 <= i < k ==> ReserveTx(db, now, draw(i), req) == Err(Taken)
  }

  lemma AttemptsEnd(db: Db, now: int, req: CheckoutRequest, draw: nat -> string, k: nat, r: Result<Placed, ReserveError>)
    requires QuotasOk(db.types) && Accepts(req) && TakenBefore(db, now, req, draw, k)
    requires match r
             case Ok(placed) => k < 5 && placed.number == draw(k) && ReserveTx(db, now, draw(k), req).Ok?
             case Err(e) => if e == Taken then k == 5 else k < 5 && ReserveTx(db, now, draw(k), req) == Err(e)
    ensures ReservesAs(db, now, req, draw, r)
  {
    hide ReserveTx, Accepts, QuotasOk, AllCovered, TotalOf, NumberTaken;
    forall i | 0 <= i < k ensures NumberTaken(db.orders, draw(i)) {
      ReserveTxIff(db, now, draw(i), req);
    }
    if k < 5 {
      ReserveTxIff(db, now, draw(k), req);
    }
    match r
    case Ok(placed) => assert FirstNew(db.orders, draw, k);
    case Err(e) =>
      if e == Taken {
        TakenIsAffordable(db, now, draw(0), req);
      } else {
        RefusedUnaffordable(db, now, draw(k), req, e);
      }
  }

  /** A number is looked at last: it is taken only if nothing else is wrong. */
  lemma TakenIsAffordable(db: Db, now: int, number: string, req: CheckoutRequest)
    requires QuotasOk(db.types) && Accepts(req) && ReserveTx(db, now, number, req) == Err(Taken)
    ensures Affordable(db, now, req)
  {
    LinesNeverTaken(db.types, now, req.items);
    ReserveLinesIff(db.types, now, req.items);
    ReserveLinesEffect(db.types, now, req.items);
    var r := ReserveLines(db.types, now, req.items);
    if r.Ok? {
      AmountIsTotal(db.types, now, req.items, r.value.lines);
    }
    hide ReserveLines, Accepts, Amount, TotalOf, Types, NumberTaken, QuotasOk;
  }

  lemma RefusedUnaffordable(db: Db, now: int, number: string, req: CheckoutRequest, e: ReserveError)
    requires QuotasOk(db.types) && Accepts(req) && ReserveTx(db, now, number, req) == Err(e) && e != Taken
    ensures !Affordable(db, now, req)
  {
    hide ReserveTx, Accepts, QuotasOk, AllCovered, TotalOf, NumberTaken;
    ReserveTxIff(db, now, number, req);
    if e != Rejected {
      OtherErrorsUncovered(db, now, number, req, e);
    }
  }

  /** Drawing a number may fail. */
  method GenerateOrderNumber(store: Store, drawn: string) returns (number: Option<string>)
    ensures store.reliable ==> number.Some?
    ensures number.Some? ==> number.value == drawn
  {
    var err := store.Fails();
    number := if err then None else Some(drawn);
  }

  lemma RunState(store: Store)
    requires store.Valid()
    ensures var s := Run(INITIAL, store.trace); s == store.sys && s.facts.db == store.rows && s.clock == store.now
  { }

  /** The end of TX1 is the run's next action. */
  ghost method ReserveTaken(store: Store, p: Pid, req: CheckoutRequest, attempts: nat, number: string, before: Db,
                            r: Result<Placed, ReserveError>, fate: Fate)
    returns (act: Action)
    requires store.Running(None) && store.sys.facts.db == before && store.sys.clock == store.now
    requires store.At(p, Reserving(req, attempts))
    requires r.Ok? ==> ReserveTx(before, store.now, number, req) == Ok(ReserveDone(store.work, r.value.id, r.value.lines))
    requires r == Err(Taken) ==> ReserveTx(before, store.now, number, req) == Err(Taken)
    requires r.Err? ==> fate == RollsBack
    requires store.rows == if fate == RollsBack then before else store.work
    modifies store`trace, store`sys, store`own
    ensures store.Valid() && store.trace == old(store.trace) + [act]
    ensures store.own == old(store.own) + [act] && act.Reserve? && act.p == p && act.number == number
    ensures store.At(p, if fate == Commits then OpeningPayment(r.value.id, r.value.lines)
                        else if r == Err(Taken) && attempts > 1 then Reserving(req, attempts - 1)
                        else Finished(Failure))
  {
    hide Store.Running, Store.Owing, Next, ReserveTx;
    ReserveMove(store.sys, p, req, attempts, number, store.work, r, fate);
    act := System.Reserve(p, number, if r == Err(Taken) then Commits else fate);
    store.TakeQuietly(act);
  }

  /** One attempt, with the number it draws. */
  method ReserveOnce(store: Store, ghost p: Pid, req: CheckoutRequest, ghost attempts: nat, drawn: string)
    returns (r: Result<Placed, ReserveError>, ghost act: Action)
    requires store.Valid() && store.At(p, Reserving(req, attempts))
    modifies store
    ensures store.Valid() && old(store.trace) <= store.trace
    ensures store.At(p, if r.Ok? then OpeningPayment(r.value.id, r.value.lines)
                        else if r == Err(Taken) && attempts > 1 then Reserving(req, attempts - 1)
                        else Finished(Failure))
    ensures store.own == old(store.own) + [act]
    ensures (act == Abort(p) && r == Err(Rejected)) || (act.Reserve? && act.p == p && act.number == drawn)
    ensures r.Ok? ==> r.value.number == drawn
    ensures r.Ok? ==> JustReserved(store.trace, req, store.rows, r.value)
    ensures store.alone ==> store.now == old(store.now) && store.spawned == old(store.spawned)
    ensures store.alone && r.Ok? ==> Reserves(old(store.rows), old(store.now), req, store.rows, r.value)
    ensures store.alone ==> AllOrNothing(old(store.rows), old(store.now), req, store.rows)
    ensures store.alone && r.Err? && (store.reliable || r.error != Rejected) ==>
              store.rows == old(store.rows) && ReserveTx(old(store.rows), old(store.now), drawn, req) == Err(r.error)
  {
    hide Store.Running, Store.At, Next, ReserveTx, Amount;
    act := Abort(p);
    store.Yield(p, Reserving(req, attempts));
    ghost var before, now, was := store.rows, store.now, store.trace;
    RunState(store);
    var number := GenerateOrderNumber(store, drawn);
    if number.None? {
      store.Quit(p, Reserving(req, attempts));
      return Err(Rejected), act;
    }
    r := Err(Rejected);
    var err := store.Begin();
    if !err {
      r := ReserveBody(store, number.value, req);
    }
    var fate := store.Finish(r.Err?);
    act := ReserveTaken(store, p, req, attempts, number.value, before, r, fate);
    if r.Ok? && fate != RollsBack {
      assert Reserves(before, now, req, store.rows, r.value);
      assert store.trace[..|store.trace| - 1] == was;
    }
    if r.Ok? && fate != Commits {
      r := Err(Rejected);
    }
  }

  /** The attempts' actions draw these numbers, one after the other. */
  predicate Attempts(p: Pid, acts: seq<Action>, draw: nat -> string) {
    forall i :: 0 <= i < |acts| ==>
      (acts[i].Reserve? && acts[i].p == p && acts[i].number == draw(i)) || (acts[i] == Abort(p) && i == |acts| - 1)
  }

  /** One attempt more, after attempts that all drew a number. */
  lemma AttemptsGrow(p: Pid, acts: seq<Action>, draw: nat -> string, act: Action)
    requires Attempts(p, acts, draw) && (acts != [] ==> acts[|acts| - 1].Reserve?)
    requires (act.Reserve? && act.p == p && act.number == draw(|acts|)) || act == Abort(p)
    ensures Attempts(p, acts + [act], draw)
  { }

  lemma AttemptsAreOwn(p: Pid, acts: seq<Action>, draw: nat -> string)
    requires Attempts(p, acts, draw)
    ensures OwnMoves(p, acts)
  { }

  /** TX1, tried again only for an order number that was taken, with the numbers that are drawn. */
  method Reserve(store: Store, ghost p: Pid, req: CheckoutRequest, draw: nat -> string)
    returns (r: Result<Placed, ReserveError>, ghost acts: seq<Action>)
    requires store.Valid() && store.At(p, Reserving(req, ORDER_NUMBER_ATTEMPTS))
    modifies store
    ensures store.Valid() && old(store.trace) <= store.trace
    ensures store.At(p, if r.Ok? then OpeningPayment(r.value.id, r.value.lines) else Finished(Failure))
    ensures store.own == old(store.own) + acts && Attempts(p, acts, draw) && 1 <= |acts| <= 5
    ensures r.Ok? ==> r.value.number == draw(|acts| - 1)
    ensures r == Err(Taken) ==> |acts| == 5 && acts[4].Reserve?
    ensures var placed := PlacedSince(old(store.trace), store.trace, p); if r.Ok? then placed == 1 else placed <= 1
    ensures r.Ok? ==> JustReserved(store.trace, req, store.rows, r.value)
    ensures store.alone ==> store.now == old(store.now) && store.spawned == old(store.spawned)
    ensures store.alone && r.Ok? ==> Reserves(old(store.rows), old(store.now), req, store.rows, r.value)
    ensures store.alone ==> AllOrNothing(old(store.rows), old(store.now), req, store.rows)
    ensures store.alone && r.Err? && (store.reliable || r.error != Rejected) ==>
              store.rows == old(store.rows) && Refuses(old(store.rows), old(store.now), req, r.error)
    ensures store.alone && store.reliable ==> ReservesAs(old(store.rows), old(store.now), req, draw, r)
  {
    hide Next, Store.Owing, Store.At, Reserves, JustReserved, Refuses, AllOrNothing, Amount, PlacedSince, ReserveTx,
      ReservesAs, Accepts, TakenBefore, QuotasOk, Attempts;
    r, acts := Err(Taken), [];
    NoAttemptsYet(p, draw);
    ghost var was, before, now := store.trace, store.rows, store.now;
    ReservingAt(store, p, req, ORDER_NUMBER_ATTEMPTS);
    ReservingAccepted(store, p, req, ORDER_NUMBER_ATTEMPTS);
    ValidQuotas(store);
    NoAttempts(before, now, req, draw);
    for attempt := 0 to ORDER_NUMBER_ATTEMPTS
      invariant store.Valid() && old(store.trace) <= store.trace && r == Err(Taken)
      invariant store.At(p, if attempt < ORDER_NUMBER_ATTEMPTS then Reserving(req, ORDER_NUMBER_ATTEMPTS - attempt)
                            else Finished(Failure))
      invariant store.own == old(store.own) + acts && Attempts(p, acts, draw) && |acts| == attempt
      invariant attempt > 0 ==> acts[attempt - 1].Reserve?
      invariant store.alone ==> store.now == now && store.spawned == old(store.spawned)
      invariant store.alone ==> store.rows == before && TakenBefore(before, now, req, draw, attempt)
    {
      ghost var act;
      r, act := ReserveOnce(store, p, req, ORDER_NUMBER_ATTEMPTS - attempt, draw(attempt));
      AttemptsGrow(p, acts, draw, act);
      acts := acts + [act];
      if r != Err(Taken) {
        PlacedOnce(store, p, was, r);
        if store.alone {
          AttemptEnds(before, now, req, draw, attempt, store.rows, r, store.reliable);
        }
        return;
      }
      if store.alone {
        OneMoreTaken(before, now, req, draw, attempt);
      }
    }
    PlacedOnce(store, p, was, r);
    NothingReserved(store.rows, store.now, req);
    if store.alone {
      AttemptEnds(before, now, req, draw, 5, store.rows, r, store.reliable);
    }
  }

  lemma NoAttemptsYet(p: Pid, draw: nat -> string)
    ensures Attempts(p, [], draw)
  { }

  lemma NoAttempts(db: Db, now: int, req: CheckoutRequest, draw: nat -> string)
    ensures TakenBefore(db, now, req, draw, 0)
  { }

  lemma OneMoreTaken(db: Db, now: int, req: CheckoutRequest, draw: nat -> string, k: nat)
    requires TakenBefore(db, now, req, draw, k) && ReserveTx(db, now, draw(k), req) == Err(Taken)
    ensures TakenBefore(db, now, req, draw, k + 1)
  {
    hide ReserveTx;
  }

  /** What the last attempt says of all of them. */
  lemma AttemptEnds(db: Db, now: int, req: CheckoutRequest, draw: nat -> string, k: nat, after: Db,
                    r: Result<Placed, ReserveError>, reliable: bool)
    requires QuotasOk(db.types) && Accepts(req) && TakenBefore(db, now, req, draw, k)
    requires r.Ok? ==> k < 5 && r.value.number == draw(k) && Reserves(db, now, req, after, r.value)
    requires r == Err(Taken) ==> k == 5
    requires r.Err? && r.error != Taken && (reliable || r.error != Rejected) ==>
               k < 5 && ReserveTx(db, now, draw(k), req) == Err(r.error)
    ensures reliable ==> ReservesAs(db, now, req, draw, r)
    ensures r.Err? && (reliable || r.error != Rejected) ==> Refuses(db, now, req, r.error)
  {
    hide ReserveTx, Accepts, QuotasOk, ReservesAs, Amount;
    if r == Err(Taken) {
      assert ReserveTx(db, now, draw(4), req) == Err(Taken);
    }
    if reliable {
      AttemptsEnd(db, now, req, draw, k, r);
    }
  }

  lemma PlacedOnce(store: Store, p: Pid, was: seq<Action>, r: Result<Placed, ReserveError>)
    requires store.Valid() && was <= store.trace
    requires p in Run(INITIAL, was).procs && Run(INITIAL, was).procs[p].Reserving?
    requires r.Ok? ==> store.At(p, OpeningPayment(r.value.id, r.value.lines))
    ensures var placed := PlacedSince(was, store.trace, p); if r.Ok? then placed == 1 else placed <= 1
  {
    RunState(store);
    AtMostOneSince(was, store.trace, p);
    hide Run, PlacedSince;
  }

  /** Only accepted requests are being reserved. */
  lemma ReservingAccepted(store: Store, p: Pid, req: CheckoutRequest, attempts: nat)
    requires store.Valid() && store.At(p, Reserving(req, attempts))
    ensures Accepts(req)
  {
    hide Run, Spawns, Accepts;
    store.Sound();
    assert ProcOk(store.sys.facts, p, store.sys.procs[p]);
  }

  lemma ReservingAt(store: Store, p: Pid, req: CheckoutRequest, attempts: nat)
    requires store.Valid() && store.At(p, Reserving(req, attempts))
    ensures p in Run(INITIAL, store.trace).procs && Run(INITIAL, store.trace).procs[p].Reserving?
  {
    RunState(store);
  }

  lemma NothingReserved(db: Db, now: int, req: CheckoutRequest)
    ensures AllOrNothing(db, now, req, db)
  { }

  // --- Compensation and TX2 ----------------------------------------------------------------------

  /** The body of the compensating transaction, with what checkout remembers of its reservation. */
  method CompensateBody(store: Store, id: OrderId, lines: seq<Line>) returns (cancelled: bool, err: bool)
    modifies store`work
    ensures var r := SettleTx(old(store.work), id, Cancelled, true, lines);
            && (!err && cancelled ==> r == Applied(store.work))
            && (!err && !cancelled ==> r == Skipped && store.work == old(store.work))
            && (err && store.reliable ==> r == Failed)
  {
    hide RestoreLines;
    cancelled, err := store.UpdateStatusIfPending(id, Cancelled);
    if err || !cancelled {
      return;
    }
    err := ReleaseLines(store, lines);
  }

  lemma CompensateMove(s: Sys, p: Pid, id: OrderId, lines: seq<Line>, work: Db, bodyErr: bool, cancelled: bool, fate: Fate)
    requires p in s.procs && s.procs[p] == Compensating(id, lines)
    requires var r := SettleTx(s.facts.db, id, Cancelled, true, lines);
             if bodyErr then fate == RollsBack
             else if cancelled then r == Applied(work)
             else r == Skipped && work == s.facts.db
    ensures var t := Next(s, System.Compensate(p, fate));
            && t.clock == s.clock && t.facts.db == (if fate == RollsBack then s.facts.db else work)
            && p in t.procs && t.procs[p] == Finished(Failure)
  {
    hide SettleTx;
  }

  /** Whatever becomes of it, a compensation answers nothing. */
  method Compensate(store: Store, ghost p: Pid, id: OrderId, lines: seq<Line>) returns (ghost act: Action)
    requires store.Valid() && store.At(p, Compensating(id, lines))
    modifies store
    ensures store.Valid() && old(store.trace) <= store.trace && store.At(p, Finished(Failure))
    ensures store.own == old(store.own) + [act] && act.Compensate? && act.p == p
    ensures store.alone ==> store.now == old(store.now)
    ensures store.alone && store.reliable ==>
              var r := SettleTx(old(store.rows), id, Cancelled, true, lines);
              store.rows == if r.Applied? then r.db else old(store.rows)
  {
    hide Store.Running, Next, SettleTx;
    store.Yield(p, Compensating(id, lines));
    var cancelled := false;
    var err := store.Begin();
    if !err {
      cancelled, err := CompensateBody(store, id, lines);
    }
    var fate := store.Finish(err);
    CompensateMove(store.sys, p, id, lines, store.work, err, cancelled, fate);
    act := System.Compensate(p, fate);
    store.TakeQuietly(act);
  }

  lemma StampMove(s: Sys, p: Pid, id: OrderId, qr: string, deadline: Option<int>, work: Db, bodyErr: bool, fate: Fate)
    requires p in s.procs && s.procs[p] == Stamping(id, qr, deadline)
    requires if bodyErr then fate == RollsBack else StampTx(s.facts.db, id, qr, deadline) == Applied(work)
    ensures var t := Next(s, System.Stamp(p, fate));
            && t.clock == s.clock && t.facts.db == (if fate == RollsBack then s.facts.db else work)
            && p in t.procs && t.procs[p] == Finished(if fate == Commits then Done else Failure)
  {
    hide StampTx;
  }

  /** Order o holds the payload, unless it is empty, and the deadline. */
  ghost predicate Instructs(orders: seq<Order>, o: OrderId, qr: string, deadline: Option<int>) {
    && o < |orders| && orders[o].deadline == deadline
    && (qr == "" ==> orders[o].qr == None) && (qr != "" ==> orders[o].qr == Some(qr))
  }

  /** TX2. */
  method Stamp(store: Store, ghost p: Pid, id: OrderId, qr: string, deadline: Option<int>)
    returns (err: bool, ghost act: Action)
    requires store.Valid() && store.At(p, Stamping(id, qr, deadline))
    modifies store
    ensures store.Valid() && old(store.trace) <= store.trace
    ensures store.At(p, Finished(if err then Failure else Done))
    ensures store.own == old(store.own) + [act] && act.Stamp? && act.p == p
    ensures !err ==> Instructs(store.rows.orders, id, qr, deadline)
    ensures store.alone && !err ==> Stamped(old(store.rows), store.rows, id, qr, deadline)
    ensures store.alone && store.reliable ==>
              (err <==> id >= |old(store.rows).orders|) && (err ==> store.rows == old(store.rows))
  {
    hide Store.Running, Next, StampTx;
    store.Yield(p, Stamping(id, qr, deadline));
    err := store.Begin();
    if !err {
      err := store.UpdatePaymentDetails(id, qr, deadline);
    }
    var fate := store.Finish(err);
    StampMove(store.sys, p, id, qr, deadline, store.work, err, fate);
    act := System.Stamp(p, fate);
    store.TakeQuietly(act);
    err := fate != Commits;
  }

  // --- Checkout ----------------------------------------------------------------------------------------

  datatype Session = Session(qr: string, deadline: Option<int>)

  datatype CheckoutResult =
    | Invalid(reason: ValidationError)
    | NotReserved(error: ReserveError)
    | PaymentFailed
    | NotRecorded
    | Opened(number: string, total: int)

  ghost method StartMove(store: Store, req: CheckoutRequest) returns (p: Pid)
    requires store.Valid() && Accepts(req)
    modifies store`trace, store`sys, store`own
    ensures store.Valid() && old(store.trace) <= store.trace && store.At(p, Reserving(req, ORDER_NUMBER_ATTEMPTS))
    ensures store.own == old(store.own) + [StartCheckout(p, req)]
  {
    hide Store.Running, Accepts;
    p := FreshPid(store.sys);
    store.Move(StartCheckout(p, req), p, Reserving(req, ORDER_NUMBER_ATTEMPTS));
  }

  function PaymentAct(p: Pid, session: Option<Session>): Action {
    if session.None? then PaymentFails(p) else PaymentOpens(p, session.value.qr, session.value.deadline)
  }

  /** The gateway's answer is a move of its own. */
  ghost method PaymentMove(store: Store, p: Pid, id: OrderId, lines: seq<Line>, session: Option<Session>)
    returns (act: Action)
    requires store.Valid() && store.At(p, OpeningPayment(id, lines))
    modifies store`trace, store`sys, store`own
    ensures store.Valid() && old(store.trace) <= store.trace
    ensures store.own == old(store.own) + [act] && act == PaymentAct(p, session)
    ensures store.At(p, if session.None? then Compensating(id, lines) else Stamping(id, session.value.qr, session.value.deadline))
  {
    hide Store.Running;
    if session.None? {
      act := PaymentFails(p);
      store.Move(act, p, Compensating(id, lines));
    } else {
      act := PaymentOpens(p, session.value.qr, session.value.deadline);
      store.Move(act, p, Stamping(id, session.value.qr, session.value.deadline));
    }
  }

  /** The rows with one order more, cancelled, and every quota as it was. */
  ghost predicate OneCancelled(before: Db, after: Db) {
    && after.types == before.types
    && |after.orders| == |before.orders| + 1 && after.orders[..|before.orders|] == before.orders
    && after.orders[|before.orders|].status == Cancelled
  }

  /** The rows with one reservation of the request, its order stamped with this payment session. */
  ghost predicate OneOpened(before: Db, now: int, req: CheckoutRequest, session: Session, after: Db, number: string, total: int) {
    exists mid, placed ::
      && Reserves(before, now, req, mid, placed) && Stamped(mid, after, placed.id, session.qr, session.deadline)
      && placed.number == number && placed.total == total
  }

  lemma ReservedThenCancelled(db: Db, now: int, req: CheckoutRequest, mid: Db, placed: Placed)
    requires QuotasOk(db.types) && Accepts(req) && Reserves(db, now, req, mid, placed)
    ensures var r := SettleTx(mid, placed.id, Cancelled, true, placed.lines);
            r.Applied? && OneCancelled(db, r.db)
  {
    hide Accepts, QuotasOk, RestoreLines, ReserveLines, Amount;
    Guarantees.CompensationIsExact(db, now, placed.number, req, ReserveDone(mid, placed.id, placed.lines));
  }

  lemma ReservedThenOpened(db: Db, now: int, req: CheckoutRequest, mid: Db, placed: Placed, session: Session, after: Db)
    requires Reserves(db, now, req, mid, placed) && Stamped(mid, after, placed.id, session.qr, session.deadline)
    ensures OneOpened(db, now, req, session, after, placed.number, placed.total)
  {
    hide Reserves, Stamped;
  }

  lemma ReservedExists(db: Db, now: int, req: CheckoutRequest, mid: Db, placed: Placed)
    requires Reserves(db, now, req, mid, placed)
    ensures placed.id < |mid.orders|
  {
    hide Amount, ReserveLines;
  }

  lemma ValidQuotas(store: Store)
    requires store.Valid()
    ensures QuotasOk(store.rows.types)
  {
    hide Run, Spawns;
    store.Sound();
  }

  /** Some order has this number and total, and holds the session's payload and deadline. */
  ghost predicate Stands(orders: seq<Order>, number: string, total: int, session: Session) {
    exists o: OrderId ::
      && o < |orders| && orders[o].number == number && orders[o].total == total
      && Instructs(orders, o, session.qr, session.deadline)
  }

  /** Whatever others do meanwhile, an order that was reserved keeps its number and total. */
  lemma ReservedStands(store: Store, was: seq<Action>, req: CheckoutRequest, after: Db, placed: Placed)
    requires store.Valid() && was <= store.trace && JustReserved(was, req, after, placed)
    requires Run(INITIAL, was).facts.db == after
    ensures placed.id < |store.rows.orders|
    ensures store.rows.orders[placed.id].number == placed.number && store.rows.orders[placed.id].total == placed.total
  {
    var since := store.trace[|was|..];
    assert was + since == store.trace;
    RunAppend(INITIAL, was, since);
    InitialInv();
    RunKeeps(INITIAL, was);
    RunKeeps(Run(INITIAL, was), since);
    ReservedRow(was, req, after, placed);
    hide Run, Inv, JustReserved;
    OrderStands(Run(INITIAL, was), Run(INITIAL, store.trace), placed.id);
  }

  lemma ReservedRow(trace: seq<Action>, req: CheckoutRequest, after: Db, placed: Placed)
    requires JustReserved(trace, req, after, placed)
    ensures placed.id < |after.orders|
    ensures after.orders[placed.id].number == placed.number && after.orders[placed.id].total == placed.total
  {
    hide Run, ReserveLines, Amount;
  }

  lemma OrderStands(s: Sys, t: Sys, o: OrderId)
    requires Later(s, t) && o < |s.facts.db.orders|
    ensures o < |t.facts.db.orders| && t.facts.db.orders[o].number == s.facts.db.orders[o].number
    ensures t.facts.db.orders[o].total == s.facts.db.orders[o].total
  { }

  /** The second half of a checkout, once the order is reserved, given the gateway's session if it
      opens one: the order is stamped with it, or cancelled. */
  method PayOrCancel(store: Store, ghost p: Pid, created: Placed, session: Option<Session>)
    returns (r: CheckoutResult, ghost acts: seq<Action>)
    requires store.Valid() && store.At(p, OpeningPayment(created.id, created.lines))
    modifies store
    ensures store.Valid() && old(store.trace) <= store.trace
    ensures store.own == old(store.own) + acts && OwnMoves(p, acts) && |acts| == 2 && acts[0] == PaymentAct(p, session)
    ensures if session.None? then acts[1].Compensate? else acts[1].Stamp?
    ensures store.At(p, Finished(if r.Opened? then Done else Failure))
    ensures r.PaymentFailed? <==> session.None?
    ensures r.PaymentFailed? || r.NotRecorded? || r == Opened(created.number, created.total)
    ensures r.Opened? ==> Instructs(store.rows.orders, created.id, session.value.qr, session.value.deadline)
    ensures store.alone && store.reliable && session.None? ==>
              var settled := SettleTx(old(store.rows), created.id, Cancelled, true, created.lines);
              store.rows == if settled.Applied? then settled.db else old(store.rows)
    ensures store.alone && store.reliable && session.Some? ==>
              && (r.Opened? <==> created.id < |old(store.rows).orders|)
              && (r.Opened? ==> Stamped(old(store.rows), store.rows, created.id, session.value.qr, session.value.deadline))
              && (r.NotRecorded? ==> store.rows == old(store.rows))
  {
    hide Next, Store.Owing, Store.At, SettleTx, Stamped, Instructs;
    store.Yield(p, OpeningPayment(created.id, created.lines));
    ghost var act := PaymentMove(store, p, created.id, created.lines, session);
    acts := [act];
    if session.None? {
      act := Compensate(store, p, created.id, created.lines);
      acts := acts + [act];
      return PaymentFailed, acts;
    }
    var err;
    err, act := Stamp(store, p, created.id, session.value.qr, session.value.deadline);
    acts := acts + [act];
    r := if err then NotRecorded else Opened(created.number, created.total);
  }

  /** What an uncontended checkout without faults leaves and answers, for the numbers that are drawn
      and the gateway's session: nothing is reserved exactly if the request is not affordable or all
      numbers are taken; otherwise its order is opened with exactly that session, or cancelled if
      there is none. */
  ghost predicate ChecksOut(db: Db, now: int, req: CheckoutRequest, draw: nat -> string, session: Option<Session>,
                            after: Db, r: CheckoutResult) {
    match r
    case Invalid(_) => after == db
    case NotReserved(e) =>
      after == db && Refuses(db, now, req, e) && ReservesAs(db, now, req, draw, Err(e))
    case PaymentFailed => session.None? && OneCancelled(db, after) && Reservable(db, now, req, draw)
    case NotRecorded => false
    case Opened(number, total) =>
      && session.Some? && OneOpened(db, now, req, session.value, after, number, total)
      && Affordable(db, now, req) && exists k :: FirstNew(db.orders, draw, k) && number == draw(k)
  }

  ghost predicate Reservable(db: Db, now: int, req: CheckoutRequest, draw: nat -> string) {
    Affordable(db, now, req) && exists k :: FirstNew(db.orders, draw, k)
  }

  /** So the request, the numbers and the session decide which of the answers it is. */
  lemma AnswerDecided(db: Db, now: int, req: CheckoutRequest, draw: nat -> string, session: Option<Session>, after: Db,
                      r: CheckoutResult)
    requires !r.Invalid? && ChecksOut(db, now, req, draw, session, after, r)
    ensures r.NotReserved? <==> !Reservable(db, now, req, draw)
    ensures r.PaymentFailed? <==> Reservable(db, now, req, draw) && session.None?
    ensures r.Opened? <==> Reservable(db, now, req, draw) && session.Some?
  {
    hide OneCancelled, OneOpened, Affordable, Refuses, NumberTaken;
  }

  /** The first half of a checkout: an accepted request is reserved, or refused. */
  method Place(store: Store, req: CheckoutRequest, draw: nat -> string)
    returns (reserved: Result<Placed, ReserveError>, ghost p: Pid, ghost acts: seq<Action>)
    requires store.Valid() && Accepts(req)
    modifies store
    ensures store.Valid() && old(store.trace) <= store.trace
    ensures store.own == old(store.own) + acts && OwnMoves(p, acts)
    ensures store.At(p, if reserved.Ok? then OpeningPayment(reserved.value.id, reserved.value.lines) else Finished(Failure))
    ensures var placed := PlacedSince(old(store.trace), store.trace, p); if reserved.Ok? then placed == 1 else placed <= 1
    ensures reserved.Ok? ==> JustReserved(store.trace, req, store.rows, reserved.value)
    ensures store.alone && reserved.Ok? ==> Reserves(old(store.rows), old(store.now), req, store.rows, reserved.value)
    ensures store.alone && store.reliable ==> ReservesAs(old(store.rows), old(store.now), req, draw, reserved)
    ensures store.alone && store.reliable && reserved.Err? ==>
              store.rows == old(store.rows) && Refuses(old(store.rows), old(store.now), req, reserved.error)
  {
    hide Next, Store.Owing, Store.At, Reserves, AllOrNothing, Amount, Accepts, Refuses, PlacedSince, JustReserved, Attempts,
      ReservesAs;
    ghost var was := store.trace;
    p := StartMove(store, req);
    ghost var begun := store.trace;
    ghost var more;
    reserved, more := Reserve(store, p, req, draw);
    AttemptsAreOwn(p, more, draw);
    acts := [StartCheckout(p, req)] + more;
    AtMostOneSince(was, store.trace, p);
    if reserved.Ok? {
      StillOneSince(was, begun, store.trace, store.trace, p);
    }
  }

  /** Checkout refuses exactly the requests that are not accepted, before it does anything. */
  method Checkout(store: Store, req: CheckoutRequest, draw: nat -> string, session: Option<Session>)
    returns (r: CheckoutResult, ghost p: Pid, ghost acts: seq<Action>)
    requires store.Valid()
    modifies store
    ensures store.Valid() && old(store.trace) <= store.trace
    ensures store.own == old(store.own) + acts && OwnMoves(p, acts)
    ensures r.Invalid? <==> !Accepts(req)
    ensures r.Invalid? ==> store.rows == old(store.rows) && store.trace == old(store.trace)
    ensures !r.Invalid? ==> store.At(p, Finished(if r.Opened? then Done else Failure))
    ensures var placed := PlacedSince(old(store.trace), store.trace, p);
            if r.Invalid? || r.NotReserved? then placed <= 1 else placed == 1
    ensures (r.PaymentFailed? ==> session.None?) && (r.NotRecorded? ==> session.Some?)
    ensures r.Opened? ==> session.Some? && Stands(store.rows.orders, r.number, r.total, session.value)
    ensures store.alone && store.reliable ==>
              ChecksOut(old(store.rows), old(store.now), req, draw, session, store.rows, r)
  {
    hide Next, Store.Owing, Store.At, Reserves, Amount, OneCancelled, OneOpened, SettleTx, Accepts, Refuses,
      Affordable, NumberTaken, QuotasOk, PlacedSince, JustReserved, Stamped, Instructs, OwnMoves;
    p, acts := 0, [];
    ghost var before, now, was := store.rows, store.now, store.trace;
    AtMostOneSince(was, was, p);
    ValidQuotas(store);
    NoMoves(p);
    var invalid := Validate(req);
    if invalid.Some? {
      return Invalid(invalid.value), p, acts;
    }
    var reserved;
    reserved, p, acts := Place(store, req, draw);
    if reserved.Err? {
      return NotReserved(reserved.error), p, acts;
    }
    var created := reserved.value;
    ghost var mid, placed := store.rows, store.trace;
    RunState(store);
    if store.alone && store.reliable {
      ReservedThenCancelled(before, now, req, mid, created);
      ReservedExists(before, now, req, mid, created);
    }
    ghost var more;
    r, more := PayOrCancel(store, p, created, session);
    OwnMovesAppend(p, acts, more);
    acts := acts + more;
    StillOneSince(was, was, placed, store.trace, p);
    ReservedStands(store, placed, req, mid, created);
    if store.alone && store.reliable && r.Opened? {
      ReservedThenOpened(before, now, req, mid, created, session.value, store.rows);
    }
  }

  lemma NoMoves(p: Pid)
    ensures OwnMoves(p, [])
  { }
}
