/** The interleaved system: every process in flight, and the atomic actions it can take.

    A committed transaction is one action. Every read outside a transaction is an action of
    its own that leaves a snapshot in the process, however stale it then becomes. An action
    that is not enabled changes nothing, so a run is any sequence of actions whatsoever. */
module System {
  import opened Wrappers
  import opened Schema
  import opened Request
  import opened ProviderStatus
  import opened Transactions

  type Pid = nat

  // Bounds of the order-number retry loop and of one expiry sweep.
  const ORDER_NUMBER_ATTEMPTS: nat := 5
  const EXPIRY_BATCH_SIZE: nat := 100

  /** A snapshot of an order, taken outside any transaction. */
  datatype OrderRef = OrderRef(id: OrderId, number: string, status: Status, deadline: Option<int>)

  datatype Source = Webhook | Refresh

  /** Who waits for a settling transaction. `wasDue` remembers that the same refresh already
      found the order past its deadline. */
  datatype Caller =
    | ForAnswer(source: Source, wasDue: bool)
    | ForDueRefresh
    | ForSweep(rest: seq<OrderRef>)

  datatype Reply =
    | Done
    | Failure
    | Refreshed(id: OrderId, status: Status, changed: bool)

  /** A process: where it is, and its local variables. */
  datatype Proc =
    // Checkout
    | Reserving(req: CheckoutRequest, attempts: nat)
    | OpeningPayment(id: OrderId, lines: seq<Line>)
    | Compensating(id: OrderId, lines: seq<Line>)
    | Stamping(id: OrderId, qr: string, deadline: Option<int>)
    // Provider answers
    | Answered(answer: Answer)
    | RefreshCalled(number: string)
    | RefreshLoaded(ord: OrderRef)
    | RefreshAsking(ord: OrderRef, wasDue: bool)
    | Recording(source: Source, ord: OrderRef, answer: Answer, wasDue: bool)
    | Deciding(source: Source, ord: OrderRef, answer: Answer, wasDue: bool)
    | Settling(caller: Caller, ord: OrderRef, outcome: Outcome)
    | Committing(caller: Caller, ord: OrderRef, outcome: Outcome, lines: seq<Line>)
    | Rereading(ord: OrderRef, changed: bool)
    // The expiry sweeper
    | SweepCalled
    | Sweeping(rest: seq<OrderRef>)
    // Fulfilment
    | FulfilCalled(o: OrderId)
    | FulfilListed(o: OrderId, ids: seq<AttendeeId>)
    | FulfilIssuing(o: OrderId, ids: seq<AttendeeId>)
    | FulfilRelisting(o: OrderId)
    // Ticket delivery, first send or resend
    | DeliveryCalled(o: OrderId)
    | DeliveryLoaded(o: OrderId)
    | Sending(o: OrderId, codes: seq<string>)
    | MarkingSent(o: OrderId)
    | Finished(reply: Reply)

  /** What an observer would have recorded, oldest first. */
  datatype Event =
    | SettledAs(o: OrderId, status: Status, released: bool)
    | FulfilStarted(o: OrderId)
    | Admitted(code: string)
    | Emailed(o: OrderId, codes: seq<string>)

  /** The rows and their history. No action is decided by the history.
      `alloc` is the seats allocated to a type, which only catalog administration changes;
      `winner` is the process that settled an order; `owner` is its fulfilment process. */
  datatype Facts = Facts(
    db: Db, alloc: map<TypeId, int>, winner: map<OrderId, Pid>, owner: map<OrderId, Pid>, log: seq<Event>)

  datatype Sys = Sys(facts: Facts, clock: int, procs: map<Pid, Proc>)

  /** How a transaction ends: it commits, it fails and is rolled back, or its commit is
      reported as an error although it took effect. */
  datatype Fate = Commits | RollsBack | CommitsUnreported

  datatype Action =
    | Tick(elapsed: nat)
    | CreateEvent(event: EventId)
    | DeleteEvent(event: EventId)
    | CreateType(typ: TypeId, row: TicketType)
    | UpdateType(typ: TypeId, row: TicketType)
    | DeleteType(typ: TypeId)
    | StartCheckout(p: Pid, req: CheckoutRequest)
    | Reserve(p: Pid, number: string, fate: Fate)
    | PaymentOpens(p: Pid, qr: string, deadline: Option<int>)
    | PaymentFails(p: Pid)
    | Compensate(p: Pid, fate: Fate)
    | Stamp(p: Pid, fate: Fate)
    | StartAnswer(p: Pid, answer: Answer)
    | StartRefresh(p: Pid, number: string)
    | LoadOrder(p: Pid)
    | CheckDue(p: Pid)
    | FetchAnswer(p: Pid, answer: Answer)
    | Record(p: Pid, fate: Fate)
    | Decide(p: Pid)
    | ReadLines(p: Pid)
    | Settle(p: Pid, fate: Fate, child: Pid)
    | Reread(p: Pid)
    | StartSweep(p: Pid)
    | ListDue(p: Pid, batch: seq<OrderRef>)
    | NextDue(p: Pid)
    | ListAttendees(p: Pid)
    | CheckIssued(p: Pid)
    | Issue(p: Pid, codes: seq<string>, fate: Fate)
    | Relist(p: Pid)
    | StartResend(p: Pid, o: OrderId)
    | LoadDelivery(p: Pid)
    | LoadTickets(p: Pid)
    | Send(p: Pid, delivered: bool, reported: bool)
    | MarkSent(p: Pid, fate: Fate)
    | AdmitTicket(code: string)
    | Abort(p: Pid)

  // --- Helpers ------------------------------------------------------------------------

  function WithDb(s: Sys, db: Db): Sys {
    s.(facts := s.facts.(db := db))
  }

  function Logged(s: Sys, e: Event): Sys {
    s.(facts := s.facts.(log := s.facts.log + [e]))
  }

  function Put(s: Sys, p: Pid, proc: Proc): Sys {
    s.(procs := s.procs[p := proc])
  }

  /** A new process takes an id that was never used. */
  function Spawn(s: Sys, p: Pid, proc: Proc): Sys {
    if p in s.procs then s else Put(s, p, proc)
  }

  function RefTo(orders: seq<Order>, o: OrderId): (ord: OrderRef)
    requires o < |orders|
  {
    OrderRef(o, orders[o].number, orders[o].status, orders[o].deadline)
  }

  predicate PastDeadline(deadline: Option<int>, now: int) {
    deadline.Some? && deadline.value <= now
  }

  /** The deadline check of expireIfDue, on a snapshot. */
  predicate Overdue(ord: OrderRef, now: int) {
    ord.status == Pending && PastDeadline(ord.deadline, now)
  }

  /** The WHERE clause of the expiry query. */
  predicate Due(orders: seq<Order>, o: OrderId, now: int) {
    o < |orders| && orders[o].status == Pending && PastDeadline(orders[o].deadline, now)
  }

  function DueSet(orders: seq<Order>, now: int): (due: set<OrderId>) {
    set o: OrderId | o < |orders| && Due(orders, o, now)
  }

  /** A result the expiry query may return: distinct due orders, oldest deadline first, as
      many as there are up to the limit, none later than a due order it leaves out. */
  predicate IsDueBatch(orders: seq<Order>, now: int, batch: seq<OrderRef>) {
    && |batch| <= EXPIRY_BATCH_SIZE
    && (forall i :: 0 <= i < |batch| ==> Due(orders, batch[i].id, now) && batch[i] == RefTo(orders, batch[i].id))
    && (forall i, j :: 0 <= i < j < |batch| ==>
          batch[i].id != batch[j].id && batch[i].deadline.value <= batch[j].deadline.value)
    && forall o :: 0 <= o < |orders| && Due(orders, o, now) && (forall i :: 0 <= i < |batch| ==> batch[i].id != o) ==>
         |batch| == EXPIRY_BATCH_SIZE
         && forall i :: 0 <= i < |batch| ==> batch[i].deadline.value <= orders[o].deadline.value
  }

  // --- Checkout ---------------------------------------------------------------------------

  function DoReserve(s: Sys, p: Pid, number: string, fate: Fate): Sys {
    if !(p in s.procs && s.procs[p].Reserving?) then s
    else
      var req, attempts := s.procs[p].req, s.procs[p].attempts;
      match ReserveTx(s.facts.db, s.clock, number, req)
      case Err(e) =>
        if e == Taken && fate != RollsBack && attempts > 1
        then Put(s, p, Reserving(req, attempts - 1))
        else Put(s, p, Finished(Failure))
      case Ok(done) =>
        match fate
        case RollsBack => Put(s, p, Finished(Failure))
        case Commits => Put(WithDb(s, done.db), p, OpeningPayment(done.id, done.lines))
        case CommitsUnreported => Put(WithDb(s, done.db), p, Finished(Failure))
  }

  function DoCompensate(s: Sys, p: Pid, fate: Fate): Sys {
    if !(p in s.procs && s.procs[p].Compensating?) then s
    else
      var q := Put(s, p, Finished(Failure));
      if fate == RollsBack then q
      else
        match SettleTx(s.facts.db, s.procs[p].id, Cancelled, true, s.procs[p].lines)
        case Applied(db) => Put(Settled(s, db, s.procs[p].id, Cancelled, true, p), p, Finished(Failure))
        case Skipped => q
        case Failed => q
  }

  /** The rows and the history a settling commit leaves. */
  function SettledFacts(f: Facts, db: Db, o: OrderId, status: Status, released: bool, p: Pid): Facts {
    f.(db := db, winner := f.winner[o := p], log := f.log + [SettledAs(o, status, released)])
  }

  function Settled(s: Sys, db: Db, o: OrderId, status: Status, released: bool, p: Pid): Sys {
    s.(facts := SettledFacts(s.facts, db, o, status, released, p))
  }

  function DoStamp(s: Sys, p: Pid, fate: Fate): Sys {
    if !(p in s.procs && s.procs[p].Stamping?) then s
    else
      match StampTx(s.facts.db, s.procs[p].id, s.procs[p].qr, s.procs[p].deadline)
      case Applied(db) =>
        if fate == RollsBack then Put(s, p, Finished(Failure))
        else Put(WithDb(s, db), p, Finished(if fate == Commits then Done else Failure))
      case _ => Put(s, p, Finished(Failure))
  }

  // --- Provider answers -----------------------------------------------------------------------

  /** OrderByNumber, for a verified webhook. An unknown order is acknowledged. */
  function AfterLookup(orders: seq<Order>, answer: Answer): Proc {
    match FindByNumber(orders, answer.number)
    case None => Finished(Done)
    case Some(o) => Recording(Webhook, RefTo(orders, o), answer, false)
  }

  /** OrderByNumber, at the start of a refresh. A settled order is answered at once. */
  function AfterLoad(orders: seq<Order>, number: string): Proc {
    match FindByNumber(orders, number)
    case None => Finished(Failure)
    case Some(o) =>
      if orders[o].status == Pending then RefreshLoaded(RefTo(orders, o))
      else Finished(Refreshed(o, orders[o].status, false))
  }

  function DoLoadOrder(s: Sys, p: Pid): Sys {
    if p in s.procs && s.procs[p].Answered? then Put(s, p, AfterLookup(s.facts.db.orders, s.procs[p].answer))
    else if p in s.procs && s.procs[p].RefreshCalled? then Put(s, p, AfterLoad(s.facts.db.orders, s.procs[p].number))
    else s
  }

  function DoCheckDue(s: Sys, p: Pid): Sys {
    if !(p in s.procs && s.procs[p].RefreshLoaded?) then s
    else
      var ord := s.procs[p].ord;
      Put(s, p, if Overdue(ord, s.clock)
                then Settling(ForDueRefresh, ord, EXPIRES)
                else RefreshAsking(ord, false))
  }

  function DoRecord(s: Sys, p: Pid, fate: Fate): Sys {
    if !(p in s.procs && s.procs[p].Recording?) then s
    else
      var r := s.procs[p];
      match RecordTx(s.facts.db, r.ord.id, r.answer)
      case Applied(db) =>
        (match fate
         case RollsBack => Put(s, p, Finished(Failure))
         case Commits => Put(WithDb(s, db), p, Deciding(r.source, r.ord, r.answer, r.wasDue))
         case CommitsUnreported => Put(WithDb(s, db), p, Finished(Failure)))
      case _ => Put(s, p, Finished(Failure))
  }

  /** What follows an answer that was handled without an error. */
  function AfterAnswer(source: Source, ord: OrderRef, changed: bool): Proc {
    if source == Webhook then Finished(Done) else Rereading(ord, changed)
  }

  /** Whether an answer about a snapshot goes on to a settling transaction. */
  predicate GoesOn(ord: OrderRef, outcome: Outcome) {
    && ord.status != Paid
    && outcome.handled && outcome.status.Some?
    && !(outcome.status == Some(Paid) && ord.status != Pending)
  }

  function DoDecide(s: Sys, p: Pid): Sys {
    if !(p in s.procs && s.procs[p].Deciding?) then s
    else
      var r := s.procs[p];
      var outcome := OutcomeOf(r.answer);
      Put(s, p, if GoesOn(r.ord, outcome)
                then Settling(ForAnswer(r.source, r.wasDue), r.ord, outcome)
                else AfterAnswer(r.source, r.ord, false))
  }

  /** LineItems, read on another connection while the settling transaction is open. */
  function DoReadLines(s: Sys, p: Pid): Sys {
    if !(p in s.procs && s.procs[p].Settling?) then s
    else
      var r := s.procs[p];
      Put(s, p, Committing(r.caller, r.ord, r.outcome, LinesOf(s.facts.db.items, r.ord.id)))
  }

  /** Where the caller goes on after the settling transaction. */
  function Resume(caller: Caller, ord: OrderRef, applied: bool, err: bool): Proc {
    match caller
    case ForAnswer(source, _) => if err then Finished(Failure) else AfterAnswer(source, ord, applied)
    case ForDueRefresh =>
      if err then Finished(Failure)
      else if applied then Finished(Refreshed(ord.id, Expired, true))
      else RefreshAsking(ord, true)
    case ForSweep(rest) => Sweeping(rest)
  }

  /** The settling transaction with the lines it read, if it needed any. */
  function SettleResult(s: Sys, p: Pid): (r: TxResult)
    requires p in s.procs && (s.procs[p].Settling? || s.procs[p].Committing?)
  {
    var r := s.procs[p];
    if r.outcome.status.None? || r.outcome.status == Some(Pending) then Failed
    else if r.Settling? && r.outcome.restore && IsPending(s.facts.db, r.ord.id) then Failed
    else SettleTx(s.facts.db, r.ord.id, r.outcome.status.value, r.outcome.restore, if r.Committing? then r.lines else [])
  }

  function DoSettle(s: Sys, p: Pid, fate: Fate, child: Pid): Sys {
    if !(p in s.procs && (s.procs[p].Settling? || s.procs[p].Committing?)) then s
    else if child in s.procs then s
    else
      var r := s.procs[p];
      match SettleResult(s, p)
      case Failed => Put(s, p, Resume(r.caller, r.ord, false, true))
      case Skipped => Put(s, p, Resume(r.caller, r.ord, false, fate != Commits))
      case Applied(db) =>
        if fate == RollsBack then Put(s, p, Resume(r.caller, r.ord, false, true))
        else
          var t := Put(Settled(s, db, r.ord.id, r.outcome.status.value, r.outcome.restore, p),
                       p, Resume(r.caller, r.ord, true, fate != Commits));
          if fate == Commits && r.caller.ForAnswer? && r.outcome.status == Some(Paid)
          then StartFulfilment(t, r.ord.id, child)
          else t
  }

  /** fulfillAsync: a goroutine of its own. */
  function StartFulfilment(s: Sys, o: OrderId, child: Pid): Sys {
    Put(Owned(s, o, child), child, FulfilCalled(o))
  }

  function OwnedFacts(f: Facts, o: OrderId, child: Pid): Facts {
    f.(owner := f.owner[o := child], log := f.log + [FulfilStarted(o)])
  }

  function Owned(s: Sys, o: OrderId, child: Pid): Sys {
    s.(facts := OwnedFacts(s.facts, o, child))
  }

  function DoReread(s: Sys, p: Pid): Sys {
    if !(p in s.procs && s.procs[p].Rereading?) then s
    else
      match FindByNumber(s.facts.db.orders, s.procs[p].ord.number)
      case None => Put(s, p, Finished(Failure))
      case Some(o) => Put(s, p, Finished(Refreshed(o, s.facts.db.orders[o].status, s.procs[p].changed)))
  }

  // --- The sweeper --------------------------------------------------------------------------------

  /** The next order of a sweep, unless it is no longer past its deadline. */
  function AfterNext(rest: seq<OrderRef>, now: int): Proc {
    if rest == [] then Finished(Done)
    else if Overdue(rest[0], now)
    then Settling(ForSweep(rest[1..]), rest[0], EXPIRES)
    else Sweeping(rest[1..])
  }

  function DoNextDue(s: Sys, p: Pid): Sys {
    if p in s.procs && s.procs[p].Sweeping? then Put(s, p, AfterNext(s.procs[p].rest, s.clock)) else s
  }

  // --- Fulfilment and delivery ------------------------------------------------------------------------

  function DoListAttendees(s: Sys, p: Pid): Sys {
    if !(p in s.procs && s.procs[p].FulfilCalled?) then s
    else
      var o := s.procs[p].o;
      Put(s, p, FulfilListed(o, AttendeesOf(s.facts.db.attendees, o)))
  }

  /** The "already issued?" check, outside the insert transaction. */
  function DoCheckIssued(s: Sys, p: Pid): Sys {
    if !(p in s.procs && s.procs[p].FulfilListed?) then s
    else
      var o, ids := s.procs[p].o, s.procs[p].ids;
      Put(s, p, if TicketsOf(s.facts.db.tickets, o) != [] || ids == [] then DeliveryCalled(o) else FulfilIssuing(o, ids))
  }

  function DoIssue(s: Sys, p: Pid, codes: seq<string>, fate: Fate): Sys {
    if !(p in s.procs && s.procs[p].FulfilIssuing? && |codes| == |s.procs[p].ids|) then s
    else
      var o := s.procs[p].o;
      match IssueTx(s.facts.db, o, s.procs[p].ids, codes)
      case Applied(db) =>
        (match fate
         case RollsBack => Put(s, p, FulfilRelisting(o))
         case Commits => Put(WithDb(s, db), p, DeliveryCalled(o))
         case CommitsUnreported => Put(WithDb(s, db), p, FulfilRelisting(o)))
      case _ => Put(s, p, FulfilRelisting(o))
  }

  /** After a failed insert, tickets that exist all the same are taken as issued. */
  function DoRelist(s: Sys, p: Pid): Sys {
    if !(p in s.procs && s.procs[p].FulfilRelisting?) then s
    else
      var o := s.procs[p].o;
      Put(s, p, if TicketsOf(s.facts.db.tickets, o) != [] then DeliveryCalled(o) else Finished(Failure))
  }

  function DoLoadDelivery(s: Sys, p: Pid): Sys {
    if !(p in s.procs && s.procs[p].DeliveryCalled?) then s
    else
      var o := s.procs[p].o;
      Put(s, p, if o < |s.facts.db.orders| && s.facts.db.orders[o].status == Paid then DeliveryLoaded(o) else Finished(Failure))
  }

  /** The ticket, its attendee, the attendee's type and the type's event all exist. */
  predicate Joins(db: Db, row: TicketRow) {
    && row.attendee < |db.attendees|
    && db.attendees[row.attendee].typ in db.types
    && db.types[db.attendees[row.attendee].typ].event in db.events
  }

  /** The inner join over the tickets of one order. */
  function JoinedCodes(db: Db, rows: seq<TicketRow>): (codes: seq<string>) {
    if rows == [] then []
    else
      var last := rows[|rows| - 1];
      JoinedCodes(db, rows[..|rows| - 1]) + if Joins(db, last) then [last.code] else []
  }

  function JoinedStatus(db: Db, code: string): Option<TicketStatus> {
    match FindTicket(db.tickets, code)
    case None => None
    case Some(i) => if Joins(db, db.tickets[i]) then Some(db.tickets[i].status) else None
  }

  function DoLoadTickets(s: Sys, p: Pid): Sys {
    if !(p in s.procs && s.procs[p].DeliveryLoaded?) then s
    else
      var o := s.procs[p].o;
      var codes := JoinedCodes(s.facts.db, TicketsOf(s.facts.db.tickets, o));
      Put(s, p, if codes == [] then Finished(Failure) else Sending(o, codes))
  }

  /** The send may deliver and still be reported as an error. */
  function DoSend(s: Sys, p: Pid, delivered: bool, reported: bool): Sys {
    if !(p in s.procs && s.procs[p].Sending?) then s
    else
      var o, codes := s.procs[p].o, s.procs[p].codes;
      Put(if delivered then Logged(s, Emailed(o, codes)) else s, p,
          if delivered && reported then MarkingSent(o) else Finished(Failure))
  }

  function DoMarkSent(s: Sys, p: Pid, fate: Fate): Sys {
    if !(p in s.procs && s.procs[p].MarkingSent?) then s
    else
      match MarkSentTx(s.facts.db, s.procs[p].o)
      case Applied(db) => Put(if fate == RollsBack then s else WithDb(s, db), p, Finished(Done))
      case _ => Put(s, p, Finished(Done))
  }

  // --- Catalog administration and the door -----------------------------------------------------------------

  function DoCreateType(s: Sys, t: TypeId, row: TicketType): Sys {
    match CreateTypeTx(s.facts.db, t, row)
    case Applied(db) => s.(facts := s.facts.(db := db, alloc := s.facts.alloc[t := row.quota]))
    case _ => s
  }

  /** An absolute quota edit allocates, or withdraws, the difference. */
  function Reallocated(f: Facts, t: TypeId, quota: int): (alloc: map<TypeId, int>)
    requires t in f.db.types
  {
    f.alloc[t := (if t in f.alloc then f.alloc[t] else 0) + quota - f.db.types[t].quota]
  }

  function DoUpdateType(s: Sys, t: TypeId, row: TicketType): Sys {
    match UpdateTypeTx(s.facts.db, t, row)
    case Applied(db) => s.(facts := s.facts.(db := db, alloc := Reallocated(s.facts, t, row.quota)))
    case _ => s
  }

  function DoDeleteType(s: Sys, t: TypeId): Sys {
    match DeleteTypeTx(s.facts.db, t)
    case Deleted(db) => s.(facts := s.facts.(db := db, alloc := s.facts.alloc - {t}))
    case _ => s
  }

  function DoDeleteEvent(s: Sys, e: EventId): Sys {
    match DeleteEventTx(s.facts.db, e)
    case Deleted(db) => s.(facts := s.facts.(db := db, alloc := s.facts.alloc - TypesOfEvent(s.facts.db.types, e)))
    case _ => s
  }

  function DoAdmit(s: Sys, code: string): Sys {
    if Admissible(s.facts.db.tickets, code)
    then s.(facts := s.facts.(db := s.facts.db.(tickets := Admit(s.facts.db.tickets, code)),
                              log := s.facts.log + [Admitted(code)]))
    else s
  }

  // --- Runs ----------------------------------------------------------------------------------------------------

  /** The process whose move an action is; catalog edits, the door and the clock are nobody's. */
  function Mover(a: Action): Option<Pid> {
    if a.Tick? || a.CreateEvent? || a.DeleteEvent? || a.CreateType? || a.UpdateType? || a.DeleteType? || a.AdmitTicket?
    then None else Some(a.p)
  }

  function Next(s: Sys, a: Action): Sys {
    match a
    case Tick(elapsed) => s.(clock := s.clock + elapsed)
    case CreateEvent(e) => WithDb(s, s.facts.db.(events := s.facts.db.events + {e}))
    case DeleteEvent(e) => DoDeleteEvent(s, e)
    case CreateType(t, row) => DoCreateType(s, t, row)
    case UpdateType(t, row) => DoUpdateType(s, t, row)
    case DeleteType(t) => DoDeleteType(s, t)
    case StartCheckout(p, req) => if Accepts(req) then Spawn(s, p, Reserving(req, ORDER_NUMBER_ATTEMPTS)) else s
    case Reserve(p, number, fate) => DoReserve(s, p, number, fate)
    case PaymentOpens(p, qr, deadline) =>
      if p in s.procs && s.procs[p].OpeningPayment? then Put(s, p, Stamping(s.procs[p].id, qr, deadline)) else s
    case PaymentFails(p) =>
      if p in s.procs && s.procs[p].OpeningPayment? then Put(s, p, Compensating(s.procs[p].id, s.procs[p].lines)) else s
    case Compensate(p, fate) => DoCompensate(s, p, fate)
    case Stamp(p, fate) => DoStamp(s, p, fate)
    case StartAnswer(p, answer) => Spawn(s, p, Answered(answer))
    case StartRefresh(p, number) => Spawn(s, p, RefreshCalled(number))
    case LoadOrder(p) => DoLoadOrder(s, p)
    case CheckDue(p) => DoCheckDue(s, p)
    case FetchAnswer(p, answer) =>
      if p in s.procs && s.procs[p].RefreshAsking?
      then Put(s, p, Recording(Refresh, s.procs[p].ord, answer, s.procs[p].wasDue)) else s
    case Record(p, fate) => DoRecord(s, p, fate)
    case Decide(p) => DoDecide(s, p)
    case ReadLines(p) => DoReadLines(s, p)
    case Settle(p, fate, child) => DoSettle(s, p, fate, child)
    case Reread(p) => DoReread(s, p)
    case StartSweep(p) => Spawn(s, p, SweepCalled)
    case ListDue(p, batch) =>
      if p in s.procs && s.procs[p].SweepCalled? && IsDueBatch(s.facts.db.orders, s.clock, batch)
      then Put(s, p, Sweeping(batch)) else s
    case NextDue(p) => DoNextDue(s, p)
    case ListAttendees(p) => DoListAttendees(s, p)
    case CheckIssued(p) => DoCheckIssued(s, p)
    case Issue(p, codes, fate) => DoIssue(s, p, codes, fate)
    case Relist(p) => DoRelist(s, p)
    case StartResend(p, o) => Spawn(s, p, DeliveryCalled(o))
    case LoadDelivery(p) => DoLoadDelivery(s, p)
    case LoadTickets(p) => DoLoadTickets(s, p)
    case Send(p, delivered, reported) => DoSend(s, p, delivered, reported)
    case MarkSent(p, fate) => DoMarkSent(s, p, fate)
    case AdmitTicket(code) => DoAdmit(s, code)
    case Abort(p) => if p in s.procs && !s.procs[p].Finished? then Put(s, p, Finished(Failure)) else s
  }

  const INITIAL: Sys := Sys(Facts(EMPTY, map[], map[], map[], []), 0, map[])

  function Run(s: Sys, actions: seq<Action>): (r: Sys) {
    if actions == [] then s else Next(Run(s, actions[..|actions| - 1]), actions[|actions| - 1])
  }

  /** The states of all runs from an empty database. */
  ghost predicate Reachable(s: Sys) {
    exists actions :: s == Run(INITIAL, actions)
  }

}
