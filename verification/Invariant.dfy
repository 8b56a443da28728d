/** The inductive invariant of the interleaved system, and what no action takes back. */
module Invariant {
  import opened Wrappers
  import opened Schema
  import opened Request
  import opened ProviderStatus
  import opened Transactions
  import opened System

  // --- The rows ----------------------------------------------------------------------

  /** Foreign keys. */
  ghost predicate RefsOk(db: Db) {
    && (forall t :: t in db.types ==> db.types[t].event in db.events)
    && (forall r <- db.items :: r.order < |db.orders| && r.typ in db.types)
    && (forall r <- db.attendees :: r.order < |db.orders| && r.typ in db.types)
    && (forall r <- db.tickets ::
          && r.order < |db.orders| && r.attendee < |db.attendees|
          && db.attendees[r.attendee].order == r.order)
    && forall r <- db.payments :: r.order < |db.orders|
  }

  ghost predicate NumbersUnique(orders: seq<Order>) {
    forall i, j :: 0 <= i < j < |orders| ==> orders[i].number != orders[j].number
  }

  /** Every order has as many attendees of each type as it reserved seats. */
  ghost predicate SeatsMatch(db: Db) {
    forall o: OrderId, t: TypeId :: o < |db.orders| ==>
      CountOf(AttendeeTypes(db.attendees, o), t) == QtyOf(db.items, o, t)
  }

  ghost predicate TotalsMatch(db: Db) {
    forall o: OrderId :: o < |db.orders| ==> db.orders[o].total == Amount(LinesOf(db.items, o))
  }

  /** The order's tickets are one per attendee, in order. */
  ghost predicate FullyIssued(db: Db, o: OrderId) {
    && o < |db.orders| && db.orders[o].status == Paid
    && Holders(TicketsOf(db.tickets, o)) == AttendeesOf(db.attendees, o)
  }

  ghost predicate IssuedOk(db: Db) {
    forall o: OrderId :: o < |db.orders| ==> TicketsOf(db.tickets, o) == [] || FullyIssued(db, o)
  }

  ghost predicate DbOk(db: Db) {
    && RefsOk(db)
    && QuotasOk(db.types)
    && (forall r <- db.items :: r.qty >= 1)
    && NumbersUnique(db.orders)
    && CodesUnique(db.tickets)
    && SeatsMatch(db)
    && TotalsMatch(db)
    && IssuedOk(db)
  }

  /** Conservation: for every type, remaining quota and held seats make up its allocation. */
  ghost predicate Conserved(db: Db, alloc: map<TypeId, int>) {
    && alloc.Keys == db.types.Keys
    && forall t :: t in db.types ==> db.types[t].quota + Held(db, t) == alloc[t]
  }

  // --- The history -------------------------------------------------------------------

  function SettledCount(log: seq<Event>, o: OrderId): (n: nat) {
    if log == [] then 0
    else
      var e := log[|log| - 1];
      SettledCount(log[..|log| - 1], o) + if e.SettledAs? && e.o == o then 1 else 0
  }

  function ReleasedCount(log: seq<Event>, o: OrderId): (n: nat) {
    if log == [] then 0
    else
      var e := log[|log| - 1];
      ReleasedCount(log[..|log| - 1], o) + if e.SettledAs? && e.o == o && e.released then 1 else 0
  }

  function StartedCount(log: seq<Event>, o: OrderId): (n: nat) {
    if log == [] then 0
    else StartedCount(log[..|log| - 1], o) + if log[|log| - 1] == FulfilStarted(o) then 1 else 0
  }

  function AdmittedCount(log: seq<Event>, code: string): (n: nat) {
    if log == [] then 0
    else AdmittedCount(log[..|log| - 1], code) + if log[|log| - 1] == Admitted(code) then 1 else 0
  }

  predicate IsUsed(tickets: seq<TicketRow>, code: string) {
    exists i :: 0 <= i < |tickets| && tickets[i].code == code && tickets[i].status == Used
  }

  /** The codes are the complete, non-empty ticket list of a paid and fully issued order. */
  ghost predicate Deliverable(db: Db, o: OrderId, codes: seq<string>) {
    FullyIssued(db, o) && codes == Codes(TicketsOf(db.tickets, o)) && codes != []
  }

  /** The settled orders are those with a winner; each was settled, and released, as often as
      its status says. */
  ghost predicate SettlementsOk(orders: seq<Order>, winner: map<OrderId, Pid>, log: seq<Event>) {
    && (forall o: OrderId :: o in winner <==> o < |orders| && orders[o].status != Pending)
    && (forall o: OrderId :: SettledCount(log, o) == if o in winner then 1 else 0)
    && (forall o: OrderId :: ReleasedCount(log, o) == if o in winner && orders[o].status != Paid then 1 else 0)
  }

  /** Only paid orders have a fulfilment process, and only orders that have one have tickets. */
  ghost predicate FulfilmentsOk(db: Db, owner: map<OrderId, Pid>, log: seq<Event>) {
    && (forall o: OrderId :: o in owner ==> o < |db.orders| && db.orders[o].status == Paid)
    && (forall o: OrderId :: o < |db.orders| && TicketsOf(db.tickets, o) != [] ==> o in owner)
    && (forall o: OrderId :: StartedCount(log, o) == if o in owner then 1 else 0)
  }

  ghost predicate DoorOk(tickets: seq<TicketRow>, log: seq<Event>) {
    && (forall code: string :: AdmittedCount(log, code) == if IsUsed(tickets, code) then 1 else 0)
    && forall r <- tickets :: r.status != Revoked
  }

  ghost predicate WasEmailed(log: seq<Event>, o: OrderId) {
    exists codes :: Emailed(o, codes) in log
  }

  ghost predicate DeliveriesOk(db: Db, log: seq<Event>) {
    && (forall e <- log :: e.Emailed? ==> Deliverable(db, e.o, e.codes))
    && forall o: OrderId :: o < |db.orders| && db.orders[o].emailSent ==> WasEmailed(log, o)
  }

  /** Some recorded answer about the order maps to PAID. */
  ghost predicate PaymentRecorded(payments: seq<PaymentRow>, o: OrderId) {
    exists r :: r in payments && r.order == o && OutcomeOf(r.answer).status == Some(Paid)
  }

  ghost predicate AuditOk(db: Db) {
    forall o: OrderId :: o < |db.orders| && db.orders[o].status == Paid ==> PaymentRecorded(db.payments, o)
  }

  // --- The processes ------------------------------------------------------------------

  /** A snapshot may be stale only about a PENDING order. */
  ghost predicate RefOk(db: Db, ord: OrderRef) {
    && ord.id < |db.orders|
    && ord.number == db.orders[ord.id].number
    && (ord.status != Pending ==> db.orders[ord.id].status == ord.status)
  }

  predicate IsSettled(db: Db, o: OrderId) {
    o < |db.orders| && db.orders[o].status != Pending
  }

  ghost predicate CallerOk(f: Facts, caller: Caller, ord: OrderRef, outcome: Outcome) {
    match caller
    case ForAnswer(_, wasDue) =>
      && (wasDue ==> IsSettled(f.db, ord.id))
      && (outcome.status == Some(Paid) ==> PaymentRecorded(f.db.payments, ord.id))
    case ForDueRefresh => outcome == EXPIRES
    case ForSweep(rest) => outcome == EXPIRES && forall r <- rest :: RefOk(f.db, r)
  }

  ghost predicate SettlingOk(f: Facts, caller: Caller, ord: OrderRef, outcome: Outcome) {
    && RefOk(f.db, ord)
    && outcome.status.Some? && outcome.status != Some(Pending)
    && (outcome.restore <==> outcome.status != Some(Paid))
    && CallerOk(f, caller, ord, outcome)
  }

  ghost predicate Owns(f: Facts, p: Pid, o: OrderId) {
    o in f.owner && f.owner[o] == p && o < |f.db.orders|
  }

  ghost predicate Unissued(f: Facts, p: Pid, o: OrderId) {
    Owns(f, p, o) && TicketsOf(f.db.tickets, o) == []
  }

  ghost predicate WonBy(f: Facts, p: Pid, o: OrderId) {
    o in f.winner && f.winner[o] == p && IsSettled(f.db, o)
  }

  ghost predicate ReplyOk(f: Facts, p: Pid, reply: Reply) {
    reply.Refreshed? ==>
      && reply.id < |f.db.orders|
      && (reply.status != Pending ==> f.db.orders[reply.id].status == reply.status)
      && (reply.changed ==> reply.status != Pending && WonBy(f, p, reply.id))
  }

  ghost predicate ProcOk(f: Facts, p: Pid, proc: Proc) {
    match proc
    case Reserving(req, attempts) => Accepts(req) && attempts >= 1
    case OpeningPayment(id, lines) => id < |f.db.orders| && lines == LinesOf(f.db.items, id)
    case Compensating(id, lines) => id < |f.db.orders| && lines == LinesOf(f.db.items, id)
    case Stamping(id, _, _) => id < |f.db.orders|
    case RefreshLoaded(ord) => RefOk(f.db, ord)
    case RefreshAsking(ord, wasDue) => RefOk(f.db, ord) && (wasDue ==> IsSettled(f.db, ord.id))
    case Recording(_, ord, _, wasDue) => RefOk(f.db, ord) && (wasDue ==> IsSettled(f.db, ord.id))
    case Deciding(_, ord, answer, wasDue) =>
      && RefOk(f.db, ord) && (wasDue ==> IsSettled(f.db, ord.id))
      && PaymentRow(ord.id, answer) in f.db.payments
    case Settling(caller, ord, outcome) => SettlingOk(f, caller, ord, outcome)
    case Committing(caller, ord, outcome, lines) =>
      SettlingOk(f, caller, ord, outcome) && lines == LinesOf(f.db.items, ord.id)
    case Rereading(ord, changed) => RefOk(f.db, ord) && (changed ==> WonBy(f, p, ord.id))
    case Sweeping(rest) => forall r <- rest :: RefOk(f.db, r)
    case FulfilCalled(o) => Unissued(f, p, o)
    case FulfilListed(o, ids) => Unissued(f, p, o) && ids == AttendeesOf(f.db.attendees, o)
    case FulfilIssuing(o, ids) => Unissued(f, p, o) && ids == AttendeesOf(f.db.attendees, o)
    case FulfilRelisting(o) => Owns(f, p, o)
    case DeliveryLoaded(o) => o < |f.db.orders| && f.db.orders[o].status == Paid
    case Sending(o, codes) => Deliverable(f.db, o, codes)
    case MarkingSent(o) => o < |f.db.orders| && WasEmailed(f.log, o)
    case Finished(reply) => ReplyOk(f, p, reply)
    case _ => true
  }

  ghost predicate ProcsOk(s: Sys) {
    forall p :: p in s.procs ==> ProcOk(s.facts, p, s.procs[p])
  }

  /** Fulfilment processes are processes. */
  ghost predicate OwnersLive(owner: map<OrderId, Pid>, procs: map<Pid, Proc>) {
    forall o :: o in owner ==> owner[o] in procs
  }

  ghost predicate HistoryOk(f: Facts) {
    && SettlementsOk(f.db.orders, f.winner, f.log)
    && FulfilmentsOk(f.db, f.owner, f.log)
    && DoorOk(f.db.tickets, f.log)
    && DeliveriesOk(f.db, f.log)
    && AuditOk(f.db)
  }

  ghost predicate FactsOk(f: Facts) {
    DbOk(f.db) && Conserved(f.db, f.alloc) && HistoryOk(f)
  }

  ghost predicate Inv(s: Sys) {
    FactsOk(s.facts) && ProcsOk(s) && OwnersLive(s.facts.owner, s.procs)
  }

  // --- What no action takes back ----------------------------------------------------------

  /** An order once placed keeps its number and total, and once settled keeps its status. */
  ghost predicate OrdersLater(a: seq<Order>, b: seq<Order>) {
    && |a| <= |b|
    && forall o :: 0 <= o < |a| ==>
         && b[o].number == a[o].number && b[o].total == a[o].total
         && (a[o].status != Pending ==> b[o].status == a[o].status)
         && (a[o].emailSent ==> b[o].emailSent)
  }

  /** An order's items and attendees are frozen, and so are its tickets once there are any. */
  ghost predicate Frozen(a: Db, b: Db) {
    forall o: OrderId :: o < |a.orders| ==>
      && LinesOf(b.items, o) == LinesOf(a.items, o)
      && AttendeesOf(b.attendees, o) == AttendeesOf(a.attendees, o)
      && AttendeeTypes(b.attendees, o) == AttendeeTypes(a.attendees, o)
      && (TicketsOf(a.tickets, o) != [] ==>
            && Codes(TicketsOf(b.tickets, o)) == Codes(TicketsOf(a.tickets, o))
            && Holders(TicketsOf(b.tickets, o)) == Holders(TicketsOf(a.tickets, o)))
  }

  /** A ticket that was used stays used. */
  ghost predicate UsedStays(a: seq<TicketRow>, b: seq<TicketRow>) {
    |a| <= |b| && forall i :: 0 <= i < |a| ==>
      b[i].code == a[i].code && (a[i].status != Active ==> b[i].status == a[i].status)
  }

  ghost predicate DbLater(a: Db, b: Db) {
    OrdersLater(a.orders, b.orders) && Frozen(a, b) && UsedStays(a.tickets, b.tickets) && a.payments <= b.payments
  }

  ghost predicate FactsLater(a: Facts, b: Facts) {
    && DbLater(a.db, b.db)
    && (forall o: OrderId :: o in a.winner ==> o in b.winner && b.winner[o] == a.winner[o])
    && (forall o: OrderId :: o in a.owner ==> o in b.owner && b.owner[o] == a.owner[o])
    && a.log <= b.log
  }

  ghost predicate Later(a: Sys, b: Sys) {
    FactsLater(a.facts, b.facts) && a.clock <= b.clock
  }

  lemma DbLaterTransitive(a: Db, b: Db, c: Db)
    requires DbLater(a, b) && DbLater(b, c)
    ensures DbLater(a, c)
  {
    forall o: OrderId | o < |a.orders| && TicketsOf(a.tickets, o) != []
      ensures Codes(TicketsOf(c.tickets, o)) == Codes(TicketsOf(a.tickets, o))
      ensures Holders(TicketsOf(c.tickets, o)) == Holders(TicketsOf(a.tickets, o))
    {
      assert |TicketsOf(b.tickets, o)| == |Codes(TicketsOf(a.tickets, o))| != 0;
    }
  }

  lemma LaterTransitive(a: Sys, b: Sys, c: Sys)
    requires Later(a, b) && Later(b, c)
    ensures Later(a, c)
  {
    DbLaterTransitive(a.facts.db, b.facts.db, c.facts.db);
  }

  lemma LaterReflexive(s: Sys)
    ensures Later(s, s)
  { }

  // --- Stability of process assertions ----------------------------------------------------

  lemma RefStable(a: Db, b: Db, ord: OrderRef)
    requires RefOk(a, ord) && OrdersLater(a.orders, b.orders)
    ensures RefOk(b, ord)
  { }

  lemma FullyIssuedStable(a: Db, b: Db, o: OrderId)
    requires FullyIssued(a, o) && TicketsOf(a.tickets, o) != [] && OrdersLater(a.orders, b.orders) && Frozen(a, b)
    ensures FullyIssued(b, o)
  { }

  lemma DeliverableStable(a: Db, b: Db, o: OrderId, codes: seq<string>)
    requires Deliverable(a, o, codes) && OrdersLater(a.orders, b.orders) && Frozen(a, b)
    ensures Deliverable(b, o, codes)
  {
    assert |TicketsOf(a.tickets, o)| == |codes| != 0;
    FullyIssuedStable(a, b, o);
  }

  lemma PaymentRecordedStable(a: seq<PaymentRow>, b: seq<PaymentRow>, o: OrderId)
    requires PaymentRecorded(a, o) && a <= b
    ensures PaymentRecorded(b, o)
  {
    var r :| r in a && r.order == o && OutcomeOf(r.answer).status == Some(Paid);
    assert r in b;
  }

  lemma WasEmailedStable(a: seq<Event>, b: seq<Event>, o: OrderId)
    requires WasEmailed(a, o) && a <= b
    ensures WasEmailed(b, o)
  {
    var codes :| Emailed(o, codes) in a;
    assert Emailed(o, codes) in b;
  }

  lemma CallerStable(a: Facts, b: Facts, caller: Caller, ord: OrderRef, outcome: Outcome)
    requires FactsLater(a, b) && ord.id < |a.db.orders| && CallerOk(a, caller, ord, outcome)
    ensures CallerOk(b, caller, ord, outcome)
  {
    if caller.ForAnswer? && outcome.status == Some(Paid) {
      PaymentRecordedStable(a.db.payments, b.db.payments, ord.id);
    }
  }

  lemma SettlingStable(a: Facts, b: Facts, caller: Caller, ord: OrderRef, outcome: Outcome)
    requires SettlingOk(a, caller, ord, outcome) && FactsLater(a, b)
    ensures SettlingOk(b, caller, ord, outcome)
  {
    CallerStable(a, b, caller, ord, outcome);
  }

  /** What a process knows stays true, if the only new tickets are of orders it does not own. */
  lemma ProcStable(a: Facts, b: Facts, p: Pid, proc: Proc)
    requires FactsLater(a, b) && ProcOk(a, p, proc)
    requires forall o: OrderId :: Unissued(a, p, o) ==> TicketsOf(b.db.tickets, o) == []
    ensures ProcOk(b, p, proc)
  {
    match proc
    case Settling(caller, ord, outcome) => SettlingStable(a, b, caller, ord, outcome);
    case Committing(caller, ord, outcome, _) => SettlingStable(a, b, caller, ord, outcome);
    case Deciding(_, ord, answer, _) => assert PaymentRow(ord.id, answer) in a.db.payments;
    case Sending(o, codes) => DeliverableStable(a.db, b.db, o, codes);
    case MarkingSent(o) => WasEmailedStable(a.log, b.log, o);
    case FulfilCalled(o) => assert Unissued(a, p, o);
    case FulfilListed(o, _) => assert Unissued(a, p, o);
    case FulfilIssuing(o, _) => assert Unissued(a, p, o);
    case _ =>
  }

  /** All processes but p keep what they know. */
  lemma OthersStable(a: Sys, b: Sys, p: Pid)
    requires ProcsOk(a) && FactsLater(a.facts, b.facts)
    requires forall q :: q in b.procs && q != p ==> q in a.procs && b.procs[q] == a.procs[q]
    requires forall q, o: OrderId :: q != p && Unissued(a.facts, q, o) ==> TicketsOf(b.facts.db.tickets, o) == []
    ensures forall q :: q in b.procs && q != p ==> ProcOk(b.facts, q, b.procs[q])
  {
    forall q | q in b.procs && q != p ensures ProcOk(b.facts, q, b.procs[q]) {
      hide ProcOk, FactsLater;
      ProcStable(a.facts, b.facts, q, a.procs[q]);
    }
  }

  /** An action that changes only one process keeps the invariant if that process may be so. */
  lemma LocalStep(s: Sys, p: Pid, proc: Proc)
    requires Inv(s) && ProcOk(s.facts, p, proc)
    ensures Inv(Put(s, p, proc)) && Later(s, Put(s, p, proc))
  {
    hide FactsOk, ProcOk;
  }

  /** A commit on behalf of process p, followed by p's own move, keeps the invariant. */
  lemma CommitStep(s: Sys, f: Facts, p: Pid, proc: Proc)
    requires Inv(s) && FactsOk(f) && FactsLater(s.facts, f) && f.owner == s.facts.owner
    requires forall q, o: OrderId :: q != p && Unissued(s.facts, q, o) ==> TicketsOf(f.db.tickets, o) == []
    requires ProcOk(f, p, proc)
    ensures Inv(Put(s.(facts := f), p, proc)) && Later(s, Put(s.(facts := f), p, proc))
  {
    hide FactsOk, FactsLater, ProcOk, Unissued;
    OthersStable(s, Put(s.(facts := f), p, proc), p);
  }
}
