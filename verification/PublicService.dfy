/** The guest's order page: when an order shows a payment code. */
module PublicService {
  import opened Wrappers
  import opened Schema
  import opened Transactions
  import opened System
  import opened Invariant
  import opened Runs
  import opened Request
  import opened ReserveSteps
  import opened OrderService
  import Guarantees
  import LocalSteps

  datatype Instruction = Instruction(amount: int, expiresAt: int)

  /** None whenever showing a code would be wrong. */
  function PaymentInstruction(record: Order, now: int): Option<Instruction> {
    if record.status != Pending then None
    else if record.qr.None? || record.qr.value == "" then None
    else if record.deadline.None? || record.deadline.value <= now then None
    else Some(Instruction(record.total, record.deadline.value))
  }

  /** A code is shown exactly for a PENDING order with a payload and a deadline still to come, with
      its total and that deadline. */
  lemma InstructionIff(record: Order, now: int, amount: int, expiresAt: int)
    ensures PaymentInstruction(record, now) == Some(Instruction(amount, expiresAt)) <==>
            && record.status == Pending && record.qr.Some? && record.qr.value != ""
            && record.deadline == Some(expiresAt) && now < expiresAt && amount == record.total
  { }

  /** The payload to render; the image goes when the instruction does. */
  function PaymentQRPayload(orders: seq<Order>, number: string, now: int): Option<string> {
    match FindByNumber(orders, number)
    case None => None
    case Some(o) =>
      if PaymentInstruction(orders[o], now).None? then None
      else assert orders[o].qr.Some?; orders[o].qr
  }

  /** The payload is the order's own, and is served exactly while its instruction is shown. */
  lemma PayloadIff(orders: seq<Order>, o: OrderId, now: int, payload: string)
    requires o < |orders| && NumbersUnique(orders)
    ensures PaymentQRPayload(orders, orders[o].number, now) == Some(payload) <==>
            && orders[o].status == Pending && orders[o].qr == Some(payload) && payload != ""
            && orders[o].deadline.Some? && now < orders[o].deadline.value
  {
    LocalSteps.FindUnique(orders, o);
    hide FindByNumber;
  }

  /** The order took part in TX2: a code and a deadline are recorded. */
  predicate Instructed(record: Order) {
    record.qr.Some? && record.qr.value != "" && record.deadline.Some?
  }

  /** While an instructed order is PENDING, either its code is shown or the sweeper finds it,
      never both and never neither; and a PENDING order without a deadline is neither. */
  lemma ShownOrDue(orders: seq<Order>, o: OrderId, now: int)
    requires o < |orders| && orders[o].status == Pending
    ensures Instructed(orders[o]) ==> (PaymentInstruction(orders[o], now).Some? <==> !Due(orders, o, now))
    ensures PaymentInstruction(orders[o], now).Some? ==> Instructed(orders[o])
    ensures orders[o].deadline.None? ==> PaymentInstruction(orders[o], now).None? && !Due(orders, o, now)
  { }

  /** A settled order never shows a code again, whatever happens and however late. */
  lemma SettledShowsNoCode(s: Sys, actions: seq<Action>, o: OrderId, now: int)
    requires Reachable(s) && IsSettled(s.facts.db, o)
    ensures var orders := Run(s, actions).facts.db.orders;
            && o < |orders| && PaymentInstruction(orders[o], now).None?
            && PaymentQRPayload(orders, orders[o].number, now).None?
  {
    Guarantees.SettledForGood(s, actions, o);
    ReachableInv(s);
    RunKeeps(s, actions);
    InvKnows(Run(s, actions), 0);
    hide Run, Inv;
    LocalSteps.FindUnique(Run(s, actions).facts.db.orders, o);
  }

  /** After a checkout that opened an order with a payload and a deadline, the order with the number
      answered shows its total and exactly that payload until the deadline, and from then on is due
      for the sweep, unless somebody settles it. */
  lemma OpenedShownOrDue(before: Db, now: int, req: CheckoutRequest, session: Session, after: Db, number: string, total: int,
                         t: int)
    returns (o: OrderId)
    requires QuotasOk(before.types) && Accepts(req) && NumbersUnique(before.orders)
    requires OneOpened(before, now, req, session, after, number, total)
    requires session.qr != "" && session.deadline.Some?
    ensures o < |after.orders| && after.orders[o].number == number
    ensures if t < session.deadline.value then
              && PaymentInstruction(after.orders[o], t) == Some(Instruction(total, session.deadline.value))
              && PaymentQRPayload(after.orders, number, t) == Some(session.qr)
            else Due(after.orders, o, t) && PaymentInstruction(after.orders[o], t).None?
  {
    hide Stamped, Reserves, Accepts, QuotasOk, FindByNumber, NumbersUnique;
    var mid, placed :| Reserves(before, now, req, mid, placed)
                       && Stamped(mid, after, placed.id, session.qr, session.deadline)
                       && placed.number == number && placed.total == total;
    o := placed.id;
    ReservedPending(before, now, req, mid, placed);
    StampedRow(mid, after, o, session.qr, session.deadline);
    PayloadIff(after.orders, o, t, session.qr);
  }

  lemma ReservedPending(db: Db, now: int, req: CheckoutRequest, mid: Db, placed: Placed)
    requires QuotasOk(db.types) && Accepts(req) && NumbersUnique(db.orders) && Reserves(db, now, req, mid, placed)
    ensures placed.id < |mid.orders| && mid.orders[placed.id] == NewOrder(placed.number, placed.total)
    ensures NumbersUnique(mid.orders)
  {
    ReserveRows(db, now, placed.number, req, ReserveDone(mid, placed.id, placed.lines));
    ReserveNumbers(db, now, placed.number, req, ReserveDone(mid, placed.id, placed.lines));
    hide Accepts, QuotasOk, ReserveLines, Amount, NumbersUnique;
  }

  lemma StampedRow(a: Db, b: Db, o: OrderId, qr: string, deadline: Option<int>)
    requires Stamped(a, b, o, qr, deadline) && NumbersUnique(a.orders)
    ensures o < |b.orders| == |a.orders| && NumbersUnique(b.orders)
    ensures b.orders[o].number == a.orders[o].number && b.orders[o].total == a.orders[o].total
    ensures b.orders[o].status == a.orders[o].status && b.orders[o].deadline == deadline
    ensures qr != "" ==> b.orders[o].qr == Some(qr)
  {
    assert forall x :: 0 <= x < |a.orders| ==> b.orders[x].number == a.orders[x].number;
  }
}
