/** Delivery: the guards, the send and the mark, in that order. */
module NotificationService {
  import opened Wrappers
  import opened Schema
  import opened Transactions
  import opened System
  import opened Invariant
  import opened LocalSteps
  import opened Storage

  /** The email went out with the order's complete ticket list. */
  ghost predicate Delivered(f: Facts, o: OrderId) {
    exists codes :: Emailed(o, codes) in f.log && Deliverable(f.db, o, codes)
  }

  /** The first send, and a resend, begin with the same lookup. */
  ghost method LoadMove(store: Store, p: Pid, o: OrderId)
    requires store.Valid() && store.At(p, DeliveryCalled(o))
    modifies store`trace, store`sys, store`own
    ensures store.Valid() && old(store.trace) <= store.trace
    ensures store.own == old(store.own) + [LoadDelivery(p)]
    ensures store.At(p, if o < |store.rows.orders| && store.rows.orders[o].status == Paid then DeliveryLoaded(o) else Finished(Failure))
  {
    hide Store.Running;
    store.Move(LoadDelivery(p), p,
               if o < |store.rows.orders| && store.rows.orders[o].status == Paid then DeliveryLoaded(o) else Finished(Failure));
  }

  ghost method LoadTicketsMove(store: Store, p: Pid, o: OrderId, codes: seq<string>)
    requires store.Valid() && store.At(p, DeliveryLoaded(o)) && codes == JoinedCodes(store.rows, TicketsOf(store.rows.tickets, o))
    modifies store`trace, store`sys, store`own
    ensures store.Valid() && old(store.trace) <= store.trace
    ensures store.own == old(store.own) + [LoadTickets(p)]
    ensures store.At(p, if codes == [] then Finished(Failure) else Sending(o, codes))
  {
    hide Store.Running, JoinedCodes, TicketsOf;
    store.Move(LoadTickets(p), p, if codes == [] then Finished(Failure) else Sending(o, codes));
  }

  ghost method SendMove(store: Store, p: Pid, o: OrderId, codes: seq<string>, delivered: bool, reported: bool)
    requires store.Valid() && store.At(p, Sending(o, codes))
    modifies store`trace, store`sys, store`own
    ensures store.Valid() && old(store.trace) <= store.trace
    ensures store.own == old(store.own) + [Send(p, delivered, reported)]
    ensures store.At(p, if delivered && reported then MarkingSent(o) else Finished(Failure))
  {
    hide Store.Running;
    store.Move(Send(p, delivered, reported), p, if delivered && reported then MarkingSent(o) else Finished(Failure));
  }

  /** What the mailer does with the email: it accepts and delivers it, it refuses it, or it delivers
      it and reports an error all the same. */
  datatype Mailing = Accepts | Refuses | Unconfirmed

  lemma MarkMove(s: Sys, p: Pid, o: OrderId, work: Db, bodyErr: bool, fate: Fate)
    requires p in s.procs && s.procs[p] == MarkingSent(o) && o < |s.facts.db.orders|
    requires if bodyErr then fate == RollsBack else MarkSentTx(s.facts.db, o) == Applied(work)
    ensures var t := Next(s, MarkSent(p, fate));
            && t.clock == s.clock && t.facts == s.facts.(db := if fate == RollsBack then s.facts.db else work)
            && p in t.procs && t.procs[p] == Finished(Done)
  { }

  /** A process that is about to mark its order has delivered it. */
  lemma MarkingDelivered(s: Sys, p: Pid, o: OrderId)
    requires Inv(s) && p in s.procs && s.procs[p] == MarkingSent(o)
    ensures o < |s.facts.db.orders| && WasEmailed(s.facts.log, o)
  {
    assert ProcOk(s.facts, p, s.procs[p]);
  }

  lemma EmailedIsDelivered(s: Sys, o: OrderId)
    requires Inv(s) && WasEmailed(s.facts.log, o)
    ensures Delivered(s.facts, o)
  {
    assert DeliveriesOk(s.facts.db, s.facts.log);
    hide Inv, Deliverable;
    var codes :| Emailed(o, codes) in s.facts.log;
    assert Deliverable(s.facts.db, o, codes);
  }

  /** The mark; a failure to mark is not a failure to deliver. */
  method MarkEmailSent(store: Store, ghost p: Pid, o: OrderId) returns (ghost fate: Fate)
    requires store.Valid() && store.At(p, MarkingSent(o))
    modifies store
    ensures store.Valid() && old(store.trace) <= store.trace && store.At(p, Finished(Done))
    ensures store.own == old(store.own) + [MarkSent(p, fate)]
    ensures Delivered(store.sys.facts, o)
    ensures store.alone && store.reliable ==> MarkedSent(old(store.rows), store.rows, o)
  {
    hide Store.Running, Next, Inv, MarkSentTx, MarkedSent, Delivered, WasEmailed;
    store.Yield(p, MarkingSent(o));
    store.Sound();
    MarkingDelivered(store.sys, p, o);
    var err := store.Begin();
    if !err {
      err := store.SetEmailSent(o);
    }
    var end := store.Finish(err);
    MarkMove(store.sys, p, o, store.work, err, end);
    store.TakeQuietly(MarkSent(p, end));
    fate := end;
    store.Sound();
    EmailedIsDelivered(store.sys, o);
  }

  /** The order is PAID and has tickets. */
  predicate CanDeliver(db: Db, o: OrderId) {
    o < |db.orders| && db.orders[o].status == Paid && TicketsOf(db.tickets, o) != []
  }

  /** The join over the four tables finds every ticket of the order. */
  lemma AllJoined(store: Store, o: OrderId)
    requires store.Valid()
    ensures JoinedCodes(store.rows, TicketsOf(store.rows.tickets, o)) == Codes(TicketsOf(store.rows.tickets, o))
  {
    hide Run, Spawns, Inv, TicketsOf, JoinedCodes;
    store.Sound();
    RowsRefer(store.sys);
    TicketsOfAreRows(store.rows.tickets, o);
    JoinIsComplete(store.rows, TicketsOf(store.rows.tickets, o));
  }

  lemma RowsRefer(s: Sys)
    requires Inv(s)
    ensures RefsOk(s.facts.db)
  { }

  /** The guards: the order is PAID and has tickets. */
  method LoadForDelivery(store: Store, ghost p: Pid, o: OrderId)
    returns (codes: seq<string>, err: bool, ghost acts: seq<Action>)
    requires store.Valid() && store.At(p, DeliveryCalled(o))
    modifies store
    ensures store.Valid() && old(store.trace) <= store.trace
    ensures store.At(p, if err then Finished(Failure) else Sending(o, codes))
    ensures store.own == old(store.own) + acts && OwnMoves(p, acts) && forall a <- acts :: !a.Send?
    ensures store.alone ==> store.rows == old(store.rows)
    ensures store.alone && store.reliable ==>
              && (err <==> !CanDeliver(store.rows, o))
              && (!err ==> codes == Codes(TicketsOf(store.rows.tickets, o)))
  {
    hide Store.Owing, Next, Store.At, JoinedCodes, TicketsOf;
    store.Yield(p, DeliveryCalled(o));
    codes, acts := [], [Abort(p)];
    var status;
    status, err := store.OrderForDelivery(o);
    if err {
      store.Quit(p, DeliveryCalled(o));
      return;
    }
    LoadMove(store, p, o);
    acts := [LoadDelivery(p)];
    if status != Some(Paid) {
      return codes, true, acts;
    }
    store.Yield(p, DeliveryLoaded(o));
    codes, err := store.TicketDetails(o);
    if err {
      store.Quit(p, DeliveryLoaded(o));
      acts := acts + [Abort(p)];
      return;
    }
    AllJoined(store, o);
    LoadTicketsMove(store, p, o, codes);
    acts := acts + [LoadTickets(p)];
    err := codes == [];
  }

  /** The only send among the actions is the mailer's verdict. */
  predicate SendsAs(acts: seq<Action>, renders: bool, mailing: Mailing) {
    forall a <- acts :: a.Send? ==> renders && a.delivered == !mailing.Refuses? && a.reported == mailing.Accepts?
  }

  /** SendTicketEmail, given whether the PDF renders and what the mailer does. If it reports no
      error, an email with the order's complete ticket list is out. With no faults and nobody else
      at work it fails exactly if the order is not PAID, has no tickets, does not render or is not
      accepted; otherwise the order is then marked, and on a failure no row has changed. */
  method SendTicketEmail(store: Store, ghost p: Pid, o: OrderId, renders: bool, mailing: Mailing)
    returns (err: bool, ghost acts: seq<Action>)
    requires store.Valid() && store.At(p, DeliveryCalled(o))
    modifies store
    ensures store.Valid() && old(store.trace) <= store.trace
    ensures store.At(p, Finished(if err then Failure else Done))
    ensures store.own == old(store.own) + acts && OwnMoves(p, acts) && SendsAs(acts, renders, mailing)
    ensures !err ==> Delivered(store.sys.facts, o)
    ensures !renders || !mailing.Accepts? ==> err
    ensures store.alone && store.reliable ==>
              && (err <==> !CanDeliver(old(store.rows), o) || !renders || !mailing.Accepts?)
              && if err then store.rows == old(store.rows) else MarkedSent(old(store.rows), store.rows, o)
  {
    hide Store.Owing, Next, Store.At, Delivered, MarkedSent, CanDeliver;
    var codes;
    codes, err, acts := LoadForDelivery(store, p, o);
    if err {
      return;
    }
    if !renders {
      store.Quit(p, Sending(o, codes));
      acts := acts + [Abort(p)];
      return true, acts;
    }
    SendMove(store, p, o, codes, !mailing.Refuses?, mailing.Accepts?);
    acts := acts + [Send(p, !mailing.Refuses?, mailing.Accepts?)];
    if !mailing.Accepts? {
      return true, acts;
    }
    ghost var fate := MarkEmailSent(store, p, o);
    acts := acts + [MarkSent(p, fate)];
  }

  /** An admin's resend: the same path, for an order whose tickets exist. */
  method Resend(store: Store, o: OrderId, renders: bool, mailing: Mailing)
    returns (err: bool, ghost p: Pid, ghost acts: seq<Action>)
    requires store.Valid()
    modifies store
    ensures store.Valid() && old(store.trace) <= store.trace
    ensures store.own == old(store.own) + acts && OwnMoves(p, acts) && SendsAs(acts, renders, mailing)
    ensures store.At(p, Finished(if err then Failure else Done))
    ensures !err ==> Delivered(store.sys.facts, o)
    ensures !renders || !mailing.Accepts? ==> err
    ensures store.alone && store.reliable ==>
              && (err <==> !CanDeliver(old(store.rows), o) || !renders || !mailing.Accepts?)
              && if err then store.rows == old(store.rows) else MarkedSent(old(store.rows), store.rows, o)
  {
    hide Store.Running, Delivered, MarkedSent, CanDeliver;
    p := FreshPid(store.sys);
    store.Move(StartResend(p, o), p, DeliveryCalled(o));
    ghost var delivery;
    err, delivery := SendTicketEmail(store, p, o, renders, mailing);
    acts := [StartResend(p, o)] + delivery;
  }
}
