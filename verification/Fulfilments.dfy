/** PAID implies fulfilled exactly as far as it does: an order has a fulfilment if and only if the
    commit that paid it was reported as successful. */
module Fulfilments {
  import opened Wrappers
  import opened Schema
  import opened Request
  import opened ProviderStatus
  import opened Transactions
  import opened System
  import opened Invariant
  import opened Runs
  import opened History
  import opened Ledger
  import Guarantees
  import Text

  // --- PAID implies started -------------------------------------------------------------------

  /** No settling commit takes effect and is reported as an error. */
  predicate SettlesHonestly(actions: seq<Action>) {
    forall a <- actions :: a.Settle? ==> a.fate != CommitsUnreported
  }

  predicate IsPaid(db: Db, o: OrderId) {
    o < |db.orders| && db.orders[o].status == Paid
  }

  lemma StageIsStatus(db: Db, o: OrderId)
    requires o < |db.orders|
    ensures o < |Abstract(db).bookings| == |db.orders|
    ensures Abstract(db).bookings[o].stage == Sold <==> db.orders[o].status == Paid
  { }

  /** No ledger step but a sale sells. */
  lemma NothingElseSells(s: Sys, a: Action, x: Ledger, y: Ledger, o: OrderId)
    requires !a.Settle? && (y == x || StepOf(s, a, x, y))
    requires o < |y.bookings| && y.bookings[o].stage == Sold
    ensures o < |x.bookings| && x.bookings[o].stage == Sold
  { }

  /** Nothing but settling pays. */
  lemma OthersDoNotPay(s: Sys, a: Action, o: OrderId)
    requires Inv(s) && !a.Settle? && IsPaid(Next(s, a).facts.db, o)
    ensures IsPaid(s.facts.db, o)
  {
    var before, after := s.facts.db, Next(s, a).facts.db;
    hide Inv, Next, Abstract, StepOf;
    EveryActionSimulates(s, a);
    StageIsStatus(after, o);
    NothingElseSells(s, a, Abstract(before), Abstract(after), o);
    BookingsAreOrders(before);
    StageIsStatus(before, o);
  }

  lemma BookingsAreOrders(db: Db)
    ensures |Abstract(db).bookings| == |db.orders|
  { }

  /** An order that becomes PAID is settled by this action, and its fulfilment starts unless the
      commit was reported as an error. */
  lemma PaidBySettling(s: Sys, a: Action, o: OrderId)
    requires Inv(s) && !IsPaid(s.facts.db, o) && IsPaid(Next(s, a).facts.db, o)
    ensures a.Settle? && Settles(s, a) == Some((o, Paid))
    ensures a.fate == Commits <==> Starts(s, a) == Some(o)
  {
    if !a.Settle? {
      OthersDoNotPay(s, a, o);
    } else {
      SettlingPays(s, a, o);
      StartsIffReported(s, a, o);
    }
    hide *;
  }

  lemma SettlingPays(s: Sys, a: Action, o: OrderId)
    requires a.Settle? && !IsPaid(s.facts.db, o) && IsPaid(Next(s, a).facts.db, o)
    ensures Settles(s, a) == Some((o, Paid))
  {
    SettleMakesHistory(s, a);
    hide Next, Settles, Starts, Notes;
  }

  lemma StartsIffReported(s: Sys, a: Action, o: OrderId)
    requires Inv(s) && a.Settle? && Settles(s, a) == Some((o, Paid))
    ensures a.fate == Commits <==> Starts(s, a) == Some(o)
  {
    PayingIsAnswered(s, a.p);
    hide Inv, SettleResult;
  }

  /** Only an answer settles as PAID. */
  lemma PayingIsAnswered(s: Sys, p: Pid)
    requires Inv(s) && p in s.procs && (s.procs[p].Settling? || s.procs[p].Committing?)
    ensures s.procs[p].outcome.status == Some(Paid) ==> s.procs[p].caller.ForAnswer?
  {
    assert ProcOk(s.facts, p, s.procs[p]);
  }

  /** Exactly when PAID implies a fulfilment: over any run, one action has paid a PAID order, and
      the order has its fulfilment process if and only if that commit was reported as successful. */
  lemma {:induction false} FulfilledIffReported(actions: seq<Action>, o: OrderId) returns (k: nat)
    requires IsPaid(Run(INITIAL, actions).facts.db, o)
    ensures k < |actions| && actions[k].Settle? && Settles(Run(INITIAL, actions[..k]), actions[k]) == Some((o, Paid))
    ensures o in Run(INITIAL, actions).facts.owner <==> actions[k].fate == Commits
  {
    k := 0;
    if actions == [] {
      assert false;
    } else {
      var front, a := actions[..|actions| - 1], actions[|actions| - 1];
      var s := Run(INITIAL, front);
      StillReachable(front);
      hide Next, Reachable, Inv, IsPaid, Settles, Starts;
      ReachableInv(s);
      if IsPaid(s.facts.db, o) {
        k := FulfilledIffReported(front, o);
        assert front[..k] == actions[..k];
        OwnerStands(s, a, o);
      } else {
        k := |front|;
        PaidBySettling(s, a, o);
        OwnerComes(s, a, o);
      }
    }
  }

  lemma OwnerStands(s: Sys, a: Action, o: OrderId)
    requires IsPaid(s.facts.db, o)
    ensures o in Next(s, a).facts.owner <==> o in s.facts.owner
  {
    OwnersAndWinners(s, a);
    hide Next, Settles, Starts;
  }

  lemma OwnerComes(s: Sys, a: Action, o: OrderId)
    requires Reachable(s) && !IsPaid(s.facts.db, o)
    ensures o in Next(s, a).facts.owner <==> Starts(s, a) == Some(o)
  {
    OwnersAndWinners(s, a);
    Guarantees.ReachableDb(s);
    hide Next, Settles, Starts, Reachable;
    assert FulfilmentsOk(s.facts.db, s.facts.owner, s.facts.log);
  }

  /** So in a run whose settling commits are all reported truthfully, every PAID order has its
      fulfilment process, which was started exactly once. */
  lemma PaidIsStarted(actions: seq<Action>, o: OrderId)
    requires SettlesHonestly(actions) && IsPaid(Run(INITIAL, actions).facts.db, o)
    ensures var f := Run(INITIAL, actions).facts; o in f.owner && StartedCount(f.log, o) == 1
  {
    var k := FulfilledIffReported(actions, o);
    ReportedIfSettled(Run(INITIAL, actions[..k]), actions[k]);
    assert actions[k] in actions;
    StillReachable(actions);
    hide Run, Settles, Reachable, IsPaid, StartedCount;
    OwnedIsStarted(Run(INITIAL, actions), o);
  }

  lemma ReportedIfSettled(s: Sys, a: Action)
    requires a.Settle? && Settles(s, a).Some?
    ensures a.fate != RollsBack
  {
    hide SettleResult;
  }

  lemma StillReachable(actions: seq<Action>)
    ensures Reachable(Run(INITIAL, actions))
  { }

  lemma OwnedIsStarted(s: Sys, o: OrderId)
    requires Reachable(s) && o in s.facts.owner
    ensures StartedCount(s.facts.log, o) == 1
  {
    Guarantees.ReachableDb(s);
    assert FulfilmentsOk(s.facts.db, s.facts.owner, s.facts.log);
  }

  // --- A fulfilment that ends without an error has delivered -----------------------------------

  /** The places a fulfilment process of order o may be in. */
  ghost predicate FulfilPlace(log: seq<Event>, proc: Proc, o: OrderId) {
    match proc
    case FulfilCalled(x) => x == o
    case FulfilListed(x, _) => x == o
    case FulfilIssuing(x, _) => x == o
    case FulfilRelisting(x) => x == o
    case DeliveryCalled(x) => x == o
    case DeliveryLoaded(x) => x == o
    case Sending(x, _) => x == o
    case MarkingSent(x) => x == o && WasEmailed(log, o)
    case Finished(reply) => reply == Failure || (reply == Done && WasEmailed(log, o))
    case _ => false
  }

  ghost predicate OwnersPlaced(s: Sys) {
    forall o: OrderId :: o in s.facts.owner ==>
      s.facts.owner[o] in s.procs && FulfilPlace(s.facts.log, s.procs[s.facts.owner[o]], o)
  }

  lemma PlaceStable(a: seq<Event>, b: seq<Event>, proc: Proc, o: OrderId)
    requires FulfilPlace(a, proc, o) && a <= b
    ensures FulfilPlace(b, proc, o)
  {
    if WasEmailed(a, o) {
      WasEmailedStable(a, b, o);
    }
    hide WasEmailed;
  }

  lemma SendMoves(s: Sys, a: Action, o: OrderId)
    requires a.Send? && a.p in s.procs && FulfilPlace(s.facts.log, s.procs[a.p], o)
    ensures a.p in Next(s, a).procs && FulfilPlace(Next(s, a).facts.log, Next(s, a).procs[a.p], o)
  {
    if s.procs[a.p].Sending? && a.delivered {
      assert Emailed(o, s.procs[a.p].codes) in Next(s, a).facts.log;
    }
  }

  lemma WritingMoves(s: Sys, a: Action, o: OrderId)
    requires (a.Issue? || a.MarkSent?) && a.p in s.procs && FulfilPlace(s.facts.log, s.procs[a.p], o)
    ensures a.p in Next(s, a).procs && FulfilPlace(Next(s, a).facts.log, Next(s, a).procs[a.p], o)
  {
    hide WasEmailed, InsertTickets;
  }

  lemma ReadingMoves(s: Sys, a: Action, o: OrderId)
    requires IsOtherMove(a) && a.p in s.procs && FulfilPlace(s.facts.log, s.procs[a.p], o)
    ensures a.p in Next(s, a).procs && FulfilPlace(Next(s, a).facts.log, Next(s, a).procs[a.p], o)
  {
    hide WasEmailed, JoinedCodes, TicketsOf, AttendeesOf;
  }

  /** No other action of its own moves a fulfilment process. */
  lemma NoOtherMoves(s: Sys, a: Action, o: OrderId)
    requires Mover(a).Some? && !a.Send? && !a.Issue? && !a.MarkSent? && !IsOtherMove(a)
    requires a.p in s.procs && FulfilPlace(s.facts.log, s.procs[a.p], o)
    ensures Next(s, a) == s
  {
    hide WasEmailed, Accepts;
  }

  /** A fulfilment process moves only along its own places. */
  lemma FulfilMoves(s: Sys, a: Action, o: OrderId)
    requires Mover(a).Some? && a.p in s.procs && FulfilPlace(s.facts.log, s.procs[a.p], o)
    ensures a.p in Next(s, a).procs && FulfilPlace(Next(s, a).facts.log, Next(s, a).procs[a.p], o)
  {
    if a.Send? {
      SendMoves(s, a, o);
    } else if a.Issue? || a.MarkSent? {
      WritingMoves(s, a, o);
    } else if IsOtherMove(a) {
      ReadingMoves(s, a, o);
    } else {
      NoOtherMoves(s, a, o);
    }
    hide *;
  }

  lemma OwnersStayPlaced(s: Sys, a: Action)
    requires Inv(s) && OwnersPlaced(s)
    ensures OwnersPlaced(Next(s, a))
  {
    NextKeeps(s, a);
    LogGrows(s, Next(s, a));
    forall o: OrderId | o in Next(s, a).facts.owner
      ensures var t := Next(s, a);
              t.facts.owner[o] in t.procs && FulfilPlace(t.facts.log, t.procs[t.facts.owner[o]], o)
    {
      OwnerStaysPlaced(s, a, o);
    }
    hide *;
    EveryOwnerPlaced(Next(s, a));
  }

  lemma EveryOwnerPlaced(t: Sys)
    requires forall o: OrderId :: o in t.facts.owner ==>
               t.facts.owner[o] in t.procs && FulfilPlace(t.facts.log, t.procs[t.facts.owner[o]], o)
    ensures OwnersPlaced(t)
  { }

  lemma OwnerStaysPlaced(s: Sys, a: Action, o: OrderId)
    requires OwnersPlaced(s) && s.facts.log <= Next(s, a).facts.log && o in Next(s, a).facts.owner
    ensures var t := Next(s, a);
            t.facts.owner[o] in t.procs && FulfilPlace(t.facts.log, t.procs[t.facts.owner[o]], o)
  {
    OwnersAndWinners(s, a);
    hide Next, FulfilPlace, Settles, Starts;
    if Starts(s, a) == Some(o) {
      StartedPlace(s, a, o);
    } else {
      OwnerPlaced(s, a, o);
    }
  }

  lemma LogGrows(s: Sys, t: Sys)
    requires Later(s, t)
    ensures s.facts.log <= t.facts.log
  { }

  lemma StartedPlace(s: Sys, a: Action, o: OrderId)
    requires Starts(s, a) == Some(o)
    ensures var t := Next(s, a); a.child in t.procs && FulfilPlace(t.facts.log, t.procs[a.child], o)
  {
    hide SettleResult, Resume;
  }

  lemma OwnerPlaced(s: Sys, a: Action, o: OrderId)
    requires o in s.facts.owner && s.facts.owner[o] in s.procs
    requires FulfilPlace(s.facts.log, s.procs[s.facts.owner[o]], o) && s.facts.log <= Next(s, a).facts.log
    ensures var t, q := Next(s, a), s.facts.owner[o]; q in t.procs && FulfilPlace(t.facts.log, t.procs[q], o)
  {
    hide Next, FulfilPlace;
    var q := s.facts.owner[o];
    if Mover(a) == Some(q) {
      FulfilMoves(s, a, o);
    } else {
      OtherLeavesInPlace(s, a, q);
      PlaceStable(s.facts.log, Next(s, a).facts.log, s.procs[q], o);
    }
  }

  lemma {:induction false} ReachableOwnersPlaced(actions: seq<Action>)
    ensures OwnersPlaced(Run(INITIAL, actions))
  {
    if actions != [] {
      hide Next, Inv, OwnersPlaced;
      var front := actions[..|actions| - 1];
      ReachableOwnersPlaced(front);
      StillReachable(front);
      ReachableInv(Run(INITIAL, front));
      OwnersStayPlaced(Run(INITIAL, front), actions[|actions| - 1]);
    }
  }

  /** PAID implies fulfilled: in a run whose settling commits are all reported truthfully, every
      PAID order has a fulfilment process, and if that has ended without an error then the order
      has one ticket per attendee and an email with all of them was delivered. */
  lemma PaidIsFulfilled(actions: seq<Action>, o: OrderId)
    requires SettlesHonestly(actions) && IsPaid(Run(INITIAL, actions).facts.db, o)
    ensures var s := Run(INITIAL, actions);
            && o in s.facts.owner && s.facts.owner[o] in s.procs
            && FulfilPlace(s.facts.log, s.procs[s.facts.owner[o]], o)
            && (s.procs[s.facts.owner[o]] == Finished(Done) ==>
                  && FullyIssued(s.facts.db, o)
                  && Emailed(o, Codes(TicketsOf(s.facts.db.tickets, o))) in s.facts.log)
  {
    var s := Run(INITIAL, actions);
    PaidIsStarted(actions, o);
    ReachableOwnersPlaced(actions);
    StillReachable(actions);
    hide Run, Next, Reachable, Inv;
    if s.procs[s.facts.owner[o]] == Finished(Done) {
      var codes :| Emailed(o, codes) in s.facts.log;
      Guarantees.EmailsAgree(s, o, codes, codes);
    }
  }

  // --- And no further ----------------------------------------------------------------------------

  const SOLD_TYPE: TicketType := TicketType(1, 100, 5, 0, 0)
  const ONE_TICKET: CheckoutRequest :=
    CheckoutRequest(true, true, true, [CheckoutItem(1, 1)], [CheckoutAttendee(1, true, true)])
  const SETTLED: Answer := Answer("A", "settlement", "")

  /** A checkout of one ticket, and a notification that it is paid, whose settling commit takes
      effect and is reported as an error. */
  const UNREPORTED: seq<Action> := [
    CreateEvent(1), CreateType(1, SOLD_TYPE), StartCheckout(0, ONE_TICKET), Reserve(0, "A", Commits),
    StartAnswer(1, SETTLED), LoadOrder(1), Record(1, Commits), Decide(1), Settle(1, CommitsUnreported, 2)]

  lemma SettledPays()
    ensures OutcomeOf(SETTLED) == PAYS
  {
    Text.TrimOf("", "settlement", "");
    assert "" + "settlement" + "" == "settlement";
    assert Text.ToLower("settlement") == "settlement";
  }

  lemma OneTicketAccepted()
    ensures Accepts(ONE_TICKET)
  {
    var items, types := ONE_TICKET.items, Types(ONE_TICKET.attendees);
    assert types == [1] && [1][..0] == [];
    assert CountOf(types, 1) == 1;
    assert items[0].typ == 1;
  }

  lemma OneTicketReserved(db: Db)
    requires db == EMPTY.(events := {1}, types := map[1 := SOLD_TYPE])
    ensures var line := Line(1, 1, 100);
            ReserveTx(db, 0, "A", ONE_TICKET)
            == Ok(ReserveDone(db.(types := map[1 := SOLD_TYPE.(quota := 4)], orders := [NewOrder("A", 100)],
                                  items := [ItemRow(0, 1, 1, 100)], attendees := [AttendeeRow(0, 1)]), 0, [line]))
  {
    var items := ONE_TICKET.items;
    assert items[..0] == [];
    assert map[1 := SOLD_TYPE][1 := SOLD_TYPE.(quota := 4)] == map[1 := SOLD_TYPE.(quota := 4)];
    assert [] + [Line(1, 1, 100)] == [Line(1, 1, 100)];
    assert ReserveLines(db.types, 0, items) == Ok(Reservation(map[1 := SOLD_TYPE.(quota := 4)], [Line(1, 1, 100)]));
    assert [Line(1, 1, 100)][..0] == [];
    assert Amount([Line(1, 1, 100)]) == 100;
    assert ItemRows(0, [Line(1, 1, 100)]) == [ItemRow(0, 1, 1, 100)];
    assert Types(ONE_TICKET.attendees) == [1];
    assert AttendeeRows(0, [1]) == [AttendeeRow(0, 1)];
    hide ReserveLines, Amount, ItemRows, AttendeeRows, Types;
    assert [] + [NewOrder("A", 100)] == [NewOrder("A", 100)];
    assert [] + [ItemRow(0, 1, 1, 100)] == [ItemRow(0, 1, 1, 100)];
    assert [] + [AttendeeRow(0, 1)] == [AttendeeRow(0, 1)];
  }

  lemma RunStep(s: Sys, actions: seq<Action>, k: nat)
    requires k < |actions|
    ensures Run(s, actions[..k + 1]) == Next(Run(s, actions[..k]), actions[k])
  {
    assert actions[..k + 1][..k] == actions[..k];
  }

  lemma FirstSteps() returns (s: Sys)
    ensures s == Run(INITIAL, UNREPORTED[..3])
    ensures s == Sys(Facts(EMPTY.(events := {1}, types := map[1 := SOLD_TYPE]), map[1 := 5], map[], map[], []), 0,
                     map[0 := Reserving(ONE_TICKET, ORDER_NUMBER_ATTEMPTS)])
  {
    OneTicketAccepted();
    hide Accepts;
    s := Run(INITIAL, UNREPORTED[..3]);
    RunStep(INITIAL, UNREPORTED, 0);
    RunStep(INITIAL, UNREPORTED, 1);
    RunStep(INITIAL, UNREPORTED, 2);
    assert Run(INITIAL, UNREPORTED[..0]) == INITIAL;
    assert {} + {1} == {1};
    assert map[][1 := SOLD_TYPE] == map[1 := SOLD_TYPE];
  }

  /** The one order, PENDING; nobody has settled or fulfils it. */
  ghost predicate OneOrder(f: Facts) {
    f.db.orders == [NewOrder("A", 100)] && f.winner == map[] && f.owner == map[]
  }

  const THE_ORDER: OrderRef := OrderRef(0, "A", Pending, None)

  lemma PlacedStep(s: Sys)
    requires s.facts.db == EMPTY.(events := {1}, types := map[1 := SOLD_TYPE]) && s.clock == 0
    requires s.facts.winner == map[] && s.facts.owner == map[]
    requires s.procs == map[0 := Reserving(ONE_TICKET, ORDER_NUMBER_ATTEMPTS)]
    ensures var t := Next(s, Reserve(0, "A", Commits)); OneOrder(t.facts) && t.procs.Keys == {0}
  {
    OneTicketReserved(s.facts.db);
    CommittedStep(s, ReserveTx(s.facts.db, 0, "A", ONE_TICKET).value);
    hide *;
  }

  lemma CommittedStep(s: Sys, done: ReserveDone)
    requires s.facts.winner == map[] && s.facts.owner == map[] && s.clock == 0
    requires s.procs == map[0 := Reserving(ONE_TICKET, ORDER_NUMBER_ATTEMPTS)]
    requires ReserveTx(s.facts.db, 0, "A", ONE_TICKET) == Ok(done) && done.db.orders == [NewOrder("A", 100)]
    ensures var t := Next(s, Reserve(0, "A", Commits)); OneOrder(t.facts) && t.procs.Keys == {0}
  {
    hide ReserveTx;
  }

  lemma NotifiedStep(s: Sys)
    requires OneOrder(s.facts) && s.procs.Keys == {0}
    ensures var t := Next(s, StartAnswer(1, SETTLED));
            OneOrder(t.facts) && t.procs.Keys == {0, 1} && t.procs[1] == Answered(SETTLED)
  { }

  lemma FoundStep(s: Sys)
    requires OneOrder(s.facts) && s.procs.Keys == {0, 1} && s.procs[1] == Answered(SETTLED)
    ensures var t := Next(s, LoadOrder(1));
            OneOrder(t.facts) && t.procs.Keys == {0, 1} && t.procs[1] == Recording(Webhook, THE_ORDER, SETTLED, false)
  {
    assert FindByNumber(s.facts.db.orders, "A") == Some(0);
  }

  lemma RecordedStep(s: Sys)
    requires OneOrder(s.facts) && s.procs.Keys == {0, 1} && s.procs[1] == Recording(Webhook, THE_ORDER, SETTLED, false)
    ensures var t := Next(s, Record(1, Commits));
            OneOrder(t.facts) && t.procs.Keys == {0, 1} && t.procs[1] == Deciding(Webhook, THE_ORDER, SETTLED, false)
  { }

  lemma DecidedStep(s: Sys)
    requires OneOrder(s.facts) && s.procs.Keys == {0, 1} && s.procs[1] == Deciding(Webhook, THE_ORDER, SETTLED, false)
    ensures var t := Next(s, Decide(1));
            OneOrder(t.facts) && t.procs.Keys == {0, 1} && t.procs[1] == Settling(ForAnswer(Webhook, false), THE_ORDER, PAYS)
  {
    SettledPays();
    hide OutcomeOf;
  }

  lemma SettledStep(s: Sys)
    requires OneOrder(s.facts) && s.procs.Keys == {0, 1} && s.procs[1] == Settling(ForAnswer(Webhook, false), THE_ORDER, PAYS)
    ensures var t := Next(s, Settle(1, CommitsUnreported, 2)); IsPaid(t.facts.db, 0) && 0 !in t.facts.owner
  {
    assert IsPending(s.facts.db, 0);
    hide RestoreLines, LinesOf;
  }

  lemma UnreportedRun()
    ensures var s := Run(INITIAL, UNREPORTED); IsPaid(s.facts.db, 0) && 0 !in s.facts.owner
  {
    var s3 := FirstSteps();
    RunSteps();
    PlacedStep(s3);
    hide *;
    NotifiedStep(Run(INITIAL, UNREPORTED[..4]));
    FoundStep(Run(INITIAL, UNREPORTED[..5]));
    RecordedStep(Run(INITIAL, UNREPORTED[..6]));
    DecidedStep(Run(INITIAL, UNREPORTED[..7]));
    SettledStep(Run(INITIAL, UNREPORTED[..8]));
  }

  lemma RunSteps()
    ensures Run(INITIAL, UNREPORTED[..4]) == Next(Run(INITIAL, UNREPORTED[..3]), Reserve(0, "A", Commits))
    ensures Run(INITIAL, UNREPORTED[..5]) == Next(Run(INITIAL, UNREPORTED[..4]), StartAnswer(1, SETTLED))
    ensures Run(INITIAL, UNREPORTED[..6]) == Next(Run(INITIAL, UNREPORTED[..5]), LoadOrder(1))
    ensures Run(INITIAL, UNREPORTED[..7]) == Next(Run(INITIAL, UNREPORTED[..6]), Record(1, Commits))
    ensures Run(INITIAL, UNREPORTED[..8]) == Next(Run(INITIAL, UNREPORTED[..7]), Decide(1))
    ensures Run(INITIAL, UNREPORTED) == Next(Run(INITIAL, UNREPORTED[..8]), Settle(1, CommitsUnreported, 2))
  {
    hide Run, Next;
    assert UNREPORTED[..9] == UNREPORTED;
    RunStep(INITIAL, UNREPORTED, 3);
    RunStep(INITIAL, UNREPORTED, 4);
    RunStep(INITIAL, UNREPORTED, 5);
    RunStep(INITIAL, UNREPORTED, 6);
    RunStep(INITIAL, UNREPORTED, 7);
    RunStep(INITIAL, UNREPORTED, 8);
  }

  /** The witness: a PAID order, reached by an ordinary run, that no process fulfils and that
      never gets a ticket, whatever comes after. */
  lemma PaidWithoutFulfilment(actions: seq<Action>)
    ensures var s := Run(INITIAL, UNREPORTED); IsPaid(s.facts.db, 0) && 0 !in s.facts.owner
    ensures var t := Run(Run(INITIAL, UNREPORTED), actions); 0 !in t.facts.owner && TicketsOf(t.facts.db.tickets, 0) == []
  {
    UnreportedRun();
    StillReachable(UNREPORTED);
    var s := Run(INITIAL, UNREPORTED);
    hide Run, Next, Reachable;
    Guarantees.NeverFulfilled(s, actions, 0);
  }
}
