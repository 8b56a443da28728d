/** Why a fulfilment fails: a process that fulfils an order ends with an error exactly if one of its
    own moves went wrong, so without faults PAID implies fulfilled. */
module FulfilmentFaults {
  import opened Wrappers
  import opened Schema
  import opened Request
  import opened Transactions
  import opened System
  import opened Invariant
  import opened LocalSteps
  import opened ReserveSteps
  import opened TicketSteps
  import opened Runs
  import opened History
  import opened Additions
  import opened Placements
  import opened Fulfilments

  // --- Every order has an attendee --------------------------------------------------------------

  ghost predicate Attended(db: Db) {
    forall o: OrderId :: o < |db.orders| ==> AttendeeTypes(db.attendees, o) != []
  }

  /** An accepted request has an attendee. */
  lemma AcceptedAttended(req: CheckoutRequest)
    requires Accepts(req)
    ensures Types(req.attendees) != []
  {
    assert req.items[0] in req.items;
    assert CountOf(Types(req.attendees), req.items[0].typ) >= 1;
  }

  lemma NewOrderAttended(s: Sys, a: Action)
    requires Inv(s) && Attended(s.facts.db) && Places(s, a)
    ensures Attended(Next(s, a).facts.db)
  {
    var db, req := s.facts.db, s.procs[a.p].req;
    var done := ReserveTx(db, s.clock, a.number, req).value;
    assert Next(s, a).facts.db == done.db by {
      hide ReserveTx, Inv;
    }
    assert ProcOk(s.facts, a.p, s.procs[a.p]);
    assert QuotasOk(db.types) && RefsOk(db);
    hide Inv, ReserveTx, Next, QuotasOk, RefsOk;
    AcceptedAttended(req);
    hide Accepts;
    ReserveRows(db, s.clock, a.number, req, done);
    AddedAttended(db, s.clock, a.number, req, done);
  }

  lemma AddedAttended(db: Db, now: int, number: string, req: CheckoutRequest, done: ReserveDone)
    requires RefsOk(db) && Attended(db) && ReservedRows(db, now, number, req, done) && Types(req.attendees) != []
    ensures Attended(done.db)
  {
    NewOrderRows(db, done.id, done.lines, Types(req.attendees));
    forall o: OrderId | o < |db.orders| {
      OlderOrdersSame(db, done.id, done.lines, Types(req.attendees), o);
    }
    hide RefsOk, Types, ItemRows, AttendeeRows, Amount;
  }

  lemma {:induction false} ReachableAttended(actions: seq<Action>)
    ensures Attended(Run(INITIAL, actions).facts.db)
  {
    if actions != [] {
      var front, last := actions[..|actions| - 1], actions[|actions| - 1];
      var s := Run(INITIAL, front);
      ReachableAttended(front);
      StillReachable(front);
      ReachableInv(s);
      if Places(s, last) {
        NewOrderAttended(s, last);
      } else {
        OrdersAdded(s, last);
        assert Attended(Next(s, last).facts.db) by {
          hide Next, Places, Inv;
        }
      }
      hide Next, Inv, Places, Attended;
    }
  }

  lemma {:induction false} AsManyAttendees(attendees: seq<AttendeeRow>, o: OrderId)
    ensures |AttendeesOf(attendees, o)| == |AttendeeTypes(attendees, o)|
  {
    if attendees != [] {
      AsManyAttendees(attendees[..|attendees| - 1], o);
    }
  }

  // --- What can go wrong ---------------------------------------------------------------------------

  /** The codes of this issuing transaction collide, or it is rolled back. */
  predicate IssueFails(s: Sys, a: Action) {
    && a.Issue? && a.p in s.procs && s.procs[a.p].FulfilIssuing? && |a.codes| == |s.procs[a.p].ids|
    && (a.fate == RollsBack || Collide(s.facts.db.tickets, a.codes))
  }

  /** The send does not deliver, or is reported as an error. */
  predicate SendFails(s: Sys, a: Action) {
    a.Send? && a.p in s.procs && s.procs[a.p].Sending? && !(a.delivered && a.reported)
  }

  /** A read fails, or the process is stopped. */
  predicate Stops(s: Sys, a: Action) {
    a.Abort? && a.p in s.procs && !s.procs[a.p].Finished?
  }

  predicate GoesWrong(s: Sys, a: Action) {
    IssueFails(s, a) || SendFails(s, a) || Stops(s, a)
  }

  /** Some move of process q in the run from the start went wrong. */
  predicate MetFault(actions: seq<Action>, q: Pid) {
    actions != []
    && (|| MetFault(actions[..|actions| - 1], q)
        || (GoesWrong(Run(INITIAL, actions[..|actions| - 1]), actions[|actions| - 1]) && actions[|actions| - 1].p == q))
  }

  // --- Where a fulfilment is ---------------------------------------------------------------------

  predicate HasTickets(db: Db, o: OrderId) {
    TicketsOf(db.tickets, o) != []
  }

  /** The places of the fulfilment of order o before anything went wrong. */
  predicate Smooth(db: Db, proc: Proc, o: OrderId) {
    match proc
    case FulfilCalled(x) => x == o
    case FulfilListed(x, _) => x == o
    case FulfilIssuing(x, _) => x == o
    case FulfilRelisting(x) => x == o && HasTickets(db, o)
    case DeliveryCalled(x) => x == o && HasTickets(db, o)
    case DeliveryLoaded(x) => x == o && HasTickets(db, o)
    case Sending(x, _) => x == o
    case MarkingSent(x) => x == o
    case Finished(reply) => reply == Done
    case _ => false
  }

  /** And after. */
  predicate Broken(db: Db, proc: Proc, o: OrderId) {
    proc == Finished(Failure) || (proc == FulfilRelisting(o) && !HasTickets(db, o))
  }

  /** Its own move leaves a smooth process smooth exactly if it does not go wrong. */
  ghost predicate StepsAs(s: Sys, a: Action, o: OrderId)
    requires Mover(a).Some?
  {
    && a.p in Next(s, a).procs
    && var t := Next(s, a);
       if GoesWrong(s, a) then Broken(t.facts.db, t.procs[a.p], o) else Smooth(t.facts.db, t.procs[a.p], o)
  }

  ghost predicate Moving(s: Sys, a: Action, o: OrderId) {
    && Mover(a).Some? && a.p in s.procs && o in s.facts.owner && s.facts.owner[o] == a.p
    && Smooth(s.facts.db, s.procs[a.p], o)
  }

  /** What the invariant says of an issuing process, and the rows it will find. */
  ghost predicate Issuable(f: Facts, p: Pid, o: OrderId, ids: seq<AttendeeId>) {
    && o in f.owner && f.owner[o] == p && o < |f.db.orders| && f.db.orders[o].status == Paid
    && ids == AttendeesOf(f.db.attendees, o) && !HasTickets(f.db, o) && CodesUnique(f.db.tickets)
  }

  ghost predicate Issuers(s: Sys) {
    forall p :: p in s.procs && s.procs[p].FulfilIssuing? ==> Issuable(s.facts, p, s.procs[p].o, s.procs[p].ids)
  }

  /** And of a fulfilment at its reads. */
  ghost predicate Readable(s: Sys, o: OrderId) {
    && RefsOk(s.facts.db) && o < |s.facts.db.orders| && s.facts.db.orders[o].status == Paid
    && AttendeesOf(s.facts.db.attendees, o) != []
    && (o in s.facts.owner && s.facts.owner[o] in s.procs && s.procs[s.facts.owner[o]].FulfilListed?
        && s.procs[s.facts.owner[o]].o == o ==>
          s.procs[s.facts.owner[o]].ids != [] && !HasTickets(s.facts.db, o))
  }

  lemma IssuersKnow(s: Sys)
    requires Inv(s)
    ensures Issuers(s)
  {
    forall p | p in s.procs && s.procs[p].FulfilIssuing? ensures Issuable(s.facts, p, s.procs[p].o, s.procs[p].ids) {
      assert ProcOk(s.facts, p, s.procs[p]);
      IssuingOk(s.facts, p, s.procs[p].o, s.procs[p].ids);
    }
    hide Inv;
  }

  lemma OwnedPaid(s: Sys, o: OrderId)
    requires Inv(s) && o in s.facts.owner
    ensures o < |s.facts.db.orders| && s.facts.db.orders[o].status == Paid && RefsOk(s.facts.db)
  {
    assert FulfilmentsOk(s.facts.db, s.facts.owner, s.facts.log);
  }

  lemma ListedKnow(s: Sys, p: Pid)
    requires Inv(s) && p in s.procs && s.procs[p].FulfilListed?
    ensures s.procs[p].ids == AttendeesOf(s.facts.db.attendees, s.procs[p].o) && !HasTickets(s.facts.db, s.procs[p].o)
  {
    assert ProcOk(s.facts, p, s.procs[p]);
    hide Inv;
  }

  lemma OwnersKnow(s: Sys, o: OrderId)
    requires Inv(s) && Attended(s.facts.db) && o in s.facts.owner
    ensures Readable(s, o)
  {
    hide Inv, RefsOk, HasTickets, AttendeesOf, AttendeeTypes;
    OwnedPaid(s, o);
    AsManyAttendees(s.facts.db.attendees, o);
    var q := s.facts.owner[o];
    if q in s.procs && s.procs[q].FulfilListed? {
      ListedKnow(s, q);
    }
    hide *;
    ReadableIs(s, o);
  }

  lemma ReadableIs(s: Sys, o: OrderId)
    requires RefsOk(s.facts.db) && o < |s.facts.db.orders| && s.facts.db.orders[o].status == Paid
    requires AttendeesOf(s.facts.db.attendees, o) != [] && o in s.facts.owner
    requires var q := s.facts.owner[o];
             q in s.procs && s.procs[q].FulfilListed? ==>
               && s.procs[q].ids == AttendeesOf(s.facts.db.attendees, s.procs[q].o)
               && !HasTickets(s.facts.db, s.procs[q].o)
    ensures Readable(s, o)
  {
    hide RefsOk, HasTickets, AttendeesOf;
  }

  lemma Stepped(s: Sys, a: Action, o: OrderId, db: Db, proc: Proc)
    requires Mover(a).Some? && a.p in Next(s, a).procs && Next(s, a).procs[a.p] == proc && Next(s, a).facts.db == db
    requires if GoesWrong(s, a) then Broken(db, proc, o) else Smooth(db, proc, o)
    ensures StepsAs(s, a, o)
  {
    hide Next, GoesWrong, Broken, Smooth;
  }

  /** What an issuing transaction leaves. */
  lemma Issued(s: Sys, p: Pid, o: OrderId, ids: seq<AttendeeId>, codes: seq<string>, fate: Fate)
    requires p in s.procs && s.procs[p] == FulfilIssuing(o, ids) && |codes| == |ids|
    ensures var t, r := Next(s, Issue(p, codes, fate)), IssueTx(s.facts.db, o, ids, codes);
            && p in t.procs
            && t.procs[p] == (if r.Applied? && fate == Commits then DeliveryCalled(o) else FulfilRelisting(o))
            && t.facts.db == if r.Applied? && fate != RollsBack then r.db else s.facts.db
  {
    hide IssueTx;
  }

  lemma NotIssuing(s: Sys, p: Pid, codes: seq<string>, fate: Fate)
    requires !(p in s.procs && s.procs[p].FulfilIssuing? && |codes| == |s.procs[p].ids|)
    ensures Next(s, Issue(p, codes, fate)) == s
  { }

  lemma IssuingSteps(s: Sys, a: Action, o: OrderId, ids: seq<AttendeeId>)
    requires a.Issue? && a.p in s.procs && s.procs[a.p] == FulfilIssuing(o, ids) && |a.codes| == |ids|
    requires var r := IssueTx(s.facts.db, o, ids, a.codes);
             if Collide(s.facts.db.tickets, a.codes) then r == Failed else r.Applied? && HasTickets(r.db, o)
    requires !HasTickets(s.facts.db, o)
    ensures StepsAs(s, a, o)
  {
    Issued(s, a.p, o, ids, a.codes, a.fate);
    assert a == Issue(a.p, a.codes, a.fate);
    hide Next, IssueTx, Collide, HasTickets;
    var r := IssueTx(s.facts.db, o, ids, a.codes);
    Stepped(s, a, o, if r.Applied? && a.fate != RollsBack then r.db else s.facts.db,
            if r.Applied? && a.fate == Commits then DeliveryCalled(o) else FulfilRelisting(o));
    hide *;
  }

  lemma NotIssuingSteps(s: Sys, a: Action, o: OrderId)
    requires a.Issue? && Moving(s, a, o) && !(s.procs[a.p].FulfilIssuing? && |a.codes| == |s.procs[a.p].ids|)
    ensures StepsAs(s, a, o)
  {
    hide HasTickets;
  }

  /** An issuing transaction that does not go wrong issues. */
  lemma IssueSteps(s: Sys, a: Action, o: OrderId)
    requires Issuers(s) && Readable(s, o) && Moving(s, a, o) && a.Issue?
    ensures StepsAs(s, a, o)
  {
    if s.procs[a.p].FulfilIssuing? && |a.codes| == |s.procs[a.p].ids| {
      var ids := s.procs[a.p].ids;
      assert s.procs[a.p] == FulfilIssuing(o, ids) && Issuable(s.facts, a.p, o, ids);
      hide RefsOk, Next, IssueTx, Collide, HasTickets, CodesUnique, Readable;
      IssuesUnless(s.facts.db, o, ids, a.codes);
      IssuingSteps(s, a, o, ids);
    } else {
      NotIssuingSteps(s, a, o);
    }
    hide *;
  }

  /** Codes that do not collide are issued. */
  lemma IssuesUnless(db: Db, o: OrderId, ids: seq<AttendeeId>, codes: seq<string>)
    requires o < |db.orders| && db.orders[o].status == Paid && !HasTickets(db, o) && CodesUnique(db.tickets)
    requires ids == AttendeesOf(db.attendees, o) && ids != [] && |codes| == |ids|
    ensures var r := IssueTx(db, o, ids, codes);
            if Collide(db.tickets, codes) then r == Failed else r.Applied? && HasTickets(r.db, o)
  {
    AttendeesOfAreRows(db.attendees, o);
    IssueTxIff(db, o, ids, codes);
    NeverSkipped(db, o, ids, codes);
    if IssueTx(db, o, ids, codes).Applied? {
      IssuedHas(db, o, codes);
    }
    hide IssueTx, Collide, HasTickets, CodesUnique, AttendeesOf;
  }

  lemma NeverSkipped(db: Db, o: OrderId, ids: seq<AttendeeId>, codes: seq<string>)
    requires |codes| == |ids|
    ensures IssueTx(db, o, ids, codes) != Skipped
  { }

  lemma IssuedHas(db: Db, o: OrderId, codes: seq<string>)
    requires o < |db.orders| && db.orders[o].status == Paid && !HasTickets(db, o) && CodesUnique(db.tickets)
    requires AttendeesOf(db.attendees, o) != [] && |codes| == |AttendeesOf(db.attendees, o)|
    requires IssueTx(db, o, AttendeesOf(db.attendees, o), codes).Applied?
    ensures HasTickets(IssueTx(db, o, AttendeesOf(db.attendees, o), codes).db, o)
  {
    var after := IssueTx(db, o, AttendeesOf(db.attendees, o), codes).db;
    IssueRows(db, o, codes, after);
    IssuedTickets(db, o, after, o);
    hide IssueTx, TicketsOf, AttendeesOf;
    assert |Holders(TicketsOf(after.tickets, o))| != 0;
  }

  lemma SendSteps(s: Sys, a: Action, o: OrderId)
    requires Moving(s, a, o) && a.Send?
    ensures StepsAs(s, a, o)
  {
    hide HasTickets;
  }

  lemma MarkSteps(s: Sys, a: Action, o: OrderId)
    requires Moving(s, a, o) && a.MarkSent?
    ensures StepsAs(s, a, o)
  {
    hide TicketsOf;
  }

  lemma JoinedSome(db: Db, o: OrderId)
    requires RefsOk(db) && HasTickets(db, o)
    ensures JoinedCodes(db, TicketsOf(db.tickets, o)) != []
  {
    TicketsOfAreRows(db.tickets, o);
    JoinIsComplete(db, TicketsOf(db.tickets, o));
    assert |Codes(TicketsOf(db.tickets, o))| != 0;
  }

  lemma ListSteps(s: Sys, a: Action, o: OrderId)
    requires Moving(s, a, o) && a.ListAttendees?
    ensures StepsAs(s, a, o)
  {
    hide AttendeesOf, HasTickets;
  }

  lemma CheckSteps(s: Sys, a: Action, o: OrderId)
    requires Readable(s, o) && Moving(s, a, o) && a.CheckIssued?
    ensures StepsAs(s, a, o)
  {
    hide TicketsOf, RefsOk, AttendeesOf;
  }

  lemma RelistSteps(s: Sys, a: Action, o: OrderId)
    requires Moving(s, a, o) && a.Relist?
    ensures StepsAs(s, a, o)
  {
    hide TicketsOf;
  }

  lemma LoadSteps(s: Sys, a: Action, o: OrderId)
    requires Readable(s, o) && Moving(s, a, o) && a.LoadDelivery?
    ensures StepsAs(s, a, o)
  {
    hide HasTickets, RefsOk, AttendeesOf;
  }

  lemma JoinSteps(s: Sys, a: Action, o: OrderId)
    requires Readable(s, o) && Moving(s, a, o) && a.LoadTickets?
    ensures StepsAs(s, a, o)
  {
    hide HasTickets, JoinedCodes, TicketsOf, RefsOk, AttendeesOf;
    if s.procs[a.p].DeliveryLoaded? {
      JoinedSome(s.facts.db, o);
    }
  }

  lemma StopSteps(s: Sys, a: Action, o: OrderId)
    requires Moving(s, a, o) && (a.Abort? || a.ListDue? || a.NextDue?)
    ensures StepsAs(s, a, o)
  {
    hide HasTickets, IsDueBatch, AfterNext;
  }

  /** No read of a fulfilment finds nothing. */
  lemma ReadSteps(s: Sys, a: Action, o: OrderId)
    requires Readable(s, o) && Moving(s, a, o) && IsOtherMove(a)
    ensures StepsAs(s, a, o)
  {
    if a.ListAttendees? {
      ListSteps(s, a, o);
    } else if a.CheckIssued? {
      CheckSteps(s, a, o);
    } else if a.Relist? {
      RelistSteps(s, a, o);
    } else if a.LoadDelivery? {
      LoadSteps(s, a, o);
    } else if a.LoadTickets? {
      JoinSteps(s, a, o);
    } else {
      StopSteps(s, a, o);
    }
    hide *;
  }

  lemma OtherOwnSteps(s: Sys, a: Action, o: OrderId)
    requires Moving(s, a, o) && !a.Send? && !a.Issue? && !a.MarkSent? && !IsOtherMove(a)
    ensures StepsAs(s, a, o)
  {
    hide Accepts, HasTickets;
  }

  lemma OwnSteps(s: Sys, a: Action, o: OrderId)
    requires Issuers(s) && Readable(s, o) && Moving(s, a, o)
    ensures StepsAs(s, a, o)
  {
    if a.Issue? {
      IssueSteps(s, a, o);
    } else if a.Send? {
      SendSteps(s, a, o);
    } else if a.MarkSent? {
      MarkSteps(s, a, o);
    } else if IsOtherMove(a) {
      ReadSteps(s, a, o);
    } else {
      OtherOwnSteps(s, a, o);
    }
    hide *;
  }

  /** A process that broke stays broken whatever it does. */
  lemma BrokenStays(s: Sys, a: Action, o: OrderId)
    requires Mover(a).Some? && a.p in s.procs && Broken(s.facts.db, s.procs[a.p], o)
    ensures a.p in Next(s, a).procs && Broken(Next(s, a).facts.db, Next(s, a).procs[a.p], o)
  {
    hide Accepts, TicketsOf, AttendeesOf, JoinedCodes, AfterNext;
  }

  // --- What others do ------------------------------------------------------------------------------

  lemma AdmittingKeeps(db: Db, code: string, o: OrderId)
    ensures HasTickets(db.(tickets := Admit(db.tickets, code)), o) <==> HasTickets(db, o)
  {
    AdmitTicketsOf(db.tickets, code, o);
  }

  lemma AdmitLeavesTickets(s: Sys, code: string, o: OrderId)
    ensures HasTickets(Next(s, AdmitTicket(code)).facts.db, o) <==> HasTickets(s.facts.db, o)
  {
    AdmittingKeeps(s.facts.db, code, o);
    hide HasTickets, Admit, Admissible;
  }

  lemma OthersIssue(s: Sys, a: Action, o: OrderId)
    requires Issuers(s) && a.Issue? && o in s.facts.owner && s.facts.owner[o] != a.p
    ensures HasTickets(Next(s, a).facts.db, o) <==> HasTickets(s.facts.db, o)
  {
    hide Next, HasTickets, IssueTx, CodesUnique;
    var p, codes, fate := a.p, a.codes, a.fate;
    assert a == Issue(p, codes, fate);
    if p in s.procs && s.procs[p].FulfilIssuing? && |codes| == |s.procs[p].ids| {
      var x, ids := s.procs[p].o, s.procs[p].ids;
      assert Issuable(s.facts, p, x, ids);
      Issued(s, p, x, ids, codes, fate);
      OtherTickets(s.facts.db, x, ids, codes, o);
    } else {
      NotIssuing(s, p, codes, fate);
    }
  }

  lemma OtherTickets(db: Db, x: OrderId, ids: seq<AttendeeId>, codes: seq<string>, o: OrderId)
    requires x < |db.orders| && db.orders[x].status == Paid && !HasTickets(db, x) && CodesUnique(db.tickets)
    requires ids == AttendeesOf(db.attendees, x) && |codes| == |ids| && o != x
    ensures var r := IssueTx(db, x, ids, codes); r.Applied? ==> (HasTickets(r.db, o) <==> HasTickets(db, o))
  {
    var r := IssueTx(db, x, ids, codes);
    if r.Applied? {
      IssueRows(db, x, codes, r.db);
      IssuedTickets(db, x, r.db, o);
    }
    hide IssueTx, CodesUnique, AttendeesOf, TicketsOf;
  }

  /** Only its own process issues an order's tickets. */
  lemma OthersLeaveTickets(s: Sys, a: Action, o: OrderId)
    requires Issuers(s) && o in s.facts.owner && Mover(a) != Some(s.facts.owner[o])
    ensures HasTickets(Next(s, a).facts.db, o) <==> HasTickets(s.facts.db, o)
  {
    if a.Issue? {
      OthersIssue(s, a, o);
    } else if a.AdmitTicket? {
      assert a == AdmitTicket(a.code);
      AdmitLeavesTickets(s, a.code, o);
    } else {
      TicketsUntouched(s, a);
    }
    hide HasTickets, Next, Issuers;
  }

  // --- Runs ------------------------------------------------------------------------------------------

  /** The fulfilment process of order o is where its faults say. */
  ghost predicate InLine(actions: seq<Action>, o: OrderId) {
    var s := Run(INITIAL, actions);
    o in s.facts.owner ==> OnLine(s, o, s.facts.owner[o], MetFault(actions, s.facts.owner[o]))
  }

  ghost predicate OnLine(s: Sys, o: OrderId, q: Pid, fault: bool) {
    q in s.procs && if fault then Broken(s.facts.db, s.procs[q], o) else Smooth(s.facts.db, s.procs[q], o)
  }

  /** A process that is not there has met no fault. */
  lemma {:induction false} NoFaultYet(actions: seq<Action>, q: Pid)
    requires q !in Run(INITIAL, actions).procs
    ensures !MetFault(actions, q)
  {
    if actions != [] {
      var front, last := actions[..|actions| - 1], actions[|actions| - 1];
      if q in Run(INITIAL, front).procs {
        StaysThere(Run(INITIAL, front), last, q);
      }
      NoFaultYet(front, q);
      if GoesWrong(Run(INITIAL, front), last) {
        WrongIsThere(Run(INITIAL, front), last);
      }
      hide Next, GoesWrong;
    }
  }

  lemma WrongIsThere(s: Sys, a: Action)
    requires GoesWrong(s, a)
    ensures Mover(a) == Some(a.p) && a.p in s.procs
  { }

  lemma StaysThere(s: Sys, a: Action, q: Pid)
    requires q in s.procs
    ensures q in Next(s, a).procs
  {
    CheckoutStep(s, a, q);
    hide Next;
  }

  /** Its fulfilment starts at the beginning. */
  lemma StartedSmooth(s: Sys, a: Action, o: OrderId)
    requires Starts(s, a) == Some(o)
    ensures a.child !in s.procs && OnLine(Next(s, a), o, a.child, false) && !GoesWrong(s, a)
  {
    hide SettleResult, Resume, HasTickets;
  }

  lemma OtherKeepsLine(s: Sys, a: Action, o: OrderId, q: Pid, fault: bool)
    requires Issuers(s) && o in s.facts.owner && s.facts.owner[o] == q && Mover(a) != Some(q) && OnLine(s, o, q, fault)
    ensures OnLine(Next(s, a), o, q, fault)
  {
    OthersLeaveTickets(s, a, o);
    OtherLeavesInPlace(s, a, q);
    SameLine(s.facts.db, Next(s, a).facts.db, s.procs[q], o);
    hide Next, HasTickets, Smooth, Broken;
  }

  lemma SameLine(a: Db, b: Db, proc: Proc, o: OrderId)
    requires HasTickets(a, o) <==> HasTickets(b, o)
    ensures Smooth(a, proc, o) <==> Smooth(b, proc, o)
    ensures Broken(a, proc, o) <==> Broken(b, proc, o)
  {
    hide HasTickets;
  }

  lemma FaultNext(actions: seq<Action>, q: Pid)
    requires actions != []
    ensures var front, last := actions[..|actions| - 1], actions[|actions| - 1];
            && (MetFault(actions, q) <==>
                MetFault(front, q) || (GoesWrong(Run(INITIAL, front), last) && Mover(last) == Some(q)))
            && Run(INITIAL, actions) == Next(Run(INITIAL, front), last)
  {
    hide Next;
    if GoesWrong(Run(INITIAL, actions[..|actions| - 1]), actions[|actions| - 1]) {
      WrongIsThere(Run(INITIAL, actions[..|actions| - 1]), actions[|actions| - 1]);
    }
  }

  lemma OwnerMoves(s: Sys, a: Action, o: OrderId, fault: bool)
    requires Issuers(s) && Readable(s, o) && o in s.facts.owner && Mover(a) == Some(s.facts.owner[o])
    requires OnLine(s, o, a.p, fault)
    ensures OnLine(Next(s, a), o, a.p, fault || GoesWrong(s, a))
  {
    if fault {
      BrokenStays(s, a, o);
      BrokenLine(s, a, o);
    } else {
      OwnSteps(s, a, o);
      SmoothLine(s, a, o);
    }
    hide *;
  }

  lemma SmoothLine(s: Sys, a: Action, o: OrderId)
    requires Mover(a).Some? && StepsAs(s, a, o)
    ensures OnLine(Next(s, a), o, a.p, GoesWrong(s, a))
  {
    hide Next, GoesWrong, Smooth, Broken;
  }

  lemma BrokenLine(s: Sys, a: Action, o: OrderId)
    requires Mover(a).Some? && a.p in Next(s, a).procs && Broken(Next(s, a).facts.db, Next(s, a).procs[a.p], o)
    ensures OnLine(Next(s, a), o, a.p, true)
  {
    hide Next, Smooth, Broken;
  }

  lemma LineStep(s: Sys, a: Action, o: OrderId, q: Pid, was: bool, fault: bool)
    requires Issuers(s) && o in Next(s, a).facts.owner && Next(s, a).facts.owner[o] == q
    requires o in s.facts.owner ==> Readable(s, o) && OnLine(s, o, s.facts.owner[o], was)
    requires q !in s.procs ==> !was
    requires fault <==> was || (GoesWrong(s, a) && Mover(a) == Some(q))
    ensures OnLine(Next(s, a), o, q, fault)
  {
    hide Next, Issuers, Readable, GoesWrong, Starts, Settles, OnLine;
    OwnersAndWinners(s, a);
    if GoesWrong(s, a) {
      WrongIsThere(s, a);
    }
    if Starts(s, a) == Some(o) {
      StartedSmooth(s, a, o);
    } else if Mover(a) == Some(q) {
      OwnerMoves(s, a, o, was);
    } else {
      OtherKeepsLine(s, a, o, q, was);
    }
    hide *;
  }

  /** The process in line stays in line. */
  lemma LineNext(actions: seq<Action>, o: OrderId)
    requires actions != []
    requires var s := Run(INITIAL, actions[..|actions| - 1]);
             InLine(actions[..|actions| - 1], o) && Inv(s) && Attended(s.facts.db)
    ensures InLine(actions, o)
  {
    hide Run, Next, Inv, Attended, Issuers, Readable, MetFault, GoesWrong, OnLine, Later;
    var front, last := actions[..|actions| - 1], actions[|actions| - 1];
    var s, t := Run(INITIAL, front), Run(INITIAL, actions);
    if o in t.facts.owner {
      var q := t.facts.owner[o];
      FaultNext(actions, q);
      NextKeeps(s, last);
      OwnerStays(s, t, o);
      IssuersKnow(s);
      if o in s.facts.owner {
        OwnersKnow(s, o);
      }
      if q !in s.procs {
        NoFaultYet(front, q);
      }
      LineStep(s, last, o, q, MetFault(front, q), MetFault(actions, q));
    }
    hide *;
    InLineIs(actions, o);
  }

  lemma OwnerStays(s: Sys, t: Sys, o: OrderId)
    requires Later(s, t)
    ensures o in s.facts.owner ==> o in t.facts.owner && t.facts.owner[o] == s.facts.owner[o]
  { }

  lemma InLineIs(actions: seq<Action>, o: OrderId)
    requires var f := Run(INITIAL, actions).facts;
             o in f.owner ==> OnLine(Run(INITIAL, actions), o, f.owner[o], MetFault(actions, f.owner[o]))
    ensures InLine(actions, o)
  {
    hide Run, OnLine, MetFault;
  }

  lemma {:induction false} ReachableInLine(actions: seq<Action>, o: OrderId)
    ensures InLine(actions, o)
  {
    if actions != [] {
      var front := actions[..|actions| - 1];
      ReachableInLine(front, o);
      ReachableAttended(front);
      StillReachable(front);
      ReachableInv(Run(INITIAL, front));
      hide *;
      LineNext(actions, o);
    }
  }

  /** Over any run, a fulfilment that has ended has ended with an error exactly if a move of its
      own went wrong: it was stopped or a read of its failed, its issuing transaction was rolled
      back or drew a code that was taken, or its email was not delivered or reported as failed. */
  lemma FailsIffFault(actions: seq<Action>, o: OrderId)
    requires o in Run(INITIAL, actions).facts.owner
    ensures var s := Run(INITIAL, actions);
            var q := s.facts.owner[o];
            && q in s.procs
            && (s.procs[q] == Finished(Failure) ==> MetFault(actions, q))
            && (s.procs[q] == Finished(Done) ==> !MetFault(actions, q))
            && (s.procs[q].Finished? ==> s.procs[q].reply in {Done, Failure})
  {
    ReachableInLine(actions, o);
    hide Run, HasTickets, MetFault;
  }

  /** So in a run whose settling commits are all reported truthfully, every PAID order whose
      fulfilment meets no fault and has ended has one ticket per attendee and an email with all of
      them was delivered. */
  lemma PaidIsDelivered(actions: seq<Action>, o: OrderId)
    requires SettlesHonestly(actions) && IsPaid(Run(INITIAL, actions).facts.db, o)
    ensures var s := Run(INITIAL, actions);
            && o in s.facts.owner && s.facts.owner[o] in s.procs
            && var proc := s.procs[s.facts.owner[o]];
               proc.Finished? && !MetFault(actions, s.facts.owner[o]) ==>
                 && FullyIssued(s.facts.db, o)
                 && Emailed(o, Codes(TicketsOf(s.facts.db.tickets, o))) in s.facts.log
  {
    PaidIsFulfilled(actions, o);
    FailsIffFault(actions, o);
    hide Run, MetFault, FullyIssued;
  }
}
