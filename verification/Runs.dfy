/** Induction over runs: the invariant holds in every reachable state, and nothing settled,
    frozen, issued or admitted is ever taken back. */
module Runs {
  import opened Wrappers
  import opened Schema
  import opened Request
  import opened System
  import opened Invariant
  import opened LocalSteps
  import opened SettleSteps
  import opened ReserveSteps
  import opened RowSteps
  import opened TicketSteps
  import opened CatalogSteps

  lemma InvKnows(s: Sys, p: Pid)
    requires Inv(s)
    ensures Knows(s, p) && NumbersUnique(s.facts.db.orders) && RefsOk(s.facts.db) && IssuedOk(s.facts.db)
  { }

  lemma SpawnKeeps(s: Sys, p: Pid, proc: Proc)
    requires Inv(s) && ProcOk(s.facts, p, proc)
    ensures Inv(Spawn(s, p, proc)) && Later(s, Spawn(s, p, proc))
  {
    StartLocal(s, p, proc);
    hide Inv, Later, Local, ProcOk;
    LocalKeeps(s, Spawn(s, p, proc), p);
  }

  /** Starting a process. */
  lemma StartKeeps(s: Sys, a: Action)
    requires Inv(s)
    requires a.StartCheckout? || a.StartAnswer? || a.StartRefresh? || a.StartSweep? || a.StartResend?
    ensures Inv(Next(s, a)) && Later(s, Next(s, a))
  {
    LaterReflexive(s);
    hide Inv, Later, Accepts, Spawn;
    match a
    case StartCheckout(p, req) => if Accepts(req) { SpawnKeeps(s, p, Reserving(req, ORDER_NUMBER_ATTEMPTS)); }
    case StartAnswer(p, answer) => SpawnKeeps(s, p, Answered(answer));
    case StartRefresh(p, number) => SpawnKeeps(s, p, RefreshCalled(number));
    case StartSweep(p) => SpawnKeeps(s, p, SweepCalled);
    case StartResend(p, o) => SpawnKeeps(s, p, DeliveryCalled(o));
  }

  /** The moves that touch no row: each leads its process to a place it may be in. */
  lemma LoadOrderKeeps(s: Sys, p: Pid)
    requires Inv(s)
    ensures Inv(DoLoadOrder(s, p)) && Later(s, DoLoadOrder(s, p))
  {
    hide *;
    InvKnows(s, p);
    LoadOrderLocal(s, p);
    LocalKeeps(s, DoLoadOrder(s, p), p);
  }

  lemma CheckDueKeeps(s: Sys, p: Pid)
    requires Inv(s)
    ensures Inv(DoCheckDue(s, p)) && Later(s, DoCheckDue(s, p))
  {
    hide *;
    InvKnows(s, p);
    CheckDueLocal(s, p);
    LocalKeeps(s, DoCheckDue(s, p), p);
  }

  lemma DecideKeeps(s: Sys, p: Pid)
    requires Inv(s)
    ensures Inv(DoDecide(s, p)) && Later(s, DoDecide(s, p))
  {
    hide *;
    InvKnows(s, p);
    DecideLocal(s, p);
    LocalKeeps(s, DoDecide(s, p), p);
  }

  lemma ReadLinesKeeps(s: Sys, p: Pid)
    requires Inv(s)
    ensures Inv(DoReadLines(s, p)) && Later(s, DoReadLines(s, p))
  {
    hide *;
    InvKnows(s, p);
    ReadLinesLocal(s, p);
    LocalKeeps(s, DoReadLines(s, p), p);
  }

  lemma RereadKeeps(s: Sys, p: Pid)
    requires Inv(s)
    ensures Inv(DoReread(s, p)) && Later(s, DoReread(s, p))
  {
    hide *;
    InvKnows(s, p);
    RereadLocal(s, p);
    LocalKeeps(s, DoReread(s, p), p);
  }

  lemma NextDueKeeps(s: Sys, p: Pid)
    requires Inv(s)
    ensures Inv(DoNextDue(s, p)) && Later(s, DoNextDue(s, p))
  {
    hide *;
    InvKnows(s, p);
    NextDueLocal(s, p);
    LocalKeeps(s, DoNextDue(s, p), p);
  }

  lemma ListAttendeesKeeps(s: Sys, p: Pid)
    requires Inv(s)
    ensures Inv(DoListAttendees(s, p)) && Later(s, DoListAttendees(s, p))
  {
    hide *;
    InvKnows(s, p);
    ListAttendeesLocal(s, p);
    LocalKeeps(s, DoListAttendees(s, p), p);
  }

  lemma CheckIssuedKeeps(s: Sys, p: Pid)
    requires Inv(s)
    ensures Inv(DoCheckIssued(s, p)) && Later(s, DoCheckIssued(s, p))
  {
    hide *;
    InvKnows(s, p);
    CheckIssuedLocal(s, p);
    LocalKeeps(s, DoCheckIssued(s, p), p);
  }

  lemma RelistKeeps(s: Sys, p: Pid)
    requires Inv(s)
    ensures Inv(DoRelist(s, p)) && Later(s, DoRelist(s, p))
  {
    hide *;
    InvKnows(s, p);
    RelistLocal(s, p);
    LocalKeeps(s, DoRelist(s, p), p);
  }

  lemma LoadDeliveryKeeps(s: Sys, p: Pid)
    requires Inv(s)
    ensures Inv(DoLoadDelivery(s, p)) && Later(s, DoLoadDelivery(s, p))
  {
    hide *;
    InvKnows(s, p);
    LoadDeliveryLocal(s, p);
    LocalKeeps(s, DoLoadDelivery(s, p), p);
  }

  lemma LoadTicketsKeeps(s: Sys, p: Pid)
    requires Inv(s)
    ensures Inv(DoLoadTickets(s, p)) && Later(s, DoLoadTickets(s, p))
  {
    hide *;
    InvKnows(s, p);
    LoadTicketsLocal(s, p);
    LocalKeeps(s, DoLoadTickets(s, p), p);
  }

  lemma PaymentOpensKeeps(s: Sys, p: Pid, qr: string, deadline: Option<int>)
    requires Inv(s)
    ensures Inv(Next(s, PaymentOpens(p, qr, deadline))) && Later(s, Next(s, PaymentOpens(p, qr, deadline)))
  {
    hide *;
    InvKnows(s, p);
    PaymentLocal(s, p, qr, deadline);
    LocalKeeps(s, Next(s, PaymentOpens(p, qr, deadline)), p);
  }

  lemma PaymentFailsKeeps(s: Sys, p: Pid)
    requires Inv(s)
    ensures Inv(Next(s, PaymentFails(p))) && Later(s, Next(s, PaymentFails(p)))
  {
    hide *;
    InvKnows(s, p);
    PaymentLocal(s, p, "", None);
    LocalKeeps(s, Next(s, PaymentFails(p)), p);
  }

  lemma FetchAnswerKeeps(s: Sys, p: Pid, answer: Answer)
    requires Inv(s)
    ensures Inv(Next(s, FetchAnswer(p, answer))) && Later(s, Next(s, FetchAnswer(p, answer)))
  {
    hide *;
    InvKnows(s, p);
    FetchAnswerLocal(s, p, answer);
    LocalKeeps(s, Next(s, FetchAnswer(p, answer)), p);
  }

  lemma ListDueKeeps(s: Sys, p: Pid, batch: seq<OrderRef>)
    requires Inv(s)
    ensures Inv(Next(s, ListDue(p, batch))) && Later(s, Next(s, ListDue(p, batch)))
  {
    hide *;
    InvKnows(s, p);
    ListDueLocal(s, p, batch);
    LocalKeeps(s, Next(s, ListDue(p, batch)), p);
  }

  lemma AbortKeeps(s: Sys, p: Pid)
    requires Inv(s)
    ensures Inv(Next(s, Abort(p))) && Later(s, Next(s, Abort(p)))
  {
    hide *;
    InvKnows(s, p);
    AbortLocal(s, p);
    LocalKeeps(s, Next(s, Abort(p)), p);
  }

  lemma TickKeeps(s: Sys, elapsed: nat)
    requires Inv(s)
    ensures Inv(s.(clock := s.clock + elapsed)) && Later(s, s.(clock := s.clock + elapsed))
  {
    LaterReflexive(s);
    hide FactsOk, ProcOk, FactsLater;
  }

  lemma AnswerMoveKeeps(s: Sys, a: Action)
    requires Inv(s)
    requires a.PaymentOpens? || a.PaymentFails? || a.LoadOrder? || a.CheckDue? || a.FetchAnswer? || a.Decide?
             || a.ReadLines? || a.Reread?
    ensures Inv(Next(s, a)) && Later(s, Next(s, a))
  {
    hide Inv, Later;
    match a
    case PaymentOpens(p, qr, deadline) => PaymentOpensKeeps(s, p, qr, deadline);
    case PaymentFails(p) => PaymentFailsKeeps(s, p);
    case LoadOrder(p) => LoadOrderKeeps(s, p);
    case CheckDue(p) => CheckDueKeeps(s, p);
    case FetchAnswer(p, answer) => FetchAnswerKeeps(s, p, answer);
    case Decide(p) => DecideKeeps(s, p);
    case ReadLines(p) => ReadLinesKeeps(s, p);
    case Reread(p) => RereadKeeps(s, p);
  }

  lemma OtherMoveKeeps(s: Sys, a: Action)
    requires Inv(s)
    requires a.ListDue? || a.NextDue? || a.ListAttendees? || a.CheckIssued? || a.Relist? || a.LoadDelivery? || a.LoadTickets?
             || a.Abort?
    ensures Inv(Next(s, a)) && Later(s, Next(s, a))
  {
    hide Inv, Later;
    match a
    case ListDue(p, batch) => ListDueKeeps(s, p, batch);
    case NextDue(p) => NextDueKeeps(s, p);
    case ListAttendees(p) => ListAttendeesKeeps(s, p);
    case CheckIssued(p) => CheckIssuedKeeps(s, p);
    case Relist(p) => RelistKeeps(s, p);
    case LoadDelivery(p) => LoadDeliveryKeeps(s, p);
    case LoadTickets(p) => LoadTicketsKeeps(s, p);
    case Abort(p) => AbortKeeps(s, p);
  }

  lemma CatalogActionKeeps(s: Sys, a: Action)
    requires Inv(s)
    requires a.Tick? || a.CreateEvent? || a.DeleteEvent? || a.CreateType? || a.UpdateType? || a.DeleteType? || a.AdmitTicket?
    ensures Inv(Next(s, a)) && Later(s, Next(s, a))
  {
    hide Inv, Later;
    match a
    case Tick(elapsed) => TickKeeps(s, elapsed);
    case CreateEvent(e) => CreateEventKeeps(s, e);
    case DeleteEvent(e) => DeleteEventKeeps(s, e);
    case CreateType(t, row) => CreateTypeKeeps(s, t, row);
    case UpdateType(t, row) => UpdateTypeKeeps(s, t, row);
    case DeleteType(t) => DeleteTypeKeeps(s, t);
    case AdmitTicket(code) => DoAdmitKeeps(s, code);
  }

  lemma CommitKeeps(s: Sys, a: Action)
    requires Inv(s)
    requires a.Reserve? || a.Compensate? || a.Stamp? || a.Record? || a.Settle? || a.Issue? || a.Send? || a.MarkSent?
    ensures Inv(Next(s, a)) && Later(s, Next(s, a))
  {
    hide Inv, Later;
    match a
    case Reserve(p, number, fate) => DoReserveKeeps(s, p, number, fate);
    case Compensate(p, fate) => CompensateKeeps(s, p, fate);
    case Stamp(p, fate) => DoStampKeeps(s, p, fate);
    case Record(p, fate) => DoRecordKeeps(s, p, fate);
    case Settle(p, fate, child) => DoSettleKeeps(s, p, fate, child);
    case Issue(p, codes, fate) => DoIssueKeeps(s, p, codes, fate);
    case Send(p, delivered, reported) => DoSendKeeps(s, p, delivered, reported);
    case MarkSent(p, fate) => DoMarkSentKeeps(s, p, fate);
  }

  /** Every action of every process keeps the invariant and takes nothing back. */
  lemma NextKeeps(s: Sys, a: Action)
    requires Inv(s)
    ensures Inv(Next(s, a)) && Later(s, Next(s, a))
  {
    if a.Tick? || a.CreateEvent? || a.DeleteEvent? || a.CreateType? || a.UpdateType? || a.DeleteType? || a.AdmitTicket? {
      CatalogActionKeeps(s, a);
    } else if a.Reserve? || a.Compensate? || a.Stamp? || a.Record? || a.Settle? || a.Issue? || a.Send? || a.MarkSent? {
      CommitKeeps(s, a);
    } else if a.StartCheckout? || a.StartAnswer? || a.StartRefresh? || a.StartSweep? || a.StartResend? {
      StartKeeps(s, a);
    } else if a.ListDue? || a.NextDue? || a.ListAttendees? || a.CheckIssued? || a.Relist? || a.LoadDelivery?
              || a.LoadTickets? || a.Abort? {
      OtherMoveKeeps(s, a);
    } else {
      AnswerMoveKeeps(s, a);
    }
    hide *;
  }

  lemma InitialInv()
    ensures Inv(INITIAL)
  { }

  /** Whatever actions follow, the invariant holds and everything recorded before still does. */
  lemma {:induction false} RunKeeps(s: Sys, actions: seq<Action>)
    requires Inv(s)
    ensures Inv(Run(s, actions)) && Later(s, Run(s, actions))
  {
    if actions == [] {
      LaterReflexive(s);
    } else {
      var before := Run(s, actions[..|actions| - 1]);
      RunKeeps(s, actions[..|actions| - 1]);
      NextKeeps(before, actions[|actions| - 1]);
      hide Inv, Later;
      LaterTransitive(s, before, Run(s, actions));
    }
  }

  lemma ReachableInv(s: Sys)
    requires Reachable(s)
    ensures Inv(s)
  {
    var actions :| s == Run(INITIAL, actions);
    InitialInv();
    RunKeeps(INITIAL, actions);
  }
}
