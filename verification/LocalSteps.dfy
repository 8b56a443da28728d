/** Actions that only move one process on: the invariant survives every one of them. */
module LocalSteps {
  import opened Wrappers
  import opened Schema
  import opened ProviderStatus
  import opened Transactions
  import opened System
  import opened Invariant

  /** The action leaves everything but process p as it was, and that process as it may be. */
  ghost predicate Local(s: Sys, t: Sys, p: Pid) {
    t == s || (p in t.procs && t == Put(s, p, t.procs[p]) && ProcOk(s.facts, p, t.procs[p]))
  }

  lemma LocalKeeps(s: Sys, t: Sys, p: Pid)
    requires Inv(s) && Local(s, t, p)
    ensures Inv(t) && Later(s, t)
  {
    if t == s {
      LaterReflexive(s);
    } else {
      LocalStep(s, p, t.procs[p]);
    }
  }

  /** What process p knows, if there is one. */
  ghost predicate Knows(s: Sys, p: Pid) {
    p in s.procs ==> ProcOk(s.facts, p, s.procs[p])
  }

  /** An order number finds the one order that has it. */
  lemma FindUnique(orders: seq<Order>, o: OrderId)
    requires NumbersUnique(orders) && o < |orders|
    ensures FindByNumber(orders, orders[o].number) == Some(o)
  {
    assert orders[o].number == orders[o].number;
  }

  lemma LookupOk(s: Sys, p: Pid, answer: Answer, number: string)
    ensures ProcOk(s.facts, p, AfterLookup(s.facts.db.orders, answer)) && ProcOk(s.facts, p, AfterLoad(s.facts.db.orders, number))
  { }

  lemma LoadOrderLocal(s: Sys, p: Pid)
    ensures Local(s, DoLoadOrder(s, p), p)
  {
    if p in s.procs && s.procs[p].Answered? {
      LookupOk(s, p, s.procs[p].answer, "");
    } else if p in s.procs && s.procs[p].RefreshCalled? {
      LookupOk(s, p, Answer("", "", ""), s.procs[p].number);
    }
  }

  lemma CheckDueLocal(s: Sys, p: Pid)
    requires Knows(s, p)
    ensures Local(s, DoCheckDue(s, p), p)
  {
    if p in s.procs && s.procs[p].RefreshLoaded? {
      var t := DoCheckDue(s, p);
      assert t == Put(s, p, t.procs[p]);
      assert ProcOk(s.facts, p, t.procs[p]);
    }
  }

  lemma FetchAnswerLocal(s: Sys, p: Pid, answer: Answer)
    requires Knows(s, p)
    ensures Local(s, Next(s, FetchAnswer(p, answer)), p)
  {
    if p in s.procs && s.procs[p].RefreshAsking? {
      assert ProcOk(s.facts, p, Recording(Refresh, s.procs[p].ord, answer, s.procs[p].wasDue));
    }
  }

  lemma DecideLocal(s: Sys, p: Pid)
    requires Knows(s, p)
    ensures Local(s, DoDecide(s, p), p)
  {
    if p in s.procs && s.procs[p].Deciding? {
      var t := DoDecide(s, p);
      assert t == Put(s, p, t.procs[p]);
      var r := s.procs[p];
      var outcome := OutcomeOf(r.answer);
      if outcome.status == Some(Paid) {
        assert PaymentRow(r.ord.id, r.answer) in s.facts.db.payments;
        assert PaymentRecorded(s.facts.db.payments, r.ord.id);
      }
      assert ProcOk(s.facts, p, t.procs[p]);
    }
  }

  lemma ReadLinesLocal(s: Sys, p: Pid)
    requires Knows(s, p)
    ensures Local(s, DoReadLines(s, p), p)
  {
    if p in s.procs && s.procs[p].Settling? {
      var t := DoReadLines(s, p);
      assert t == Put(s, p, t.procs[p]);
      assert ProcOk(s.facts, p, t.procs[p]);
    }
  }

  lemma RereadLocal(s: Sys, p: Pid)
    requires Knows(s, p) && NumbersUnique(s.facts.db.orders)
    ensures Local(s, DoReread(s, p), p)
  {
    if p in s.procs && s.procs[p].Rereading? {
      var ord := s.procs[p].ord;
      FindUnique(s.facts.db.orders, ord.id);
      var proc := Finished(Refreshed(ord.id, s.facts.db.orders[ord.id].status, s.procs[p].changed));
      assert DoReread(s, p) == Put(s, p, proc);
      assert ProcOk(s.facts, p, proc);
    }
  }

  lemma ListDueLocal(s: Sys, p: Pid, batch: seq<OrderRef>)
    requires Knows(s, p)
    ensures Local(s, Next(s, ListDue(p, batch)), p)
  {
    if p in s.procs && s.procs[p].SweepCalled? && IsDueBatch(s.facts.db.orders, s.clock, batch) {
      assert forall r <- batch :: RefOk(s.facts.db, r);
      assert ProcOk(s.facts, p, Sweeping(batch));
    }
  }

  lemma NextOk(s: Sys, p: Pid, rest: seq<OrderRef>)
    requires forall r <- rest :: RefOk(s.facts.db, r)
    ensures ProcOk(s.facts, p, AfterNext(rest, s.clock))
  { }

  lemma NextDueLocal(s: Sys, p: Pid)
    requires Knows(s, p)
    ensures Local(s, DoNextDue(s, p), p)
  {
    if p in s.procs && s.procs[p].Sweeping? {
      NextOk(s, p, s.procs[p].rest);
    }
  }

  lemma ListAttendeesLocal(s: Sys, p: Pid)
    requires Knows(s, p)
    ensures Local(s, DoListAttendees(s, p), p)
  { }

  lemma CheckIssuedLocal(s: Sys, p: Pid)
    requires Knows(s, p)
    ensures Local(s, DoCheckIssued(s, p), p)
  { }

  lemma RelistLocal(s: Sys, p: Pid)
    requires Knows(s, p)
    ensures Local(s, DoRelist(s, p), p)
  { }

  lemma LoadDeliveryLocal(s: Sys, p: Pid)
    requires Knows(s, p)
    ensures Local(s, DoLoadDelivery(s, p), p)
  {
    if p in s.procs && s.procs[p].DeliveryCalled? {
      var t := DoLoadDelivery(s, p);
      assert t == Put(s, p, t.procs[p]) && ProcOk(s.facts, p, t.procs[p]);
    }
  }

  /** With all references intact the inner join loses no ticket. */
  lemma {:induction false} JoinIsComplete(db: Db, rows: seq<TicketRow>)
    requires RefsOk(db) && forall r <- rows :: r in db.tickets
    ensures JoinedCodes(db, rows) == Codes(rows)
  {
    if rows != [] {
      var last := rows[|rows| - 1];
      JoinIsComplete(db, rows[..|rows| - 1]);
      assert last in db.tickets;
      assert db.attendees[last.attendee] in db.attendees;
      assert Codes(rows) == Codes(rows[..|rows| - 1]) + [last.code];
    }
  }

  lemma LoadTicketsLocal(s: Sys, p: Pid)
    requires Knows(s, p) && RefsOk(s.facts.db) && IssuedOk(s.facts.db)
    ensures Local(s, DoLoadTickets(s, p), p)
  {
    if p in s.procs && s.procs[p].DeliveryLoaded? {
      var o := s.procs[p].o;
      TicketsOfAreRows(s.facts.db.tickets, o);
      JoinIsComplete(s.facts.db, TicketsOf(s.facts.db.tickets, o));
      var t := DoLoadTickets(s, p);
      assert t == Put(s, p, t.procs[p]) && ProcOk(s.facts, p, t.procs[p]);
    }
  }

  lemma PaymentLocal(s: Sys, p: Pid, qr: string, deadline: Option<int>)
    requires Knows(s, p)
    ensures Local(s, Next(s, PaymentOpens(p, qr, deadline)), p) && Local(s, Next(s, PaymentFails(p)), p)
  {
    if p in s.procs && s.procs[p].OpeningPayment? {
      assert ProcOk(s.facts, p, Stamping(s.procs[p].id, qr, deadline));
      assert ProcOk(s.facts, p, Compensating(s.procs[p].id, s.procs[p].lines));
    }
  }

  lemma StartLocal(s: Sys, p: Pid, proc: Proc)
    requires ProcOk(s.facts, p, proc)
    ensures Local(s, Spawn(s, p, proc), p)
  { }

  lemma AbortLocal(s: Sys, p: Pid)
    requires Knows(s, p)
    ensures Local(s, Next(s, Abort(p)), p)
  {
    assert ProcOk(s.facts, p, Finished(Failure));
  }
}
