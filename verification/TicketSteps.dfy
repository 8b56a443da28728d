/** Issuing an order's tickets, sending them, and admitting one at the door. */
module TicketSteps {
  import opened Schema
  import opened Transactions
  import opened System
  import opened Invariant
  import opened SettleSteps
  import opened ReserveSteps
  import opened RowSteps

  // --- Issuance -----------------------------------------------------------------------

  /** One ACTIVE ticket per attendee of the order, in order, with fresh distinct codes. */
  ghost predicate IssuedRows(a: Db, o: OrderId, b: Db) {
    var ids := AttendeesOf(a.attendees, o);
    && o < |a.orders| && a.orders[o].status == Paid && TicketsOf(a.tickets, o) == []
    && b == a.(tickets := b.tickets)
    && a.tickets <= b.tickets && |b.tickets| == |a.tickets| + |ids|
    && CodesUnique(b.tickets)
    && forall i :: 0 <= i < |ids| ==> IssuedRow(b.tickets[|a.tickets| + i], o, ids[i])
  }

  predicate IssuedRow(row: TicketRow, o: OrderId, id: AttendeeId) {
    row.order == o && row.attendee == id && row.status == Active
  }

  lemma IssueRows(a: Db, o: OrderId, codes: seq<string>, b: Db)
    requires o < |a.orders| && a.orders[o].status == Paid && TicketsOf(a.tickets, o) == []
    requires CodesUnique(a.tickets) && |codes| == |AttendeesOf(a.attendees, o)|
    requires IssueTx(a, o, AttendeesOf(a.attendees, o), codes) == Applied(b)
    ensures IssuedRows(a, o, b)
  {
    InsertTicketsEffect(a.tickets, o, AttendeesOf(a.attendees, o), codes);
  }

  lemma {:induction false} TicketsOfOwn(rows: seq<TicketRow>, o: OrderId)
    requires forall r <- rows :: r.order == o
    ensures TicketsOf(rows, o) == rows
  {
    if rows != [] {
      TicketsOfOwn(rows[..|rows| - 1], o);
    }
  }

  /** The new rows are the order's tickets, and no other order gained any. */
  lemma IssuedTickets(a: Db, o: OrderId, b: Db, x: OrderId)
    requires IssuedRows(a, o, b)
    ensures x != o ==> TicketsOf(b.tickets, x) == TicketsOf(a.tickets, x)
    ensures Holders(TicketsOf(b.tickets, o)) == AttendeesOf(a.attendees, o)
  {
    var rows := IssuedSlice(a, o, b);
    NewTickets(a.tickets, rows, o, x);
    hide *;
  }

  lemma NewTickets(tickets: seq<TicketRow>, rows: seq<TicketRow>, o: OrderId, x: OrderId)
    requires TicketsOf(tickets, o) == [] && forall r <- rows :: r.order == o
    ensures x != o ==> TicketsOf(tickets + rows, x) == TicketsOf(tickets, x)
    ensures TicketsOf(tickets + rows, o) == rows
  {
    TicketsAppend(tickets, rows, x);
    TicketsAppend(tickets, rows, o);
    TicketsOfOwn(rows, o);
    if x != o {
      NoTicketsYet(rows, x);
    }
    hide *;
  }

  lemma IssuedSlice(a: Db, o: OrderId, b: Db) returns (rows: seq<TicketRow>)
    requires IssuedRows(a, o, b)
    ensures b.tickets == a.tickets + rows && TicketsOf(a.tickets, o) == []
    ensures forall r <- rows :: r.order == o
    ensures Holders(rows) == AttendeesOf(a.attendees, o)
  {
    rows := b.tickets[|a.tickets|..];
    forall i | 0 <= i < |rows| ensures IssuedRow(rows[i], o, AttendeesOf(a.attendees, o)[i]) {
      assert rows[i] == b.tickets[|a.tickets| + i];
    }
  }

  lemma IssueRefs(a: Db, o: OrderId, b: Db)
    requires RefsOk(a) && IssuedRows(a, o, b)
    ensures RefsOk(b)
  {
    AttendeesOfAreRows(a.attendees, o);
    forall r <- b.tickets ensures r.order < |b.orders| && r.attendee < |b.attendees|
                                  && b.attendees[r.attendee].order == r.order
    {
      var i :| 0 <= i < |b.tickets| && b.tickets[i] == r;
      if i >= |a.tickets| {
        var id := AttendeesOf(a.attendees, o)[i - |a.tickets|];
        assert IssuedRow(b.tickets[|a.tickets| + (i - |a.tickets|)], o, id);
        assert id in AttendeesOf(a.attendees, o);
      } else {
        assert r == a.tickets[i];
      }
    }
  }

  lemma IssueIssued(a: Db, o: OrderId, b: Db)
    requires IssuedOk(a) && IssuedRows(a, o, b)
    ensures IssuedOk(b)
  {
    forall x: OrderId | x < |b.orders| ensures TicketsOf(b.tickets, x) == [] || FullyIssued(b, x) {
      IssuedTickets(a, o, b, x);
      assert x != o && FullyIssued(a, x) ==> FullyIssued(b, x);
    }
  }

  lemma IssueSame(a: Db, o: OrderId, b: Db)
    requires IssuedRows(a, o, b)
    ensures b == a.(tickets := b.tickets) && CodesUnique(b.tickets)
    ensures SeatsMatch(a) ==> SeatsMatch(b)
    ensures TotalsMatch(a) ==> TotalsMatch(b)
  { }

  lemma IssueDbOk(a: Db, o: OrderId, b: Db)
    requires DbOk(a) && IssuedRows(a, o, b)
    ensures DbOk(b)
  {
    hide IssuedRows, SeatsMatch, TotalsMatch, IssuedOk, RefsOk, CodesUnique;
    IssueRefs(a, o, b);
    IssueIssued(a, o, b);
    IssueSame(a, o, b);
  }

  lemma IssueConserves(a: Db, o: OrderId, b: Db, alloc: map<TypeId, int>)
    requires Conserved(a, alloc) && IssuedRows(a, o, b)
    ensures Conserved(b, alloc)
  {
    assert forall t :: Held(b, t) == Held(a, t);
  }

  lemma IssueLater(a: Db, o: OrderId, b: Db)
    requires IssuedRows(a, o, b)
    ensures DbLater(a, b)
  {
    forall x: OrderId | x < |a.orders| {
      IssuedTickets(a, o, b, x);
    }
  }

  /** New tickets are ACTIVE: nothing is admitted by issuing. */
  lemma IssueDoor(a: Db, o: OrderId, b: Db, log: seq<Event>)
    requires DoorOk(a.tickets, log) && IssuedRows(a, o, b)
    ensures DoorOk(b.tickets, log)
  {
    var ids := AttendeesOf(a.attendees, o);
    forall i | |a.tickets| <= i < |b.tickets| ensures b.tickets[i].status == Active {
      assert IssuedRow(b.tickets[|a.tickets| + (i - |a.tickets|)], o, ids[i - |a.tickets|]);
    }
    forall code: string ensures IsUsed(b.tickets, code) <==> IsUsed(a.tickets, code) {
      if IsUsed(b.tickets, code) {
        var i :| 0 <= i < |b.tickets| && b.tickets[i].code == code && b.tickets[i].status == Used;
        assert a.tickets[i] == b.tickets[i];
      }
      if IsUsed(a.tickets, code) {
        var i :| 0 <= i < |a.tickets| && a.tickets[i].code == code && a.tickets[i].status == Used;
        assert a.tickets[i] == b.tickets[i];
      }
    }
  }

  lemma IssueFulfilments(f: Facts, o: OrderId, b: Db)
    requires FulfilmentsOk(f.db, f.owner, f.log) && IssuedRows(f.db, o, b) && o in f.owner
    ensures FulfilmentsOk(b, f.owner, f.log)
  {
    forall x: OrderId | x < |b.orders| && TicketsOf(b.tickets, x) != [] ensures x in f.owner {
      IssuedTickets(f.db, o, b, x);
    }
  }

  lemma IssueHistory(f: Facts, o: OrderId, b: Db)
    requires HistoryOk(f) && IssuedRows(f.db, o, b) && o in f.owner
    ensures HistoryOk(f.(db := b))
  {
    HistoryParts(f);
    EmailFlags(f);
    IssueSame(f.db, o, b);
    hide IssuedRows, SettlementsOk, FulfilmentsOk, DoorOk, DeliveriesOk, DbLater, WasEmailed, CodesUnique;
    IssueLater(f.db, o, b);
    IssueDoor(f.db, o, b, f.log);
    IssueFulfilments(f, o, b);
    HistoryCarries(f, b);
  }

  lemma IssueKeeps(f: Facts, o: OrderId, b: Db)
    requires FactsOk(f) && IssuedRows(f.db, o, b) && o in f.owner
    ensures FactsOk(f.(db := b)) && FactsLater(f, f.(db := b))
  {
    hide DbOk, Conserved, HistoryOk, DbLater, IssuedRows;
    IssueDbOk(f.db, o, b);
    IssueConserves(f.db, o, b, f.alloc);
    IssueHistory(f, o, b);
    IssueLater(f.db, o, b);
  }

  /** No process but the owner was counting on the order being unissued. */
  lemma OthersUnissued(f: Facts, p: Pid, o: OrderId, b: Db)
    requires IssuedRows(f.db, o, b) && o in f.owner && f.owner[o] == p
    ensures forall q, x: OrderId :: q != p && Unissued(f, q, x) ==> TicketsOf(b.tickets, x) == []
  {
    forall q, x: OrderId | q != p && Unissued(f, q, x) ensures TicketsOf(b.tickets, x) == [] {
      IssuedTickets(f.db, o, b, x);
    }
  }

  lemma IssuingOk(f: Facts, p: Pid, o: OrderId, ids: seq<AttendeeId>)
    requires FactsOk(f) && ProcOk(f, p, FulfilIssuing(o, ids))
    ensures o in f.owner && f.owner[o] == p && ids == AttendeesOf(f.db.attendees, o)
    ensures o < |f.db.orders| && f.db.orders[o].status == Paid && TicketsOf(f.db.tickets, o) == []
    ensures CodesUnique(f.db.tickets)
  {
    IssuingKnows(f, p, o, ids);
    OwnedIsPaid(f, o);
    hide *;
  }

  lemma IssuingKnows(f: Facts, p: Pid, o: OrderId, ids: seq<AttendeeId>)
    requires ProcOk(f, p, FulfilIssuing(o, ids))
    ensures Owns(f, p, o) && ids == AttendeesOf(f.db.attendees, o) && TicketsOf(f.db.tickets, o) == []
  { }

  lemma OwnedIsPaid(f: Facts, o: OrderId)
    requires FactsOk(f)
    ensures o in f.owner ==> o < |f.db.orders| && f.db.orders[o].status == Paid
    ensures CodesUnique(f.db.tickets)
  {
    HistoryParts(f);
    hide RefsOk, SeatsMatch, TotalsMatch, IssuedOk, NumbersUnique, SettlementsOk, DoorOk, DeliveriesOk, AuditOk;
  }

  lemma RelistingOk(f: Facts, p: Pid, o: OrderId)
    requires o in f.owner && f.owner[o] == p && o < |f.db.orders|
    ensures ProcOk(f, p, FulfilRelisting(o)) && ProcOk(f, p, DeliveryCalled(o))
  { }

  lemma DoIssueKeeps(s: Sys, p: Pid, codes: seq<string>, fate: Fate)
    requires Inv(s)
    ensures Inv(DoIssue(s, p, codes, fate)) && Later(s, DoIssue(s, p, codes, fate))
  {
    LaterReflexive(s);
    InvFacts(s);
    if p in s.procs && s.procs[p].FulfilIssuing? && |codes| == |s.procs[p].ids| {
      var o, ids := s.procs[p].o, s.procs[p].ids;
      assert ProcOk(s.facts, p, s.procs[p]);
      hide Inv, Later, FactsOk, FactsLater, ProcOk, Unissued, IssuedRows, InsertTickets, CodesUnique;
      IssuingOk(s.facts, p, o, ids);
      RelistingOk(s.facts, p, o);
      var r := IssueTx(s.facts.db, o, ids, codes);
      if r.Applied? && fate != RollsBack {
        var f := s.facts.(db := r.db);
        IssueRows(s.facts.db, o, codes, r.db);
        IssueKeeps(s.facts, o, r.db);
        OthersUnissued(s.facts, p, o, r.db);
        RelistingOk(f, p, o);
        CommitStep(s, f, p, DoIssue(s, p, codes, fate).procs[p]);
      } else {
        LocalStep(s, p, FulfilRelisting(o));
      }
    }
  }

  // --- Delivery -----------------------------------------------------------------------------

  lemma EmailKeeps(f: Facts, o: OrderId, codes: seq<string>)
    requires FactsOk(f) && Deliverable(f.db, o, codes)
    ensures var g := f.(log := f.log + [Emailed(o, codes)]);
            FactsOk(g) && FactsLater(f, g) && WasEmailed(g.log, o)
  {
    var g := f.(log := f.log + [Emailed(o, codes)]);
    HistoryParts(f);
    OtherEvent(f, Emailed(o, codes));
    DbLaterSame(f.db);
    assert Emailed(o, codes) in g.log;
    hide DbOk, Conserved, SettlementsOk, FulfilmentsOk, DoorOk, AuditOk, DbLater, Deliverable;
    forall x: OrderId | x < |g.db.orders| && g.db.orders[x].emailSent ensures WasEmailed(g.log, x) {
      WasEmailedStable(f.log, g.log, x);
    }
  }

  lemma SendingOk(f: Facts, p: Pid, o: OrderId, codes: seq<string>)
    requires ProcOk(f, p, Sending(o, codes))
    ensures Deliverable(f.db, o, codes) && o < |f.db.orders|
  { }

  lemma MarkingReady(f: Facts, p: Pid, o: OrderId)
    requires o < |f.db.orders| && WasEmailed(f.log, o)
    ensures ProcOk(f, p, MarkingSent(o))
  { }

  lemma DoSendKeeps(s: Sys, p: Pid, delivered: bool, reported: bool)
    requires Inv(s)
    ensures Inv(DoSend(s, p, delivered, reported)) && Later(s, DoSend(s, p, delivered, reported))
  {
    LaterReflexive(s);
    InvFacts(s);
    if p in s.procs && s.procs[p].Sending? {
      var o, codes := s.procs[p].o, s.procs[p].codes;
      assert ProcOk(s.facts, p, s.procs[p]);
      hide Inv, Later, FactsOk, FactsLater, ProcOk, Unissued, Deliverable, WasEmailed;
      SendingOk(s.facts, p, o, codes);
      FinishedOk(s.facts, p);
      if delivered {
        var f := s.facts.(log := s.facts.log + [Emailed(o, codes)]);
        EmailKeeps(s.facts, o, codes);
        MarkingReady(f, p, o);
        FinishedOk(f, p);
        NoNewTickets(s.facts, f.db, p);
        CommitStep(s, f, p, DoSend(s, p, delivered, reported).procs[p]);
      } else {
        LocalStep(s, p, Finished(Failure));
      }
    }
  }

  // --- The door --------------------------------------------------------------------------------

  /** Admission changes one status: codes and holders stay. */
  lemma {:induction false} AdmitTicketsOf(tickets: seq<TicketRow>, code: string, o: OrderId)
    ensures TicketsOf(Admit(tickets, code), o) == Admit(TicketsOf(tickets, o), code)
    ensures Codes(TicketsOf(Admit(tickets, code), o)) == Codes(TicketsOf(tickets, o))
    ensures Holders(TicketsOf(Admit(tickets, code), o)) == Holders(TicketsOf(tickets, o))
  {
    if tickets != [] {
      var front, last := tickets[..|tickets| - 1], tickets[|tickets| - 1];
      AdmitTicketsOf(front, code, o);
      assert Admit(tickets, code)[..|tickets| - 1] == Admit(front, code);
      assert TicketsOf(tickets, o) == TicketsOf(front, o) + if last.order == o then [last] else [];
      assert TicketsOf(Admit(tickets, code), o) == Admit(TicketsOf(tickets, o), code);
    }
  }

  lemma AdmitDbOk(db: Db, code: string)
    requires DbOk(db)
    ensures DbOk(db.(tickets := Admit(db.tickets, code)))
  {
    var after := db.(tickets := Admit(db.tickets, code));
    forall o: OrderId | o < |after.orders| ensures TicketsOf(after.tickets, o) == [] || FullyIssued(after, o) {
      AdmitTicketsOf(db.tickets, code, o);
      assert FullyIssued(db, o) ==> FullyIssued(after, o);
    }
    AdmitRefs(db, code);
    hide RefsOk, IssuedOk;
    assert SeatsMatch(after) && TotalsMatch(after);
  }

  lemma AdmitRefs(db: Db, code: string)
    requires RefsOk(db)
    ensures RefsOk(db.(tickets := Admit(db.tickets, code)))
  {
    var after := Admit(db.tickets, code);
    forall r <- after ensures exists q :: q in db.tickets && q.order == r.order && q.attendee == r.attendee {
      var i :| 0 <= i < |after| && after[i] == r;
      assert db.tickets[i] in db.tickets;
    }
  }

  lemma AdmitLater(db: Db, code: string)
    ensures DbLater(db, db.(tickets := Admit(db.tickets, code)))
  {
    forall o: OrderId | o < |db.orders| {
      AdmitTicketsOf(db.tickets, code, o);
    }
  }

  /** An ACTIVE code was never admitted before; now it has been, once. */
  lemma AdmitDoor(tickets: seq<TicketRow>, code: string, log: seq<Event>)
    requires DoorOk(tickets, log) && CodesUnique(tickets) && Admissible(tickets, code)
    ensures DoorOk(Admit(tickets, code), log + [Admitted(code)])
  {
    var after := Admit(tickets, code);
    var i :| 0 <= i < |tickets| && tickets[i].code == code && tickets[i].status == Active;
    assert after[i].status == Used && after[i].code == code;
    assert (log + [Admitted(code)])[..|log|] == log;
    forall x: string ensures IsUsed(after, x) <==> x == code || IsUsed(tickets, x) {
      if IsUsed(tickets, x) {
        var j :| 0 <= j < |tickets| && tickets[j].code == x && tickets[j].status == Used;
        assert after[j] == tickets[j];
      }
      if IsUsed(after, x) && x != code {
        var j :| 0 <= j < |after| && after[j].code == x && after[j].status == Used;
        assert after[j] == tickets[j];
      }
    }
    forall r <- after ensures r.status != Revoked {
      var j :| 0 <= j < |after| && after[j] == r;
      assert tickets[j] in tickets;
    }
  }

  lemma AdmitFulfilments(f: Facts, code: string)
    requires FulfilmentsOk(f.db, f.owner, f.log)
    ensures FulfilmentsOk(f.db.(tickets := Admit(f.db.tickets, code)), f.owner, f.log)
  {
    forall o: OrderId | o < |f.db.orders| {
      AdmitTicketsOf(f.db.tickets, code, o);
    }
  }

  lemma AdmitHistory(f: Facts, code: string)
    requires HistoryOk(f) && CodesUnique(f.db.tickets) && Admissible(f.db.tickets, code)
    ensures HistoryOk(f.(db := f.db.(tickets := Admit(f.db.tickets, code)), log := f.log + [Admitted(code)]))
  {
    var after := f.db.(tickets := Admit(f.db.tickets, code));
    HistoryParts(f);
    EmailFlags(f);
    hide SettlementsOk, FulfilmentsOk, DoorOk, DeliveriesOk, DbLater, CodesUnique, Admissible;
    AdmitLater(f.db, code);
    AdmitDoor(f.db.tickets, code, f.log);
    AdmitFulfilments(f, code);
    OtherEvent(f.(db := after), Admitted(code));
    forall o: OrderId | o < |after.orders| && after.orders[o].emailSent
      ensures WasEmailed(f.log + [Admitted(code)], o)
    {
      WasEmailedStable(f.log, f.log + [Admitted(code)], o);
    }
    DeliveriesLater(f, f.(db := after, log := f.log + [Admitted(code)]));
  }

  lemma DoAdmitKeeps(s: Sys, code: string)
    requires Inv(s)
    ensures Inv(DoAdmit(s, code)) && Later(s, DoAdmit(s, code))
  {
    LaterReflexive(s);
    if Admissible(s.facts.db.tickets, code) {
      var t := DoAdmit(s, code);
      hide DbOk, HistoryOk, ProcOk, Admissible;
      AdmitFacts(s.facts, code);
      AdmitUnissued(s.facts, code);
      hide FactsOk, FactsLater, Unissued;
      forall p | p in t.procs ensures ProcOk(t.facts, p, t.procs[p]) {
        ProcStable(s.facts, t.facts, p, t.procs[p]);
      }
    }
  }

  lemma AdmitUnissued(f: Facts, code: string)
    ensures forall q, o: OrderId :: Unissued(f, q, o) ==> TicketsOf(Admit(f.db.tickets, code), o) == []
  {
    forall o: OrderId {
      AdmitTicketsOf(f.db.tickets, code, o);
    }
  }

  lemma AdmitFacts(f: Facts, code: string)
    requires FactsOk(f) && Admissible(f.db.tickets, code)
    ensures var g := f.(db := f.db.(tickets := Admit(f.db.tickets, code)), log := f.log + [Admitted(code)]);
            FactsOk(g) && FactsLater(f, g)
  {
    AdmitCodes(f.db);
    hide DbOk, HistoryOk, DbLater, Admissible, CodesUnique, Conserved, Admit;
    AdmitDbOk(f.db, code);
    AdmitHistory(f, code);
    AdmitLater(f.db, code);
    ConservedSame(f.db, f.db.(tickets := Admit(f.db.tickets, code)), f.alloc);
  }

  lemma ConservedSame(a: Db, b: Db, alloc: map<TypeId, int>)
    requires Conserved(a, alloc) && b.types == a.types && b.orders == a.orders && b.items == a.items
    ensures Conserved(b, alloc)
  { }

  lemma AdmitCodes(db: Db)
    requires DbOk(db)
    ensures CodesUnique(db.tickets)
  { }
}
