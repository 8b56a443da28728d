/** The payment stamp, the delivery flag and the audit row: no status and no seat moves. */
module RowSteps {
  import opened Wrappers
  import opened Schema
  import opened Transactions
  import opened System
  import opened Invariant
  import opened SettleSteps

  /** Only columns that no count depends on have changed. */
  ghost predicate Touched(a: Db, b: Db) {
    && b == a.(orders := b.orders)
    && |b.orders| == |a.orders|
    && forall o :: 0 <= o < |a.orders| ==>
         && b.orders[o].number == a.orders[o].number && b.orders[o].total == a.orders[o].total
         && b.orders[o].status == a.orders[o].status
         && (a.orders[o].emailSent ==> b.orders[o].emailSent)
  }

  lemma TouchedDbOk(a: Db, b: Db)
    requires DbOk(a) && Touched(a, b)
    ensures DbOk(b)
  {
    assert RefsOk(b);
    assert SeatsMatch(b) && TotalsMatch(b);
    forall o: OrderId | o < |b.orders| && FullyIssued(a, o) ensures FullyIssued(b, o) { }
  }

  lemma TouchedConserves(a: Db, b: Db, alloc: map<TypeId, int>)
    requires Conserved(a, alloc) && Touched(a, b)
    ensures Conserved(b, alloc)
  {
    forall t | t in a.types ensures Held(b, t) == Held(a, t) {
      HeldSame(a.orders, a.items, b.orders, b.items, |a.orders|, t);
    }
  }

  lemma TouchedLater(a: Db, b: Db)
    requires Touched(a, b)
    ensures DbLater(a, b)
  { }

  lemma TouchedHistory(f: Facts, b: Db)
    requires HistoryOk(f) && Touched(f.db, b)
    requires forall o: OrderId :: o < |b.orders| && b.orders[o].emailSent ==>
               f.db.orders[o].emailSent || WasEmailed(f.log, o)
    ensures HistoryOk(f.(db := b))
  {
    HistoryParts(f);
    TouchedLater(f.db, b);
    assert SettlementsOk(b.orders, f.winner, f.log);
    assert FulfilmentsOk(b, f.owner, f.log);
    assert AuditOk(b);
    HistoryCarries(f, b);
  }

  lemma TouchedKeeps(f: Facts, b: Db)
    requires FactsOk(f) && Touched(f.db, b)
    requires forall o: OrderId :: o < |b.orders| && b.orders[o].emailSent ==>
               f.db.orders[o].emailSent || WasEmailed(f.log, o)
    ensures FactsOk(f.(db := b)) && FactsLater(f, f.(db := b))
  {
    hide DbOk, Conserved, HistoryOk, DbLater;
    TouchedDbOk(f.db, b);
    TouchedConserves(f.db, b, f.alloc);
    TouchedHistory(f, b);
    TouchedLater(f.db, b);
  }

  lemma StampTouches(db: Db, o: OrderId, qr: string, deadline: Option<int>, after: Db)
    requires StampTx(db, o, qr, deadline) == Applied(after)
    ensures Touched(db, after) && after.tickets == db.tickets
    ensures forall x: OrderId :: x < |after.orders| && after.orders[x].emailSent ==> db.orders[x].emailSent
  { }

  lemma MarkSentTouches(db: Db, o: OrderId, after: Db)
    requires MarkSentTx(db, o) == Applied(after)
    ensures Touched(db, after) && after.tickets == db.tickets
    ensures forall x: OrderId :: x < |after.orders| && after.orders[x].emailSent ==> db.orders[x].emailSent || x == o
  { }

  lemma NoNewTickets(f: Facts, after: Db, p: Pid)
    requires after.tickets == f.db.tickets
    ensures forall q, o: OrderId :: q != p && Unissued(f, q, o) ==> TicketsOf(after.tickets, o) == []
  { }

  lemma DoStampKeeps(s: Sys, p: Pid, fate: Fate)
    requires Inv(s)
    ensures Inv(DoStamp(s, p, fate)) && Later(s, DoStamp(s, p, fate))
  {
    LaterReflexive(s);
    InvFacts(s);
    hide Inv, Later, FactsOk, FactsLater, ProcOk, Unissued, StampTx, Touched;
    if p in s.procs && s.procs[p].Stamping? {
      var r := StampTx(s.facts.db, s.procs[p].id, s.procs[p].qr, s.procs[p].deadline);
      if r.Applied? && fate != RollsBack {
        StampTouches(s.facts.db, s.procs[p].id, s.procs[p].qr, s.procs[p].deadline, r.db);
        TouchedKeeps(s.facts, r.db);
        NoNewTickets(s.facts, r.db, p);
        FinishedOk(s.facts.(db := r.db), p);
        CommitStep(s, s.facts.(db := r.db), p, Finished(if fate == Commits then Done else Failure));
      } else {
        FinishedOk(s.facts, p);
        LocalStep(s, p, Finished(Failure));
      }
    }
  }

  lemma MarkingOk(f: Facts, p: Pid, o: OrderId)
    requires ProcOk(f, p, MarkingSent(o))
    ensures o < |f.db.orders| && WasEmailed(f.log, o)
  { }

  /** The committed mark. */
  lemma MarkCommits(s: Sys, p: Pid, o: OrderId, db: Db)
    requires Inv(s) && p in s.procs && s.procs[p] == MarkingSent(o) && MarkSentTx(s.facts.db, o) == Applied(db)
    ensures Inv(Put(WithDb(s, db), p, Finished(Done))) && Later(s, Put(WithDb(s, db), p, Finished(Done)))
  {
    InvFacts(s);
    MarkingOk(s.facts, p, o);
    hide *;
    MarkSentTouches(s.facts.db, o, db);
    TouchedKeeps(s.facts, db);
    NoNewTickets(s.facts, db, p);
    FinishedOk(s.facts.(db := db), p);
    CommitStep(s, s.facts.(db := db), p, Finished(Done));
  }

  lemma DoMarkSentKeeps(s: Sys, p: Pid, fate: Fate)
    requires Inv(s)
    ensures Inv(DoMarkSent(s, p, fate)) && Later(s, DoMarkSent(s, p, fate))
  {
    LaterReflexive(s);
    hide Inv, Later, MarkSentTx;
    if p in s.procs && s.procs[p].MarkingSent? {
      var o := s.procs[p].o;
      var r := MarkSentTx(s.facts.db, o);
      if r.Applied? && fate != RollsBack {
        MarkCommits(s, p, o, r.db);
      } else {
        FinishedOk(s.facts, p);
        LocalStep(s, p, Finished(Done));
      }
    }
  }

  // --- The audit row --------------------------------------------------------------------

  /** One payments row more. */
  ghost predicate RecordedRows(a: Db, o: OrderId, answer: Answer, b: Db) {
    o < |a.orders| && b == a.(payments := a.payments + [PaymentRow(o, answer)])
  }

  lemma RecordDbOk(a: Db, o: OrderId, answer: Answer, b: Db)
    requires DbOk(a) && RecordedRows(a, o, answer, b)
    ensures DbOk(b)
  {
    assert RefsOk(b);
    forall x: OrderId | x < |b.orders| && FullyIssued(a, x) ensures FullyIssued(b, x) { }
  }

  lemma RecordConserves(a: Db, o: OrderId, answer: Answer, b: Db, alloc: map<TypeId, int>)
    requires Conserved(a, alloc) && RecordedRows(a, o, answer, b)
    ensures Conserved(b, alloc) && DbLater(a, b)
  { }

  lemma RecordAudit(a: Db, o: OrderId, answer: Answer, b: Db)
    requires AuditOk(a) && RecordedRows(a, o, answer, b)
    ensures AuditOk(b)
  {
    hide PaymentRecorded;
    forall x: OrderId | x < |b.orders| && b.orders[x].status == Paid ensures PaymentRecorded(b.payments, x) {
      PaymentRecordedStable(a.payments, b.payments, x);
    }
  }

  lemma RecordHistory(f: Facts, o: OrderId, answer: Answer, b: Db)
    requires HistoryOk(f) && RecordedRows(f.db, o, answer, b) && DbLater(f.db, b)
    ensures HistoryOk(f.(db := b))
  {
    HistoryParts(f);
    RecordAudit(f.db, o, answer, b);
    EmailFlags(f);
    hide DbLater, SettlementsOk, DoorOk, DeliveriesOk, AuditOk, WasEmailed;
    HistoryCarries(f, b);
  }

  lemma RecordKeeps(f: Facts, o: OrderId, answer: Answer, b: Db)
    requires FactsOk(f) && RecordedRows(f.db, o, answer, b)
    ensures FactsOk(f.(db := b)) && FactsLater(f, f.(db := b))
  {
    hide DbOk, Conserved, HistoryOk, DbLater, RecordedRows;
    RecordDbOk(f.db, o, answer, b);
    RecordConserves(f.db, o, answer, b, f.alloc);
    RecordHistory(f, o, answer, b);
    hide HistoryOk;
    RecordedSame(f.db, o, answer, b);
  }

  lemma RecordedSame(a: Db, o: OrderId, answer: Answer, b: Db)
    requires RecordedRows(a, o, answer, b)
    ensures PaymentRow(o, answer) in b.payments && b.tickets == a.tickets
  { }

  lemma DecidingOk(f: Facts, g: Facts, p: Pid, r: Proc)
    requires r.Recording? && ProcOk(f, p, r) && FactsLater(f, g)
    requires PaymentRow(r.ord.id, r.answer) in g.db.payments
    ensures ProcOk(g, p, Deciding(r.source, r.ord, r.answer, r.wasDue))
  {
    RefStable(f.db, g.db, r.ord);
  }

  lemma DoRecordKeeps(s: Sys, p: Pid, fate: Fate)
    requires Inv(s)
    ensures Inv(DoRecord(s, p, fate)) && Later(s, DoRecord(s, p, fate))
  {
    LaterReflexive(s);
    InvFacts(s);
    if p in s.procs && s.procs[p].Recording? {
      var r := s.procs[p];
      assert ProcOk(s.facts, p, r);
      hide Inv, Later, FactsOk, FactsLater, ProcOk, Unissued;
      var result := RecordTx(s.facts.db, r.ord.id, r.answer);
      FinishedOk(s.facts, p);
      if result.Applied? && fate != RollsBack {
        var f := s.facts.(db := result.db);
        RecordKeeps(s.facts, r.ord.id, r.answer, result.db);
        RecordedSame(s.facts.db, r.ord.id, r.answer, result.db);
        NoNewTickets(s.facts, result.db, p);
        FinishedOk(f, p);
        DecidingOk(s.facts, f, p, r);
        CommitStep(s, f, p, DoRecord(s, p, fate).procs[p]);
      } else {
        LocalStep(s, p, Finished(Failure));
      }
    }
  }
}
