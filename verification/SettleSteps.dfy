/** Settling an order, from whichever path: the one transition out of PENDING, with its seats
    released exactly when the order was not paid. */
module SettleSteps {
  import opened Wrappers
  import opened Schema
  import opened ProviderStatus
  import opened Transactions
  import opened System
  import opened Invariant

  /** Types that differ from the old ones in their quotas only. */
  ghost predicate QuotaEdit(a: map<TypeId, TicketType>, b: map<TypeId, TicketType>) {
    a.Keys == b.Keys && forall t :: t in a ==> b[t].event == a[t].event
  }

  /** The rows after settling: one status, and perhaps some quotas, have changed. */
  ghost predicate SettledRows(db: Db, o: OrderId, status: Status, after: Db) {
    && IsPending(db, o) && status != Pending
    && after == db.(orders := db.orders[o := db.orders[o].(status := status)], types := after.types)
    && QuotaEdit(db.types, after.types) && QuotasOk(after.types)
  }

  lemma SettleRows(db: Db, o: OrderId, status: Status, restore: bool, lines: seq<Line>, after: Db)
    requires QuotasOk(db.types) && IsPending(db, o) && status != Pending
    requires SettleTx(db, o, status, restore, lines) == Applied(after)
    ensures SettledRows(db, o, status, after)
    ensures forall t :: t in db.types ==>
              after.types[t].quota == db.types[t].quota + if restore then Qty(lines, t) else 0
  {
    RestoreEffect(db.types, lines);
  }

  /** A PENDING order has no tickets yet. */
  lemma PendingUnissued(db: Db, o: OrderId)
    requires IssuedOk(db) && IsPending(db, o)
    ensures TicketsOf(db.tickets, o) == []
  { }

  lemma SettleIssued(db: Db, o: OrderId, status: Status, after: Db)
    requires IssuedOk(db) && SettledRows(db, o, status, after)
    ensures IssuedOk(after)
  {
    PendingUnissued(db, o);
    forall x: OrderId | x < |after.orders| && x != o && FullyIssued(db, x) ensures FullyIssued(after, x) { }
  }

  lemma SettleRefs(db: Db, o: OrderId, status: Status, after: Db)
    requires RefsOk(db) && SettledRows(db, o, status, after)
    ensures RefsOk(after)
  { }

  lemma SettleDbOk(db: Db, o: OrderId, status: Status, after: Db)
    requires DbOk(db) && SettledRows(db, o, status, after)
    ensures DbOk(after)
  {
    SettleRefs(db, o, status, after);
    SettleIssued(db, o, status, after);
    hide RefsOk, IssuedOk;
  }

  lemma SettleConserves(db: Db, alloc: map<TypeId, int>, o: OrderId, status: Status, after: Db)
    requires Conserved(db, alloc) && SettledRows(db, o, status, after)
    requires forall t :: t in db.types ==>
               after.types[t].quota == db.types[t].quota + if status != Paid then QtyOf(db.items, o, t) else 0
    ensures Conserved(after, alloc)
  {
    forall t | t in db.types ensures after.types[t].quota + Held(after, t) == alloc[t] {
      HeldAfterChange(db.orders, db.items, o, after.orders[o], |db.orders|, t);
    }
  }

  lemma SettleLater(db: Db, o: OrderId, status: Status, after: Db)
    requires SettledRows(db, o, status, after)
    ensures DbLater(db, after)
  { }

  lemma CountsAppend(log: seq<Event>, e: Event, o: OrderId)
    ensures SettledCount(log + [e], o) == SettledCount(log, o) + if e.SettledAs? && e.o == o then 1 else 0
    ensures ReleasedCount(log + [e], o) == ReleasedCount(log, o) + if e.SettledAs? && e.o == o && e.released then 1 else 0
    ensures StartedCount(log + [e], o) == StartedCount(log, o) + if e == FulfilStarted(o) then 1 else 0
  {
    assert (log + [e])[..|log|] == log;
  }

  lemma NotYetWon(f: Facts, o: OrderId)
    requires SettlementsOk(f.db.orders, f.winner, f.log) && IsPending(f.db, o)
    ensures o !in f.winner
  { }

  lemma SettlementCounts(f: Facts, o: OrderId, status: Status, p: Pid, after: Db)
    requires SettlementsOk(f.db.orders, f.winner, f.log) && SettledRows(f.db, o, status, after)
    ensures var g := SettledFacts(f, after, o, status, status != Paid, p);
            SettlementsOk(g.db.orders, g.winner, g.log)
  {
    NotYetWon(f, o);
    hide QuotasOk, QuotaEdit;
    forall x: OrderId { CountsAppend(f.log, SettledAs(o, status, status != Paid), x); }
  }

  /** An event of another kind counts for nothing at the door and in the mail. */
  lemma OtherEvent(f: Facts, e: Event)
    ensures !e.Admitted? && DoorOk(f.db.tickets, f.log) ==> DoorOk(f.db.tickets, f.log + [e])
    ensures !e.FulfilStarted? && FulfilmentsOk(f.db, f.owner, f.log) ==> FulfilmentsOk(f.db, f.owner, f.log + [e])
    ensures !e.SettledAs? && SettlementsOk(f.db.orders, f.winner, f.log) ==> SettlementsOk(f.db.orders, f.winner, f.log + [e])
  {
    assert (f.log + [e])[..|f.log|] == f.log;
  }

  lemma SettleFulfilments(f: Facts, o: OrderId, status: Status, after: Db)
    requires FulfilmentsOk(f.db, f.owner, f.log) && SettledRows(f.db, o, status, after)
    ensures FulfilmentsOk(after, f.owner, f.log)
  { }

  /** Delivered emails stay deliverable; no flag is set without an email. */
  lemma DeliveriesLater(a: Facts, b: Facts)
    requires DeliveriesOk(a.db, a.log) && DbLater(a.db, b.db) && a.log <= b.log
    requires forall e <- b.log :: e.Emailed? ==> e in a.log
    requires forall x: OrderId :: x < |b.db.orders| && b.db.orders[x].emailSent ==>
               (x < |a.db.orders| && a.db.orders[x].emailSent) || WasEmailed(b.log, x)
    ensures DeliveriesOk(b.db, b.log)
  {
    forall e <- b.log | e.Emailed? ensures Deliverable(b.db, e.o, e.codes) {
      DeliverableStable(a.db, b.db, e.o, e.codes);
    }
    forall x: OrderId | x < |b.db.orders| && b.db.orders[x].emailSent ensures WasEmailed(b.log, x) {
      if x < |a.db.orders| && a.db.orders[x].emailSent {
        WasEmailedStable(a.log, b.log, x);
      }
    }
  }

  lemma SettleAudit(db: Db, o: OrderId, status: Status, after: Db)
    requires AuditOk(db) && SettledRows(db, o, status, after)
    requires status == Paid ==> PaymentRecorded(db.payments, o)
    ensures AuditOk(after)
  { }

  lemma SettleHistory(f: Facts, o: OrderId, status: Status, p: Pid, after: Db)
    requires HistoryOk(f) && SettledRows(f.db, o, status, after)
    requires status == Paid ==> PaymentRecorded(f.db.payments, o)
    ensures HistoryOk(SettledFacts(f, after, o, status, status != Paid, p))
  {
    var e := SettledAs(o, status, status != Paid);
    var g := SettledFacts(f, after, o, status, status != Paid, p);
    SettlementCounts(f, o, status, p, after);
    SettleFulfilments(f, o, status, after);
    OtherEvent(f.(db := after), e);
    SettleLater(f.db, o, status, after);
    SettleAudit(f.db, o, status, after);
    hide SettlementsOk, FulfilmentsOk, DoorOk, DeliveriesOk, AuditOk, DbLater, QuotaEdit, QuotasOk;
    DeliveriesLater(f, g);
  }

  lemma SettleFactsLater(f: Facts, o: OrderId, status: Status, after: Db, p: Pid)
    requires SettlementsOk(f.db.orders, f.winner, f.log) && SettledRows(f.db, o, status, after)
    ensures FactsLater(f, SettledFacts(f, after, o, status, status != Paid, p))
  {
    NotYetWon(f, o);
    SettleLater(f.db, o, status, after);
    hide SettlementsOk, SettledRows, DbLater;
  }

  lemma SettleFactsOk(f: Facts, o: OrderId, status: Status, after: Db, p: Pid)
    requires FactsOk(f) && SettledRows(f.db, o, status, after)
    requires forall t :: t in f.db.types ==>
               after.types[t].quota == f.db.types[t].quota + if status != Paid then QtyOf(f.db.items, o, t) else 0
    requires status == Paid ==> PaymentRecorded(f.db.payments, o)
    ensures FactsOk(SettledFacts(f, after, o, status, status != Paid, p))
    ensures FactsLater(f, SettledFacts(f, after, o, status, status != Paid, p))
  {
    hide SettledRows, HistoryOk, PaymentRecorded, Conserved, DbOk, FactsLater;
    SettleDbOk(f.db, o, status, after);
    SettleConserves(f.db, f.alloc, o, status, after);
    SettleHistory(f, o, status, p, after);
    HistorySettlements(f);
    SettleFactsLater(f, o, status, after, p);
  }

  lemma HistorySettlements(f: Facts)
    requires HistoryOk(f)
    ensures SettlementsOk(f.db.orders, f.winner, f.log)
  { }

  lemma FactsQuotas(f: Facts)
    requires FactsOk(f)
    ensures QuotasOk(f.db.types)
  { }

  /** Only rows have changed, and no new email flag was set: the history needs no new event. */
  lemma HistoryCarries(f: Facts, after: Db)
    requires HistoryOk(f) && DbLater(f.db, after)
    requires SettlementsOk(after.orders, f.winner, f.log)
    requires FulfilmentsOk(after, f.owner, f.log)
    requires DoorOk(after.tickets, f.log)
    requires AuditOk(after)
    requires forall x: OrderId :: x < |after.orders| && after.orders[x].emailSent ==>
               (x < |f.db.orders| && f.db.orders[x].emailSent) || WasEmailed(f.log, x)
    ensures HistoryOk(f.(db := after))
  {
    hide SettlementsOk, FulfilmentsOk, DoorOk, AuditOk, DbLater, WasEmailed;
    DeliveriesLater(f, f.(db := after));
  }

  lemma HistoryParts(f: Facts)
    requires HistoryOk(f)
    ensures SettlementsOk(f.db.orders, f.winner, f.log) && FulfilmentsOk(f.db, f.owner, f.log)
    ensures DoorOk(f.db.tickets, f.log) && DeliveriesOk(f.db, f.log) && AuditOk(f.db)
  { }

  /** The settling commit: rows, conservation and history all survive it. */
  lemma SettleKeeps(f: Facts, o: OrderId, status: Status, restore: bool, lines: seq<Line>, after: Db, p: Pid)
    requires FactsOk(f)
    requires IsPending(f.db, o) && status != Pending && (restore <==> status != Paid)
    requires restore ==> lines == LinesOf(f.db.items, o)
    requires status == Paid ==> PaymentRecorded(f.db.payments, o)
    requires SettleTx(f.db, o, status, restore, lines) == Applied(after)
    ensures FactsOk(SettledFacts(f, after, o, status, restore, p))
    ensures FactsLater(f, SettledFacts(f, after, o, status, restore, p))
  {
    FactsQuotas(f);
    hide FactsOk, FactsLater, PaymentRecorded, SettledRows;
    SettleRows(f.db, o, status, restore, lines, after);
    SettleFactsOk(f, o, status, after, p);
  }

  lemma CompensatingOk(s: Sys, p: Pid, id: OrderId, lines: seq<Line>)
    requires Inv(s) && p in s.procs && s.procs[p] == Compensating(id, lines)
    ensures FactsOk(s.facts) && id < |s.facts.db.orders| && lines == LinesOf(s.facts.db.items, id)
    ensures ProcOk(s.facts, p, Finished(Failure))
  {
    assert ProcOk(s.facts, p, s.procs[p]);
  }

  lemma FinishedOk(f: Facts, p: Pid)
    ensures ProcOk(f, p, Finished(Failure)) && ProcOk(f, p, Finished(Done))
  { }

  /** The committed compensation. */
  lemma CompensateCommits(s: Sys, p: Pid, id: OrderId, lines: seq<Line>, db: Db)
    requires Inv(s) && p in s.procs && s.procs[p] == Compensating(id, lines)
    requires SettleTx(s.facts.db, id, Cancelled, true, lines) == Applied(db)
    ensures var t := Put(Settled(s, db, id, Cancelled, true, p), p, Finished(Failure)); Inv(t) && Later(s, t)
  {
    CompensatingOk(s, p, id, lines);
    SettledRow(s.facts.db, id, Cancelled, lines, db);
    hide *;
    SettleKeeps(s.facts, id, Cancelled, true, lines, db, p);
    UnissuedSame(s.facts, db, p);
    FinishedOk(SettledFacts(s.facts, db, id, Cancelled, true, p), p);
    CommitStep(s, SettledFacts(s.facts, db, id, Cancelled, true, p), p, Finished(Failure));
  }

  lemma SettledRow(db: Db, o: OrderId, status: Status, lines: seq<Line>, after: Db)
    requires SettleTx(db, o, status, true, lines) == Applied(after)
    ensures IsPending(db, o) && after.tickets == db.tickets
  {
    hide RestoreLines;
  }

  lemma CompensateKeeps(s: Sys, p: Pid, fate: Fate)
    requires Inv(s)
    ensures Inv(DoCompensate(s, p, fate)) && Later(s, DoCompensate(s, p, fate))
  {
    LaterReflexive(s);
    hide Inv, Later, SettleTx;
    if p in s.procs && s.procs[p].Compensating? {
      var id, lines := s.procs[p].id, s.procs[p].lines;
      CompensatingOk(s, p, id, lines);
      LocalStep(s, p, Finished(Failure));
      var r := SettleTx(s.facts.db, id, Cancelled, true, lines);
      if r.Applied? && fate != RollsBack {
        CompensateCommits(s, p, id, lines, r.db);
      }
    }
  }

  lemma InvFacts(s: Sys)
    requires Inv(s)
    ensures FactsOk(s.facts)
  { }

  lemma UnissuedSame(f: Facts, after: Db, p: Pid)
    requires after.tickets == f.db.tickets
    ensures forall q, o: OrderId :: q != p && Unissued(f, q, o) ==> TicketsOf(after.tickets, o) == []
  { }

  /** Where the caller resumes is consistent with what the commit did. */
  lemma ResumeOk(f: Facts, p: Pid, caller: Caller, ord: OrderRef, outcome: Outcome, applied: bool, err: bool)
    requires SettlingOk(f, caller, ord, outcome)
    requires applied && !err ==> WonBy(f, p, ord.id) && f.db.orders[ord.id].status == outcome.status.value
    requires !applied && !err ==> IsSettled(f.db, ord.id)
    ensures ProcOk(f, p, Resume(caller, ord, applied, err))
  { }

  lemma SettleStepFails(s: Sys, p: Pid, err: bool)
    requires Inv(s) && p in s.procs && (s.procs[p].Settling? || s.procs[p].Committing?)
    requires err || !IsPending(s.facts.db, s.procs[p].ord.id)
    ensures var t := Put(s, p, Resume(s.procs[p].caller, s.procs[p].ord, false, err));
            Inv(t) && Later(s, t)
  {
    var r := s.procs[p];
    assert ProcOk(s.facts, p, r);
    ResumeOk(s.facts, p, r.caller, r.ord, r.outcome, false, err);
    LocalStep(s, p, Resume(r.caller, r.ord, false, err));
  }

  lemma SettleStepApplies(s: Sys, p: Pid, err: bool, after: Db)
    requires Inv(s) && p in s.procs && (s.procs[p].Settling? || s.procs[p].Committing?)
    requires SettleResult(s, p) == Applied(after)
    ensures var r := s.procs[p];
            var t := Put(Settled(s, after, r.ord.id, r.outcome.status.value, r.outcome.restore, p),
                         p, Resume(r.caller, r.ord, true, err));
            Inv(t) && Later(s, t)
  {
    var r := s.procs[p];
    assert ProcOk(s.facts, p, r);
    InvFacts(s);
    hide Inv, Later, FactsOk, CallerOk, Unissued, RestoreLines;
    var lines := if r.Committing? then r.lines else [];
    assert SettlingOk(s.facts, r.caller, r.ord, r.outcome);
    SettleNeedsRecord(s.facts, r.caller, r.ord, r.outcome);
    SettleKeeps(s.facts, r.ord.id, r.outcome.status.value, r.outcome.restore, lines, after, p);
    var f := SettledFacts(s.facts, after, r.ord.id, r.outcome.status.value, r.outcome.restore, p);
    SettlingStable(s.facts, f, r.caller, r.ord, r.outcome);
    ResumeOk(f, p, r.caller, r.ord, r.outcome, true, err);
    UnissuedSame(s.facts, after, p);
    CommitStep(s, f, p, Resume(r.caller, r.ord, true, err));
  }

  lemma SettleNeedsRecord(f: Facts, caller: Caller, ord: OrderRef, outcome: Outcome)
    requires SettlingOk(f, caller, ord, outcome)
    ensures outcome.status == Some(Paid) ==> PaymentRecorded(f.db.payments, ord.id)
  { }

  lemma StartedOk(f: Facts, o: OrderId, child: Pid)
    requires FulfilmentsOk(f.db, f.owner, f.log)
    requires o < |f.db.orders| && f.db.orders[o].status == Paid && o !in f.owner
    ensures FulfilmentsOk(f.db, f.owner[o := child], f.log + [FulfilStarted(o)])
  {
    forall x: OrderId { CountsAppend(f.log, FulfilStarted(o), x); }
  }

  lemma StartFulfilmentFacts(f: Facts, o: OrderId, child: Pid)
    requires FactsOk(f)
    requires o < |f.db.orders| && f.db.orders[o].status == Paid && o !in f.owner
    ensures FactsOk(OwnedFacts(f, o, child)) && FactsLater(f, OwnedFacts(f, o, child))
  {
    var g := OwnedFacts(f, o, child);
    hide DbOk, Conserved, FulfilmentsOk, SettlementsOk, DoorOk, DeliveriesOk, AuditOk;
    StartedOk(f, o, child);
    OtherEvent(f, FulfilStarted(o));
    EmailFlags(f);
    DbLaterSame(f.db);
    hide DbLater;
    DeliveriesLater(f, g);
  }

  lemma DbLaterSame(db: Db)
    ensures DbLater(db, db)
  { }

  lemma EmailFlags(f: Facts)
    requires DeliveriesOk(f.db, f.log)
    ensures forall x: OrderId :: x < |f.db.orders| && f.db.orders[x].emailSent ==> WasEmailed(f.log, x)
  { }

  lemma StartFulfilmentKeeps(s: Sys, o: OrderId, child: Pid)
    requires Inv(s) && child !in s.procs
    requires o < |s.facts.db.orders| && s.facts.db.orders[o].status == Paid && o !in s.facts.owner
    requires TicketsOf(s.facts.db.tickets, o) == []
    ensures Inv(StartFulfilment(s, o, child)) && Later(s, StartFulfilment(s, o, child))
  {
    var t := StartFulfilment(s, o, child);
    hide FactsOk, ProcOk;
    StartFulfilmentFacts(s.facts, o, child);
    hide FactsLater;
    OthersStable(s, t, child);
    assert ProcOk(t.facts, child, FulfilCalled(o)) by { FulfilCalledOk(t.facts, child, o); }
  }

  lemma FulfilCalledOk(f: Facts, p: Pid, o: OrderId)
    requires Unissued(f, p, o)
    ensures ProcOk(f, p, FulfilCalled(o))
  { }

  /** The order a process settles was unissued, and had no fulfilment process. */
  lemma UnissuedBefore(s: Sys, o: OrderId)
    requires Inv(s) && IsPending(s.facts.db, o)
    ensures TicketsOf(s.facts.db.tickets, o) == [] && o !in s.facts.owner
  { }

  lemma SettleStepPays(s: Sys, p: Pid, child: Pid, after: Db)
    requires Inv(s) && p in s.procs && (s.procs[p].Settling? || s.procs[p].Committing?) && child !in s.procs
    requires SettleResult(s, p) == Applied(after) && s.procs[p].outcome.status == Some(Paid)
    ensures var r := s.procs[p];
            var t := Put(Settled(s, after, r.ord.id, Paid, r.outcome.restore, p),
                         p, Resume(r.caller, r.ord, true, false));
            Inv(StartFulfilment(t, r.ord.id, child)) && Later(s, StartFulfilment(t, r.ord.id, child))
  {
    var r := s.procs[p];
    UnissuedBefore(s, r.ord.id);
    SettleStepApplies(s, p, false, after);
    hide Inv, Later;
    var t := Put(Settled(s, after, r.ord.id, Paid, r.outcome.restore, p), p, Resume(r.caller, r.ord, true, false));
    assert after.tickets == s.facts.db.tickets && after.orders[r.ord.id].status == Paid;
    StartFulfilmentKeeps(t, r.ord.id, child);
    LaterTransitive(s, t, StartFulfilment(t, r.ord.id, child));
  }

  lemma DoSettleKeeps(s: Sys, p: Pid, fate: Fate, child: Pid)
    requires Inv(s)
    ensures Inv(DoSettle(s, p, fate, child)) && Later(s, DoSettle(s, p, fate, child))
  {
    LaterReflexive(s);
    hide Inv, Later;
    if p in s.procs && (s.procs[p].Settling? || s.procs[p].Committing?) && child !in s.procs {
      var r := s.procs[p];
      var result := SettleResult(s, p);
      if result.Failed? || (result.Applied? && fate == RollsBack) {
        SettleStepFails(s, p, true);
      } else if result.Skipped? {
        SettleStepFails(s, p, fate != Commits);
      } else {
        SettleStepApplies(s, p, fate != Commits, result.db);
        if r.outcome.status == Some(Paid) {
          SettleStepPays(s, p, child, result.db);
        }
      }
    }
  }
}
