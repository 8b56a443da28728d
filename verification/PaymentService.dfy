/** The settlement protocol: every provider answer, refresh and sweep moves an order through
    one guarded transaction.

    Each method is given the process it runs as, and says which actions of the interleaved system
    it appends to `own`; with nobody else at work and no faults, it is proved to compute the
    functions of modules Uncontended and Sweeps. */
module PaymentService {
  import opened Wrappers
  import opened Schema
  import opened ProviderStatus
  import opened Transactions
  import opened System
  import opened Invariant
  import opened Storage
  import opened Uncontended
  import opened Sweeps
  import opened History
  import opened TicketSteps
  import opened FulfilmentFaults
  import Guarantees
  import NotificationService
  import TicketService

  /** The order whose fulfilment is started in the run and still to be spawned. */
  function Owed(caller: Caller, ord: OrderRef, outcome: Outcome, applied: bool, err: bool): Option<OrderId> {
    if applied && !err && caller.ForAnswer? && outcome.status == Some(Paid) then Some(ord.id) else None
  }

  /** The actions of a settling transaction: the line items are read if they are needed. */
  predicate SettlementActs(p: Pid, acts: seq<Action>) {
    || (|acts| == 1 && acts[0].Settle? && acts[0].p == p)
    || (|acts| == 2 && acts[0] == ReadLines(p) && acts[1].Settle? && acts[1].p == p)
  }

  /** The actions that apply an answer: it is recorded, then decided, then perhaps settles. */
  predicate AnswerActs(p: Pid, acts: seq<Action>) {
    && |acts| >= 1 && acts[0].Record? && acts[0].p == p
    && (|acts| >= 2 ==> acts[0].fate == Commits && acts[1] == Decide(p))
    && (|acts| >= 3 ==> SettlementActs(p, acts[2..]))
  }

  /** The actions of a notification: its start, the lookup, and those that apply the answer. */
  predicate NotificationActs(p: Pid, answer: Answer, acts: seq<Action>) {
    && |acts| >= 2 && acts[0] == StartAnswer(p, answer)
    && (acts[1] == LoadOrder(p) || (acts[1] == Abort(p) && |acts| == 2))
    && (|acts| >= 3 ==> AnswerActs(p, acts[2..]))
  }

  /** The process and the body of its transaction, just before it ends. */
  ghost predicate SettlesSo(s: Sys, p: Pid, caller: Caller, ord: OrderRef, outcome: Outcome, work: Db,
                            applied: bool, bodyErr: bool, fate: Fate)
    requires p in s.procs && outcome.status.Some?
  {
    var lines := LinesOf(s.facts.db.items, ord.id);
    var r := SettleTx(s.facts.db, ord.id, outcome.status.value, outcome.restore, lines);
    && (|| s.procs[p] == Committing(caller, ord, outcome, lines)
        || (s.procs[p] == Settling(caller, ord, outcome) && (bodyErr || !applied || !outcome.restore)))
    && (if bodyErr then fate == RollsBack
        else if applied then r == Applied(work)
        else r == Skipped && work == s.facts.db)
  }

  /** A body without an error has the result of the run's settling action, whether or not it had
      to read the line items. */
  lemma SettlesWith(s: Sys, p: Pid, caller: Caller, ord: OrderRef, outcome: Outcome, work: Db,
                    applied: bool, bodyErr: bool, fate: Fate)
    requires p in s.procs && outcome.status.Some? && outcome.status != Some(Pending)
    requires SettlesSo(s, p, caller, ord, outcome, work, applied, bodyErr, fate)
    ensures var r := s.procs[p]; (r.Settling? || r.Committing?) && r.caller == caller && r.ord == ord && r.outcome == outcome
    ensures if bodyErr then fate == RollsBack
            else if applied then SettleResult(s, p) == Applied(work)
            else SettleResult(s, p) == Skipped && work == s.facts.db
  {
    hide LinesOf, RestoreLines;
  }

  /** What a settling transaction leaves: the rows of its body if it committed, and its process
      where the caller resumes. */
  lemma SettleMove(s: Sys, p: Pid, caller: Caller, ord: OrderRef, outcome: Outcome, work: Db,
                   applied: bool, bodyErr: bool, fate: Fate, child: Pid)
    requires p in s.procs && child !in s.procs && outcome.status.Some? && outcome.status != Some(Pending)
    requires SettlesSo(s, p, caller, ord, outcome, work, applied, bodyErr, fate)
    ensures var t := Next(s, Settle(p, fate, child));
            && t.clock == s.clock
            && t.facts.db == (if fate == RollsBack then s.facts.db else work)
            && p in t.procs
            && t.procs[p] == Resume(caller, ord, applied && fate != RollsBack, fate != Commits)
  {
    SettlesWith(s, p, caller, ord, outcome, work, applied, bodyErr, fate);
    hide SettlesSo, SettleResult, AfterAnswer;
  }

  /** And what it starts is what is then owed. */
  lemma SettleStarts(s: Sys, p: Pid, caller: Caller, ord: OrderRef, outcome: Outcome, work: Db,
                     applied: bool, bodyErr: bool, fate: Fate, child: Pid)
    requires p in s.procs && child !in s.procs && outcome.status.Some? && outcome.status != Some(Pending)
    requires SettlesSo(s, p, caller, ord, outcome, work, applied, bodyErr, fate)
    ensures Starts(s, Settle(p, fate, child)) == Owed(caller, ord, outcome, applied, fate != Commits)
  {
    SettlesWith(s, p, caller, ord, outcome, work, applied, bodyErr, fate);
    hide SettlesSo, SettleResult;
  }

  ghost method LinesMove(store: Store, p: Pid, caller: Caller, ord: OrderRef, outcome: Outcome)
    requires store.Valid() && store.At(p, Settling(caller, ord, outcome))
    modifies store`trace, store`sys, store`own
    ensures store.Valid() && old(store.trace) <= store.trace && store.own == old(store.own) + [ReadLines(p)]
    ensures store.At(p, Committing(caller, ord, outcome, LinesOf(store.rows.items, ord.id)))
  {
    hide Store.Running, LinesOf;
    store.Move(ReadLines(p), p, Committing(caller, ord, outcome, LinesOf(store.rows.items, ord.id)));
  }

  /** The body of the settling transaction: the guarded update, and one restore per line item.
      The line items are read on another connection. */
  method MoveAndRelease(store: Store, ghost p: Pid, ghost caller: Caller, ord: OrderRef, outcome: Outcome)
    returns (applied: bool, err: bool, ghost acts: seq<Action>)
    requires store.Valid() && store.At(p, Settling(caller, ord, outcome)) && store.work == store.rows
    requires outcome.status.Some?
    modifies store`work, store`trace, store`sys, store`own
    ensures store.Valid() && old(store.trace) <= store.trace
    ensures || store.At(p, Settling(caller, ord, outcome))
            || store.At(p, Committing(caller, ord, outcome, LinesOf(store.rows.items, ord.id)))
    ensures !err && applied && outcome.restore ==>
              store.At(p, Committing(caller, ord, outcome, LinesOf(store.rows.items, ord.id)))
    ensures store.own == old(store.own) + acts && (acts == [] || acts == [ReadLines(p)])
    ensures var r := SettleTx(store.rows, ord.id, outcome.status.value, outcome.restore, LinesOf(store.rows.items, ord.id));
            && (!err && applied ==> r == Applied(store.work))
            && (!err && !applied ==> r == Skipped && store.work == store.rows)
            && (err && store.reliable ==> r == Failed)
  {
    hide Store.Owing, Store.At, Next, LinesOf, RestoreLines;
    acts := [];
    applied, err := store.UpdateStatusIfPending(ord.id, outcome.status.value);
    if err || !applied || !outcome.restore {
      return;
    }
    var items;
    items, err := store.LineItems(ord.id);
    if err {
      return;
    }
    LinesMove(store, p, caller, ord, outcome);
    acts := [ReadLines(p)];
    err := ReleaseLines(store, items);
  }

  /** After an error no caller looks at what was applied. */
  lemma ResumeIgnores(caller: Caller, ord: OrderRef, applied: bool)
    ensures Resume(caller, ord, applied, true) == Resume(caller, ord, false, true)
  { }

  /** The end of the settling transaction is the run's next action. */
  ghost method SettleTaken(store: Store, p: Pid, caller: Caller, ord: OrderRef, outcome: Outcome, before: Db,
                           applied: bool, bodyErr: bool, fate: Fate)
    returns (act: Action)
    requires store.Running(None) && store.sys.facts.db == before && store.sys.clock == store.now
    requires outcome.status.Some? && outcome.status != Some(Pending)
    requires var lines := LinesOf(before.items, ord.id);
             var r := SettleTx(before, ord.id, outcome.status.value, outcome.restore, lines);
             && (|| store.At(p, Committing(caller, ord, outcome, lines))
                 || (store.At(p, Settling(caller, ord, outcome)) && (bodyErr || !applied || !outcome.restore)))
             && (if bodyErr then fate == RollsBack
                 else if applied then r == Applied(store.work)
                 else r == Skipped && store.work == before)
    requires store.rows == if fate == RollsBack then before else store.work
    modifies store`trace, store`sys, store`own
    ensures store.Owing(Owed(caller, ord, outcome, applied, fate != Commits)) && old(store.trace) <= store.trace
    ensures store.own == old(store.own) + [act] && act.Settle? && act.p == p
    ensures store.At(p, Resume(caller, ord, applied, fate != Commits))
  {
    ResumeIgnores(caller, ord, applied);
    hide Store.Running, Store.Owing, Next, LinesOf, SettleTx, Starts, Owed, Resume;
    var child := FreshPid(store.sys);
    SettleMove(store.sys, p, caller, ord, outcome, store.work, applied, bodyErr, fate, child);
    SettleStarts(store.sys, p, caller, ord, outcome, store.work, applied, bodyErr, fate, child);
    act := Settle(p, fate, child);
    store.Take(act);
  }

  lemma SettlementIs(p: Pid, before: seq<Action>, act: Action)
    requires (before == [] || before == [ReadLines(p)]) && act.Settle? && act.p == p
    ensures SettlementActs(p, before + [act])
  { }

  /** The guarded transition with its release, and the answer that goes with it. */
  ghost predicate SettlesExactly(db: Db, after: Db, ord: OrderRef, outcome: Outcome, applied: bool, err: bool)
    requires outcome.status.Some?
  {
    var r := SettleTx(db, ord.id, outcome.status.value, outcome.restore, LinesOf(db.items, ord.id));
    && (err <==> r == Failed) && (!err ==> applied == r.Applied?)
    && after == if r.Applied? then r.db else db
  }

  method ApplyOutcome(store: Store, ghost p: Pid, ghost caller: Caller, ord: OrderRef, outcome: Outcome)
    returns (applied: bool, err: bool, ghost acts: seq<Action>)
    requires store.Valid() && store.At(p, Settling(caller, ord, outcome))
    requires outcome.status.Some? && outcome.status != Some(Pending)
    modifies store
    ensures store.Owing(Owed(caller, ord, outcome, applied, err)) && old(store.trace) <= store.trace
    ensures store.own == old(store.own) + acts && SettlementActs(p, acts)
    ensures store.At(p, Resume(caller, ord, applied, err))
    ensures store.alone ==> store.now == old(store.now) && store.spawned == old(store.spawned)
    ensures store.alone && store.reliable ==> SettlesExactly(old(store.rows), store.rows, ord, outcome, applied, err)
  {
    hide Store.Running, Next, LinesOf, SettleTx, Store.At, Resume, Owed, SettlementActs;
    store.Yield(p, Settling(caller, ord, outcome));
    applied, acts := false, [];
    ghost var before := store.rows;
    err := store.Begin();
    if !err {
      applied, err, acts := MoveAndRelease(store, p, caller, ord, outcome);
    }
    var fate := store.Finish(err);
    ghost var act := SettleTaken(store, p, caller, ord, outcome, before, applied, err, fate);
    SettlementIs(p, acts, act);
    acts := acts + [act];
    err := fate != Commits;
  }

  /** The place from which a refresh, or a sweep, looks at an order's deadline. */
  ghost function BeforeCheck(caller: Caller, ord: OrderRef): Proc
    requires !caller.ForAnswer?
  {
    if caller.ForDueRefresh? then RefreshLoaded(ord) else Sweeping([ord] + caller.rest)
  }

  ghost function AfterCheck(caller: Caller, ord: OrderRef, due: bool, applied: bool, err: bool): Proc
    requires !caller.ForAnswer?
  {
    if due then Resume(caller, ord, applied, err)
    else if caller.ForDueRefresh? then RefreshAsking(ord, false)
    else Sweeping(caller.rest)
  }

  /** The deadline check is one move of either caller. */
  ghost method CheckMove(store: Store, p: Pid, caller: Caller, ord: OrderRef)
    requires store.Valid() && !caller.ForAnswer? && store.At(p, BeforeCheck(caller, ord))
    modifies store`trace, store`sys, store`own
    ensures store.Valid() && old(store.trace) <= store.trace
    ensures store.own == old(store.own) + [if caller.ForDueRefresh? then CheckDue(p) else NextDue(p)]
    ensures store.At(p, if Overdue(ord, store.now) then Settling(caller, ord, EXPIRES)
                        else AfterCheck(caller, ord, false, false, false))
  {
    hide Store.Running, Resume;
    var proc := if Overdue(ord, store.now) then Settling(caller, ord, EXPIRES) else AfterCheck(caller, ord, false, false, false);
    if caller.ForSweep? {
      assert ([ord] + caller.rest)[1..] == caller.rest;
      store.Move(NextDue(p), p, proc);
    } else {
      store.Move(CheckDue(p), p, proc);
    }
  }

  /** expireIfDue. `due` is what its own deadline check found. */
  method ExpireIfDue(store: Store, ghost p: Pid, ghost caller: Caller, ord: OrderRef)
    returns (applied: bool, err: bool, ghost due: bool, ghost acts: seq<Action>)
    requires store.Valid() && !caller.ForAnswer? && store.At(p, BeforeCheck(caller, ord))
    modifies store
    ensures store.Valid() && old(store.trace) <= store.trace
    ensures store.At(p, AfterCheck(caller, ord, due, applied, err))
    ensures !due ==> !applied && !err
    ensures store.own == old(store.own) + acts && |acts| >= 1
    ensures acts[0] == if caller.ForDueRefresh? then CheckDue(p) else NextDue(p)
    ensures if due then SettlementActs(p, acts[1..]) else |acts| == 1
    ensures store.alone ==> due == Overdue(ord, store.now)
    ensures store.alone ==> store.now == old(store.now) && store.spawned == old(store.spawned)
    ensures store.alone && store.reliable ==> store.rows == ExpireOne(old(store.rows), ord, store.now)
    ensures store.alone && store.reliable ==>
              && (applied && !err <==> due && IsPending(old(store.rows), ord.id) && Fits(old(store.rows), ord.id))
              && (err <==> due && IsPending(old(store.rows), ord.id) && !Fits(old(store.rows), ord.id))
  {
    hide Store.Running, Next, LinesOf, SettleTx, Resume, Fits, SettlementActs;
    store.Yield(p, BeforeCheck(caller, ord));
    CheckMove(store, p, caller, ord);
    due := Overdue(ord, store.now);
    acts := [if caller.ForDueRefresh? then CheckDue(p) else NextDue(p)];
    if ord.status != Pending || !PastDeadline(ord.deadline, store.now) {
      return false, false, false, acts;
    }
    ExpiresIff(store.rows, ord.id);
    ghost var settlement;
    applied, err, settlement := ApplyOutcome(store, p, caller, ord, EXPIRES);
    assert (acts + settlement)[1..] == settlement;
    acts := acts + settlement;
  }

  // --- Provider answers ----------------------------------------------------------------------

  lemma RecordMove(s: Sys, p: Pid, source: Source, ord: OrderRef, answer: Answer, wasDue: bool, work: Db, bodyErr: bool, fate: Fate)
    requires p in s.procs && s.procs[p] == Recording(source, ord, answer, wasDue)
    requires if bodyErr then fate == RollsBack else RecordTx(s.facts.db, ord.id, answer) == Applied(work)
    ensures var t := Next(s, Record(p, fate));
            && t.clock == s.clock
            && t.facts.db == (if fate == RollsBack then s.facts.db else work)
            && p in t.procs
            && t.procs[p] == if fate == Commits then Deciding(source, ord, answer, wasDue) else Finished(Failure)
  { }

  ghost method DecideMove(store: Store, p: Pid, source: Source, ord: OrderRef, answer: Answer, wasDue: bool)
    requires store.Valid() && store.At(p, Deciding(source, ord, answer, wasDue))
    modifies store`trace, store`sys, store`own
    ensures store.Valid() && old(store.trace) <= store.trace && store.own == old(store.own) + [Decide(p)]
    ensures store.At(p, if GoesOn(ord, OutcomeOf(answer)) then Settling(ForAnswer(source, wasDue), ord, OutcomeOf(answer))
                        else AfterAnswer(source, ord, false))
  {
    hide Store.Running, AfterAnswer, MapProviderStatus;
    store.Move(Decide(p), p, if GoesOn(ord, OutcomeOf(answer)) then Settling(ForAnswer(source, wasDue), ord, OutcomeOf(answer))
                             else AfterAnswer(source, ord, false));
  }

  lemma RecordingOk(s: Sys, p: Pid)
    requires Inv(s) && p in s.procs && s.procs[p].Recording?
    ensures s.procs[p].ord.id < |s.facts.db.orders|
  {
    assert ProcOk(s.facts, p, s.procs[p]);
  }

  /** The audit row, committed on its own. */
  method CreatePayment(store: Store, ghost p: Pid, ghost source: Source, ord: OrderRef, answer: Answer, ghost wasDue: bool)
    returns (err: bool, ghost fate: Fate)
    requires store.Valid() && store.At(p, Recording(source, ord, answer, wasDue))
    modifies store
    ensures store.Valid() && old(store.trace) <= store.trace
    ensures store.own == old(store.own) + [Record(p, fate)] && (err <==> fate != Commits)
    ensures store.At(p, if err then Finished(Failure) else Deciding(source, ord, answer, wasDue))
    ensures store.alone ==> store.now == old(store.now) && store.spawned == old(store.spawned)
    ensures store.alone && store.reliable ==> !err && store.rows == Recorded(old(store.rows), ord.id, answer)
  {
    hide Store.Running, Next, Inv;
    store.Yield(p, Recording(source, ord, answer, wasDue));
    store.Sound();
    RecordingOk(store.sys, p);
    err := store.Begin();
    if !err {
      err := store.InsertPayment(ord.id, answer);
    }
    var end := store.Finish(err);
    RecordMove(store.sys, p, source, ord, answer, wasDue, store.work, err, end);
    store.TakeQuietly(Record(p, end));
    fate := end;
    err := end != Commits;
  }

  /** fulfillAsync spawns, in the background, the fulfilment that the payment has started. */
  method FulfillAsync(store: Store, o: OrderId)
    requires store.Owing(Some(o))
    modifies store`spawned
    ensures store.Valid() && store.spawned == old(store.spawned) + [o]
  {
    SpawnsNext(store.spawned, store.sys.facts.log, o);
    hide Run, Spawns;
    store.spawned := store.spawned + [o];
  }

  /** A fulfilment finds a PAID order with attendees and no ticket. */
  lemma FulfilmentFinds(store: Store, p: Pid, o: OrderId)
    requires store.Valid() && store.At(p, FulfilCalled(o))
    ensures var db := store.rows;
            && o < |db.orders| && db.orders[o].status == Paid && TicketsOf(db.tickets, o) == []
            && AttendeesOf(db.attendees, o) != [] && CodesUnique(db.tickets)
  {
    hide Run, Spawns, Inv, TicketsOf, AttendeesOf, AttendeeTypes, CodesUnique;
    store.Sound();
    CalledKnows(store.sys, p, o);
    ReachableAttended(store.trace);
    AsManyAttendees(store.rows.attendees, o);
  }

  lemma CalledKnows(s: Sys, p: Pid, o: OrderId)
    requires Inv(s) && p in s.procs && s.procs[p] == FulfilCalled(o)
    ensures o < |s.facts.db.orders| && s.facts.db.orders[o].status == Paid
    ensures TicketsOf(s.facts.db.tickets, o) == [] && CodesUnique(s.facts.db.tickets)
  {
    assert ProcOk(s.facts, p, s.procs[p]);
    assert FulfilmentsOk(s.facts.db, s.facts.owner, s.facts.log);
  }

  lemma IssuedInFull(db: Db, o: OrderId, codes: seq<string>, after: Db)
    requires o < |db.orders| && db.orders[o].status == Paid && TicketsOf(db.tickets, o) == []
    requires AttendeesOf(db.attendees, o) != [] && CodesUnique(db.tickets)
    requires |codes| == |AttendeesOf(db.attendees, o)| && IssueTx(db, o, AttendeesOf(db.attendees, o), codes) == Applied(after)
    ensures FullyIssued(after, o) && NotificationService.CanDeliver(after, o)
  {
    IssueRows(db, o, codes, after);
    IssuedTickets(db, o, after, o);
    IssuedDb(db, o, codes, after);
    hide IssueTx, IssuedRows, CodesUnique, TicketsOf, AttendeesOf;
    assert |Holders(TicketsOf(after.tickets, o))| != 0;
  }

  lemma IssuedDb(db: Db, o: OrderId, codes: seq<string>, after: Db)
    requires |codes| == |AttendeesOf(db.attendees, o)| && IssueTx(db, o, AttendeesOf(db.attendees, o), codes) == Applied(after)
    ensures after == db.(tickets := after.tickets)
  {
    hide AttendeesOf;
  }

  lemma MarkedStillIssued(a: Db, b: Db, o: OrderId)
    requires MarkedSent(a, b, o) && FullyIssued(a, o)
    ensures FullyIssued(b, o) && b.orders[o].emailSent
  {
    hide TicketsOf, AttendeesOf;
  }

  /** What an uncontended fulfilment leaves, and when it fails: the codes drawn collide, the PDF
      does not render or the mailer does not accept. Only in the first case are there no tickets. */
  ghost predicate Fulfils(db: Db, o: OrderId, draw: nat -> string, renders: bool, accepted: bool, after: Db, err: bool) {
    var collide := Collide(db.tickets, TicketService.Drawn(draw, |AttendeesOf(db.attendees, o)|));
    && (err <==> collide || !renders || !accepted)
    && (if collide then after == db else FullyIssued(after, o) && (!err ==> after.orders[o].emailSent))
  }

  /** What fulfillAsync runs in the background: tickets first, and no email without them. */
  method Fulfill(store: Store, ghost p: Pid, o: OrderId, draw: nat -> string, renders: bool,
                 mailing: NotificationService.Mailing)
    returns (err: bool, ghost acts: seq<Action>)
    requires store.Valid() && store.At(p, FulfilCalled(o))
    modifies store
    ensures store.Valid() && old(store.trace) <= store.trace
    ensures store.At(p, Finished(if err then Failure else Done))
    ensures store.own == old(store.own) + acts && OwnMoves(p, acts)
    ensures !err ==> NotificationService.Delivered(store.sys.facts, o)
    ensures !renders || !mailing.Accepts? ==> err
    ensures store.alone && store.reliable ==>
              Fulfils(old(store.rows), o, draw, renders, mailing.Accepts?, store.rows, err)
  {
    hide *;
    ghost var before, ids := store.rows, AttendeesOf(store.rows.attendees, o);
    FulfilmentFinds(store, p, o);
    err, acts := TicketService.IssueTicketsForOrder(store, p, o, draw);
    ghost var issued := store.rows;
    if store.alone && store.reliable {
      IssuanceIs(before, o, ids, draw, issued, err);
    }
    if err {
      if store.alone && store.reliable {
        FulfilsNot(before, o, draw, renders, mailing.Accepts?);
      }
      return;
    }
    ghost var delivery;
    err, delivery := NotificationService.SendTicketEmail(store, p, o, renders, mailing);
    OwnMovesAppend(p, acts, delivery);
    acts := acts + delivery;
    if store.alone && store.reliable {
      if !err {
        MarkedStillIssued(issued, store.rows, o);
      }
      FulfilsSo(before, o, draw, renders, mailing.Accepts?, store.rows, err);
    }
  }

  lemma IssuanceIs(db: Db, o: OrderId, ids: seq<AttendeeId>, draw: nat -> string, after: Db, err: bool)
    requires ids == AttendeesOf(db.attendees, o) && o < |db.orders| && db.orders[o].status == Paid
    requires TicketsOf(db.tickets, o) == [] && ids != [] && CodesUnique(db.tickets)
    requires TicketService.IssuesAs(db, o, ids, draw, after, err)
    ensures err <==> Collide(db.tickets, TicketService.Drawn(draw, |ids|))
    ensures if err then after == db else FullyIssued(after, o) && NotificationService.CanDeliver(after, o)
  {
    hide Collide, IssueTx, TicketsOf, AttendeesOf, CodesUnique;
    if !err {
      IssuedInFull(db, o, TicketService.Drawn(draw, |ids|), after);
    }
  }

  lemma FulfilsNot(db: Db, o: OrderId, draw: nat -> string, renders: bool, accepted: bool)
    requires Collide(db.tickets, TicketService.Drawn(draw, |AttendeesOf(db.attendees, o)|))
    ensures Fulfils(db, o, draw, renders, accepted, db, true)
  { }

  lemma FulfilsSo(db: Db, o: OrderId, draw: nat -> string, renders: bool, accepted: bool, after: Db, err: bool)
    requires !Collide(db.tickets, TicketService.Drawn(draw, |AttendeesOf(db.attendees, o)|))
    requires (err <==> !renders || !accepted) && FullyIssued(after, o) && (!err ==> after.orders[o].emailSent)
    ensures Fulfils(db, o, draw, renders, accepted, after, err)
  { }

  lemma DecidedCases(db: Db, ord: OrderRef, answer: Answer)
    ensures var outcome, r := OutcomeOf(answer), Decided(db, ord, answer);
            if GoesOn(ord, outcome) then
              var settled := SettleTx(db, ord.id, outcome.status.value, outcome.restore, LinesOf(db.items, ord.id));
              r == if settled.Applied? then Notified(settled.db, true, outcome.status == Some(Paid)) else Notified(db, false, false)
            else r == Notified(db, false, false)
  { }

  /** The settling transaction fails exactly on a release that does not fit. */
  lemma SettlementRefused(db: Db, ord: OrderRef, answer: Answer)
    requires GoesOn(ord, OutcomeOf(answer))
    ensures var outcome := OutcomeOf(answer);
            ReleaseRefused(db, ord, answer)
            <==> SettleTx(db, ord.id, outcome.status.value, outcome.restore, LinesOf(db.items, ord.id)) == Failed
  {
    hide MapProviderStatus;
  }

  lemma RefusedOnRows(db: Db, o: OrderId, ord: OrderRef, answer: Answer)
    ensures ReleaseRefused(Recorded(db, o, answer), ord, answer) <==> ReleaseRefused(db, ord, answer)
  {
    hide MapProviderStatus, RestoreLines, LinesOf;
  }

  method ApplyProviderResult(store: Store, ghost p: Pid, ghost source: Source, ord: OrderRef, answer: Answer, ghost wasDue: bool)
    returns (changed: bool, err: bool, ghost acts: seq<Action>)
    requires store.Valid() && store.At(p, Recording(source, ord, answer, wasDue))
    modifies store
    ensures store.Valid() && old(store.trace) <= store.trace
    ensures store.own == old(store.own) + acts && AnswerActs(p, acts)
    ensures store.At(p, if err then Finished(Failure) else AfterAnswer(source, ord, changed))
    ensures store.alone ==> store.now == old(store.now)
    ensures store.alone && store.reliable ==>
              var decided := Decided(Recorded(old(store.rows), ord.id, answer), ord, answer);
              && store.rows == decided.db && (changed && !err <==> decided.changed)
              && (err <==> ReleaseRefused(old(store.rows), ord, answer))
              && store.spawned == old(store.spawned) + if decided.fulfils then [ord.id] else []
  {
    hide Store.Owing, Next, LinesOf, SettleTx, MapProviderStatus, Decided, Recorded, AfterAnswer, Store.At, SettlementActs, Fits;
    RefusedOnRows(store.rows, ord.id, ord, answer);
    ghost var fate;
    err, fate := CreatePayment(store, p, source, ord, answer, wasDue);
    acts := [Record(p, fate)];
    if err {
      return false, true, acts;
    }
    DecidedCases(store.rows, ord, answer);
    ghost var recorded := store.rows;
    DecideMove(store, p, source, ord, answer, wasDue);
    acts := acts + [Decide(p)];
    if ord.status == Paid {
      return false, false, acts;
    }
    var outcome := MapProviderStatus(answer.txStatus, answer.fraud);
    if !outcome.handled || outcome.status.None? || (outcome.status == Some(Paid) && ord.status != Pending) {
      return false, false, acts;
    }
    SettlementRefused(recorded, ord, answer);
    ghost var settlement;
    changed, err, settlement := ApplyOutcome(store, p, ForAnswer(source, wasDue), ord, outcome);
    assert (acts + settlement)[2..] == settlement;
    acts := acts + settlement;
    if err || !changed {
      return;
    }
    if outcome.status == Some(Paid) {
      FulfillAsync(store, ord.id);
    }
  }

  /** The moves that lead a process to an order: its start, and the lookup by number. */
  ghost method AnswerMove(store: Store, answer: Answer) returns (p: Pid)
    requires store.Valid()
    modifies store`trace, store`sys, store`own
    ensures store.Valid() && old(store.trace) <= store.trace && store.At(p, Answered(answer))
    ensures store.own == old(store.own) + [StartAnswer(p, answer)]
  {
    hide Store.Running;
    p := FreshPid(store.sys);
    store.Move(StartAnswer(p, answer), p, Answered(answer));
  }

  ghost method LookupMove(store: Store, p: Pid, answer: Answer)
    requires store.Valid() && store.At(p, Answered(answer))
    modifies store`trace, store`sys, store`own
    ensures store.Valid() && old(store.trace) <= store.trace && store.own == old(store.own) + [LoadOrder(p)]
    ensures store.At(p, AfterLookup(store.rows.orders, answer))
  {
    hide Store.Running, AfterLookup;
    store.Move(LoadOrder(p), p, AfterLookup(store.rows.orders, answer));
  }

  lemma NotifyIs(db: Db, answer: Answer)
    ensures match FindByNumber(db.orders, answer.number)
            case None => Notify(db, answer) == Notified(db, false, false)
            case Some(o) =>
              && Notify(db, answer) == Decided(Recorded(db, o, answer), RefTo(db.orders, o), answer)
              && (Unsettleable(db, answer) <==> ReleaseRefused(db, RefTo(db.orders, o), answer))
    ensures FindByNumber(db.orders, answer.number).None? ==> !Unsettleable(db, answer)
  {
    hide Fits, MapProviderStatus;
  }

  lemma NotificationIs(p: Pid, answer: Answer, second: Action, tail: seq<Action>)
    requires second == LoadOrder(p) || (second == Abort(p) && tail == [])
    requires tail == [] || AnswerActs(p, tail)
    ensures NotificationActs(p, answer, [StartAnswer(p, answer), second] + tail)
  {
    hide AnswerActs;
    assert ([StartAnswer(p, answer), second] + tail)[2..] == tail;
  }

  /** The lookup of the order that an answer is about. */
  method FindNotified(store: Store, answer: Answer) returns (ord: Option<OrderRef>, err: bool, ghost p: Pid)
    requires store.Valid()
    modifies store
    ensures store.Valid() && old(store.trace) <= store.trace
    ensures store.own == old(store.own) + [StartAnswer(p, answer), if err then Abort(p) else LoadOrder(p)]
    ensures store.At(p, if err then Finished(Failure) else AfterLookup(store.rows.orders, answer))
    ensures !err ==> (ord.None? <==> FindByNumber(store.rows.orders, answer.number).None?)
    ensures !err && ord.Some? ==> ord.value == RefTo(store.rows.orders, FindByNumber(store.rows.orders, answer.number).value)
    ensures store.alone ==> store.rows == old(store.rows) && store.spawned == old(store.spawned)
    ensures store.reliable ==> !err
  {
    hide Store.Owing, Next, Store.At, FindByNumber, AfterLookup;
    p := AnswerMove(store, answer);
    store.Yield(p, Answered(answer));
    ord, err := store.OrderByNumber(answer.number);
    if err {
      store.Quit(p, Answered(answer));
      return;
    }
    LookupMove(store, p, answer);
  }

  /** A notification; `verified` is None when its signature is refused. */
  method HandleNotification(store: Store, verified: Option<Answer>)
    returns (err: bool, ghost p: Pid, ghost acts: seq<Action>)
    requires store.Valid()
    modifies store
    ensures store.Valid() && old(store.trace) <= store.trace && store.own == old(store.own) + acts
    ensures verified.None? ==> err && store.rows == old(store.rows) && store.trace == old(store.trace)
    ensures if verified.None? then acts == [] else NotificationActs(p, verified.value, acts)
    ensures verified.Some? ==> store.At(p, Finished(if err then Failure else Done))
    ensures verified.Some? && store.alone && store.reliable ==>
              var notified := Notify(old(store.rows), verified.value);
              && store.rows == notified.db && (err <==> Unsettleable(old(store.rows), verified.value))
              && store.spawned == old(store.spawned)
                 + if notified.fulfils then [FindByNumber(old(store.rows).orders, verified.value.number).value] else []
  {
    hide Store.Owing, Next, Decided, FindByNumber, Recorded, AnswerActs, NotificationActs, Store.At, Notify, Unsettleable,
      ReleaseRefused;
    p, acts := 0, [];
    if verified.None? {
      return true, p, acts;
    }
    var answer := verified.value;
    var ord;
    ord, err, p := FindNotified(store, answer);
    if err {
      NotificationIs(p, answer, Abort(p), []);
      acts := [StartAnswer(p, answer), Abort(p)] + [];
      return;
    }
    NotifyIs(store.rows, answer);
    ghost var tail := [];
    if ord.Some? {
      var changed;
      changed, err, tail := ApplyProviderResult(store, p, Webhook, ord.value, answer, false);
    }
    NotificationIs(p, answer, LoadOrder(p), tail);
    acts := [StartAnswer(p, answer), LoadOrder(p)] + tail;
  }

  // --- Reconciliation ------------------------------------------------------------------------------

  datatype RefreshResult = RefreshResult(number: string, status: Status, changed: bool)

  /** What a refresh does with the answer it was given. */
  ghost predicate RefreshedBy(db: Db, o: OrderId, answer: Answer, after: Db, r: Option<RefreshResult>)
    requires o < |db.orders|
  {
    var decided := Decided(Recorded(db, o, answer), RefTo(db.orders, o), answer);
    && after == decided.db
    && (r.None? <==> ReleaseRefused(db, RefTo(db.orders, o), answer))
    && (r.Some? ==> o < |after.orders|
                    && r.value == RefreshResult(db.orders[o].number, after.orders[o].status, decided.changed))
  }

  /** What an uncontended refresh answers, and the rows it leaves, if the provider answers `fetched`
      when it is asked. */
  ghost predicate Refreshes(db: Db, now: int, number: string, fetched: Option<Answer>, after: Db, r: Option<RefreshResult>) {
    match FindByNumber(db.orders, number)
    case None => r.None? && after == db
    case Some(o) =>
      var ord := RefTo(db.orders, o);
      if ord.status != Pending then after == db && r == Some(RefreshResult(number, ord.status, false))
      else RefreshesPending(db, now, o, fetched, after, r)
  }

  /** The same for a PENDING order: past its deadline it is expired if its seats fit, and otherwise
      the provider is asked and its answer applied. */
  ghost predicate RefreshesPending(db: Db, now: int, o: OrderId, fetched: Option<Answer>, after: Db, r: Option<RefreshResult>)
    requires o < |db.orders|
  {
    var ord := RefTo(db.orders, o);
    if Overdue(ord, now) then
      after == ExpireOne(db, ord, now) && r == if Fits(db, o) then Some(RefreshResult(ord.number, Expired, true)) else None
    else if fetched.None? then r.None? && after == db
    else RefreshedBy(db, o, fetched.value, after, r)
  }

  /** The fulfilments it starts: that of a PENDING order not past its deadline, if the provider says
      that money was received. */
  function RefreshStarts(db: Db, now: int, number: string, fetched: Option<Answer>): (started: seq<OrderId>) {
    match FindByNumber(db.orders, number)
    case None => []
    case Some(o) =>
      if db.orders[o].status == Pending then PendingStarts(db.orders[o].deadline, o, now, fetched) else []
  }

  function PendingStarts(deadline: Option<int>, o: OrderId, now: int, fetched: Option<Answer>): (started: seq<OrderId>) {
    if !PastDeadline(deadline, now) && fetched.Some? && Receives(fetched.value.txStatus, fetched.value.fraud) then [o] else []
  }

  /** In particular, on a PENDING order not past its deadline, a provider that says that money was
      received makes it PAID, and the refresh answers so as its own change. */
  lemma RefreshPays(db: Db, now: int, number: string, answer: Answer, after: Db, r: Option<RefreshResult>)
    requires Refreshes(db, now, number, Some(answer), after, r)
    requires FindByNumber(db.orders, number).Some? && Receives(answer.txStatus, answer.fraud)
    requires var row := db.orders[FindByNumber(db.orders, number).value];
             row.status == Pending && !PastDeadline(row.deadline, now)
    ensures var o := FindByNumber(db.orders, number).value;
            && r == Some(RefreshResult(number, Paid, true))
            && o < |after.orders| && after.orders[o].status == Paid
            && after.payments == db.payments + [PaymentRow(o, answer)]
  {
    var o := FindByNumber(db.orders, number).value;
    Meanings(answer.txStatus, answer.fraud);
    DecidedMeans(db, o, answer);
    hide FindByNumber, MapProviderStatus, Receives, Decided, Recorded, ExpireOne, Fits;
  }

  /** What an answer fetched for this order starts. */
  lemma DecidedStarts(db: Db, o: OrderId, answer: Answer)
    requires o < |db.orders| && IsPending(db, o)
    ensures Decided(Recorded(db, o, answer), RefTo(db.orders, o), answer).fulfils <==> Receives(answer.txStatus, answer.fraud)
  {
    DecidedMeans(db, o, answer);
    hide *;
  }

  lemma {:induction false} FindSameNumber(a: seq<Order>, b: seq<Order>, number: string)
    requires |a| == |b| && forall o :: 0 <= o < |a| ==> a[o].number == b[o].number
    ensures FindByNumber(a, number) == FindByNumber(b, number)
  {
    if a != [] {
      FindSameNumber(a[..|a| - 1], b[..|b| - 1], number);
    }
  }

  /** An answer changes no order number. */
  lemma DecidedKeepsNumbers(db: Db, ord: OrderRef, answer: Answer)
    ensures var after := Decided(db, ord, answer).db;
            |after.orders| == |db.orders| && forall o :: 0 <= o < |db.orders| ==> after.orders[o].number == db.orders[o].number
  {
    hide RestoreLines, LinesOf, MapProviderStatus;
  }

  lemma ExpiryApplies(db: Db, o: OrderId, now: int)
    requires o < |db.orders|
    ensures var ord := RefTo(db.orders, o);
            && (Overdue(ord, now) ==> IsPending(db, o))
            && (!Overdue(ord, now) || !Fits(db, o) ==> ExpireOne(db, ord, now) == db)
  { }

  ghost method FetchMove(store: Store, p: Pid, ord: OrderRef, wasDue: bool, answer: Answer)
    requires store.Valid() && store.At(p, RefreshAsking(ord, wasDue))
    modifies store`trace, store`sys, store`own
    ensures store.Valid() && old(store.trace) <= store.trace && store.At(p, Recording(Refresh, ord, answer, wasDue))
    ensures store.own == old(store.own) + [FetchAnswer(p, answer)]
  {
    hide Store.Running;
    store.Move(FetchAnswer(p, answer), p, Recording(Refresh, ord, answer, wasDue));
  }

  function Reread(orders: seq<Order>, number: string, changed: bool): Reply {
    match FindByNumber(orders, number)
    case None => Failure
    case Some(o) => Refreshed(o, orders[o].status, changed)
  }

  ghost method RereadMove(store: Store, p: Pid, ord: OrderRef, changed: bool)
    requires store.Valid() && store.At(p, Rereading(ord, changed))
    modifies store`trace, store`sys, store`own
    ensures store.Valid() && old(store.trace) <= store.trace
    ensures store.At(p, Finished(Reread(store.rows.orders, ord.number, changed)))
    ensures store.own == old(store.own) + [System.Reread(p)]
  {
    hide Store.Running;
    store.Move(System.Reread(p), p, Finished(Reread(store.rows.orders, ord.number, changed)));
  }

  lemma StillFound(db: Db, o: OrderId, answer: Answer)
    requires o < |db.orders| && FindByNumber(db.orders, db.orders[o].number) == Some(o)
    ensures var after := Decided(Recorded(db, o, answer), RefTo(db.orders, o), answer).db;
            FindByNumber(after.orders, db.orders[o].number) == Some(o)
  {
    hide Decided;
    DecidedKeepsNumbers(Recorded(db, o, answer), RefTo(db.orders, o), answer);
    FindSameNumber(db.orders, Decided(Recorded(db, o, answer), RefTo(db.orders, o), answer).db.orders, db.orders[o].number);
  }

  /** The answer of a refresh is what the order's row then says. */
  method ReadAgain(store: Store, ghost p: Pid, ord: OrderRef, changed: bool)
    returns (r: Option<RefreshResult>, ghost id: OrderId, ghost act: Action)
    requires store.Valid() && store.At(p, Rereading(ord, changed))
    modifies store
    ensures store.Valid() && old(store.trace) <= store.trace
    ensures r.Some? ==> store.At(p, Finished(Refreshed(id, r.value.status, r.value.changed))) && r.value.number == ord.number
    ensures r.None? ==> store.At(p, Finished(Failure))
    ensures store.own == old(store.own) + [act] && (act == System.Reread(p) || act == Abort(p))
    ensures store.alone ==> store.rows == old(store.rows) && store.spawned == old(store.spawned)
    ensures store.alone && store.reliable ==>
              match FindByNumber(store.rows.orders, ord.number)
              case None => r.None?
              case Some(o) => r == Some(RefreshResult(ord.number, store.rows.orders[o].status, changed))
  {
    hide Store.Owing, Next;
    r, id, act := None, 0, Abort(p);
    store.Yield(p, Rereading(ord, changed));
    var current, err := store.OrderByNumber(ord.number);
    if err {
      store.Quit(p, Rereading(ord, changed));
      return;
    }
    act := System.Reread(p);
    RereadMove(store, p, ord, changed);
    if current.None? {
      return;
    }
    id := current.value.id;
    r := Some(RefreshResult(current.value.number, current.value.status, changed));
  }

  lemma RefreshedIs(db: Db, o: OrderId, answer: Answer, after: Db, changed: bool, err: bool, r: Option<RefreshResult>)
    requires o < |db.orders|
    requires var decided := Decided(Recorded(db, o, answer), RefTo(db.orders, o), answer);
             after == decided.db && (changed && !err <==> decided.changed)
    requires err <==> ReleaseRefused(db, RefTo(db.orders, o), answer)
    requires if err then r.None?
             else o < |after.orders| && r == Some(RefreshResult(db.orders[o].number, after.orders[o].status, changed))
    ensures RefreshedBy(db, o, answer, after, r)
  {
    hide Decided, Recorded, ReleaseRefused;
  }

  /** The second half of RefreshStatus: ask the provider, apply what it answers, and read again. */
  method Reconcile(store: Store, ghost p: Pid, ord: OrderRef, fetched: Option<Answer>, ghost wasDue: bool)
    returns (r: Option<RefreshResult>, ghost id: OrderId, ghost acts: seq<Action>)
    requires store.Valid() && store.At(p, RefreshAsking(ord, wasDue))
    modifies store
    ensures store.Valid() && old(store.trace) <= store.trace
    ensures r.Some? ==> store.At(p, Finished(Refreshed(id, r.value.status, r.value.changed))) && r.value.number == ord.number
    ensures r.None? ==> store.At(p, Finished(Failure))
    ensures store.own == old(store.own) + acts && OwnMoves(p, acts)
    ensures if fetched.None? then acts == [Abort(p)] && r.None?
            else |acts| >= 2 && acts[0] == FetchAnswer(p, fetched.value) && acts[1].Record?
    ensures store.alone && fetched.None? ==> store.rows == old(store.rows) && store.spawned == old(store.spawned)
    ensures store.alone && store.reliable && fetched.Some?
            && FindByNumber(old(store.rows).orders, ord.number) == Some(ord.id)
            && ord == RefTo(old(store.rows).orders, ord.id) ==>
              && RefreshedBy(old(store.rows), ord.id, fetched.value, store.rows, r)
              && store.spawned == old(store.spawned)
                 + if Decided(Recorded(old(store.rows), ord.id, fetched.value), ord, fetched.value).fulfils then [ord.id] else []
  {
    hide Store.Owing, Next, Store.At, FindByNumber, Decided, Recorded, AnswerActs, ReleaseRefused, RefreshedBy, OwnMoves;
    r, id, acts := None, 0, [Abort(p)];
    OneMove(p, Abort(p));
    store.Yield(p, RefreshAsking(ord, wasDue));
    ghost var found := store.alone && store.reliable && FindByNumber(store.rows.orders, ord.number) == Some(ord.id)
                       && ord == RefTo(store.rows.orders, ord.id);
    ghost var before := store.rows;
    if fetched.None? {
      store.Quit(p, RefreshAsking(ord, wasDue));
      return;
    }
    var answer := fetched.value;
    FetchMove(store, p, ord, wasDue, answer);
    var changed, err;
    ghost var applied;
    changed, err, applied := ApplyProviderResult(store, p, Refresh, ord, answer, wasDue);
    AnswersAreOwn(p, applied);
    OneMove(p, FetchAnswer(p, answer));
    OwnMovesAppend(p, [FetchAnswer(p, answer)], applied);
    acts := [FetchAnswer(p, answer)] + applied;
    if !err {
      if found {
        StillFound(before, ord.id, answer);
      }
      ghost var act;
      r, id, act := ReadAgain(store, p, ord, changed);
      OneMove(p, act);
      OwnMovesAppend(p, acts, [act]);
      acts := acts + [act];
    }
    if found {
      RefreshedIs(before, ord.id, answer, store.rows, changed, err, r);
    }
  }

  ghost method RefreshMove(store: Store, number: string) returns (p: Pid)
    requires store.Valid()
    modifies store`trace, store`sys, store`own
    ensures store.Valid() && old(store.trace) <= store.trace && store.At(p, RefreshCalled(number))
    ensures store.own == old(store.own) + [StartRefresh(p, number)]
  {
    hide Store.Running;
    p := FreshPid(store.sys);
    store.Move(StartRefresh(p, number), p, RefreshCalled(number));
  }

  ghost method LoadMove(store: Store, p: Pid, number: string)
    requires store.Valid() && store.At(p, RefreshCalled(number))
    modifies store`trace, store`sys, store`own
    ensures store.Valid() && old(store.trace) <= store.trace && store.At(p, AfterLoad(store.rows.orders, number))
    ensures store.own == old(store.own) + [LoadOrder(p)]
  {
    hide Store.Running, AfterLoad;
    store.Move(LoadOrder(p), p, AfterLoad(store.rows.orders, number));
  }

  /** A claimed change is this process's own, and the order still has the status it reports. */
  lemma ChangeIsOwn(store: Store, p: Pid, id: OrderId, status: Status)
    requires store.Valid() && store.At(p, Finished(Refreshed(id, status, true)))
    ensures id < |store.rows.orders| && store.rows.orders[id].status == status != Pending
    ensures id in store.sys.facts.winner && store.sys.facts.winner[id] == p
  {
    hide Store.Running, Inv;
    store.Sound();
    Guarantees.ChangedReply(store.sys, p);
  }

  /** The first read of RefreshStatus. */
  method LoadByNumber(store: Store, number: string)
    returns (found: Option<OrderRef>, err: bool, ghost p: Pid, ghost acts: seq<Action>)
    requires store.Valid()
    modifies store
    ensures store.Valid() && old(store.trace) <= store.trace
    ensures store.own == old(store.own) + acts && OwnMoves(p, acts)
    ensures store.At(p, if err then Finished(Failure) else AfterLoad(store.rows.orders, number))
    ensures !err ==> (found.None? <==> FindByNumber(store.rows.orders, number).None?)
    ensures !err && found.Some? ==> found.value == RefTo(store.rows.orders, FindByNumber(store.rows.orders, number).value)
    ensures store.alone ==> store.rows == old(store.rows) && store.now == old(store.now) && store.spawned == old(store.spawned)
    ensures store.reliable ==> !err
  {
    hide Store.Owing, Next, Store.At, FindByNumber, AfterLoad;
    p := RefreshMove(store, number);
    acts := [StartRefresh(p, number)];
    store.Yield(p, RefreshCalled(number));
    found, err := store.OrderByNumber(number);
    if err {
      store.Quit(p, RefreshCalled(number));
      acts := acts + [Abort(p)];
      return;
    }
    LoadMove(store, p, number);
    acts := acts + [LoadOrder(p)];
  }

  /** A refresh of an order that was PENDING when it was looked up. */
  method RefreshPending(store: Store, ghost p: Pid, ord: OrderRef, fetched: Option<Answer>)
    returns (r: Option<RefreshResult>, ghost id: OrderId, ghost acts: seq<Action>)
    requires store.Valid() && store.At(p, RefreshLoaded(ord)) && ord.status == Pending
    modifies store
    ensures store.Valid() && old(store.trace) <= store.trace
    ensures r.Some? ==> store.At(p, Finished(Refreshed(id, r.value.status, r.value.changed))) && r.value.number == ord.number
    ensures r.None? ==> store.At(p, Finished(Failure))
    ensures store.own == old(store.own) + acts && OwnMoves(p, acts)
    ensures store.alone && store.reliable && FindByNumber(old(store.rows).orders, ord.number) == Some(ord.id)
            && ord == RefTo(old(store.rows).orders, ord.id) ==>
              && RefreshesPending(old(store.rows), old(store.now), ord.id, fetched, store.rows, r)
              && store.spawned == old(store.spawned) + PendingStarts(ord.deadline, ord.id, old(store.now), fetched)
  {
    hide Store.Owing, Next, Store.At, Fits, ExpireOne, RefreshedBy, SettlementActs, Decided, Receives, FindByNumber, OwnMoves;
    r, id := None, ord.id;
    ghost var before := store.rows;
    var expired, err;
    ghost var due, more;
    expired, err, due, acts := ExpireIfDue(store, p, ForDueRefresh, ord);
    ExpiriesAreOwn(p, acts);
    if ord.id < |before.orders| {
      ExpiryApplies(before, ord.id, store.now);
    }
    if err {
      return;
    }
    if expired {
      r := Some(RefreshResult(ord.number, Expired, true));
      return;
    }
    if fetched.Some? && ord.id < |before.orders| && IsPending(before, ord.id) {
      DecidedStarts(before, ord.id, fetched.value);
    }
    r, id, more := Reconcile(store, p, ord, fetched, due);
    OwnMovesAppend(p, acts, more);
    acts := acts + more;
  }

  /** RefreshStatus, given what the provider answers if it is asked; None is an error there, and an
      error answer here. */
  method RefreshStatus(store: Store, number: string, fetched: Option<Answer>)
    returns (r: Option<RefreshResult>, ghost p: Pid, ghost id: OrderId, ghost acts: seq<Action>)
    requires store.Valid()
    modifies store
    ensures store.Valid() && old(store.trace) <= store.trace
    ensures r.Some? ==> store.At(p, Finished(Refreshed(id, r.value.status, r.value.changed))) && r.value.number == number
    ensures r.None? ==> store.At(p, Finished(Failure))
    ensures r.Some? && r.value.changed ==>
              && id < |store.rows.orders| && store.rows.orders[id].status == r.value.status != Pending
              && id in store.sys.facts.winner && store.sys.facts.winner[id] == p
    ensures store.own == old(store.own) + acts && OwnMoves(p, acts)
    ensures store.alone && store.reliable ==>
              && Refreshes(old(store.rows), old(store.now), number, fetched, store.rows, r)
              && store.spawned == old(store.spawned) + RefreshStarts(old(store.rows), old(store.now), number, fetched)
  {
    hide Store.Owing, Next, Store.At, RefreshesPending, PendingStarts, OwnMoves;
    r, id := None, 0;
    var found, err;
    found, err, p, acts := LoadByNumber(store, number);
    if err || found.None? {
      return;
    }
    var ord := found.value;
    id := ord.id;
    if ord.status != Pending {
      r := Some(RefreshResult(ord.number, ord.status, false));
      return;
    }
    ghost var more;
    r, id, more := RefreshPending(store, p, ord, fetched);
    OwnMovesAppend(p, acts, more);
    acts := acts + more;
    if r.Some? && r.value.changed {
      ChangeIsOwn(store, p, id, r.value.status);
    }
  }

  lemma OneMove(p: Pid, act: Action)
    requires Mover(act) == Some(p)
    ensures OwnMoves(p, [act])
  { }

  lemma SettlementIsOwn(p: Pid, acts: seq<Action>)
    requires SettlementActs(p, acts)
    ensures OwnMoves(p, acts)
  { }

  lemma AnswersAreOwn(p: Pid, acts: seq<Action>)
    requires AnswerActs(p, acts)
    ensures OwnMoves(p, acts) && |acts| >= 1 && acts[0].Record?
  {
    if |acts| >= 3 {
      SettlementIsOwn(p, acts[2..]);
      assert forall i :: 2 <= i < |acts| ==> acts[i] == acts[2..][i - 2];
    }
  }

  lemma ExpiriesAreOwn(p: Pid, acts: seq<Action>)
    requires |acts| >= 1 && (acts[0] == CheckDue(p) || acts[0] == NextDue(p))
    requires |acts| == 1 || SettlementActs(p, acts[1..])
    ensures OwnMoves(p, acts)
  {
    if |acts| != 1 {
      SettlementIsOwn(p, acts[1..]);
      assert forall i :: 1 <= i < |acts| ==> acts[i] == acts[1..][i - 1];
    }
  }

  // --- The expiry sweep ------------------------------------------------------------------------------

  ghost method SweepMove(store: Store) returns (p: Pid)
    requires store.Valid()
    modifies store`trace, store`sys, store`own
    ensures store.Valid() && old(store.trace) <= store.trace && store.At(p, SweepCalled)
    ensures store.own == old(store.own) + [StartSweep(p)]
  {
    hide Store.Running;
    p := FreshPid(store.sys);
    store.Move(StartSweep(p), p, SweepCalled);
  }

  ghost method ListMove(store: Store, p: Pid, batch: seq<OrderRef>)
    requires store.Valid() && store.At(p, SweepCalled) && IsDueBatch(store.rows.orders, store.now, batch)
    modifies store`trace, store`sys, store`own
    ensures store.Valid() && old(store.trace) <= store.trace && store.At(p, Sweeping(batch))
    ensures store.own == old(store.own) + [ListDue(p, batch)]
  {
    hide Store.Running, IsDueBatch;
    store.Move(ListDue(p, batch), p, Sweeping(batch));
  }

  ghost method SweepDone(store: Store, p: Pid)
    requires store.Valid() && store.At(p, Sweeping([]))
    modifies store`trace, store`sys, store`own
    ensures store.Valid() && old(store.trace) <= store.trace && store.At(p, Finished(Done))
    ensures store.own == old(store.own) + [NextDue(p)]
  {
    hide Store.Running;
    store.Move(NextDue(p), p, Finished(Done));
  }

  /** The next turn of a sweep: its order is due, and counts exactly if its seats fit. */
  lemma SweepTurn(db: Db, now: int, batch: seq<OrderRef>, i: nat)
    requires IsDueBatch(db.orders, now, batch) && i < |batch|
    ensures var mid, after := ExpireAll(db, batch[..i], now), ExpireAll(db, batch[..i + 1], now);
            && Overdue(batch[i], now) && IsPending(mid, batch[i].id) && after == ExpireOne(mid, batch[i], now)
            && |DueSet(after.orders, now)| == |DueSet(mid.orders, now)| - if Fits(mid, batch[i].id) then 1 else 0
  {
    BatchIsDueRefs(db.orders, now, batch);
    StillDue(db, batch, now, i);
    assert batch[..i + 1][..i] == batch[..i];
    hide IsDueBatch, DueRefs, Fits, ExpireOne, DueSet;
    TurnCount(ExpireAll(db, batch[..i], now), batch[i], now);
  }

  /** One order of a sweep. */
  method SweepNext(store: Store, ghost p: Pid, ghost before: Db, due: seq<OrderRef>, i: nat)
    returns (counted: bool, ghost acts: seq<Action>)
    requires store.Valid() && i < |due| && store.At(p, Sweeping(due[i..]))
    requires store.alone && store.reliable ==>
               IsDueBatch(before.orders, store.now, due) && store.rows == ExpireAll(before, due[..i], store.now)
    modifies store
    ensures store.Valid() && old(store.trace) <= store.trace && store.At(p, Sweeping(due[i + 1..]))
    ensures store.own == old(store.own) + acts && OwnMoves(p, acts)
    ensures store.alone ==> store.now == old(store.now)
    ensures store.alone && store.reliable ==>
              && store.rows == ExpireAll(before, due[..i + 1], store.now)
              && |DueSet(store.rows.orders, store.now)|
                 == |DueSet(old(store.rows).orders, store.now)| - if counted then 1 else 0
  {
    hide Store.Owing, Next, Store.At, Fits, ExpireOne, IsDueBatch, IsPending, DueSet, SettlementActs, ExpireAll;
    assert [due[i]] + due[i + 1..] == due[i..];
    if store.alone && store.reliable {
      SweepTurn(before, store.now, due, i);
    }
    var applied, failed;
    ghost var was;
    applied, failed, was, acts := ExpireIfDue(store, p, ForSweep(due[i + 1..]), due[i]);
    ExpiriesAreOwn(p, acts);
    counted := applied && !failed;
  }

  /** The query of a sweep. */
  method ListDueOrders(store: Store) returns (due: seq<OrderRef>, err: bool, ghost p: Pid, ghost acts: seq<Action>)
    requires store.Valid()
    modifies store
    ensures store.Valid() && old(store.trace) <= store.trace
    ensures store.own == old(store.own) + acts && OwnMoves(p, acts)
    ensures store.alone ==> store.rows == old(store.rows) && store.now == old(store.now)
    ensures store.reliable ==> !err
    ensures !err ==> IsDueBatch(store.rows.orders, store.now, due)
    ensures store.At(p, if err then Finished(Failure) else Sweeping(due))
  {
    hide Store.Owing, Next, Store.At, IsDueBatch;
    p := SweepMove(store);
    acts := [StartSweep(p)];
    store.Yield(p, SweepCalled);
    due, err := store.DueForExpiry();
    if err {
      store.Quit(p, SweepCalled);
      acts := acts + [Abort(p)];
      return;
    }
    ListMove(store, p, due);
    acts := acts + [ListDue(p, due)];
  }

  /** ExpireDueOrders: one batch, each order through the guarded transaction. An order that
      fails is left for a later sweep; the count is of the orders that were expired. */
  method ExpireDueOrders(store: Store)
    returns (expired: nat, err: bool, ghost batch: seq<OrderRef>, ghost p: Pid, ghost acts: seq<Action>)
    requires store.Valid()
    modifies store
    ensures store.Valid() && old(store.trace) <= store.trace
    ensures store.own == old(store.own) + acts && OwnMoves(p, acts)
    ensures store.At(p, Finished(if err then Failure else Done)) && expired <= EXPIRY_BATCH_SIZE
    ensures store.alone && store.reliable ==>
              && !err && IsDueBatch(old(store.rows).orders, old(store.now), batch)
              && store.rows == ExpireAll(old(store.rows), batch, old(store.now))
              && expired == |DueSet(old(store.rows).orders, old(store.now))| - |DueSet(store.rows.orders, old(store.now))|
    ensures store.alone && store.reliable ==>
              |batch| == var n := |DueSet(old(store.rows).orders, old(store.now))|; if n < 100 then n else 100
    ensures store.alone && store.reliable && DueFits(old(store.rows), old(store.now)) ==> expired == |batch|
  {
    hide Store.Owing, Next, Store.At, Fits, ExpireOne, IsDueBatch, DueFits, DueSet, ExpireAll;
    batch, expired := [], 0;
    var due;
    due, err, p, acts := ListDueOrders(store);
    if err {
      return;
    }
    batch := due;
    ghost var before, now := store.rows, store.now;
    BatchIsDueRefs(before.orders, now, due);
    BatchSize(before.orders, now, due);
    RowsOk(store);
    assert due[..0] == [] && due[0..] == due;
    NoTurns(before, now);
    for i := 0 to |due|
      invariant store.Valid() && old(store.trace) <= store.trace && store.At(p, Sweeping(due[i..]))
      invariant store.own == old(store.own) + acts && OwnMoves(p, acts)
      invariant expired <= i && (store.alone ==> store.now == now)
      invariant store.alone && store.reliable ==>
                  && store.rows == ExpireAll(before, due[..i], now)
                  && expired == |DueSet(before.orders, now)| - |DueSet(store.rows.orders, now)|
    {
      var counted;
      ghost var more;
      counted, more := SweepNext(store, p, before, due, i);
      acts := acts + more;
      if counted {
        expired := expired + 1;
      }
    }
    assert due[..|due|] == due && due[|due|..] == [];
    if DueFits(before, now) {
      BatchCount(before, now, due);
    }
    SweepDone(store, p);
    acts := acts + [NextDue(p)];
  }

  lemma NoTurns(db: Db, now: int)
    ensures ExpireAll(db, [], now) == db
  { }

  lemma RowsOk(store: Store)
    requires store.Valid()
    ensures DbOk(store.rows)
  {
    hide Run, Spawns;
    store.Sound();
  }
}
