/** What each action adds to the history: who may change an allocation, name a winner or an
    owner, or write to the log, and what exactly is then changed. */
module History {
  import opened Wrappers
  import opened Schema
  import opened Request
  import opened ProviderStatus
  import opened Transactions
  import opened System
  import opened Invariant
  import opened Runs

  /** Nothing but the rows has changed. */
  ghost predicate SameHistory(f: Facts, g: Facts) {
    g == f.(db := g.db)
  }

  predicate EditsCatalog(a: Action) {
    a.CreateType? || a.UpdateType? || a.DeleteType? || a.DeleteEvent?
  }

  predicate IsStart(a: Action) {
    || a.Tick? || a.CreateEvent?
    || a.StartCheckout? || a.StartAnswer? || a.StartRefresh? || a.StartSweep? || a.StartResend?
  }

  predicate IsQuietCommit(a: Action) {
    a.Reserve? || a.Stamp? || a.Record? || a.Issue? || a.MarkSent?
  }

  predicate IsAnswerMove(a: Action) {
    || a.PaymentOpens? || a.PaymentFails? || a.LoadOrder? || a.CheckDue? || a.FetchAnswer? || a.Decide? || a.ReadLines?
    || a.Reread?
  }

  predicate IsOtherMove(a: Action) {
    || a.ListDue? || a.NextDue? || a.ListAttendees? || a.CheckIssued? || a.Relist? || a.LoadDelivery? || a.LoadTickets?
    || a.Abort?
  }

  lemma StartsAreQuiet(s: Sys, a: Action)
    requires IsStart(a)
    ensures SameHistory(s.facts, Next(s, a).facts)
  {
    hide Accepts;
  }

  lemma CommitsAreQuiet(s: Sys, a: Action)
    requires IsQuietCommit(a)
    ensures SameHistory(s.facts, Next(s, a).facts)
  {
    hide ReserveTx, StampTx, RecordTx, MarkSentTx, IssueTx;
  }

  lemma AnswerMovesAreQuiet(s: Sys, a: Action)
    requires IsAnswerMove(a)
    ensures Next(s, a).facts == s.facts
  {
    hide LinesOf, AfterLookup, AfterLoad, AfterAnswer, GoesOn, MapProviderStatus, FindByNumber;
  }

  lemma OtherMovesAreQuiet(s: Sys, a: Action)
    requires IsOtherMove(a)
    ensures Next(s, a).facts == s.facts
  {
    hide JoinedCodes, AttendeesOf, TicketsOf, IsDueBatch, AfterNext;
  }

  /** Settling, compensating, sending, admitting and the catalog are all that makes history. */
  lemma QuietActions(s: Sys, a: Action)
    requires !a.Settle? && !a.Compensate? && !a.Send? && !a.AdmitTicket? && !EditsCatalog(a)
    ensures SameHistory(s.facts, Next(s, a).facts)
  {
    if IsStart(a) {
      StartsAreQuiet(s, a);
    } else if IsQuietCommit(a) {
      CommitsAreQuiet(s, a);
    } else if IsAnswerMove(a) {
      AnswerMovesAreQuiet(s, a);
    } else {
      OtherMovesAreQuiet(s, a);
    }
    hide Next;
  }

  // --- Allocations -------------------------------------------------------------------------

  /** A catalog edit leaves winners, owners and the log alone. */
  lemma CatalogKeepsRest(s: Sys, a: Action)
    requires EditsCatalog(a)
    ensures var f, g := s.facts, Next(s, a).facts; g == f.(db := g.db, alloc := g.alloc)
  {
    hide DeleteEventTx, DeleteTypeTx, UpdateTypeTx, CreateTypeTx, TypesOfEvent, Reallocated;
  }

  /** Only catalog edits change an allocation. */
  lemma AllocationKept(s: Sys, a: Action)
    requires !EditsCatalog(a)
    ensures Next(s, a).facts.alloc == s.facts.alloc
  {
    if a.Settle? || a.Compensate? || a.Send? || a.AdmitTicket? {
      hide SettleResult, SettleTx, Resume, Admit, Admissible;
    } else {
      QuietActions(s, a);
      hide Next;
    }
  }

  /** What becomes of each type's allocation: a creation allocates its quota, an edit allocates
      or withdraws exactly what it adds to or takes from the remaining quota, and every other
      action leaves the allocation of a type that still exists as it was. */
  lemma AllocationOf(s: Sys, a: Action, t: TypeId)
    requires Inv(s) && t in Next(s, a).facts.db.types
    ensures t in s.facts.db.types ==> t in s.facts.alloc
    ensures AllocatesSo(s, a, t)
  {
    AllocatedTypes(s);
    if a.CreateType? || a.UpdateType? {
      SettingAllocates(s, a, t);
    } else if a.DeleteType? || a.DeleteEvent? {
      DeletingAllocates(s, a, t);
    } else {
      AllocationKept(s, a);
      NextKeeps(s, a);
      AllocatedTypes(Next(s, a));
    }
    hide Next, Inv;
  }

  lemma AllocatedTypes(s: Sys)
    requires Inv(s)
    ensures s.facts.alloc.Keys == s.facts.db.types.Keys
  { }

  ghost predicate AllocatesSo(s: Sys, a: Action, t: TypeId)
    requires t in Next(s, a).facts.db.types && (t in s.facts.db.types ==> t in s.facts.alloc)
  {
    var f, g := s.facts, Next(s, a).facts;
    && t in g.alloc
    && (t !in f.db.types ==> a.CreateType? && a.typ == t && g.alloc[t] == g.db.types[t].quota == a.row.quota)
    && (t in f.db.types && a.UpdateType? && a.typ == t ==>
          g.alloc[t] - f.alloc[t] == g.db.types[t].quota - f.db.types[t].quota)
    && (t in f.db.types && !(a.UpdateType? && a.typ == t) ==> g.alloc[t] == f.alloc[t])
  }

  lemma SettingAllocates(s: Sys, a: Action, t: TypeId)
    requires s.facts.alloc.Keys == s.facts.db.types.Keys && t in Next(s, a).facts.db.types
    requires a.CreateType? || a.UpdateType?
    ensures AllocatesSo(s, a, t)
  { }

  lemma DeletingAllocates(s: Sys, a: Action, t: TypeId)
    requires s.facts.alloc.Keys == s.facts.db.types.Keys && t in Next(s, a).facts.db.types
    requires a.DeleteType? || a.DeleteEvent?
    ensures AllocatesSo(s, a, t)
  {
    hide Referenced;
  }

  // --- A type's event never changes --------------------------------------------------------

  /** The types of a, with other quotas. */
  ghost predicate OnlyQuotas(a: map<TypeId, TicketType>, b: map<TypeId, TicketType>) {
    b.Keys == a.Keys && forall t :: t in a ==> b[t] == a[t].(quota := b[t].quota)
  }

  lemma {:induction false} ReservingKeepsTypes(types: map<TypeId, TicketType>, now: int, items: seq<CheckoutItem>)
    ensures var r := ReserveLines(types, now, items);
            r.Ok? ==> OnlyQuotas(types, r.value.types)
  {
    if items != [] {
      ReservingKeepsTypes(types, now, items[..|items| - 1]);
    }
  }

  lemma {:induction false} RestoringKeepsTypes(types: map<TypeId, TicketType>, lines: seq<Line>)
    ensures var r := RestoreLines(types, lines);
            r.Some? ==> OnlyQuotas(types, r.value)
  {
    if lines != [] {
      RestoringKeepsTypes(types, lines[..|lines| - 1]);
    }
  }

  lemma ReserveKeepsTypes(s: Sys, p: Pid, number: string, fate: Fate)
    ensures OnlyQuotas(s.facts.db.types, DoReserve(s, p, number, fate).facts.db.types)
  {
    if p in s.procs && s.procs[p].Reserving? {
      ReservingKeepsTypes(s.facts.db.types, s.clock, s.procs[p].req.items);
      hide OnlyQuotas, ReserveLines, Amount, NumberTaken;
      SameTypes(s.facts.db.types);
    }
  }

  lemma SameTypes(types: map<TypeId, TicketType>)
    ensures OnlyQuotas(types, types)
  { }

  lemma SettleTxKeepsTypes(db: Db, o: OrderId, status: Status, restore: bool, lines: seq<Line>)
    ensures var r := SettleTx(db, o, status, restore, lines);
            r.Applied? ==> OnlyQuotas(db.types, r.db.types)
  {
    RestoringKeepsTypes(db.types, lines);
    SameTypes(db.types);
    hide OnlyQuotas, RestoreLines;
  }

  lemma CompensateKeepsTypes(s: Sys, p: Pid, fate: Fate)
    ensures OnlyQuotas(s.facts.db.types, DoCompensate(s, p, fate).facts.db.types)
  {
    SameTypes(s.facts.db.types);
    hide OnlyQuotas, SettleTx;
    if p in s.procs && s.procs[p].Compensating? {
      SettleTxKeepsTypes(s.facts.db, s.procs[p].id, Cancelled, true, s.procs[p].lines);
    }
  }

  lemma SettleKeepsTypes(s: Sys, p: Pid, fate: Fate, child: Pid)
    ensures OnlyQuotas(s.facts.db.types, DoSettle(s, p, fate, child).facts.db.types)
  {
    SameTypes(s.facts.db.types);
    hide OnlyQuotas, SettleTx, Resume;
    if p in s.procs && (s.procs[p].Settling? || s.procs[p].Committing?) && s.procs[p].outcome.status.Some? {
      var r := s.procs[p];
      SettleTxKeepsTypes(s.facts.db, r.ord.id, r.outcome.status.value, r.outcome.restore, if r.Committing? then r.lines else []);
    }
  }

  lemma OrderRowsKeepTypes(s: Sys, a: Action)
    requires a.Stamp? || a.Record? || a.MarkSent?
    ensures Next(s, a).facts.db.types == s.facts.db.types
  { }

  lemma TicketRowsKeepTypes(s: Sys, a: Action)
    requires a.Issue? || a.Send? || a.AdmitTicket?
    ensures Next(s, a).facts.db.types == s.facts.db.types
  {
    hide Admissible, InsertTickets, Admit;
  }

  lemma StartsKeepTypes(s: Sys, a: Action)
    requires IsStart(a)
    ensures Next(s, a).facts.db.types == s.facts.db.types
  {
    hide Accepts;
  }

  /** Orders move quotas, and only the catalog anything else of a ticket type. */
  lemma OrdersKeepTypes(s: Sys, a: Action)
    requires !EditsCatalog(a)
    ensures OnlyQuotas(s.facts.db.types, Next(s, a).facts.db.types)
  {
    SameTypes(s.facts.db.types);
    hide OnlyQuotas, DoReserve, DoCompensate, DoSettle;
    if a.Reserve? {
      ReserveKeepsTypes(s, a.p, a.number, a.fate);
    } else if a.Compensate? {
      CompensateKeepsTypes(s, a.p, a.fate);
    } else if a.Settle? {
      SettleKeepsTypes(s, a.p, a.fate, a.child);
    } else if IsStart(a) {
      StartsKeepTypes(s, a);
      hide *;
    } else if IsAnswerMove(a) {
      AnswerMovesAreQuiet(s, a);
      hide *;
    } else if IsOtherMove(a) {
      OtherMovesAreQuiet(s, a);
      hide *;
    } else if a.Stamp? || a.Record? || a.MarkSent? {
      OrderRowsKeepTypes(s, a);
      hide *;
    } else {
      TicketRowsKeepTypes(s, a);
      hide *;
    }
  }

  // --- Settlements and fulfilments -------------------------------------------------------------

  /** The order whose fulfilment an action starts: the one it pays by a commit that is reported. */
  function Starts(s: Sys, a: Action): Option<OrderId> {
    if !a.Settle? then None
    else if !(a.p in s.procs && (s.procs[a.p].Settling? || s.procs[a.p].Committing?) && a.child !in s.procs) then None
    else if a.fate == Commits && s.procs[a.p].caller.ForAnswer? && s.procs[a.p].outcome.status == Some(Paid)
         && SettleResult(s, a.p).Applied?
    then Some(s.procs[a.p].ord.id)
    else None
  }

  /** The order that an action settles, with its status. */
  function Settles(s: Sys, a: Action): Option<(OrderId, Status)> {
    if a.Compensate? then
      if a.p in s.procs && s.procs[a.p].Compensating? && a.fate != RollsBack
         && SettleTx(s.facts.db, s.procs[a.p].id, Cancelled, true, s.procs[a.p].lines).Applied?
      then Some((s.procs[a.p].id, Cancelled)) else None
    else if a.Settle? then
      if a.p in s.procs && (s.procs[a.p].Settling? || s.procs[a.p].Committing?) && a.child !in s.procs && a.fate != RollsBack
         && SettleResult(s, a.p).Applied?
      then Some((s.procs[a.p].ord.id, s.procs[a.p].outcome.status.value)) else None
    else None
  }

  /** What is noted of a settlement, and of the fulfilment it starts. */
  ghost predicate Notes(f: Facts, g: Facts, settled: OrderId, status: Status, started: Option<OrderId>) {
    exists released :: g.log == f.log + [SettledAs(settled, status, released)]
                                + if started.Some? then [FulfilStarted(started.value)] else []
  }

  lemma SettleMakesHistory(s: Sys, a: Action)
    requires a.Settle?
    ensures var f, g := s.facts, Next(s, a).facts;
            match Settles(s, a)
            case None => Starts(s, a).None? && g == f
            case Some((o, status)) =>
              && g.alloc == f.alloc && g.winner == f.winner[o := a.p]
              && g.owner == (if Starts(s, a).Some? then f.owner[o := a.child] else f.owner)
              && (Starts(s, a).Some? ==> Starts(s, a).value == o)
              && IsPending(f.db, o) && g.db.orders == f.db.orders[o := f.db.orders[o].(status := status)]
              && Notes(f, g, o, status, Starts(s, a))
  {
    hide RestoreLines, LinesOf, Resume;
    var g := Next(s, a).facts;
    if Settles(s, a).Some? {
      var r := s.procs[a.p];
      var first := SettledAs(r.ord.id, r.outcome.status.value, r.outcome.restore);
      assert g.log == s.facts.log + [first] + if Starts(s, a).Some? then [FulfilStarted(r.ord.id)] else [];
    }
  }

  lemma CompensateMakesHistory(s: Sys, a: Action)
    requires a.Compensate?
    ensures var f, g := s.facts, Next(s, a).facts;
            match Settles(s, a)
            case None => g == f
            case Some((o, status)) =>
              && g.alloc == f.alloc && g.winner == f.winner[o := a.p] && g.owner == f.owner
              && IsPending(f.db, o) && g.db.orders == f.db.orders[o := f.db.orders[o].(status := status)]
              && Notes(f, g, o, status, None)
  {
    hide RestoreLines;
    if Settles(s, a).Some? {
      assert Next(s, a).facts.log == s.facts.log + [SettledAs(s.procs[a.p].id, Cancelled, true)] + [];
    }
  }

  lemma SendAndAdmitMakeHistory(s: Sys, a: Action)
    requires a.Send? || a.AdmitTicket?
    ensures var f, g := s.facts, Next(s, a).facts;
            && g == f.(db := g.db, log := g.log) && g.db.orders == f.db.orders
            && (g.log == f.log || exists e :: g.log == f.log + [e] && (e.Emailed? || e.Admitted?))
  {
    hide Admissible, Admit;
  }

  lemma StartedAfter(log: seq<Event>, e: Event, o: OrderId)
    ensures StartedCount(log + [e], o) == StartedCount(log, o) + if e == FulfilStarted(o) then 1 else 0
  {
    assert (log + [e])[..|log|] == log;
  }

  /** The log counts exactly the fulfilments that actions start. */
  lemma StartsAreLogged(s: Sys, a: Action, o: OrderId)
    ensures StartedCount(Next(s, a).facts.log, o)
         == StartedCount(s.facts.log, o) + if Starts(s, a) == Some(o) then 1 else 0
  {
    var f, g := s.facts, Next(s, a).facts;
    if a.Settle? {
      SettleMakesHistory(s, a);
      hide Next, StartedCount, Settles, Starts;
      if Settles(s, a).Some? {
        NotedStarts(f, g, Settles(s, a).value.0, Settles(s, a).value.1, Starts(s, a), o);
      }
    } else if a.Compensate? {
      CompensateMakesHistory(s, a);
      hide Next, StartedCount, Settles;
      if Settles(s, a).Some? {
        NotedStarts(f, g, Settles(s, a).value.0, Settles(s, a).value.1, None, o);
      }
    } else if a.Send? || a.AdmitTicket? {
      SendAndAdmitMakeHistory(s, a);
      hide Next, StartedCount;
      if g.log != f.log {
        var e :| g.log == f.log + [e] && (e.Emailed? || e.Admitted?);
        StartedAfter(f.log, e, o);
      }
    } else if EditsCatalog(a) {
      CatalogKeepsRest(s, a);
      hide Next;
    } else {
      QuietActions(s, a);
      hide Next;
    }
  }

  lemma NotedStarts(f: Facts, g: Facts, settled: OrderId, status: Status, started: Option<OrderId>, o: OrderId)
    requires Notes(f, g, settled, status, started)
    ensures StartedCount(g.log, o) == StartedCount(f.log, o) + if started == Some(o) then 1 else 0
  {
    var released :| g.log == f.log + [SettledAs(settled, status, released)]
                             + if started.Some? then [FulfilStarted(started.value)] else [];
    var mid := f.log + [SettledAs(settled, status, released)];
    StartedAfter(f.log, SettledAs(settled, status, released), o);
    if started.Some? {
      StartedAfter(mid, FulfilStarted(started.value), o);
    } else {
      assert g.log == mid;
    }
  }

  // --- Interference ------------------------------------------------------------------------------

  /** Whatever the others do, a process stays where it is: an interfering run moves no process but its own. */
  lemma {:induction false} OthersLeaveInPlace(s: Sys, actions: seq<Action>, p: Pid)
    requires p in s.procs && forall a <- actions :: Mover(a) != Some(p)
    ensures p in Run(s, actions).procs && Run(s, actions).procs[p] == s.procs[p]
  {
    if actions != [] {
      var front, last := actions[..|actions| - 1], actions[|actions| - 1];
      assert last in actions && forall a <- front :: a in actions;
      OthersLeaveInPlace(s, front, p);
      OtherLeavesInPlace(Run(s, front), last, p);
    }
  }

  lemma OtherLeavesInPlace(s: Sys, a: Action, p: Pid)
    requires p in s.procs && Mover(a) != Some(p)
    ensures p in Next(s, a).procs && Next(s, a).procs[p] == s.procs[p]
  {
    hide SettleTx, ReserveTx, StampTx, RecordTx, MarkSentTx, IssueTx, JoinedCodes, LinesOf, AttendeesOf, TicketsOf, IsDueBatch,
      AfterLookup, AfterLoad, AfterNext, AfterAnswer, Resume, Accepts, GoesOn, FindByNumber,
      DeleteEventTx, DeleteTypeTx, UpdateTypeTx, CreateTypeTx, TypesOfEvent, Reallocated, Admit, Admissible;
  }

  /** Owners and winners change by settling alone: the order settled is won by its settler, and
      owned by the child process exactly if its fulfilment starts. */
  lemma OwnersAndWinners(s: Sys, a: Action)
    ensures var f, g := s.facts, Next(s, a).facts;
            && g.winner == (if Settles(s, a).Some? then f.winner[Settles(s, a).value.0 := a.p] else f.winner)
            && g.owner == (if Starts(s, a).Some? then f.owner[Starts(s, a).value := a.child] else f.owner)
            && (Settles(s, a).Some? ==> IsPending(f.db, Settles(s, a).value.0))
            && (Starts(s, a).Some? ==> Settles(s, a).Some? && Settles(s, a).value == (Starts(s, a).value, Paid))
  {
    if a.Settle? {
      SettleMakesHistory(s, a);
    } else if a.Compensate? {
      CompensateMakesHistory(s, a);
    } else if a.Send? || a.AdmitTicket? {
      SendAndAdmitMakeHistory(s, a);
    } else if EditsCatalog(a) {
      CatalogKeepsRest(s, a);
    } else {
      QuietActions(s, a);
    }
    hide Next, SettleResult, SettleTx;
  }
}
