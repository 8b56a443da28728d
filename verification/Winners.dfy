/** Who settles: a process wins only when it is past its settling, and a refresh that found its
    order past the deadline wins nothing but an expiry. */
module Winners {
  import opened Wrappers
  import opened Schema
  import opened Request
  import opened ProviderStatus
  import opened Transactions
  import opened System
  import opened Invariant
  import opened Runs
  import opened History

  /** Where a process may be once it has settled an order. */
  predicate AfterWin(proc: Proc) {
    || proc.Finished? || proc.Rereading? || proc.Sweeping?
    || ((proc.Settling? || proc.Committing?) && proc.caller.ForSweep?)
  }

  ghost predicate WinnersPlaced(s: Sys) {
    forall o: OrderId :: o in s.facts.winner ==> s.facts.winner[o] in s.procs && AfterWin(s.procs[s.facts.winner[o]])
  }

  /** What a process past its settling does next leaves it so. */
  lemma WinnerMoves(s: Sys, a: Action)
    requires Mover(a).Some? && a.p in s.procs && AfterWin(s.procs[a.p])
    ensures a.p in Next(s, a).procs && AfterWin(Next(s, a).procs[a.p])
  {
    hide SettleResult, LinesOf, FindByNumber, Accepts;
  }

  lemma SettlerPlaced(s: Sys, a: Action)
    requires Settles(s, a).Some?
    ensures Mover(a) == Some(a.p) && a.p in Next(s, a).procs && AfterWin(Next(s, a).procs[a.p])
  {
    hide SettleResult, SettleTx;
  }

  lemma WinnerStaysPlaced(s: Sys, a: Action, o: OrderId)
    requires WinnersPlaced(s) && o in Next(s, a).facts.winner
    ensures var t := Next(s, a); t.facts.winner[o] in t.procs && AfterWin(t.procs[t.facts.winner[o]])
  {
    OwnersAndWinners(s, a);
    hide Next, Settles, Starts, AfterWin;
    if Settles(s, a).Some? && Settles(s, a).value.0 == o {
      SettlerPlaced(s, a);
    } else {
      var q := s.facts.winner[o];
      if Mover(a) == Some(q) {
        WinnerMoves(s, a);
      } else {
        OtherLeavesInPlace(s, a, q);
      }
    }
  }

  lemma {:induction false} ReachableWinnersPlaced(actions: seq<Action>)
    ensures WinnersPlaced(Run(INITIAL, actions))
  {
    if actions != [] {
      var front, last := actions[..|actions| - 1], actions[|actions| - 1];
      ReachableWinnersPlaced(front);
      forall o: OrderId | o in Next(Run(INITIAL, front), last).facts.winner
        ensures var t := Next(Run(INITIAL, front), last);
                t.facts.winner[o] in t.procs && AfterWin(t.procs[t.facts.winner[o]])
      {
        WinnerStaysPlaced(Run(INITIAL, front), last, o);
      }
      hide Next, AfterWin;
    }
  }

  // --- A refresh that found its order due ---------------------------------------------------------

  /** Where a refresh may be after its deadline check found the order due. */
  predicate DuePlace(proc: Proc) {
    match proc
    case Settling(caller, _, outcome) => OnlyExpires(caller, outcome)
    case Committing(caller, _, outcome, _) => OnlyExpires(caller, outcome)
    case RefreshAsking(_, wasDue) => wasDue
    case Recording(_, _, _, wasDue) => wasDue
    case Deciding(_, _, _, wasDue) => wasDue
    case Rereading(_, _) => true
    case Finished(_) => true
    case _ => false
  }

  /** It expires the order by its own check, or remembers that the check found it due. */
  predicate OnlyExpires(caller: Caller, outcome: Outcome) {
    (caller.ForDueRefresh? && outcome == EXPIRES) || (caller.ForAnswer? && caller.wasDue)
  }

  /** Process p is there, and all it has settled is EXPIRED. */
  ghost predicate DueLine(s: Sys, p: Pid) {
    && p in s.procs && DuePlace(s.procs[p])
    && forall o: OrderId :: o in s.facts.winner && s.facts.winner[o] == p ==>
         o < |s.facts.db.orders| && s.facts.db.orders[o].status == Expired
  }

  lemma DueResumes(caller: Caller, ord: OrderRef, outcome: Outcome, applied: bool, err: bool)
    requires OnlyExpires(caller, outcome)
    ensures DuePlace(Resume(caller, ord, applied, err))
  { }

  lemma SettlingResumes(s: Sys, a: Action)
    requires a.Settle? && a.p in s.procs && (s.procs[a.p].Settling? || s.procs[a.p].Committing?)
    ensures a.p in Next(s, a).procs
    ensures var r, after := s.procs[a.p], Next(s, a).procs[a.p];
            after == r || exists applied, err :: after == Resume(r.caller, r.ord, applied, err)
  {
    hide SettleResult, Resume;
  }

  lemma DueSettlingMoves(s: Sys, a: Action)
    requires a.Settle? && a.p in s.procs && DuePlace(s.procs[a.p])
    ensures a.p in Next(s, a).procs && DuePlace(Next(s, a).procs[a.p])
  {
    var r := s.procs[a.p];
    if r.Settling? || r.Committing? {
      SettlingResumes(s, a);
      hide Next, OnlyExpires;
      var after := Next(s, a).procs[a.p];
      if after != r {
        var applied, err :| after == Resume(r.caller, r.ord, applied, err);
        DueResumes(r.caller, r.ord, r.outcome, applied, err);
      }
    }
    hide *;
  }

  lemma DueAnswerMoves(s: Sys, a: Action)
    requires IsAnswerMove(a) && a.p in s.procs && DuePlace(s.procs[a.p])
    ensures a.p in Next(s, a).procs && DuePlace(Next(s, a).procs[a.p])
  {
    hide LinesOf, FindByNumber, MapProviderStatus;
  }

  lemma DueOtherMoves(s: Sys, a: Action)
    requires !a.Settle? && !IsAnswerMove(a) && Mover(a).Some? && a.p in s.procs && DuePlace(s.procs[a.p])
    ensures a.p in Next(s, a).procs && DuePlace(Next(s, a).procs[a.p])
  {
    hide Accepts, AfterNext, MapProviderStatus;
  }

  /** From there it settles an order as EXPIRED or not at all. */
  lemma DueSettles(s: Sys, a: Action)
    requires Inv(s) && Mover(a).Some? && a.p in s.procs && DuePlace(s.procs[a.p])
    ensures Settles(s, a).Some? ==> a.Settle? && Settles(s, a).value.1 == Expired
  {
    if a.Settle? && (s.procs[a.p].Settling? || s.procs[a.p].Committing?) {
      assert ProcOk(s.facts, a.p, s.procs[a.p]);
    }
    hide Inv;
  }

  lemma DueStaysInPlace(s: Sys, a: Action, p: Pid)
    requires p in s.procs && DuePlace(s.procs[p])
    ensures p in Next(s, a).procs && DuePlace(Next(s, a).procs[p])
  {
    if Mover(a) == Some(p) {
      if a.Settle? {
        DueSettlingMoves(s, a);
      } else if IsAnswerMove(a) {
        DueAnswerMoves(s, a);
      } else {
        DueOtherMoves(s, a);
      }
    } else {
      OtherLeavesInPlace(s, a, p);
    }
    hide Next, DuePlace;
  }

  lemma SettlingSets(s: Sys, a: Action)
    requires a.Settle? && Settles(s, a).Some?
    ensures var (o, status) := Settles(s, a).value;
            o < |Next(s, a).facts.db.orders| && Next(s, a).facts.db.orders[o].status == status
  {
    SettleMakesHistory(s, a);
    hide Next, Settles, Starts, Notes;
  }

  lemma SettledStays(s: Sys, t: Sys, o: OrderId)
    requires Later(s, t) && IsSettled(s.facts.db, o)
    ensures o < |t.facts.db.orders| && t.facts.db.orders[o].status == s.facts.db.orders[o].status
  { }

  /** What process p has won stays, or becomes, EXPIRED. */
  lemma DueWins(s: Sys, a: Action, p: Pid, o: OrderId)
    requires Inv(s) && DueLine(s, p) && o in Next(s, a).facts.winner && Next(s, a).facts.winner[o] == p
    ensures var db := Next(s, a).facts.db; o < |db.orders| && db.orders[o].status == Expired
  {
    NextKeeps(s, a);
    OwnersAndWinners(s, a);
    if Settles(s, a).Some? && Settles(s, a).value.0 == o {
      SettlerPlaced(s, a);
      DueSettles(s, a);
      SettlingSets(s, a);
    } else {
      SettledStays(s, Next(s, a), o);
    }
    hide Inv, Next, Later, Settles, Starts, DuePlace;
  }

  lemma DueLineHolds(s: Sys, a: Action, p: Pid)
    requires Inv(s) && DueLine(s, p)
    ensures DueLine(Next(s, a), p)
  {
    DueStaysInPlace(s, a, p);
    forall o: OrderId | o in Next(s, a).facts.winner && Next(s, a).facts.winner[o] == p
      ensures var db := Next(s, a).facts.db; o < |db.orders| && db.orders[o].status == Expired
    {
      DueWins(s, a, p, o);
    }
    hide *;
    DueLineIs(Next(s, a), p);
  }

  lemma DueLineIs(s: Sys, p: Pid)
    requires p in s.procs && DuePlace(s.procs[p])
    requires forall o: OrderId :: o in s.facts.winner && s.facts.winner[o] == p ==>
               o < |s.facts.db.orders| && s.facts.db.orders[o].status == Expired
    ensures DueLine(s, p)
  { }

  lemma {:induction false} DueLineRuns(s: Sys, actions: seq<Action>, p: Pid)
    requires Inv(s) && DueLine(s, p)
    ensures DueLine(Run(s, actions), p)
  {
    if actions != [] {
      hide Inv, Next, DueLine, Later;
      var front := actions[..|actions| - 1];
      DueLineRuns(s, front, p);
      RunKeeps(s, front);
      DueLineHolds(Run(s, front), actions[|actions| - 1], p);
    }
  }

  /** A refresh whose deadline check finds its order due wins, in every continuation, no order
      but as EXPIRED: whatever the provider answers, it never pays one. */
  lemma DueRefreshNeverWinsPaid(s: Sys, p: Pid, actions: seq<Action>, o: OrderId)
    requires Reachable(s) && p in s.procs && s.procs[p].RefreshLoaded? && Overdue(s.procs[p].ord, s.clock)
    ensures var f := Run(Next(s, CheckDue(p)), actions).facts;
            o in f.winner && f.winner[o] == p ==> o < |f.db.orders| && f.db.orders[o].status == Expired
  {
    var before :| s == Run(INITIAL, before);
    ReachableWinnersPlaced(before);
    ReachableInv(s);
    NextKeeps(s, CheckDue(p));
    FirstCheck(s, p);
    hide Run, Next, Inv, Later;
    DueLineRuns(Next(s, CheckDue(p)), actions, p);
  }

  lemma FirstCheck(s: Sys, p: Pid)
    requires WinnersPlaced(s) && p in s.procs && s.procs[p].RefreshLoaded? && Overdue(s.procs[p].ord, s.clock)
    ensures DueLine(Next(s, CheckDue(p)), p)
  { }
}
