/** Who places orders: a reservation places at most one however often it is tried, and nothing else
    places any. */
module Placements {
  import opened Wrappers
  import opened Schema
  import opened Request
  import opened Transactions
  import opened System
  import opened History
  import opened Additions

  /** The action is a reservation that takes effect. */
  predicate Places(s: Sys, a: Action) {
    && a.Reserve? && a.p in s.procs && s.procs[a.p].Reserving? && a.fate != RollsBack
    && ReserveTx(s.facts.db, s.clock, a.number, s.procs[a.p].req).Ok?
  }

  /** How many actions of process p in a run place an order. */
  function PlacedCount(s: Sys, actions: seq<Action>, p: Pid): (n: nat) {
    if actions == [] then 0
    else
      var front, last := actions[..|actions| - 1], actions[|actions| - 1];
      PlacedCount(s, front, p) + if Places(Run(s, front), last) && last.p == p then 1 else 0
  }

  /** The processes that place an order in a run. */
  function Placers(s: Sys, actions: seq<Action>): (placers: set<Pid>) {
    if actions == [] then {}
    else
      var front, last := actions[..|actions| - 1], actions[|actions| - 1];
      Placers(s, front) + if Places(Run(s, front), last) then {last.p} else {}
  }

  // --- One action ----------------------------------------------------------------------------

  /** An action that places adds exactly one order, and any other none. */
  lemma OrdersAdded(s: Sys, a: Action)
    ensures |Next(s, a).facts.db.orders| == |s.facts.db.orders| + if Places(s, a) then 1 else 0
    ensures !Places(s, a) ==> NoOrders(s.facts.db, Next(s, a).facts.db)
  {
    if a.Reserve? {
      hide ReserveLines, Amount, Types, ItemRows, AttendeeRows, NumberTaken;
    } else {
      OnlyReservingAdds(s, a);
      hide Next;
    }
    assert Places(s, a) ==> a.Reserve?;
  }

  /** A process is reserving only until it places, and opens a payment only by placing. */
  lemma CheckoutStep(s: Sys, a: Action, p: Pid)
    requires p in s.procs
    ensures p in Next(s, a).procs
    ensures Next(s, a).procs[p].Reserving? ==> s.procs[p].Reserving? && !(Places(s, a) && a.p == p)
    ensures Next(s, a).procs[p].OpeningPayment? ==>
              || (s.procs[p].OpeningPayment? && !(Places(s, a) && a.p == p))
              || (s.procs[p].Reserving? && Places(s, a) && a.p == p)
  {
    if Mover(a) == Some(p) {
      OwnStep(s, a);
    } else {
      OtherLeavesInPlace(s, a, p);
      hide Next;
    }
  }

  lemma OwnStep(s: Sys, a: Action)
    requires Mover(a).Some? && a.p in s.procs
    ensures a.p in Next(s, a).procs
    ensures Next(s, a).procs[a.p].Reserving? ==> s.procs[a.p].Reserving? && !Places(s, a)
    ensures Next(s, a).procs[a.p].OpeningPayment? ==>
              (s.procs[a.p].OpeningPayment? && !Places(s, a)) || (s.procs[a.p].Reserving? && Places(s, a))
  {
    hide ReserveTx, SettleResult, SettleTx, StampTx, RecordTx, MarkSentTx, IssueTx, JoinedCodes, LinesOf, AttendeesOf,
      TicketsOf, IsDueBatch, FindByNumber, Accepts, GoesOn, Overdue;
  }

  // --- Runs --------------------------------------------------------------------------------------

  /** Over any run from any state, each process places at most one order, and the orders added are
      as many as the processes that placed one. */
  lemma {:induction false} OneOrderEach(s: Sys, actions: seq<Action>)
    ensures forall p :: PlacedCount(s, actions, p) == if p in Placers(s, actions) then 1 else 0
    ensures |Run(s, actions).facts.db.orders| == |s.facts.db.orders| + |Placers(s, actions)|
    ensures forall p <- Placers(s, actions) :: p in Run(s, actions).procs && !Run(s, actions).procs[p].Reserving?
  {
    if actions != [] {
      var front, last := actions[..|actions| - 1], actions[|actions| - 1];
      var mid := Run(s, front);
      OneOrderEach(s, front);
      OrdersAdded(mid, last);
      forall p | p in mid.procs
        ensures p in Next(mid, last).procs
        ensures Next(mid, last).procs[p].Reserving? ==> mid.procs[p].Reserving? && !(Places(mid, last) && last.p == p)
      {
        CheckoutStep(mid, last, p);
      }
      assert Places(mid, last) ==> last.p in mid.procs && mid.procs[last.p].Reserving?;
      hide Next, Places;
    }
  }

  /** A process that was reserving has placed exactly one order when it comes to open a payment. */
  lemma {:induction false} OpeningHasPlaced(s: Sys, actions: seq<Action>, p: Pid)
    requires p in s.procs && s.procs[p].Reserving?
    ensures p in Run(s, actions).procs
    ensures Run(s, actions).procs[p].Reserving? ==> PlacedCount(s, actions, p) == 0
    ensures Run(s, actions).procs[p].OpeningPayment? ==> PlacedCount(s, actions, p) == 1
  {
    if actions != [] {
      var front, last := actions[..|actions| - 1], actions[|actions| - 1];
      OpeningHasPlaced(s, front, p);
      CheckoutStep(Run(s, front), last, p);
      hide Next, Places;
    }
  }

  lemma {:induction false} RunAppend(s: Sys, a: seq<Action>, b: seq<Action>)
    ensures Run(s, a + b) == Run(Run(s, a), b)
  {
    if b == [] {
      assert a + b == a;
    } else {
      assert (a + b)[..|a + b| - 1] == a + b[..|b| - 1];
      RunAppend(s, a, b[..|b| - 1]);
      hide Next;
    }
  }

  lemma {:induction false} PlacedAppend(s: Sys, a: seq<Action>, b: seq<Action>, p: Pid)
    ensures PlacedCount(s, a + b, p) == PlacedCount(s, a, p) + PlacedCount(Run(s, a), b, p)
  {
    if b == [] {
      assert a + b == a;
    } else {
      assert (a + b)[..|a + b| - 1] == a + b[..|b| - 1];
      PlacedAppend(s, a, b[..|b| - 1], p);
      RunAppend(s, a, b[..|b| - 1]);
      hide Next, Places;
    }
  }

  /** How many of the actions by which a run has grown are process p's and place an order. */
  function PlacedSince(was: seq<Action>, trace: seq<Action>, p: Pid): (n: nat)
    requires was <= trace
  {
    PlacedCount(Run(INITIAL, was), trace[|was|..], p)
  }

  lemma AtMostOneSince(was: seq<Action>, trace: seq<Action>, p: Pid)
    requires was <= trace
    ensures PlacedSince(was, trace, p) <= 1
    ensures p in Run(INITIAL, was).procs && Run(INITIAL, was).procs[p].Reserving?
            && p in Run(INITIAL, trace).procs && Run(INITIAL, trace).procs[p].OpeningPayment? ==>
              PlacedSince(was, trace, p) == 1
  {
    var s, since := Run(INITIAL, was), trace[|was|..];
    assert was + since == trace;
    RunAppend(INITIAL, was, since);
    OneOrderEach(s, since);
    hide Run, PlacedCount, Placers;
    if p in s.procs && s.procs[p].Reserving? {
      OpeningHasPlaced(s, since, p);
    }
  }

  lemma SinceAdds(a: seq<Action>, b: seq<Action>, c: seq<Action>, p: Pid)
    requires a <= b <= c
    ensures PlacedSince(a, c, p) == PlacedSince(a, b, p) + PlacedSince(b, c, p)
  {
    assert c[|a|..] == b[|a|..] + c[|b|..] && a + b[|a|..] == b;
    RunAppend(INITIAL, a, b[|a|..]);
    PlacedAppend(Run(INITIAL, a), b[|a|..], c[|b|..], p);
    hide Run, PlacedCount;
  }

  /** An order once placed is never placed again by the same process. */
  lemma StillOneSince(a: seq<Action>, b: seq<Action>, c: seq<Action>, d: seq<Action>, p: Pid)
    requires a <= b <= c <= d && PlacedSince(b, c, p) == 1
    ensures PlacedSince(a, d, p) == 1
  {
    AtMostOneSince(a, d, p);
    SinceAdds(a, b, d, p);
    SinceAdds(b, c, d, p);
    hide *;
  }
}
