/** Expiry sweeps with nobody else at work, no faults and the clock fixed: exactly when they
    drain every due order, and what they leave when they do not. */
module Sweeps {
  import opened Wrappers
  import opened Schema
  import opened Transactions
  import opened System
  import opened Invariant
  import opened SettleSteps
  import opened Guarantees
  import opened Uncontended
  import opened DueQuery

  // --- One turn -------------------------------------------------------------------------

  /** expireIfDue on a snapshot. */
  function ExpireOne(db: Db, ord: OrderRef, now: int): (after: Db) {
    if !Overdue(ord, now) then db
    else
      match SettleTx(db, ord.id, Expired, true, LinesOf(db.items, ord.id))
      case Applied(after) => after
      case _ => db
  }

  function ExpireAll(db: Db, turns: seq<OrderRef>, now: int): (after: Db) {
    if turns == [] then db
    else ExpireOne(ExpireAll(db, turns[..|turns| - 1], now), turns[|turns| - 1], now)
  }

  predicate AllOverdue(turns: seq<OrderRef>, now: int) {
    forall i :: 0 <= i < |turns| ==> Overdue(turns[i], now)
  }

  lemma ExpiresIff(db: Db, o: OrderId)
    ensures SettleTx(db, o, Expired, true, LinesOf(db.items, o)).Applied? <==> IsPending(db, o) && Fits(db, o)
    ensures SettleTx(db, o, Expired, true, LinesOf(db.items, o)) == Failed <==> IsPending(db, o) && !Fits(db, o)
  { }

  /** A turn expires its order exactly if that is PENDING and its seats fit, and touches no other. */
  lemma TurnEffect(db: Db, ord: OrderRef, now: int)
    requires Overdue(ord, now)
    ensures var after := ExpireOne(db, ord, now);
            if IsPending(db, ord.id) && Fits(db, ord.id) then
              && after.orders == db.orders[ord.id := db.orders[ord.id].(status := Expired)]
              && after.items == db.items
            else after == db
  {
    hide RestoreLines, LinesOf;
    ExpiresIff(db, ord.id);
  }

  /** Order o has had a turn at which its seats fitted. */
  ghost predicate Served(db: Db, turns: seq<OrderRef>, now: int, o: OrderId) {
    exists i :: 0 <= i < |turns| && turns[i].id == o && Fits(ExpireAll(db, turns[..i], now), o)
  }

  lemma ServedNext(db: Db, turns: seq<OrderRef>, now: int, o: OrderId)
    requires turns != []
    ensures var front, last := turns[..|turns| - 1], turns[|turns| - 1];
            Served(db, turns, now, o) <==>
            Served(db, front, now, o) || (last.id == o && Fits(ExpireAll(db, front, now), o))
  {
    hide Fits, ExpireAll;
    var front, last := turns[..|turns| - 1], turns[|turns| - 1];
    if Served(db, turns, now, o) {
      var i :| 0 <= i < |turns| && turns[i].id == o && Fits(ExpireAll(db, turns[..i], now), o);
      if i < |front| {
        assert front[..i] == turns[..i] && front[i] == turns[i];
      }
    }
    if Served(db, front, now, o) {
      var i :| 0 <= i < |front| && front[i].id == o && Fits(ExpireAll(db, front[..i], now), o);
      assert front[..i] == turns[..i] && front[i] == turns[i];
    }
    if last.id == o && Fits(ExpireAll(db, front, now), o) {
      assert turns[..|turns| - 1] == front;
    }
  }

  /** After any turns, each order is as it was, except that the PENDING ones that were served
      are EXPIRED. */
  lemma {:induction false} TurnsEffect(db: Db, turns: seq<OrderRef>, now: int, o: OrderId)
    requires AllOverdue(turns, now) && o < |db.orders|
    ensures var after := ExpireAll(db, turns, now);
            && |after.orders| == |db.orders| && after.items == db.items
            && after.orders[o] == if IsPending(db, o) && Served(db, turns, now, o)
                                  then db.orders[o].(status := Expired) else db.orders[o]
  {
    if turns != [] {
      var front, last := turns[..|turns| - 1], turns[|turns| - 1];
      assert AllOverdue(front, now);
      TurnsEffect(db, front, now, o);
      ServedNext(db, turns, now, o);
      hide Served, Fits, ExpireOne;
      TurnEffect(ExpireAll(db, front, now), last, now);
    }
  }

  lemma {:induction false} ExpireAllAppend(db: Db, a: seq<OrderRef>, b: seq<OrderRef>, now: int)
    ensures ExpireAll(db, a + b, now) == ExpireAll(ExpireAll(db, a, now), b, now)
  {
    if b == [] {
      assert a + b == a;
    } else {
      assert (a + b)[..|a + b| - 1] == a + b[..|b| - 1];
      ExpireAllAppend(db, a, b[..|b| - 1], now);
    }
  }

  // --- Seats that are due -----------------------------------------------------------------

  /** Seats of type t in the due ones of the first n orders. */
  function DueSeatsBy(orders: seq<Order>, items: seq<ItemRow>, now: int, n: nat, t: TypeId): (seats: int)
    requires n <= |orders|
  {
    if n == 0 then 0
    else DueSeatsBy(orders, items, now, n - 1, t) + if Due(orders, n - 1, now) then QtyOf(items, n - 1, t) else 0
  }

  function DueSeats(db: Db, now: int, t: TypeId): (seats: int) {
    DueSeatsBy(db.orders, db.items, now, |db.orders|, t)
  }

  /** Every quota column has room for all the seats of its due orders. */
  predicate DueFits(db: Db, now: int) {
    forall t :: t in db.types ==> db.types[t].quota + DueSeats(db, now, t) <= MAX_INT32
  }

  lemma {:induction false} DueAfterExpiry(orders: seq<Order>, items: seq<ItemRow>, now: int, o: OrderId, n: nat, t: TypeId)
    requires n <= |orders| && Due(orders, o, now)
    ensures DueSeatsBy(orders[o := orders[o].(status := Expired)], items, now, n, t)
         == DueSeatsBy(orders, items, now, n, t) - if o < n then QtyOf(items, o, t) else 0
  {
    if n != 0 {
      DueAfterExpiry(orders, items, now, o, n - 1, t);
    }
  }

  lemma {:induction false} DueAtLeast(orders: seq<Order>, items: seq<ItemRow>, now: int, n: nat, o: OrderId, t: TypeId)
    requires n <= |orders| && forall r <- items :: r.qty >= 1
    ensures DueSeatsBy(orders, items, now, n, t) >= 0
    ensures o < n && Due(orders, o, now) ==> DueSeatsBy(orders, items, now, n, t) >= QtyOf(items, o, t)
  {
    if n != 0 {
      DueAtLeast(orders, items, now, n - 1, o, t);
      QtyOfNonNegative(items, n - 1, t);
    }
  }

  lemma {:induction false} NoneDue(orders: seq<Order>, items: seq<ItemRow>, now: int, n: nat, t: TypeId)
    requires n <= |orders| && DueSet(orders, now) == {}
    ensures DueSeatsBy(orders, items, now, n, t) == 0
  {
    if n != 0 {
      NoneDue(orders, items, now, n - 1, t);
      assert (n - 1) !in DueSet(orders, now);
    }
  }

  lemma FitsIfDueFits(db: Db, now: int, o: OrderId)
    requires DbOk(db) && DueFits(db, now) && Due(db.orders, o, now)
    ensures Fits(db, o)
  {
    LinesOk(db, o);
    RestoreIff(db.types, LinesOf(db.items, o));
    assert forall r <- db.items :: r.qty >= 1;
    forall t | t in db.types ensures db.types[t].quota + QtyOf(db.items, o, t) <= MAX_INT32 {
      DueAtLeast(db.orders, db.items, now, |db.orders|, o, t);
    }
  }

  /** The same types, each with the same sum of remaining quota and due seats. */
  ghost predicate SameSums(a: Db, b: Db, now: int) {
    && b.types.Keys == a.types.Keys
    && forall t :: t in a.types ==>
         b.types[t].quota + DueSeats(b, now, t) == a.types[t].quota + DueSeats(a, now, t)
  }

  lemma SumsDecide(a: Db, b: Db, now: int)
    requires SameSums(a, b, now)
    ensures DueFits(a, now) <==> DueFits(b, now)
  { }

  /** A turn that succeeds moves exactly its seats, and one that fails moves nothing. */
  lemma TurnKeeps(db: Db, ord: OrderRef, now: int)
    requires DbOk(db) && Overdue(ord, now) && Due(db.orders, ord.id, now)
    ensures var after := ExpireOne(db, ord, now); DbOk(after) && SameSums(db, after, now)
  {
    ExpiresIff(db, ord.id);
    hide Fits;
    var r := SettleTx(db, ord.id, Expired, true, LinesOf(db.items, ord.id));
    if r.Applied? {
      ExpiryKeeps(db, ord.id, now, r.db);
    }
    hide DbOk, SettleTx, LinesOf;
  }

  lemma ExpiryKeeps(db: Db, o: OrderId, now: int, after: Db)
    requires DbOk(db) && Due(db.orders, o, now)
    requires SettleTx(db, o, Expired, true, LinesOf(db.items, o)) == Applied(after)
    ensures DbOk(after) && SameSums(db, after, now)
  {
    assert QuotasOk(db.types);
    SettleRows(db, o, Expired, true, LinesOf(db.items, o), after);
    hide DbOk, SettleTx;
    SettleDbOk(db, o, Expired, after);
    forall t | t in db.types
      ensures after.types[t].quota + DueSeats(after, now, t) == db.types[t].quota + DueSeats(db, now, t)
    {
      DueAfterExpiry(db.orders, db.items, now, o, |db.orders|, t);
    }
  }

  // --- One batch -----------------------------------------------------------------------------

  /** The part of a query result that matters to its turns: distinct snapshots of due orders. */
  ghost predicate DueRefs(orders: seq<Order>, now: int, batch: seq<OrderRef>) {
    && (forall i :: 0 <= i < |batch| ==> Due(orders, batch[i].id, now) && batch[i] == RefTo(orders, batch[i].id))
    && forall i, j :: 0 <= i < j < |batch| ==> batch[i].id != batch[j].id
  }

  function Ids(batch: seq<OrderRef>): (ids: set<OrderId>) {
    set i | 0 <= i < |batch| :: batch[i].id
  }

  lemma DueRefsAreOverdue(orders: seq<Order>, now: int, batch: seq<OrderRef>)
    requires DueRefs(orders, now, batch)
    ensures AllOverdue(batch, now)
  { }

  lemma BatchIsDueRefs(orders: seq<Order>, now: int, batch: seq<OrderRef>)
    requires IsDueBatch(orders, now, batch)
    ensures DueRefs(orders, now, batch) && AllOverdue(batch, now) && |batch| <= EXPIRY_BATCH_SIZE
  { }

  lemma FrontOfDueRefs(orders: seq<Order>, now: int, batch: seq<OrderRef>, k: nat)
    requires DueRefs(orders, now, batch) && k <= |batch|
    ensures DueRefs(orders, now, batch[..k])
  { }

  /** When its turn comes, an order of the batch is still due. */
  lemma StillDue(db: Db, batch: seq<OrderRef>, now: int, k: nat)
    requires DueRefs(db.orders, now, batch) && k < |batch|
    ensures var mid := ExpireAll(db, batch[..k], now);
            && |mid.orders| == |db.orders| && mid.items == db.items
            && mid.orders[batch[k].id] == db.orders[batch[k].id] && Due(mid.orders, batch[k].id, now)
  {
    FrontOfDueRefs(db.orders, now, batch, k);
    DueRefsAreOverdue(db.orders, now, batch[..k]);
    TurnsEffect(db, batch[..k], now, batch[k].id);
    assert !Served(db, batch[..k], now, batch[k].id) by {
      hide Fits, ExpireAll;
      assert forall i :: 0 <= i < k ==> batch[..k][i] == batch[i];
    }
  }

  lemma {:induction false} BatchKeeps(db: Db, batch: seq<OrderRef>, now: int)
    requires DbOk(db) && DueRefs(db.orders, now, batch)
    ensures var after := ExpireAll(db, batch, now); DbOk(after) && SameSums(db, after, now)
  {
    if batch != [] {
      var k := |batch| - 1;
      FrontOfDueRefs(db.orders, now, batch, k);
      DueRefsAreOverdue(db.orders, now, batch);
      BatchKeeps(db, batch[..k], now);
      StillDue(db, batch, now, k);
      hide DbOk, DueSeats, DueRefs, ExpireOne;
      TurnKeeps(ExpireAll(db, batch[..k], now), batch[k], now);
    }
  }

  /** If the due seats fit, every order of the batch is served. */
  lemma BatchServed(db: Db, batch: seq<OrderRef>, now: int, k: nat)
    requires DbOk(db) && DueFits(db, now) && DueRefs(db.orders, now, batch) && k < |batch|
    ensures Served(db, batch, now, batch[k].id)
  {
    var mid := ExpireAll(db, batch[..k], now);
    FrontOfDueRefs(db.orders, now, batch, k);
    BatchKeeps(db, batch[..k], now);
    StillDue(db, batch, now, k);
    SumsDecide(db, mid, now);
    hide DbOk, DueFits, DueRefs, Fits, SameSums, ExpireAll;
    FitsIfDueFits(mid, now, batch[k].id);
  }

  /** The orders after expiring exactly those of the set. */
  ghost predicate ExactlyExpired(a: seq<Order>, b: seq<Order>, ids: set<OrderId>) {
    && |b| == |a|
    && forall o: OrderId :: o < |a| ==> b[o] == if o in ids then a[o].(status := Expired) else a[o]
  }

  lemma {:induction false} SameSize(db: Db, turns: seq<OrderRef>, now: int)
    requires AllOverdue(turns, now)
    ensures |ExpireAll(db, turns, now).orders| == |db.orders| && ExpireAll(db, turns, now).items == db.items
  {
    if turns != [] {
      var front := turns[..|turns| - 1];
      assert AllOverdue(front, now);
      SameSize(db, front, now);
      hide ExpireOne, Fits;
      TurnEffect(ExpireAll(db, front, now), turns[|turns| - 1], now);
    }
  }

  lemma BatchExpires(db: Db, batch: seq<OrderRef>, now: int)
    requires DbOk(db) && DueFits(db, now) && DueRefs(db.orders, now, batch)
    ensures ExactlyExpired(db.orders, ExpireAll(db, batch, now).orders, Ids(batch))
  {
    DueRefsAreOverdue(db.orders, now, batch);
    SameSize(db, batch, now);
    forall o: OrderId | o < |db.orders|
      ensures ExpireAll(db, batch, now).orders[o] == if o in Ids(batch) then db.orders[o].(status := Expired) else db.orders[o]
    {
      TurnsEffect(db, batch, now, o);
      if o in Ids(batch) {
        var k :| 0 <= k < |batch| && batch[k].id == o;
        BatchServed(db, batch, now, k);
      } else {
        NotServed(db, batch, now, o);
      }
    }
    hide *;
    ExactlyExpiredIs(db.orders, ExpireAll(db, batch, now).orders, Ids(batch));
  }

  lemma ExactlyExpiredIs(a: seq<Order>, b: seq<Order>, ids: set<OrderId>)
    requires |b| == |a|
    requires forall o: OrderId :: o < |a| ==> b[o] == if o in ids then a[o].(status := Expired) else a[o]
    ensures ExactlyExpired(a, b, ids)
  { }

  lemma NotServed(db: Db, batch: seq<OrderRef>, now: int, o: OrderId)
    requires o !in Ids(batch)
    ensures !Served(db, batch, now, o)
  {
    assert forall i :: 0 <= i < |batch| ==> batch[i].id in Ids(batch);
  }

  lemma {:induction false} IdsCount(batch: seq<OrderRef>)
    requires forall i, j :: 0 <= i < j < |batch| ==> batch[i].id != batch[j].id
    ensures |Ids(batch)| == |batch|
  {
    if batch != [] {
      var front, last := batch[..|batch| - 1], batch[|batch| - 1];
      IdsCount(front);
      assert Ids(batch) == Ids(front) + {last.id} by {
        assert forall i :: 0 <= i < |front| ==> batch[i] == front[i];
        assert batch[|front|].id in Ids(batch);
      }
      assert last.id !in Ids(front);
    }
  }

  lemma DueAfter(a: seq<Order>, b: seq<Order>, ids: set<OrderId>, now: int)
    requires ExactlyExpired(a, b, ids)
    ensures DueSet(b, now) == DueSet(a, now) - ids
  {
    forall o: OrderId ensures o in DueSet(b, now) <==> o in DueSet(a, now) - ids { }
  }

  /** A batch has min(100, n) of the n due orders, and none later than one it leaves out. */
  lemma BatchSize(orders: seq<Order>, now: int, batch: seq<OrderRef>)
    requires IsDueBatch(orders, now, batch)
    ensures var due := DueSet(orders, now);
            && Ids(batch) <= due
            && |Ids(batch)| == |batch| == (if |due| < EXPIRY_BATCH_SIZE then |due| else EXPIRY_BATCH_SIZE)
            && forall x, y :: x in Ids(batch) && y in due - Ids(batch) ==>
                 orders[x].deadline.value <= orders[y].deadline.value
  {
    IdsCount(batch);
    var due := DueSet(orders, now);
    assert Ids(batch) <= due;
    CardinalityMonotone(Ids(batch), due);
    assert forall i :: 0 <= i < |batch| ==> batch[i].id in Ids(batch);
    if !(due <= Ids(batch)) {
      var o :| o in due && o !in Ids(batch);
      assert Due(orders, o, now);
      assert |batch| == EXPIRY_BATCH_SIZE;
    } else {
      assert Ids(batch) == due;
    }
    forall x, y | x in Ids(batch) && y in due - Ids(batch)
      ensures orders[x].deadline.value <= orders[y].deadline.value
    {
      assert Due(orders, y, now);
    }
  }

  lemma {:induction false} CardinalityMonotone<T>(a: set<T>, b: set<T>)
    requires a <= b
    ensures |a| <= |b|
  {
    if a != {} {
      var x :| x in a;
      CardinalityMonotone(a - {x}, b - {x});
    }
  }

  /** A sweep takes min(100, n) of the n due orders, none later than a due order it leaves; it
      expires those of them whose seats fit at their turn and touches no other order. If the due
      seats fit, it expires them all. */
  lemma SweepExpiresOldest(db: Db, now: int, batch: seq<OrderRef>)
    requires DbOk(db) && IsDueBatch(db.orders, now, batch)
    ensures var after, due := ExpireAll(db, batch, now), DueSet(db.orders, now);
            && DbOk(after) && SameSums(db, after, now) && |after.orders| == |db.orders|
            && Ids(batch) <= due
            && |Ids(batch)| == (if |due| < EXPIRY_BATCH_SIZE then |due| else EXPIRY_BATCH_SIZE)
            && (forall x, y :: x in Ids(batch) && y in due - Ids(batch) ==>
                  db.orders[x].deadline.value <= db.orders[y].deadline.value)
            && (DueFits(db, now) ==>
                  ExactlyExpired(db.orders, after.orders, Ids(batch)) && DueSet(after.orders, now) == due - Ids(batch))
    ensures forall o: OrderId :: o < |db.orders| ==>
              ExpireAll(db, batch, now).orders[o]
              == if IsPending(db, o) && Served(db, batch, now, o) then db.orders[o].(status := Expired) else db.orders[o]
  {
    BatchIsDueRefs(db.orders, now, batch);
    BatchSize(db.orders, now, batch);
    BatchKeeps(db, batch, now);
    SameSize(db, batch, now);
    forall o: OrderId | o < |db.orders| {
      TurnsEffect(db, batch, now, o);
    }
    if DueFits(db, now) {
      BatchExpires(db, batch, now);
      DueAfter(db.orders, ExpireAll(db, batch, now).orders, Ids(batch), now);
    }
    hide *;
  }

  // --- Sweeps in a row -----------------------------------------------------------------------

  /** All turns of the batches, in order. */
  function Turns(batches: seq<seq<OrderRef>>): (turns: seq<OrderRef>) {
    if batches == [] then [] else Turns(batches[..|batches| - 1]) + batches[|batches| - 1]
  }

  /** The rows after the batches. */
  function Swept(db: Db, batches: seq<seq<OrderRef>>, now: int): (after: Db) {
    ExpireAll(db, Turns(batches), now)
  }

  /** Each batch is one that the query may return on the rows the earlier ones left. */
  ghost predicate SweepRun(db: Db, now: int, batches: seq<seq<OrderRef>>) {
    batches == []
    || (var front, last := batches[..|batches| - 1], batches[|batches| - 1];
        SweepRun(db, now, front) && IsDueBatch(Swept(db, front, now).orders, now, last))
  }

  lemma SweptNext(db: Db, batches: seq<seq<OrderRef>>, now: int)
    requires batches != []
    ensures var front, last := batches[..|batches| - 1], batches[|batches| - 1];
            Swept(db, batches, now) == ExpireAll(Swept(db, front, now), last, now)
  {
    ExpireAllAppend(db, Turns(batches[..|batches| - 1]), batches[|batches| - 1], now);
  }

  /** There is always a next sweep, so there are runs of any number of sweeps. */
  lemma {:induction false} SweepsExist(db: Db, now: int, k: nat) returns (batches: seq<seq<OrderRef>>)
    ensures |batches| == k && SweepRun(db, now, batches)
  {
    batches := [];
    if k != 0 {
      var front := SweepsExist(db, now, k - 1);
      var batch := BatchExists(Swept(db, front, now).orders, now);
      batches := front + [batch];
      assert batches[..|batches| - 1] == front;
    }
  }

  lemma {:induction false} SweepsKeep(db: Db, now: int, batches: seq<seq<OrderRef>>)
    requires DbOk(db) && SweepRun(db, now, batches)
    ensures var after := Swept(db, batches, now); DbOk(after) && SameSums(db, after, now)
  {
    if batches != [] {
      var front, last := batches[..|batches| - 1], batches[|batches| - 1];
      SweepsKeep(db, now, front);
      SweptNext(db, batches, now);
      var mid := Swept(db, front, now);
      BatchIsDueRefs(mid.orders, now, last);
      hide DbOk, Swept, DueSeats, ExpireAll, SweepRun, IsDueBatch, DueRefs;
      BatchKeeps(mid, last, now);
    }
  }

  lemma DrainStep(a: seq<Order>, b: seq<Order>, c: seq<Order>,
                  x: set<OrderId>, y: set<OrderId>, z: set<OrderId>, ids: set<OrderId>, k: nat)
    requires y <= x && ids <= y && z == y - ids
    requires |ids| == if |y| < EXPIRY_BATCH_SIZE then |y| else EXPIRY_BATCH_SIZE
    requires |y| == if |x| <= k * EXPIRY_BATCH_SIZE then 0 else |x| - k * EXPIRY_BATCH_SIZE
    requires ExactlyExpired(a, b, x - y) && ExactlyExpired(b, c, ids)
    ensures z <= x && ExactlyExpired(a, c, x - z)
    ensures |z| == if |x| <= (k + 1) * EXPIRY_BATCH_SIZE then 0 else |x| - (k + 1) * EXPIRY_BATCH_SIZE
  {
    assert |y - ids| == |y| - |ids|;
    assert x - z == (x - y) + ids;
    ExpiredTwice(a, b, c, x - y, ids);
  }

  /** k sweeps have left n - 100 k of n due orders, and changed no order that was not due. */
  ghost predicate Drained(a: seq<Order>, b: seq<Order>, now: int, k: nat) {
    var n := |DueSet(a, now)|;
    && DueSet(b, now) <= DueSet(a, now)
    && |DueSet(b, now)| == (if n <= k * EXPIRY_BATCH_SIZE then 0 else n - k * EXPIRY_BATCH_SIZE)
    && ExactlyExpired(a, b, DueSet(a, now) - DueSet(b, now))
  }

  lemma NoSweepsDrain(a: seq<Order>, now: int)
    ensures Drained(a, a, now, 0)
  {
    assert DueSet(a, now) - DueSet(a, now) == {};
    ExactlyExpiredIs(a, a, {});
    hide DueSet, ExactlyExpired;
  }

  lemma DrainedNext(a: seq<Order>, b: seq<Order>, c: seq<Order>, now: int, k: nat, ids: set<OrderId>)
    requires Drained(a, b, now, k) && ids <= DueSet(b, now) && DueSet(c, now) == DueSet(b, now) - ids
    requires var due := DueSet(b, now); |ids| == if |due| < EXPIRY_BATCH_SIZE then |due| else EXPIRY_BATCH_SIZE
    requires ExactlyExpired(b, c, ids)
    ensures Drained(a, c, now, k + 1)
  {
    hide DueSet, ExactlyExpired;
    DrainStep(a, b, c, DueSet(a, now), DueSet(b, now), DueSet(c, now), ids, k);
  }

  /** If the due seats fit, k sweeps leave n - 100 k of n due orders, so ceil(n / 100) leave
      none; and they change no order that was not due. */
  lemma {:induction false} SweepsDrain(db: Db, now: int, batches: seq<seq<OrderRef>>)
    requires DbOk(db) && DueFits(db, now) && SweepRun(db, now, batches)
    ensures Drained(db.orders, Swept(db, batches, now).orders, now, |batches|)
  {
    if batches == [] {
      NoSweepsDrain(db.orders, now);
      hide Drained;
    } else {
      var front, last := batches[..|batches| - 1], batches[|batches| - 1];
      SweepsDrain(db, now, front);
      SweepsKeep(db, now, front);
      SweptNext(db, batches, now);
      LastBatch(db, now, batches);
      hide *;
      var mid := Swept(db, front, now);
      SumsDecide(db, mid, now);
      SweepExpiresOldest(mid, now, last);
      DrainedNext(db.orders, mid.orders, Swept(db, batches, now).orders, now, |front|, Ids(last));
    }
  }

  lemma LastBatch(db: Db, now: int, batches: seq<seq<OrderRef>>)
    requires SweepRun(db, now, batches) && batches != []
    ensures IsDueBatch(Swept(db, batches[..|batches| - 1], now).orders, now, batches[|batches| - 1])
  { }

  lemma ExpiredTwice(a: seq<Order>, b: seq<Order>, c: seq<Order>, x: set<OrderId>, y: set<OrderId>)
    requires ExactlyExpired(a, b, x) && ExactlyExpired(b, c, y)
    ensures ExactlyExpired(a, c, x + y)
  { }

  /** Sweeps ever leave no order due only if the due seats fit before the first of them. */
  lemma DrainNeedsRoom(db: Db, now: int, batches: seq<seq<OrderRef>>)
    requires DbOk(db) && SweepRun(db, now, batches) && DueSet(Swept(db, batches, now).orders, now) == {}
    ensures DueFits(db, now)
  {
    var after := Swept(db, batches, now);
    SweepsKeep(db, now, batches);
    forall t | t in after.types ensures after.types[t].quota + DueSeats(after, now, t) <= MAX_INT32 {
      NoneDue(after.orders, after.items, now, |after.orders|, t);
    }
    assert DueFits(after, now);
    hide DueFits, Swept, DbOk, DueSet;
    SumsDecide(db, after, now);
  }

  /** Enough sweeps drain every due order if and only if, for each ticket type, the remaining
      quota and the seats of the due orders fit the quota column together. */
  lemma SweepsDrainIff(db: Db, now: int, batches: seq<seq<OrderRef>>)
    requires DbOk(db) && SweepRun(db, now, batches) && |DueSet(db.orders, now)| <= |batches| * EXPIRY_BATCH_SIZE
    ensures DueSet(Swept(db, batches, now).orders, now) == {} <==> DueFits(db, now)
  {
    if DueFits(db, now) {
      SweepsDrain(db, now, batches);
      assert |DueSet(Swept(db, batches, now).orders, now)| == 0;
    }
    if DueSet(Swept(db, batches, now).orders, now) == {} {
      DrainNeedsRoom(db, now, batches);
    }
    hide *;
  }

  /** Some number of sweeps drains every due order exactly under the same condition. */
  lemma CanDrainIff(db: Db, now: int)
    requires DbOk(db)
    ensures (exists batches :: SweepRun(db, now, batches) && DueSet(Swept(db, batches, now).orders, now) == {})
            <==> DueFits(db, now)
  {
    hide DbOk, DueFits, Swept, SweepRun, DueSet;
    if DueFits(db, now) {
      var batches := SweepsExist(db, now, |DueSet(db.orders, now)|);
      SweepsDrainIff(db, now, batches);
    }
    if exists batches :: SweepRun(db, now, batches) && DueSet(Swept(db, batches, now).orders, now) == {} {
      var batches :| SweepRun(db, now, batches) && DueSet(Swept(db, batches, now).orders, now) == {};
      DrainNeedsRoom(db, now, batches);
    }
  }

  // --- What sweeps leave ------------------------------------------------------------------------

  /** Only orders that were due from the start ever have a turn. */
  lemma {:induction false} TurnsAreDue(db: Db, now: int, batches: seq<seq<OrderRef>>)
    requires SweepRun(db, now, batches)
    ensures AllOverdue(Turns(batches), now)
    ensures forall i :: 0 <= i < |Turns(batches)| ==> Due(db.orders, Turns(batches)[i].id, now)
  {
    if batches != [] {
      var front, last := batches[..|batches| - 1], batches[|batches| - 1];
      TurnsAreDue(db, now, front);
      var mid := Swept(db, front, now);
      BatchIsDueRefs(mid.orders, now, last);
      SameSize(db, Turns(front), now);
      forall i | 0 <= i < |last| ensures Due(db.orders, last[i].id, now) {
        TurnsEffect(db, Turns(front), now, last[i].id);
      }
      hide Swept, IsDueBatch, SweepRun, ExpireAll, Served;
    }
  }

  /** The residue of any number of sweeps, whatever fits: an order still holds seats exactly if
      it is PAID, or PENDING and not yet due, or PENDING without a deadline, or was due and never
      served, either because no batch reached it or because its seats did not fit at any of its
      turns. The served ones are EXPIRED, and nothing else has changed. */
  lemma Residue(db: Db, now: int, batches: seq<seq<OrderRef>>, o: OrderId)
    requires SweepRun(db, now, batches) && o < |db.orders|
    ensures var before, after := db.orders[o], Swept(db, batches, now).orders;
            var served := Due(db.orders, o, now) && Served(db, Turns(batches), now, o);
            && o < |after|
            && after[o] == (if served then before.(status := Expired) else before)
            && (Holds(after[o].status) <==>
                  || before.status == Paid
                  || (before.status == Pending && (before.deadline.None? || before.deadline.value > now))
                  || (Due(db.orders, o, now) && !Served(db, Turns(batches), now, o)))
  {
    TurnsAreDue(db, now, batches);
    TurnsEffect(db, Turns(batches), now, o);
    if Served(db, Turns(batches), now, o) {
      var i :| 0 <= i < |Turns(batches)| && Turns(batches)[i].id == o && Fits(ExpireAll(db, Turns(batches)[..i], now), o);
    }
    hide SweepRun, ExpireAll, Fits, Turns;
  }

  /** A due order stays due after its turn exactly if its seats do not fit, and then its turn has
      changed nothing. */
  lemma StuckOrderStaysDue(db: Db, ord: OrderRef, now: int)
    requires Due(db.orders, ord.id, now) && ord == RefTo(db.orders, ord.id)
    ensures Due(ExpireOne(db, ord, now).orders, ord.id, now) <==> !Fits(db, ord.id)
    ensures !Fits(db, ord.id) ==> ExpireOne(db, ord, now) == db
  {
    TurnEffect(db, ord, now);
    hide Fits, ExpireOne;
  }

  // --- Orders that block all sweeps ----------------------------------------------------------------

  /** At least a batch of due orders whose seats do not fit, all older than every other due order. */
  ghost predicate Blocking(db: Db, now: int, stuck: set<OrderId>) {
    && stuck <= DueSet(db.orders, now) && |stuck| >= EXPIRY_BATCH_SIZE
    && (forall x <- stuck :: !Fits(db, x))
    && forall x, y :: x in stuck && y in DueSet(db.orders, now) - stuck ==>
         db.orders[x].deadline.value < db.orders[y].deadline.value
  }

  lemma Missing(stuck: set<OrderId>, ids: set<OrderId>, y: OrderId) returns (x: OrderId)
    requires y in ids && y !in stuck && |stuck| >= |ids|
    ensures x in stuck && x !in ids
  {
    if stuck <= ids {
      CardinalityMonotone(stuck, ids - {y});
    }
    x :| x in stuck && x !in ids;
  }

  /** Then the query returns none but them. */
  lemma BatchIsStuck(db: Db, now: int, stuck: set<OrderId>, batch: seq<OrderRef>)
    requires Blocking(db, now, stuck) && IsDueBatch(db.orders, now, batch)
    ensures Ids(batch) <= stuck
  {
    BatchSize(db.orders, now, batch);
    hide IsDueBatch, Ids, Fits, DueSet;
    forall y | y in Ids(batch) ensures y in stuck {
      if y !in stuck {
        var x := Missing(stuck, Ids(batch), y);
        assert false;
      }
    }
  }

  lemma {:induction false} StuckTurns(db: Db, now: int, turns: seq<OrderRef>)
    requires AllOverdue(turns, now) && forall i :: 0 <= i < |turns| ==> !Fits(db, turns[i].id)
    ensures ExpireAll(db, turns, now) == db
  {
    if turns != [] {
      var front := turns[..|turns| - 1];
      assert AllOverdue(front, now);
      assert forall i :: 0 <= i < |front| ==> front[i] == turns[i];
      StuckTurns(db, now, front);
      hide Fits, ExpireOne;
      TurnEffect(db, turns[|turns| - 1], now);
    }
  }

  /** A hundred such orders strand all the rest: no sweep ever expires anything again, though every
      other due order would fit. */
  lemma {:induction false} SweepsBlocked(db: Db, now: int, stuck: set<OrderId>, batches: seq<seq<OrderRef>>)
    requires Blocking(db, now, stuck) && SweepRun(db, now, batches)
    ensures Swept(db, batches, now) == db
  {
    if batches != [] {
      var front, last := batches[..|batches| - 1], batches[|batches| - 1];
      SweepsBlocked(db, now, stuck, front);
      SweptNext(db, batches, now);
      BatchIsStuck(db, now, stuck, last);
      BatchIsDueRefs(db.orders, now, last);
      assert forall i :: 0 <= i < |last| ==> last[i].id in Ids(last);
      hide Swept, ExpireAll, IsDueBatch, Fits;
      StuckTurns(db, now, last);
    }
  }

  // --- What a sweep counts --------------------------------------------------------------------------

  /** A turn takes its order out of the due ones exactly if its seats fit. */
  lemma TurnCount(db: Db, ord: OrderRef, now: int)
    requires Overdue(ord, now) && Due(db.orders, ord.id, now)
    ensures |DueSet(ExpireOne(db, ord, now).orders, now)| == |DueSet(db.orders, now)| - if Fits(db, ord.id) then 1 else 0
  {
    TurnEffect(db, ord, now);
    hide Fits, ExpireOne;
    if Fits(db, ord.id) {
      var after := ExpireOne(db, ord, now);
      ExactlyExpiredIs(db.orders, after.orders, {ord.id});
      DueAfter(db.orders, after.orders, {ord.id}, now);
      assert ord.id in DueSet(db.orders, now);
    }
  }

  lemma BatchCount(db: Db, now: int, batch: seq<OrderRef>)
    requires DbOk(db) && DueFits(db, now) && IsDueBatch(db.orders, now, batch)
    ensures |DueSet(db.orders, now)| - |DueSet(ExpireAll(db, batch, now).orders, now)| == |batch|
  {
    SweepExpiresOldest(db, now, batch);
    BatchSize(db.orders, now, batch);
    hide *;
    var due := DueSet(db.orders, now);
    assert |due - Ids(batch)| == |due| - |Ids(batch)|;
  }
}
