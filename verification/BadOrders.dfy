/** Bad orders: due orders of a type whose quota column has no room for all its due seats. A sweep
    passes over them, and fewer than a batch of them strand no other order. */
module BadOrders {
  import opened Wrappers
  import opened Schema
  import opened Transactions
  import opened System
  import opened Invariant
  import opened Guarantees
  import opened Uncontended
  import opened Sweeps

  /** The order has seats of a type whose remaining quota and due seats do not fit the column. */
  ghost predicate Bad(db: Db, now: int, o: OrderId) {
    exists t :: t in db.types && db.types[t].quota + DueSeats(db, now, t) > MAX_INT32 && QtyOf(db.items, o, t) >= 1
  }

  ghost function BadDue(db: Db, now: int): (bad: set<OrderId>) {
    set o | o in DueSet(db.orders, now) && Bad(db, now, o)
  }

  ghost function GoodDue(db: Db, now: int): (good: set<OrderId>) {
    DueSet(db.orders, now) - BadDue(db, now)
  }

  /** Whatever has had its turn before, the seats of a due order that is not bad fit. */
  lemma GoodFits(db: Db, now: int, o: OrderId)
    requires DbOk(db) && Due(db.orders, o, now) && !Bad(db, now, o)
    ensures Fits(db, o)
  {
    LinesOk(db, o);
    RestoreIff(db.types, LinesOf(db.items, o));
    assert forall r <- db.items :: r.qty >= 1;
    forall t | t in db.types ensures db.types[t].quota + QtyOf(db.items, o, t) <= MAX_INT32 {
      DueAtLeast(db.orders, db.items, now, |db.orders|, o, t);
      QtyOfNonNegative(db.items, o, t);
    }
  }

  /** No turn makes an order bad, or good. */
  lemma BadStays(a: Db, b: Db, now: int, o: OrderId)
    requires SameSums(a, b, now) && b.items == a.items
    ensures Bad(a, now, o) <==> Bad(b, now, o)
  {
    hide QtyOf, DueSeats;
    if Bad(a, now, o) {
      var t :| t in a.types && a.types[t].quota + DueSeats(a, now, t) > MAX_INT32 && QtyOf(a.items, o, t) >= 1;
      assert t in b.types && b.types[t].quota + DueSeats(b, now, t) > MAX_INT32 && QtyOf(b.items, o, t) >= 1;
    }
    if Bad(b, now, o) {
      var t :| t in b.types && b.types[t].quota + DueSeats(b, now, t) > MAX_INT32 && QtyOf(b.items, o, t) >= 1;
      assert t in a.types && a.types[t].quota + DueSeats(a, now, t) > MAX_INT32 && QtyOf(a.items, o, t) >= 1;
    }
  }

  // --- One batch -----------------------------------------------------------------------------

  /** Every order of a batch that is not bad is served. */
  lemma GoodServed(db: Db, batch: seq<OrderRef>, now: int, k: nat)
    requires DbOk(db) && DueRefs(db.orders, now, batch) && k < |batch| && !Bad(db, now, batch[k].id)
    ensures Served(db, batch, now, batch[k].id)
  {
    var mid := ExpireAll(db, batch[..k], now);
    FrontOfDueRefs(db.orders, now, batch, k);
    BatchKeeps(db, batch[..k], now);
    StillDue(db, batch, now, k);
    BadStays(db, mid, now, batch[k].id);
    hide DbOk, DueRefs, Fits, SameSums, ExpireAll, Bad;
    GoodFits(mid, now, batch[k].id);
  }

  /** So a sweep takes exactly its own good orders out of the good ones that are due. */
  lemma BatchTakesGood(db: Db, now: int, batch: seq<OrderRef>)
    requires DbOk(db) && IsDueBatch(db.orders, now, batch)
    ensures var after := ExpireAll(db, batch, now);
            && DueSet(after.orders, now) <= DueSet(db.orders, now)
            && BadDue(after, now) <= BadDue(db, now)
            && GoodDue(after, now) == GoodDue(db, now) - Ids(batch)
  {
    var after := ExpireAll(db, batch, now);
    BatchIsDueRefs(db.orders, now, batch);
    BatchKeeps(db, batch, now);
    SameSize(db, batch, now);
    forall o: OrderId | o < |db.orders|
      ensures Bad(after, now, o) <==> Bad(db, now, o)
      ensures o in DueSet(after.orders, now) ==> o in DueSet(db.orders, now)
      ensures o in DueSet(db.orders, now) && !Bad(db, now, o) ==> (o in DueSet(after.orders, now) <==> o !in Ids(batch))
    {
      BadStays(db, after, now, o);
      GoodTurn(db, now, batch, o);
    }
    hide *;
    TakenGood(db, after, now, Ids(batch));
  }

  lemma TakenGood(a: Db, b: Db, now: int, ids: set<OrderId>)
    requires |b.orders| == |a.orders|
    requires forall o: OrderId :: o < |a.orders| ==>
               && (Bad(b, now, o) <==> Bad(a, now, o))
               && (o in DueSet(b.orders, now) ==> o in DueSet(a.orders, now))
               && (o in DueSet(a.orders, now) && !Bad(a, now, o) ==> (o in DueSet(b.orders, now) <==> o !in ids))
    ensures DueSet(b.orders, now) <= DueSet(a.orders, now) && BadDue(b, now) <= BadDue(a, now)
    ensures GoodDue(b, now) == GoodDue(a, now) - ids
  {
    hide Bad;
  }

  lemma GoodTurn(db: Db, now: int, batch: seq<OrderRef>, o: OrderId)
    requires DbOk(db) && DueRefs(db.orders, now, batch) && AllOverdue(batch, now) && o < |db.orders|
    ensures var after := ExpireAll(db, batch, now);
            && (o in DueSet(after.orders, now) ==> o in DueSet(db.orders, now))
            && (o in DueSet(db.orders, now) && !Bad(db, now, o) ==> (o in DueSet(after.orders, now) <==> o !in Ids(batch)))
  {
    TurnsEffect(db, batch, now, o);
    if o in Ids(batch) {
      if !Bad(db, now, o) {
        var k :| 0 <= k < |batch| && batch[k].id == o;
        GoodServed(db, batch, now, k);
      }
    } else {
      NotServed(db, batch, now, o);
    }
    hide DbOk, DueRefs, Bad, Served, ExpireAll, Ids;
  }

  /** What a fixed number of steps of that size leaves. */
  function Left(n: nat, steps: nat, size: nat): (left: nat) {
    if n <= steps * size then 0 else n - steps * size
  }

  /** k sweeps have left at most g - (100 - b) k of g good orders due, where b are bad; what is due
      was due before, and what is bad was bad before. */
  ghost predicate GoodDrained(a: Db, b: Db, now: int, k: nat)
    requires |BadDue(a, now)| < EXPIRY_BATCH_SIZE
  {
    && DueSet(b.orders, now) <= DueSet(a.orders, now) && BadDue(b, now) <= BadDue(a, now)
    && |GoodDue(b, now)| <= Left(|GoodDue(a, now)|, k, EXPIRY_BATCH_SIZE - |BadDue(a, now)|)
  }

  /** Each sweep has room for a batch less the bad orders. */
  lemma BatchProgress(db: Db, now: int, batch: seq<OrderRef>)
    requires DbOk(db) && IsDueBatch(db.orders, now, batch) && |BadDue(db, now)| < EXPIRY_BATCH_SIZE
    ensures GoodDrained(db, ExpireAll(db, batch, now), now, 1)
  {
    BatchTakesGood(db, now, batch);
    BatchSize(db.orders, now, batch);
    BadAreDue(db, now);
    GoodTaken(DueSet(db.orders, now), BadDue(db, now), GoodDue(db, now), Ids(batch), EXPIRY_BATCH_SIZE);
    hide *;
    GoodDrainedIs(db, ExpireAll(db, batch, now), now);
  }

  lemma GoodDrainedIs(a: Db, b: Db, now: int)
    requires |BadDue(a, now)| < EXPIRY_BATCH_SIZE
    requires DueSet(b.orders, now) <= DueSet(a.orders, now) && BadDue(b, now) <= BadDue(a, now)
    requires |GoodDue(b, now)| <= Left(|GoodDue(a, now)|, 1, EXPIRY_BATCH_SIZE - |BadDue(a, now)|)
    ensures GoodDrained(a, b, now, 1)
  { }

  lemma BadAreDue(db: Db, now: int)
    ensures BadDue(db, now) <= DueSet(db.orders, now) && GoodDue(db, now) == DueSet(db.orders, now) - BadDue(db, now)
  { }

  lemma GoodTaken(due: set<OrderId>, bad: set<OrderId>, good: set<OrderId>, ids: set<OrderId>, n: nat)
    requires bad <= due && good == due - bad && ids <= due && |ids| == (if |due| < n then |due| else n) && |bad| < n
    ensures |good - ids| <= Left(|good|, 1, n - |bad|)
  {
    var taken := ids - bad;
    if |due| < n {
      SameCardinality(ids, due);
      assert good - ids == {};
    } else {
      CardinalityMonotone(ids * bad, bad);
      assert ids == taken + ids * bad && taken !! ids * bad;
      assert taken <= good && good - ids == good - taken;
      assert |good - taken| == |good| - |taken|;
      assert 1 * (n - |bad|) == n - |bad|;
    }
  }

  lemma SameCardinality(a: set<OrderId>, b: set<OrderId>)
    requires a <= b && |a| == |b|
    ensures a == b
  {
    if a != b {
      var x :| x in b && x !in a;
      CardinalityMonotone(a, b - {x});
    }
  }

  // --- Sweeps in a row -------------------------------------------------------------------------

  lemma GoodDrainedNone(a: Db, now: int)
    requires |BadDue(a, now)| < EXPIRY_BATCH_SIZE
    ensures GoodDrained(a, a, now, 0)
  {
    hide DueSet, BadDue, GoodDue;
    LeftSteps(|GoodDue(a, now)|, |GoodDue(a, now)|, 0, EXPIRY_BATCH_SIZE - |BadDue(a, now)|);
  }

  lemma GoodDrainedNext(a: Db, b: Db, c: Db, now: int, k: nat)
    requires |BadDue(a, now)| < EXPIRY_BATCH_SIZE && |BadDue(b, now)| < EXPIRY_BATCH_SIZE
    requires GoodDrained(a, b, now, k) && GoodDrained(b, c, now, 1)
    ensures GoodDrained(a, c, now, k + 1)
  {
    hide DueSet, BadDue, GoodDue;
    CardinalityMonotone(BadDue(b, now), BadDue(a, now));
    var size := EXPIRY_BATCH_SIZE - |BadDue(a, now)|;
    LeftLess(|GoodDue(b, now)|, size, EXPIRY_BATCH_SIZE - |BadDue(b, now)|);
    LeftSteps(|GoodDue(a, now)|, |GoodDue(b, now)|, k, size);
  }

  lemma FewerBad(a: Db, b: Db, now: int, k: nat)
    requires |BadDue(a, now)| < EXPIRY_BATCH_SIZE && GoodDrained(a, b, now, k)
    ensures |BadDue(b, now)| < EXPIRY_BATCH_SIZE
  {
    hide DueSet, BadDue, GoodDue, Left;
    CardinalityMonotone(BadDue(b, now), BadDue(a, now));
  }

  lemma {:induction false} GoodDrain(db: Db, now: int, batches: seq<seq<OrderRef>>)
    requires DbOk(db) && SweepRun(db, now, batches) && |BadDue(db, now)| < EXPIRY_BATCH_SIZE
    ensures GoodDrained(db, Swept(db, batches, now), now, |batches|)
  {
    if batches == [] {
      NoSweeps(db, now);
      GoodDrainedNone(db, now);
    } else {
      var front, last := batches[..|batches| - 1], batches[|batches| - 1];
      var mid := Swept(db, front, now);
      LastBatch(db, now, batches);
      FrontRuns(db, now, batches);
      SweptNext(db, batches, now);
      GoodDrain(db, now, front);
      SweepsKeep(db, now, front);
      hide *;
      FewerBad(db, mid, now, |front|);
      BatchProgress(mid, now, last);
      GoodDrainedNext(db, mid, Swept(db, batches, now), now, |front|);
    }
    hide *;
  }

  lemma NoSweeps(db: Db, now: int)
    ensures Swept(db, [], now) == db
  { }

  lemma FrontRuns(db: Db, now: int, batches: seq<seq<OrderRef>>)
    requires SweepRun(db, now, batches) && batches != []
    ensures SweepRun(db, now, batches[..|batches| - 1])
  { }

  lemma LeftLess(n: nat, size: nat, larger: nat)
    requires size <= larger
    ensures Left(n, 1, larger) <= Left(n, 1, size)
  { }

  lemma LeftSteps(n: nat, mid: nat, k: nat, size: nat)
    ensures Left(n, 0, size) == n
    ensures mid <= Left(n, k, size) ==> Left(mid, 1, size) <= Left(n, k + 1, size)
  {
    assert (k + 1) * size == k * size + size && 0 * size == 0;
  }

  /** Fewer than a hundred bad orders strand no other: as many sweeps as orders are due, or fewer,
      expire every due order that is not bad, whatever else is in the tables. */
  lemma BadOrdersStrandNone(db: Db, now: int, batches: seq<seq<OrderRef>>)
    requires DbOk(db) && SweepRun(db, now, batches) && |BadDue(db, now)| < EXPIRY_BATCH_SIZE
    requires |GoodDue(db, now)| <= |batches| * (EXPIRY_BATCH_SIZE - |BadDue(db, now)|)
    ensures var after := Swept(db, batches, now);
            && DueSet(after.orders, now) <= BadDue(db, now) && |after.orders| == |db.orders|
            && forall o <- GoodDue(db, now) :: after.orders[o] == db.orders[o].(status := Expired)
  {
    var after := Swept(db, batches, now);
    GoodDrain(db, now, batches);
    TurnsAreDue(db, now, batches);
    SameSize(db, Turns(batches), now);
    NoneGoodLeft(db, after, now, |batches|);
    forall o <- GoodDue(db, now) ensures after.orders[o] == db.orders[o].(status := Expired) {
      GoodExpired(db, now, batches, o);
    }
    hide *;
  }

  lemma NoneGoodLeft(a: Db, b: Db, now: int, k: nat)
    requires |BadDue(a, now)| < EXPIRY_BATCH_SIZE && GoodDrained(a, b, now, k)
    requires |GoodDue(a, now)| <= k * (EXPIRY_BATCH_SIZE - |BadDue(a, now)|)
    ensures DueSet(b.orders, now) <= BadDue(a, now)
  {
    hide DueSet, Bad;
    assert GoodDue(b, now) == {};
  }

  lemma GoodExpired(db: Db, now: int, batches: seq<seq<OrderRef>>, o: OrderId)
    requires AllOverdue(Turns(batches), now) && o in GoodDue(db, now)
    requires DueSet(Swept(db, batches, now).orders, now) <= BadDue(db, now)
    ensures o < |Swept(db, batches, now).orders| == |db.orders|
    ensures Swept(db, batches, now).orders[o] == db.orders[o].(status := Expired)
  {
    TurnsEffect(db, Turns(batches), now, o);
    hide Bad, Served, ExpireAll, Turns;
    assert o !in DueSet(Swept(db, batches, now).orders, now);
  }

  /** In particular after one sweep for each order that is due. */
  lemma SweepsPassOverBad(db: Db, now: int, batches: seq<seq<OrderRef>>)
    requires DbOk(db) && SweepRun(db, now, batches) && |BadDue(db, now)| < EXPIRY_BATCH_SIZE
    requires |batches| >= |DueSet(db.orders, now)|
    ensures DueSet(Swept(db, batches, now).orders, now) <= BadDue(db, now)
  {
    BadAreDue(db, now);
    hide *;
    CardinalityMonotone(GoodDue(db, now), DueSet(db.orders, now));
    OneEach(|GoodDue(db, now)|, |batches|, EXPIRY_BATCH_SIZE - |BadDue(db, now)|);
    BadOrdersStrandNone(db, now, batches);
  }

  lemma OneEach(n: nat, k: nat, size: nat)
    requires n <= k && size >= 1
    ensures n <= k * size
  {
    assert k * size == k + k * (size - 1);
  }

  /** With no bad order at all, this is the condition under which everything drains. */
  lemma NoneBadIff(db: Db, now: int)
    requires DbOk(db)
    ensures BadDue(db, now) == {} <==> DueFits(db, now)
  {
    assert QuotasOk(db.types) && forall r <- db.items :: r.qty >= 1;
    if BadDue(db, now) == {} {
      forall t | t in db.types ensures db.types[t].quota + DueSeats(db, now, t) <= MAX_INT32 {
        if DueSeats(db, now, t) > 0 {
          var o := SomeDueSeat(db, now, |db.orders|, t);
          assert o !in BadDue(db, now);
        }
      }
    }
  }

  lemma {:induction false} SomeDueSeat(db: Db, now: int, n: nat, t: TypeId) returns (o: OrderId)
    requires n <= |db.orders| && DueSeatsBy(db.orders, db.items, now, n, t) > 0
    ensures o in DueSet(db.orders, now) && QtyOf(db.items, o, t) >= 1
  {
    if DueSeatsBy(db.orders, db.items, now, n - 1, t) > 0 {
      o := SomeDueSeat(db, now, n - 1, t);
    } else {
      o := n - 1;
    }
  }

  // --- A hundred of them -------------------------------------------------------------------------

  /** One absolute quota edit to the top of the column makes any hundred due orders with seats of
      the type, older than every other due order, block all sweeps. */
  lemma EditBlocks(db: Db, now: int, t: TypeId, row: TicketType, stuck: set<OrderId>)
    requires DbOk(db) && t in db.types && row.quota == MAX_INT32 && PriceFits(row.price)
    requires stuck <= DueSet(db.orders, now) && |stuck| >= EXPIRY_BATCH_SIZE
    requires forall x <- stuck :: QtyOf(db.items, x, t) >= 1
    requires forall x, y :: x in stuck && y in DueSet(db.orders, now) - stuck ==>
               db.orders[x].deadline.value < db.orders[y].deadline.value
    ensures UpdateTypeTx(db, t, row).Applied? && Blocking(UpdateTypeTx(db, t, row).db, now, stuck)
  {
    var after := UpdateTypeTx(db, t, row).db;
    forall x <- stuck ensures !Fits(after, x) {
      assert IsPending(db, x);
      ReleaseMayFail(db, x, Expired, t, row);
      ExpiresIff(after, x);
    }
    hide Fits, DbOk, QtyOf;
  }

  // --- Where the bound lies ------------------------------------------------------------------------

  function Number(i: nat): (number: string) {
    seq(i, _ => 'A')
  }

  /** n due orders with a seat each of a type whose quota is at the top of its column, and one that
      came due later, of a type with room. */
  function Crowd(n: nat): (db: Db) {
    Db({1},
       map[1 := TicketType(1, 100, MAX_INT32, 0, 0), 2 := TicketType(1, 100, 0, 0, 0)],
       seq(n + 1, i requires 0 <= i <= n => Order(Number(i), 100, Pending, Some("q"), Some(if i < n then 0 else 1), false)),
       seq(n + 1, i requires 0 <= i <= n => ItemRow(i, CrowdType(n, i), 1, 100)),
       seq(n + 1, i requires 0 <= i <= n => AttendeeRow(i, CrowdType(n, i))),
       [], [])
  }

  function CrowdType(n: nat, i: nat): TypeId {
    if i < n then 1 else 2
  }

  lemma {:induction false} CrowdRows(n: nat, k: nat, o: OrderId)
    requires k <= n + 1 && o <= n
    ensures LinesOf(Crowd(n).items[..k], o) == if o < k then [Line(CrowdType(n, o), 1, 100)] else []
    ensures AttendeeTypes(Crowd(n).attendees[..k], o) == if o < k then [CrowdType(n, o)] else []
  {
    if k != 0 {
      CrowdRows(n, k - 1, o);
      assert Crowd(n).items[..k][..k - 1] == Crowd(n).items[..k - 1];
      assert Crowd(n).attendees[..k][..k - 1] == Crowd(n).attendees[..k - 1];
    }
  }

  lemma CrowdSeats(n: nat, o: OrderId)
    requires o <= n
    ensures LinesOf(Crowd(n).items, o) == [Line(CrowdType(n, o), 1, 100)]
    ensures AttendeeTypes(Crowd(n).attendees, o) == [CrowdType(n, o)]
    ensures forall t :: QtyOf(Crowd(n).items, o, t) == if t == CrowdType(n, o) then 1 else 0
    ensures forall t :: CountOf([CrowdType(n, o)], t) == if t == CrowdType(n, o) then 1 else 0
    ensures Amount(LinesOf(Crowd(n).items, o)) == 100
  {
    CrowdRows(n, n + 1, o);
    assert Crowd(n).items[..n + 1] == Crowd(n).items && Crowd(n).attendees[..n + 1] == Crowd(n).attendees;
    var line, typ := Line(CrowdType(n, o), 1, 100), CrowdType(n, o);
    assert [line][..0] == [] && [typ][..0] == [];
    assert Amount([line]) == 100;
    assert forall t :: Qty([line][..0], t) == 0 && CountOf([typ][..0], t) == 0;
    assert forall t :: Qty([line], t) == if t == typ then 1 else 0;
    hide Crowd, LinesOf, Qty;
  }

  lemma CrowdOk(n: nat)
    ensures DbOk(Crowd(n))
  {
    var db := Crowd(n);
    forall o: OrderId | o < |db.orders|
      ensures forall t: TypeId :: CountOf(AttendeeTypes(db.attendees, o), t) == QtyOf(db.items, o, t)
      ensures db.orders[o].total == Amount(LinesOf(db.items, o)) && TicketsOf(db.tickets, o) == []
    {
      CrowdSeats(n, o);
    }
    assert NumbersUnique(db.orders) by {
      forall i, j | 0 <= i < j < |db.orders| ensures db.orders[i].number != db.orders[j].number {
        assert |Number(i)| == i && |Number(j)| == j;
      }
    }
    hide LinesOf, AttendeeTypes, CountOf, Amount, Number;
  }

  function Firsts(n: nat): (ids: set<OrderId>)
    ensures |ids| == n && forall o: OrderId :: o in ids <==> o < n
  {
    if n == 0 then {} else Firsts(n - 1) + {n - 1}
  }

  lemma CrowdFits(n: nat, o: OrderId)
    requires o <= n
    ensures Fits(Crowd(n), o) <==> o == n
  {
    CrowdSeats(n, o);
    var line := Line(CrowdType(n, o), 1, 100);
    assert [line][..0] == [];
    assert RestoreLines(Crowd(n).types, [line]) == RestoreOne(Crowd(n).types, line.typ, 1);
  }

  lemma CrowdOrder(n: nat, o: OrderId)
    requires o <= n
    ensures |Crowd(n).orders| == n + 1 && Due(Crowd(n).orders, o, 1)
    ensures Crowd(n).orders[o].deadline == Some(if o < n then 0 else 1)
  { }

  lemma {:induction false} LastSeatOnly(orders: seq<Order>, items: seq<ItemRow>, n: nat, k: nat, t: TypeId)
    requires k <= n + 1 == |orders|
    requires forall o: OrderId :: o <= n ==> Due(orders, o, 1) && QtyOf(items, o, t) == if o == n then 1 else 0
    ensures DueSeatsBy(orders, items, 1, k, t) == if k == n + 1 then 1 else 0
  {
    if k != 0 {
      hide QtyOf, Due;
      LastSeatOnly(orders, items, n, k - 1, t);
    }
  }

  lemma CrowdDueSeats(n: nat)
    ensures DueSeats(Crowd(n), 1, 2) == 1
  {
    forall o: OrderId | o <= n
      ensures Due(Crowd(n).orders, o, 1) && QtyOf(Crowd(n).items, o, 2) == if o == n then 1 else 0
    {
      CrowdSeats(n, o);
      CrowdOrder(n, o);
    }
    hide Crowd, QtyOf, Due;
    CrowdOrder(n, n);
    LastSeatOnly(Crowd(n).orders, Crowd(n).items, n, n + 1, 2);
  }

  lemma CrowdDue(n: nat)
    ensures |Crowd(n).orders| == n + 1 && DueSet(Crowd(n).orders, 1) == Firsts(n + 1)
  {
    forall o: OrderId | o <= n {
      CrowdOrder(n, o);
    }
    hide Crowd, Due;
  }

  lemma CrowdRoom(n: nat)
    ensures var db := Crowd(n); forall t :: t in db.types ==> t == 1 || (t == 2 && db.types[t].quota == 0)
  { }

  /** The last order is good. */
  lemma CrowdGood(n: nat)
    ensures BadDue(Crowd(n), 1) <= Firsts(n) && GoodDue(Crowd(n), 1) >= {n}
  {
    CrowdDue(n);
    LastIsGood(n);
    hide Crowd, Bad, Due;
  }

  lemma LastIsGood(n: nat)
    ensures !Bad(Crowd(n), 1, n)
  {
    CrowdDue(n);
    CrowdDueSeats(n);
    CrowdSeats(n, n);
    CrowdRoom(n);
    hide QtyOf, DueSeats, Crowd, DueSet;
  }

  lemma CrowdBlocks(n: nat)
    requires n >= EXPIRY_BATCH_SIZE
    ensures Blocking(Crowd(n), 1, Firsts(n))
  {
    CrowdDue(n);
    forall o: OrderId | o <= n
      ensures o < n ==> !Fits(Crowd(n), o)
      ensures Crowd(n).orders[o].deadline == Some(if o < n then 0 else 1)
    {
      CrowdFits(n, o);
      CrowdOrder(n, o);
    }
    hide Fits, Crowd, DueSet, Due;
    BlockingIs(Crowd(n), 1, n);
  }

  lemma BlockingIs(db: Db, now: int, n: nat)
    requires n >= EXPIRY_BATCH_SIZE && |db.orders| == n + 1 && DueSet(db.orders, now) == Firsts(n + 1)
    requires forall o: OrderId :: o < n ==> !Fits(db, o)
    requires forall o: OrderId :: o <= n ==> db.orders[o].deadline == Some(if o < n then 0 else 1)
    ensures Blocking(db, now, Firsts(n))
  {
    hide Fits;
  }

  /** The bound is exact: behind fewer than a hundred bad orders the last order is expired, though
      perhaps not by the first sweep, and behind a hundred or more it is stranded for ever. */
  lemma CrowdStrandsIff(n: nat, batches: seq<seq<OrderRef>>)
    requires SweepRun(Crowd(n), 1, batches) && |batches| > n
    ensures DbOk(Crowd(n)) && Fits(Crowd(n), n) && n in DueSet(Crowd(n).orders, 1)
    ensures n in DueSet(Swept(Crowd(n), batches, 1).orders, 1) <==> n >= EXPIRY_BATCH_SIZE
  {
    CrowdOk(n);
    CrowdFits(n, n);
    CrowdDue(n);
    CrowdGood(n);
    hide Crowd, Fits, DbOk, DueSet, SweepRun, Swept, Bad;
    if n >= EXPIRY_BATCH_SIZE {
      CrowdBlocks(n);
      SweepsBlocked(Crowd(n), 1, Firsts(n), batches);
    } else {
      CardinalityMonotone(BadDue(Crowd(n), 1), Firsts(n));
      SweepsPassOverBad(Crowd(n), 1, batches);
    }
  }
}
