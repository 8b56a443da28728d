/** The expiry query, and that it always has a result. */
module DueQuery {
  import opened Schema
  import opened System

  /** A query result in the making: the batch so far, and the due orders it does not have, none
      of them earlier than one it has. */
  ghost predicate Picked(orders: seq<Order>, now: int, batch: seq<OrderRef>, rest: set<OrderId>) {
    && |batch| <= EXPIRY_BATCH_SIZE && rest <= DueSet(orders, now)
    && (forall i :: 0 <= i < |batch| ==>
          Due(orders, batch[i].id, now) && batch[i] == RefTo(orders, batch[i].id) && batch[i].id !in rest)
    && (forall i, j :: 0 <= i < j < |batch| ==>
          batch[i].id != batch[j].id && batch[i].deadline.value <= batch[j].deadline.value)
    && (forall i, o :: 0 <= i < |batch| && o in rest ==> batch[i].deadline.value <= orders[o].deadline.value)
    && forall o: OrderId :: Due(orders, o, now) && o !in rest ==> exists i :: 0 <= i < |batch| && batch[i].id == o
  }

  lemma PickNext(orders: seq<Order>, now: int, batch: seq<OrderRef>, rest: set<OrderId>, o: OrderId)
    requires Picked(orders, now, batch, rest) && |batch| < EXPIRY_BATCH_SIZE
    requires o in rest && forall x <- rest :: orders[o].deadline.value <= orders[x].deadline.value
    ensures Picked(orders, now, batch + [RefTo(orders, o)], rest - {o})
  {
    var next := batch + [RefTo(orders, o)];
    assert next[|batch|].id == o;
    forall x: OrderId | Due(orders, x, now) && x !in rest - {o}
      ensures exists i :: 0 <= i < |next| && next[i].id == x
    {
      if x != o {
        var i :| 0 <= i < |batch| && batch[i].id == x;
        assert next[i].id == x;
      }
    }
  }

  lemma {:induction false} SomeOldest(orders: seq<Order>, now: int, due: set<OrderId>) returns (oldest: OrderId)
    requires due != {} && due <= DueSet(orders, now)
    ensures oldest in due && forall o <- due :: orders[oldest].deadline.value <= orders[o].deadline.value
  {
    oldest :| oldest in due;
    if due != {oldest} {
      var rest := due - {oldest};
      assert rest != {} by {
        assert !(due <= {oldest});
      }
      var other := SomeOldest(orders, now, rest);
      assert forall o <- due :: o == oldest || o in rest;
      if orders[other].deadline.value < orders[oldest].deadline.value {
        oldest := other;
      }
    }
  }

  /** Whatever the rows, there is a batch for the query to return. */
  lemma BatchExists(orders: seq<Order>, now: int) returns (batch: seq<OrderRef>)
    ensures IsDueBatch(orders, now, batch)
  {
    batch := [];
    var rest := DueSet(orders, now);
    while rest != {} && |batch| < EXPIRY_BATCH_SIZE
      invariant Picked(orders, now, batch, rest)
    {
      var o := SomeOldest(orders, now, rest);
      PickNext(orders, now, batch, rest, o);
      rest, batch := rest - {o}, batch + [RefTo(orders, o)];
    }
  }
}
