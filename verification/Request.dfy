/** The checkout request and its validation, with the source's 32-bit counters. */
module Request {
  import opened Wrappers
  import opened Schema

  type int32 = x: int | -0x8000_0000 <= x <= MAX_INT32

  /** Two's complement wrap-around of an exact sum. */
  function Wrap32(x: int): int32 {
    (x + 0x8000_0000) % 0x1_0000_0000 - 0x8000_0000
  }

  // The nil UUID.
  const NIL: TypeId := 0

  datatype CheckoutItem = CheckoutItem(typ: TypeId, qty: int32)

  /** The free-text checks are given as their verdicts. */
  datatype CheckoutAttendee = CheckoutAttendee(typ: TypeId, nameGiven: bool, emailValid: bool)

  datatype CheckoutRequest = CheckoutRequest(
    buyerNameGiven: bool, buyerEmailValid: bool, buyerPhoneGiven: bool,
    items: seq<CheckoutItem>, attendees: seq<CheckoutAttendee>)

  datatype ValidationError =
    | BuyerInvalid | NoItems | TypeRequired | QuantityTooSmall | DuplicateType
    | AttendeeInvalid | CountMismatch | TypeCountMismatch(typ: TypeId) | UnorderedType(other: TypeId)

  function Types(attendees: seq<CheckoutAttendee>): (types: seq<TypeId>)
    ensures |types| == |attendees|
  {
    seq(|attendees|, i requires 0 <= i < |attendees| => attendees[i].typ)
  }

  predicate DistinctTypes(items: seq<CheckoutItem>) {
    forall i, j :: 0 <= i < j < |items| ==> items[i].typ != items[j].typ
  }

  predicate PositiveQuantities(items: seq<CheckoutItem>) {
    forall item <- items :: item.qty >= 1
  }

  /** Everything but the attendee counts. */
  predicate WellFormed(req: CheckoutRequest) {
    && req.buyerNameGiven && req.buyerEmailValid && req.buyerPhoneGiven
    && req.items != []
    && (forall item <- req.items :: item.typ != NIL)
    && PositiveQuantities(req.items)
    && DistinctTypes(req.items)
    && forall a <- req.attendees :: a.nameGiven && a.emailValid
  }

  predicate Ordered(items: seq<CheckoutItem>, t: TypeId) {
    exists i :: 0 <= i < |items| && items[i].typ == t
  }

  predicate CountsMatch(items: seq<CheckoutItem>, types: seq<TypeId>) {
    forall item <- items :: CountOf(types, item.typ) == item.qty
  }

  /** Each ordered type has as many attendees as its quantity, and no attendee has another type. */
  predicate Exact(items: seq<CheckoutItem>, types: seq<TypeId>) {
    CountsMatch(items, types) && forall t <- types :: Ordered(items, t)
  }

  function SumQty(items: seq<CheckoutItem>): (n: int) {
    if items == [] then 0 else SumQty(items[..|items| - 1]) + items[|items| - 1].qty
  }

  // --- The counting argument ----------------------------------------------------

  function SumCounts(items: seq<CheckoutItem>, types: seq<TypeId>): (n: nat) {
    if items == [] then 0
    else SumCounts(items[..|items| - 1], types) + CountOf(types, items[|items| - 1].typ)
  }

  /** How many of the types are ordered at all. */
  function Covered(items: seq<CheckoutItem>, types: seq<TypeId>): (n: nat) {
    if types == [] then 0
    else Covered(items, types[..|types| - 1]) + if Ordered(items, types[|types| - 1]) then 1 else 0
  }

  lemma {:induction false} SumCountsStep(items: seq<CheckoutItem>, types: seq<TypeId>, t: TypeId)
    requires DistinctTypes(items)
    ensures SumCounts(items, types + [t]) == SumCounts(items, types) + if Ordered(items, t) then 1 else 0
  {
    assert (types + [t])[..|types|] == types;
    if items != [] {
      var front, last := items[..|items| - 1], items[|items| - 1];
      SumCountsStep(front, types, t);
      assert Ordered(items, t) <==> Ordered(front, t) || last.typ == t by {
        if Ordered(items, t) {
          var i :| 0 <= i < |items| && items[i].typ == t;
          assert i < |front| ==> front[i].typ == t;
        }
        if Ordered(front, t) {
          var i :| 0 <= i < |front| && front[i].typ == t;
          assert items[i].typ == t;
        }
        assert items[|items| - 1].typ == last.typ;
      }
      assert !(Ordered(front, t) && last.typ == t);
    }
  }

  lemma {:induction false} SumCountsIsCovered(items: seq<CheckoutItem>, types: seq<TypeId>)
    requires DistinctTypes(items)
    ensures SumCounts(items, types) == Covered(items, types) <= |types|
    ensures Covered(items, types) == |types| <==> forall t <- types :: Ordered(items, t)
  {
    if types == [] {
      NoCounts(items);
    } else {
      var front := types[..|types| - 1];
      SumCountsIsCovered(items, front);
      assert types == front + [types[|types| - 1]];
      SumCountsStep(items, front, types[|types| - 1]);
    }
  }

  lemma {:induction false} NoCounts(items: seq<CheckoutItem>)
    ensures SumCounts(items, []) == 0
  {
    if items != [] {
      NoCounts(items[..|items| - 1]);
    }
  }

  lemma {:induction false} SumQtyIsSumCounts(items: seq<CheckoutItem>, types: seq<TypeId>)
    requires CountsMatch(items, types)
    ensures SumQty(items) == SumCounts(items, types)
  {
    if items != [] {
      SumQtyIsSumCounts(items[..|items| - 1], types);
    }
  }

  /** Matching counts and a matching wrapped total leave no room for an unordered type. */
  lemma NoRoomForOthers(items: seq<CheckoutItem>, types: seq<TypeId>)
    requires DistinctTypes(items) && CountsMatch(items, types)
    requires Wrap32(SumQty(items)) == |types|
    ensures forall t <- types :: Ordered(items, t)
  {
    SumQtyIsSumCounts(items, types);
    SumCountsIsCovered(items, types);
  }

  /** An exact request has exactly as many attendees as tickets. */
  lemma ExactTotal(items: seq<CheckoutItem>, types: seq<TypeId>)
    requires DistinctTypes(items) && Exact(items, types)
    ensures SumQty(items) == |types|
  {
    SumQtyIsSumCounts(items, types);
    SumCountsIsCovered(items, types);
  }

  // --- The validator --------------------------------------------------------------

  method TotalQuantity(items: seq<CheckoutItem>) returns (total: int32)
    ensures total == Wrap32(SumQty(items))
  {
    total := 0;
    for i := 0 to |items|
      invariant total == Wrap32(SumQty(items[..i]))
    {
      assert items[..i + 1][..i] == items[..i];
      total := Wrap32(total + items[i].qty);
    }
    assert items[..|items|] == items;
  }

  /** The per-line checks, which also build the map of wanted quantities. */
  method CheckItems(items: seq<CheckoutItem>) returns (err: Option<ValidationError>, wanted: map<TypeId, int32>)
    ensures err.None? <==> (forall item <- items :: item.typ != NIL) && PositiveQuantities(items) && DistinctTypes(items)
    ensures err.Some? ==> err.value in {TypeRequired, QuantityTooSmall, DuplicateType}
    ensures err.None? ==> forall item <- items :: item.typ in wanted && wanted[item.typ] == item.qty
    ensures err.None? ==> forall t :: t in wanted ==> Ordered(items, t)
  {
    wanted := map[];
    for i := 0 to |items|
      invariant forall k :: 0 <= k < i ==> items[k].typ != NIL && items[k].qty >= 1
      invariant forall k, l :: 0 <= k < l < i ==> items[k].typ != items[l].typ
      invariant forall k :: 0 <= k < i ==> items[k].typ in wanted && wanted[items[k].typ] == items[k].qty
      invariant forall t :: t in wanted ==> exists k :: 0 <= k < i && items[k].typ == t
    {
      if items[i].typ == NIL {
        return Some(TypeRequired), wanted;
      }
      if items[i].qty < 1 {
        return Some(QuantityTooSmall), wanted;
      }
      if items[i].typ in wanted {
        return Some(DuplicateType), wanted;
      }
      wanted := wanted[items[i].typ := items[i].qty];
    }
    err := None;
  }

  method CountAttendees(attendees: seq<CheckoutAttendee>) returns (got: map<TypeId, int32>)
    requires |attendees| <= MAX_INT32
    ensures forall t :: CountOf(Types(attendees), t) == if t in got then got[t] else 0
    ensures forall t :: t in got ==> t in Types(attendees)
  {
    got := map[];
    for i := 0 to |attendees|
      invariant forall t :: CountOf(Types(attendees)[..i], t) == if t in got then got[t] else 0
      invariant forall t :: t in got ==> 0 <= got[t] <= i && t in Types(attendees)
    {
      var typ := attendees[i].typ;
      assert Types(attendees)[..i + 1][..i] == Types(attendees)[..i];
      assert Types(attendees)[i] == typ;
      got := got[typ := Wrap32((if typ in got then got[typ] else 0) + 1)];
    }
    assert Types(attendees)[..|attendees|] == Types(attendees);
  }

  /** The two counting loops; a type absent from `got` counts 0. */
  method CompareCounts(items: seq<CheckoutItem>, types: seq<TypeId>,
                       wanted: map<TypeId, int32>, got: map<TypeId, int32>)
    returns (err: Option<ValidationError>)
    requires DistinctTypes(items) && Wrap32(SumQty(items)) == |types|
    requires forall item <- items :: item.typ in wanted && wanted[item.typ] == item.qty
    requires forall t :: t in wanted ==> Ordered(items, t)
    requires forall t :: CountOf(types, t) == if t in got then got[t] else 0
    requires forall t :: t in got ==> t in types
    ensures err.None? <==> Exact(items, types)
    ensures err.Some? ==> err.value.TypeCountMismatch? && err.value.typ in wanted
                          && CountOf(types, err.value.typ) != wanted[err.value.typ]
  {
    var rest := wanted.Keys;
    while rest != {}
      invariant rest <= wanted.Keys
      invariant forall t :: t in wanted && t !in rest ==> CountOf(types, t) == wanted[t]
    {
      var t :| t in rest;
      rest := rest - {t};
      if (if t in got then got[t] else 0) != wanted[t] {
        assert !CountsMatch(items, types) by {
          var i :| 0 <= i < |items| && items[i].typ == t;
          assert items[i] in items;
        }
        return Some(TypeCountMismatch(t));
      }
    }
    NoRoomForOthers(items, types);
    rest := got.Keys;
    while rest != {}
      invariant rest <= got.Keys
    {
      var t :| t in rest;
      rest := rest - {t};
      assert Ordered(items, t);
      if t !in wanted {
        assert false;
        return Some(UnorderedType(t));
      }
    }
    err := None;
  }

  /** CheckoutRequest.Validate. The total may wrap, yet acceptance is exactly well-formedness
      and exact per-type counts, for fewer than 2^31 attendees; more are always refused.
      The last loop never finds an unordered type. */
  method Validate(req: CheckoutRequest) returns (err: Option<ValidationError>)
    ensures err.None? <==> Accepts(req)
    ensures err.Some? ==> !err.value.UnorderedType?
    ensures err == Some(CountMismatch) <==> WellFormed(req) && Wrap32(SumQty(req.items)) != |req.attendees|
  {
    if !req.buyerNameGiven || !req.buyerEmailValid || !req.buyerPhoneGiven {
      return Some(BuyerInvalid);
    }
    if |req.items| == 0 {
      return Some(NoItems);
    }
    var wanted;
    err, wanted := CheckItems(req.items);
    if err.Some? {
      return;
    }
    for i := 0 to |req.attendees|
      invariant forall k :: 0 <= k < i ==> req.attendees[k].nameGiven && req.attendees[k].emailValid
    {
      if !req.attendees[i].nameGiven || !req.attendees[i].emailValid {
        assert req.attendees[i] in req.attendees;
        return Some(AttendeeInvalid);
      }
    }
    var total := TotalQuantity(req.items);
    if total != |req.attendees| {
      assert Accepts(req) ==> false by {
        if Accepts(req) {
          ExactTotal(req.items, Types(req.attendees));
        }
      }
      return Some(CountMismatch);
    }
    var got := CountAttendees(req.attendees);
    err := CompareCounts(req.items, Types(req.attendees), wanted, got);
  }

  /** The requests checkout goes on with. */
  predicate Accepts(req: CheckoutRequest) {
    WellFormed(req) && Exact(req.items, Types(req.attendees)) && |req.attendees| <= MAX_INT32
  }

  /** With 2^32 too many tickets the wrapped total still fits two attendees: only the
      per-type counts stop the request. */
  lemma TotalMayWrap()
    ensures exists items: seq<CheckoutItem> ::
              && DistinctTypes(items) && PositiveQuantities(items)
              && Wrap32(SumQty(items)) == 2 && SumQty(items) != 2
  {
    var items := [CheckoutItem(1, MAX_INT32), CheckoutItem(2, MAX_INT32), CheckoutItem(3, 4)];
    var two := items[..2];
    assert two[..1] == [items[0]];
    assert SumQty([items[0]]) == MAX_INT32;
    assert SumQty(two) == 2 * MAX_INT32;
    assert Wrap32(SumQty(items)) == 2;
  }
}
