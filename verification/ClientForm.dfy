/** The browser's checkout form, compared with the server's validator.

    The two sides judge the free texts by rules of their own, so each has its own verdicts. The
    browser compares ticket-type ids as texts, and the server the ids those texts are read as. */
module ClientForm {
  import opened Wrappers
  import opened Schema
  import opened Request

  datatype Issue = WrongTotal | WrongTypeCount

  datatype FormItem = FormItem(id: string, qty: int32)

  datatype FormAttendee = FormAttendee(id: string, nameGiven: bool, emailValid: bool)

  datatype Form = Form(
    buyerNameGiven: bool, buyerEmailValid: bool, buyerPhoneGiven: bool,
    items: seq<FormItem>, attendees: seq<FormAttendee>)

  function ItemIds(items: seq<FormItem>): (ids: seq<string>)
    ensures |ids| == |items|
  {
    seq(|items|, i requires 0 <= i < |items| => items[i].id)
  }

  function AttendeeIds(attendees: seq<FormAttendee>): (ids: seq<string>)
    ensures |ids| == |attendees|
  {
    seq(|attendees|, i requires 0 <= i < |attendees| => attendees[i].id)
  }

  function CountText(ids: seq<string>, id: string): (n: nat) {
    if ids == [] then 0
    else CountText(ids[..|ids| - 1], id) + if ids[|ids| - 1] == id then 1 else 0
  }

  function FormTotal(items: seq<FormItem>): (n: int) {
    if items == [] then 0 else FormTotal(items[..|items| - 1]) + items[|items| - 1].qty
  }

  /** What the form's refinement checks: the grand total and each line's own count. It has no
      check for attendees of a type that is not ordered. */
  predicate FormMatches(form: Form) {
    && FormTotal(form.items) == |form.attendees|
    && forall item <- form.items :: CountText(AttendeeIds(form.attendees), item.id) == item.qty
  }

  /** checkoutSchema.superRefine. */
  method Refine(form: Form) returns (issue: Option<Issue>)
    ensures issue.None? <==> FormMatches(form)
    ensures issue == Some(WrongTotal) <==> FormTotal(form.items) != |form.attendees|
  {
    var items, ids := form.items, AttendeeIds(form.attendees);
    var total := 0;
    for i := 0 to |items|
      invariant total == FormTotal(items[..i])
    {
      assert items[..i + 1][..i] == items[..i];
      total := total + items[i].qty;
    }
    assert items[..|items|] == items;
    if total != |form.attendees| {
      return Some(WrongTotal);
    }
    var provided: map<string, int> := map[];
    for i := 0 to |ids|
      invariant forall id :: CountText(ids[..i], id) == if id in provided then provided[id] else 0
    {
      var id := ids[i];
      assert ids[..i + 1][..i] == ids[..i];
      provided := provided[id := (if id in provided then provided[id] else 0) + 1];
    }
    assert ids[..|ids|] == ids;
    for i := 0 to |items|
      invariant forall k :: 0 <= k < i ==> CountText(ids, items[k].id) == items[k].qty
    {
      var id := items[i].id;
      if (if id in provided then provided[id] else 0) != items[i].qty {
        assert items[i] in items;
        return Some(WrongTypeCount);
      }
    }
    issue := None;
  }

  // --- The counting argument --------------------------------------------------------------------

  /** The refinement's two checks, on ids as the server reads them. */
  predicate Matches(items: seq<CheckoutItem>, types: seq<TypeId>) {
    SumQty(items) == |types| && CountsMatch(items, types)
  }

  /** On distinct lines the two checks leave no room for an unordered type: they accept exactly
      the combinations that the server's three checks accept. */
  lemma FormIsExact(items: seq<CheckoutItem>, types: seq<TypeId>)
    requires DistinctTypes(items)
    ensures Matches(items, types) <==> Exact(items, types)
  {
    if Matches(items, types) {
      SumQtyIsSumCounts(items, types);
      SumCountsIsCovered(items, types);
    }
    if Exact(items, types) {
      ExactTotal(items, types);
    }
  }

  /** On a repeated line the form counts the same attendees twice, and lets one through whose
      type nobody ordered. */
  lemma RepeatedLineDiffers(a: TypeId, b: TypeId)
    requires a != b
    ensures var items := [CheckoutItem(a, 1), CheckoutItem(a, 1)];
            Matches(items, [a, b]) && !Exact(items, [a, b])
  {
    var items := [CheckoutItem(a, 1), CheckoutItem(a, 1)];
    assert items[..1] == [CheckoutItem(a, 1)];
    assert SumQty(items[..1]) == 1;
    assert [a, b][..1] == [a] && [a][..0] == [];
    assert CountOf([a], a) == 1;
    assert b in [a, b] && !Ordered(items, b);
  }

  // --- What is sent -------------------------------------------------------------------------------

  /** The request that a form is sent as. The server judges the texts for itself. */
  ghost predicate Sent(form: Form, read: string -> TypeId, req: CheckoutRequest) {
    && |req.items| == |form.items| && |req.attendees| == |form.attendees|
    && (forall i :: 0 <= i < |form.items| ==> req.items[i] == CheckoutItem(read(form.items[i].id), form.items[i].qty))
    && forall i :: 0 <= i < |form.attendees| ==> req.attendees[i].typ == read(form.attendees[i].id)
  }

  /** No two texts of the form are read as the same id. */
  ghost predicate OneSpelling(form: Form, read: string -> TypeId) {
    forall x, y :: x in ItemIds(form.items) && y in AttendeeIds(form.attendees) && read(x) == read(y) ==> x == y
  }

  lemma {:induction false} CountsAgree(ids: seq<string>, types: seq<TypeId>, read: string -> TypeId, x: string)
    requires |types| == |ids| && forall i :: 0 <= i < |ids| ==> types[i] == read(ids[i])
    requires forall y <- ids :: read(x) == read(y) ==> x == y
    ensures CountText(ids, x) == CountOf(types, read(x))
  {
    if ids != [] {
      var n := |ids| - 1;
      assert ids == ids[..n] + [ids[n]];
      CountsAgree(ids[..n], types[..n], read, x);
    }
  }

  lemma {:induction false} TotalsAgree(form: seq<FormItem>, items: seq<CheckoutItem>)
    requires |items| == |form| && forall i :: 0 <= i < |form| ==> items[i].qty == form[i].qty
    ensures FormTotal(form) == SumQty(items)
  {
    if form != [] {
      TotalsAgree(form[..|form| - 1], items[..|items| - 1]);
    }
  }

  // The counting argument again, on texts: distinct lines that count all attendees between them
  // leave none with another text.

  function SumTexts(xs: seq<string>, ids: seq<string>): (n: nat) {
    if xs == [] then 0 else SumTexts(xs[..|xs| - 1], ids) + CountText(ids, xs[|xs| - 1])
  }

  lemma {:induction false} OneMoreText(xs: seq<string>, ids: seq<string>, y: string)
    requires forall i, j :: 0 <= i < j < |xs| ==> xs[i] != xs[j]
    ensures SumTexts(xs, ids + [y]) == SumTexts(xs, ids) + if y in xs then 1 else 0
  {
    if xs != [] {
      var n := |xs| - 1;
      OneMoreText(xs[..n], ids, y);
      assert (ids + [y])[..|ids|] == ids;
      assert CountText(ids + [y], xs[n]) == CountText(ids, xs[n]) + if y == xs[n] then 1 else 0;
      assert xs == xs[..n] + [xs[n]];
    }
  }

  lemma {:induction false} NoTexts(xs: seq<string>)
    ensures SumTexts(xs, []) == 0
  {
    if xs != [] {
      NoTexts(xs[..|xs| - 1]);
    }
  }

  lemma {:induction false} TextsCovered(xs: seq<string>, ids: seq<string>)
    requires forall i, j :: 0 <= i < j < |xs| ==> xs[i] != xs[j]
    ensures SumTexts(xs, ids) <= |ids|
    ensures SumTexts(xs, ids) == |ids| ==> forall y <- ids :: y in xs
  {
    if ids == [] {
      NoTexts(xs);
    } else {
      var n := |ids| - 1;
      assert ids == ids[..n] + [ids[n]];
      TextsCovered(xs, ids[..n]);
      OneMoreText(xs, ids[..n], ids[n]);
    }
  }

  lemma {:induction false} CountsAddUp(items: seq<FormItem>, ids: seq<string>)
    requires forall item <- items :: CountText(ids, item.id) == item.qty
    ensures SumTexts(ItemIds(items), ids) == FormTotal(items)
  {
    if items != [] {
      var n := |items| - 1;
      assert items == items[..n] + [items[n]];
      CountsAddUp(items[..n], ids);
      assert ItemIds(items)[..n] == ItemIds(items[..n]);
    }
  }

  /** A form that matches has one spelling per id, if its lines are distinct. */
  lemma MatchingSpellsOnce(form: Form, read: string -> TypeId, req: CheckoutRequest)
    requires Sent(form, read, req) && DistinctTypes(req.items) && FormMatches(form)
    ensures OneSpelling(form, read)
  {
    var xs, ids := ItemIds(form.items), AttendeeIds(form.attendees);
    assert forall i :: 0 <= i < |xs| ==> read(xs[i]) == req.items[i].typ;
    CountsAddUp(form.items, ids);
    TextsCovered(xs, ids);
    forall x, y | x in xs && y in ids && read(x) == read(y) ensures x == y {
      var i :| 0 <= i < |xs| && xs[i] == x;
      var j :| 0 <= j < |xs| && xs[j] == y;
      assert i == j;
    }
  }

  /** With one spelling per id, the form matches exactly if the request does. */
  lemma MatchesAgree(form: Form, read: string -> TypeId, req: CheckoutRequest)
    requires Sent(form, read, req) && OneSpelling(form, read)
    ensures FormMatches(form) <==> Matches(req.items, Types(req.attendees))
  {
    TotalsAgree(form.items, req.items);
    var ids, types := AttendeeIds(form.attendees), Types(req.attendees);
    forall i | 0 <= i < |form.items|
      ensures CountText(ids, form.items[i].id) == CountOf(types, req.items[i].typ)
      ensures form.items[i] in form.items && req.items[i] in req.items
    {
      assert ItemIds(form.items)[i] in ItemIds(form.items);
      CountsAgree(ids, types, read, form.items[i].id);
    }
    hide CountText, CountOf;
    assert FormMatches(form) <==>
           FormTotal(form.items) == |ids| && forall i :: 0 <= i < |form.items| ==>
             CountText(ids, form.items[i].id) == form.items[i].qty;
    assert Matches(req.items, types) <==>
           SumQty(req.items) == |types| && forall i :: 0 <= i < |req.items| ==>
             CountOf(types, req.items[i].typ) == req.items[i].qty;
  }

  /** On distinct lines the form matches exactly if the server's counts are exact and no id is
      spelled in two ways. */
  lemma FormMatchesIff(form: Form, read: string -> TypeId, req: CheckoutRequest)
    requires Sent(form, read, req) && DistinctTypes(req.items)
    ensures FormMatches(form) <==> Exact(req.items, Types(req.attendees)) && OneSpelling(form, read)
  {
    FormIsExact(req.items, Types(req.attendees));
    if FormMatches(form) {
      MatchingSpellsOnce(form, read, req);
    }
    hide Exact, FormMatches, Matches, OneSpelling, Sent;
    if OneSpelling(form, read) {
      MatchesAgree(form, read, req);
    }
  }

  predicate FormTexts(form: Form) {
    && form.buyerNameGiven && form.buyerEmailValid && form.buyerPhoneGiven
    && forall a <- form.attendees :: a.nameGiven && a.emailValid
  }

  predicate ServerTexts(req: CheckoutRequest) {
    && req.buyerNameGiven && req.buyerEmailValid && req.buyerPhoneGiven
    && forall a <- req.attendees :: a.nameGiven && a.emailValid
  }

  /** The whole form. A ticket type id need only look like an id, so the nil id passes. */
  predicate FormAccepts(form: Form) {
    && FormTexts(form) && form.items != [] && (forall item <- form.items :: item.qty >= 1)
    && FormMatches(form)
  }

  /** The server accepts a request whose ids are each spelled in one way exactly if it accepts the
      texts, the form's counts match, quantities are positive, lines are distinct and not nil, and
      the attendees can be counted in 32 bits. */
  lemma ServerAcceptsIff(form: Form, read: string -> TypeId, req: CheckoutRequest)
    requires Sent(form, read, req)
    ensures Accepts(req) && OneSpelling(form, read) <==>
            && ServerTexts(req) && FormMatches(form)
            && req.items != [] && PositiveQuantities(req.items)
            && DistinctTypes(req.items) && (forall item <- req.items :: item.typ != NIL)
            && |req.attendees| <= MAX_INT32
  {
    if DistinctTypes(req.items) {
      FormMatchesIff(form, read, req);
    }
    hide Exact, FormMatches, OneSpelling, Sent;
  }

  /** So, texts that one side alone would refuse aside, the forms that the browser accepts with
      distinct, non-nil lines and a countable number of attendees are exactly those that the server
      accepts and that spell no id in two ways. */
  lemma FormsAgree(form: Form, read: string -> TypeId, req: CheckoutRequest)
    requires Sent(form, read, req)
    ensures Accepts(req) && FormTexts(form) && OneSpelling(form, read) <==>
            && FormAccepts(form) && ServerTexts(req)
            && DistinctTypes(req.items) && (forall item <- req.items :: item.typ != NIL)
            && |req.attendees| <= MAX_INT32
  {
    ServerAcceptsIff(form, read, req);
    SameQuantities(form, read, req);
    hide FormMatches, FormTexts, ServerTexts, Accepts, Sent, OneSpelling;
  }

  lemma SameQuantities(form: Form, read: string -> TypeId, req: CheckoutRequest)
    requires Sent(form, read, req)
    ensures (forall item <- form.items :: item.qty >= 1) <==> PositiveQuantities(req.items)
    ensures form.items != [] <==> req.items != []
  {
    forall i | 0 <= i < |form.items| ensures form.items[i] in form.items && req.items[i] in req.items { }
  }

  /** Two spellings of one id are two types to the browser and one to the server. */
  lemma TwoSpellingsDiffer(x: string, y: string, read: string -> TypeId)
    requires x != y && read(x) == read(y)
    ensures var form := Form(true, true, true, [FormItem(x, 1)], [FormAttendee(y, true, true)]);
            !FormMatches(form) && Exact([CheckoutItem(read(x), 1)], [read(y)])
  {
    var form := Form(true, true, true, [FormItem(x, 1)], [FormAttendee(y, true, true)]);
    assert AttendeeIds(form.attendees) == [y] && [y][..0] == [];
    assert CountText([y], x) == 0;
    assert form.items[0] in form.items;
    assert [read(y)][..0] == [];
    assert CountOf([read(y)], read(x)) == 1;
    assert [CheckoutItem(read(x), 1)][0].typ == read(y);
  }
}
