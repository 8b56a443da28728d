/** Amounts: what the payment provider is charged and what the guest is shown. All amounts are
    whole cents; the provider takes whole rupiah. */
module Charge {
  import opened Schema
  import opened System
  import opened Runs

  /** Truncation toward zero. */
  function ToRupiah(cents: int): int {
    if cents >= 0 then cents / 100 else -(-cents / 100)
  }

  datatype ItemDetail = ItemDetail(price: int, qty: int)

  function ItemSum(items: seq<ItemDetail>): (rupiah: int) {
    if items == [] then 0
    else
      var last := items[|items| - 1];
      ItemSum(items[..|items| - 1]) + last.price * last.qty
  }

  /** The cents that truncating each unit price drops from the lines. */
  function Dropped(lines: seq<Line>): (cents: int) {
    if lines == [] then 0
    else
      var last := lines[|lines| - 1];
      Dropped(lines[..|lines| - 1]) + last.price % 100 * last.qty
  }

  function Tickets(lines: seq<Line>): (n: int) {
    if lines == [] then 0 else Tickets(lines[..|lines| - 1]) + lines[|lines| - 1].qty
  }

  predicate Priced(lines: seq<Line>) {
    forall l <- lines :: l.price >= 0 && l.qty >= 1
  }

  lemma LineSplits(price: int, qty: int)
    requires price >= 0 && qty >= 1
    ensures price * qty == 100 * (price / 100 * qty) + price % 100 * qty
    ensures 0 <= price % 100 * qty <= 99 * qty && price / 100 * qty >= 0
  {
    var q, r := price / 100, price % 100;
    assert price == 100 * q + r && r <= 99;
    assert (100 * q + r) * qty == 100 * (q * qty) + r * qty;
    assert r * qty <= 99 * qty;
  }

  /** The provider's amounts and the dropped cents make up the exact total. */
  lemma {:induction false} AmountSplits(lines: seq<Line>, items: seq<ItemDetail>)
    requires Priced(lines) && |items| == |lines|
    requires forall i :: 0 <= i < |lines| ==> items[i] == ItemDetail(lines[i].price / 100, lines[i].qty)
    ensures Amount(lines) == 100 * ItemSum(items) + Dropped(lines)
    ensures 0 <= Dropped(lines) <= 99 * Tickets(lines)
    ensures ItemSum(items) >= 0
  {
    if lines != [] {
      var last := lines[|lines| - 1];
      AmountSplits(lines[..|lines| - 1], items[..|items| - 1]);
      LineSplits(last.price, last.qty);
    }
  }

  lemma Truncated(sum: int, dropped: int)
    requires sum >= 0 && dropped >= 0
    ensures var total := 100 * sum + dropped;
            && 100 * ToRupiah(total) <= total < 100 * (ToRupiah(total) + 1)
            && ToRupiah(total) - sum == dropped / 100
  { }

  /** The amount part of CreateTransaction. The lines need not sum to the gross amount: they
      fall short by the dropped cents in whole rupiah, at most 99 cents a ticket. */
  method CreateTransaction(lines: seq<Line>, total: int) returns (gross: int, details: seq<ItemDetail>)
    requires Priced(lines) && total == Amount(lines)
    ensures |details| == |lines|
    ensures forall i :: 0 <= i < |lines| ==> details[i] == ItemDetail(ToRupiah(lines[i].price), lines[i].qty)
    ensures 100 * gross <= total < 100 * (gross + 1)
    ensures gross - ItemSum(details) == Dropped(lines) / 100
    ensures 0 <= 100 * (gross - ItemSum(details)) <= 99 * Tickets(lines)
    ensures gross == ItemSum(details) <==> Dropped(lines) < 100
  {
    details := [];
    for i := 0 to |lines|
      invariant |details| == i
      invariant forall k :: 0 <= k < i ==> details[k] == ItemDetail(ToRupiah(lines[k].price), lines[k].qty)
    {
      details := details + [ItemDetail(ToRupiah(lines[i].price), lines[i].qty)];
    }
    AmountSplits(lines, details);
    Truncated(ItemSum(details), Dropped(lines));
    gross := ToRupiah(total);
  }

  /** Whole-rupiah prices drop nothing. */
  lemma {:induction false} WholePricesDropNothing(lines: seq<Line>)
    requires forall l <- lines :: l.price % 100 == 0
    ensures Dropped(lines) == 0
  {
    if lines != [] {
      WholePricesDropNothing(lines[..|lines| - 1]);
    }
  }

  /** Two tickets at half a rupiah: the order costs one, its line nothing. */
  lemma LinesMayFallShort()
    ensures var lines := [Line(0, 2, 50)];
            Priced(lines) && ToRupiah(Amount(lines)) == 1 && ToRupiah(50) * 2 == 0
  {
    var lines := [Line(0, 2, 50)];
    assert lines[..0] == [];
  }

  // --- What the guest is shown ------------------------------------------------------------------

  datatype PublicItem = PublicItem(qty: int, unitPrice: int, subtotal: int)

  function Subtotals(items: seq<PublicItem>): (cents: int) {
    if items == [] then 0 else Subtotals(items[..|items| - 1]) + items[|items| - 1].subtotal
  }

  /** Each line is shown in its place, with its own subtotal. */
  predicate Shows(lines: seq<Line>, views: seq<PublicItem>) {
    && |views| == |lines|
    && forall i :: 0 <= i < |lines| ==>
         views[i].qty == lines[i].qty && views[i].unitPrice == lines[i].price
         && views[i].subtotal == lines[i].price * lines[i].qty
  }

  /** publicItems: the subtotals are recomputed, and sum to the lines' amount. */
  method PublicItems(lines: seq<Line>) returns (views: seq<PublicItem>)
    ensures Shows(lines, views) && Subtotals(views) == Amount(lines)
  {
    views := [];
    assert lines[..0] == [];
    for i := 0 to |lines|
      invariant Shows(lines[..i], views) && Subtotals(views) == Amount(lines[..i])
    {
      assert lines[..i + 1][..i] == lines[..i];
      ghost var before := views;
      views := views + [PublicItem(lines[i].qty, lines[i].price, lines[i].price * lines[i].qty)];
      assert views[..i] == before;
    }
    assert lines[..|lines|] == lines;
  }

  /** In every reachable state an order's stored total is its displayed subtotals' sum, whatever
      became of its types' prices since. */
  lemma TotalIsDisplayed(s: Sys, o: OrderId, shown: seq<PublicItem>)
    requires Reachable(s) && o < |s.facts.db.orders|
    requires Subtotals(shown) == Amount(LinesOf(s.facts.db.items, o))
    ensures s.facts.db.orders[o].total == Subtotals(shown)
  {
    ReachableInv(s);
  }
}
