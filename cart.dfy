/** Price summary of the shopping cart: subtotal, 8 % tax and total over a
    list of courses, in exact arithmetic. */
module Cart {

  import opened Catalog

  /** The fixed tax rate, 8 %. */
  const TaxRate: real := 8.0 / 100.0

  /** Reference meaning of a subtotal: the sum of the discounted prices. */
  function SumPrices(items: seq<Course>): real
  {
    if items == [] then 0.0 else items[0].discountPrice + SumPrices(items[1..])
  }

  /** The left-to-right fold the cart runs, `sum + item.discountPrice`
      starting from the accumulator `acc`. */
  function FoldPrices(acc: real, items: seq<Course>): (r: real)
    ensures r == acc + SumPrices(items)
    decreases items
  {
    if items == [] then acc else FoldPrices(acc + items[0].discountPrice, items[1..])
  }

  /** The fold started at 0: the cart's subtotal. */
  function Subtotal(items: seq<Course>): (r: real)
    ensures r == SumPrices(items)
    ensures items == [] ==> r == 0.0
  {
    FoldPrices(0.0, items)
  }

  datatype PriceSummary = PriceSummary(subtotal: real, tax: real, total: real)

  /** Subtotal, tax and total as the cart computes them on every render. */
  function Summary(items: seq<Course>): (r: PriceSummary)
    ensures r.subtotal == SumPrices(items)
    ensures r.tax == r.subtotal * TaxRate
    ensures r.total == r.subtotal + r.tax
    ensures r.total == r.subtotal * (108.0 / 100.0)
    ensures items == [] ==> r == PriceSummary(0.0, 0.0, 0.0)
  {
    var subtotal := Subtotal(items);
    var tax := subtotal * TaxRate;
    PriceSummary(subtotal, tax, subtotal + tax)
  }

  /** What the cart screen shows: an empty-state panel, or the item list
      with its summary. */
  datatype CartPanel = EmptyState | SummaryPanel(summary: PriceSummary)

  function CartBody(items: seq<Course>): (r: CartPanel)
    ensures r.EmptyState? <==> |items| == 0
    ensures r.SummaryPanel? ==> r.summary == Summary(items) && r.summary.total == SumPrices(items) * (108.0 / 100.0)
  {
    if |items| == 0 then EmptyState else SummaryPanel(Summary(items))
  }

  lemma {:induction false} SumConcat(a: seq<Course>, b: seq<Course>)
    ensures SumPrices(a + b) == SumPrices(a) + SumPrices(b)
  {
    if a == [] {
      assert a + b == b;
    } else {
      assert (a + b)[1..] == a[1..] + b;
      SumConcat(a[1..], b);
    }
  }

  /** The fold step: adding one item at the end adds exactly its discounted price. */
  lemma SubtotalAppend(items: seq<Course>, x: Course)
    ensures Subtotal(items + [x]) == Subtotal(items) + x.discountPrice
  {
    SumConcat(items, [x]);
    assert SumPrices([x]) == x.discountPrice + SumPrices([]);
  }

  /** Taking the item at `j` out of the list takes exactly its price out of the sum. */
  lemma SumRemoveAt(b: seq<Course>, j: nat)
    requires j < |b|
    ensures SumPrices(b) == b[j].discountPrice + SumPrices(b[..j] + b[j + 1..])
  {
    var front, x, back := b[..j], b[j], b[j + 1..];
    assert b == (front + [x]) + back;
    SumConcat(front + [x], back);
    SumConcat(front, [x]);
    SumConcat(front, back);
    assert SumPrices([x]) == x.discountPrice by {
      assert [x][1..] == [];
    }
  }

  lemma MultisetRemoveAt(b: seq<Course>, j: nat)
    requires j < |b|
    ensures multiset(b[..j] + b[j + 1..]) == multiset(b) - multiset{b[j]}
  {
    assert b == b[..j] + [b[j]] + b[j + 1..];
  }

  lemma {:induction false} SumPermutation(a: seq<Course>, b: seq<Course>)
    requires multiset(a) == multiset(b)
    ensures SumPrices(a) == SumPrices(b)
    decreases |a|
  {
    if a == [] {
      assert |multiset(b)| == 0;
      assert b == [];
    } else {
      var x := a[0];
      assert x in multiset(b);
      var j :| 0 <= j < |b| && b[j] == x;
      MultisetRemoveAt(b, j);
      assert a == [x] + a[1..];
      assert multiset(a[1..]) == multiset(a) - multiset{x};
      SumPermutation(a[1..], b[..j] + b[j + 1..]);
      SumRemoveAt(b, j);
    }
  }

  /** The summary depends only on which items are in the cart, not on their order. */
  lemma SummaryOrderIndependent(a: seq<Course>, b: seq<Course>)
    requires multiset(a) == multiset(b)
    ensures Summary(a) == Summary(b)
  {
    SumPermutation(a, b);
  }

  lemma {:induction false} SumNonNegative(items: seq<Course>)
    requires forall i :: 0 <= i < |items| ==> items[i].discountPrice >= 0.0
    ensures SumPrices(items) >= 0.0
  {
    if items != [] {
      SumNonNegative(items[1..]);
    }
  }

  /** With non-negative prices, 0 <= subtotal <= tax-inclusive total. */
  lemma SummaryBounds(items: seq<Course>)
    requires forall i :: 0 <= i < |items| ==> items[i].discountPrice >= 0.0
    ensures 0.0 <= Summary(items).tax
    ensures 0.0 <= Summary(items).subtotal <= Summary(items).total
  {
    SumNonNegative(items);
  }

  /** Two items at 49.99 and 29.99: subtotal 79.98, tax 6.3984, total 86.3784. */
  lemma TwoItemExample(a: Course, b: Course)
    requires a.discountPrice == 49.99 && b.discountPrice == 29.99
    ensures Summary([a, b]) == PriceSummary(79.98, 6.3984, 86.3784)
  {
    assert [a, b][1..] == [b];
    assert [b][1..] == [];
    assert SumPrices([b]) == 29.99;
    assert SumPrices([a, b]) == 79.98;
  }
}
