/** The record-consistency rules of the stock models that are pure: the
    quantity-sufficiency checks of `StockItem.clean` and `SaleItem.clean`, and the
    total of a Stock or Sale document, `sum(quantity * unit_price)` over its lines.

    Decimal amounts (two decimal places) are integers in cents, so the sum is exact. */
module Ledger {

  datatype Option<T> = None | Some(value: T)

  /** The two choices of `Stock.stock_type`: 'in_stock' and 'out_of_stock'. */
  datatype StockType = InStock | OutOfStock

  /** The ValidationError raised by `clean`: it names the product and the
      quantity that product has on hand. */
  datatype ValidationError = InsufficientStock(productName: string, available: nat)

  /** A persisted line item of a Stock or Sale: the product it refers to, its
      quantity and its unit price in cents. */
  datatype Line<P> = Line(product: P, quantity: int, unitPrice: int)

  /** `item.quantity * item.unit_price`, in cents. */
  function Amount<P>(line: Line<P>): int
  {
    line.quantity * line.unitPrice
  }

  /** `sum(item.quantity * item.unit_price for item in items)`: Python's `sum`
      adds the amounts left to right, starting from 0. */
  function Total<P>(lines: seq<Line<P>>): (r: int)
    ensures lines == [] ==> r == 0
    ensures (forall i :: 0 <= i < |lines| ==> Amount(lines[i]) >= 0) ==> r >= 0
  {
    if lines == [] then 0 else Total(lines[..|lines| - 1]) + Amount(lines[|lines| - 1])
  }

  /** The loop `sum` runs over the line items. */
  method Sum<P>(lines: seq<Line<P>>) returns (total: int)
    ensures total == Total(lines)
  {
    total := 0;
    for i := 0 to |lines|
      invariant total == Total(lines[..i])
    {
      assert lines[..i + 1][..i] == lines[..i];
      total := total + Amount(lines[i]);
    }
    assert lines[..|lines|] == lines;
  }

  /** Adding one line raises the total by exactly that line's amount. */
  lemma TotalAppend<P>(lines: seq<Line<P>>, line: Line<P>)
    ensures Total(lines + [line]) == Total(lines) + Amount(line)
  {
    assert (lines + [line])[..|lines|] == lines;
  }

  /** The total is additive over a split of the items. */
  lemma {:induction false} TotalConcat<P>(a: seq<Line<P>>, b: seq<Line<P>>)
    ensures Total(a + b) == Total(a) + Total(b)
    decreases |b|
  {
    if b == [] {
      assert a + b == a;
    } else {
      var front := b[..|b| - 1];
      assert (a + b)[..|a + b| - 1] == a + front;
      TotalConcat(a, front);
    }
  }

  /** Replacing one line changes the total by the difference of the two amounts. */
  lemma TotalUpdate<P>(lines: seq<Line<P>>, i: nat, line: Line<P>)
    requires i < |lines|
    ensures Total(lines[i := line]) == Total(lines) - Amount(lines[i]) + Amount(line)
  {
    var before, after := lines[..i], lines[i + 1..];
    assert lines == before + [lines[i]] + after;
    assert lines[i := line] == before + [line] + after;
    TotalConcat(before + [lines[i]], after);
    TotalConcat(before + [line], after);
    TotalAppend(before, lines[i]);
    TotalAppend(before, line);
  }

  /** The total does not depend on the order in which the items are read, so an
      unordered `stockitem_set.all()` / `saleitem_set.all()` is enough. */
  lemma {:induction false} TotalPermutation<P>(a: seq<Line<P>>, b: seq<Line<P>>)
    requires multiset(a) == multiset(b)
    ensures Total(a) == Total(b)
    decreases |a|
  {
    if a == [] {
      assert |b| == |multiset(b)| == 0;
    } else {
      var last := a[|a| - 1];
      var front := a[..|a| - 1];
      assert a == front + [last];
      assert last in multiset(b);
      var j :| 0 <= j < |b| && b[j] == last;
      var rest := b[..j] + b[j + 1..];
      assert b == b[..j] + [last] + b[j + 1..];
      assert multiset(rest) == multiset(b) - multiset{last};
      assert multiset(front) == multiset(a) - multiset{last};
      TotalPermutation(front, rest);
      TotalConcat(b[..j] + [last], b[j + 1..]);
      TotalAppend(b[..j], last);
      TotalConcat(b[..j], b[j + 1..]);
    }
  }

  /** Lines of (2 x 10.00), (1 x 5.00) and (0 x 99.00) total exactly 25.00. */
  lemma TotalExample<P>(p: P)
    ensures Total([Line(p, 2, 1000), Line(p, 1, 500), Line(p, 0, 9900)]) == 2500
  {
    var a, b, c := Line(p, 2, 1000), Line(p, 1, 500), Line(p, 0, 9900);
    TotalAppend([], a);
    TotalAppend([a], b);
    TotalAppend([a, b], c);
    assert [] + [a] == [a] && [a] + [b] == [a, b] && [a, b] + [c] == [a, b, c];
  }

  /** `StockItem.clean`: the quantity check applies only to an out-of-stock
      movement, and fails when the line asks for more than the product has. */
  function StockItemCheck(stockType: StockType, quantity: nat, productName: string, available: nat): (r: Option<ValidationError>)
    ensures r.Some? <==> stockType == OutOfStock && quantity > available
    ensures r.Some? ==> r.value == InsufficientStock(productName, available)
  {
    if stockType == OutOfStock && quantity > available then Some(InsufficientStock(productName, available))
    else None
  }

  /** `SaleItem.clean`: a sale line fails whenever it asks for more than the
      product has; its quantity is any integer. */
  function SaleItemCheck(quantity: int, productName: string, available: nat): (r: Option<ValidationError>)
    ensures r.Some? <==> quantity > available
    ensures r.Some? ==> r.value == InsufficientStock(productName, available)
  {
    if quantity > available then Some(InsufficientStock(productName, available))
    else None
  }

  /** An in-stock movement is never refused, whatever its quantity. */
  lemma InStockNeverFails(quantity: nat, productName: string, available: nat)
    ensures StockItemCheck(InStock, quantity, productName, available) == None
  {
  }

  /** A zero or negative sale quantity always passes. */
  lemma SaleItemNonPositivePasses(quantity: int, productName: string, available: nat)
    requires quantity <= 0
    ensures SaleItemCheck(quantity, productName, available) == None
  {
  }

  /** On non-negative quantities the sale check is the out-of-stock check: it has
      no stock-type condition of its own. */
  lemma SaleItemIsOutOfStockCheck(quantity: nat, productName: string, available: nat)
    ensures SaleItemCheck(quantity, productName, available) == StockItemCheck(OutOfStock, quantity, productName, available)
  {
  }

  /** The stock check is downward closed: a quantity that passes stays passing when lowered. */
  lemma StockItemCheckDownwardClosed(stockType: StockType, quantity: nat, smaller: nat, productName: string, available: nat)
    requires smaller <= quantity
    requires StockItemCheck(stockType, quantity, productName, available) == None
    ensures StockItemCheck(stockType, smaller, productName, available) == None
  {
  }

  /** The sale check is downward closed over all integers, negative ones included:
      a quantity that passes stays passing when lowered. */
  lemma SaleItemCheckDownwardClosed(quantity: int, smaller: int, productName: string, available: nat)
    requires smaller <= quantity
    requires SaleItemCheck(quantity, productName, available) == None
    ensures SaleItemCheck(smaller, productName, available) == None
  {
  }
}
