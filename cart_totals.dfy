/** The derived queries getItemCount and getSubtotal: left folds over the
    line items, as Array.prototype.reduce computes them from a seed of 0. */
module CartTotals {
  import opened CartItems

  /** reduce((sum, item) => sum + weight(item), 0) */
  function Total(items: seq<CartItem>, weight: CartItem -> int): (r: int)
    ensures (forall i :: 0 <= i < |items| ==> weight(items[i]) >= 0) ==> r >= 0
  {
    if items == [] then 0
    else Total(items[..|items| - 1], weight) + weight(items[|items| - 1])
  }

  function Quantity(line: CartItem): int
  {
    line.quantity
  }

  function LineTotal(line: CartItem): int
  {
    line.price * line.quantity
  }

  /** getItemCount: the sum of the quantities. */
  function ItemCount(items: seq<CartItem>): (n: int)
    ensures items == [] ==> n == 0
    ensures AllPositive(items) ==> n >= 0
  {
    Total(items, Quantity)
  }

  /** getSubtotal: the sum of price times quantity, unrounded. */
  function Subtotal(items: seq<CartItem>): (s: int)
    ensures items == [] ==> s == 0
  {
    Total(items, LineTotal)
  }

  /** The fold distributes over concatenation. */
  lemma {:induction false} TotalAppend(a: seq<CartItem>, b: seq<CartItem>, weight: CartItem -> int)
    ensures Total(a + b, weight) == Total(a, weight) + Total(b, weight)
  {
    if b == [] {
      assert a + b == a;
    } else {
      var b' := b[..|b| - 1];
      assert (a + b)[..|a + b| - 1] == a + b';
      TotalAppend(a, b', weight);
    }
  }

  /** Replacing one line item changes the fold by exactly the difference of the two weights. */
  lemma {:induction false} TotalReplace(items: seq<CartItem>, i: int, x: CartItem, weight: CartItem -> int)
    requires 0 <= i < |items|
    ensures Total(items[i := x], weight) == Total(items, weight) - weight(items[i]) + weight(x)
  {
    var before, after := items[..i], items[i + 1..];
    assert items == (before + [items[i]]) + after;
    assert items[i := x] == (before + [x]) + after;
    TotalThree(before, items[i], after, weight);
    TotalThree(before, x, after, weight);
  }

  /** Splicing one line item out removes exactly its weight from the fold. */
  lemma {:induction false} TotalDelete(items: seq<CartItem>, i: int, weight: CartItem -> int)
    requires 0 <= i < |items|
    ensures Total(items[..i] + items[i + 1..], weight) == Total(items, weight) - weight(items[i])
  {
    var before, after := items[..i], items[i + 1..];
    assert items == (before + [items[i]]) + after;
    TotalThree(before, items[i], after, weight);
    TotalAppend(before, after, weight);
  }

  /** The fold over a list split around one line item. */
  lemma {:induction false} TotalThree(before: seq<CartItem>, line: CartItem, after: seq<CartItem>, weight: CartItem -> int)
    ensures Total((before + [line]) + after, weight) == Total(before, weight) + weight(line) + Total(after, weight)
  {
    TotalAppend(before + [line], after, weight);
    TotalAppend(before, [line], weight);
    assert [line][..0] == [];
  }

  /** With every quantity at least 1, the item count is at least the number of
      lines, and it is 0 exactly for the empty cart. */
  lemma {:induction false} ItemCountBounds(items: seq<CartItem>)
    requires AllPositive(items)
    ensures ItemCount(items) >= |items|
    ensures ItemCount(items) == 0 <==> items == []
  {
    if items != [] {
      ItemCountBounds(items[..|items| - 1]);
    }
  }

  /** With non-negative prices and positive quantities the subtotal is never negative. */
  lemma {:induction false} SubtotalNonNegative(items: seq<CartItem>)
    requires AllPositive(items)
    requires forall i :: 0 <= i < |items| ==> items[i].price >= 0
    ensures Subtotal(items) >= 0
  {
    if items != [] {
      SubtotalNonNegative(items[..|items| - 1]);
    }
  }
}
