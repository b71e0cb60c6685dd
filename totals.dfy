/**
 * The amounts CartSummary derives from the cart on every render
 * (src/Components/CartSummary/CartSummary.jsx:21-23): the subtotal is a left
 * fold adding price × quantity, the tax is 1% of it and the grand total is
 * their sum. Amounts are exact reals; JavaScript floating point and the
 * `toFixed(2)` display rounding are not modelled.
 */
module Totals {

  /** One cart line as the cart context holds it. */
  datatype CartItem = CartItem(itemId: string, name: string, price: real, quantity: int)

  /** The three amounts shown in the summary and sent with the order. */
  datatype Amounts = Amounts(subtotal: real, tax: real, grandTotal: real)

  /** The fixed tax rate, 1%. */
  const TaxRate: real := 0.01

  /** price × quantity of one line (also the amount of a receipt row). */
  function LineTotal(item: CartItem): real
  {
    item.price * item.quantity as real
  }

  /** `cartItems.reduce((total, item) => total + item.price * item.quantity, 0)`:
      a left fold, so the last line is added last. */
  function Subtotal(items: seq<CartItem>): (r: real)
    ensures (forall i :: 0 <= i < |items| ==> LineTotal(items[i]) >= 0.0) ==> r >= 0.0
    decreases |items|
  {
    if items == [] then 0.0
    else Subtotal(items[..|items| - 1]) + LineTotal(items[|items| - 1])
  }

  /** Independent reference definition of Σ price × quantity, first line first. */
  function SumOfLines(items: seq<CartItem>): real
    decreases |items|
  {
    if items == [] then 0.0 else LineTotal(items[0]) + SumOfLines(items[1..])
  }

  /** The summary amounts of a cart. */
  function Compute(items: seq<CartItem>): (a: Amounts)
    ensures a.subtotal == SumOfLines(items)
    ensures a.tax == a.subtotal * TaxRate && a.grandTotal == a.subtotal + a.tax
    ensures a.grandTotal == a.subtotal * (1.0 + TaxRate)
    ensures a.grandTotal - a.subtotal == a.subtotal / 100.0
  {
    SubtotalIsSumOfLines(items);
    var subtotal := Subtotal(items);
    var tax := subtotal * TaxRate;
    Amounts(subtotal, tax, subtotal + tax)
  }

  /** The reference sum splits over concatenation. */
  lemma {:induction false} SumOfLinesAppend(xs: seq<CartItem>, ys: seq<CartItem>)
    ensures SumOfLines(xs + ys) == SumOfLines(xs) + SumOfLines(ys)
    decreases |xs|
  {
    if xs == [] {
      assert xs + ys == ys;
    } else {
      assert (xs + ys)[1..] == xs[1..] + ys;
      SumOfLinesAppend(xs[1..], ys);
    }
  }

  /** The left fold of the source equals the reference sum. */
  lemma {:induction false} SubtotalIsSumOfLines(items: seq<CartItem>)
    ensures Subtotal(items) == SumOfLines(items)
    decreases |items|
  {
    if items != [] {
      var init, last := items[..|items| - 1], items[|items| - 1];
      SubtotalIsSumOfLines(init);
      SumOfLinesAppend(init, [last]);
      assert init + [last] == items;
      assert SumOfLines([last]) == LineTotal(last);
    }
  }

  /** The subtotal of a concatenation is the sum of the subtotals. */
  lemma SubtotalAppend(xs: seq<CartItem>, ys: seq<CartItem>)
    ensures Subtotal(xs + ys) == Subtotal(xs) + Subtotal(ys)
  {
    SubtotalIsSumOfLines(xs + ys);
    SubtotalIsSumOfLines(xs);
    SubtotalIsSumOfLines(ys);
    SumOfLinesAppend(xs, ys);
  }

  /** Every line has a positive price and a positive quantity. */
  predicate WellFormedCart(items: seq<CartItem>)
  {
    forall i :: 0 <= i < |items| ==> items[i].price > 0.0 && items[i].quantity > 0
  }

  /** A non-empty cart of well-formed lines has a positive grand total, so
      the payment amount requested from the gateway is positive. */
  lemma {:induction false} PositiveCartHasPositiveTotal(items: seq<CartItem>)
    requires WellFormedCart(items)
    ensures items != [] ==> Subtotal(items) > 0.0
    ensures items != [] ==> Compute(items).grandTotal > Compute(items).subtotal > 0.0
    decreases |items|
  {
    if items != [] {
      var init := items[..|items| - 1];
      assert WellFormedCart(init) by {
        forall i | 0 <= i < |init| ensures init[i].price > 0.0 && init[i].quantity > 0 {
          assert init[i] == items[i];
        }
      }
      PositiveCartHasPositiveTotal(init);
      var last := items[|items| - 1];
      assert last.price > 0.0 && last.quantity > 0;
      assert LineTotal(last) > 0.0;
      assert Subtotal(init) >= 0.0 by {
        if init != [] {
        }
      }
    }
  }

  /** One line of 100 × 2: 200.00, 2.00 and 202.00. */
  lemma HundredTimesTwo(itemId: string, name: string)
    ensures Compute([CartItem(itemId, name, 100.0, 2)]) == Amounts(200.0, 2.0, 202.0)
  {
    var items := [CartItem(itemId, name, 100.0, 2)];
    assert items[..0] == [];
    assert LineTotal(items[0]) == 200.0;
    assert Subtotal(items) == 200.0;
  }
}
