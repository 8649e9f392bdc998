/**
 * The pricing arithmetic of the checkout transaction: subtotal, tax,
 * shipping and the clamped total (golang/checkout.go:241-248, 451-467).
 * Amounts are exact reals in currency units; float64 rounding is not modelled.
 */
module Pricing {
  import opened Records

  const TAX_RATE: real := 0.08
  const FREE_SHIPPING_ABOVE: real := 100.0
  const BASE_SHIPPING: real := 5.99
  const SHIPPING_PER_EXTRA_ITEM: real := 0.99

  /** Go's `int(x)` on a float: truncation toward zero. */
  function Trunc(x: real): (n: int)
    ensures 0.0 <= x ==> 0 <= n && n as real <= x < n as real + 1.0
    ensures x < 0.0 ==> n <= 0 && n as real - 1.0 < x <= n as real
  {
    if x >= 0.0 then x.Floor else -((-x).Floor)
  }

  /** An amount that is a whole number of cents. */
  predicate IsWholeCents(x: real)
  {
    (x * 100.0).Floor as real == x * 100.0
  }

  /**
   * `computeTax`: 8% of the amount, cut to whole cents toward zero (not rounded).
   * A negative amount (discount above subtotal) gives a negative tax.
   */
  function ComputeTax(amount: real): (tax: real)
    ensures IsWholeCents(tax)
    ensures 0.0 <= amount ==> 0.0 <= tax <= amount * TAX_RATE < tax + 0.01
    ensures amount < 0.0 ==> tax - 0.01 < amount * TAX_RATE <= tax <= 0.0
  {
    (Trunc(amount * TAX_RATE * 100.0) as real) / 100.0
  }

  /** The tax is the only whole-cent amount within a cent of 8%, on the side of zero. */
  lemma TaxIsTruncationToCents(amount: real, t: real)
    requires IsWholeCents(t)
    requires 0.0 <= amount ==> 0.0 <= t <= amount * TAX_RATE < t + 0.01
    requires amount < 0.0 ==> t - 0.01 < amount * TAX_RATE <= t
    ensures t == ComputeTax(amount)
  {
    var tax := ComputeTax(amount);
    var m, n := (t * 100.0).Floor, (tax * 100.0).Floor;
    assert m as real == t * 100.0 && n as real == tax * 100.0;
    assert -1 < m - n < 1;
  }

  /** `computeShipping`: free strictly above 100, otherwise 5.99 plus 0.99 per further cart line. */
  function ComputeShipping(subtotal: real, itemCount: int): (shipping: real)
    ensures subtotal > FREE_SHIPPING_ABOVE ==> shipping == 0.0
    ensures subtotal <= FREE_SHIPPING_ABOVE && itemCount >= 1 ==> shipping >= BASE_SHIPPING
  {
    if subtotal > FREE_SHIPPING_ABOVE then 0.0
    else BASE_SHIPPING + ((itemCount - 1) as real) * SHIPPING_PER_EXTRA_ITEM
  }

  /** Below the threshold one line costs 5.99 and every further line adds 0.99. */
  lemma ShippingPerLine(subtotal: real, itemCount: int)
    requires subtotal <= FREE_SHIPPING_ABOVE
    ensures ComputeShipping(subtotal, 1) == BASE_SHIPPING
    ensures ComputeShipping(subtotal, itemCount + 1) == ComputeShipping(subtotal, itemCount) + SHIPPING_PER_EXTRA_ITEM
  {
  }

  /** `maxFloat`. */
  function MaxReal(a: real, b: real): (m: real)
    ensures m >= a && m >= b
    ensures m == a || m == b
  {
    if a > b then a else b
  }

  /** Σ qty·unitPrice over the cart lines, accumulated front to back. */
  function Subtotal(lines: seq<CartLine>): real
    decreases |lines|
  {
    if lines == [] then 0.0
    else Subtotal(lines[..|lines| - 1]) + (lines[|lines| - 1].qty as real) * lines[|lines| - 1].unitPrice
  }

  /** Lines with non-negative quantities and prices have a non-negative subtotal. */
  lemma {:induction false} SubtotalNonNegative(lines: seq<CartLine>)
    requires forall i :: 0 <= i < |lines| ==> lines[i].qty >= 0 && lines[i].unitPrice >= 0.0
    ensures Subtotal(lines) >= 0.0
  {
    if lines != [] {
      var last := lines[|lines| - 1];
      SubtotalNonNegative(lines[..|lines| - 1]);
      assert (last.qty as real) * last.unitPrice >= 0.0;
    }
  }

  /** The accumulator loop `for _, item := range cartItems { subtotal += ... }`. */
  method SumSubtotal(lines: seq<CartLine>) returns (subtotal: real)
    ensures subtotal == Subtotal(lines)
  {
    subtotal := 0.0;
    var i := 0;
    while i < |lines|
      invariant 0 <= i <= |lines|
      invariant subtotal == Subtotal(lines[..i])
    {
      assert lines[..i + 1][..i] == lines[..i];
      subtotal := subtotal + (lines[i].qty as real) * lines[i].unitPrice;
      i := i + 1;
    }
    assert lines[..i] == lines;
  }

  /**
   * The totals of lines 246-248: tax on the discounted amount, shipping on the
   * undiscounted subtotal and the line count, and a total clamped at zero.
   */
  function PriceOrder(subtotal: real, discount: real, itemCount: int): (t: Totals)
    ensures t.subtotal == subtotal && t.discount == discount
    ensures t.tax == ComputeTax(subtotal - discount)
    ensures t.shipping == ComputeShipping(subtotal, itemCount)
    ensures t.total >= 0.0 && t.total >= subtotal - discount + t.tax + t.shipping
    ensures t.total == 0.0 || t.total == subtotal - discount + t.tax + t.shipping
  {
    var tax := ComputeTax(subtotal - discount);
    var shipping := ComputeShipping(subtotal, itemCount);
    Totals(subtotal, discount, tax, shipping, MaxReal(0.0, subtotal - discount + tax + shipping))
  }

  /** A discount above the subtotal makes the tax negative and the clamp can bring the total to zero. */
  lemma OversizedDiscountClampsToZero()
    ensures PriceOrder(55.0, 100.0, 2).tax == -3.6
    ensures PriceOrder(55.0, 100.0, 2).total == 0.0
  {
  }
}
