/**
 * Worked examples of a checkout: a two-line cart with and without a
 * 10% coupon, a sold-out product, and the tax truncation.
 */
module Scenarios {
  import opened Wrappers
  import opened Records
  import opened Errors
  import opened Pricing
  import opened Coupons
  import opened Inventory
  import opened CheckoutSpec

  /** Two units of A at 20.00 and one of B at 15.00 in cart "c1" of user "u1", stock (available, reserved) for each. */
  function Shop(stockA: Stock, stockB: Stock): Tables
  {
    Tables(
      carts := map["c1" := Cart("u1", CART_OPEN)],
      cartItems := map["c1" := [CartItem("pA", 2, 20.0), CartItem("pB", 1, 15.0)]],
      products := map["pA" := "active", "pB" := "active"],
      coupons := map["TEN" := Coupon("percentage", 10.0, Some(100), 0, 0, 1000)],
      couponUsage := map[],
      inventory := map[("pA", US_EAST_WAREHOUSE) := stockA, ("pB", US_EAST_WAREHOUSE) := stockB],
      userRegions := map[],
      orders := map[],
      orderItems := [],
      events := [])
  }

  function Request(coupon: string): CheckoutRequest
  {
    CheckoutRequest("u1", "c1", [RequestItem("pA", 2), RequestItem("pB", 1)], coupon, "pay-1")
  }

  function ShopCart(): seq<CartLine>
  {
    [CartLine("pA", 2, 20.0, "active"), CartLine("pB", 1, 15.0, "active")]
  }

  /** The cart's lines as the join loads them, and their subtotal. */
  lemma ShopLines(stockA: Stock, stockB: Stock)
    ensures LoadLines(StoredItems(Shop(stockA, stockB), "c1"), Shop(stockA, stockB).products) == ShopCart()
    ensures Subtotal(ShopCart()) == 55.0
    ensures WarehouseFor(Shop(stockA, stockB).userRegions, "u1") == US_EAST_WAREHOUSE
  {
    var t := Shop(stockA, stockB);
    var items := StoredItems(t, "c1");
    assert items[..1] == [CartItem("pA", 2, 20.0)];
    assert items[..1][..0] == [];
    var lines := ShopCart();
    assert lines[..1] == [lines[0]] && lines[..1][..0] == [];
  }

  /** With 10 units of each product free, both lines are reserved. */
  lemma ShopReserves()
    ensures var r := Reserve(Shop(Stock(10, 0), Stock(10, 0)).inventory, ShopCart(), US_EAST_WAREHOUSE);
      && r.Some?
      && ("pA", US_EAST_WAREHOUSE) in r.value && r.value[("pA", US_EAST_WAREHOUSE)] == Stock(10, 2)
      && ("pB", US_EAST_WAREHOUSE) in r.value && r.value[("pB", US_EAST_WAREHOUSE)] == Stock(10, 1)
  {
    var lines := ShopCart();
    var inv := Shop(Stock(10, 0), Stock(10, 0)).inventory;
    var inv1 := inv[("pA", US_EAST_WAREHOUSE) := Stock(10, 2)];
    assert Reserve(inv, lines, US_EAST_WAREHOUSE) == Reserve(inv1, lines[1..], US_EAST_WAREHOUSE);
    assert lines[1..][1..] == [];
  }

  /** With product B fully reserved, the second line does not fit. */
  lemma SoldOutReserveFails()
    ensures Reserve(Shop(Stock(10, 0), Stock(5, 5)).inventory, ShopCart(), US_EAST_WAREHOUSE) == None
  {
    var lines := ShopCart();
    var inv := Shop(Stock(10, 0), Stock(5, 5)).inventory;
    var inv1 := inv[("pA", US_EAST_WAREHOUSE) := Stock(10, 2)];
    assert Reserve(inv, lines, US_EAST_WAREHOUSE) == Reserve(inv1, lines[1..], US_EAST_WAREHOUSE);
  }

  /** Subtotal 55.00, no coupon: tax 4.40, shipping 6.98, total 66.38. */
  lemma NoCouponTotals()
    ensures var t := PriceOrder(55.0, 0.0, 2);
      t.tax == 4.4 && t.shipping == 6.98 && t.total == 66.38
  {
  }

  /** The same cart with 10% off: discount 5.50, tax 3.96, total 60.44. */
  lemma TenPercentTotals()
    ensures Discount(Coupon("percentage", 10.0, Some(100), 0, 0, 1000), 55.0) == 5.5
    ensures var t := PriceOrder(55.0, 5.5, 2);
      t.tax == 3.96 && t.shipping == 6.98 && t.total == 60.44
  {
  }

  /** The whole transaction on the two-line cart with ample stock and no coupon. */
  lemma NoCouponCheckout()
    ensures var out := Transaction(Shop(Stock(10, 0), Stock(10, 0)), Request(""), 500, "o1");
      && out.result == Success(CheckoutResponse("o1", ORDER_PENDING, 66.38))
      && "c1" in out.tables.carts && out.tables.carts["c1"].status == CART_CLOSED
      && ("pA", US_EAST_WAREHOUSE) in out.tables.inventory
      && out.tables.inventory[("pA", US_EAST_WAREHOUSE)] == Stock(10, 2)
      && ("pB", US_EAST_WAREHOUSE) in out.tables.inventory
      && out.tables.inventory[("pB", US_EAST_WAREHOUSE)] == Stock(10, 1)
  {
    ShopLines(Stock(10, 0), Stock(10, 0));
    ShopReserves();
    NoCouponTotals();
  }

  /** The whole transaction with the 10% coupon: total 60.44 and the coupon's use recorded. */
  lemma TenPercentCheckout()
    ensures var out := Transaction(Shop(Stock(10, 0), Stock(10, 0)), Request("TEN"), 500, "o1");
      && out.result == Success(CheckoutResponse("o1", ORDER_PENDING, 60.44))
      && "TEN" in out.tables.coupons && out.tables.coupons["TEN"].usedCount == 1
      && UsageOf(out.tables.couponUsage, "u1", "TEN") == 1
  {
    ShopLines(Stock(10, 0), Stock(10, 0));
    ShopReserves();
    TenPercentTotals();
  }

  /** Product B fully reserved (5 of 5): InsufficientInventory, no order, the cart stays open. */
  lemma SoldOutCheckout()
    ensures var t := Shop(Stock(10, 0), Stock(5, 5));
      var out := Transaction(t, Request(""), 500, "o1");
      && out.result == Failure(InsufficientInventory)
      && out.tables.orders == map[]
      && out.tables == t
      && "c1" in out.tables.carts && out.tables.carts["c1"].status == CART_OPEN
  {
    ShopLines(Stock(10, 0), Stock(5, 5));
    SoldOutReserveFails();
  }

  /** The tax is cut, not rounded: 8% of 10.10 is 0.808 and the tax is 0.80. */
  lemma TaxIsCutNotRounded()
    ensures ComputeTax(10.1) == 0.8
  {
  }
}
