/**
 * What the checkout engine promises, proved of the functions in CheckoutSpec:
 * rollback on failure, the effects of a successful transaction, the
 * business invariants, single checkout of a cart, single redemption of a
 * coupon, and the idempotency, rate-limit and lock discipline of the pipeline.
 */
module CheckoutProperties {
  import opened Wrappers
  import opened Records
  import opened Errors
  import opened Pricing
  import opened Coupons
  import opened Inventory
  import opened CheckoutSpec

  /** If the products of all cart items exist, every item is loaded, in order, fields copied. */
  lemma {:induction false} LoadLinesKeepsAll(items: seq<CartItem>, products: map<string, string>)
    requires forall i :: 0 <= i < |items| ==> items[i].productId in products
    ensures var lines := LoadLines(items, products);
      && |lines| == |items|
      && forall i :: 0 <= i < |items| ==>
           lines[i] == CartLine(items[i].productId, items[i].qty, items[i].unitPrice, products[items[i].productId])
    decreases |items|
  {
    if items != [] {
      LoadLinesKeepsAll(items[..|items| - 1], products);
    }
  }

  /**
   * The loaded lines are the join of the items with their products: an item
   * with a product row becomes the line whose position is the number of
   * joined items stored before it, carrying its product, quantity and unit
   * price and the product's status. As that number rises by one at each
   * joined item and there are as many lines as joined items, the lines are
   * exactly the joined items, in stored order.
   */
  lemma {:induction false} LoadLinesIsJoin(items: seq<CartItem>, products: map<string, string>)
    ensures var lines := LoadLines(items, products);
      && |lines| == JoinedCount(items, products)
      && forall i :: 0 <= i < |items| && items[i].productId in products ==>
           && JoinedCount(items[..i], products) < |lines|
           && lines[JoinedCount(items[..i], products)]
              == CartLine(items[i].productId, items[i].qty, items[i].unitPrice, products[items[i].productId])
    decreases |items|
  {
    if items != [] {
      var n := |items| - 1;
      var init := items[..n];
      var lines := LoadLines(items, products);
      LoadLinesIsJoin(init, products);
      forall i | 0 <= i < |items| && items[i].productId in products
        ensures JoinedCount(items[..i], products) < |lines|
        ensures lines[JoinedCount(items[..i], products)]
                == CartLine(items[i].productId, items[i].qty, items[i].unitPrice, products[items[i].productId])
      {
        if i < n {
          assert init[..i] == items[..i];
          assert init[i] == items[i];
        } else {
          assert items[..i] == init;
        }
      }
    }
  }

  /**
   * Which error a transaction fails with: the cart check, then the emptiness
   * check, then the coupon, then the stock, then the order INSERT, in that
   * order; and it succeeds exactly when all five pass.
   */
  lemma TransactionErrors(t: Tables, req: CheckoutRequest, now: int, orderId: string)
    ensures var out := Transaction(t, req, now, orderId);
      var lines := LoadLines(StoredItems(t, req.cartId), t.products);
      var wh := WarehouseFor(t.userRegions, req.userId);
      && (out.result == Failure(CartInvalid) <==> !CartOpenFor(t.carts, req.cartId, req.userId))
      && (out.result == Failure(CartEmpty) <==> CartOpenFor(t.carts, req.cartId, req.userId) && lines == [])
      && (CartOpenFor(t.carts, req.cartId, req.userId) && lines != [] && req.coupon != "" ==>
            match CouponDecision(t.coupons, t.couponUsage, req.userId, req.coupon, now)
            case Some(e) => out.result == Failure(e)
            case None => true)
      && (out.result.Success? <==>
            && CartOpenFor(t.carts, req.cartId, req.userId)
            && lines != []
            && (req.coupon == "" || CouponDecision(t.coupons, t.couponUsage, req.userId, req.coupon, now).None?)
            && Reserve(t.inventory, lines, wh).Some?
            && orderId !in t.orders)
      && (out.result == Failure(Infrastructure(DUPLICATE_ORDER_ID)) <==>
            && CartOpenFor(t.carts, req.cartId, req.userId)
            && lines != []
            && (req.coupon == "" || CouponDecision(t.coupons, t.couponUsage, req.userId, req.coupon, now).None?)
            && Reserve(t.inventory, lines, wh).Some?
            && orderId in t.orders)
      && (out.result == Failure(InsufficientInventory) <==>
            && CartOpenFor(t.carts, req.cartId, req.userId)
            && lines != []
            && (req.coupon == "" || CouponDecision(t.coupons, t.couponUsage, req.userId, req.coupon, now).None?)
            && Reserve(t.inventory, lines, wh).None?)
  {
  }

  /**
   * A successful transaction: the cart goes from open to closed and one
   * pending order is written whose total is
   * max(0, subtotal - discount + tax + shipping) over the stored cart lines
   * and equals the response's total.
   */
  lemma TransactionSuccess(t: Tables, req: CheckoutRequest, now: int, orderId: string)
    requires Transaction(t, req, now, orderId).result.Success?
    ensures var out := Transaction(t, req, now, orderId);
      var t' := out.tables;
      var resp := out.result.value;
      var lines := LoadLines(StoredItems(t, req.cartId), t.products);
      var discount := CouponStep(t, req, lines, now).value.discount;
      && CartOpenFor(t.carts, req.cartId, req.userId)
      && orderId !in t.orders
      && t'.carts == t.carts[req.cartId := Cart(req.userId, CART_CLOSED)]
      && resp == CheckoutResponse(orderId, ORDER_PENDING, t'.orders[orderId].totals.total)
      && t'.orders == t.orders[orderId := t'.orders[orderId]]
      && t'.orders[orderId].userId == req.userId && t'.orders[orderId].status == ORDER_PENDING
      && |t'.orders| == |t.orders| + 1
      && t'.orders[orderId].totals == PriceOrder(Subtotal(lines), discount, |lines|)
      && resp.total == MaxReal(0.0, Subtotal(lines) - discount
                                    + ComputeTax(Subtotal(lines) - discount)
                                    + ComputeShipping(Subtotal(lines), |lines|))
  {
  }

  /**
   * The rows a successful transaction writes besides the order: one order
   * item per cart line copying quantity and unit price, appended after the
   * existing ones; one ORDER_CREATED event; reservations that never touch
   * `available`; and no change to products, cart items or user regions.
   */
  lemma TransactionSuccessRows(t: Tables, req: CheckoutRequest, now: int, orderId: string)
    requires Transaction(t, req, now, orderId).result.Success?
    ensures var out := Transaction(t, req, now, orderId);
      var t' := out.tables;
      var lines := LoadLines(StoredItems(t, req.cartId), t.products);
      && |t'.orderItems| == |t.orderItems| + |lines|
      && t'.orderItems[..|t.orderItems|] == t.orderItems
      && (forall i :: 0 <= i < |lines| ==>
            t'.orderItems[|t.orderItems| + i] == OrderItem(orderId, lines[i].productId, lines[i].qty, lines[i].unitPrice))
      && t'.events == t.events + [Event(req.userId, ORDER_CREATED, orderId, out.result.value.total, req.cartId)]
      && t'.inventory.Keys == t.inventory.Keys
      && (forall k :: k in t.inventory ==> t'.inventory[k].available == t.inventory[k].available)
      && t'.products == t.products && t'.cartItems == t.cartItems && t'.userRegions == t.userRegions
  {
    var lines := LoadLines(StoredItems(t, req.cartId), t.products);
    var wh := WarehouseFor(t.userRegions, req.userId);
    ReserveEffect(t.inventory, lines, wh);
    var t' := Transaction(t, req, now, orderId).tables;
    assert t'.orderItems == t.orderItems + OrderItemsFor(orderId, lines);
    assert t'.orderItems[..|t.orderItems|] == t.orderItems;
  }

  /** The coupon discount is Discount of the stored coupon on the subtotal, or zero without a coupon. */
  lemma TransactionDiscount(t: Tables, req: CheckoutRequest, now: int, orderId: string)
    requires Transaction(t, req, now, orderId).result.Success?
    ensures var out := Transaction(t, req, now, orderId);
      var lines := LoadLines(StoredItems(t, req.cartId), t.products);
      var d := out.tables.orders[orderId].totals.discount;
      && (req.coupon == "" ==> d == 0.0 && out.tables.coupons == t.coupons && out.tables.couponUsage == t.couponUsage)
      && (req.coupon != "" ==>
            && req.coupon in t.coupons
            && d == Discount(t.coupons[req.coupon], Subtotal(lines))
            && out.tables.coupons[req.coupon].usedCount == t.coupons[req.coupon].usedCount + 1
            && UsageOf(out.tables.couponUsage, req.userId, req.coupon) == UsageOf(t.couponUsage, req.userId, req.coupon) + 1)
  {
  }

  /** A transaction whose order id is taken never succeeds and writes nothing. */
  lemma DuplicateOrderIdFails(t: Tables, req: CheckoutRequest, now: int, orderId: string)
    requires orderId in t.orders
    ensures var out := Transaction(t, req, now, orderId);
      out.result.Failure? && out.tables == t
  {
  }

  /** The INSERT's unique-violation text is none the handler names, so it is answered 500. */
  lemma DuplicateOrderIdAnswered500()
    ensures Reply(Failure(Infrastructure(DUPLICATE_ORDER_ID))).status == STATUS_INTERNAL_SERVER_ERROR
  {
    assert IsUnnamed(Infrastructure(DUPLICATE_ORDER_ID));
  }

  /** A transaction keeps the coupon caps, the one-use-per-user rule and `reserved <= available`. */
  lemma TransactionKeepsInvariants(t: Tables, req: CheckoutRequest, now: int, orderId: string)
    requires ValidTables(t)
    ensures ValidTables(Transaction(t, req, now, orderId).tables)
  {
    var out := Transaction(t, req, now, orderId);
    if out.result.Success? {
      var lines := LoadLines(StoredItems(t, req.cartId), t.products);
      ReserveKeepsNoOversell(t.inventory, lines, WarehouseFor(t.userRegions, req.userId));
      if req.coupon != "" {
        RedeemKeepsLedger(t.coupons, t.couponUsage, req.userId, req.coupon, Subtotal(lines), now);
      }
    }
  }

  /** A cart is checked out at most once: after a success, every transaction on that cart is refused. */
  lemma CartCheckedOutOnce(t: Tables, req: CheckoutRequest, now: int, orderId: string,
                           req': CheckoutRequest, now': int, orderId': string)
    requires Transaction(t, req, now, orderId).result.Success?
    requires req'.cartId == req.cartId
    ensures Transaction(Transaction(t, req, now, orderId).tables, req', now', orderId').result == Failure(CartInvalid)
  {
  }

  /**
   * A user redeems a coupon at most once: after a successful checkout with a
   * coupon, no later checkout of the same user with that coupon succeeds.
   */
  lemma CouponRedeemedOncePerUser(t: Tables, req: CheckoutRequest, now: int, orderId: string,
                                  req': CheckoutRequest, now': int, orderId': string)
    requires ValidTables(t)
    requires req.coupon != ""
    requires Transaction(t, req, now, orderId).result.Success?
    requires req'.userId == req.userId && req'.coupon == req.coupon
    ensures Transaction(Transaction(t, req, now, orderId).tables, req', now', orderId').result.Failure?
  {
    var t1 := Transaction(t, req, now, orderId).tables;
    var lines := LoadLines(StoredItems(t, req.cartId), t.products);
    RedeemKeepsLedger(t.coupons, t.couponUsage, req.userId, req.coupon, Subtotal(lines), now);
    assert UsageOf(t1.couponUsage, req.userId, req.coupon) == 1;
  }

  /** Replay: a stored response for the payment reference is returned as is and nothing changes. */
  lemma ReplayReturnsStoredResponse(s: Store, req: CheckoutRequest, now: int, orderId: string)
    requires req.paymentRef in s.cache.idempotency
    ensures Process(s, req, now, orderId) == Step(s, Success(s.cache.idempotency[req.paymentRef]))
  {
  }

  /**
   * Every call that is not a replay increments its (user, minute) counter by
   * exactly one before anything else, keeps the increment, and is refused as
   * RateLimited exactly when the new count exceeds ten.
   */
  lemma RateLimitGate(s: Store, req: CheckoutRequest, now: int, orderId: string)
    requires req.paymentRef !in s.cache.idempotency
    ensures var key := (req.userId, MinuteOf(now));
      var step := Process(s, req, now, orderId);
      && step.store.cache.rateCounts == s.cache.rateCounts[key := CountOf(s.cache.rateCounts, key) + 1]
      && (step.result == Failure(RateLimited) <==> CountOf(s.cache.rateCounts, key) + 1 > MAX_CHECKOUTS_PER_MINUTE)
      && (step.result == Failure(RateLimited) ==> step.store.tables == s.tables)
  {
  }

  /**
   * A held lock refuses the call with CheckoutInProgress before the database is
   * touched; and the set of held locks is the same after every call, since
   * a lock taken by the call is released on every path.
   */
  lemma LockDiscipline(s: Store, req: CheckoutRequest, now: int, orderId: string)
    ensures Process(s, req, now, orderId).store.cache.locks == s.cache.locks
    ensures var key := (req.userId, MinuteOf(now));
      req.paymentRef !in s.cache.idempotency
      && CountOf(s.cache.rateCounts, key) + 1 <= MAX_CHECKOUTS_PER_MINUTE
      && req.userId in s.cache.locks
      ==> Process(s, req, now, orderId).result == Failure(CheckoutInProgress)
          && Process(s, req, now, orderId).store.tables == s.tables
  {
  }

  /**
   * The idempotency entry is written only by a successful transaction, and it
   * is the response returned; a failing call adds none and writes no table.
   */
  lemma IdempotencyOnSuccessOnly(s: Store, req: CheckoutRequest, now: int, orderId: string)
    ensures var step := Process(s, req, now, orderId);
      && (step.result.Failure? ==> step.store.cache.idempotency == s.cache.idempotency && step.store.tables == s.tables)
      && (step.result.Success? && req.paymentRef !in s.cache.idempotency ==>
            step.store.cache.idempotency == s.cache.idempotency[req.paymentRef := step.result.value])
  {
  }

  /**
   * When the call passes the gates, its tables and result are those of the
   * transaction, and on success the post-commit work is done on the cache.
   */
  lemma ProcessRunsTransaction(s: Store, req: CheckoutRequest, now: int, orderId: string)
    requires req.paymentRef !in s.cache.idempotency
    requires CountOf(s.cache.rateCounts, (req.userId, MinuteOf(now))) + 1 <= MAX_CHECKOUTS_PER_MINUTE
    requires req.userId !in s.cache.locks
    ensures var step := Process(s, req, now, orderId);
      var tx := Transaction(s.tables, req, now, orderId);
      && step.result == tx.result
      && step.store.tables == tx.tables
      && (tx.result.Success? ==>
            step.store.cache.summaryKeys == SurvivingSummaryKeys(s.cache.summaryKeys, req.userId)
            && step.store.cache.orderStream == s.cache.orderStream + [StreamEntry(req.userId, orderId, tx.result.value.total)])
  {
  }

  /** Every call keeps the business invariants. */
  lemma ProcessKeepsInvariants(s: Store, req: CheckoutRequest, now: int, orderId: string)
    requires ValidTables(s.tables)
    ensures ValidTables(Process(s, req, now, orderId).store.tables)
  {
    TransactionKeepsInvariants(s.tables, req, now, orderId);
  }

  /**
   * A retry with the same payment reference after a success gets the same
   * response back and creates nothing: one order for the two calls.
   */
  lemma RetryAfterSuccessReplays(s: Store, req: CheckoutRequest, now: int, orderId: string,
                                 req': CheckoutRequest, now': int, orderId': string)
    requires req.paymentRef !in s.cache.idempotency
    requires Process(s, req, now, orderId).result.Success?
    requires req'.paymentRef == req.paymentRef
    ensures var first := Process(s, req, now, orderId);
      Process(first.store, req', now', orderId') == Step(first.store, first.result)
  {
  }

  /** The calls of a sequence of requests, each on the state the previous one left. */
  function Run(s: Store, reqs: seq<CheckoutRequest>, now: int, orderIds: seq<string>)
    : (r: (Store, seq<Result<CheckoutResponse, CheckoutError>>))
    requires |orderIds| == |reqs|
    ensures |r.1| == |reqs|
    decreases |reqs|
  {
    if reqs == [] then (s, [])
    else
      var step := Process(s, reqs[0], now, orderIds[0]);
      var rest := Run(step.store, reqs[1..], now, orderIds[1..]);
      (rest.0, [step.result] + rest.1)
  }

  /**
   * Within one minute, the i-th new checkout of a user (counting from an
   * initial count `c`) is rate limited exactly when c + i + 1 exceeds ten,
   * whatever else happens to each call.
   */
  lemma {:induction false} RunRateLimited(s: Store, reqs: seq<CheckoutRequest>, now: int, orderIds: seq<string>, userId: string)
    requires |orderIds| == |reqs|
    requires forall i :: 0 <= i < |reqs| ==> reqs[i].userId == userId
    requires forall i :: 0 <= i < |reqs| ==> reqs[i].paymentRef !in s.cache.idempotency
    requires forall i, j :: 0 <= i < j < |reqs| ==> reqs[i].paymentRef != reqs[j].paymentRef
    ensures var results := Run(s, reqs, now, orderIds).1;
      forall i :: 0 <= i < |reqs| ==>
        (results[i] == Failure(RateLimited) <==>
           CountOf(s.cache.rateCounts, (userId, MinuteOf(now))) + i + 1 > MAX_CHECKOUTS_PER_MINUTE)
    decreases |reqs|
  {
    if reqs != [] {
      var key := (userId, MinuteOf(now));
      var step := Process(s, reqs[0], now, orderIds[0]);
      RateLimitGate(s, reqs[0], now, orderIds[0]);
      assert CountOf(step.store.cache.rateCounts, key) == CountOf(s.cache.rateCounts, key) + 1;
      assert step.store.cache.idempotency.Keys <= s.cache.idempotency.Keys + {reqs[0].paymentRef};
      assert forall i :: 0 <= i < |reqs[1..]| ==> reqs[1..][i].paymentRef !in step.store.cache.idempotency;
      RunRateLimited(step.store, reqs[1..], now, orderIds[1..], userId);
      var rest := Run(step.store, reqs[1..], now, orderIds[1..]).1;
      var results := Run(s, reqs, now, orderIds).1;
      assert results == [step.result] + rest;
      assert forall j :: 0 <= j < |reqs[1..]| ==>
        (Run(step.store, reqs[1..], now, orderIds[1..]).1[j] == Failure(RateLimited) <==> CountOf(step.store.cache.rateCounts, (userId, MinuteOf(now))) + j + 1 > MAX_CHECKOUTS_PER_MINUTE);
      assert forall j :: 0 <= j < |reqs[1..]| ==>
        (rest[j] == Failure(RateLimited) <==> CountOf(step.store.cache.rateCounts, key) + j + 1 > MAX_CHECKOUTS_PER_MINUTE);
      forall i | 0 <= i < |reqs|
        ensures results[i] == Failure(RateLimited) <==> CountOf(s.cache.rateCounts, key) + i + 1 > MAX_CHECKOUTS_PER_MINUTE
      {
        if i > 0 {
          assert results[i] == rest[i - 1];
          assert rest[i - 1] == Failure(RateLimited) <==>
            CountOf(step.store.cache.rateCounts, key) + (i - 1) + 1 > MAX_CHECKOUTS_PER_MINUTE;
        } else {
          assert results[0] == step.result;
        }
      }
    }
  }

  /** Eleven new checkouts of one user in a fresh minute: the tenth passes the gate, the eleventh does not. */
  lemma TenthPassesEleventhIsLimited(s: Store, reqs: seq<CheckoutRequest>, now: int, orderIds: seq<string>, userId: string)
    requires |reqs| == 11 && |orderIds| == 11
    requires (userId, MinuteOf(now)) !in s.cache.rateCounts
    requires forall i :: 0 <= i < |reqs| ==> reqs[i].userId == userId
    requires forall i :: 0 <= i < |reqs| ==> reqs[i].paymentRef !in s.cache.idempotency
    requires forall i, j :: 0 <= i < j < |reqs| ==> reqs[i].paymentRef != reqs[j].paymentRef
    ensures Run(s, reqs, now, orderIds).1[9] != Failure(RateLimited)
    ensures Run(s, reqs, now, orderIds).1[10] == Failure(RateLimited)
  {
    RunRateLimited(s, reqs, now, orderIds, userId);
  }
}
