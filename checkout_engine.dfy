/**
 * The `CheckoutHandler` of golang/checkout.go as an object: like the Go
 * struct, it holds the database (`db`) and the cache (`rdb`), and each handler
 * method updates them step by step as the Go code issues its statements.
 * Every method is proved to leave the state that CheckoutSpec's functions
 * describe, except that a failing `ReserveInventory` leaves the inventory it
 * has partly raised unspecified: its caller's rollback discards it.
 *
 * The transaction's deferred rollback is a snapshot of the tables taken at
 * `Begin` and written back on every failure path; the commit is reaching the
 * end of the method.
 */
module CheckoutEngine {
  import opened Wrappers
  import opened Records
  import opened Errors
  import opened Pricing
  import opened Coupons
  import opened Inventory
  import opened CheckoutSpec
  import CheckoutProperties

  class Engine {
    /** The PostgreSQL tables. */
    var db: Tables
    /** The Redis contents. */
    var rdb: Cache

    /** The business invariants hold of the tables. */
    predicate Valid()
      reads this`db
    {
      ValidTables(db)
    }

    constructor (t: Tables, c: Cache)
      ensures db == t && rdb == c
    {
      db, rdb := t, c;
    }

    /** `tx.Rollback`: the tables return to the snapshot; the cache is not part of the transaction. */
    method Rollback(snapshot: Tables)
      modifies this`db
      ensures db == snapshot
    {
      db := snapshot;
    }

    /** The cart-items query and its scan loop (188-211): the loaded lines follow the join. */
    method LoadCartItems(cartId: string) returns (lines: seq<CartLine>)
      ensures lines == LoadLines(StoredItems(db, cartId), db.products)
    {
      var items := if cartId in db.cartItems then db.cartItems[cartId] else [];
      lines := [];
      var i := 0;
      while i < |items|
        invariant 0 <= i <= |items|
        invariant lines == LoadLines(items[..i], db.products)
      {
        assert items[..i + 1][..i] == items[..i];
        var item := items[i];
        if item.productId in db.products {
          lines := lines + [CartLine(item.productId, item.qty, item.unitPrice, db.products[item.productId])];
        }
        i := i + 1;
      }
      assert items[..i] == items;
    }

    /**
     * `processCoupon` (318-379): on refusal nothing is written; on acceptance
     * the usage row and the coupon's count are written and the discount is
     * that of the coupon, both exactly as Redeem describes.
     */
    method ProcessCoupon(userId: string, code: string, lines: seq<CartLine>, now: int)
      returns (discount: real, err: Option<CheckoutError>)
      modifies this`db
      ensures var redeemed := Redeem(old(db.coupons), old(db.couponUsage), userId, code, Subtotal(lines), now);
        && (redeemed.Failure? ==> err == Some(redeemed.error) && discount == 0.0 && db == old(db))
        && (redeemed.Success? ==>
              && err == None
              && discount == redeemed.value.discount
              && db == old(db).(coupons := redeemed.value.coupons, couponUsage := redeemed.value.usage))
    {
      if code !in db.coupons {
        return 0.0, Some(CouponInvalid);
      }
      var coupon := db.coupons[code];
      if now < coupon.startsAt || now > coupon.endsAt {
        return 0.0, Some(CouponInvalid);
      }
      if coupon.maxUses.Some? && coupon.usedCount >= coupon.maxUses.value {
        return 0.0, Some(CouponInvalid);
      }
      if (userId, code) in db.couponUsage && db.couponUsage[(userId, code)] >= 1 {
        return 0.0, Some(CouponAlreadyUsed);
      }
      RecordCouponUse(userId, code);
      var subtotal := SumSubtotal(lines);
      if coupon.kind == "percentage" {
        discount := subtotal * (coupon.value / 100.0);
      } else {
        discount := coupon.value;
      }
      err := None;
    }

    /**
     * The usage upsert and the coupon count update (350-367): one more use for
     * the user and for the coupon, as RecordUse says.
     */
    method RecordCouponUse(userId: string, code: string)
      requires code in db.coupons
      modifies this`db
      ensures (db.coupons, db.couponUsage) == RecordUse(old(db.coupons), old(db.couponUsage), userId, code)
      ensures db == old(db).(coupons := db.coupons, couponUsage := db.couponUsage)
    {
      var usage := db.couponUsage;
      if (userId, code) in usage {
        usage := usage[(userId, code) := usage[(userId, code)] + 1];
      } else {
        usage := usage[(userId, code) := 1];
      }
      var coupon := db.coupons[code];
      db := db.(couponUsage := usage, coupons := db.coupons[code := coupon.(usedCount := coupon.usedCount + 1)]);
    }

    /** Step 3.3 (217-229): the coupon is processed only when the request names one. */
    method CouponStage(req: CheckoutRequest, lines: seq<CartLine>, now: int)
      returns (discount: real, err: Option<CheckoutError>)
      modifies this`db
      ensures var step := CouponStep(old(db), req, lines, now);
        && (step.Failure? ==> err == Some(step.error) && db == old(db))
        && (step.Success? ==>
              && err == None
              && discount == step.value.discount
              && db == old(db).(coupons := step.value.coupons, couponUsage := step.value.usage))
    {
      discount, err := 0.0, None;
      if req.coupon != "" {
        discount, err := ProcessCoupon(req.userId, req.coupon, lines, now);
      }
    }

    /**
     * `reserveInventory` (398-427): line by line, a missing row or too little
     * free stock stops with a failure (the rows already raised are undone by
     * the caller's rollback); otherwise every row is raised as Reserve says.
     */
    method ReserveInventory(lines: seq<CartLine>, wh: string) returns (ok: bool)
      modifies this`db
      ensures ok <==> Reserve(old(db.inventory), lines, wh).Some?
      ensures ok ==> db.inventory == Reserve(old(db.inventory), lines, wh).value
      ensures db == old(db).(inventory := db.inventory)
    {
      var i := 0;
      while i < |lines|
        invariant 0 <= i <= |lines|
        invariant Reserve(old(db.inventory), lines, wh) == Reserve(db.inventory, lines[i..], wh)
        invariant db == old(db).(inventory := db.inventory)
      {
        assert lines[i..][0] == lines[i] && lines[i..][1..] == lines[i + 1..];
        var key := (lines[i].productId, wh);
        if key !in db.inventory {
          return false;
        }
        var stock := db.inventory[key];
        if stock.available - stock.reserved < lines[i].qty {
          return false;
        }
        db := db.(inventory := db.inventory[key := stock.(reserved := stock.reserved + lines[i].qty)]);
        i := i + 1;
      }
      assert lines[i..] == [];
      return true;
    }

    /** The order-item insert loop (261-277): one row per line, appended in line order. */
    method InsertOrderItems(orderId: string, lines: seq<CartLine>)
      modifies this`db
      ensures db == old(db).(orderItems := old(db.orderItems) + OrderItemsFor(orderId, lines))
    {
      var i := 0;
      while i < |lines|
        invariant 0 <= i <= |lines|
        invariant db == old(db).(orderItems := old(db.orderItems) + OrderItemsFor(orderId, lines[..i]))
      {
        assert lines[..i + 1][..i] == lines[..i];
        db := db.(orderItems := db.orderItems + [OrderItem(orderId, lines[i].productId, lines[i].qty, lines[i].unitPrice)]);
        i := i + 1;
      }
      assert lines[..i] == lines;
    }

    /**
     * Steps 3.5 to 3.8 of the transaction (240-298): the totals, the order row,
     * its items, the closed cart and the ORDER_CREATED event. The order INSERT
     * fails, writing nothing, when the order id is already taken.
     */
    method WriteOrder(req: CheckoutRequest, orderId: string, lines: seq<CartLine>, discount: real)
      returns (total: real, ok: bool)
      requires req.cartId in db.carts
      modifies this`db
      ensures ok <==> orderId !in old(db.orders)
      ensures !ok ==> db == old(db)
      ensures var totals := PriceOrder(Subtotal(lines), discount, |lines|);
        && total == totals.total
        && (ok ==> db == old(db).(
             orders := old(db.orders)[orderId := Order(req.userId, ORDER_PENDING, totals)],
             orderItems := old(db.orderItems) + OrderItemsFor(orderId, lines),
             carts := old(db.carts)[req.cartId := old(db.carts)[req.cartId].(status := CART_CLOSED)],
             events := old(db.events) + [Event(req.userId, ORDER_CREATED, orderId, total, req.cartId)]))
    {
      var subtotal := SumSubtotal(lines);
      var tax := ComputeTax(subtotal - discount);
      var shipping := ComputeShipping(subtotal, |lines|);
      total := MaxReal(0.0, subtotal - discount + tax + shipping);
      if orderId in db.orders {
        return total, false;
      }
      ok := true;
      db := db.(orders := db.orders[orderId := Order(req.userId, ORDER_PENDING, Totals(subtotal, discount, tax, shipping, total))]);
      InsertOrderItems(orderId, lines);
      db := db.(carts := db.carts[req.cartId := db.carts[req.cartId].(status := CART_CLOSED)]);
      db := db.(events := db.events + [Event(req.userId, ORDER_CREATED, orderId, total, req.cartId)]);
    }

    /** `postCommitRedisOps` (429-449). */
    method PostCommitRedisOps(userId: string, orderId: string, total: real)
      modifies this`rdb
      ensures rdb == PostCommit(old(rdb), userId, orderId, total)
    {
      var keys := SurvivingSummaryKeys(rdb.summaryKeys, userId);
      var score := if userId in rdb.leaderboard then rdb.leaderboard[userId] else 0.0;
      rdb := rdb.(summaryKeys := keys,
                  leaderboard := rdb.leaderboard[userId := score + total],
                  orderStream := rdb.orderStream + [StreamEntry(userId, orderId, total)]);
    }

    /**
     * `executeCheckoutTransaction` (165-316): the tables end as Transaction
     * says, and the post-commit cache work happens exactly on success.
     */
    method ExecuteCheckoutTransaction(req: CheckoutRequest, now: int, orderId: string)
      returns (r: Result<CheckoutResponse, CheckoutError>)
      modifies this
      ensures var tx := Transaction(old(db), req, now, orderId);
        db == tx.tables && r == tx.result
      ensures r.Success? ==> rdb == PostCommit(old(rdb), req.userId, orderId, r.value.total)
      ensures r.Failure? ==> rdb == old(rdb)
    {
      var snapshot := db;
      if !CartOpenFor(db.carts, req.cartId, req.userId) {
        Rollback(snapshot);
        return Failure(CartInvalid);
      }
      var lines := LoadCartItems(req.cartId);
      if |lines| == 0 {
        Rollback(snapshot);
        return Failure(CartEmpty);
      }
      ghost var coupon := CouponStep(snapshot, req, lines, now);
      var discount, err := CouponStage(req, lines, now);
      if err.Some? {
        Rollback(snapshot);
        return Failure(err.value);
      }
      assert db == snapshot.(coupons := coupon.value.coupons, couponUsage := coupon.value.usage);
      var wh := WarehouseFor(db.userRegions, req.userId);
      var ok := ReserveInventory(lines, wh);
      if !ok {
        Rollback(snapshot);
        return Failure(InsufficientInventory);
      }
      var total, written := WriteOrder(req, orderId, lines, discount);
      if !written {
        Rollback(snapshot);
        return Failure(Infrastructure(DUPLICATE_ORDER_ID));
      }
      PostCommitRedisOps(req.userId, orderId, total);
      r := Success(CheckoutResponse(orderId, ORDER_PENDING, total));
    }

    /**
     * `processCheckout` (113-163): the new tables, the new cache and the
     * result are those of Process, and the business invariants are kept.
     */
    method ProcessCheckout(req: CheckoutRequest, now: int, orderId: string)
      returns (r: Result<CheckoutResponse, CheckoutError>)
      modifies this
      ensures var step := Process(Store(old(db), old(rdb)), req, now, orderId);
        db == step.store.tables && rdb == step.store.cache && r == step.result
      ensures old(Valid()) ==> Valid()
    {
      if Valid() {
        CheckoutProperties.ProcessKeepsInvariants(Store(db, rdb), req, now, orderId);
      }
      if req.paymentRef in rdb.idempotency {
        return Success(rdb.idempotency[req.paymentRef]);
      }
      var key := (req.userId, MinuteOf(now));
      var count := (if key in rdb.rateCounts then rdb.rateCounts[key] else 0) + 1;
      rdb := rdb.(rateCounts := rdb.rateCounts[key := count]);
      if count > MAX_CHECKOUTS_PER_MINUTE {
        return Failure(RateLimited);
      }
      if req.userId in rdb.locks {
        return Failure(CheckoutInProgress);
      }
      rdb := rdb.(locks := rdb.locks + {req.userId});
      r := ExecuteCheckoutTransaction(req, now, orderId);
      if r.Success? {
        rdb := rdb.(idempotency := rdb.idempotency[req.paymentRef := r.value]);
      }
      rdb := rdb.(locks := rdb.locks - {req.userId});
    }

    /**
     * The `Checkout` handler (72-111): a request failing the guard is answered
     * 400 with the guard's message and changes nothing; any other is processed
     * and answered as Reply maps the outcome.
     */
    method Checkout(req: CheckoutRequest, now: int, orderId: string) returns (reply: HttpReply)
      modifies this
      ensures CheckRequest(req).Some? ==>
        && reply == HttpReply(STATUS_BAD_REQUEST, ErrorBody(GuardMessage(CheckRequest(req).value)))
        && db == old(db) && rdb == old(rdb)
      ensures CheckRequest(req).None? ==>
        var step := Process(Store(old(db), old(rdb)), req, now, orderId);
        && reply == Reply(step.result)
        && db == step.store.tables && rdb == step.store.cache
    {
      var guard := CheckRequest(req);
      if guard.Some? {
        return HttpReply(STATUS_BAD_REQUEST, ErrorBody(GuardMessage(guard.value)));
      }
      var r := ProcessCheckout(req, now, orderId);
      reply := Reply(r);
    }
  }
}
