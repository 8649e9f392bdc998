/**
 * The checkout engine of golang/checkout.go as functions on values: the
 * database tables and the cache contents are datatypes, the transaction
 * (`executeCheckoutTransaction`, 165-316) and the request pipeline
 * (`processCheckout`, 113-163) map an old state to a new state and a result.
 * The imperative engine in CheckoutEngine is proved to compute exactly these.
 */
module CheckoutSpec {
  import opened Wrappers
  import opened Records
  import opened Errors
  import opened Pricing
  import opened Coupons
  import opened Inventory
  import opened RedisKeys

  /** The relational store. */
  datatype Tables = Tables(
    carts: map<string, Cart>,
    cartItems: map<string, seq<CartItem>>,
    products: map<string, string>,   // product id -> status
    coupons: CouponTable,
    couponUsage: UsageTable,
    inventory: InventoryTable,
    userRegions: map<string, string>,
    orders: map<string, Order>,
    orderItems: seq<OrderItem>,
    events: seq<Event>)

  /**
   * The cache: the idempotency entries (`idem:checkout:<ref>`), the rate
   * counters (`rl:user:<user>:checkout:<minute>`), the held locks
   * (`lock:checkout:<user>`), the keys of cached overview summaries, the
   * `leaderboard:top_buyers` scores and the `stream:order_events` stream.
   */
  datatype Cache = Cache(
    idempotency: map<string, CheckoutResponse>,
    rateCounts: map<(string, int), int>,
    locks: set<string>,
    summaryKeys: set<string>,
    leaderboard: map<string, real>,
    orderStream: seq<StreamEntry>)

  datatype Store = Store(tables: Tables, cache: Cache)

  const MAX_CHECKOUTS_PER_MINUTE := 10
  const ORDER_PENDING := "pending"
  const CART_OPEN := "open"
  const CART_CLOSED := "closed"
  const ORDER_CREATED := "ORDER_CREATED"

  /** The business invariants: coupon caps, one use per user and coupon, no oversell. */
  predicate ValidTables(t: Tables)
  {
    WithinCaps(t.coupons) && AtMostOncePerUser(t.couponUsage) && NoOversell(t.inventory)
  }

  /** `time.Now().Unix() / 60` with Go's truncating division. */
  function MinuteOf(unixSeconds: int): int
  {
    if unixSeconds >= 0 then unixSeconds / 60 else -((-unixSeconds) / 60)
  }

  /** A counter that was never incremented reads as zero, as INCR starts from zero. */
  function CountOf(counts: map<(string, int), int>, key: (string, int)): int
  {
    if key in counts then counts[key] else 0
  }

  /** The row lock query of line 179 finds a cart of this user, and its status is "open". */
  predicate CartOpenFor(carts: map<string, Cart>, cartId: string, userId: string)
  {
    cartId in carts && carts[cartId].owner == userId && carts[cartId].status == CART_OPEN
  }

  /** The cart's stored rows, none for a cart without items. */
  function StoredItems(t: Tables, cartId: string): seq<CartItem>
  {
    if cartId in t.cartItems then t.cartItems[cartId] else []
  }

  /** How many of the items have a product row, that is, survive the inner join. */
  function JoinedCount(items: seq<CartItem>, products: map<string, string>): (n: nat)
    ensures n <= |items|
    decreases |items|
  {
    if items == [] then 0
    else JoinedCount(items[..|items| - 1], products) + (if items[|items| - 1].productId in products then 1 else 0)
  }

  /**
   * The query of lines 188-192 and the scan loop of 199-211: the cart items
   * joined with their products (an item without a product row is not
   * returned by the inner join), carrying the product status along.
   */
  function LoadLines(items: seq<CartItem>, products: map<string, string>): (lines: seq<CartLine>)
    ensures |lines| == JoinedCount(items, products)
    ensures forall j :: 0 <= j < |lines| ==> lines[j].productId in products
    decreases |items|
  {
    if items == [] then []
    else
      var last := items[|items| - 1];
      LoadLines(items[..|items| - 1], products)
      + (if last.productId in products
         then [CartLine(last.productId, last.qty, last.unitPrice, products[last.productId])]
         else [])
  }

  /** Lines 261-277: one order item per cart line, quantity and unit price copied. */
  function OrderItemsFor(orderId: string, lines: seq<CartLine>): (items: seq<OrderItem>)
    ensures |items| == |lines|
    ensures forall i :: 0 <= i < |lines| ==>
      items[i] == OrderItem(orderId, lines[i].productId, lines[i].qty, lines[i].unitPrice)
    decreases |lines|
  {
    if lines == [] then []
    else
      var last := lines[|lines| - 1];
      OrderItemsFor(orderId, lines[..|lines| - 1]) + [OrderItem(orderId, last.productId, last.qty, last.unitPrice)]
  }

  datatype TxOutcome = TxOutcome(tables: Tables, result: Result<CheckoutResponse, CheckoutError>)

  /**
   * The error pgx returns when the order INSERT of lines 252-258 meets an
   * existing order id: PostgreSQL's unique violation on the primary key of
   * `orders`. The handler does not recognise its text, so it is answered 500.
   */
  const DUPLICATE_ORDER_ID := "ERROR: duplicate key value violates unique constraint \"orders_pkey\" (SQLSTATE 23505)"

  /** The failures a transaction can end with: the named ones and the duplicate order id. */
  predicate IsTransactionError(e: CheckoutError)
  {
    || e == CartInvalid || e == CartEmpty || e == CouponInvalid || e == CouponAlreadyUsed || e == InsufficientInventory
    || e == Infrastructure(DUPLICATE_ORDER_ID)
  }

  /** The coupon step of lines 217-229: no coupon means no discount and no writes. */
  function CouponStep(t: Tables, req: CheckoutRequest, lines: seq<CartLine>, now: int): Result<CouponEffect, CheckoutError>
  {
    if req.coupon == "" then Success(CouponEffect(t.coupons, t.couponUsage, 0.0))
    else Redeem(t.coupons, t.couponUsage, req.userId, req.coupon, Subtotal(lines), now)
  }

  /**
   * `executeCheckoutTransaction` up to and including the commit. Every failure
   * returns the tables as they were (the deferred rollback); success writes the
   * coupon use, the reservations, the order, its items, the closed cart and the
   * event together. An order id already in `orders` makes the order INSERT
   * fail, and the transaction with it.
   */
  function Transaction(t: Tables, req: CheckoutRequest, now: int, orderId: string): (out: TxOutcome)
    ensures out.result.Failure? ==> out.tables == t && IsTransactionError(out.result.error)
  {
    if !CartOpenFor(t.carts, req.cartId, req.userId) then TxOutcome(t, Failure(CartInvalid))
    else
      var lines := LoadLines(StoredItems(t, req.cartId), t.products);
      if lines == [] then TxOutcome(t, Failure(CartEmpty))
      else
        var coupon := CouponStep(t, req, lines, now);
        if coupon.Failure? then TxOutcome(t, Failure(coupon.error))
        else
          var reserved := Reserve(t.inventory, lines, WarehouseFor(t.userRegions, req.userId));
          if reserved.None? then TxOutcome(t, Failure(InsufficientInventory))
          else if orderId in t.orders then TxOutcome(t, Failure(Infrastructure(DUPLICATE_ORDER_ID)))
          else
            var totals := PriceOrder(Subtotal(lines), coupon.value.discount, |lines|);
            TxOutcome(
              t.(coupons := coupon.value.coupons,
                 couponUsage := coupon.value.usage,
                 inventory := reserved.value,
                 orders := t.orders[orderId := Order(req.userId, ORDER_PENDING, totals)],
                 orderItems := t.orderItems + OrderItemsFor(orderId, lines),
                 carts := t.carts[req.cartId := t.carts[req.cartId].(status := CART_CLOSED)],
                 events := t.events + [Event(req.userId, ORDER_CREATED, orderId, totals.total, req.cartId)]),
              Success(CheckoutResponse(orderId, ORDER_PENDING, totals.total)))
  }

  /**
   * The cached summary keys left once those KEYS returns for the user's
   * pattern are deleted. For a user id without classes or escapes no key with
   * the user's summary prefix is left; when the id also holds no wildcard,
   * every other key is left, so the deletion is exactly a prefix deletion.
   */
  function SurvivingSummaryKeys(keys: set<string>, userId: string): (rest: set<string>)
    ensures rest <= keys
    ensures '[' !in userId && '\\' !in userId ==> forall k :: k in rest ==> !(SummaryPrefix(userId) <= k)
    ensures GlobLiteral(userId) ==> rest == set k | k in keys && !(SummaryPrefix(userId) <= k)
  {
    SummaryPatternIsPrefix(userId);
    set k | k in keys && !Glob(SummaryPattern(userId), k)
  }

  /**
   * `postCommitRedisOps` (429-449): delete the user's summary entries, add the
   * total to the user's leaderboard score, append to the order stream.
   */
  function PostCommit(c: Cache, userId: string, orderId: string, total: real): Cache
  {
    var score := if userId in c.leaderboard then c.leaderboard[userId] else 0.0;
    c.(summaryKeys := SurvivingSummaryKeys(c.summaryKeys, userId),
       leaderboard := c.leaderboard[userId := score + total],
       orderStream := c.orderStream + [StreamEntry(userId, orderId, total)])
  }

  datatype Step = Step(store: Store, result: Result<CheckoutResponse, CheckoutError>)

  /**
   * `processCheckout`: idempotency lookup, rate-limit increment, lock
   * acquisition, the transaction, the idempotency write on success, and the
   * deferred lock release on every path that acquired it.
   */
  function Process(s: Store, req: CheckoutRequest, now: int, orderId: string): Step
  {
    var cache := s.cache;
    if req.paymentRef in cache.idempotency then Step(s, Success(cache.idempotency[req.paymentRef]))
    else
      var key := (req.userId, MinuteOf(now));
      var count := CountOf(cache.rateCounts, key) + 1;
      var counted := cache.(rateCounts := cache.rateCounts[key := count]);
      if count > MAX_CHECKOUTS_PER_MINUTE then Step(Store(s.tables, counted), Failure(RateLimited))
      else if req.userId in counted.locks then Step(Store(s.tables, counted), Failure(CheckoutInProgress))
      else
        var locked := counted.(locks := counted.locks + {req.userId});
        var tx := Transaction(s.tables, req, now, orderId);
        var after :=
          if tx.result.Failure? then locked
          else
            var posted := PostCommit(locked, req.userId, orderId, tx.result.value.total);
            posted.(idempotency := posted.idempotency[req.paymentRef := tx.result.value]);
        Step(Store(tx.tables, after.(locks := after.locks - {req.userId})), tx.result)
  }

  /** The handler's request guard (82-89). */
  datatype GuardError = MissingIdentifiers | MissingItems

  function GuardMessage(g: GuardError): string
  {
    match g
    case MissingIdentifiers => "userId, cartId, and paymentRef are required"
    case MissingItems => "items are required"
  }

  /**
   * The identifiers are checked first, then the request's item list, which is
   * only required to be non-empty (the order is built from the stored cart).
   */
  function CheckRequest(req: CheckoutRequest): (r: Option<GuardError>)
    ensures r == None <==> req.userId != "" && req.cartId != "" && req.paymentRef != "" && |req.items| > 0
    ensures r == Some(MissingIdentifiers) <==> req.userId == "" || req.cartId == "" || req.paymentRef == ""
  {
    if req.userId == "" || req.cartId == "" || req.paymentRef == "" then Some(MissingIdentifiers)
    else if |req.items| == 0 then Some(MissingItems)
    else None
  }

  /** The body of the handler's reply. */
  datatype ReplyBody = ResponseBody(response: CheckoutResponse) | ErrorBody(error: string)

  datatype HttpReply = HttpReply(status: int, body: ReplyBody)

  /**
   * Lines 91-110: a success is answered 200 with the response, a failure with
   * its message and an error status, by class: 429 for the rate limit, 409
   * for a held lock or missing stock, 400 for the cart and coupon checks and
   * 500 for infrastructure errors with a text the switch does not name.
   */
  function Reply(r: Result<CheckoutResponse, CheckoutError>): (reply: HttpReply)
    ensures reply.status == STATUS_OK <==> r.Success?
    ensures r.Success? ==> reply.body == ResponseBody(r.value)
    ensures r.Failure? ==> reply.body == ErrorBody(Message(r.error)) && reply.status >= STATUS_BAD_REQUEST
    ensures r.Failure? && (!r.error.Infrastructure? || IsUnnamed(r.error)) ==>
      && (reply.status == STATUS_TOO_MANY_REQUESTS <==> r.error == RateLimited)
      && (reply.status == STATUS_CONFLICT <==> r.error == CheckoutInProgress || r.error == InsufficientInventory)
      && (reply.status == STATUS_BAD_REQUEST <==>
            r.error == CartInvalid || r.error == CartEmpty || r.error == CouponInvalid || r.error == CouponAlreadyUsed)
      && (reply.status == STATUS_INTERNAL_SERVER_ERROR <==> r.error.Infrastructure?)
  {
    match r
    case Success(resp) => HttpReply(STATUS_OK, ResponseBody(resp))
    case Failure(e) => HttpReply(StatusOf(e), ErrorBody(Message(e)))
  }
}
