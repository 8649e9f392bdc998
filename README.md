# Checkout engine and overview helpers (Dafny model)

This project models the checkout engine of the Go service in
`golang/checkout.go` and the pure computations of the user-overview handler
in `golang/user_overview.go`.

The checkout engine has three layers:

- **Request pipeline** (`processCheckout`): an idempotency replay keyed by the
  payment reference, then a per-user, per-minute rate limit of ten calls, then
  a per-user lock.
- **Database transaction** (`executeCheckoutTransaction`):
  1. check that the cart is open and owned by the user;
  2. load the cart lines;
  3. redeem the coupon, if any;
  4. reserve stock at the user's regional warehouse;
  5. price the order;
  6. write the order, its items, the closed cart and an `ORDER_CREATED` event.

  Any failure rolls the whole transaction back.
- **Post-commit cache work**: after a successful transaction, delete the
  user's cached overview summaries, add the total to the user's leaderboard
  score and append the order to the order stream.

The model has two halves:

- **Specification functions** on values. `CheckoutSpec` defines `Tables`
  (the database), `Cache` (Redis) and `Store`. `Transaction` and `Process`
  map an old state to a new state and a result. `CheckoutProperties`,
  `Coupons`, `Inventory`, `Pricing` and `Invalidation` prove the promised
  properties about these functions.
- **An imperative engine.** `CheckoutEngine.Engine` is a class which, like
  the Go `CheckoutHandler`, holds the database (`db`) and the cache (`rdb`).
  Its methods update these fields step by step, following the Go statements
  and loops: the cart scan, the reservation loop, the order-item loop and the
  subtotal loop. Each method's contract ties its results and its new state
  to the specification functions. The one gap is the failure path of
  `ReserveInventory`: there the partly raised inventory is left unspecified,
  because the caller's rollback discards it. Entry points are `Checkout` (the
  HTTP handler) and `ProcessCheckout`.

Modules, one per file:

- `Wrappers`: `Option` and `Result`.
- `Records`: the request, response and row types.
- `Errors`: the error variants, their message texts and the
  message-to-status switch.
- `Pricing`: tax, shipping, subtotal and totals.
- `Coupons`: coupon checks, the usage ledger and the discount.
- `Inventory`: warehouse choice and stock reservation.
- `RedisKeys`: the key builders, decimal formatting and the pattern
  matcher of Redis's `KEYS`.
- `CheckoutSpec`: `Transaction`, `Process`, the request guard and the reply.
- `CheckoutProperties`: the lemmas about the checkout.
- `CheckoutEngine`: the class.
- `Overview`: paging, the summary key, the offset, the segment and the top
  products.
- `Invalidation`: summary keys against the post-commit deletion pattern.
- `Scenarios`: worked examples.

Modelling choices:

- **Money** is exact `real`. Tax is 8% of the discounted subtotal, cut toward
  zero to whole cents, as `int(amount*0.08*100)/100` does.
- **Parameters.** The clock is one parameter `now`, in unix seconds; the
  minute is Go's truncating `now / 60`. The new order's id, `uuid.New()` in
  the source, is a parameter. An id already present in `orders` makes the
  order `INSERT` fail with PostgreSQL's unique violation. The transaction is
  then rolled back and the failure is answered 500.
- **Cache keys.** Redis string keys are modelled as structured keys: a
  payment reference, a (user, minute) pair, a user id. `RedisKeys` proves the
  Go key formats injective, so this loses nothing. Cached overview summaries
  are a set of key strings, and the post-commit `KEYS` + `DEL` is
  `SurvivingSummaryKeys` through `Glob`. `Glob` follows the rules of Redis's
  case-sensitive pattern matcher: `*`, `?`, `[...]` classes (with `^`,
  ranges and escapes inside) and `\` escapes. It applies them to characters,
  where Redis applies them to the UTF-8 bytes go-redis sends. So a user id that holds pattern syntax is read as
  pattern syntax.
- **Paging.** Go's `int` is 64 bits. Page and limit are `int64`, and the
  offset `(page - 1) * limit` wraps around modulo 2^64 as Go's does.
- **The cart-items query** is an inner join with `products`. A cart item
  whose product row is missing is not loaded. The product status is loaded
  but never checked, as in the source. The query has no `ORDER BY`, so the
  database promises no row order. The stored sequence `cartItems[cartId]`
  stands for whatever order the scan returns. Totals and the reservation
  outcome do not depend on that order; the order of the appended order items
  does.

Behaviour worth knowing:

- **Tax** is cut toward zero to whole cents, not rounded
  (`Scenarios.TaxIsCutNotRounded`: 8% of 10.10 gives 0.80, not 0.81).
- **Validation.** The request's `items` only have to be non-empty; the order
  is always built from the stored cart.
- **Held lock.** The lock-denied error is the text "Checkout in progress",
  answered 409.

## Model

| member | source | states |
|---|---|---|
| Errors.StatusForMessage | golang/checkout.go:92-107 | a message the switch does not name is answered 500, and every message gets an error status (≥ 400) |
| Errors.StatusOf | golang/checkout.go:91-108 | for every named error, and for an infrastructure error with an unrecognised text: 429 exactly for the rate limit, 409 exactly for a held lock or missing stock, 400 exactly for the four cart/coupon validation failures, 500 exactly for infrastructure errors |
| Errors.MessagesDistinct | golang/checkout.go:95-106 | the seven named errors have pairwise different texts, so choosing the status by text identifies the error |
| Errors.InfrastructureTextDecidesStatus | golang/checkout.go:93-107 | an infrastructure error whose text equals a named message gets that message's status rather than 500, because the switch looks only at the text |
| Pricing.Trunc | golang/checkout.go:452 | Go's float-to-int conversion: the integer next to x on the side of zero, within one unit |
| Pricing.ComputeTax | golang/checkout.go:451-453 | the tax is whole cents; for a non-negative amount it is at most 8% of it and less than one cent below; for a negative amount it is at least 8% of it, less than one cent above, and not positive |
| Pricing.TaxIsTruncationToCents | golang/checkout.go:451-453 | any whole-cent value within a cent of 8% of the amount, on the side of zero, is the computed tax, so the tax is the truncation to cents |
| Pricing.ComputeShipping | golang/checkout.go:455-460 | shipping is free strictly above 100; at or below 100 a non-empty cart pays at least 5.99 |
| Pricing.ShippingPerLine | golang/checkout.go:455-460 | at or below the threshold one line costs 5.99 and every further line adds 0.99 |
| Pricing.MaxReal | golang/checkout.go:462-467 | the result is one of the two arguments and at least each of them |
| Pricing.SubtotalNonNegative | golang/checkout.go:241-245 | lines with non-negative quantities and prices have a non-negative subtotal |
| Pricing.SumSubtotal | golang/checkout.go:242-245 | the accumulation loop computes the subtotal, Σ qty·unitPrice over the lines |
| Pricing.PriceOrder | golang/checkout.go:241-248 | the totals carry the subtotal and discount, the tax of the discounted subtotal, the shipping of the subtotal and line count, and a total that is never negative and is either zero or subtotal − discount + tax + shipping |
| Pricing.OversizedDiscountClampsToZero | golang/checkout.go:246-248 | a discount above the subtotal gives a negative tax (−3.60 on 55 − 100), and the total is clamped to zero |
| Coupons.CouponDecision | golang/checkout.go:325-348 | the coupon is accepted exactly when it exists, startsAt ≤ now ≤ endsAt, it is uncapped or below its cap, and the user has no recorded use; it is refused as already used exactly when only the last condition fails; every other refusal is "invalid or expired" |
| Coupons.RecordUse | golang/checkout.go:350-367 | the coupon's used count rises by one and the user's usage row becomes old usage + 1 (inserted as 1); no other coupon or usage row changes |
| Coupons.Discount | golang/checkout.go:369-378 | a "percentage" coupon of 0-100 takes between zero and the whole subtotal; any other type takes exactly its value |
| Coupons.RedeemKeepsLedger | golang/checkout.go:336-367 | a redemption keeps every capped coupon within its cap and every usage row at 0 or 1; the count rises by exactly one and the user's usage becomes exactly one |
| Coupons.NoSecondRedemption | golang/checkout.go:336-348 | after a redemption, the same user presenting the same code again is refused, at any time and with any subtotal |
| Inventory.WarehouseFor | golang/checkout.go:381-396 | the warehouse of the user's region when the region is in the table, otherwise the us-east warehouse; always one of the four warehouses |
| Inventory.ReserveEffect | golang/checkout.go:404-426 | a successful reservation keeps the rows, never changes available stock, and raises each row of the chosen warehouse by exactly the quantity of its product over the lines; rows of other warehouses are untouched |
| Inventory.ReserveKeepsNoOversell | golang/checkout.go:404-426 | a successful reservation keeps reserved ≤ available on every row |
| Inventory.ReserveSucceedsIff | golang/checkout.go:404-426 | the reservation succeeds exactly when every line finds its row with available − reserved ≥ qty at the moment it is checked, after the earlier lines' reservations |
| Inventory.ReserveDistinctIff | golang/checkout.go:404-426 | for one line per product, the reservation succeeds exactly when every line's row exists with available − reserved ≥ qty |
| RedisKeys.Itoa | golang/checkout.go:129 | the decimal text has no colon; for n ≥ 0 it is all digits with value n; for negative n it is a minus sign and the digits of −n |
| RedisKeys.ItoaInjective | golang/checkout.go:128-129 | different numbers print differently |
| RedisKeys.IdempotencyAndLockKeysInjective | golang/checkout.go:117 | different payment references have different idempotency keys, and different users have different lock keys |
| RedisKeys.RateLimitKeyInjective | golang/checkout.go:128-129 | different (user, minute) pairs have different rate-limit keys, whatever the user id contains |
| RedisKeys.GlobMatchesPrefix | golang/checkout.go:434 | for a p that holds no `[` class and no `\` escape, the pattern p* matches every key that starts with p |
| RedisKeys.GlobLiteralPrefix | golang/checkout.go:434 | when p holds no pattern syntax at all, p* matches only keys that start with p |
| RedisKeys.ClassMatch | golang/checkout.go:434 | a `[...]` class consumes no more than the rest of the pattern, and a leading `^` inverts the verdict of the class that follows |
| RedisKeys.GlobLiteralStep | golang/checkout.go:434 | a pattern-syntax-free head is matched by exactly itself: p + q matches p + k exactly when q matches k |
| RedisKeys.SummaryPatternCoversPrefix | golang/checkout.go:434 | for a user id without `[` or `\`, the user's deletion pattern matches every key that begins "cache:user:" + id + ":summary:" |
| RedisKeys.SummaryPatternOnlyPrefix | golang/checkout.go:434 | for a user id without pattern syntax, every key the deletion pattern matches begins "cache:user:" + id + ":summary:" |
| RedisKeys.SummaryPatternIsPrefix | golang/checkout.go:434 | both directions together: the deletion pattern covers the summary prefix (ids without `[` or `\`) and matches nothing else (ids without pattern syntax) |
| CheckoutSpec.LoadLines | golang/checkout.go:188-211 | one line per stored item whose product row exists (the inner join's count), each naming a product that exists |
| CheckoutSpec.OrderItemsFor | golang/checkout.go:261-277 | one order item per line, in line order, with this order's id and the line's product, quantity and unit price |
| CheckoutSpec.Transaction | golang/checkout.go:165-316 | a failed transaction leaves every table as it was, and fails only with a cart, coupon or inventory error or the unique violation of a taken order id |
| CheckoutSpec.SurvivingSummaryKeys | golang/checkout.go:433-437 | only cached keys survive; for an id without `[` or `\` no key with the user's summary prefix survives; for an id without pattern syntax the survivors are exactly the keys without that prefix |
| CheckoutSpec.CheckRequest | golang/checkout.go:82-89 | a request passes exactly when user, cart and payment reference are non-empty and the item list is non-empty; it is refused for identifiers exactly when one of the three is empty |
| CheckoutSpec.Reply | golang/checkout.go:91-110 | 200 exactly on success, with the response as body; a failure is answered with its message and a status ≥ 400; for named errors and unrecognised infrastructure failures, 429 exactly for the rate limit, 409 exactly for a held lock or missing stock, 400 exactly for the cart and coupon failures, 500 exactly for infrastructure |
| CheckoutProperties.LoadLinesKeepsAll | golang/checkout.go:188-211 | when every item's product exists, every item is loaded, in order, with product, quantity, price and product status |
| CheckoutProperties.LoadLinesIsJoin | golang/checkout.go:188-211 | in general, the lines are the items filtered by product existence, in order: the item at i whose product exists is line number (count of joined items before i), with its product, quantity, price and product status |
| CheckoutProperties.TransactionErrors | golang/checkout.go:177-258 | CartInvalid exactly when the cart is not the user's open cart; CartEmpty exactly when it is but no line loads; then the coupon's own error; InsufficientInventory exactly when only the stock fails; the unique-violation failure exactly when all that passes but the order id is taken; success exactly when cart, lines, coupon, stock and a fresh id all pass |
| CheckoutProperties.TransactionSuccess | golang/checkout.go:241-315 | on success the order id was fresh and the cart goes open → closed; exactly one order is added, a pending order of the user; its totals are PriceOrder of the stored lines' subtotal, the discount and the line count; the response total equals the order total and is max(0, subtotal − discount + tax + shipping) |
| CheckoutProperties.TransactionSuccessRows | golang/checkout.go:250-301 | on success the order items are the old ones followed by one per line, copying quantity and price; exactly one ORDER_CREATED event is appended; available stock is unchanged on every row; products, cart items and regions are untouched |
| CheckoutProperties.DuplicateOrderIdFails | golang/checkout.go:250-257 | an order id already in the orders table makes a transaction that would otherwise succeed fail with the unique-violation error and leaves every table as it was |
| CheckoutProperties.DuplicateOrderIdAnswered500 | golang/checkout.go:91-110 | that unique-violation failure is answered 500 |
| CheckoutProperties.TransactionDiscount | golang/checkout.go:216-229 | without a coupon the discount is zero and the coupon tables are unchanged; with one, the discount is the coupon's discount on the subtotal, its count rises by one and the user's usage by one |
| CheckoutProperties.TransactionKeepsInvariants | golang/checkout.go:216-239 | every transaction keeps coupon caps, one use per user and coupon, and reserved ≤ available |
| CheckoutProperties.CartCheckedOutOnce | golang/checkout.go:177-185 | after a successful checkout of a cart, any later transaction on that cart fails with CartInvalid |
| CheckoutProperties.CouponRedeemedOncePerUser | golang/checkout.go:336-348 | after a successful checkout with a coupon, no later checkout of the same user with that coupon succeeds |
| CheckoutProperties.ReplayReturnsStoredResponse | golang/checkout.go:117-125 | with a stored response for the payment reference, that response is returned and nothing in the database or cache changes |
| CheckoutProperties.RateLimitGate | golang/checkout.go:127-139 | every non-replayed call raises its (user, minute) counter by exactly one and keeps it; it is refused as RateLimited exactly when the new count exceeds ten, and then no table changes |
| CheckoutProperties.LockDiscipline | golang/checkout.go:141-150 | the set of held locks is the same after every call; a call passing the rate limit while the user's lock is held fails with CheckoutInProgress and leaves the tables unchanged |
| CheckoutProperties.IdempotencyOnSuccessOnly | golang/checkout.go:152-162 | a failing call adds no idempotency entry and writes no table; a successful new call stores exactly the response it returns under its payment reference |
| CheckoutProperties.ProcessRunsTransaction | golang/checkout.go:152-162 | a call passing the three gates has the transaction's result and tables; on success the user's summaries are deleted and the order is appended to the stream |
| CheckoutProperties.ProcessKeepsInvariants | golang/checkout.go:113-163 | every call keeps the coupon and stock invariants |
| CheckoutProperties.RetryAfterSuccessReplays | golang/checkout.go:117-125 | after a successful checkout, a retry with the same payment reference returns the same response and changes nothing, so the two calls create one order |
| CheckoutProperties.RunRateLimited | golang/checkout.go:127-139 | in a run of new checkouts of one user within one minute, the i-th is rate limited exactly when the initial count + i + 1 exceeds ten, whatever happens to each call |
| CheckoutProperties.TenthPassesEleventhIsLimited | golang/checkout.go:127-139 | of eleven new checkouts of one user in a fresh minute, the tenth passes the rate limit and the eleventh is refused |
| CheckoutEngine.Engine.constructor | golang/checkout.go:59-69 | the engine starts with the given tables and cache |
| CheckoutEngine.Engine.Rollback | golang/checkout.go:173 | the tables return to the snapshot taken at Begin |
| CheckoutEngine.Engine.LoadCartItems | golang/checkout.go:188-211 | the scan loop loads exactly LoadLines of the stored items |
| CheckoutEngine.Engine.ProcessCoupon | golang/checkout.go:318-379 | on refusal it returns the error that Redeem gives and writes nothing; on acceptance it writes the coupon and usage tables as Redeem does, returns Redeem's discount, and changes nothing else |
| CheckoutEngine.Engine.RecordCouponUse | golang/checkout.go:350-367 | the coupon and usage tables become RecordUse of the old ones; nothing else changes |
| CheckoutEngine.Engine.CouponStage | golang/checkout.go:216-229 | the coupon step ends as CouponStep says: with no coupon, no discount and no write |
| CheckoutEngine.Engine.ReserveInventory | golang/checkout.go:398-427 | the loop succeeds exactly when Reserve does and then leaves Reserve's table; no other table changes |
| CheckoutEngine.Engine.InsertOrderItems | golang/checkout.go:261-277 | the loop appends exactly OrderItemsFor of the lines |
| CheckoutEngine.Engine.WriteOrder | golang/checkout.go:241-301 | writes succeed exactly when the order id is fresh; then the order row with PriceOrder's totals, its items, the closed cart and the event are written; on a taken id the database is unchanged; the returned total is the order's |
| CheckoutEngine.Engine.PostCommitRedisOps | golang/checkout.go:429-449 | the cache becomes PostCommit of the old cache |
| CheckoutEngine.Engine.ExecuteCheckoutTransaction | golang/checkout.go:165-316 | the tables and result are Transaction's; on success the cache has had the post-commit work, on failure it is unchanged |
| CheckoutEngine.Engine.ProcessCheckout | golang/checkout.go:113-163 | the tables, the cache and the result are Process's, and the business invariants are kept |
| CheckoutEngine.Engine.Checkout | golang/checkout.go:72-111 | a request failing the guard is answered 400 with the guard's message and changes nothing; any other is answered by Reply of Process's result, with Process's new state |
| Overview.NormalisePaging | golang/user_overview.go:78-83 | page and limit, as 64-bit integers, end ≥ 1; a non-positive page becomes 1 and a non-positive limit 10; positive values are kept |
| Overview.Wrap64 | golang/user_overview.go:302 | the 64-bit result of an integer computation: congruent to it modulo 2^64, and equal to it when it fits |
| Overview.Offset | golang/user_overview.go:302 | the offset is (page − 1) · limit modulo 2^64, as Go's int arithmetic gives it; when page ≥ 1, limit ≥ 0 and the product fits in int64 it is that product exactly, hence non-negative |
| Overview.OffsetWrapsAtMaxInt64 | golang/user_overview.go:302 | page MaxInt64 (what Atoi returns for a page too large to parse) with limit 10 gives the negative offset −20 |
| Overview.OffsetsAreContiguous | golang/user_overview.go:302 | page p + 1 starts exactly limit rows after page p, in 64-bit arithmetic |
| Overview.PagesAreDisjoint | golang/user_overview.go:302 | where the later page's offset fits in int64, an earlier page's rows all come before a later page's first row |
| Overview.SummaryKey | golang/user_overview.go:105-116 | both branches build "cache:user:" + user + ":summary:" + (category, or "all" when empty) + ":" + page + ":" + limit |
| Overview.SummaryKeyMatchesPattern | golang/user_overview.go:105-116 | for a user id without `[` or `\`, every summary key of the user is matched by the pattern that checkout deletes for that user |
| Overview.SummaryKeyPagingInjective | golang/user_overview.go:105-116 | for one user and category, different pages or limits give different keys |
| Overview.AllCategorySharesKey | golang/user_overview.go:105-116 | a category whose id is literally "all" shares its cache entry with the unfiltered overview |
| Overview.SumOrderTotals | golang/user_overview.go:145-149 | the loop computes the sum of the order totals |
| Overview.TotalSpendNonNegative | golang/user_overview.go:145-149 | orders with non-negative totals sum to a non-negative spend |
| Overview.ComputeSegment | golang/user_overview.go:346-369 | "vip" exactly for the enterprise plan or spend > 10000; otherwise "premium" exactly for the premium plan or spend > 5000; otherwise "standard" exactly for the basic plan or spend > 1000; otherwise "basic" |
| Overview.SegmentMonotoneInSpend | golang/user_overview.go:359-368 | for a fixed plan, more spend never gives a lower segment (basic < standard < premium < vip) |
| Overview.SegmentIgnoresRegion | golang/user_overview.go:346-369 | the segment does not depend on the region |
| Overview.TopProducts | golang/user_overview.go:161-166 | the ids of the first min(3, n) products, in order |
| Invalidation.CheckoutInvalidatesSummaries | golang/checkout.go:433-437 | after a successful new checkout by a user whose id holds no `[` or `\`, no summary key of the user remains cached, for any category, page or limit; for an id without pattern syntax every other user's key stays |
| Invalidation.SummaryPatternOwnsKey | golang/checkout.go:434 | for ids without ':' and a deleting id without pattern syntax, a user's pattern matches only that user's summary keys |
| Invalidation.BracketIdMatchesOtherUser | golang/checkout.go:434 | the pattern of user "[ab]" matches the summary keys of user "a", so that user's checkout deletes another user's cache |
| Invalidation.EscapeIdMissesOwnKey | golang/checkout.go:434 | the pattern of user "\b" does not match that user's own summary keys, so their cached summaries survive the checkout |
| Scenarios.NoCouponTotals | golang/checkout.go:241-248 | subtotal 55.00 on two lines without a coupon: tax 4.40, shipping 6.98, total 66.38 |
| Scenarios.TenPercentTotals | golang/checkout.go:369-378 | 10% of 55.00 is 5.50; then tax 3.96, shipping 6.98, total 60.44 |
| Scenarios.NoCouponCheckout | golang/checkout.go:165-316 | the whole transaction on that cart answers "pending" with total 66.38, closes the cart and reserves 2 and 1 units |
| Scenarios.TenPercentCheckout | golang/checkout.go:165-316 | with the 10% coupon, the total is 60.44 and the coupon's count and the user's usage become 1 |
| Scenarios.SoldOutCheckout | golang/checkout.go:404-415 | a product with 5 available and 5 reserved fails the checkout with InsufficientInventory; there is no order, the cart stays open and all tables are unchanged |
| Scenarios.TaxIsCutNotRounded | golang/checkout.go:451-453 | 8% of 10.10 is 0.808, and the tax is 0.80 |

## Left out

- **Transport and parsing.** The Fiber request parsing, its 400 answer for an
  unparsable body, and all JSON encoding and decoding are left out. This
  covers the idempotency value, the event payload and the stream fields; the
  model stores the values themselves.
- **Time and ids.** `time.Now()` and `uuid.New()` are parameters. All clock
  reads of one call are one instant `now`. Order-item ids are not modelled,
  since nothing reads them. Nor are the database's `NOW()` timestamps:
  `orders.created_at`, `carts.updated_at`, `events.created_at` and
  `inventory.updated_at`. Nothing in the checkout or the overview computed
  here reads them.
- **TTLs and expiry.** The 90 s counter TTL, the 5 s lock TTL and the 10 min
  idempotency TTL are left out. Entries never expire in the model.
- **Concurrency.** `FOR UPDATE` row locks and interleavings of concurrent
  requests are left out; the model is sequential. The per-user lock is set
  membership only.
- **Infrastructure failures.** Failures of `Begin`, `Commit`, a query, the
  Redis client or the scan are not produced. The one `Infrastructure` error
  the model produces is the unique violation of a taken order id. `INCR` and
  `SETNX` are assumed to succeed.
- **Post-commit delivery.** Errors of post-commit cache calls are ignored in
  the source and are not modelled. `ZIncrBy` and `XAdd` are recorded as a
  score map and an appended sequence, with no reasoning about delivery.
- **Floating point.** float64 rounding of money is idealised to exact reals.
  The tax truncation near a cent boundary can therefore differ from the Go
  float result by one cent.
- **Overview database reads.** The overview's database and cache reads are
  not part of this model: `getCachedUser`, `getUserFromDB`, `cacheUser`,
  `getRecentOrders`, `getCurrentCart`, the `getRecommendedProducts` queries,
  the summary cache lookup and write, and the metrics counter.
- **Overview response.** The cart age and the assembly of the overview
  response are left out.
- **Segment hash loop.** The unused hash loop of `computeSegment` is left
  out; it does not affect the result.
- **Paging parse.** `strconv.Atoi` is not modelled; page and limit enter as
  the int64 it returns. That is 0 for text that is not a number, which
  normalisation turns into 1 or 10, and MaxInt64 (MinInt64 for a negative
  number) for a number out of range, which is kept as a page or limit and
  can make the offset wrap (`Overview.OffsetWrapsAtMaxInt64`).
- RedisKeys.Glob: differs from Redis's pattern matcher in three ways.
  - Redis matches an empty key only against the empty pattern, while `Glob`
    lets `*` match it. This never arises here, because the keys built here
    are never empty.
  - Redis gives up past 1000 nested `*`. This never arises either: each
    summary pattern has one trailing `*`, plus whatever syntax the user id
    brings.
  - Redis matches the UTF-8 bytes of key and pattern, while `Glob` matches
    characters. So where Redis's `?` or `[...]` takes one byte, `Glob`'s
    takes one whole character, and ranges compare code points instead of
    bytes. For example, `Glob("a?b", "aéb")` holds, but Redis does not match
    it, because é is two bytes. For a user id that mixes non-ASCII text with
    `?` or `[...]`, `SurvivingSummaryKeys` can therefore keep or delete
    different keys than the real `KEYS` + `DEL`. The lemmas about the
    deletion pattern are unaffected: the ids their conditions allow match
    byte by byte exactly as they match character by character.
- RedisKeys.GlobMatchesPrefix: stated only for a prefix without `[` or `\`.
  Such syntax in the prefix is read as a class or an escape, and p* then
  need not match p itself.
- RedisKeys.GlobLiteralPrefix: stated only for a prefix without any pattern
  syntax. A prefix with `*`, `?` or a class matches keys it is not a prefix of.
- Overview.SummaryKeyMatchesPattern: stated only for user ids without `[` or
  `\`. The route accepts any id; for such ids the deletion pattern can miss
  the user's own keys (`Invalidation.EscapeIdMissesOwnKey`).
- Invalidation.CheckoutInvalidatesSummaries: the deletion is promised only for
  ids without `[` or `\`, and the survival of other users' keys only for ids
  without pattern syntax. Outside these, the source itself deletes too little
  (`Invalidation.EscapeIdMissesOwnKey`) or too much
  (`Invalidation.BracketIdMatchesOtherUser`).
- Invalidation.SummaryPatternOwnsKey: stated only for ids without ':' and a
  deleting id without pattern syntax. An id with ':' can share a key prefix
  with another user, and one with `*`, `?` or `[` can match other users' keys
  (`Invalidation.BracketIdMatchesOtherUser`).
- Overview.PagesAreDisjoint: stated only where the later page's offset fits in
  int64. Beyond that the offset wraps, and pages can overlap or go negative
  (`Overview.OffsetWrapsAtMaxInt64`).
- Overview.Offset: exact and non-negative only where (page − 1) · limit fits in
  int64; elsewhere only its congruence modulo 2^64 is stated, which determines
  it.
- **Other files.** golang/main.go (configuration, clients, routing) and
  golang/seeder.go (random load generation) are not part of this model.
