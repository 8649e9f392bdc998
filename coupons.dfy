/**
 * The coupon ledger of the checkout transaction (`processCoupon`,
 * golang/checkout.go:318-379): the eligibility checks, the recorded use and
 * the discount, as functions of the two tables involved.
 */
module Coupons {
  import opened Wrappers
  import opened Errors

  /** A row of `coupons`; `maxUses` is the nullable cap, `startsAt`/`endsAt` are instants. */
  datatype Coupon = Coupon(
    kind: string,
    value: real,
    maxUses: Option<int>,
    usedCount: int,
    startsAt: int,
    endsAt: int)

  /** `coupons`, keyed by code. */
  type CouponTable = map<string, Coupon>

  /** `user_coupon_usage`, keyed by (user, coupon code). */
  type UsageTable = map<(string, string), int>

  /** The user's recorded uses of a code; an absent row reads as no use. */
  function UsageOf(usage: UsageTable, userId: string, code: string): int
  {
    if (userId, code) in usage then usage[(userId, code)] else 0
  }

  /** `!now.Before(startsAt) && !now.After(endsAt)`: the window includes both ends. */
  predicate InWindow(c: Coupon, now: int)
  {
    !(now < c.startsAt) && !(now > c.endsAt)
  }

  /** No cap, or fewer uses than the cap. */
  predicate BelowCap(c: Coupon)
  {
    c.maxUses.None? || c.usedCount < c.maxUses.value
  }

  /**
   * The checks of lines 325-348, in their order: `None` accepts the coupon,
   * otherwise the error that ends the transaction.
   */
  function CouponDecision(coupons: CouponTable, usage: UsageTable, userId: string, code: string, now: int)
    : (r: Option<CheckoutError>)
    ensures r == None <==>
      code in coupons && InWindow(coupons[code], now) && BelowCap(coupons[code]) && UsageOf(usage, userId, code) < 1
    ensures r == Some(CouponAlreadyUsed) <==>
      code in coupons && InWindow(coupons[code], now) && BelowCap(coupons[code]) && UsageOf(usage, userId, code) >= 1
    ensures r.Some? ==> r.value == CouponInvalid || r.value == CouponAlreadyUsed
  {
    if code !in coupons then Some(CouponInvalid)
    else if !InWindow(coupons[code], now) then Some(CouponInvalid)
    else if !BelowCap(coupons[code]) then Some(CouponInvalid)
    else if UsageOf(usage, userId, code) >= 1 then Some(CouponAlreadyUsed)
    else None
  }

  /**
   * The two writes of lines 351-367: the usage upsert (insert 1, or add 1 on
   * conflict) and the coupon's `used_count + 1`. Nothing else changes.
   */
  function RecordUse(coupons: CouponTable, usage: UsageTable, userId: string, code: string)
    : (r: (CouponTable, UsageTable))
    requires code in coupons
    ensures r.0.Keys == coupons.Keys && r.1.Keys == usage.Keys + {(userId, code)}
    ensures r.0[code] == coupons[code].(usedCount := coupons[code].usedCount + 1)
    ensures forall other :: other in coupons && other != code ==> r.0[other] == coupons[other]
    ensures r.1[(userId, code)] == UsageOf(usage, userId, code) + 1
    ensures forall k :: k in usage && k != (userId, code) ==> r.1[k] == usage[k]
  {
    var c := coupons[code];
    var newUsage := if (userId, code) in usage then usage[(userId, code)] + 1 else 1;
    (coupons[code := c.(usedCount := c.usedCount + 1)], usage[(userId, code) := newUsage])
  }

  /** Lines 375-378: a percentage of the subtotal for "percentage", the flat value for any other type. */
  function Discount(c: Coupon, subtotal: real): (d: real)
    ensures c.kind == "percentage" && 0.0 <= c.value <= 100.0 && subtotal >= 0.0 ==> 0.0 <= d <= subtotal
    ensures c.kind != "percentage" ==> d == c.value
  {
    if c.kind == "percentage" then
      FractionBounds(subtotal, c.value / 100.0);
      subtotal * (c.value / 100.0)
    else c.value
  }

  /** A fraction in [0, 1] of a non-negative amount lies between zero and the amount. */
  lemma FractionBounds(x: real, f: real)
    ensures x >= 0.0 && 0.0 <= f <= 1.0 ==> 0.0 <= x * f <= x
  {
    if x >= 0.0 && 0.0 <= f <= 1.0 {
      assert x * (1.0 - f) >= 0.0;
    }
  }

  /** What a redeemed coupon leaves behind: the two tables after the writes, and the discount. */
  datatype CouponEffect = CouponEffect(coupons: CouponTable, usage: UsageTable, discount: real)

  /** `processCoupon` as a whole: the decision, then the writes and the discount. */
  function Redeem(coupons: CouponTable, usage: UsageTable, userId: string, code: string, subtotal: real, now: int)
    : Result<CouponEffect, CheckoutError>
  {
    match CouponDecision(coupons, usage, userId, code, now)
    case Some(e) => Failure(e)
    case None =>
      var (c', u') := RecordUse(coupons, usage, userId, code);
      Success(CouponEffect(c', u', Discount(coupons[code], subtotal)))
  }

  /** `used_count <= max_uses` for every capped coupon. */
  predicate WithinCaps(coupons: CouponTable)
  {
    forall code :: code in coupons && coupons[code].maxUses.Some? ==>
      coupons[code].usedCount <= coupons[code].maxUses.value
  }

  /** Every usage row records no use or exactly one. */
  predicate AtMostOncePerUser(usage: UsageTable)
  {
    forall k :: k in usage ==> 0 <= usage[k] <= 1
  }

  /**
   * A redemption keeps both ledger invariants, raises the coupon's count by
   * exactly one and leaves the user's usage at exactly one.
   */
  lemma RedeemKeepsLedger(coupons: CouponTable, usage: UsageTable, userId: string, code: string, subtotal: real, now: int)
    requires WithinCaps(coupons) && AtMostOncePerUser(usage)
    requires Redeem(coupons, usage, userId, code, subtotal, now).Success?
    ensures var eff := Redeem(coupons, usage, userId, code, subtotal, now).value;
      && WithinCaps(eff.coupons) && AtMostOncePerUser(eff.usage)
      && eff.coupons[code].usedCount == coupons[code].usedCount + 1
      && UsageOf(eff.usage, userId, code) == 1
      && eff.discount == Discount(coupons[code], subtotal)
  {
    var eff := Redeem(coupons, usage, userId, code, subtotal, now).value;
    var r := RecordUse(coupons, usage, userId, code);
    assert eff.coupons == r.0 && eff.usage == r.1;
    assert UsageOf(usage, userId, code) == 0;
    forall c | c in eff.coupons && eff.coupons[c].maxUses.Some?
      ensures eff.coupons[c].usedCount <= eff.coupons[c].maxUses.value
    {
      if c == code {
        assert BelowCap(coupons[code]);
      }
    }
  }

  /**
   * One use per (user, coupon): once a redemption has been recorded, the same
   * user presenting the same code again is refused, at any time and for any cart.
   */
  lemma NoSecondRedemption(
    coupons: CouponTable, usage: UsageTable, userId: string, code: string,
    subtotal: real, now: int, subtotal': real, now': int)
    requires AtMostOncePerUser(usage)
    requires Redeem(coupons, usage, userId, code, subtotal, now).Success?
    ensures var eff := Redeem(coupons, usage, userId, code, subtotal, now).value;
      Redeem(eff.coupons, eff.usage, userId, code, subtotal', now').Failure?
  {
    var eff := Redeem(coupons, usage, userId, code, subtotal, now).value;
    assert UsageOf(eff.usage, userId, code) == UsageOf(usage, userId, code) + 1;
    assert UsageOf(usage, userId, code) == 0;
  }
}
