/**
 * The errors of the checkout engine, one variant per message string it
 * returns, and the handler's mapping from message to HTTP status
 * (golang/checkout.go:92-107).
 */
module Errors {

  datatype CheckoutError =
    | RateLimited
    | CheckoutInProgress
    | CartInvalid
    | CartEmpty
    | CouponInvalid
    | CouponAlreadyUsed
    | InsufficientInventory
      /** An error of the database or cache client, carrying its own text. */
    | Infrastructure(text: string)

  /** The text of `err.Error()` for each error. */
  function Message(e: CheckoutError): string
  {
    match e
    case RateLimited => "Rate limit exceeded"
    case CheckoutInProgress => "Checkout in progress"
    case CartInvalid => "Cart not found or not open"
    case CartEmpty => "Cart is empty"
    case CouponInvalid => "Invalid or expired coupon"
    case CouponAlreadyUsed => "Coupon already used"
    case InsufficientInventory => "Insufficient inventory"
    case Infrastructure(text) => text
  }

  const STATUS_OK := 200
  const STATUS_BAD_REQUEST := 400
  const STATUS_CONFLICT := 409
  const STATUS_TOO_MANY_REQUESTS := 429
  const STATUS_INTERNAL_SERVER_ERROR := 500

  /** The messages the handler's switch recognises. */
  predicate IsKnownMessage(msg: string)
  {
    msg == "Rate limit exceeded" || msg == "Checkout in progress"
    || msg == "Cart not found or not open" || msg == "Cart is empty"
    || msg == "Invalid or expired coupon" || msg == "Coupon already used"
    || msg == "Insufficient inventory"
  }

  /** The `switch err.Error()` of the handler: the status is chosen by the message text alone. */
  function StatusForMessage(msg: string): (status: int)
    ensures !IsKnownMessage(msg) ==> status == STATUS_INTERNAL_SERVER_ERROR
    ensures status >= STATUS_BAD_REQUEST
  {
    if msg == "Rate limit exceeded" then STATUS_TOO_MANY_REQUESTS
    else if msg == "Checkout in progress" then STATUS_CONFLICT
    else if msg == "Cart not found or not open" || msg == "Cart is empty"
         || msg == "Invalid or expired coupon" || msg == "Coupon already used" then STATUS_BAD_REQUEST
    else if msg == "Insufficient inventory" then STATUS_CONFLICT
    else STATUS_INTERNAL_SERVER_ERROR
  }

  /** True for errors whose text is not one the switch recognises. */
  predicate IsUnnamed(e: CheckoutError)
  {
    e.Infrastructure? && !IsKnownMessage(e.text)
  }

  /**
   * The status a failed checkout is answered with. For every named error and
   * every infrastructure error with an unrecognised text: 429 exactly for the
   * rate limit, 409 exactly for a held lock or missing stock, 400 exactly for
   * the cart and coupon validation failures, 500 exactly for the rest.
   */
  function StatusOf(e: CheckoutError): (status: int)
    ensures !e.Infrastructure? || IsUnnamed(e) ==>
      && (status == STATUS_TOO_MANY_REQUESTS <==> e == RateLimited)
      && (status == STATUS_CONFLICT <==> e == CheckoutInProgress || e == InsufficientInventory)
      && (status == STATUS_BAD_REQUEST <==>
            e == CartInvalid || e == CartEmpty || e == CouponInvalid || e == CouponAlreadyUsed)
      && (status == STATUS_INTERNAL_SERVER_ERROR <==> e.Infrastructure?)
  {
    StatusForMessage(Message(e))
  }

  /** The named errors have pairwise distinct texts, so matching on the text loses nothing. */
  lemma MessagesDistinct(e1: CheckoutError, e2: CheckoutError)
    requires !e1.Infrastructure? && !e2.Infrastructure?
    requires Message(e1) == Message(e2)
    ensures e1 == e2
  {
  }

  /**
   * An infrastructure error whose text happens to equal a named message is
   * answered with that message's status, not with 500.
   */
  lemma InfrastructureTextDecidesStatus(text: string)
    requires IsKnownMessage(text)
    ensures StatusOf(Infrastructure(text)) != STATUS_INTERNAL_SERVER_ERROR
  {
  }
}
