/**
 * The rows and messages the checkout engine reads and writes
 * (golang/checkout.go, types at lines 23-57, tables used in the SQL text).
 * Money is an exact `real` (the source uses float64).
 */
module Records {

  /** One entry of the request body's `items` list; only checked to be non-empty. */
  datatype RequestItem = RequestItem(productId: string, qty: int)

  /** The JSON body of `POST checkout`. An absent coupon is the empty string. */
  datatype CheckoutRequest = CheckoutRequest(
    userId: string,
    cartId: string,
    items: seq<RequestItem>,
    coupon: string,
    paymentRef: string)

  /** What a successful checkout returns, and what the idempotency cache stores. */
  datatype CheckoutResponse = CheckoutResponse(orderId: string, status: string, total: real)

  /** A row of `carts`: its owner and its status ("open" or "closed"). */
  datatype Cart = Cart(owner: string, status: string)

  /** A row of `cart_items`: the price is the snapshot taken when the cart was built. */
  datatype CartItem = CartItem(productId: string, qty: int, unitPrice: real)

  /** A cart item joined with its product's status (`CartItemDB`). */
  datatype CartLine = CartLine(productId: string, qty: int, unitPrice: real, productStatus: string)

  /** The derived money columns of an order. */
  datatype Totals = Totals(subtotal: real, discount: real, tax: real, shipping: real, total: real)

  /** A row of `orders`. */
  datatype Order = Order(userId: string, status: string, totals: Totals)

  /** A row of `order_items` (its own UUID is never read and is not modelled). */
  datatype OrderItem = OrderItem(orderId: string, productId: string, qty: int, unitPrice: real)

  /** A row of `events`; the payload's fields are kept as fields. */
  datatype Event = Event(userId: string, kind: string, orderId: string, total: real, cartId: string)

  /** An entry appended to the `stream:order_events` stream after commit. */
  datatype StreamEntry = StreamEntry(userId: string, orderId: string, total: real)
}
