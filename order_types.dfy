/** Records shared by the order controller: client line items, stored orders,
    the payment oracle's answer and the errors the controller raises. */
module OrderTypes {

  /** A catalogue product id, compared as a string (`_id.toString()`). */
  type ProductId = string
  type UserId = string
  /** Stored orders are keyed by the id the store hands out when it saves one. */
  type OrderId = nat
  /** Monetary amounts are JavaScript numbers; floating-point rounding is not modelled. */
  type Price = real
  /** Milliseconds, as returned by `Date.now()`. */
  type Time = int

  datatype Option<T> = None | Some(value: T)

  /** The errors the controller throws, each with the message it sends back. */
  datatype Error =
    | NoOrderItems
    | ProductsNotFound
    | PaymentNotVerified
    | TransactionUsed
    | OrderNotFound
    | IncorrectAmount
  {
    function Message(): string {
      match this
      case NoOrderItems => "No order items"
      case ProductsNotFound => "Some products not found"
      case PaymentNotVerified => "Payment not verified"
      case TransactionUsed => "Transaction has been used before"
      case OrderNotFound => "Order not found"
      case IncorrectAmount => "Incorrect amount paid"
    }
  }

  datatype Result<T> = Ok(value: T) | Err(error: Error)

  /** A line item as the client submits it: `_id` names the product and
      `price` is whatever the client claims. */
  datatype ClientItem = ClientItem(id: ProductId, name: string, image: string, qty: int, price: Price)

  /** A line item as it is stored: the client's fields, `product` set to the
      client's `_id`, `price` taken from the catalogue and no `_id` of its own. */
  datatype OrderItem = OrderItem(product: ProductId, name: string, image: string, qty: int, price: Price)

  /** What `calcPrices` returns for a list of line items. */
  datatype Totals = Totals(itemsPrice: Price, taxPrice: Price, shippingPrice: Price, totalPrice: Price)

  /** The request body of a settlement: the PayPal transaction id and the
      payer details that are copied into the order. */
  datatype PaymentDetails = PaymentDetails(id: string, status: string, updateTime: string, payerEmail: string)

  /** The answer of `verifyPayPalPayment`: whether the payment is genuine and
      the amount PayPal settled, as a string. */
  datatype Verification = Verification(verified: bool, value: string)

  datatype PaymentResult = PaymentResult(id: string, status: string, updateTime: string, emailAddress: string)

  datatype Order = Order(
    user: UserId,
    orderItems: seq<OrderItem>,
    shippingAddress: string,
    paymentMethod: string,
    itemsPrice: Price,
    taxPrice: Price,
    shippingPrice: Price,
    totalPrice: Price,
    isPaid: bool,
    paidAt: Option<Time>,
    paymentResult: Option<PaymentResult>,
    isDelivered: bool,
    deliveredAt: Option<Time>)
  {
    /** The four amounts of the order, in the shape `calcPrices` returns them. */
    function Prices(): Totals {
      Totals(itemsPrice, taxPrice, shippingPrice, totalPrice)
    }
  }
}
