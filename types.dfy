/** Value types shared by the order actions and the cart store (the storefront's `@/types`).
    Every amount of money is a whole number of cents. */
module Types {

  datatype Option<+T> = None | Some(value: T)

  /** The failures the order actions report as `{success: false, message}` and the cart store throws. */
  datatype Error =
    | NotAuthenticated     // 'User not authenticated'
    | ValidationFailed     // the order input schema rejected the order
    | OrderNotFound        // 'Order not found'
    | TotalPriceMissing    // 'Order total price is missing'
    | ProviderOrderFailed  // 'Failed to create PayPal order' (or the provider call itself failed)
    | PaymentNotVerified   // 'Error in PayPal payment'
    | ReceiptFailed        // the purchase receipt could not be sent after the order was saved
    | MalformedCapture     // a TypeError reading a field the capture reply lacks
    | NotEnoughStock       // 'Not enough items in stock'

  datatype Result<+T> = Ok(value: T) | Err(error: Error)

  /** A cart or order line: a snapshot of a product variant with its unit price (cents),
      the stock count seen when it was added, and a client-generated correlation id. */
  datatype OrderItem = OrderItem(
    clientId: string,
    product: string,
    name: string,
    slug: string,
    image: string,
    price: int,
    countInStock: int,
    quantity: int,
    color: string,
    size: string)

  /** price × quantity of one line, in cents. */
  function LineTotal(x: OrderItem): int
  {
    x.price * x.quantity
  }

  datatype ShippingAddress = ShippingAddress(
    fullName: string,
    street: string,
    city: string,
    postalCode: string,
    country: string,
    phone: string)

  /** One delivery tier of the fixed delivery-date catalogue. */
  datatype DeliveryDate = DeliveryDate(
    name: string,
    daysToDeliver: int,
    shippingPrice: int,
    freeShippingMinPrice: int)

  /** The client-side cart. The optional fields are `undefined` until something sets them;
      expectedDeliveryDate is a timestamp. */
  datatype Cart = Cart(
    items: seq<OrderItem>,
    itemsPrice: int,
    taxPrice: Option<int>,
    shippingPrice: Option<int>,
    totalPrice: int,
    paymentMethod: Option<string>,
    shippingAddress: Option<ShippingAddress>,
    deliveryDateIndex: Option<int>,
    expectedDeliveryDate: Option<int>)
}
