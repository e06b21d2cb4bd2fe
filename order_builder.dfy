/** Turning a client cart into an order (`createOrder`, `createOrderFromCart`).
    `calcDeliveryDateAndPrice` is asynchronous and `createOrderFromCart` spreads its
    result without awaiting it. A pending Promise has no own properties, so the spread
    adds nothing, and the order keeps the price fields the client sent. The repricing the
    code evidently intends is modelled beside it (`ServerCart`, `CreateOrderFromRepricedCart`). */
module OrderBuilder {
  import opened Types
  import opened OrderPricing

  /** The authenticated session; only the user id is used. */
  datatype Session = Session(userId: string)

  /** The shape handed to the order input schema and persisted as the order. */
  datatype OrderInput = OrderInput(
    user: string,
    items: seq<OrderItem>,
    shippingAddress: Option<ShippingAddress>,
    paymentMethod: Option<string>,
    itemsPrice: int,
    shippingPrice: Option<int>,
    taxPrice: Option<int>,
    totalPrice: int,
    expectedDeliveryDate: Option<int>)

  /** The fields picked from a cart for the schema. */
  function OrderInputOf(cart: Cart, userId: string): OrderInput
  {
    OrderInput(
      userId, cart.items, cart.shippingAddress, cart.paymentMethod, cart.itemsPrice,
      cart.shippingPrice, cart.taxPrice, cart.totalPrice, cart.expectedDeliveryDate)
  }

  /** `createOrderFromCart` as written: the cart it builds is the client cart itself, so the
      schema sees the client's prices, which then become the order's. */
  function CreateOrderFromCart(client: Cart, userId: string, schema: OrderInput -> bool): (r: Result<OrderInput>)
    ensures r.Err? <==> !schema(OrderInputOf(client, userId))
    ensures r.Err? ==> r.error == ValidationFailed
    ensures r.Ok? ==>
              && r.value.user == userId
              && r.value.items == client.items
              && r.value.shippingAddress == client.shippingAddress
              && r.value.paymentMethod == client.paymentMethod
              && r.value.expectedDeliveryDate == client.expectedDeliveryDate
              && r.value.itemsPrice == client.itemsPrice
              && r.value.shippingPrice == client.shippingPrice
              && r.value.taxPrice == client.taxPrice
              && r.value.totalPrice == client.totalPrice
  {
    var input := OrderInputOf(client, userId);
    if schema(input) then Ok(input) else Err(ValidationFailed)
  }

  /** `createOrder`: no session, no order. */
  function CreateOrder(session: Option<Session>, client: Cart, schema: OrderInput -> bool): (r: Result<OrderInput>)
    ensures session.None? ==> r == Err(NotAuthenticated)
    ensures session.Some? ==> r == CreateOrderFromCart(client, session.value.userId, schema)
  {
    match session
    case None => Err(NotAuthenticated)
    case Some(s) => CreateOrderFromCart(client, s.userId, schema)
  }

  /** The intended cart: the client cart with the awaited server pricing spread over it. */
  function ServerCart(client: Cart, deliveryDates: seq<DeliveryDate>): (c: Cart)
    ensures var p := CalcDeliveryDateAndPrice(
              client.items, client.shippingAddress, client.deliveryDateIndex, deliveryDates);
            && c.itemsPrice == p.itemsPrice
            && c.shippingPrice == p.shippingPrice
            && c.taxPrice == Some(p.taxPrice)
            && c.totalPrice == p.totalPrice
            && c.deliveryDateIndex == Some(p.deliveryDateIndex)
    ensures c.items == client.items && c.shippingAddress == client.shippingAddress
    ensures c.paymentMethod == client.paymentMethod
    ensures c.expectedDeliveryDate == client.expectedDeliveryDate
  {
    ApplyPricing(client, CalcDeliveryDateAndPrice(
      client.items, client.shippingAddress, client.deliveryDateIndex, deliveryDates))
  }

  /** The intended `createOrderFromCart`: price on the server, then let the schema decide. */
  function CreateOrderFromRepricedCart(
    client: Cart, userId: string, deliveryDates: seq<DeliveryDate>, schema: OrderInput -> bool): (r: Result<OrderInput>)
    ensures r.Err? <==> !schema(OrderInputOf(ServerCart(client, deliveryDates), userId))
    ensures r.Err? ==> r.error == ValidationFailed
    ensures r.Ok? ==>
              var p := CalcDeliveryDateAndPrice(
                client.items, client.shippingAddress, client.deliveryDateIndex, deliveryDates);
              && r.value.user == userId
              && r.value.items == client.items
              && r.value.shippingAddress == client.shippingAddress
              && r.value.paymentMethod == client.paymentMethod
              && r.value.expectedDeliveryDate == client.expectedDeliveryDate
              && r.value.itemsPrice == ItemsTotal(client.items)
              && r.value.shippingPrice == p.shippingPrice
              && r.value.taxPrice == Some(p.taxPrice)
              && r.value.totalPrice == p.totalPrice
  {
    CreateOrderFromCart(ServerCart(client, deliveryDates), userId, schema)
  }

  /** As written, a total the client made up reaches the order: lines of $10 and $20 that
      claim a total of one cent become an order for one cent, where the server's pricing
      says $34.50. */
  lemma TamperedTotalReachesOrder()
    ensures var items := [SampleItem("a", 1000), SampleItem("b", 2000)];
            var client := Cart(items, 1, Some(0), None, 1, None, None, None, None);
            var accept := (o: OrderInput) => true;
            && CreateOrderFromCart(client, "u1", accept).Ok?
            && CreateOrderFromCart(client, "u1", accept).value.totalPrice == 1
            && CreateOrderFromRepricedCart(client, "u1", [], accept).Ok?
            && CreateOrderFromRepricedCart(client, "u1", [], accept).value.totalPrice == 3450
  {
    assert ItemsTotal([SampleItem("a", 1000), SampleItem("b", 2000)]) == 3000;
  }

  /** With repricing, two carts that differ only in the prices they claim become the same order. */
  lemma ClientPricesAreIgnored(
    c1: Cart, c2: Cart, userId: string, deliveryDates: seq<DeliveryDate>, schema: OrderInput -> bool)
    requires c1.items == c2.items && c1.shippingAddress == c2.shippingAddress
    requires c1.paymentMethod == c2.paymentMethod && c1.deliveryDateIndex == c2.deliveryDateIndex
    requires c1.expectedDeliveryDate == c2.expectedDeliveryDate
    ensures ServerCart(c1, deliveryDates) == ServerCart(c2, deliveryDates)
    ensures CreateOrderFromRepricedCart(c1, userId, deliveryDates, schema)
         == CreateOrderFromRepricedCart(c2, userId, deliveryDates, schema)
  {
  }

  /** Repricing a repriced cart changes nothing, so on such a cart the code as written and
      the intended repricing build the same order. */
  lemma ServerCartIdempotent(client: Cart, userId: string, deliveryDates: seq<DeliveryDate>, schema: OrderInput -> bool)
    ensures ServerCart(ServerCart(client, deliveryDates), deliveryDates) == ServerCart(client, deliveryDates)
    ensures var c := ServerCart(client, deliveryDates);
            CreateOrderFromCart(c, userId, schema) == CreateOrderFromRepricedCart(c, userId, deliveryDates, schema)
  {
  }
}
