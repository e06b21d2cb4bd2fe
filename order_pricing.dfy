/** The pricing rules of `calcDeliveryDateAndPrice`: items total, delivery tier,
    shipping, a flat 15% tax and the grand total. All amounts are whole cents, so
    rounding to two decimals leaves every sum unchanged and only the tax is rounded. */
module OrderPricing {
  import opened Types

  /** The tax rate, in percent. */
  const TaxRatePercent: int := 15

  /** The sum of price × quantity over the lines (the `reduce` starting at 0). */
  function ItemsTotal(items: seq<OrderItem>): int
  {
    if items == [] then 0 else LineTotal(items[0]) + ItemsTotal(items[1..])
  }

  lemma {:induction false} ItemsTotalAppend(a: seq<OrderItem>, b: seq<OrderItem>)
    ensures ItemsTotal(a + b) == ItemsTotal(a) + ItemsTotal(b)
  {
    if a == [] {
      assert a + b == b;
    } else {
      assert (a + b)[1..] == a[1..] + b;
      ItemsTotalAppend(a[1..], b);
    }
  }

  /** Replacing one line changes the total by the difference of the two line totals. */
  lemma {:induction false} ItemsTotalUpdate(s: seq<OrderItem>, k: nat, v: OrderItem)
    requires k < |s|
    ensures ItemsTotal(s[k := v]) == ItemsTotal(s) - LineTotal(s[k]) + LineTotal(v)
  {
    if k == 0 {
      assert s[k := v][1..] == s[1..];
    } else {
      assert s[k := v][1..] == s[1..][k - 1 := v];
      ItemsTotalUpdate(s[1..], k - 1, v);
    }
  }

  /** 15% of itemsPrice rounded half up to a whole cent (`round2(itemsPrice * 0.15)`). */
  function Tax(itemsPrice: int): (t: int)
    ensures -50 < 100 * t - TaxRatePercent * itemsPrice <= 50
  {
    (TaxRatePercent * itemsPrice + 50) / 100
  }

  /** The tier index: the one given, or the last tier when none is given. */
  function ResolvedIndex(deliveryDateIndex: Option<int>, deliveryDates: seq<DeliveryDate>): int
  {
    match deliveryDateIndex
    case None => |deliveryDates| - 1
    case Some(i) => i
  }

  /** `AVAILABLE_DELIVERY_DATES[i]`, which is undefined when i addresses no tier. */
  function TierAt(deliveryDates: seq<DeliveryDate>, i: int): Option<DeliveryDate>
  {
    if 0 <= i < |deliveryDates| then Some(deliveryDates[i]) else None
  }

  /** Shipping: undefined without an address or a tier, free at or above a positive
      threshold, otherwise the tier's flat price. */
  function Shipping(address: Option<ShippingAddress>, tier: Option<DeliveryDate>, itemsPrice: int): Option<int>
  {
    if address.None? || tier.None? then None
    else if tier.value.freeShippingMinPrice > 0 && itemsPrice >= tier.value.freeShippingMinPrice then Some(0)
    else Some(tier.value.shippingPrice)
  }

  /** An undefined (or zero) amount counts as 0 in the total. */
  function OrZero(x: Option<int>): int
  {
    match x
    case None => 0
    case Some(v) => v
  }

  /** What `calcDeliveryDateAndPrice` returns (its AVAILABLE_DELIVERY_DATES echo aside). */
  datatype Pricing = Pricing(
    deliveryDateIndex: int,
    itemsPrice: int,
    shippingPrice: Option<int>,
    taxPrice: int,
    totalPrice: int)

  function CalcDeliveryDateAndPrice(
    items: seq<OrderItem>,
    shippingAddress: Option<ShippingAddress>,
    deliveryDateIndex: Option<int>,
    deliveryDates: seq<DeliveryDate>): (p: Pricing)
    ensures p.itemsPrice == ItemsTotal(items)
    ensures deliveryDateIndex.None? ==> p.deliveryDateIndex == |deliveryDates| - 1
    ensures deliveryDateIndex.Some? ==> p.deliveryDateIndex == deliveryDateIndex.value
    ensures p.shippingPrice.None? <==>
              shippingAddress.None? || !(0 <= p.deliveryDateIndex < |deliveryDates|)
    ensures p.shippingPrice.Some? ==>
              var tier := deliveryDates[p.deliveryDateIndex];
              p.shippingPrice.value ==
                if tier.freeShippingMinPrice > 0 && p.itemsPrice >= tier.freeShippingMinPrice
                then 0 else tier.shippingPrice
    ensures -50 < 100 * p.taxPrice - TaxRatePercent * p.itemsPrice <= 50
    ensures p.totalPrice == p.itemsPrice + OrZero(p.shippingPrice) + p.taxPrice
  {
    var itemsPrice := ItemsTotal(items);
    var index := ResolvedIndex(deliveryDateIndex, deliveryDates);
    var shippingPrice := Shipping(shippingAddress, TierAt(deliveryDates, index), itemsPrice);
    var taxPrice := Tax(itemsPrice);
    Pricing(index, itemsPrice, shippingPrice, taxPrice, itemsPrice + OrZero(shippingPrice) + taxPrice)
  }

  /** `{...cart, ...calcDeliveryDateAndPrice(...)}`: the computed fields replace the cart's. */
  function ApplyPricing(cart: Cart, p: Pricing): Cart
  {
    cart.(itemsPrice := p.itemsPrice,
          shippingPrice := p.shippingPrice,
          taxPrice := Some(p.taxPrice),
          totalPrice := p.totalPrice,
          deliveryDateIndex := Some(p.deliveryDateIndex))
  }

  /** Omitting the index and passing the last index price a cart identically. */
  lemma DefaultIndexIsLastTier(
    items: seq<OrderItem>, shippingAddress: Option<ShippingAddress>, deliveryDates: seq<DeliveryDate>)
    ensures CalcDeliveryDateAndPrice(items, shippingAddress, None, deliveryDates)
         == CalcDeliveryDateAndPrice(items, shippingAddress, Some(|deliveryDates| - 1), deliveryDates)
  {
  }

  /** Reaching a positive free-shipping threshold makes shipping free for any address. */
  lemma FreeShippingAtThreshold(
    items: seq<OrderItem>, shippingAddress: ShippingAddress, i: int, deliveryDates: seq<DeliveryDate>)
    requires 0 <= i < |deliveryDates|
    requires deliveryDates[i].freeShippingMinPrice > 0
    requires ItemsTotal(items) >= deliveryDates[i].freeShippingMinPrice
    ensures var p := CalcDeliveryDateAndPrice(items, Some(shippingAddress), Some(i), deliveryDates);
            p.shippingPrice == Some(0) && p.totalPrice == p.itemsPrice + p.taxPrice
  {
  }

  function SampleItem(clientId: string, price: int): OrderItem
  {
    OrderItem(clientId, clientId, clientId, clientId, "", price, 10, 1, "", "")
  }

  /** Two items at $10 and $20, one each, no address: 30.00 + 4.50 tax = 34.50, no shipping. */
  lemma TwoItemsWithoutAddress(deliveryDates: seq<DeliveryDate>)
    ensures var p := CalcDeliveryDateAndPrice(
              [SampleItem("a", 1000), SampleItem("b", 2000)], None, None, deliveryDates);
            p.itemsPrice == 3000 && p.shippingPrice == None && p.taxPrice == 450 && p.totalPrice == 3450
  {
    assert ItemsTotal([SampleItem("a", 1000), SampleItem("b", 2000)]) == 3000;
  }

  /** The same cart shipped on a $5 tier that is free from $50: 30.00 + 5.00 + 4.50 = 39.50. */
  lemma TwoItemsShippedBelowThreshold(shippingAddress: ShippingAddress)
    ensures var p := CalcDeliveryDateAndPrice(
              [SampleItem("a", 1000), SampleItem("b", 2000)], Some(shippingAddress), None,
              [DeliveryDate("Standard", 5, 500, 5000)]);
            p.shippingPrice == Some(500) && p.taxPrice == 450 && p.totalPrice == 3950
  {
    assert ItemsTotal([SampleItem("a", 1000), SampleItem("b", 2000)]) == 3000;
  }
}
