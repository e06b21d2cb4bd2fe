# Storefront order pricing, payment capture and cart store

A Dafny model of the checkable core of a Next.js storefront:

- **Pricing** (`calcDeliveryDateAndPrice`): the items total is the sum of price × quantity. The delivery tier is picked by index, or is the last tier when no index is given. Shipping is undefined without an address or a tier, free at or above a positive threshold, and otherwise the tier's flat price. A flat 15% tax is added, then the total.
- **Order building** (`createOrder`, `createOrderFromCart`): the order input is taken from the client cart and handed to the order input schema. The server's pricing is meant to overwrite the client's price fields first, but as written it does not (see Findings). The model states both the code as written and the intended repricing.
- **Payment** (`createPayPalOrder`, `approvePayPalOrder`): phase 1 stores the provider's order id on the order. Phase 2 marks the order paid only when the capture reply exists, carries that same id and has the status `COMPLETED`. Otherwise the order is left as it was.
- **Cart store** (`useCartStore`): `addItem` merges into or appends a line keyed by (product, color, size), checks stock and reprices. `updateItem` sets quantities by client id. `removeItem` filters lines out by client id. `init` resets the cart.

Money is whole cents (`int`). Every sum of line totals is then exact, and rounding to two decimals leaves it unchanged. Only the tax is rounded: it is 15% of the items price, rounded half up to a cent.

Files, one module each:

- `types.dfy` (`Types`): the shared records.
- `order_pricing.dfy` (`OrderPricing`), `order_builder.dfy` (`OrderBuilder`) and `order_payment.dfy` (`OrderPayment`): together they model `lib/actions/order.actions.ts`.
- `cart_store.dfy` (`CartStore`): models `hooks/use-cart-store.ts`.

The pricing rules and the cart's line-list operations are pure functions. The order record and the cart store are classes. Their methods change only their own fields, and their postconditions tie the new state to those functions.

Payment is also modelled as a trace of calls (`OrderPayment.Replay` over `PaymentEvent`s). Over any sequence of phase 1 and phase 2 calls, three lemmas prove:

- the payment id stored on an order was issued by the provider in phase 1;
- an order is paid only after a `COMPLETED` capture of such an id;
- a paid order never becomes unpaid.

Points where the code behaves otherwise than one might expect are modelled as written. Where the code is evidently wrong, the model also states the intended behaviour, under Findings:

- **Unawaited repricing.** `calcDeliveryDateAndPrice` is `async`, and `createOrderFromCart` spreads its result without `await`. Spreading a pending Promise adds no fields. The schema, and then the order, therefore receive the client's own items price, shipping, tax and total. The comment at lib/actions/order.actions.ts:21, "Recalculate price and delivery date on the server", states the intent. `hooks/use-cart-store.ts:62` does await the same function.
- **Unreadable capture.** After the guard, `approvePayPalOrder` reads `payer.email_address`, `purchase_units[0]` and `payments?.captures[0]` without optional chaining at every step. A reply without `payer` or `purchase_units`, or whose first unit has `payments` but no `captures`, throws a TypeError before the save, so the order stays unpaid and the caller gets a failure.
- **Receipt failure.** The purchase receipt is awaited inside the `try` of `approvePayPalOrder`. If sending it fails, the caller gets a failure even though the order has already been saved as paid.
- **Paid orders and phase 1.** `createPayPalOrder` does not check `isPaid`. Calling it on a paid order overwrites that order's payment result with a fresh provider id, empty status and `pricePaid` `'0'`. `isPaid` itself stays true.
- **Stock checks.** `updateItem` checks no stock. For a new line, `addItem` checks the stock against the item's own `quantity`, not against the `quantity` argument that the line is given.
- **Delivery date.** `createOrderFromCart` takes `expectedDeliveryDate` from the client cart unchanged. The pricing function does not compute it.
- **Pricing after addItem.** `addItem` prices with no address and no index. Shipping therefore becomes undefined and the tier index becomes the last tier, whatever the cart held before.

## Model

| member | source | states |
|---|---|---|
| `OrderPricing.CalcDeliveryDateAndPrice` | lib/actions/order.actions.ts:132-169 | itemsPrice is the sum of price × quantity. The returned index is the last tier's when none is given and the given one otherwise. Shipping is undefined exactly when there is no address or the index addresses no tier. With both, shipping is 0 when the threshold is positive and reached, and the tier's price otherwise. Tax is 15% of itemsPrice, within half a cent. Total is items + (shipping or 0) + tax. |
| `OrderPricing.Tax` | lib/actions/order.actions.ts:154 | the tax is 15% of the items price rounded half up to a cent: 100·tax − 15·items lies in (−50, 50] |
| `OrderPricing.ItemsTotalAppend` | lib/actions/order.actions.ts:141 | the items total of two lists joined is the sum of their totals |
| `OrderPricing.ItemsTotalUpdate` | lib/actions/order.actions.ts:141 | replacing one line changes the total by the difference of the two line totals |
| `OrderPricing.DefaultIndexIsLastTier` | lib/actions/order.actions.ts:143-145 | omitting the tier index prices the cart exactly as passing the last index does |
| `OrderPricing.FreeShippingAtThreshold` | lib/actions/order.actions.ts:150-152 | with an address and a tier whose positive threshold is reached, shipping is 0 and the total is items + tax |
| `OrderPricing.TwoItemsWithoutAddress` | lib/actions/order.actions.ts:141-160 | $10 + $20 without an address: items 30.00, no shipping, tax 4.50, total 34.50 |
| `OrderPricing.TwoItemsShippedBelowThreshold` | lib/actions/order.actions.ts:148-160 | the same cart on a $5 tier that is free from $50: shipping 5.00, total 39.50 |
| `OrderBuilder.CreateOrderFromCart` | lib/actions/order.actions.ts:108-130 | as written: fails with a validation error exactly when the schema rejects the client cart's input. On success the order has the caller's user id and the client's items, address, payment method, delivery date and all four price fields, as the client sent them. |
| `OrderBuilder.TamperedTotalReachesOrder` | lib/actions/order.actions.ts:109-127 | lines of $10 and $20 claiming a total of one cent become an order for one cent as written, and an order for $34.50 with repricing |
| `OrderBuilder.ServerCart` | lib/actions/order.actions.ts:109-116 | intended: the four price fields and the tier index come from the server's pricing of the cart's items, address and index. Items, address, payment method and expected delivery date pass through unchanged. |
| `OrderBuilder.CreateOrderFromRepricedCart` | lib/actions/order.actions.ts:108-130 | intended: fails with a validation error exactly when the schema rejects the repriced input. On success the order has the caller's user id, the client's items, address, payment method and delivery date, and the server's items total, shipping, tax and total. |
| `OrderBuilder.CreateOrder` | lib/actions/order.actions.ts:15-31 | without a session the result is the authentication error; with one it is createOrderFromCart, as written, for the session's user |
| `OrderBuilder.ClientPricesAreIgnored` | lib/actions/order.actions.ts:109-127 | with the intended repricing, two client carts that differ only in the prices they claim become the same order |
| `OrderBuilder.ServerCartIdempotent` | lib/actions/order.actions.ts:109-127 | repricing an already repriced cart changes nothing, so on such a cart the code as written and the intended repricing build the same order |
| `OrderPayment.CreateIntent` | lib/actions/order.actions.ts:43-58 | phase 1 succeeds exactly when totalPrice is non-zero and the provider returned a non-empty id. It then returns that id and sets paymentResult to {id, '', '', '0'}. A zero total fails with "total price is missing" and a missing id with "failed to create PayPal order". On failure the record is unchanged. isPaid and paidAt never change. |
| `OrderPayment.Approve` | lib/actions/order.actions.ts:80-104 | the order is paid afterwards exactly when it was paid, or the capture exists, carries the stored id, is COMPLETED and can be read. A failed check reports the verification error and changes nothing. A verified reply without `payer` or `purchase_units`, or with `payments` but no `captures` on its first unit, reports a malformed capture and changes nothing. On success paidAt is now, and paymentResult keeps the stored id, with status COMPLETED, the payer's email and the price paid. A failed receipt still leaves the order paid but reports failure. |
| `OrderPayment.PricePaid` | lib/actions/order.actions.ts:94 | when the chain does not throw, the price is defined exactly when the first unit has payments, a first capture and an amount, and it is then that amount |
| `OrderPayment.CapturesWithoutListIsRejected` | lib/actions/order.actions.ts:89-96 | a verified capture whose first unit has `payments` without `captures` fails and leaves the order unpaid; with no `payments` the order is paid and no price is recorded |
| `OrderPayment.StoredIdWasIssued` | lib/actions/order.actions.ts:50-58 | over any sequence of phase 1 / phase 2 calls, the payment id an order stores was issued by the provider in phase 1 |
| `OrderPayment.PaidOnlyAfterVerifiedCapture` | lib/actions/order.actions.ts:80-90 | over any sequence of calls, a paid order has had a COMPLETED, readable capture whose id was issued by an earlier phase 1 |
| `OrderPayment.PaidIsTerminal` | lib/actions/order.actions.ts:53-58 | no sequence of later calls of either phase makes a paid order unpaid |
| `OrderPayment.MismatchedCaptureIsRejected` | lib/actions/order.actions.ts:80-86 | phase 1 stores PAY-1; a COMPLETED capture for PAY-2 leaves the order unpaid |
| `OrderPayment.Order.constructor` | lib/actions/order.actions.ts:129 | a created order holds the accepted input and starts unpaid with no payment result |
| `OrderPayment.Order.RecordPayPalOrder` | lib/actions/order.actions.ts:44-58 | the order's payment fields and the result are those of CreateIntent on the old fields |
| `OrderPayment.Order.CapturePayPalOrder` | lib/actions/order.actions.ts:80-96 | the order's payment fields and the result are those of Approve on the old fields |
| `OrderPayment.CreatePayPalOrder` | lib/actions/order.actions.ts:39-71 | a missing order fails with "order not found"; a found one goes through phase 1 |
| `OrderPayment.ApprovePayPalOrder` | lib/actions/order.actions.ts:73-106 | a missing order fails with "order not found"; a found one goes through phase 2 |
| `CartStore.FindLine` | hooks/use-cart-store.ts:31-36 | the index returned is the first line of the item's (product, color, size); none is returned exactly when no line matches |
| `CartStore.BumpMatching` | hooks/use-cart-store.ts:49-55 | same length; every line of the variant becomes the merged line and every other line is unchanged |
| `CartStore.AddToItems` | hooks/use-cart-store.ts:30-56 | with a matching line, fails exactly when its stock is below its quantity plus quantity. On success the length is kept, every line of the variant becomes the first match with its quantity raised by quantity, and every other line is unchanged. Without one, fails exactly when the item's stock is below the item's own quantity, and on success appends the item with quantity at the end. Failures are stock errors. |
| `CartStore.PricedCart` | hooks/use-cart-store.ts:58-65 | after addItem the items price is the new sum, shipping is undefined, the index is the last tier's, tax is 15% and total is items + tax. Payment method, address and delivery date are kept. |
| `CartStore.SetQuantity` | hooks/use-cart-store.ts:79-83 | same length; lines carrying the client id get the new quantity and the others are unchanged |
| `CartStore.RemoveLines` | hooks/use-cart-store.ts:100-102 | a line stays exactly when it does not carry the client id |
| `CartStore.UpdateItemInCart` | hooks/use-cart-store.ts:77-96 | the lines are updated, itemsPrice is their sum, and every other field, tax and total included, is unchanged |
| `CartStore.RemoveItemFromCart` | hooks/use-cart-store.ts:98-115 | the lines are filtered, itemsPrice is their sum, and every other field is unchanged |
| `CartStore.AddItemReturnsLineId` | hooks/use-cart-store.ts:68-73 | after a successful addItem the new list has a line of the variant, and the first one carries the id returned: the existing line's, or the item's for a new line |
| `CartStore.AddItemUpdatesOneLine` | hooks/use-cart-store.ts:48-55 | with distinct variants, merging changes only the matching line, whose quantity grows by quantity |
| `CartStore.AddItemTotal` | hooks/use-cart-store.ts:48-64 | with distinct variants, addItem raises the items total by the line's unit price × quantity |
| `CartStore.AddItemKeepsUniqueLines` | hooks/use-cart-store.ts:31-56 | addItem never leaves two lines of one variant |
| `CartStore.AddItemKeepsStock` | hooks/use-cart-store.ts:38-56 | every line stays within its recorded stock, provided a new line is added with the item's own quantity |
| `CartStore.NewLineStockCheckIgnoresQuantity` | hooks/use-cart-store.ts:42-46 | 2 of an item that carries quantity 1, with 1 in stock, are accepted as a new line above its stock |
| `CartStore.UpdateItemChangesOneLine` | hooks/use-cart-store.ts:77-93 | with distinct client ids, exactly that line's quantity changes and the total moves by the line's difference |
| `CartStore.UpdateItemUnknownIdIsNoOp` | hooks/use-cart-store.ts:79-83 | an id no line carries leaves the lines unchanged |
| `CartStore.UpdateItemKeepsUniqueness` | hooks/use-cart-store.ts:79-83 | updateItem keeps variants and client ids distinct |
| `CartStore.RemoveLinesAppend` | hooks/use-cart-store.ts:100-102 | the filter distributes over concatenation, so the kept lines keep their order |
| `CartStore.RemoveLinesAbsent` | hooks/use-cart-store.ts:100-102 | an id no line carries leaves the lines unchanged |
| `CartStore.RemoveItemDropsOneLine` | hooks/use-cart-store.ts:98-112 | with distinct client ids, exactly that line is removed, the rest keep their order, and the total drops by its line total |
| `CartStore.RemoveItemKeepsUniqueLines` | hooks/use-cart-store.ts:100-102 | removeItem keeps variants distinct |
| `CartStore.StoreQuoteMatchesServer` | hooks/use-cart-store.ts:58-65 | for a cart addItem priced without an address, the server's repricing returns that same cart, so the order as written and the repriced order agree |
| `CartStore.StaleCartTotalReachesOrder` | hooks/use-cart-store.ts:77-96 | one $10 line added and then raised to five keeps the $11.50 total of one line, and that stale total reaches the order as written, where repricing gives $57.50 |
| `CartStore.CartState.constructor` | hooks/use-cart-store.ts:27 | the store starts at the initial state, where the store invariant holds: distinct variants, and an items price equal to the sum of the lines |
| `CartStore.CartState.AddItem` | hooks/use-cart-store.ts:29-74 | on a stock error the cart is unchanged and the error is returned. Otherwise the cart is PricedCart of the new lines and the result is the line's client id. The store invariant is kept. |
| `CartStore.CartState.UpdateItem` | hooks/use-cart-store.ts:77-96 | the cart becomes UpdateItemInCart of the old cart; the store invariant is kept |
| `CartStore.CartState.RemoveItem` | hooks/use-cart-store.ts:98-115 | the cart becomes RemoveItemFromCart of the old cart; the store invariant is kept |
| `CartStore.CartState.Init` | hooks/use-cart-store.ts:117 | the cart is the initial state: no lines, items and total 0, every other field undefined |

## Left out

- Floating point: prices are whole cents. The exact `round2` of `lib/utils` is not part of this model. Only the tax is rounded, half up.
- The `AVAILABLE_DELIVERY_DATES` catalogue (`lib/constants`) is not part of this model. It is the `deliveryDates` parameter, and a constant field in the store. The copy of it that the pricing result spreads into the cart is not modelled.
- `OrderInputSchema` (`lib/validator`) is not part of this model. It is an abstract predicate passed in, and its rejection is a single validation error without field details.
- The database (`connectToDatabase`, `findById`, `populate`, `create`, `save`, generated order ids) is left out. A lookup is an `Order?` that is null when nothing is found. Creation is the `Order` constructor. A save is assumed to succeed.
- The PayPal client (`lib/paypal.ts`: HTTP, access token, environment) is left out. Phase 1 takes the id from the provider's reply, or None when the call failed or the reply had none. Phase 2 takes the capture reply, or None. The capture's `id` and `status` are always strings, a present `payer` always has a string `email_address`, and `amount?.value` is one optional string.
- `OrderPayment.CreateIntent`: the only absent-total case it models is a zero total. An order built by the constructor always has a total, so "missing" cannot arise.
- `sendPurchaseReceipt` and `revalidatePath` are external. Whether the receipt went out is a boolean parameter, and cache invalidation is not modelled. The clock (`new Date()`) is the `now: int` parameter.
- The store's `persist` middleware and the `async`/`await` around each operation are left out. Each store operation is one sequential step.
- `CartStore.AddItemUpdatesOneLine`, `CartStore.AddItemTotal`, `CartStore.UpdateItemChangesOneLine` and `CartStore.RemoveItemDropsOneLine` assume distinct variants or client ids. The store does not enforce distinct client ids. When variants repeat, `addItem` replaces every matching line with a copy of the first one, which `CartStore.BumpMatching` states.
- Error messages are constructors of `Types.Error`, not strings.

## Findings

| source | as written | input that shows it | evidently intended | confidence | as-written member | corrected member |
|---|---|---|---|---|---|---|
| lib/actions/order.actions.ts:111 | `...calcDeliveryDateAndPrice(...)` spreads a pending Promise, which adds no fields, so the order takes the client's itemsPrice, shippingPrice, taxPrice and totalPrice | a cart of $10 and $20 lines that claims itemsPrice 1, taxPrice 0 and totalPrice 1, with a schema that accepts it: the order's total is one cent (`OrderBuilder.TamperedTotalReachesOrder`); after addItem then updateItem the stale total reaches the order (`CartStore.StaleCartTotalReachesOrder`) | `...(await calcDeliveryDateAndPrice(...))`: the server's prices replace the client's | high; not executed | `OrderBuilder.CreateOrderFromCart` | `OrderBuilder.CreateOrderFromRepricedCart` (with `OrderBuilder.ClientPricesAreIgnored`) |
