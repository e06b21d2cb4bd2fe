/** The client-side cart store (`useCartStore`): one mutable `cart` that `addItem`,
    `updateItem`, `removeItem` and `init` replace. The new line lists are built by the
    functions below; the store class applies them. */
module CartStore {
  import opened Types
  import opened OrderPricing
  import opened OrderBuilder

  /** `initialState`: no lines, zero items and total, everything else undefined. */
  const InitialState: Cart := Cart([], 0, None, None, 0, None, None, None, None)

  /** Two lines are the same variant when product, color and size agree. */
  predicate SameLine(x: OrderItem, item: OrderItem)
  {
    x.product == item.product && x.color == item.color && x.size == item.size
  }

  /** No two lines of the list are the same variant. */
  predicate UniqueLines(items: seq<OrderItem>)
  {
    forall i, j :: 0 <= i < j < |items| ==> !SameLine(items[i], items[j])
  }

  /** No two lines of the list carry the same client id. */
  predicate UniqueClientIds(items: seq<OrderItem>)
  {
    forall i, j :: 0 <= i < j < |items| ==> items[i].clientId != items[j].clientId
  }

  /** Every line asks for no more than the stock it recorded. */
  predicate WithinStock(items: seq<OrderItem>)
  {
    forall i :: 0 <= i < |items| ==> items[i].quantity <= items[i].countInStock
  }

  /** `items.find(...)`: the index of the first line of item's variant, if any. */
  function FindLine(items: seq<OrderItem>, item: OrderItem): (r: Option<nat>)
    ensures r.Some? ==>
              && r.value < |items| && SameLine(items[r.value], item)
              && forall j :: 0 <= j < r.value ==> !SameLine(items[j], item)
    ensures r.None? ==> forall j :: 0 <= j < |items| ==> !SameLine(items[j], item)
  {
    if items == [] then None
    else if SameLine(items[0], item) then Some(0)
    else match FindLine(items[1..], item)
      case None => None
      case Some(k) => Some(k + 1)
  }

  /** The `items.map(...)` of addItem: every line of item's variant becomes merged. */
  function BumpMatching(items: seq<OrderItem>, item: OrderItem, merged: OrderItem): (r: seq<OrderItem>)
    ensures |r| == |items|
    ensures forall i :: 0 <= i < |items| ==> r[i] == if SameLine(items[i], item) then merged else items[i]
  {
    if items == [] then []
    else [if SameLine(items[0], item) then merged else items[0]] + BumpMatching(items[1..], item, merged)
  }

  /** The line list addItem builds, or its stock error. An existing line of the variant must
      hold quantity more; a new line is checked against the item's own quantity. */
  function AddToItems(items: seq<OrderItem>, item: OrderItem, quantity: int): (r: Result<seq<OrderItem>>)
    ensures r.Err? ==> r.error == NotEnoughStock
    ensures FindLine(items, item).Some? ==>
              var existing := items[FindLine(items, item).value];
              && (r.Err? <==> existing.countInStock < quantity + existing.quantity)
              && (r.Ok? ==> |r.value| == |items|)
              && (r.Ok? ==> forall i :: 0 <= i < |items| ==>
                    r.value[i] == if SameLine(items[i], item)
                                  then existing.(quantity := existing.quantity + quantity)
                                  else items[i])
    ensures FindLine(items, item).None? ==>
              && (r.Err? <==> item.countInStock < item.quantity)
              && (r.Ok? ==> r.value == items + [item.(quantity := quantity)])
  {
    match FindLine(items, item)
    case Some(k) =>
      var existing := items[k];
      if existing.countInStock < quantity + existing.quantity then Err(NotEnoughStock)
      else Ok(BumpMatching(items, item, existing.(quantity := existing.quantity + quantity)))
    case None =>
      if item.countInStock < item.quantity then Err(NotEnoughStock)
      else Ok(items + [item.(quantity := quantity)])
  }

  /** The client id addItem returns: that of the variant's existing line, else the item's. */
  function AddedClientId(items: seq<OrderItem>, item: OrderItem): string
  {
    match FindLine(items, item)
    case Some(k) => items[k].clientId
    case None => item.clientId
  }

  /** The cart addItem sets: the new lines, priced with no address and no tier index. */
  function PricedCart(cart: Cart, items: seq<OrderItem>, deliveryDates: seq<DeliveryDate>): (c: Cart)
    ensures c.items == items && c.itemsPrice == ItemsTotal(items)
    ensures c.shippingPrice == None
    ensures c.deliveryDateIndex == Some(|deliveryDates| - 1)
    ensures c.taxPrice.Some? && -50 < 100 * c.taxPrice.value - TaxRatePercent * c.itemsPrice <= 50
    ensures c.totalPrice == c.itemsPrice + c.taxPrice.value
    ensures c.paymentMethod == cart.paymentMethod && c.shippingAddress == cart.shippingAddress
    ensures c.expectedDeliveryDate == cart.expectedDeliveryDate
  {
    ApplyPricing(cart.(items := items), CalcDeliveryDateAndPrice(items, None, None, deliveryDates))
  }

  /** The `map` of updateItem: lines carrying clientId get quantity, with no stock check. */
  function SetQuantity(items: seq<OrderItem>, clientId: string, quantity: int): (r: seq<OrderItem>)
    ensures |r| == |items|
    ensures forall i :: 0 <= i < |items| ==>
              r[i] == if items[i].clientId == clientId then items[i].(quantity := quantity) else items[i]
  {
    if items == [] then []
    else
      [if items[0].clientId == clientId then items[0].(quantity := quantity) else items[0]]
      + SetQuantity(items[1..], clientId, quantity)
  }

  /** The `filter` of removeItem: the lines not carrying clientId, in their order. */
  function RemoveLines(items: seq<OrderItem>, clientId: string): (r: seq<OrderItem>)
    ensures forall x :: x in r <==> x in items && x.clientId != clientId
    ensures |r| <= |items|
  {
    if items == [] then []
    else (if items[0].clientId == clientId then [] else [items[0]]) + RemoveLines(items[1..], clientId)
  }

  /** The cart updateItem sets: new lines and their unrounded sum; the other fields,
      tax and total included, stay as they were. */
  function UpdateItemInCart(cart: Cart, clientId: string, quantity: int): (c: Cart)
    ensures c.items == SetQuantity(cart.items, clientId, quantity)
    ensures c.itemsPrice == ItemsTotal(c.items)
    ensures c.(items := cart.items, itemsPrice := cart.itemsPrice) == cart
  {
    var items := SetQuantity(cart.items, clientId, quantity);
    cart.(items := items, itemsPrice := ItemsTotal(items))
  }

  /** The cart removeItem sets: new lines and their sum; the other fields stay. */
  function RemoveItemFromCart(cart: Cart, clientId: string): (c: Cart)
    ensures c.items == RemoveLines(cart.items, clientId)
    ensures c.itemsPrice == ItemsTotal(c.items)
    ensures c.(items := cart.items, itemsPrice := cart.itemsPrice) == cart
  {
    var items := RemoveLines(cart.items, clientId);
    cart.(items := items, itemsPrice := ItemsTotal(items))
  }

  // ---- addItem

  lemma FindLineIs(items: seq<OrderItem>, item: OrderItem, k: nat)
    requires k < |items| && SameLine(items[k], item)
    requires forall j :: 0 <= j < k ==> !SameLine(items[j], item)
    ensures FindLine(items, item) == Some(k)
  {
  }

  /** After a successful addItem the list holds a line of the variant, and the first such
      line carries the id addItem returns. */
  lemma AddItemReturnsLineId(items: seq<OrderItem>, item: OrderItem, quantity: int)
    requires AddToItems(items, item, quantity).Ok?
    ensures var u := AddToItems(items, item, quantity).value;
            FindLine(u, item).Some? && u[FindLine(u, item).value].clientId == AddedClientId(items, item)
  {
    var u := AddToItems(items, item, quantity).value;
    match FindLine(items, item)
    case Some(k) =>
      FindLineIs(u, item, k);
    case None =>
      FindLineIs(u, item, |items|);
  }

  /** With distinct variants, merging into an existing line changes that line's quantity
      by quantity and nothing else. */
  lemma AddItemUpdatesOneLine(items: seq<OrderItem>, item: OrderItem, quantity: int)
    requires UniqueLines(items)
    requires FindLine(items, item).Some? && AddToItems(items, item, quantity).Ok?
    ensures var k := FindLine(items, item).value;
            AddToItems(items, item, quantity).value == items[k := items[k].(quantity := items[k].quantity + quantity)]
  {
    var k := FindLine(items, item).value;
    var u := AddToItems(items, item, quantity).value;
    forall i | 0 <= i < |items| && i != k
      ensures !SameLine(items[i], item)
    {
      if i < k {
        assert !SameLine(items[i], items[k]);
      } else {
        assert !SameLine(items[k], items[i]);
      }
    }
  }

  lemma LineTotalBump(x: OrderItem, quantity: int)
    ensures LineTotal(x.(quantity := x.quantity + quantity)) == LineTotal(x) + x.price * quantity
  {
    assert x.price * (x.quantity + quantity) == x.price * x.quantity + x.price * quantity;
  }

  /** With distinct variants, addItem raises the items total by unit price × quantity. */
  lemma AddItemTotal(items: seq<OrderItem>, item: OrderItem, quantity: int)
    requires UniqueLines(items) && AddToItems(items, item, quantity).Ok?
    ensures var price := match FindLine(items, item) case Some(k) => items[k].price case None => item.price;
            ItemsTotal(AddToItems(items, item, quantity).value) == ItemsTotal(items) + price * quantity
  {
    var u := AddToItems(items, item, quantity).value;
    match FindLine(items, item)
    case Some(k) =>
      AddItemUpdatesOneLine(items, item, quantity);
      var x := items[k];
      assert u == items[k := x.(quantity := x.quantity + quantity)];
      ItemsTotalUpdate(items, k, x.(quantity := x.quantity + quantity));
      LineTotalBump(x, quantity);
    case None =>
      var line := item.(quantity := quantity);
      assert u == items + [line];
      ItemsTotalAppend(items, [line]);
      assert [line][1..] == [];
      assert ItemsTotal([line]) == LineTotal(line);
  }

  /** addItem never puts two lines of one variant in the list. */
  lemma AddItemKeepsUniqueLines(items: seq<OrderItem>, item: OrderItem, quantity: int)
    requires UniqueLines(items) && AddToItems(items, item, quantity).Ok?
    ensures UniqueLines(AddToItems(items, item, quantity).value)
  {
    if FindLine(items, item).Some? {
      AddItemUpdatesOneLine(items, item, quantity);
    }
  }

  lemma BumpKeepsStock(items: seq<OrderItem>, item: OrderItem, merged: OrderItem)
    requires WithinStock(items) && merged.quantity <= merged.countInStock
    ensures WithinStock(BumpMatching(items, item, merged))
  {
  }

  /** addItem keeps every line within its stock, provided a new line is added with the
      quantity its item already carries (the only quantity it checks). */
  lemma AddItemKeepsStock(items: seq<OrderItem>, item: OrderItem, quantity: int)
    requires WithinStock(items) && AddToItems(items, item, quantity).Ok?
    requires FindLine(items, item).None? ==> quantity <= item.countInStock
    ensures WithinStock(AddToItems(items, item, quantity).value)
  {
    var u := AddToItems(items, item, quantity).value;
    match FindLine(items, item)
    case Some(k) =>
      BumpKeepsStock(items, item, items[k].(quantity := items[k].quantity + quantity));
    case None =>
      var line := item.(quantity := quantity);
      assert u == items + [line];
      assert forall i :: 0 <= i < |items| ==> u[i] == items[i];
      assert u[|items|] == line;
  }

  /** A new line is checked against the item's own quantity, so asking for 2 of an item
      that carries quantity 1 and has 1 in stock is accepted. */
  lemma NewLineStockCheckIgnoresQuantity()
    ensures var item := OrderItem("c1", "p1", "Shirt", "shirt", "", 1000, 1, 1, "Red", "M");
            && AddToItems([], item, 2) == Ok([item.(quantity := 2)])
            && !WithinStock([item.(quantity := 2)])
  {
    var item := OrderItem("c1", "p1", "Shirt", "shirt", "", 1000, 1, 1, "Red", "M");
    assert FindLine([], item) == None;
    assert [] + [item.(quantity := 2)] == [item.(quantity := 2)];
    assert [item.(quantity := 2)][0].quantity == 2;
  }

  // ---- updateItem

  /** With distinct client ids, updateItem sets the quantity of exactly that line, and the
      items total moves by the line's difference. */
  lemma UpdateItemChangesOneLine(items: seq<OrderItem>, clientId: string, quantity: int, k: nat)
    requires UniqueClientIds(items) && k < |items| && items[k].clientId == clientId
    ensures SetQuantity(items, clientId, quantity) == items[k := items[k].(quantity := quantity)]
    ensures ItemsTotal(SetQuantity(items, clientId, quantity))
         == ItemsTotal(items) - LineTotal(items[k]) + items[k].price * quantity
  {
    forall i | 0 <= i < |items| && i != k
      ensures items[i].clientId != clientId
    {
      if i < k {
        assert items[i].clientId != items[k].clientId;
      } else {
        assert items[k].clientId != items[i].clientId;
      }
    }
    assert SetQuantity(items, clientId, quantity) == items[k := items[k].(quantity := quantity)];
    ItemsTotalUpdate(items, k, items[k].(quantity := quantity));
  }

  /** updateItem with an id no line carries leaves the lines alone. */
  lemma UpdateItemUnknownIdIsNoOp(items: seq<OrderItem>, clientId: string, quantity: int)
    requires forall i :: 0 <= i < |items| ==> items[i].clientId != clientId
    ensures SetQuantity(items, clientId, quantity) == items
  {
    assert forall i :: 0 <= i < |items| ==> SetQuantity(items, clientId, quantity)[i] == items[i];
  }

  /** updateItem changes no line's variant or client id. */
  lemma UpdateItemKeepsUniqueness(items: seq<OrderItem>, clientId: string, quantity: int)
    ensures UniqueLines(items) ==> UniqueLines(SetQuantity(items, clientId, quantity))
    ensures UniqueClientIds(items) ==> UniqueClientIds(SetQuantity(items, clientId, quantity))
  {
    var r := SetQuantity(items, clientId, quantity);
    assert forall i :: 0 <= i < |items| ==> SameLine(r[i], items[i]) && r[i].clientId == items[i].clientId;
  }

  // ---- removeItem

  /** The filter keeps the order: it distributes over concatenation. */
  lemma {:induction false} RemoveLinesAppend(a: seq<OrderItem>, b: seq<OrderItem>, clientId: string)
    ensures RemoveLines(a + b, clientId) == RemoveLines(a, clientId) + RemoveLines(b, clientId)
  {
    if a == [] {
      assert a + b == b;
    } else {
      assert (a + b)[1..] == a[1..] + b;
      RemoveLinesAppend(a[1..], b, clientId);
    }
  }

  /** removeItem with an id no line carries leaves the lines alone. */
  lemma {:induction false} RemoveLinesAbsent(items: seq<OrderItem>, clientId: string)
    requires forall i :: 0 <= i < |items| ==> items[i].clientId != clientId
    ensures RemoveLines(items, clientId) == items
  {
    if items != [] {
      RemoveLinesAbsent(items[1..], clientId);
    }
  }

  /** With distinct client ids, removeItem drops exactly that line, keeps the others in order,
      and lowers the items total by that line's total. */
  lemma RemoveItemDropsOneLine(items: seq<OrderItem>, clientId: string, k: nat)
    requires UniqueClientIds(items) && k < |items| && items[k].clientId == clientId
    ensures RemoveLines(items, clientId) == items[..k] + items[k + 1..]
    ensures ItemsTotal(RemoveLines(items, clientId)) == ItemsTotal(items) - LineTotal(items[k])
  {
    var pre, x, post := items[..k], items[k], items[k + 1..];
    assert items == pre + ([x] + post);
    forall i | 0 <= i < |pre| ensures pre[i].clientId != clientId {
      assert items[i].clientId != items[k].clientId;
    }
    forall i | 0 <= i < |post| ensures post[i].clientId != clientId {
      assert items[k].clientId != items[k + 1 + i].clientId;
    }
    RemoveLinesAbsent(pre, clientId);
    RemoveLinesAbsent(post, clientId);
    assert RemoveLines([x] + post, clientId) == post by {
      assert ([x] + post)[1..] == post;
    }
    RemoveLinesAppend(pre, [x] + post, clientId);
    assert RemoveLines(items, clientId) == pre + post;
    ItemsTotalAppend(pre, [x] + post);
    ItemsTotalAppend(pre, post);
    assert ItemsTotal([x] + post) == LineTotal(x) + ItemsTotal(post) by {
      assert ([x] + post)[1..] == post;
    }
  }

  /** removeItem never makes two lines the same variant. */
  lemma {:induction false} RemoveItemKeepsUniqueLines(items: seq<OrderItem>, clientId: string)
    requires UniqueLines(items)
    ensures UniqueLines(RemoveLines(items, clientId))
  {
    if items != [] {
      var rest := items[1..];
      assert UniqueLines(rest) by {
        forall i, j | 0 <= i < j < |rest| ensures !SameLine(rest[i], rest[j]) {
          assert rest[i] == items[i + 1] && rest[j] == items[j + 1];
        }
      }
      RemoveItemKeepsUniqueLines(rest, clientId);
      var kept := RemoveLines(rest, clientId);
      if items[0].clientId != clientId {
        var r := [items[0]] + kept;
        assert RemoveLines(items, clientId) == r;
        forall j | 0 < j < |r| ensures !SameLine(r[0], r[j]) {
          assert r[j] in rest;
          var m :| 0 <= m < |rest| && rest[m] == r[j];
          assert rest[m] == items[m + 1];
        }
      }
    }
  }

  // ---- the two pricing call sites

  /** A cart straight from addItem without an address already carries the server's
      pricing, so the code as written and the intended repricing build the same order. */
  lemma StoreQuoteMatchesServer(
    cart: Cart, items: seq<OrderItem>, deliveryDates: seq<DeliveryDate>, userId: string, schema: OrderInput -> bool)
    requires cart.shippingAddress.None?
    ensures ServerCart(PricedCart(cart, items, deliveryDates), deliveryDates) == PricedCart(cart, items, deliveryDates)
    ensures CreateOrderFromCart(PricedCart(cart, items, deliveryDates), userId, schema)
         == CreateOrderFromRepricedCart(PricedCart(cart, items, deliveryDates), userId, deliveryDates, schema)
  {
  }

  /** updateItem leaves tax and total as they were, and the order as written takes them:
      one $10 line added, then raised to five, is ordered for the $11.50 of one line, where
      the server's pricing says $57.50. */
  lemma StaleCartTotalReachesOrder()
    ensures var added := PricedCart(InitialState, [SampleItem("a", 1000)], []);
            var updated := UpdateItemInCart(added, "a", 5);
            var accept := (o: OrderInput) => true;
            && updated.itemsPrice == 5000
            && CreateOrderFromCart(updated, "u1", accept) == Ok(OrderInputOf(updated, "u1"))
            && OrderInputOf(updated, "u1").totalPrice == 1150
            && CreateOrderFromRepricedCart(updated, "u1", [], accept).Ok?
            && CreateOrderFromRepricedCart(updated, "u1", [], accept).value.totalPrice == 5750
  {
    var line := SampleItem("a", 1000);
    assert ItemsTotal([line]) == 1000;
    var added := PricedCart(InitialState, [line], []);
    assert added.totalPrice == 1150;
    var five := SetQuantity([line], "a", 5);
    assert five == [line.(quantity := 5)];
    assert ItemsTotal(five) == 5000;
  }

  /** The store: the mutable cart, and the fixed delivery-date catalogue its pricing uses. */
  class CartState {
    const deliveryDates: seq<DeliveryDate>
    var cart: Cart

    predicate Valid()
      reads this
    {
      UniqueLines(cart.items) && cart.itemsPrice == ItemsTotal(cart.items)
    }

    constructor (deliveryDates: seq<DeliveryDate>)
      ensures this.deliveryDates == deliveryDates && cart == InitialState && Valid()
    {
      this.deliveryDates := deliveryDates;
      cart := InitialState;
    }

    /** `addItem`: merge into or append a line, reprice, return the line's client id. */
    method AddItem(item: OrderItem, quantity: int) returns (r: Result<string>)
      modifies this
      ensures match AddToItems(old(cart.items), item, quantity)
              case Err(e) => r == Err(e) && cart == old(cart)
              case Ok(updated) =>
                r == Ok(AddedClientId(old(cart.items), item)) && cart == PricedCart(old(cart), updated, deliveryDates)
      ensures old(Valid()) ==> Valid()
    {
      var items := cart.items;
      var existing := FindLine(items, item);
      var updated: seq<OrderItem>;
      match existing {
        case Some(k) =>
          var existItem := items[k];
          if existItem.countInStock < quantity + existItem.quantity {
            return Err(NotEnoughStock);
          }
          updated := BumpMatching(items, item, existItem.(quantity := existItem.quantity + quantity));
        case None =>
          if item.countInStock < item.quantity {
            return Err(NotEnoughStock);
          }
          updated := items + [item.(quantity := quantity)];
      }
      assert AddToItems(items, item, quantity) == Ok(updated);
      if UniqueLines(items) {
        AddItemKeepsUniqueLines(items, item, quantity);
      }
      cart := ApplyPricing(cart.(items := updated), CalcDeliveryDateAndPrice(updated, None, None, deliveryDates));
      AddItemReturnsLineId(items, item, quantity);
      var found := FindLine(updated, item);
      r := Ok(updated[found.value].clientId);
    }

    /** `updateItem`: set the quantity of the lines carrying item's client id. */
    method UpdateItem(item: OrderItem, quantity: int)
      modifies this
      ensures cart == UpdateItemInCart(old(cart), item.clientId, quantity)
      ensures old(Valid()) ==> Valid()
    {
      UpdateItemKeepsUniqueness(cart.items, item.clientId, quantity);
      cart := UpdateItemInCart(cart, item.clientId, quantity);
    }

    /** `removeItem`: drop the lines carrying item's client id. */
    method RemoveItem(item: OrderItem)
      modifies this
      ensures cart == RemoveItemFromCart(old(cart), item.clientId)
      ensures old(Valid()) ==> Valid()
    {
      if Valid() {
        RemoveItemKeepsUniqueLines(cart.items, item.clientId);
      }
      cart := RemoveItemFromCart(cart, item.clientId);
    }

    /** `init`: back to the initial state. */
    method Init()
      modifies this
      ensures cart == InitialState && Valid()
    {
      cart := InitialState;
    }
  }
}
