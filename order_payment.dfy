/** The PayPal round trip on a stored order (`createPayPalOrder`, `approvePayPalOrder`):
    phase 1 records the provider's order id, phase 2 marks the order paid only when the
    provider's capture carries that same id and the status COMPLETED. */
module OrderPayment {
  import opened Types
  import opened OrderBuilder

  /** The provider's status for a finished capture. */
  const Completed: string := "COMPLETED"

  /** The payment record embedded in an order; pricePaid is undefined when the capture
      response carries no amount. */
  datatype PaymentResult = PaymentResult(id: string, status: string, emailAddress: string, pricePaid: Option<string>)

  /** The part of an order the payment flow changes. */
  datatype PaymentRecord = PaymentRecord(isPaid: bool, paidAt: Option<int>, paymentResult: Option<PaymentResult>)

  /** A freshly created order: unpaid and with no payment result. */
  const NewRecord: PaymentRecord := PaymentRecord(false, None, None)

  /** The capture response of the provider. payerEmail is `payer.email_address`, None when
      the reply has no `payer`; purchaseUnits is None when it has no `purchase_units`. */
  datatype CaptureData = CaptureData(
    id: string, status: string, payerEmail: Option<string>, purchaseUnits: Option<seq<PurchaseUnit>>)
  /** A purchase unit; `payments`, when present, may still lack `captures`. */
  datatype PurchaseUnit = PurchaseUnit(payments: Option<Payments>)
  datatype Payments = Payments(captures: Option<seq<CaptureRecord>>)
  /** A capture; amount is `amount?.value`. */
  datatype CaptureRecord = CaptureRecord(amount: Option<string>)

  /** `purchase_units[0]?.payments?.captures[0]` throws exactly when the first unit has
      `payments` without `captures`: only the `?.` before `captures` is optional. */
  predicate CapturesMissing(units: seq<PurchaseUnit>)
  {
    |units| > 0 && units[0].payments.Some? && units[0].payments.value.captures.None?
  }

  /** Reading the capture reply into a payment result throws no TypeError. */
  predicate CaptureReadable(c: CaptureData)
  {
    c.payerEmail.Some? && c.purchaseUnits.Some? && !CapturesMissing(c.purchaseUnits.value)
  }

  /** The value of `purchase_units[0]?.payments?.captures[0]?.amount?.value` when it does not
      throw: undefined when any link of the chain is missing. */
  function PricePaid(units: seq<PurchaseUnit>): (r: Option<string>)
    requires !CapturesMissing(units)
    ensures r.Some? <==>
              && |units| > 0 && units[0].payments.Some?
              && |units[0].payments.value.captures.value| > 0
              && units[0].payments.value.captures.value[0].amount.Some?
    ensures r.Some? ==> r == units[0].payments.value.captures.value[0].amount
  {
    if |units| == 0 then None
    else match units[0].payments
      case None => None
      case Some(p) => if |p.captures.value| == 0 then None else p.captures.value[0].amount
  }

  /** What an operation reports, and the payment record it leaves behind. */
  datatype Transition<T> = Transition(result: Result<T>, next: PaymentRecord)

  /** Phase 1 on a found order. providerId is the id in the provider's reply to
      `createOrder(totalPrice)`; None stands for a failed call or a reply without an id. */
  function CreateIntent(rec: PaymentRecord, totalPrice: int, providerId: Option<string>): (t: Transition<string>)
    ensures t.result.Ok? <==> totalPrice != 0 && providerId.Some? && providerId.value != ""
    ensures t.result.Err? ==> t.next == rec
    ensures t.result.Err? ==> t.result.error == if totalPrice == 0 then TotalPriceMissing else ProviderOrderFailed
    ensures t.result.Ok? ==>
              t.result.value == providerId.value &&
              t.next == rec.(paymentResult := Some(PaymentResult(providerId.value, "", "", Some("0"))))
    ensures t.next.isPaid == rec.isPaid && t.next.paidAt == rec.paidAt
  {
    if totalPrice == 0 then Transition(Err(TotalPriceMissing), rec)
    else if providerId.None? || providerId.value == "" then Transition(Err(ProviderOrderFailed), rec)
    else Transition(
      Ok(providerId.value),
      rec.(paymentResult := Some(PaymentResult(providerId.value, "", "", Some("0")))))
  }

  /** The anti-tampering guard of phase 2. */
  predicate CaptureVerified(capture: Option<CaptureData>, stored: Option<PaymentResult>)
  {
    capture.Some? && stored.Some? && capture.value.id == stored.value.id && capture.value.status == Completed
  }

  /** Phase 2 on a found order, at time now; receiptSent says whether the purchase receipt,
      sent after the order is saved, went out. A verified capture that cannot be read throws
      before the save, so the stored order is unchanged. */
  function Approve(rec: PaymentRecord, capture: Option<CaptureData>, now: int, receiptSent: bool): (t: Transition<()>)
    ensures t.next.isPaid <==>
              rec.isPaid || (CaptureVerified(capture, rec.paymentResult) && CaptureReadable(capture.value))
    ensures t.result.Ok? <==>
              CaptureVerified(capture, rec.paymentResult) && CaptureReadable(capture.value) && receiptSent
    ensures !CaptureVerified(capture, rec.paymentResult) ==> t == Transition(Err(PaymentNotVerified), rec)
    ensures CaptureVerified(capture, rec.paymentResult) && !CaptureReadable(capture.value) ==>
              t == Transition(Err(MalformedCapture), rec)
    ensures CaptureVerified(capture, rec.paymentResult) && CaptureReadable(capture.value) ==>
              && t.next.isPaid && t.next.paidAt == Some(now)
              && t.next.paymentResult == Some(PaymentResult(
                   rec.paymentResult.value.id, Completed, capture.value.payerEmail.value,
                   PricePaid(capture.value.purchaseUnits.value)))
              && (!receiptSent ==> t.result == Err(ReceiptFailed))
  {
    if !CaptureVerified(capture, rec.paymentResult) then Transition(Err(PaymentNotVerified), rec)
    else if !CaptureReadable(capture.value) then Transition(Err(MalformedCapture), rec)
    else
      var c := capture.value;
      Transition(
        if receiptSent then Ok(()) else Err(ReceiptFailed),
        PaymentRecord(true, Some(now), Some(PaymentResult(
          c.id, c.status, c.payerEmail.value, PricePaid(c.purchaseUnits.value)))))
  }

  /** One call of either phase on the same order. */
  datatype PaymentEvent =
    | CreateAttempt(providerId: Option<string>)
    | ApproveAttempt(capture: Option<CaptureData>, now: int, receiptSent: bool)

  function Step(rec: PaymentRecord, totalPrice: int, e: PaymentEvent): PaymentRecord
  {
    match e
    case CreateAttempt(providerId) => CreateIntent(rec, totalPrice, providerId).next
    case ApproveAttempt(capture, now, receiptSent) => Approve(rec, capture, now, receiptSent).next
  }

  /** The payment record after the calls in events, in order. */
  function Replay(rec: PaymentRecord, totalPrice: int, events: seq<PaymentEvent>): PaymentRecord
  {
    if events == [] then rec
    else Step(Replay(rec, totalPrice, events[..|events| - 1]), totalPrice, events[|events| - 1])
  }

  /** The order ids the provider handed out in phase 1 over events. */
  function Issued(events: seq<PaymentEvent>): set<string>
  {
    if events == [] then {}
    else
      Issued(events[..|events| - 1]) +
      match events[|events| - 1]
      case CreateAttempt(Some(id)) => {id}
      case _ => {}
  }

  /** Call k is a phase 2 whose capture is COMPLETED, readable, and for an id issued by an
      earlier phase 1. */
  predicate VerifiedCaptureAt(events: seq<PaymentEvent>, k: int)
    requires 0 <= k < |events|
  {
    && events[k].ApproveAttempt?
    && events[k].capture.Some?
    && events[k].capture.value.status == Completed
    && CaptureReadable(events[k].capture.value)
    && events[k].capture.value.id in Issued(events[..k])
  }

  /** Whatever payment id an order holds was issued by the provider in phase 1:
      a client cannot plant an id of its own. */
  lemma {:induction false} StoredIdWasIssued(totalPrice: int, events: seq<PaymentEvent>)
    ensures var r := Replay(NewRecord, totalPrice, events);
            r.paymentResult.Some? ==> r.paymentResult.value.id in Issued(events)
  {
    if events != [] {
      var pre := events[..|events| - 1];
      StoredIdWasIssued(totalPrice, pre);
    }
  }

  /** An order is paid only after a COMPLETED capture of an id the provider issued earlier. */
  lemma {:induction false} PaidOnlyAfterVerifiedCapture(totalPrice: int, events: seq<PaymentEvent>)
    ensures Replay(NewRecord, totalPrice, events).isPaid ==>
              exists k :: 0 <= k < |events| && VerifiedCaptureAt(events, k)
  {
    if events != [] {
      var n := |events|;
      var pre := events[..n - 1];
      var before := Replay(NewRecord, totalPrice, pre);
      if before.isPaid {
        PaidOnlyAfterVerifiedCapture(totalPrice, pre);
        var k :| 0 <= k < |pre| && VerifiedCaptureAt(pre, k);
        assert pre[..k] == events[..k];
        assert VerifiedCaptureAt(events, k);
      } else if Replay(NewRecord, totalPrice, events).isPaid {
        StoredIdWasIssued(totalPrice, pre);
        assert events[..n - 1] == pre;
        assert VerifiedCaptureAt(events, n - 1);
      }
    }
  }

  /** No call of either phase ever unpays an order. */
  lemma {:induction false} PaidIsTerminal(rec: PaymentRecord, totalPrice: int, events: seq<PaymentEvent>)
    requires rec.isPaid
    ensures Replay(rec, totalPrice, events).isPaid
  {
    if events != [] {
      PaidIsTerminal(rec, totalPrice, events[..|events| - 1]);
    }
  }

  /** Phase 1 records PAY-1; a COMPLETED capture for PAY-2 leaves the order unpaid. */
  lemma MismatchedCaptureIsRejected(now: int)
    ensures var capture := CaptureData("PAY-2", Completed, Some("buyer@example.com"), Some([]));
            var events := [CreateAttempt(Some("PAY-1")), ApproveAttempt(Some(capture), now, true)];
            !Replay(NewRecord, 3450, events).isPaid
  {
    var capture := CaptureData("PAY-2", Completed, Some("buyer@example.com"), Some([]));
    var events := [CreateAttempt(Some("PAY-1")), ApproveAttempt(Some(capture), now, true)];
    var first := events[..1];
    assert first[..0] == [] && first[0] == CreateAttempt(Some("PAY-1"));
    var afterCreate := Replay(NewRecord, 3450, first);
    assert |first| == 1 && Replay(NewRecord, 3450, first[..0]) == NewRecord;
    assert afterCreate == Step(NewRecord, 3450, CreateAttempt(Some("PAY-1")));
    assert afterCreate.paymentResult == Some(PaymentResult("PAY-1", "", "", Some("0")));
    assert Replay(NewRecord, 3450, events) == Step(afterCreate, 3450, events[1]);
  }

  /** Phase 1 records PAY-1; a COMPLETED capture of PAY-1 whose first purchase unit has
      `payments` but no `captures` throws before the save and leaves the order unpaid,
      while the same capture with no `payments` at all pays it with no price recorded. */
  lemma CapturesWithoutListIsRejected(now: int)
    ensures var issued := PaymentRecord(false, None, Some(PaymentResult("PAY-1", "", "", Some("0"))));
            var broken := CaptureData("PAY-1", Completed, Some("buyer@example.com"),
                                      Some([PurchaseUnit(Some(Payments(None)))]));
            var bare := CaptureData("PAY-1", Completed, Some("buyer@example.com"), Some([PurchaseUnit(None)]));
            && CreateIntent(NewRecord, 3450, Some("PAY-1")).next == issued
            && Approve(issued, Some(broken), now, true) == Transition(Err(MalformedCapture), issued)
            && Approve(issued, Some(bare), now, true).result == Ok(())
            && Approve(issued, Some(bare), now, true).next.paymentResult.value.pricePaid == None
  {
    var bare := CaptureData("PAY-1", Completed, Some("buyer@example.com"), Some([PurchaseUnit(None)]));
    assert !CapturesMissing([PurchaseUnit(None)]);
    assert PricePaid([PurchaseUnit(None)]) == None;
  }

  /** A persisted order. Only the payment fields change after creation. */
  class Order {
    const user: string
    const items: seq<OrderItem>
    const shippingAddress: Option<ShippingAddress>
    const paymentMethod: Option<string>
    const itemsPrice: int
    const shippingPrice: Option<int>
    const taxPrice: Option<int>
    const totalPrice: int
    const expectedDeliveryDate: Option<int>
    var isPaid: bool
    var paidAt: Option<int>
    var paymentResult: Option<PaymentResult>

    /** `Order.create(order)` for an order input the schema accepted. */
    constructor (input: OrderInput)
      ensures user == input.user && items == input.items && shippingAddress == input.shippingAddress
      ensures paymentMethod == input.paymentMethod && itemsPrice == input.itemsPrice
      ensures shippingPrice == input.shippingPrice && taxPrice == input.taxPrice
      ensures totalPrice == input.totalPrice && expectedDeliveryDate == input.expectedDeliveryDate
      ensures Record() == NewRecord
    {
      user := input.user;
      items := input.items;
      shippingAddress := input.shippingAddress;
      paymentMethod := input.paymentMethod;
      itemsPrice := input.itemsPrice;
      shippingPrice := input.shippingPrice;
      taxPrice := input.taxPrice;
      totalPrice := input.totalPrice;
      expectedDeliveryDate := input.expectedDeliveryDate;
      isPaid := false;
      paidAt := None;
      paymentResult := None;
    }

    function Record(): PaymentRecord
      reads this
    {
      PaymentRecord(isPaid, paidAt, paymentResult)
    }

    /** Phase 1: the guards and the field update of `createPayPalOrder`. */
    method RecordPayPalOrder(providerId: Option<string>) returns (r: Result<string>)
      modifies this
      ensures var t := CreateIntent(old(Record()), totalPrice, providerId);
              r == t.result && Record() == t.next
    {
      if totalPrice == 0 {
        return Err(TotalPriceMissing);
      }
      if providerId.None? || providerId.value == "" {
        return Err(ProviderOrderFailed);
      }
      paymentResult := Some(PaymentResult(providerId.value, "", "", Some("0")));
      r := Ok(providerId.value);
    }

    /** Phase 2: the guard and the field updates of `approvePayPalOrder`. The source sets
        isPaid and paidAt on the loaded document before reading the reply, but a throw
        there discards that document unsaved; these fields are the stored ones. */
    method CapturePayPalOrder(capture: Option<CaptureData>, now: int, receiptSent: bool) returns (r: Result<()>)
      modifies this
      ensures var t := Approve(old(Record()), capture, now, receiptSent);
              r == t.result && Record() == t.next
    {
      if capture.None? || paymentResult.None? || capture.value.id != paymentResult.value.id
         || capture.value.status != Completed
      {
        return Err(PaymentNotVerified);
      }
      var c := capture.value;
      if !CaptureReadable(c) {
        return Err(MalformedCapture);
      }
      isPaid := true;
      paidAt := Some(now);
      paymentResult := Some(PaymentResult(c.id, c.status, c.payerEmail.value, PricePaid(c.purchaseUnits.value)));
      r := if receiptSent then Ok(()) else Err(ReceiptFailed);
    }
  }

  /** `createPayPalOrder`: order is what `Order.findById` found, null when nothing. */
  method CreatePayPalOrder(order: Order?, providerId: Option<string>) returns (r: Result<string>)
    modifies order
    ensures order == null ==> r == Err(OrderNotFound)
    ensures order != null ==>
              var t := CreateIntent(old(order.Record()), order.totalPrice, providerId);
              r == t.result && order.Record() == t.next
  {
    if order == null {
      return Err(OrderNotFound);
    }
    r := order.RecordPayPalOrder(providerId);
  }

  /** `approvePayPalOrder`: capture is the provider's reply to `capturePayment`, None when
      the reply is empty or the call failed. */
  method ApprovePayPalOrder(order: Order?, capture: Option<CaptureData>, now: int, receiptSent: bool)
    returns (r: Result<()>)
    modifies order
    ensures order == null ==> r == Err(OrderNotFound)
    ensures order != null ==>
              var t := Approve(old(order.Record()), capture, now, receiptSent);
              r == t.result && order.Record() == t.next
  {
    if order == null {
      return Err(OrderNotFound);
    }
    r := order.CapturePayPalOrder(capture, now, receiptSent);
  }
}
