/**
 * ReceiptPopup (src/Components/ReceiptPopup/ReceiptPopup.jsx): the receipt
 * shown after Place Order. Only its derived values are modelled: the status
 * icon and badge, the amount of each item row and the optional payment-id
 * fields with their shortened ids. Layout, the date (clock and locale) and
 * printing are not.
 */
module ReceiptPopup {
  import opened Wrappers
  import opened Totals
  import opened Text
  import opened Backend

  /** The object CartSummary passes in (CartSummary.jsx:236-241): the order
      details spread, plus the Stripe ids lifted out of paymentDetails. */
  datatype ReceiptOrder = ReceiptOrder(
    order: SavedOrder,
    stripePaymentIntentId: Option<string>,
    stripePaymentMethodId: Option<string>,
    clientSecret: Option<string>)

  function ReceiptInput(details: SavedOrder): (r: ReceiptOrder)
    ensures r.order == details
    ensures details.paymentDetails.None? ==>
              r.stripePaymentIntentId.None? && r.stripePaymentMethodId.None? && r.clientSecret.None?
    ensures details.paymentDetails.Some? ==>
              r.stripePaymentIntentId == Some(details.paymentDetails.value.stripePaymentIntentId)
              && r.stripePaymentMethodId == Some(details.paymentDetails.value.stripePaymentMethodId)
              && r.clientSecret == details.paymentDetails.value.clientSecret
  {
    match details.paymentDetails
    case None => ReceiptOrder(details, None, None, None)
    case Some(p) => ReceiptOrder(details, Some(p.stripePaymentIntentId), Some(p.stripePaymentMethodId), p.clientSecret)
  }

  const UpiMethod: string := "UPI"
  const CardIcon: string := "\U{1F4B3}"
  const CashIcon: string := "\U{1F4B5}"
  const PaidBadge: string := "paid"
  const ReceivedBadge: string := "received"

  /** getPaymentStatusIcon (ReceiptPopup.jsx:16-21). */
  function PaymentStatusIcon(o: ReceiptOrder): (icon: string)
    ensures icon == CardIcon || icon == CashIcon
    ensures icon == CardIcon <==> o.order.paymentMethod == UpiMethod
  {
    if o.order.paymentMethod == UpiMethod then CardIcon else CashIcon
  }

  /** getStatusBadge (ReceiptPopup.jsx:23-25): also the CSS class suffix. */
  function StatusBadge(o: ReceiptOrder): (badge: string)
    ensures badge == PaidBadge || badge == ReceivedBadge
    ensures badge == PaidBadge <==> o.order.paymentMethod == UpiMethod
  {
    if o.order.paymentMethod == UpiMethod then PaidBadge else ReceivedBadge
  }

  /** The badge text, `getStatusBadge().toUpperCase()` (ReceiptPopup.jsx:44). */
  function BadgeLabel(o: ReceiptOrder): (shown: string)
    ensures shown == ToUpper(StatusBadge(o))
    ensures shown == "PAID" || shown == "RECEIVED"
    ensures shown == "PAID" <==> o.order.paymentMethod == UpiMethod
  {
    ModeAndBadgeSpellings();
    ToUpper(StatusBadge(o))
  }

  /** Icon, badge and label always tell the same story: paid by card/UPI or
      cash received. */
  lemma BadgeAndIconAgree(o: ReceiptOrder)
    ensures StatusBadge(o) == PaidBadge <==> o.order.paymentMethod == UpiMethod
    ensures PaymentStatusIcon(o) == CardIcon <==> o.order.paymentMethod == UpiMethod
    ensures StatusBadge(o) == PaidBadge <==> PaymentStatusIcon(o) == CardIcon
    ensures StatusBadge(o) == ReceivedBadge <==> PaymentStatusIcon(o) == CashIcon
    ensures o.order.paymentMethod != UpiMethod ==> StatusBadge(o) == ReceivedBadge && PaymentStatusIcon(o) == CashIcon
  {
  }

  /** One row of the items list (ReceiptPopup.jsx:72-80). */
  datatype ItemRow = ItemRow(name: string, quantity: int, amount: real)

  function ItemRows(items: seq<CartItem>): (rows: seq<ItemRow>)
    ensures |rows| == |items|
    ensures forall i :: 0 <= i < |items| ==>
              rows[i].name == items[i].name && rows[i].quantity == items[i].quantity
              && rows[i].amount == items[i].price * items[i].quantity as real
  {
    seq(|items|, i requires 0 <= i < |items| => ItemRow(items[i].name, items[i].quantity, LineTotal(items[i])))
  }

  function RowsTotal(rows: seq<ItemRow>): real
    decreases |rows|
  {
    if rows == [] then 0.0 else rows[0].amount + RowsTotal(rows[1..])
  }

  /** The item rows add up to the cart subtotal CartSummary computed. */
  lemma {:induction false} RowsAddUpToSubtotal(items: seq<CartItem>)
    ensures RowsTotal(ItemRows(items)) == Subtotal(items)
  {
    RowsMatchLines(items);
    SubtotalIsSumOfLines(items);
  }

  lemma {:induction false} RowsMatchLines(items: seq<CartItem>)
    ensures RowsTotal(ItemRows(items)) == SumOfLines(items)
    decreases |items|
  {
    if items != [] {
      RowsMatchLines(items[1..]);
      assert ItemRows(items)[1..] == ItemRows(items[1..]);
    }
  }

  /** One line of the payment-details block. */
  datatype DetailRow = DetailRow(caption: string, value: string)

  const PaymentIdLabel: string := "Payment ID"
  const RazorpayOrderLabel: string := "Razorpay Order ID"
  const RazorpayPaymentLabel: string := "Razorpay Payment ID"

  /** A render either produces its value or throws (a TypeError). */
  datatype Rendered<T> = Rendered(value: T) | RenderCrash

  function PaymentIdRows(o: ReceiptOrder): seq<DetailRow>
  {
    if Truthy(o.stripePaymentIntentId) then [DetailRow(PaymentIdLabel, Shorten(o.stripePaymentIntentId.value))] else []
  }

  /** The payment-details block as written (ReceiptPopup.jsx:108-135): None
      when it is not rendered. Both Razorpay rows hang on razorpayOrderId
      alone, and `razorpayPaymentId.substring` throws when that id is absent. */
  function PaymentDetailsBlockAsWritten(o: ReceiptOrder): (r: Rendered<Option<seq<DetailRow>>>)
    ensures r.RenderCrash? <==>
              o.order.paymentMethod == UpiMethod && Truthy(o.order.razorpayOrderId) && o.order.razorpayPaymentId.None?
  {
    if o.order.paymentMethod != UpiMethod then Rendered(None)
    else if !Truthy(o.order.razorpayOrderId) then Rendered(Some(PaymentIdRows(o)))
    else if o.order.razorpayPaymentId.None? then RenderCrash
    else Rendered(Some(PaymentIdRows(o) + [DetailRow(RazorpayOrderLabel, Shorten(o.order.razorpayOrderId.value)),
                                          DetailRow(RazorpayPaymentLabel, Shorten(o.order.razorpayPaymentId.value))]))
  }

  /** A concrete receipt that the block as written cannot render. */
  lemma RazorpayPaymentIdCrash(order: SavedOrder)
    requires order.paymentMethod == UpiMethod
    requires order.razorpayOrderId == Some("order_1") && order.razorpayPaymentId == None
    ensures PaymentDetailsBlockAsWritten(ReceiptInput(order)) == RenderCrash
  {
  }

  /** The payment-details block with the Razorpay Payment ID row guarded by
      its own id, as the other rows are. */
  function PaymentDetailsBlock(o: ReceiptOrder): (r: Option<seq<DetailRow>>)
    ensures r.Some? <==> o.order.paymentMethod == UpiMethod
    ensures r.Some? ==>
      (forall i :: 0 <= i < |r.value| && r.value[i].caption == PaymentIdLabel ==>
          Truthy(o.stripePaymentIntentId) && r.value[i].value == Shorten(o.stripePaymentIntentId.value))
      && (forall i :: 0 <= i < |r.value| && r.value[i].caption == RazorpayOrderLabel ==>
          Truthy(o.order.razorpayOrderId) && r.value[i].value == Shorten(o.order.razorpayOrderId.value))
      && (forall i :: 0 <= i < |r.value| && r.value[i].caption == RazorpayPaymentLabel ==>
          Truthy(o.order.razorpayOrderId) && o.order.razorpayPaymentId.Some?
          && r.value[i].value == Shorten(o.order.razorpayPaymentId.value))
    ensures r.Some? && Truthy(o.stripePaymentIntentId) ==>
              DetailRow(PaymentIdLabel, Shorten(o.stripePaymentIntentId.value)) in r.value
    ensures r.Some? && Truthy(o.order.razorpayOrderId) ==>
              DetailRow(RazorpayOrderLabel, Shorten(o.order.razorpayOrderId.value)) in r.value
    ensures r.Some? && Truthy(o.order.razorpayOrderId) && o.order.razorpayPaymentId.Some? ==>
              DetailRow(RazorpayPaymentLabel, Shorten(o.order.razorpayPaymentId.value)) in r.value
  {
    if o.order.paymentMethod != UpiMethod then None
    else
      var razorpay :=
        if !Truthy(o.order.razorpayOrderId) then []
        else [DetailRow(RazorpayOrderLabel, Shorten(o.order.razorpayOrderId.value))]
             + (if o.order.razorpayPaymentId.Some?
                then [DetailRow(RazorpayPaymentLabel, Shorten(o.order.razorpayPaymentId.value))] else []);
      Some(PaymentIdRows(o) + razorpay)
  }

  /** Wherever the block as written renders, the corrected block renders the same rows. */
  lemma CorrectedBlockAgrees(o: ReceiptOrder)
    ensures PaymentDetailsBlockAsWritten(o).Rendered? ==> PaymentDetailsBlockAsWritten(o).value == PaymentDetailsBlock(o)
  {
    if o.order.paymentMethod == UpiMethod && Truthy(o.order.razorpayOrderId) && o.order.razorpayPaymentId.Some? {
      var a := DetailRow(RazorpayOrderLabel, Shorten(o.order.razorpayOrderId.value));
      var b := DetailRow(RazorpayPaymentLabel, Shorten(o.order.razorpayPaymentId.value));
      assert [a] + [b] == [a, b];
    } else if o.order.paymentMethod == UpiMethod && !Truthy(o.order.razorpayOrderId) {
      assert PaymentIdRows(o) + [] == PaymentIdRows(o);
    }
  }
}
