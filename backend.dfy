/**
 * The records exchanged with the order and payment backends and with the
 * Stripe client library, the abstract outcome of each external call, and
 * the log in which every external call is recorded.
 *
 * Each call is reduced to the outcome its caller can observe: createOrder
 * answers with an HTTP status and the saved order or throws; the Stripe
 * script load yields a bool and never rejects; createStripePaymentIntent
 * yields a client secret or throws; verifyPayment answers with a status or
 * throws; deleteOrder succeeds or throws; confirmCardPayment returns an
 * error and/or a payment intent, or throws.
 */
module Backend {
  import opened Wrappers
  import opened Totals

  type OrderId = string

  /** The `orderData` object that completePayment sends to createOrder. */
  datatype OrderRequest = OrderRequest(
    customerName: string,
    phoneNumber: string,
    cartItems: seq<CartItem>,
    subtotal: real,
    tax: real,
    grandTotal: real,
    paymentMethod: string)

  /** The `paymentDetails` object attached to a verified order. */
  datatype PaymentDetails = PaymentDetails(
    stripePaymentIntentId: string,
    stripePaymentMethodId: string,
    clientSecret: Option<string>,
    status: string)

  /** The order object createOrder returns (`response.data`), with the fields
      the checkout and the receipt read. */
  datatype SavedOrder = SavedOrder(
    orderId: OrderId,
    customerName: string,
    phoneNumber: string,
    items: seq<CartItem>,
    subtotal: real,
    tax: real,
    grandTotal: real,
    paymentMethod: string,
    paymentDetails: Option<PaymentDetails>,
    razorpayOrderId: Option<string>,
    razorpayPaymentId: Option<string>)

  /** What createOrder does: answers with a status and a body, or throws. */
  datatype CreateOutcome = Created(status: int, saved: SavedOrder) | CreateThrew

  /** What createStripePaymentIntent does. */
  datatype IntentOutcome = IntentCreated(clientSecret: string) | IntentThrew

  /** What verifyPayment does. */
  datatype VerifyOutcome = VerifyResponded(status: int) | VerifyThrew

  /** What deleteOrder does. */
  datatype DeleteOutcome = Deleted | DeleteThrew

  /** The Stripe objects the modal hands back. */
  datatype PaymentMethod = PaymentMethod(id: string)
  datatype PaymentIntent = PaymentIntent(id: string, status: string, paymentMethod: Option<PaymentMethod>)
  datatype StripeError = StripeError(message: string)

  /** What `stripe.confirmCardPayment` does: resolves to `{error, paymentIntent}` or throws. */
  datatype ConfirmOutcome =
    | ConfirmReturned(error: Option<StripeError>, paymentIntent: Option<PaymentIntent>)
    | ConfirmThrew

  /** The body verifyPaymentHandler posts to verifyPayment. */
  datatype PaymentData = PaymentData(
    stripePaymentIntentId: string,
    stripePaymentMethodId: string,
    clientSecret: Option<string>,
    orderId: OrderId)

  /** One external call, with the outcome where later reasoning needs it. */
  datatype Call =
    | CreateOrder(request: OrderRequest, response: CreateOutcome)
    | LoadStripeScript(loaded: bool)
    | CreateIntent(amount: real, currency: string)
    | ConfirmCardPayment(clientSecret: Option<string>, billingName: string, billingPhone: string, result: ConfirmOutcome)
    | Verify(data: PaymentData)
    | DeleteOrder(orderId: OrderId)

  /** The record of every external call, shared by the components that make them. */
  class CallLog {
    ghost var calls: seq<Call>

    constructor ()
      ensures calls == []
    {
      calls := [];
    }
  }
}
