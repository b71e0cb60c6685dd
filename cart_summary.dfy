/**
 * CartSummary (src/Components/CartSummary/CartSummary.jsx): the checkout
 * orchestration. Its React state (isProcessing, orderDetails, showPopup,
 * showStripeModal, currentOrder, stripeClientSecret), together with the
 * customer fields and cart it receives and clears, is the record
 * SummaryState; each handler is one atomic step. The *Spec functions say
 * what each handler does to that record and which external calls it makes;
 * class Component holds the same state in mutable fields and its methods are
 * proved to follow the *Spec functions.
 */
module CartSummary {
  import opened Wrappers
  import opened Totals
  import opened Text
  import opened Backend

  datatype SummaryState = SummaryState(
    // inputs owned by the parent page and the cart context; clearAll resets them
    customerName: string,
    mobileNumber: string,
    cartItems: seq<CartItem>,
    // the component's own state
    isProcessing: bool,
    orderDetails: Option<SavedOrder>,
    showPopup: bool,
    showStripeModal: bool,
    currentOrder: Option<SavedOrder>,
    stripeClientSecret: Option<string>,
    // every external call made so far
    log: seq<Call>)

  /** The state on mount (CartSummary.jsx:14-19). */
  function Initial(customerName: string, mobileNumber: string, cartItems: seq<CartItem>, log: seq<Call>): SummaryState
  {
    SummaryState(customerName, mobileNumber, cartItems, false, None, false, false, None, None, log)
  }

  /** The payment-mode strings the two buttons pass. */
  const CashMode: string := "cash"
  const UpiMode: string := "upi"

  /** The checks completePayment makes before anything else. */
  predicate HasCustomerDetails(s: SummaryState)
  {
    s.customerName != "" && s.mobileNumber != ""
  }

  predicate ReadyToSubmit(s: SummaryState)
  {
    HasCustomerDetails(s) && |s.cartItems| > 0
  }

  /** The `orderData` built from the current inputs. */
  function OrderRequestFor(s: SummaryState, paymentMode: string): (r: OrderRequest)
    ensures r.customerName == s.customerName && r.phoneNumber == s.mobileNumber
    ensures r.cartItems == s.cartItems
    ensures r.subtotal == SumOfLines(s.cartItems)
    ensures r.tax == r.subtotal * TaxRate && r.grandTotal == r.subtotal + r.tax
    ensures paymentMode == CashMode ==> r.paymentMethod == "CASH"
    ensures paymentMode == UpiMode ==> r.paymentMethod == "UPI"
  {
    ModeAndBadgeSpellings();
    var a := Compute(s.cartItems);
    OrderRequest(s.customerName, s.mobileNumber, s.cartItems, a.subtotal, a.tax, a.grandTotal, ToUpper(paymentMode))
  }

  /** deleteOrderOnFailure (CartSummary.jsx:54-61): one deleteOrder call; a
      failure is swallowed, so the outcome does not change what follows. */
  function DeleteOrderOnFailureSpec(log: seq<Call>, orderId: OrderId, deleted: DeleteOutcome): (r: seq<Call>)
    ensures |r| == |log| + 1 && r[..|log|] == log && r[|log|] == DeleteOrder(orderId)
  {
    log + [DeleteOrder(orderId)]
  }

  /** completePayment (CartSummary.jsx:63-117). */
  function CompletePaymentSpec(s: SummaryState, paymentMode: string, created: CreateOutcome,
                               stripeLoaded: bool, intent: IntentOutcome, deleted: DeleteOutcome): (t: SummaryState)
    ensures t.customerName == s.customerName && t.mobileNumber == s.mobileNumber && t.cartItems == s.cartItems
    ensures |s.log| <= |t.log| && t.log[..|s.log|] == s.log
    ensures ReadyToSubmit(s) <==> |t.log| > |s.log|
    ensures ReadyToSubmit(s) ==> !t.isProcessing
  {
    if !HasCustomerDetails(s) then s
    else if |s.cartItems| == 0 then s
    else
      SubmitOrderSpec(s, OrderRequestFor(s, paymentMode), paymentMode, created, stripeLoaded, intent, deleted)
  }

  /** The `try` block of completePayment from createOrder on, with its
      `finally` (CartSummary.jsx:73-116): send the request, then keep the
      saved order (cash) or go on to the Stripe checkout (UPI) when the
      backend answers 201. */
  function SubmitOrderSpec(s: SummaryState, request: OrderRequest, paymentMode: string, created: CreateOutcome,
                           stripeLoaded: bool, intent: IntentOutcome, deleted: DeleteOutcome): (t: SummaryState)
    ensures t.customerName == s.customerName && t.mobileNumber == s.mobileNumber && t.cartItems == s.cartItems
    ensures |t.log| > |s.log| && t.log[..|s.log|] == s.log && t.log[|s.log|] == CreateOrder(request, created)
    ensures !t.isProcessing
  {
    var t1 := s.(isProcessing := true, log := s.log + [CreateOrder(request, created)]);
    var t2 :=
      match created
      case CreateThrew => t1
      case Created(status, saved) =>
        if status == 201 && paymentMode == CashMode then
          t1.(orderDetails := Some(saved))
        else if status == 201 && paymentMode == UpiMode then
          StripeCheckoutSpec(t1, saved, request.grandTotal, stripeLoaded, intent, deleted)
        else t1;
    // the `finally` block resets isProcessing on every path
    t2.(isProcessing := false)
  }

  /** The UPI branch of completePayment once the order is saved
      (CartSummary.jsx:93-109): load the Stripe script, delete the order if
      that fails, otherwise request an intent for the amount and open the
      modal with it. */
  function StripeCheckoutSpec(s: SummaryState, saved: SavedOrder, amount: real, stripeLoaded: bool,
                              intent: IntentOutcome, deleted: DeleteOutcome): (t: SummaryState)
    ensures t.(log := s.log, currentOrder := s.currentOrder, stripeClientSecret := s.stripeClientSecret,
               showStripeModal := s.showStripeModal) == s
    ensures |t.log| == |s.log| + 2 && t.log[..|s.log|] == s.log && t.log[|s.log|] == LoadStripeScript(stripeLoaded)
    ensures !stripeLoaded ==> t == s.(log := t.log) && t.log[|s.log| + 1] == DeleteOrder(saved.orderId)
    ensures stripeLoaded ==> t.log[|s.log| + 1] == CreateIntent(amount, "INR")
    ensures t.showStripeModal != s.showStripeModal ==> stripeLoaded && intent.IntentCreated? && t.currentOrder == Some(saved)
  {
    var loaded1 := s.log + [LoadStripeScript(stripeLoaded)];
    if !stripeLoaded then
      s.(log := DeleteOrderOnFailureSpec(loaded1, saved.orderId, deleted))
    else
      var intent1 := loaded1 + [CreateIntent(amount, "INR")];
      match intent
      case IntentThrew => s.(log := intent1)
      case IntentCreated(secret) =>
        s.(log := intent1, currentOrder := Some(saved), stripeClientSecret := Some(secret), showStripeModal := true)
  }

  /** handleStripePaymentError (CartSummary.jsx:135-142) and
      handleStripeModalClose (CartSummary.jsx:144-150) change the state in the
      same way (they differ only in their toasts): delete the current order,
      if any, then hide the modal. */
  function AbandonPaymentSpec(s: SummaryState, deleted: DeleteOutcome): (t: SummaryState)
    ensures !t.showStripeModal
    ensures t.(log := s.log, showStripeModal := s.showStripeModal) == s
    ensures s.currentOrder.Some? ==> t.log == s.log + [DeleteOrder(s.currentOrder.value.orderId)]
    ensures s.currentOrder.None? ==> t.log == s.log
  {
    var log := if s.currentOrder.Some? then DeleteOrderOnFailureSpec(s.log, s.currentOrder.value.orderId, deleted) else s.log;
    s.(log := log, showStripeModal := false)
  }

  /** The `response` object handed to verifyPaymentHandler. */
  datatype StripeResponse = StripeResponse(stripePaymentIntentId: string, stripePaymentMethodId: string, clientSecret: Option<string>)

  /** The order as it stands after a successful verification (CartSummary.jsx:164-172). */
  function VerifiedOrder(saved: SavedOrder, response: StripeResponse): (o: SavedOrder)
    ensures o.paymentDetails.Some? && o.paymentDetails.value.status == "COMPLETED"
    ensures o.paymentDetails.value.stripePaymentIntentId == response.stripePaymentIntentId
    ensures o.paymentDetails.value.stripePaymentMethodId == response.stripePaymentMethodId
    ensures o.paymentDetails.value.clientSecret == response.clientSecret
    ensures o.(paymentDetails := saved.paymentDetails) == saved
  {
    saved.(paymentDetails := Some(PaymentDetails(response.stripePaymentIntentId, response.stripePaymentMethodId,
                                                 response.clientSecret, "COMPLETED")))
  }

  /** verifyPaymentHandler (CartSummary.jsx:152-180). None: it threw, because
      `savedOrder.orderId` is read from a null order before its `try`. */
  function VerifyPaymentHandlerSpec(s: SummaryState, response: StripeResponse, savedOrder: Option<SavedOrder>,
                                    verified: VerifyOutcome): (r: Option<SummaryState>)
    ensures r.None? <==> savedOrder.None?
  {
    if savedOrder.None? then None
    else
      var data := PaymentData(response.stripePaymentIntentId, response.stripePaymentMethodId,
                              response.clientSecret, savedOrder.value.orderId);
      var log := s.log + [Verify(data)];
      if verified == VerifyResponded(200) then
        Some(s.(log := log, orderDetails := Some(VerifiedOrder(savedOrder.value, response))))
      else
        Some(s.(log := log))
  }

  /** handleStripePaymentSuccess (CartSummary.jsx:119-133). Reading
      `paymentMethod.id` of a missing payment method, or the handler throwing,
      lands in its `catch`: nothing changes and the modal stays open. */
  function HandleStripePaymentSuccessSpec(s: SummaryState, paymentIntent: PaymentIntent,
                                          paymentMethod: Option<PaymentMethod>, verified: VerifyOutcome): (t: SummaryState)
    // only the log, orderDetails and showStripeModal can change
    ensures t.(log := s.log, orderDetails := s.orderDetails, showStripeModal := s.showStripeModal) == s
    ensures paymentMethod.None? || s.currentOrder.None? ==> t == s
    ensures paymentMethod.Some? && s.currentOrder.Some? ==>
              !t.showStripeModal && |t.log| == |s.log| + 1 && t.log[..|s.log|] == s.log && t.log[|s.log|].Verify?
              && t.log[|s.log|].data.orderId == s.currentOrder.value.orderId
              && t.log[|s.log|].data.stripePaymentIntentId == paymentIntent.id
  {
    if paymentMethod.None? then s
    else
      var response := StripeResponse(paymentIntent.id, paymentMethod.value.id, s.stripeClientSecret);
      match VerifyPaymentHandlerSpec(s, response, s.currentOrder, verified)
      case None => s
      case Some(t) => t.(showStripeModal := false)
  }

  /** placeOrder and clearAll (CartSummary.jsx:25-34). */
  function PlaceOrderSpec(s: SummaryState): (t: SummaryState)
    ensures t.showPopup && t.customerName == "" && t.mobileNumber == "" && t.cartItems == []
    ensures t.(showPopup := s.showPopup, customerName := s.customerName, mobileNumber := s.mobileNumber,
               cartItems := s.cartItems) == s
  {
    s.(showPopup := true, customerName := "", mobileNumber := "", cartItems := [])
  }

  /** The receipt's onClose (CartSummary.jsx:242). */
  function CloseReceiptSpec(s: SummaryState): SummaryState
  {
    s.(showPopup := false)
  }

  /** The Cash and UPI buttons (CartSummary.jsx:202, 208). */
  predicate PaymentButtonsEnabled(s: SummaryState)
  {
    !s.isProcessing
  }

  /** The Place Order button (CartSummary.jsx:216). */
  predicate PlaceOrderEnabled(s: SummaryState)
    ensures PlaceOrderEnabled(s) ==> PaymentButtonsEnabled(s) && s.orderDetails.Some?
  {
    !s.isProcessing && s.orderDetails.Some?
  }

  // ---------------------------------------------------------------------
  // Properties of completePayment

  /** Missing customer details or an empty cart: nothing happens at all. */
  lemma CompletePaymentRejectsIncompleteInput(s: SummaryState, paymentMode: string, created: CreateOutcome,
                                              stripeLoaded: bool, intent: IntentOutcome, deleted: DeleteOutcome)
    requires !ReadyToSubmit(s)
    ensures CompletePaymentSpec(s, paymentMode, created, stripeLoaded, intent, deleted) == s
  {
  }

  /** Past validation the first call is createOrder with the computed amounts
      and the upper-cased mode, and isProcessing is false afterwards. */
  lemma CompletePaymentSendsOrder(s: SummaryState, paymentMode: string, created: CreateOutcome,
                                  stripeLoaded: bool, intent: IntentOutcome, deleted: DeleteOutcome)
    requires ReadyToSubmit(s)
    ensures var t := CompletePaymentSpec(s, paymentMode, created, stripeLoaded, intent, deleted);
      && t.log[|s.log|] == CreateOrder(OrderRequestFor(s, paymentMode), created)
      && !t.isProcessing
      && (paymentMode == CashMode ==> OrderRequestFor(s, paymentMode).paymentMethod == "CASH")
      && (paymentMode == UpiMode ==> OrderRequestFor(s, paymentMode).paymentMethod == "UPI")
  {
  }

  /** Cash with status 201: the saved order becomes orderDetails; no gateway
      call and no delete. */
  lemma CashOrderSettles(s: SummaryState, created: CreateOutcome, stripeLoaded: bool,
                         intent: IntentOutcome, deleted: DeleteOutcome)
    requires ReadyToSubmit(s) && created.Created? && created.status == 201
    ensures CompletePaymentSpec(s, CashMode, created, stripeLoaded, intent, deleted)
         == s.(isProcessing := false, orderDetails := Some(created.saved),
               log := s.log + [CreateOrder(OrderRequestFor(s, CashMode), created)])
  {
  }

  /** UPI with status 201 and a failed script load: exactly one delete, of
      the saved order; no intent; the modal is not shown. */
  lemma UpiLoadFailureDeletesOrder(s: SummaryState, created: CreateOutcome, intent: IntentOutcome, deleted: DeleteOutcome)
    requires ReadyToSubmit(s) && created.Created? && created.status == 201
    ensures CompletePaymentSpec(s, UpiMode, created, false, intent, deleted)
         == s.(isProcessing := false,
               log := s.log + [CreateOrder(OrderRequestFor(s, UpiMode), created)] + [LoadStripeScript(false)]
                      + [DeleteOrder(created.saved.orderId)])
  {
  }

  /** UPI with status 201 and a loaded script: one intent for the grand total
      in INR; with a client secret the order is kept as currentOrder and the
      modal opens, without any delete. */
  lemma UpiOpensPaymentModal(s: SummaryState, created: CreateOutcome, secret: string, deleted: DeleteOutcome)
    requires ReadyToSubmit(s) && created.Created? && created.status == 201
    ensures CompletePaymentSpec(s, UpiMode, created, true, IntentCreated(secret), deleted)
         == s.(isProcessing := false, currentOrder := Some(created.saved), stripeClientSecret := Some(secret),
               showStripeModal := true,
               log := s.log + [CreateOrder(OrderRequestFor(s, UpiMode), created)] + [LoadStripeScript(true)]
                      + [CreateIntent(Compute(s.cartItems).grandTotal, "INR")])
  {
  }

  /** A thrown createStripePaymentIntent is caught: the created order is not
      deleted and nothing but isProcessing changes. */
  lemma IntentFailureLeavesOrder(s: SummaryState, created: CreateOutcome, deleted: DeleteOutcome)
    requires ReadyToSubmit(s) && created.Created? && created.status == 201
    ensures CompletePaymentSpec(s, UpiMode, created, true, IntentThrew, deleted)
         == s.(isProcessing := false,
               log := s.log + [CreateOrder(OrderRequestFor(s, UpiMode), created)] + [LoadStripeScript(true)]
                      + [CreateIntent(Compute(s.cartItems).grandTotal, "INR")])
  {
  }

  /** A thrown createOrder, a status other than 201, or a mode other than
      "cash" and "upi": only the createOrder call and isProcessing change. */
  lemma UnhandledCreateOutcomeChangesNothing(s: SummaryState, paymentMode: string, created: CreateOutcome,
                                             stripeLoaded: bool, intent: IntentOutcome, deleted: DeleteOutcome)
    requires ReadyToSubmit(s)
    requires created.CreateThrew? || created.status != 201 || (paymentMode != CashMode && paymentMode != UpiMode)
    ensures CompletePaymentSpec(s, paymentMode, created, stripeLoaded, intent, deleted)
         == s.(isProcessing := false, log := s.log + [CreateOrder(OrderRequestFor(s, paymentMode), created)])
  {
  }

  // ---------------------------------------------------------------------
  // Properties of the Stripe handlers

  /** Error and close: the current order, when there is one, is deleted
      exactly once; without one no call is made; the modal is hidden; a
      failing delete makes no difference. */
  lemma AbandonDeletesCurrentOrder(s: SummaryState, deleted: DeleteOutcome)
    ensures s.currentOrder.Some? ==>
      AbandonPaymentSpec(s, deleted) == s.(showStripeModal := false, log := s.log + [DeleteOrder(s.currentOrder.value.orderId)])
    ensures s.currentOrder.None? ==> AbandonPaymentSpec(s, deleted) == s.(showStripeModal := false)
    ensures AbandonPaymentSpec(s, deleted) == AbandonPaymentSpec(s, DeleteThrew)
  {
  }

  /** Only status 200 records the order as paid, with a COMPLETED payment
      detail; any other answer or a throw leaves orderDetails as it was.
      Either way exactly one verifyPayment call, for the saved order id, and
      no delete. */
  lemma VerifyOutcomes(s: SummaryState, response: StripeResponse, saved: SavedOrder, verified: VerifyOutcome)
    ensures var r := VerifyPaymentHandlerSpec(s, response, Some(saved), verified);
      && r.Some?
      && r.value.log == s.log + [Verify(PaymentData(response.stripePaymentIntentId, response.stripePaymentMethodId,
                                                   response.clientSecret, saved.orderId))]
      && (verified == VerifyResponded(200) ==>
            r.value.orderDetails == Some(VerifiedOrder(saved, response))
            && r.value.orderDetails.value.paymentDetails.value.status == "COMPLETED")
      && (verified != VerifyResponded(200) ==> r.value == s.(log := r.value.log))
  {
  }

  /** With a payment method and a current order, handleStripePaymentSuccess
      always closes the modal, whatever verifyPayment does. */
  lemma PaymentSuccessClosesModal(s: SummaryState, paymentIntent: PaymentIntent, paymentMethod: PaymentMethod,
                                  verified: VerifyOutcome)
    requires s.currentOrder.Some?
    ensures var t := HandleStripePaymentSuccessSpec(s, paymentIntent, Some(paymentMethod), verified);
      && !t.showStripeModal
      && t.currentOrder == s.currentOrder
      && t.log == s.log + [Verify(PaymentData(paymentIntent.id, paymentMethod.id, s.stripeClientSecret,
                                               s.currentOrder.value.orderId))]
  {
  }

  /** A missing payment method or current order throws inside the handler's
      `try`: no call, no change, and the modal stays open. */
  lemma PaymentSuccessTypeError(s: SummaryState, paymentIntent: PaymentIntent, paymentMethod: Option<PaymentMethod>,
                                verified: VerifyOutcome)
    requires paymentMethod.None? || s.currentOrder.None?
    ensures HandleStripePaymentSuccessSpec(s, paymentIntent, paymentMethod, verified) == s
  {
  }

  /** Place Order is enabled exactly when an order was recorded and nothing
      is in progress; placing it leaves orderDetails in place, so it stays
      enabled for the next cart. */
  lemma PlaceOrderKeepsOrderDetails(s: SummaryState)
    requires PlaceOrderEnabled(s)
    ensures PlaceOrderSpec(s).orderDetails == s.orderDetails && PlaceOrderEnabled(PlaceOrderSpec(s))
    ensures PlaceOrderSpec(s).showPopup && PlaceOrderSpec(s).cartItems == []
    ensures PlaceOrderSpec(s).customerName == "" && PlaceOrderSpec(s).mobileNumber == ""
  {
  }

  // ---------------------------------------------------------------------
  // The component with its mutable state

  class Component {
    var customerName: string
    var mobileNumber: string
    var cartItems: seq<CartItem>
    var isProcessing: bool
    var orderDetails: Option<SavedOrder>
    var showPopup: bool
    var showStripeModal: bool
    var currentOrder: Option<SavedOrder>
    var stripeClientSecret: Option<string>
    /** Where the component's external calls are recorded. */
    const log: CallLog

    ghost function State(): SummaryState
      reads this, log
    {
      SummaryState(customerName, mobileNumber, cartItems, isProcessing, orderDetails, showPopup,
                   showStripeModal, currentOrder, stripeClientSecret, log.calls)
    }

    constructor (customerName: string, mobileNumber: string, cartItems: seq<CartItem>, log: CallLog)
      ensures this.log == log
      ensures State() == Initial(customerName, mobileNumber, cartItems, log.calls)
    {
      this.customerName := customerName;
      this.mobileNumber := mobileNumber;
      this.cartItems := cartItems;
      this.log := log;
      isProcessing := false;
      orderDetails := None;
      showPopup := false;
      showStripeModal := false;
      currentOrder := None;
      stripeClientSecret := None;
    }

    /** The parent re-renders with new customer fields, or the cart changes. */
    method ReceiveInputs(customerName: string, mobileNumber: string, cartItems: seq<CartItem>)
      modifies this
      ensures State() == old(State()).(customerName := customerName, mobileNumber := mobileNumber, cartItems := cartItems)
    {
      this.customerName := customerName;
      this.mobileNumber := mobileNumber;
      this.cartItems := cartItems;
    }

    method DeleteOrderOnFailure(orderId: OrderId, deleted: DeleteOutcome)
      modifies log
      ensures log.calls == DeleteOrderOnFailureSpec(old(log.calls), orderId, deleted)
    {
      log.calls := log.calls + [DeleteOrder(orderId)];
      match deleted {
        case Deleted =>
        case DeleteThrew =>  // caught: logged and toasted only
      }
    }

    method CompletePayment(paymentMode: string, created: CreateOutcome, stripeLoaded: bool,
                           intent: IntentOutcome, deleted: DeleteOutcome)
      modifies this, log
      ensures State() == CompletePaymentSpec(old(State()), paymentMode, created, stripeLoaded, intent, deleted)
    {
      if customerName == "" || mobileNumber == "" {
        return;
      }
      if |cartItems| == 0 {
        return;
      }
      var amounts := Compute(cartItems);
      var orderData := OrderRequest(customerName, mobileNumber, cartItems, amounts.subtotal, amounts.tax,
                                    amounts.grandTotal, ToUpper(paymentMode));
      assert orderData == OrderRequestFor(State(), paymentMode);
      SubmitOrder(orderData, paymentMode, created, stripeLoaded, intent, deleted);
    }

    method SubmitOrder(orderData: OrderRequest, paymentMode: string, created: CreateOutcome, stripeLoaded: bool,
                       intent: IntentOutcome, deleted: DeleteOutcome)
      modifies this, log
      ensures State() == SubmitOrderSpec(old(State()), orderData, paymentMode, created, stripeLoaded, intent, deleted)
    {
      isProcessing := true;
      log.calls := log.calls + [CreateOrder(orderData, created)];
      match created {
        case CreateThrew =>
        case Created(status, savedData) =>
          if status == 201 && paymentMode == CashMode {
            orderDetails := Some(savedData);
          } else if status == 201 && paymentMode == UpiMode {
            StripeCheckout(savedData, orderData.grandTotal, stripeLoaded, intent, deleted);
          }
      }
      isProcessing := false;
    }

    /** The awaited steps of the UPI branch; the caller's `finally` resets isProcessing. */
    method StripeCheckout(savedData: SavedOrder, amount: real, stripeLoaded: bool, intent: IntentOutcome,
                          deleted: DeleteOutcome)
      modifies this, log
      ensures State() == StripeCheckoutSpec(old(State()), savedData, amount, stripeLoaded, intent, deleted)
    {
      log.calls := log.calls + [LoadStripeScript(stripeLoaded)];
      if !stripeLoaded {
        DeleteOrderOnFailure(savedData.orderId, deleted);
        return;
      }
      log.calls := log.calls + [CreateIntent(amount, "INR")];
      match intent {
        case IntentThrew =>
        case IntentCreated(secret) =>
          currentOrder := Some(savedData);
          stripeClientSecret := Some(secret);
          showStripeModal := true;
      }
    }

    method HandleStripePaymentError(deleted: DeleteOutcome)
      modifies this, log
      ensures State() == AbandonPaymentSpec(old(State()), deleted)
    {
      if currentOrder.Some? {
        DeleteOrderOnFailure(currentOrder.value.orderId, deleted);
      }
      showStripeModal := false;
    }

    method HandleStripeModalClose(deleted: DeleteOutcome)
      modifies this, log
      ensures State() == AbandonPaymentSpec(old(State()), deleted)
    {
      if currentOrder.Some? {
        DeleteOrderOnFailure(currentOrder.value.orderId, deleted);
      }
      showStripeModal := false;
    }

    /** Returns whether it threw (a null savedOrder). */
    method VerifyPaymentHandler(response: StripeResponse, savedOrder: Option<SavedOrder>, verified: VerifyOutcome)
      returns (threw: bool)
      modifies this, log
      ensures threw == VerifyPaymentHandlerSpec(old(State()), response, savedOrder, verified).None?
      ensures threw ==> State() == old(State())
      ensures !threw ==> State() == VerifyPaymentHandlerSpec(old(State()), response, savedOrder, verified).value
    {
      if savedOrder.None? {
        return true;
      }
      var paymentData := PaymentData(response.stripePaymentIntentId, response.stripePaymentMethodId,
                                     response.clientSecret, savedOrder.value.orderId);
      log.calls := log.calls + [Verify(paymentData)];
      if verified == VerifyResponded(200) {
        orderDetails := Some(VerifiedOrder(savedOrder.value, response));
      }
      return false;
    }

    method HandleStripePaymentSuccess(paymentIntent: PaymentIntent, paymentMethod: Option<PaymentMethod>,
                                      verified: VerifyOutcome)
      modifies this, log
      ensures State() == HandleStripePaymentSuccessSpec(old(State()), paymentIntent, paymentMethod, verified)
    {
      if paymentMethod.None? {
        return;
      }
      var response := StripeResponse(paymentIntent.id, paymentMethod.value.id, stripeClientSecret);
      var threw := VerifyPaymentHandler(response, currentOrder, verified);
      if threw {
        return;
      }
      showStripeModal := false;
    }

    method PlaceOrder()
      modifies this
      ensures State() == PlaceOrderSpec(old(State()))
    {
      showPopup := true;
      customerName := "";
      mobileNumber := "";
      cartItems := [];
    }

    method CloseReceipt()
      modifies this
      ensures State() == CloseReceiptSpec(old(State()))
    {
      showPopup := false;
    }

    method IsPlaceOrderEnabled() returns (enabled: bool)
      ensures enabled == PlaceOrderEnabled(State())
    {
      enabled := !isProcessing && orderDetails.Some?;
    }
  }
}
