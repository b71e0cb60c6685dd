/**
 * StripePaymentModal (src/Components/StripePaymentModal/StripePaymentModal.jsx):
 * the card-payment dialog. Its state is whether the Stripe instance, the
 * Elements instance and the card element exist, the isLoading flag and the
 * error message. handleSubmit confirms the payment with Stripe and reports
 * the result through at most one of the two callbacks it was given.
 */
module StripePaymentModal {
  import opened Wrappers
  import opened Backend

  datatype ModalState = ModalState(stripe: bool, elements: bool, cardElement: bool, isLoading: bool, error: Option<string>)

  /** The state after the mount effect: all three Stripe objects exist
      exactly when `window.Stripe` was there (StripePaymentModal.jsx:20-86). */
  function Mounted(stripeOnWindow: bool): (m: ModalState)
    ensures StripeReady(m) <==> stripeOnWindow
    ensures !m.isLoading && m.error.None?
    ensures CloseEnabled(m) && (SubmitEnabled(m) <==> stripeOnWindow)
  {
    ModalState(stripeOnWindow, stripeOnWindow, stripeOnWindow, false, None)
  }

  /** Which parent callback a submission fires. */
  datatype Callback =
    | NoCallback
    | PaymentErrorCallback
    | PaymentSuccessCallback(paymentIntent: PaymentIntent, paymentMethod: Option<PaymentMethod>)

  /** The outcome of one handleSubmit: the new state, the call log and the callback fired. */
  datatype Submission = Submission(state: ModalState, log: seq<Call>, callback: Callback)

  const NotLoadedMessage: string := "Stripe has not loaded yet. Please try again."
  const UnexpectedMessage: string := "An unexpected error occurred. Please try again."
  const SucceededStatus: string := "succeeded"

  predicate StripeReady(m: ModalState)
  {
    m.stripe && m.elements && m.cardElement
  }

  /** The handshake resolved without an error and with a succeeded intent. */
  predicate ConfirmedSucceeded(outcome: ConfirmOutcome)
  {
    outcome.ConfirmReturned? && outcome.error.None? && outcome.paymentIntent.Some?
    && outcome.paymentIntent.value.status == SucceededStatus
  }

  /** The handshake resolved with an error, or threw. */
  predicate ConfirmFailed(outcome: ConfirmOutcome)
  {
    outcome.ConfirmThrew? || outcome.error.Some?
  }

  /** handleSubmit (StripePaymentModal.jsx:96-134), given the props it reads
      (clientSecret, customerName, mobileNumber) and the handshake's outcome. */
  function HandleSubmitSpec(m: ModalState, log: seq<Call>, clientSecret: Option<string>, customerName: string,
                            mobileNumber: string, outcome: ConfirmOutcome): (r: Submission)
    ensures !r.state.isLoading
    ensures r.state.stripe == m.stripe && r.state.elements == m.elements && r.state.cardElement == m.cardElement
    // the outcome decides the callback: both directions
    ensures r.callback.PaymentErrorCallback? <==> StripeReady(m) && ConfirmFailed(outcome)
    ensures r.callback.PaymentSuccessCallback? <==> StripeReady(m) && ConfirmedSucceeded(outcome)
    ensures r.callback.PaymentSuccessCallback? ==>
              r.callback.paymentIntent == outcome.paymentIntent.value
              && r.callback.paymentMethod == outcome.paymentIntent.value.paymentMethod
    // a confirm call is made exactly when Stripe is ready
    ensures StripeReady(m) ==> r.log == log + [ConfirmCardPayment(clientSecret, customerName, mobileNumber, outcome)]
    ensures !StripeReady(m) ==> r.log == log && r.state.error == Some(NotLoadedMessage)
  {
    // entry: isLoading := true, error := null
    var entered := m.(isLoading := true, error := None);
    if !StripeReady(entered) then
      Submission(entered.(error := Some(NotLoadedMessage), isLoading := false), log, NoCallback)
    else
      var log1 := log + [ConfirmCardPayment(clientSecret, customerName, mobileNumber, outcome)];
      // `finally`: isLoading := false
      match outcome
      case ConfirmThrew =>
        Submission(entered.(error := Some(UnexpectedMessage), isLoading := false), log1, PaymentErrorCallback)
      case ConfirmReturned(error, paymentIntent) =>
        if error.Some? then
          Submission(entered.(error := Some(error.value.message), isLoading := false), log1, PaymentErrorCallback)
        else if paymentIntent.Some? && paymentIntent.value.status == SucceededStatus then
          Submission(entered.(isLoading := false), log1,
                     PaymentSuccessCallback(paymentIntent.value, paymentIntent.value.paymentMethod))
        else
          Submission(entered.(isLoading := false), log1, NoCallback)
  }

  /** The card element's `change` listener (StripePaymentModal.jsx:83-85). */
  function CardChangeSpec(m: ModalState, error: Option<StripeError>): (r: ModalState)
    ensures r.error.Some? <==> error.Some?
    ensures error.Some? ==> r.error.value == error.value.message
    ensures r.(error := m.error) == m
  {
    m.(error := if error.Some? then Some(error.value.message) else None)
  }

  /** The × and Cancel buttons (StripePaymentModal.jsx:145, 183). */
  predicate CloseEnabled(m: ModalState)
  {
    !m.isLoading
  }

  /** The Pay button (StripePaymentModal.jsx:190). */
  predicate SubmitEnabled(m: ModalState)
    ensures SubmitEnabled(m) ==> CloseEnabled(m)
  {
    !m.isLoading && m.stripe
  }

  // ---------------------------------------------------------------------

  /** Error messages after a submission: the handshake's own message, the
      generic one for a throw, and none at all when no error came back (the
      entry clears any earlier card error). */
  lemma SubmitErrorMessages(m: ModalState, log: seq<Call>, clientSecret: Option<string>, customerName: string,
                            mobileNumber: string, outcome: ConfirmOutcome)
    requires StripeReady(m)
    ensures var r := HandleSubmitSpec(m, log, clientSecret, customerName, mobileNumber, outcome);
      && (outcome.ConfirmThrew? ==> r.state.error == Some(UnexpectedMessage))
      && (outcome.ConfirmReturned? && outcome.error.Some? ==> r.state.error == Some(outcome.error.value.message))
      && (outcome.ConfirmReturned? && outcome.error.None? ==> r.state.error == None)
  {
  }

  /** The error shown in the dialog, whether a card error or a failed
      submission, never disables Pay, × or Cancel. */
  lemma ButtonsIgnoreError(m: ModalState, error: Option<string>)
    ensures SubmitEnabled(m.(error := error)) == SubmitEnabled(m)
    ensures CloseEnabled(m.(error := error)) == CloseEnabled(m)
  {
  }

  /** A confirmation without an error whose intent did not succeed fires no callback. */
  lemma UnsucceededIntentIsSilent(m: ModalState, log: seq<Call>, clientSecret: Option<string>, customerName: string,
                                  mobileNumber: string, outcome: ConfirmOutcome)
    requires outcome.ConfirmReturned? && outcome.error.None?
    requires outcome.paymentIntent.None? || outcome.paymentIntent.value.status != SucceededStatus
    ensures HandleSubmitSpec(m, log, clientSecret, customerName, mobileNumber, outcome).callback == NoCallback
  {
  }

  // ---------------------------------------------------------------------

  class Component {
    var stripe: bool
    var elements: bool
    var cardElement: bool
    var isLoading: bool
    var error: Option<string>
    const log: CallLog

    ghost function State(): ModalState
      reads this
    {
      ModalState(stripe, elements, cardElement, isLoading, error)
    }

    constructor (stripeOnWindow: bool, log: CallLog)
      ensures this.log == log
      ensures State() == Mounted(stripeOnWindow)
    {
      stripe, elements, cardElement := stripeOnWindow, stripeOnWindow, stripeOnWindow;
      isLoading := false;
      error := None;
      this.log := log;
    }

    method HandleSubmit(clientSecret: Option<string>, customerName: string, mobileNumber: string,
                        outcome: ConfirmOutcome) returns (callback: Callback)
      modifies this, log
      ensures var r := HandleSubmitSpec(old(State()), old(log.calls), clientSecret, customerName, mobileNumber, outcome);
        State() == r.state && log.calls == r.log && callback == r.callback
    {
      isLoading := true;
      error := None;
      if !stripe || !elements || !cardElement {
        error := Some(NotLoadedMessage);
        isLoading := false;
        return NoCallback;
      }
      log.calls := log.calls + [ConfirmCardPayment(clientSecret, customerName, mobileNumber, outcome)];
      callback := NoCallback;
      match outcome {
        case ConfirmThrew =>
          error := Some(UnexpectedMessage);
          callback := PaymentErrorCallback;
        case ConfirmReturned(err, paymentIntent) =>
          if err.Some? {
            error := Some(err.value.message);
            callback := PaymentErrorCallback;
          } else if paymentIntent.Some? && paymentIntent.value.status == SucceededStatus {
            callback := PaymentSuccessCallback(paymentIntent.value, paymentIntent.value.paymentMethod);
          }
      }
      isLoading := false;
    }

    method OnCardChange(err: Option<StripeError>)
      modifies this
      ensures State() == CardChangeSpec(old(State()), err)
    {
      error := if err.Some? then Some(err.value.message) else None;
    }

    method IsSubmitEnabled() returns (enabled: bool)
      ensures enabled == SubmitEnabled(State())
    {
      enabled := !isLoading && stripe;
    }

    method IsCloseEnabled() returns (enabled: bool)
      ensures enabled == CloseEnabled(State())
    {
      enabled := !isLoading;
    }
  }
}
