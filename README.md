# Checkout core of retail-billing-frontend, modelled in Dafny

The point-of-sale frontend settles a cart in one of two ways:

- **Cash**: one `createOrder` call.
- **UPI**: the card/UPI path through Stripe. It creates the order, loads the Stripe script and asks the backend for a payment intent. It then opens a card dialog that confirms the payment with Stripe and verifies the result with the backend; Place Order then shows the receipt. When the order turns out to be unwanted, a compensating `deleteOrder` call removes it.

This project models the three components that carry that flow, and proves what they do on every path.

- **Totals** (`totals.dfy`): the subtotal, the 1% tax and the grand total that CartSummary derives from the cart.
- **Text** (`text.dfy`): the JavaScript string operations the flow relies on:
  - `toUpperCase`;
  - `substring(0, 20) + "..."`;
  - truthiness of an optional string.
- **Backend** (`backend.dfy`): the records sent to and received from the order and payment services and the Stripe SDK. It also defines:
  - the outcome of each external call as the caller observes it (a status, a value or a throw);
  - `Call`, one entry of the log of external calls;
  - the `CallLog` object that records them.
- **CartSummary** (`cart_summary.dfy`): the checkout orchestration.
  - `SummaryState` is the component's React state plus its inputs and the call log.
  - Every handler has a `*Spec` function on that record.
  - `class Component` keeps the same state in mutable fields. Each of its methods is proved to change the state exactly as its `*Spec` function says.
- **StripePaymentModal** (`stripe_payment_modal.dfy`): the card dialog.
  - `handleSubmit` reports through at most one of the `onPaymentError` / `onPaymentSuccess` callbacks.
  - It has the card-change listener and the button guards.
  - It has both a pure and a class form.
- **ReceiptPopup** (`receipt_popup.dfy`): the receipt's derived values:
  - the status badge and icon;
  - the amount on each item row;
  - the payment-id block with its shortened ids.
- **Session** (`session.dfy`): CartSummary and the modal it renders, driven by any sequence of cashier actions and backend outcomes.
  - Its invariant is proved to hold over every run, assuming the backend gives each new order a fresh id.
  - Under the invariant, `verifyPayment` is only ever called right after a confirmation that reported success for the same intent.
  - Every delete and verification names an order the backend created.
  - No order is deleted twice, verified twice, or deleted after being verified, when each handler, with the callbacks it fires, runs as one step (see "## Left out").
  - It also proves three whole checkouts end to end: a cash sale, a card payment abandoned from the dialog, and a card payment confirmed by Stripe.

Each external call is a parameter carrying its outcome: `createOrder`, the Stripe script load, `createStripePaymentIntent`, `confirmCardPayment`, `verifyPayment` and `deleteOrder`. Each call is appended to the call log, so the order of calls is part of every contract. Toasts and console output are not modelled.

Behaviour modelled as the code has it, including its gaps:

- **No busy guard.** The code has no busy guard beyond the buttons' `disabled={isProcessing}`.
- **A failed intent leaves the order in place.** A `createStripePaymentIntent` that throws is caught without deleting the order that was just created (CartSummary.jsx:101-113).
- **Other statuses are ignored.** A `createOrder` status other than 201 takes neither branch: no toast, no delete.
- **A failed verification deletes nothing.** A verification that fails or throws deletes nothing, and the modal still closes.
- **Nothing is cleared.** `currentOrder` and `orderDetails` are never cleared, so Place Order stays enabled after an order has been placed.
- **Verification follows the SDK's report.** `verifyPayment` is called when the SDK reports `succeeded` with a payment method; without one the success handler throws before verifying, and the dialog stays open. The backend's answer then decides only whether the order is recorded as paid.

## Model

Paths are relative to the repository root.

| member | source | states |
|---|---|---|
| Totals.Compute | src/Components/CartSummary/CartSummary.jsx:21-23 | the subtotal is Σ price × quantity by an independent definition; the tax is the subtotal times the 1% rate; the grand total is subtotal + tax, that is the subtotal times 1.01 |
| Totals.Subtotal | src/Components/CartSummary/CartSummary.jsx:21 | a cart whose line totals are all non-negative has a non-negative subtotal |
| Totals.SubtotalIsSumOfLines | src/Components/CartSummary/CartSummary.jsx:21 | the left-fold `reduce` of the source equals the reference sum taken first line first |
| Totals.SumOfLinesAppend | src/Components/CartSummary/CartSummary.jsx:21 | the reference sum of two carts joined is the sum of their sums |
| Totals.SubtotalAppend | src/Components/CartSummary/CartSummary.jsx:21 | the subtotal of two carts joined is the sum of their subtotals |
| Totals.PositiveCartHasPositiveTotal | src/Components/CartSummary/CartSummary.jsx:21-23 | a non-empty cart of positive prices and quantities has a positive subtotal and a grand total above it, so the intent amount is positive |
| Totals.HundredTimesTwo | src/Components/CartSummary/CartSummary.jsx:21-23 | one line of 100 × 2 gives 200, 2 and 202 |
| Text.UpperChar | src/Components/CartSummary/CartSummary.jsx:81 | a lower-case ASCII letter maps to its capital, any other character to itself |
| Text.ToUpper | src/Components/CartSummary/CartSummary.jsx:81 | same length, each character upper-cased in place, no lower-case letter left |
| Text.ToUpperIdempotent | src/Components/CartSummary/CartSummary.jsx:81 | upper-casing twice is the same as once |
| Text.UpperedTo | src/Components/CartSummary/CartSummary.jsx:81 | a string is the upper-casing of another exactly when they agree character by character through UpperChar |
| Text.ModeAndBadgeSpellings | src/Components/CartSummary/CartSummary.jsx:81 | "cash", "upi", "paid" and "received" upper-case to CASH, UPI, PAID and RECEIVED |
| Text.Shorten | src/Components/ReceiptPopup/ReceiptPopup.jsx:114 | the result is a prefix of at most 20 characters of the id followed by "...", shorter ids kept whole |
| CartSummary.OrderRequestFor | src/Components/CartSummary/CartSummary.jsx:74-82 | the request carries the customer fields and cart unchanged, the subtotal as the reference sum, 1% tax, grand total = subtotal + tax, and CASH / UPI as the method |
| CartSummary.DeleteOrderOnFailureSpec | src/Components/CartSummary/CartSummary.jsx:54-61 | the log gains exactly one deleteOrder of the given id, whatever the backend answers |
| CartSummary.CompletePaymentSpec | src/Components/CartSummary/CartSummary.jsx:63-117 | the inputs are unchanged and the old call log is a prefix of the new one; a call is made exactly when the customer details and cart are present, and then isProcessing ends false |
| CartSummary.SubmitOrderSpec | src/Components/CartSummary/CartSummary.jsx:73-116 | the inputs are unchanged, the first new call is createOrder with the given request, and isProcessing ends false |
| CartSummary.StripeCheckoutSpec | src/Components/CartSummary/CartSummary.jsx:92-109 | two calls are appended, the script load first; a failed load is followed by deleteOrder of the saved id and changes nothing else; a loaded script is followed by one intent request for the amount in INR; the modal opens only on a created intent, with the saved order as current order; no other field changes |
| CartSummary.AbandonPaymentSpec | src/Components/CartSummary/CartSummary.jsx:135-150 | the modal is hidden; a current order is deleted with one call, no current order means no call; nothing else changes |
| CartSummary.VerifiedOrder | src/Components/CartSummary/CartSummary.jsx:164-172 | the saved order with payment details carrying the response's intent id, method id and secret and the status COMPLETED; every other field of the order is kept |
| CartSummary.HandleStripePaymentSuccessSpec | src/Components/CartSummary/CartSummary.jsx:119-133 | only the log, orderDetails and the modal flag can change; a missing payment method or current order changes nothing; otherwise one verifyPayment call for the current order and this intent is made and the modal closes |
| CartSummary.PlaceOrderSpec | src/Components/CartSummary/CartSummary.jsx:25-34 | the popup shows, the name, number and cart are cleared, and nothing else changes |
| CartSummary.PlaceOrderEnabled | src/Components/CartSummary/CartSummary.jsx:216 | an enabled Place Order implies that nothing is processing and an order is recorded |
| CartSummary.CompletePaymentRejectsIncompleteInput | src/Components/CartSummary/CartSummary.jsx:64-72 | a missing name or number, or an empty cart: the state is unchanged and no call is made |
| CartSummary.CompletePaymentSendsOrder | src/Components/CartSummary/CartSummary.jsx:74-86 | past validation, the first call is createOrder with the computed request and isProcessing ends false |
| CartSummary.CashOrderSettles | src/Components/CartSummary/CartSummary.jsx:89-91 | cash and status 201: the saved order becomes orderDetails, createOrder is the only call |
| CartSummary.UpiLoadFailureDeletesOrder | src/Components/CartSummary/CartSummary.jsx:92-98 | UPI, 201, script not loaded: calls are createOrder, the load, one deleteOrder of the saved id; nothing else changes |
| CartSummary.UpiOpensPaymentModal | src/Components/CartSummary/CartSummary.jsx:99-109 | UPI, 201, script loaded, intent created: one intent for the grand total in INR, the order and secret are stored and the modal opens, with no delete |
| CartSummary.IntentFailureLeavesOrder | src/Components/CartSummary/CartSummary.jsx:101-116 | a throwing intent request is caught: no delete, no modal, only isProcessing and the log change |
| CartSummary.UnhandledCreateOutcomeChangesNothing | src/Components/CartSummary/CartSummary.jsx:85-116 | a throwing createOrder, a status other than 201 or an unknown mode: only the createOrder call is made |
| CartSummary.VerifyPaymentHandlerSpec | src/Components/CartSummary/CartSummary.jsx:152-158 | the handler throws exactly when the saved order is null (the id is read before its `try`) |
| CartSummary.AbandonDeletesCurrentOrder | src/Components/CartSummary/CartSummary.jsx:135-150 | payment error and modal close: the current order, if any, is deleted exactly once, the modal is hidden, and a failing delete makes no difference |
| CartSummary.VerifyOutcomes | src/Components/CartSummary/CartSummary.jsx:152-180 | one verifyPayment call for the saved order id; only status 200 records the order with COMPLETED payment details; otherwise only the log changes |
| CartSummary.PaymentSuccessClosesModal | src/Components/CartSummary/CartSummary.jsx:119-128 | with a payment method and a current order, verification is requested with the intent, method and secret, and the modal closes whatever the backend answers |
| CartSummary.PaymentSuccessTypeError | src/Components/CartSummary/CartSummary.jsx:119-133 | a null payment method or current order throws inside the `try`: nothing changes and the modal stays open |
| CartSummary.PlaceOrderKeepsOrderDetails | src/Components/CartSummary/CartSummary.jsx:25-34 | placing the order clears the name and number, keeps orderDetails, and leaves Place Order enabled |
| CartSummary.Component.constructor | src/Components/CartSummary/CartSummary.jsx:14-19 | the component starts in the initial state on the given inputs and log |
| CartSummary.Component.ReceiveInputs | src/Components/CartSummary/CartSummary.jsx:11-12 | new props and cart replace the inputs; nothing else changes |
| CartSummary.Component.DeleteOrderOnFailure | src/Components/CartSummary/CartSummary.jsx:54-61 | exactly one deleteOrder call is appended, and a throw is swallowed |
| CartSummary.Component.CompletePayment | src/Components/CartSummary/CartSummary.jsx:63-117 | the new state and log are those of CompletePaymentSpec |
| CartSummary.Component.SubmitOrder | src/Components/CartSummary/CartSummary.jsx:73-116 | the new state and log are those of SubmitOrderSpec |
| CartSummary.Component.StripeCheckout | src/Components/CartSummary/CartSummary.jsx:92-109 | the new state and log are those of StripeCheckoutSpec |
| CartSummary.Component.HandleStripePaymentError | src/Components/CartSummary/CartSummary.jsx:135-142 | the new state and log are those of AbandonPaymentSpec |
| CartSummary.Component.HandleStripeModalClose | src/Components/CartSummary/CartSummary.jsx:144-150 | the new state and log are those of AbandonPaymentSpec |
| CartSummary.Component.VerifyPaymentHandler | src/Components/CartSummary/CartSummary.jsx:152-180 | reports a throw exactly for a null order, then nothing changes; otherwise the state is that of VerifyPaymentHandlerSpec |
| CartSummary.Component.HandleStripePaymentSuccess | src/Components/CartSummary/CartSummary.jsx:119-133 | the new state and log are those of HandleStripePaymentSuccessSpec |
| CartSummary.Component.PlaceOrder | src/Components/CartSummary/CartSummary.jsx:25-34 | the popup shows and the fields and cart are cleared |
| CartSummary.Component.CloseReceipt | src/Components/CartSummary/CartSummary.jsx:242 | the popup is hidden; nothing else changes |
| CartSummary.Component.IsPlaceOrderEnabled | src/Components/CartSummary/CartSummary.jsx:214-217 | Place Order is enabled exactly when nothing is processing and an order is recorded |
| StripePaymentModal.Mounted | src/Components/StripePaymentModal/StripePaymentModal.jsx:20-86 | a freshly mounted modal has the Stripe objects exactly when `window.Stripe` was present, is not loading and shows no error; × and Cancel are enabled, and Pay is enabled exactly when Stripe is there |
| StripePaymentModal.SubmitEnabled | src/Components/StripePaymentModal/StripePaymentModal.jsx:187-191 | when Pay is enabled, × and Cancel are enabled too |
| StripePaymentModal.ButtonsIgnoreError | src/Components/StripePaymentModal/StripePaymentModal.jsx:141-191 | the error message shown has no effect on whether Pay, × and Cancel are enabled |
| StripePaymentModal.HandleSubmitSpec | src/Components/StripePaymentModal/StripePaymentModal.jsx:96-134 | isLoading ends false; the error callback fires exactly when Stripe is ready and the confirmation errs or throws; the success callback fires exactly when it succeeds, carrying the intent and its method; confirmCardPayment is called exactly when Stripe is ready, otherwise the "not loaded" message is set |
| StripePaymentModal.CardChangeSpec | src/Components/StripePaymentModal/StripePaymentModal.jsx:83-85 | the error shown is the card error's message, or none, and nothing else changes |
| StripePaymentModal.SubmitErrorMessages | src/Components/StripePaymentModal/StripePaymentModal.jsx:119-130 | a throw shows the generic message, a Stripe error its own message, no error clears the message |
| StripePaymentModal.UnsucceededIntentIsSilent | src/Components/StripePaymentModal/StripePaymentModal.jsx:119-126 | no error and no succeeded intent: neither callback fires |
| StripePaymentModal.Component.constructor | src/Components/StripePaymentModal/StripePaymentModal.jsx:20-86 | the three Stripe objects exist exactly when `window.Stripe` was present; not loading, no error |
| StripePaymentModal.Component.HandleSubmit | src/Components/StripePaymentModal/StripePaymentModal.jsx:96-134 | the new state, the log and the callback fired are those of HandleSubmitSpec |
| StripePaymentModal.Component.OnCardChange | src/Components/StripePaymentModal/StripePaymentModal.jsx:83-85 | the new state is that of CardChangeSpec |
| StripePaymentModal.Component.IsSubmitEnabled | src/Components/StripePaymentModal/StripePaymentModal.jsx:187-191 | Pay is enabled exactly when not loading and Stripe exists |
| StripePaymentModal.Component.IsCloseEnabled | src/Components/StripePaymentModal/StripePaymentModal.jsx:141-146 | × and Cancel are enabled exactly when not loading |
| ReceiptPopup.ReceiptInput | src/Components/CartSummary/CartSummary.jsx:236-241 | the receipt gets the order unchanged, plus the Stripe ids of its payment details, or none when it has none |
| ReceiptPopup.PaymentStatusIcon | src/Components/ReceiptPopup/ReceiptPopup.jsx:16-21 | the icon is the card icon or the cash icon, the card icon exactly for UPI |
| ReceiptPopup.StatusBadge | src/Components/ReceiptPopup/ReceiptPopup.jsx:23-25 | the badge is "paid" or "received", "paid" exactly for UPI |
| ReceiptPopup.BadgeLabel | src/Components/ReceiptPopup/ReceiptPopup.jsx:43-44 | the badge text is the upper-cased badge, PAID exactly for UPI and RECEIVED otherwise |
| ReceiptPopup.BadgeAndIconAgree | src/Components/ReceiptPopup/ReceiptPopup.jsx:16-25 | a UPI order gets the paid badge and the card icon; any other order gets the received badge and the cash icon |
| ReceiptPopup.ItemRows | src/Components/ReceiptPopup/ReceiptPopup.jsx:72-80 | one row per item, in order, each with the item's name, quantity and price × quantity |
| ReceiptPopup.RowsMatchLines | src/Components/ReceiptPopup/ReceiptPopup.jsx:72-80 | the row amounts sum to the reference sum of the items |
| ReceiptPopup.RowsAddUpToSubtotal | src/Components/ReceiptPopup/ReceiptPopup.jsx:72-80 | the row amounts sum to the subtotal CartSummary computes |
| ReceiptPopup.PaymentDetailsBlockAsWritten | src/Components/ReceiptPopup/ReceiptPopup.jsx:108-135 | the block as written crashes exactly for a UPI order with a truthy Razorpay order id and no Razorpay payment id |
| ReceiptPopup.RazorpayPaymentIdCrash | src/Components/ReceiptPopup/ReceiptPopup.jsx:118-131 | a concrete UPI order with Razorpay order id "order_1" and no payment id makes the receipt crash |
| ReceiptPopup.PaymentDetailsBlock | src/Components/ReceiptPopup/ReceiptPopup.jsx:108-135 | the block appears exactly for UPI; each row shows the shortened id it is guarded by, present ids are shown, and the Razorpay Payment ID row is shown when both Razorpay ids are present and only then |
| ReceiptPopup.CorrectedBlockAgrees | src/Components/ReceiptPopup/ReceiptPopup.jsx:108-135 | wherever the block as written renders, the corrected block renders the same rows |
| Session.Render | src/Components/CartSummary/CartSummary.jsx:222-232 | the modal is rendered exactly when showStripeModal is set; a modal that stays rendered keeps its state; one that appears is mounted afresh, ready and not loading |
| Session.SubmitStep | src/Components/StripePaymentModal/StripePaymentModal.jsx:96-134 | the modal's Pay with the callback it fires keeps the customer fields, cart and current order, extends the log, calls confirmCardPayment first when Stripe is ready, and leaves no rendered modal loading |
| Session.Step | src/Components/CartSummary/CartSummary.jsx:63-242 | calls are only appended; a disabled or absent button changes nothing; only editing and Place Order change the customer fields and the cart |
| Session.InitialSessionInv | src/Components/CartSummary/CartSummary.jsx:14-19 | the session invariant holds on mount |
| Session.PayKeepsInv | src/Components/CartSummary/CartSummary.jsx:63-117 | Cash or UPI keeps the invariant and creates at most the one new order id |
| Session.SubmitKeepsInv | src/Components/StripePaymentModal/StripePaymentModal.jsx:96-134 | Pay in the modal, with the callback it fires, keeps the invariant and creates no order |
| Session.ReachableButtonsEnabled | src/Components/CartSummary/CartSummary.jsx:200-216 | between events, Cash and UPI are enabled, a rendered modal has Pay, × and Cancel enabled, and Place Order is enabled exactly when an order is recorded |
| Session.SucceededWithoutMethodKeepsModal | src/Components/CartSummary/CartSummary.jsx:119-133 | a confirmation reported as succeeded but without a payment method makes only the confirmCardPayment call; no verifyPayment follows, and the dialog stays open on the same order, and orderDetails is unchanged |
| Session.CloseModalKeepsInv | src/Components/CartSummary/CartSummary.jsx:144-150 | closing the modal keeps the invariant |
| Session.StepKeepsInv | src/Components/CartSummary/CartSummary.jsx:63-150 | any single event keeps the invariant when the backend's new id is fresh |
| Session.RunKeepsInv | src/Components/CartSummary/CartSummary.jsx:63-180 | every run of events keeps the invariant when the backend's ids are fresh |
| Session.CheckoutGuarantees | src/Components/CartSummary/CartSummary.jsx:119-180 | from a fresh screen, with each handler and its callbacks run as one step: verifyPayment only follows a confirmation that succeeded for the same intent; deletes and verifications only name created orders; no order is deleted twice, verified twice, or both, stated both recursively and as: any two targeted ids in the log differ |
| Session.SubmitAlwaysConfirms | src/Components/StripePaymentModal/StripePaymentModal.jsx:101-117 | in a reachable state, the modal's "not loaded" branch is never taken: every submission calls confirmCardPayment |
| Session.CardCheckoutConfirmed | src/Components/CartSummary/CartSummary.jsx:92-180 | UPI then a confirmed card: the exact five calls (create, load, intent, confirm, verify), no delete, the modal closed, and the order marked COMPLETED exactly on status 200 |
| Session.CardCheckoutConfirmedOutcome | src/Components/CartSummary/CartSummary.jsx:119-180 | after UPI and a confirmed card the modal is closed, and the order is marked COMPLETED exactly on status 200 |
| Session.CardCheckoutConfirmedLog | src/Components/CartSummary/CartSummary.jsx:92-161 | after UPI and a confirmed card the log is exactly create, load, intent, confirm and verify |
| Session.CardModalOpened | src/Components/CartSummary/CartSummary.jsx:92-109 | UPI on a fresh screen with a loaded script and a created intent opens a freshly mounted modal on the saved order and its secret, after create, load and intent |
| Session.CardCheckoutCancelled | src/Components/CartSummary/CartSummary.jsx:144-150 | UPI then Cancel: create, load, intent and one deleteOrder of the saved id; nothing recorded for the receipt |
| Session.CashCheckout | src/Components/CartSummary/CartSummary.jsx:25-91 | Cash then Place Order: one createOrder with method CASH, the receipt shows the saved order, and the inputs are cleared |
| Session.VerifiedReceiptShowsPaymentId | src/Components/ReceiptPopup/ReceiptPopup.jsx:108-117 | a verified UPI order's receipt shows PAID and the shortened payment intent id |

## Left out

- Toasts, `console.error`, `window.print` (`handlePrintReceipt`) and `formatDateTime` are display or clock effects, and are not modelled.
- The Stripe script injection of `loadStripeScript` (CartSummary.jsx:40-52) is reduced to the bool it resolves with. The Stripe SDK's own behaviour (instance, elements, card mounting after 100 ms, unmount on cleanup) is reduced to whether the objects exist.
- The order, payment and Stripe services are reduced to the outcomes their callers observe, passed in as parameters. Their implementations (`Service/OrderService.js`, `Service/PaymentService.js`) are not part of this model.
- Each handler runs as one atomic step. The suspensions at each `await` are not modelled, so neither are clicks interleaved with them or React's deferred state updates. Because `isProcessing` is reset before the next event, the Cash/UPI `disabled` guard is never seen true between steps.
- Totals.Compute: amounts are exact reals. JavaScript floating-point rounding and the `toFixed(2)` display are not modelled.
- Text.ToUpper: only ASCII a-z are upper-cased. Other characters are left as they are, unlike `toUpperCase`'s full Unicode mapping.
- Text.Shorten: counts characters, not UTF-16 code units as `substring` does.
- Session.Render: when the modal mounts, it is assumed to find `window.Stripe`. This holds because the modal only opens after the script loaded.
- Session.RunKeepsInv: the backend is assumed to give each created order a fresh id (`FreshIds`). This is a requirement on the backend, not something the frontend checks.
- Session.CheckoutGuarantees: `handleSubmit` calls `onPaymentError` and `onPaymentSuccess` without `await` (StripePaymentModal.jsx:121, 125, 130), so its `finally` (StripePaymentModal.jsx:131-132) re-enables ×, Cancel and Pay while `verifyPayment` or `deleteOrder` is still pending. In that window a Cancel deletes an order whose verification is in flight, and a second Pay confirms and verifies it again. The model runs the callback inside the Submit step, so its no-duplicate guarantee holds only under that one-step reading.
- `stripeResponse.data.clientSecret` and other response bodies are assumed well-formed. A malformed body that would throw a TypeError is not modelled.
- The rest of the application (App, Explore, ManageCategory, ManageItems, the cart context) is not part of this model. Only the cart items and the customer fields it supplies appear, as inputs.

## Findings

| source | as written | input that shows it | evidently intended | confidence | as-written member | corrected member |
|---|---|---|---|---|---|---|
| src/Components/ReceiptPopup/ReceiptPopup.jsx:118-131 | both Razorpay rows are guarded by `razorpayOrderId` alone, and the second calls `razorpayPaymentId.substring` | a UPI order with `razorpayOrderId = "order_1"` and no `razorpayPaymentId`: the receipt throws a TypeError while rendering | the Razorpay Payment ID row is shown only when its own id is present, as every other row is | not executed | ReceiptPopup.PaymentDetailsBlockAsWritten, ReceiptPopup.RazorpayPaymentIdCrash | ReceiptPopup.PaymentDetailsBlock |
