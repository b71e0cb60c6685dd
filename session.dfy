/**
 * One checkout screen over time: CartSummary together with the
 * StripePaymentModal it renders while showStripeModal is set. Each event is
 * one handler run to completion; the modal's callbacks run right after its
 * handleSubmit. The lemmas here are about whole runs: which calls can follow
 * which, and how often an order can be deleted or verified.
 */
module Session {
  import opened Wrappers
  import opened Totals
  import opened Backend
  import CartSummary
  import StripePaymentModal
  import ReceiptPopup
  import Text

  datatype SessionState = SessionState(summary: CartSummary.SummaryState, modal: Option<StripePaymentModal.ModalState>)

  /** What the cashier or the outside world does, with the outcome of every
      external call the resulting handlers may make. */
  datatype Event =
    | Edit(customerName: string, mobileNumber: string, cartItems: seq<CartItem>)
    | Pay(paymentMode: string, created: CreateOutcome, stripeLoaded: bool, intent: IntentOutcome, deleted: DeleteOutcome)
    | CardChange(error: Option<StripeError>)
    | Submit(confirm: ConfirmOutcome, verified: VerifyOutcome, deleted: DeleteOutcome)
    | CloseModal(deleted: DeleteOutcome)
    | PlaceOrder
    | CloseReceipt

  function InitialSession(customerName: string, mobileNumber: string, cartItems: seq<CartItem>): SessionState
  {
    SessionState(CartSummary.Initial(customerName, mobileNumber, cartItems, []), None)
  }

  /** `{showStripeModal && <StripePaymentModal .../>}` (CartSummary.jsx:222-232):
      the modal keeps its state while it stays rendered and is mounted afresh
      when it appears. It only appears after the Stripe script has loaded,
      so `window.Stripe` is there when it mounts. */
  function Render(previous: Option<StripePaymentModal.ModalState>, summary: CartSummary.SummaryState)
    : (r: Option<StripePaymentModal.ModalState>)
    ensures r.Some? <==> summary.showStripeModal
    ensures summary.showStripeModal && previous.Some? ==> r == previous
    ensures summary.showStripeModal && previous.None? ==> StripePaymentModal.StripeReady(r.value) && !r.value.isLoading
  {
    if !summary.showStripeModal then None
    else if previous.Some? then previous
    else Some(StripePaymentModal.Mounted(true))
  }

  /** The modal's Pay button: handleSubmit, then the callback it fires. */
  function SubmitStep(summary: CartSummary.SummaryState, modal: StripePaymentModal.ModalState,
                      confirm: ConfirmOutcome, verified: VerifyOutcome, deleted: DeleteOutcome): (r: SessionState)
    // the customer fields, the cart and the current order stay as they were
    ensures r.summary.customerName == summary.customerName && r.summary.mobileNumber == summary.mobileNumber
    ensures r.summary.cartItems == summary.cartItems && r.summary.currentOrder == summary.currentOrder
    // the calls made extend the log, with confirmCardPayment first when Stripe is ready
    ensures |summary.log| <= |r.summary.log| && r.summary.log[..|summary.log|] == summary.log
    ensures StripePaymentModal.StripeReady(modal) ==>
              |r.summary.log| > |summary.log|
              && r.summary.log[|summary.log|] == ConfirmCardPayment(summary.stripeClientSecret, summary.customerName,
                                                                   summary.mobileNumber, confirm)
    ensures r.modal.Some? ==> !r.modal.value.isLoading
  {
    var sub := StripePaymentModal.HandleSubmitSpec(modal, summary.log, summary.stripeClientSecret,
                                                   summary.customerName, summary.mobileNumber, confirm);
    var summary1 := summary.(log := sub.log);
    var summary2 :=
      match sub.callback
      case NoCallback => summary1
      case PaymentErrorCallback => CartSummary.AbandonPaymentSpec(summary1, deleted)
      case PaymentSuccessCallback(paymentIntent, paymentMethod) =>
        CartSummary.HandleStripePaymentSuccessSpec(summary1, paymentIntent, paymentMethod, verified);
    SessionState(summary2, Render(Some(sub.state), summary2))
  }

  /** One event. A click on a button that is disabled, or not on screen, does nothing. */
  function Step(s: SessionState, e: Event): (r: SessionState)
    // calls are only ever appended
    ensures |s.summary.log| <= |r.summary.log| && r.summary.log[..|s.summary.log|] == s.summary.log
    // a disabled or absent button does nothing
    ensures e.Pay? && !CartSummary.PaymentButtonsEnabled(s.summary) ==> r == s
    ensures (e.CardChange? || e.Submit? || e.CloseModal?) && s.modal.None? ==> r == s
    ensures e.PlaceOrder? && !CartSummary.PlaceOrderEnabled(s.summary) ==> r == s
    // only editing and Place Order change the customer fields and the cart, Place Order by clearing them
    ensures !e.Edit? && !e.PlaceOrder? ==>
              r.summary.customerName == s.summary.customerName && r.summary.mobileNumber == s.summary.mobileNumber
              && r.summary.cartItems == s.summary.cartItems
  {
    var m := s.summary;
    match e
    case Edit(name, mobile, items) =>
      s.(summary := m.(customerName := name, mobileNumber := mobile, cartItems := items))
    case Pay(mode, created, loaded, intent, deleted) =>
      if !CartSummary.PaymentButtonsEnabled(m) then s
      else
        var t := CartSummary.CompletePaymentSpec(m, mode, created, loaded, intent, deleted);
        SessionState(t, Render(s.modal, t))
    case CardChange(error) =>
      if s.modal.None? then s
      else s.(modal := Some(StripePaymentModal.CardChangeSpec(s.modal.value, error)))
    case Submit(confirm, verified, deleted) =>
      if s.modal.None? || !StripePaymentModal.SubmitEnabled(s.modal.value) then s
      else SubmitStep(m, s.modal.value, confirm, verified, deleted)
    case CloseModal(deleted) =>
      if s.modal.None? || !StripePaymentModal.CloseEnabled(s.modal.value) then s
      else
        var t := CartSummary.AbandonPaymentSpec(m, deleted);
        SessionState(t, Render(s.modal, t))
    case PlaceOrder =>
      if !CartSummary.PlaceOrderEnabled(m) then s else s.(summary := CartSummary.PlaceOrderSpec(m))
    case CloseReceipt =>
      if !m.showPopup then s else s.(summary := CartSummary.CloseReceiptSpec(m))
  }

  function Run(s: SessionState, es: seq<Event>): SessionState
    decreases |es|
  {
    if es == [] then s else Run(Step(s, es[0]), es[1..])
  }

  // ---------------------------------------------------------------------
  // Facts about the call log

  /** The order a call deletes or verifies, if any. */
  function Target(c: Call): seq<OrderId>
  {
    match c
    case DeleteOrder(id) => [id]
    case Verify(data) => [data.orderId]
    case _ => []
  }

  /** The order ids the backend acknowledged with status 201. */
  function NewIds(c: Call): set<OrderId>
  {
    if c.CreateOrder? && c.response.Created? && c.response.status == 201 then {c.response.saved.orderId} else {}
  }

  /** Every deleted or verified order id, in call order. */
  function Targets(log: seq<Call>): seq<OrderId>
    decreases |log|
  {
    if log == [] then [] else Targets(log[..|log| - 1]) + Target(log[|log| - 1])
  }

  function CreatedIds(log: seq<Call>): set<OrderId>
    decreases |log|
  {
    if log == [] then {} else CreatedIds(log[..|log| - 1]) + NewIds(log[|log| - 1])
  }

  /** A confirmCardPayment call that reported success for the given intent. */
  predicate ConfirmedFor(c: Call, intentId: string)
  {
    c.ConfirmCardPayment? && StripePaymentModal.ConfirmedSucceeded(c.result)
    && c.result.paymentIntent.value.id == intentId
  }

  /** Every verifyPayment call directly follows a confirmation that succeeded
      for the same payment intent. */
  predicate VerifyOnlyAfterConfirmedSuccess(log: seq<Call>)
    decreases |log|
  {
    log == [] ||
    (var init, last := log[..|log| - 1], log[|log| - 1];
     VerifyOnlyAfterConfirmedSuccess(init)
     && (last.Verify? ==> |init| > 0 && ConfirmedFor(init[|init| - 1], last.data.stripePaymentIntentId)))
  }

  /** Every delete and verification names an order created earlier. */
  predicate TargetsWereCreated(log: seq<Call>)
    decreases |log|
  {
    log == [] ||
    (var init, last := log[..|log| - 1], log[|log| - 1];
     TargetsWereCreated(init) && forall id :: id in Target(last) ==> id in CreatedIds(init))
  }

  /** No id occurs twice (stated one id at a time; see NoDuplicatesPairwise). */
  predicate NoDuplicates(ids: seq<OrderId>)
    decreases |ids|
  {
    ids == [] || (NoDuplicates(ids[..|ids| - 1]) && ids[|ids| - 1] !in ids[..|ids| - 1])
  }

  lemma {:induction false} NoDuplicatesPairwise(ids: seq<OrderId>)
    requires NoDuplicates(ids)
    ensures forall i, j :: 0 <= i < j < |ids| ==> ids[i] != ids[j]
    decreases |ids|
  {
    if ids != [] {
      var init := ids[..|ids| - 1];
      NoDuplicatesPairwise(init);
      forall i, j | 0 <= i < j < |ids| ensures ids[i] != ids[j] {
        if j == |ids| - 1 {
          assert ids[i] == init[i];
        } else {
          assert ids[i] == init[i] && ids[j] == init[j];
        }
      }
    }
  }

  /** What the checkout promises of its calls; NoDuplicates(Targets(log)) says
      that no order is deleted twice, verified twice, or both. */
  predicate LogOk(log: seq<Call>)
  {
    VerifyOnlyAfterConfirmedSuccess(log) && TargetsWereCreated(log) && NoDuplicates(Targets(log))
  }

  lemma AppendFacts(log: seq<Call>, c: Call)
    ensures Targets(log + [c]) == Targets(log) + Target(c)
    ensures CreatedIds(log + [c]) == CreatedIds(log) + NewIds(c)
    ensures VerifyOnlyAfterConfirmedSuccess(log + [c]) <==>
              VerifyOnlyAfterConfirmedSuccess(log)
              && (c.Verify? ==> |log| > 0 && ConfirmedFor(log[|log| - 1], c.data.stripePaymentIntentId))
    ensures TargetsWereCreated(log + [c]) <==>
              TargetsWereCreated(log) && forall id :: id in Target(c) ==> id in CreatedIds(log)
  {
    assert (log + [c])[..|log|] == log;
  }

  lemma {:induction false} TargetsWithinCreated(log: seq<Call>)
    requires TargetsWereCreated(log)
    ensures forall id :: id in Targets(log) ==> id in CreatedIds(log)
    decreases |log|
  {
    if log != [] {
      var init, last := log[..|log| - 1], log[|log| - 1];
      assert init + [last] == log;
      TargetsWithinCreated(init);
      AppendFacts(init, last);
    }
  }

  /** Appending one call keeps LogOk when it deletes or verifies a created
      order not yet touched, and verifies only right after a confirmed success. */
  lemma Emit(log: seq<Call>, c: Call)
    requires LogOk(log)
    requires forall id :: id in Target(c) ==> id in CreatedIds(log) && id !in Targets(log)
    requires c.Verify? ==> |log| > 0 && ConfirmedFor(log[|log| - 1], c.data.stripePaymentIntentId)
    ensures LogOk(log + [c])
    ensures Targets(log + [c]) == Targets(log) + Target(c)
    ensures CreatedIds(log + [c]) == CreatedIds(log) + NewIds(c)
  {
    AppendFacts(log, c);
    var ids := Targets(log);
    if Target(c) == [] {
      assert ids + Target(c) == ids;
    } else {
      assert (ids + Target(c))[..|ids|] == ids;
    }
  }

  // ---------------------------------------------------------------------
  // The session invariant

  predicate Inv(s: SessionState)
  {
    var m := s.summary;
    && !m.isProcessing
    && (s.modal.Some? <==> m.showStripeModal)
    && (s.modal.Some? ==> !s.modal.value.isLoading && StripePaymentModal.StripeReady(s.modal.value))
    && (m.currentOrder.Some? ==> m.currentOrder.value.orderId in CreatedIds(m.log))
    && (m.showStripeModal ==> m.currentOrder.Some? && m.currentOrder.value.orderId !in Targets(m.log))
    && LogOk(m.log)
  }

  function NewOrderIds(e: Event): set<OrderId>
  {
    if e.Pay? && e.created.Created? && e.created.status == 201 then {e.created.saved.orderId} else {}
  }

  /** The backend hands out a new order id on every successful createOrder. */
  predicate FreshIds(created: set<OrderId>, es: seq<Event>)
    decreases |es|
  {
    es == [] || (NewOrderIds(es[0]) !! created && FreshIds(created + NewOrderIds(es[0]), es[1..]))
  }

  lemma InitialSessionInv(customerName: string, mobileNumber: string, cartItems: seq<CartItem>)
    ensures Inv(InitialSession(customerName, mobileNumber, cartItems))
  {
  }

  /** The invariant of a state whose summary part meets its conditions,
      rendered from a modal that was idle and ready. */
  lemma InvOfParts(previous: Option<StripePaymentModal.ModalState>, t: CartSummary.SummaryState)
    requires previous.Some? ==> !previous.value.isLoading && StripePaymentModal.StripeReady(previous.value)
    requires !t.isProcessing && LogOk(t.log)
    requires t.currentOrder.Some? ==> t.currentOrder.value.orderId in CreatedIds(t.log)
    requires t.showStripeModal ==> t.currentOrder.Some? && t.currentOrder.value.orderId !in Targets(t.log)
    ensures Inv(SessionState(t, Render(previous, t)))
  {
  }

  lemma PayKeepsInv(s: SessionState, mode: string, created: CreateOutcome, loaded: bool, intent: IntentOutcome,
                    deleted: DeleteOutcome)
    requires Inv(s)
    requires NewOrderIds(Pay(mode, created, loaded, intent, deleted)) !! CreatedIds(s.summary.log)
    ensures Inv(Step(s, Pay(mode, created, loaded, intent, deleted)))
    ensures CreatedIds(Step(s, Pay(mode, created, loaded, intent, deleted)).summary.log)
            <= CreatedIds(s.summary.log) + NewOrderIds(Pay(mode, created, loaded, intent, deleted))
  {
    StepPay(s, mode, created, loaded, intent, deleted);
    PayStateKeepsInv(s, mode, created, loaded, intent, deleted);
  }

  /** What a Cash or UPI click does when the buttons are enabled. */
  lemma StepPay(s: SessionState, mode: string, created: CreateOutcome, loaded: bool, intent: IntentOutcome,
                deleted: DeleteOutcome)
    requires CartSummary.PaymentButtonsEnabled(s.summary)
    ensures var t := CartSummary.CompletePaymentSpec(s.summary, mode, created, loaded, intent, deleted);
      Step(s, Pay(mode, created, loaded, intent, deleted)) == SessionState(t, Render(s.modal, t))
  {
  }

  lemma PayStateKeepsInv(s: SessionState, mode: string, created: CreateOutcome, loaded: bool, intent: IntentOutcome,
                         deleted: DeleteOutcome)
    requires Inv(s)
    requires NewOrderIds(Pay(mode, created, loaded, intent, deleted)) !! CreatedIds(s.summary.log)
    ensures var t := CartSummary.CompletePaymentSpec(s.summary, mode, created, loaded, intent, deleted);
      Inv(SessionState(t, Render(s.modal, t)))
      && CreatedIds(t.log) <= CreatedIds(s.summary.log) + NewOrderIds(Pay(mode, created, loaded, intent, deleted))
  {
    var m := s.summary;
    if !CartSummary.ReadyToSubmit(m) {
      CartSummary.CompletePaymentRejectsIncompleteInput(m, mode, created, loaded, intent, deleted);
    } else if created.Created? && created.status == 201 && mode == CartSummary.UpiMode {
      PayUpiKeepsInv(s, created, loaded, intent, deleted);
    } else {
      PayOtherKeepsInv(s, mode, created, loaded, intent, deleted);
    }
  }

  /** A validated Cash or UPI click that does not reach the Stripe path:
      at most the one createOrder call. */
  lemma PayOtherKeepsInv(s: SessionState, mode: string, created: CreateOutcome, loaded: bool, intent: IntentOutcome,
                         deleted: DeleteOutcome)
    requires Inv(s) && CartSummary.ReadyToSubmit(s.summary)
    requires !(created.Created? && created.status == 201 && mode == CartSummary.UpiMode)
    ensures var t := CartSummary.CompletePaymentSpec(s.summary, mode, created, loaded, intent, deleted);
      Inv(SessionState(t, Render(s.modal, t)))
      && CreatedIds(t.log) == CreatedIds(s.summary.log) + NewIds(CreateOrder(CartSummary.OrderRequestFor(s.summary, mode), created))
  {
    var m := s.summary;
    var c1 := CreateOrder(CartSummary.OrderRequestFor(m, mode), created);
    var t := m.(isProcessing := false, log := m.log + [c1]);
    if created.Created? && created.status == 201 && mode == CartSummary.CashMode {
      CartSummary.CashOrderSettles(m, created, loaded, intent, deleted);
      t := t.(orderDetails := Some(created.saved));
    } else {
      CartSummary.UnhandledCreateOutcomeChangesNothing(m, mode, created, loaded, intent, deleted);
    }
    assert LogOk(t.log) && CreatedIds(t.log) == CreatedIds(m.log) + NewIds(c1) && Targets(t.log) == Targets(m.log) by {
      Emit(m.log, c1);
      assert Targets(m.log) + [] == Targets(m.log);
    }
    InvOfParts(s.modal, t);
  }

  lemma PayUpiKeepsInv(s: SessionState, created: CreateOutcome, loaded: bool, intent: IntentOutcome,
                       deleted: DeleteOutcome)
    requires Inv(s) && CartSummary.ReadyToSubmit(s.summary)
    requires created.Created? && created.status == 201 && created.saved.orderId !in CreatedIds(s.summary.log)
    ensures var t := CartSummary.CompletePaymentSpec(s.summary, CartSummary.UpiMode, created, loaded, intent, deleted);
      Inv(SessionState(t, Render(s.modal, t))) && CreatedIds(t.log) == CreatedIds(s.summary.log) + {created.saved.orderId}
  {
    var m := s.summary;
    var c1 := CreateOrder(CartSummary.OrderRequestFor(m, CartSummary.UpiMode), created);
    var c3 := CreateIntent(Compute(m.cartItems).grandTotal, "INR");
    if !loaded {
      CartSummary.UpiLoadFailureDeletesOrder(m, created, intent, deleted);
      LoadFailureKeepsInv(s, c1, created.saved.orderId);
    } else if intent.IntentCreated? {
      CartSummary.UpiOpensPaymentModal(m, created, intent.clientSecret, deleted);
      ModalOpenKeepsInv(s, c1, c3, created.saved, intent.clientSecret);
    } else {
      CartSummary.IntentFailureLeavesOrder(m, created, deleted);
      IntentFailureKeepsInv(s, c1, c3);
    }
  }

  /** The three UPI paths, each about the state its CartSummary lemma gives. */
  lemma LoadFailureKeepsInv(s: SessionState, c1: Call, id: OrderId)
    requires Inv(s) && c1.CreateOrder? && NewIds(c1) == {id} && id !in CreatedIds(s.summary.log)
    ensures var t := s.summary.(isProcessing := false,
                                log := s.summary.log + [c1] + [LoadStripeScript(false)] + [DeleteOrder(id)]);
      Inv(SessionState(t, Render(s.modal, t))) && CreatedIds(t.log) == CreatedIds(s.summary.log) + {id}
  {
    var m := s.summary;
    LoadFailureLog(m.log, c1, id);
    InvOfParts(s.modal, m.(isProcessing := false, log := m.log + [c1] + [LoadStripeScript(false)] + [DeleteOrder(id)]));
  }

  /** The calls of the script-load failure path: the new order is deleted right away. */
  lemma LoadFailureLog(log: seq<Call>, c1: Call, id: OrderId)
    requires LogOk(log) && c1.CreateOrder? && NewIds(c1) == {id} && id !in CreatedIds(log)
    ensures var log3 := log + [c1] + [LoadStripeScript(false)] + [DeleteOrder(id)];
      LogOk(log3) && CreatedIds(log3) == CreatedIds(log) + {id} && Targets(log3) == Targets(log) + [id]
  {
    var l1 := log + [c1];
    var l2 := l1 + [LoadStripeScript(false)];
    assert LogOk(l1) && CreatedIds(l1) == CreatedIds(log) + {id} && Targets(l1) == Targets(log) by {
      Emit(log, c1);
      assert Targets(log) + [] == Targets(log);
    }
    assert LogOk(l2) && CreatedIds(l2) == CreatedIds(l1) && Targets(l2) == Targets(log) by {
      Emit(l1, LoadStripeScript(false));
      assert Targets(l1) + [] == Targets(l1);
    }
    assert id !in Targets(l2) by {
      TargetsWithinCreated(log);
    }
    Emit(l2, DeleteOrder(id));
  }

  /** The log facts shared by the two UPI paths that reach createStripePaymentIntent. */
  lemma IntentRequestedLog(log: seq<Call>, c1: Call, c3: Call)
    requires LogOk(log) && c1.CreateOrder? && c3.CreateIntent?
    ensures var log3 := log + [c1] + [LoadStripeScript(true)] + [c3];
      LogOk(log3) && CreatedIds(log3) == CreatedIds(log) + NewIds(c1) && Targets(log3) == Targets(log)
  {
    var l1 := log + [c1];
    var l2 := l1 + [LoadStripeScript(true)];
    assert LogOk(l1) && CreatedIds(l1) == CreatedIds(log) + NewIds(c1) && Targets(l1) == Targets(log) by {
      Emit(log, c1);
      assert Targets(log) + [] == Targets(log);
    }
    assert LogOk(l2) && CreatedIds(l2) == CreatedIds(l1) && Targets(l2) == Targets(log) by {
      Emit(l1, LoadStripeScript(true));
      assert Targets(l1) + [] == Targets(l1);
    }
    Emit(l2, c3);
    assert Targets(l2) + [] == Targets(l2);
  }

  lemma ModalOpenKeepsInv(s: SessionState, c1: Call, c3: Call, saved: SavedOrder, secret: string)
    requires Inv(s) && c1.CreateOrder? && NewIds(c1) == {saved.orderId} && saved.orderId !in CreatedIds(s.summary.log)
    requires c3.CreateIntent?
    ensures var t := s.summary.(isProcessing := false, currentOrder := Some(saved), stripeClientSecret := Some(secret),
                                showStripeModal := true, log := s.summary.log + [c1] + [LoadStripeScript(true)] + [c3]);
      Inv(SessionState(t, Render(s.modal, t))) && CreatedIds(t.log) == CreatedIds(s.summary.log) + {saved.orderId}
  {
    var m := s.summary;
    var log3 := m.log + [c1] + [LoadStripeScript(true)] + [c3];
    IntentRequestedLog(m.log, c1, c3);
    assert saved.orderId !in Targets(m.log) by {
      TargetsWithinCreated(m.log);
    }
    InvOfParts(s.modal, m.(isProcessing := false, currentOrder := Some(saved), stripeClientSecret := Some(secret),
                           showStripeModal := true, log := log3));
  }

  lemma IntentFailureKeepsInv(s: SessionState, c1: Call, c3: Call)
    requires Inv(s) && c1.CreateOrder? && c3.CreateIntent?
    ensures var t := s.summary.(isProcessing := false, log := s.summary.log + [c1] + [LoadStripeScript(true)] + [c3]);
      Inv(SessionState(t, Render(s.modal, t))) && CreatedIds(t.log) == CreatedIds(s.summary.log) + NewIds(c1)
  {
    var m := s.summary;
    IntentRequestedLog(m.log, c1, c3);
    InvOfParts(s.modal, m.(isProcessing := false, log := m.log + [c1] + [LoadStripeScript(true)] + [c3]));
  }

  lemma SubmitKeepsInv(s: SessionState, confirm: ConfirmOutcome, verified: VerifyOutcome, deleted: DeleteOutcome)
    requires Inv(s)
    ensures Inv(Step(s, Submit(confirm, verified, deleted)))
    ensures CreatedIds(Step(s, Submit(confirm, verified, deleted)).summary.log) <= CreatedIds(s.summary.log)
  {
    if s.modal.Some? && StripePaymentModal.SubmitEnabled(s.modal.value) {
      var m := s.summary;
      var modal := s.modal.value;
      var sub := StripePaymentModal.HandleSubmitSpec(modal, m.log, m.stripeClientSecret,
                                                     m.customerName, m.mobileNumber, confirm);
      var c1 := ConfirmCardPayment(m.stripeClientSecret, m.customerName, m.mobileNumber, confirm);
      assert sub.log == m.log + [c1];
      assert Step(s, Submit(confirm, verified, deleted)) == SubmitStep(m, modal, confirm, verified, deleted);
      var summary1 := m.(log := sub.log);
      assert !sub.state.isLoading && StripePaymentModal.StripeReady(sub.state);
      ConfirmKeepsInv(s, sub.state, c1);
      match sub.callback
      case NoCallback =>
      case PaymentErrorCallback =>
        CartSummary.AbandonDeletesCurrentOrder(summary1, deleted);
        ConfirmFailureKeepsInv(SessionState(summary1, Some(sub.state)), deleted);
      case PaymentSuccessCallback(paymentIntent, paymentMethod) =>
        if paymentMethod.Some? {
          assert ConfirmedFor(sub.log[|sub.log| - 1], paymentIntent.id);
          CartSummary.PaymentSuccessClosesModal(summary1, paymentIntent, paymentMethod.value, verified);
          VerifyKeepsInv(SessionState(summary1, Some(sub.state)), paymentIntent, paymentMethod.value, verified);
        } else {
          CartSummary.PaymentSuccessTypeError(summary1, paymentIntent, paymentMethod, verified);
        }
    }
  }

  /** After the confirmCardPayment call, with the modal still open. */
  lemma ConfirmKeepsInv(s: SessionState, modal: StripePaymentModal.ModalState, c1: Call)
    requires Inv(s) && s.modal.Some? && c1.ConfirmCardPayment?
    requires !modal.isLoading && StripePaymentModal.StripeReady(modal)
    ensures Inv(SessionState(s.summary.(log := s.summary.log + [c1]), Some(modal)))
    ensures CreatedIds(s.summary.log + [c1]) == CreatedIds(s.summary.log)
    ensures Targets(s.summary.log + [c1]) == Targets(s.summary.log)
  {
    Emit(s.summary.log, c1);
    assert Targets(s.summary.log) + [] == Targets(s.summary.log);
  }

  /** onPaymentError after a confirmation: the current order is deleted and the modal closes. */
  lemma ConfirmFailureKeepsInv(s: SessionState, deleted: DeleteOutcome)
    requires Inv(s) && s.modal.Some?
    ensures var t := CartSummary.AbandonPaymentSpec(s.summary, deleted);
      Inv(SessionState(t, Render(s.modal, t))) && CreatedIds(t.log) == CreatedIds(s.summary.log)
  {
    var m := s.summary;
    var id := m.currentOrder.value.orderId;
    CartSummary.AbandonDeletesCurrentOrder(m, deleted);
    assert LogOk(m.log + [DeleteOrder(id)]) && CreatedIds(m.log + [DeleteOrder(id)]) == CreatedIds(m.log) by {
      Emit(m.log, DeleteOrder(id));
    }
  }

  /** onPaymentSuccess with a payment method: one verification of the current order, then the modal closes. */
  lemma VerifyKeepsInv(s: SessionState, paymentIntent: PaymentIntent, paymentMethod: PaymentMethod, verified: VerifyOutcome)
    requires Inv(s) && s.modal.Some?
    requires |s.summary.log| > 0 && ConfirmedFor(s.summary.log[|s.summary.log| - 1], paymentIntent.id)
    ensures var t := CartSummary.HandleStripePaymentSuccessSpec(s.summary, paymentIntent, Some(paymentMethod), verified);
      Inv(SessionState(t, Render(s.modal, t))) && CreatedIds(t.log) == CreatedIds(s.summary.log)
  {
    var m := s.summary;
    var t := CartSummary.HandleStripePaymentSuccessSpec(m, paymentIntent, Some(paymentMethod), verified);
    var c := Verify(PaymentData(paymentIntent.id, paymentMethod.id, m.stripeClientSecret, m.currentOrder.value.orderId));
    assert t.log == m.log + [c] && !t.showStripeModal && !t.isProcessing && t.currentOrder == m.currentOrder by {
      CartSummary.PaymentSuccessClosesModal(m, paymentIntent, paymentMethod, verified);
    }
    assert LogOk(t.log) && CreatedIds(t.log) == CreatedIds(m.log) by {
      Emit(m.log, c);
    }
    InvOfParts(s.modal, t);
  }

  lemma CloseModalKeepsInv(s: SessionState, deleted: DeleteOutcome)
    requires Inv(s)
    ensures Inv(Step(s, CloseModal(deleted)))
    ensures CreatedIds(Step(s, CloseModal(deleted)).summary.log) <= CreatedIds(s.summary.log)
  {
    if s.modal.Some? && StripePaymentModal.CloseEnabled(s.modal.value) {
      var m := s.summary;
      var t := CartSummary.AbandonPaymentSpec(m, deleted);
      StepClose(s, deleted);
      var c := DeleteOrder(m.currentOrder.value.orderId);
      assert t.log == m.log + [c] && !t.showStripeModal && !t.isProcessing && t.currentOrder == m.currentOrder;
      assert LogOk(t.log) && CreatedIds(t.log) == CreatedIds(m.log) by {
        Emit(m.log, c);
      }
      InvOfParts(s.modal, t);
    }
  }

  lemma StepClose(s: SessionState, deleted: DeleteOutcome)
    requires s.modal.Some? && StripePaymentModal.CloseEnabled(s.modal.value)
    ensures var t := CartSummary.AbandonPaymentSpec(s.summary, deleted);
      Step(s, CloseModal(deleted)) == SessionState(t, Render(s.modal, t))
  {
  }

  lemma {:induction false} StepKeepsInv(s: SessionState, e: Event)
    requires Inv(s)
    requires NewOrderIds(e) !! CreatedIds(s.summary.log)
    ensures Inv(Step(s, e))
    ensures CreatedIds(Step(s, e).summary.log) <= CreatedIds(s.summary.log) + NewOrderIds(e)
  {
    match e
    case Pay(mode, created, loaded, intent, deleted) => PayKeepsInv(s, mode, created, loaded, intent, deleted);
    case Submit(confirm, verified, deleted) => SubmitKeepsInv(s, confirm, verified, deleted);
    case CloseModal(deleted) => CloseModalKeepsInv(s, deleted);
    case _ =>
  }

  lemma {:induction false} FreshIdsShrink(a: set<OrderId>, b: set<OrderId>, es: seq<Event>)
    requires a <= b && FreshIds(b, es)
    ensures FreshIds(a, es)
    decreases |es|
  {
    if es != [] {
      FreshIdsShrink(a + NewOrderIds(es[0]), b + NewOrderIds(es[0]), es[1..]);
    }
  }

  /** Every run from a state satisfying the invariant keeps it, as long as the
      backend assigns fresh order ids. */
  lemma {:induction false} RunKeepsInv(s: SessionState, es: seq<Event>)
    requires Inv(s) && FreshIds(CreatedIds(s.summary.log), es)
    ensures Inv(Run(s, es))
    decreases |es|
  {
    if es != [] {
      var t := Step(s, es[0]);
      StepKeepsInv(s, es[0]);
      FreshIdsShrink(CreatedIds(t.summary.log), CreatedIds(s.summary.log) + NewOrderIds(es[0]), es[1..]);
      RunKeepsInv(t, es[1..]);
    }
  }

  /** From a fresh screen, whatever happens: verifyPayment is only ever
      called right after a confirmed success for the same intent; deletes and
      verifications only touch orders the backend created; and no order is
      deleted twice, verified twice, or deleted after being verified. */
  lemma CheckoutGuarantees(customerName: string, mobileNumber: string, cartItems: seq<CartItem>, es: seq<Event>)
    requires FreshIds({}, es)
    ensures var log := Run(InitialSession(customerName, mobileNumber, cartItems), es).summary.log;
      && VerifyOnlyAfterConfirmedSuccess(log)
      && TargetsWereCreated(log)
      && NoDuplicates(Targets(log))
      && (forall i, j :: 0 <= i < j < |Targets(log)| ==> Targets(log)[i] != Targets(log)[j])
  {
    var s := InitialSession(customerName, mobileNumber, cartItems);
    InitialSessionInv(customerName, mobileNumber, cartItems);
    RunKeepsInv(s, es);
    NoDuplicatesPairwise(Targets(Run(s, es).summary.log));
  }

  /** In a reachable state the modal's "not loaded" branch cannot be taken:
      every submission reaches confirmCardPayment. */
  lemma SubmitAlwaysConfirms(s: SessionState, confirm: ConfirmOutcome, verified: VerifyOutcome, deleted: DeleteOutcome)
    requires Inv(s) && s.modal.Some?
    ensures var t := Step(s, Submit(confirm, verified, deleted)).summary.log;
      |t| > |s.summary.log|
      && t[|s.summary.log|] == ConfirmCardPayment(s.summary.stripeClientSecret, s.summary.customerName,
                                                  s.summary.mobileNumber, confirm)
  {
    var m := s.summary;
    var sub := StripePaymentModal.HandleSubmitSpec(s.modal.value, m.log, m.stripeClientSecret,
                                                   m.customerName, m.mobileNumber, confirm);
    var c1 := ConfirmCardPayment(m.stripeClientSecret, m.customerName, m.mobileNumber, confirm);
    assert sub.log == m.log + [c1];
  }
  // ---------------------------------------------------------------------
  // Whole checkouts

  lemma RunTwo(s: SessionState, e1: Event, e2: Event)
    ensures Run(s, [e1, e2]) == Step(Step(s, e1), e2)
  {
    assert [e1, e2][1..] == [e2];
    assert [e2][1..] == [];
    calc {
      Run(s, [e1, e2]);
      Run(Step(s, e1), [e2]);
      Run(Step(Step(s, e1), e2), []);
    }
  }

  /** A card checkout confirmed by Stripe: the order is created, one intent
      for its grand total is requested, the card is confirmed, the payment is
      verified once and the modal closes, whatever verifyPayment answers. The
      receipt data is the order marked COMPLETED only on status 200; on any
      other answer or a throw nothing is recorded, and still no order is
      deleted. */
  lemma CardCheckoutConfirmed(customerName: string, mobileNumber: string, cartItems: seq<CartItem>,
                              saved: SavedOrder, secret: string, paymentIntent: PaymentIntent, paymentMethod: PaymentMethod,
                              verified: VerifyOutcome, d1: DeleteOutcome, d2: DeleteOutcome)
    requires customerName != "" && mobileNumber != "" && |cartItems| > 0
    requires paymentIntent.status == StripePaymentModal.SucceededStatus && paymentIntent.paymentMethod == Some(paymentMethod)
    ensures var s0 := InitialSession(customerName, mobileNumber, cartItems);
      var confirm := ConfirmReturned(None, Some(paymentIntent));
      var r := Run(s0, [Pay(CartSummary.UpiMode, Created(201, saved), true, IntentCreated(secret), d1),
                        Submit(confirm, verified, d2)]);
      && r.modal.None? && !r.summary.showStripeModal
      && (verified == VerifyResponded(200) ==>
            r.summary.orderDetails == Some(CartSummary.VerifiedOrder(saved,
              CartSummary.StripeResponse(paymentIntent.id, paymentMethod.id, Some(secret)))))
      && (verified != VerifyResponded(200) ==> r.summary.orderDetails.None?)
      && r.summary.log == [CreateOrder(CartSummary.OrderRequestFor(s0.summary, CartSummary.UpiMode), Created(201, saved)),
                           LoadStripeScript(true),
                           CreateIntent(Compute(cartItems).grandTotal, "INR"),
                           ConfirmCardPayment(Some(secret), customerName, mobileNumber, confirm),
                           Verify(PaymentData(paymentIntent.id, paymentMethod.id, Some(secret), saved.orderId))]
  {
    CardCheckoutConfirmedOutcome(customerName, mobileNumber, cartItems, saved, secret, paymentIntent, paymentMethod, verified, d1, d2);
    CardCheckoutConfirmedLog(customerName, mobileNumber, cartItems, saved, secret, paymentIntent, paymentMethod, verified, d1, d2);
  }

  lemma CardCheckoutConfirmedOutcome(customerName: string, mobileNumber: string, cartItems: seq<CartItem>,
                              saved: SavedOrder, secret: string, paymentIntent: PaymentIntent, paymentMethod: PaymentMethod,
                              verified: VerifyOutcome, d1: DeleteOutcome, d2: DeleteOutcome)
    requires customerName != "" && mobileNumber != "" && |cartItems| > 0
    requires paymentIntent.status == StripePaymentModal.SucceededStatus && paymentIntent.paymentMethod == Some(paymentMethod)
    ensures var s0 := InitialSession(customerName, mobileNumber, cartItems);
      var r := Run(s0, [Pay(CartSummary.UpiMode, Created(201, saved), true, IntentCreated(secret), d1),
                        Submit(ConfirmReturned(None, Some(paymentIntent)), verified, d2)]);
      && r.modal.None? && !r.summary.showStripeModal
      && (verified == VerifyResponded(200) ==>
            r.summary.orderDetails == Some(CartSummary.VerifiedOrder(saved,
              CartSummary.StripeResponse(paymentIntent.id, paymentMethod.id, Some(secret)))))
      && (verified != VerifyResponded(200) ==> r.summary.orderDetails.None?)
  {
    var m1 := CardModalOpenedOn(customerName, mobileNumber, cartItems, saved, secret);
    CardCheckoutSecondStep(customerName, mobileNumber, cartItems, saved, secret, paymentIntent, paymentMethod, verified, d1, d2);
    ConfirmedSubmit(m1, saved, secret, paymentIntent, paymentMethod, verified, d2);
  }

  lemma CardCheckoutConfirmedLog(customerName: string, mobileNumber: string, cartItems: seq<CartItem>,
                              saved: SavedOrder, secret: string, paymentIntent: PaymentIntent, paymentMethod: PaymentMethod,
                              verified: VerifyOutcome, d1: DeleteOutcome, d2: DeleteOutcome)
    requires customerName != "" && mobileNumber != "" && |cartItems| > 0
    requires paymentIntent.status == StripePaymentModal.SucceededStatus && paymentIntent.paymentMethod == Some(paymentMethod)
    ensures var s0 := InitialSession(customerName, mobileNumber, cartItems);
      var confirm := ConfirmReturned(None, Some(paymentIntent));
      var r := Run(s0, [Pay(CartSummary.UpiMode, Created(201, saved), true, IntentCreated(secret), d1),
                        Submit(confirm, verified, d2)]);
      r.summary.log == [CreateOrder(CartSummary.OrderRequestFor(s0.summary, CartSummary.UpiMode), Created(201, saved)),
                        LoadStripeScript(true),
                        CreateIntent(Compute(cartItems).grandTotal, "INR"),
                        ConfirmCardPayment(Some(secret), customerName, mobileNumber, confirm),
                        Verify(PaymentData(paymentIntent.id, paymentMethod.id, Some(secret), saved.orderId))]
  {
    var m1 := CardModalOpenedOn(customerName, mobileNumber, cartItems, saved, secret);
    CardCheckoutSecondStep(customerName, mobileNumber, cartItems, saved, secret, paymentIntent, paymentMethod, verified, d1, d2);
    ConfirmedSubmit(m1, saved, secret, paymentIntent, paymentMethod, verified, d2);
    var confirm := ConfirmReturned(None, Some(paymentIntent));
    var c4 := ConfirmCardPayment(Some(secret), customerName, mobileNumber, confirm);
    var c5 := Verify(PaymentData(paymentIntent.id, paymentMethod.id, Some(secret), saved.orderId));
    assert m1.log + [c4] + [c5] == m1.log + [c4, c5];
  }

  /** The two steps of a card checkout run as the second one on the state
      the first leaves. */
  lemma CardCheckoutSecondStep(customerName: string, mobileNumber: string, cartItems: seq<CartItem>,
                              saved: SavedOrder, secret: string, paymentIntent: PaymentIntent, paymentMethod: PaymentMethod,
                              verified: VerifyOutcome, d1: DeleteOutcome, d2: DeleteOutcome)
    requires customerName != "" && mobileNumber != "" && |cartItems| > 0
    requires paymentIntent.status == StripePaymentModal.SucceededStatus && paymentIntent.paymentMethod == Some(paymentMethod)
    ensures Run(InitialSession(customerName, mobileNumber, cartItems),
                [Pay(CartSummary.UpiMode, Created(201, saved), true, IntentCreated(secret), d1),
                 Submit(ConfirmReturned(None, Some(paymentIntent)), verified, d2)])
         == Step(SessionState(CardModalOpenedOn(customerName, mobileNumber, cartItems, saved, secret),
                              Some(StripePaymentModal.Mounted(true))),
                 Submit(ConfirmReturned(None, Some(paymentIntent)), verified, d2))
  {
    var s0 := InitialSession(customerName, mobileNumber, cartItems);
    var e1 := Pay(CartSummary.UpiMode, Created(201, saved), true, IntentCreated(secret), d1);
    var e2 := Submit(ConfirmReturned(None, Some(paymentIntent)), verified, d2);
    RunTwo(s0, e1, e2);
    CardModalOpened(customerName, mobileNumber, cartItems, saved, secret, d1);
  }


  lemma StepSubmit(s: SessionState, confirm: ConfirmOutcome, verified: VerifyOutcome, deleted: DeleteOutcome)
    requires s.modal.Some? && StripePaymentModal.SubmitEnabled(s.modal.value)
    ensures Step(s, Submit(confirm, verified, deleted)) == SubmitStep(s.summary, s.modal.value, confirm, verified, deleted)
  {
  }

  /** Submitting the freshly mounted modal when Stripe confirms the card:
      confirmCardPayment, then verifyPayment for the current order, and the
      modal closes; the order is marked COMPLETED only on status 200. */
  lemma ConfirmedSubmit(m: CartSummary.SummaryState, saved: SavedOrder, secret: string, paymentIntent: PaymentIntent,
                        paymentMethod: PaymentMethod, verified: VerifyOutcome, d2: DeleteOutcome)
    requires m.currentOrder == Some(saved) && m.stripeClientSecret == Some(secret) && m.showStripeModal
    requires paymentIntent.status == StripePaymentModal.SucceededStatus && paymentIntent.paymentMethod == Some(paymentMethod)
    ensures var confirm := ConfirmReturned(None, Some(paymentIntent));
      var r := Step(SessionState(m, Some(StripePaymentModal.Mounted(true))), Submit(confirm, verified, d2));
      && r.modal.None? && !r.summary.showStripeModal
      && (verified == VerifyResponded(200) ==>
            r.summary.orderDetails == Some(CartSummary.VerifiedOrder(saved,
              CartSummary.StripeResponse(paymentIntent.id, paymentMethod.id, Some(secret)))))
      && (verified != VerifyResponded(200) ==> r.summary.orderDetails == m.orderDetails)
      && r.summary.log == m.log + [ConfirmCardPayment(Some(secret), m.customerName, m.mobileNumber, confirm)]
                        + [Verify(PaymentData(paymentIntent.id, paymentMethod.id, Some(secret), saved.orderId))]
  {
    var confirm := ConfirmReturned(None, Some(paymentIntent));
    var c4 := ConfirmCardPayment(Some(secret), m.customerName, m.mobileNumber, confirm);
    var sub := StripePaymentModal.HandleSubmitSpec(StripePaymentModal.Mounted(true), m.log, Some(secret),
                                                   m.customerName, m.mobileNumber, confirm);
    assert sub.log == m.log + [c4];
    assert sub.callback == StripePaymentModal.PaymentSuccessCallback(paymentIntent, Some(paymentMethod));
    CartSummary.PaymentSuccessClosesModal(m.(log := sub.log), paymentIntent, paymentMethod, verified);
    StepSubmit(SessionState(m, Some(StripePaymentModal.Mounted(true))), confirm, verified, d2);
  }


  /** A card checkout abandoned from the modal: the created order is deleted,
      exactly once, and nothing is recorded for the receipt. */
  lemma CardCheckoutCancelled(customerName: string, mobileNumber: string, cartItems: seq<CartItem>,
                              saved: SavedOrder, secret: string, d1: DeleteOutcome, d2: DeleteOutcome)
    requires customerName != "" && mobileNumber != "" && |cartItems| > 0
    ensures var s0 := InitialSession(customerName, mobileNumber, cartItems);
      var r := Run(s0, [Pay(CartSummary.UpiMode, Created(201, saved), true, IntentCreated(secret), d1), CloseModal(d2)]);
      && r.modal.None? && r.summary.orderDetails.None?
      && r.summary.log == [CreateOrder(CartSummary.OrderRequestFor(s0.summary, CartSummary.UpiMode), Created(201, saved)),
                           LoadStripeScript(true),
                           CreateIntent(Compute(cartItems).grandTotal, "INR"),
                           DeleteOrder(saved.orderId)]
  {
    var s0 := InitialSession(customerName, mobileNumber, cartItems);
    var e1 := Pay(CartSummary.UpiMode, Created(201, saved), true, IntentCreated(secret), d1);
    assert Run(s0, [e1, CloseModal(d2)]) == Step(Step(s0, e1), CloseModal(d2)) by {
      RunTwo(s0, e1, CloseModal(d2));
    }
    CardModalOpened(customerName, mobileNumber, cartItems, saved, secret, d1);
  }

  /** The checkout's state once the first step of a card checkout has
      opened the modal on `saved` with the intent's client secret. */
  function CardModalOpenedOn(customerName: string, mobileNumber: string, cartItems: seq<CartItem>,
                             saved: SavedOrder, secret: string): (m: CartSummary.SummaryState)
    ensures m.currentOrder == Some(saved) && m.stripeClientSecret == Some(secret) && m.showStripeModal
    ensures m.orderDetails.None? && m.customerName == customerName && m.mobileNumber == mobileNumber
  {
    var s0 := InitialSession(customerName, mobileNumber, cartItems);
    s0.summary.(currentOrder := Some(saved), stripeClientSecret := Some(secret), showStripeModal := true,
                log := [CreateOrder(CartSummary.OrderRequestFor(s0.summary, CartSummary.UpiMode), Created(201, saved)),
                        LoadStripeScript(true),
                        CreateIntent(Compute(cartItems).grandTotal, "INR")])
  }

  /** The first step of a card checkout: Pay with UPI on a fresh session
      opens the modal, freshly mounted, on the new order's intent. */
  lemma CardModalOpened(customerName: string, mobileNumber: string, cartItems: seq<CartItem>,
                        saved: SavedOrder, secret: string, d1: DeleteOutcome)
    requires customerName != "" && mobileNumber != "" && |cartItems| > 0
    ensures Step(InitialSession(customerName, mobileNumber, cartItems),
                 Pay(CartSummary.UpiMode, Created(201, saved), true, IntentCreated(secret), d1))
         == SessionState(CardModalOpenedOn(customerName, mobileNumber, cartItems, saved, secret),
                         Some(StripePaymentModal.Mounted(true)))
  {
    var s0 := InitialSession(customerName, mobileNumber, cartItems);
    CartSummary.UpiOpensPaymentModal(s0.summary, Created(201, saved), secret, d1);
  }

  /** A cash checkout: one createOrder, then Place Order shows the receipt
      for the saved order and clears the inputs. */
  lemma CashCheckout(customerName: string, mobileNumber: string, cartItems: seq<CartItem>,
                     saved: SavedOrder, loaded: bool, intent: IntentOutcome, deleted: DeleteOutcome)
    requires customerName != "" && mobileNumber != "" && |cartItems| > 0
    ensures var s0 := InitialSession(customerName, mobileNumber, cartItems);
      var r := Run(s0, [Pay(CartSummary.CashMode, Created(201, saved), loaded, intent, deleted), PlaceOrder]);
      && r.summary.showPopup && r.summary.orderDetails == Some(saved)
      && r.summary.customerName == "" && r.summary.mobileNumber == "" && r.summary.cartItems == []
      && r.summary.log == [CreateOrder(CartSummary.OrderRequestFor(s0.summary, CartSummary.CashMode), Created(201, saved))]
      && r.summary.log[0].request.paymentMethod == "CASH"
  {
    var s0 := InitialSession(customerName, mobileNumber, cartItems);
    RunTwo(s0, Pay(CartSummary.CashMode, Created(201, saved), loaded, intent, deleted), PlaceOrder);
    CartSummary.CashOrderSettles(s0.summary, Created(201, saved), loaded, intent, deleted);
  }
  /** The receipt of an order verified through Stripe shows the badge PAID
      and the first characters of the payment intent id. */
  lemma VerifiedReceiptShowsPaymentId(saved: SavedOrder, response: CartSummary.StripeResponse)
    requires saved.paymentMethod == ReceiptPopup.UpiMethod && response.stripePaymentIntentId != ""
    ensures var o := ReceiptPopup.ReceiptInput(CartSummary.VerifiedOrder(saved, response));
      && ReceiptPopup.BadgeLabel(o) == "PAID"
      && ReceiptPopup.PaymentDetailsBlock(o).Some?
      && ReceiptPopup.DetailRow(ReceiptPopup.PaymentIdLabel, Text.Shorten(response.stripePaymentIntentId))
           in ReceiptPopup.PaymentDetailsBlock(o).value
  {
  }

  /** In every reachable state Cash and UPI are enabled, and while the modal
      is on screen its Pay, × and Cancel buttons are too. */
  lemma ReachableButtonsEnabled(s: SessionState)
    requires Inv(s)
    ensures CartSummary.PaymentButtonsEnabled(s.summary)
    ensures s.modal.Some? ==> StripePaymentModal.SubmitEnabled(s.modal.value) && StripePaymentModal.CloseEnabled(s.modal.value)
    ensures CartSummary.PlaceOrderEnabled(s.summary) <==> s.summary.orderDetails.Some?
  {
  }

  /** A confirmation that Stripe reports as succeeded but without a payment
      method: the success handler throws before verifyPayment, so the only
      call is confirmCardPayment and the dialog stays open on the same order. */
  lemma SucceededWithoutMethodKeepsModal(s: SessionState, id: string, verified: VerifyOutcome, deleted: DeleteOutcome)
    requires Inv(s) && s.modal.Some?
    ensures var confirm := ConfirmReturned(None, Some(PaymentIntent(id, StripePaymentModal.SucceededStatus, None)));
      var r := Step(s, Submit(confirm, verified, deleted));
      && r.summary.log == s.summary.log + [ConfirmCardPayment(s.summary.stripeClientSecret, s.summary.customerName,
                                                               s.summary.mobileNumber, confirm)]
      && r.modal.Some? && r.summary.showStripeModal
      && r.summary.currentOrder == s.summary.currentOrder && r.summary.orderDetails == s.summary.orderDetails
  {
    var m := s.summary;
    var confirm := ConfirmReturned(None, Some(PaymentIntent(id, StripePaymentModal.SucceededStatus, None)));
    var sub := StripePaymentModal.HandleSubmitSpec(s.modal.value, m.log, m.stripeClientSecret,
                                                   m.customerName, m.mobileNumber, confirm);
    var c1 := ConfirmCardPayment(m.stripeClientSecret, m.customerName, m.mobileNumber, confirm);
    assert sub.log == m.log + [c1];
    assert sub.callback == StripePaymentModal.PaymentSuccessCallback(PaymentIntent(id, StripePaymentModal.SucceededStatus, None), None);
    StepSubmit(s, confirm, verified, deleted);
    CartSummary.PaymentSuccessTypeError(m.(log := sub.log), PaymentIntent(id, StripePaymentModal.SucceededStatus, None),
                                        None, verified);
  }
}
