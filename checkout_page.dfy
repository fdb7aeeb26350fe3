/** src/app/checkout/page.tsx: the four-step checkout wizard. `handlePlaceOrder`
    awaits a two-second timer; it is split here at that `await` into
    `BeginPlaceOrder` and `FinishPlaceOrder`, so that clicks in between can be
    modelled. */
module CheckoutPage {
  import opened Common
  import opened Records
  import opened CartSlice
  import opened ShippingForm
  import opened PaymentForm

  /** `steps`: Shipping, Payment, Review, Confirmation. */
  const StepCount := 4
  const ReviewStep := StepCount - 2
  const ConfirmationStep := StepCount - 1

  const OrderError := "There was an error processing your order. Please try again."

  datatype Button = Back | Next

  /** The navigation bar is rendered before the confirmation step only. */
  predicate NavigationShown(step: int) { step < StepCount - 1 }

  /** The buttons' `disabled` props as written: Back only at step 0, Next on the two
      form steps and while the order is being placed. */
  predicate EnabledAsWritten(step: int, submitting: bool, b: Button)
  {
    NavigationShown(step) &&
    match b
    case Back => step != 0
    case Next => !(submitting || step == 0 || step == 1)
  }

  /** The guard the rest of the model uses: as written, but Back is also disabled
      while the order is being placed. */
  predicate Enabled(step: int, submitting: bool, b: Button)
  {
    EnabledAsWritten(step, submitting, b) && (b == Back ==> !submitting)
  }

  /** Under either guard, Next is only ever clicked on the review step, so
      `handleNext`'s plain increment branch is unreachable. */
  lemma NextOnlyPlacesOrder(step: int, submitting: bool)
    requires 0 <= step && EnabledAsWritten(step, submitting, Next)
    ensures step == ReviewStep && !submitting
  {
  }

  /** As written, Back is live on the review step while the order is pending. */
  lemma BackLiveWhileSubmittingAsWritten()
    ensures EnabledAsWritten(ReviewStep, true, Back)
    ensures !Enabled(ReviewStep, true, Back)
  {
  }

  /** Under the corrected guard no button is live while the order is pending. */
  lemma SubmittingLocksNavigation(step: int, b: Button)
    ensures !Enabled(step, true, b)
  {
  }

  /** The confirmation step has no navigation: it is final. */
  lemma ConfirmationIsFinal(submitting: bool, b: Button)
    ensures !EnabledAsWritten(ConfirmationStep, submitting, b)
  {
  }

  class CheckoutFlow {
    var activeStep: int
    var isSubmitting: bool
    var error: Option<string>
    var shipping: ShippingData
    var payment: PaymentData
    const cart: CartStore

    /** The step is in range, and an order is pending only on the review step. */
    predicate Valid()
      reads this
    {
      0 <= activeStep < StepCount && (isSubmitting ==> activeStep == ReviewStep)
    }

    constructor(c: CartStore)
      ensures activeStep == 0 && !isSubmitting && error == None
      ensures shipping == EmptyShipping && payment == EmptyPayment && cart == c
      ensures Valid()
    {
      activeStep, isSubmitting, error := 0, false, None;
      shipping, payment := EmptyShipping, EmptyPayment;
      cart := c;
    }

    /** `handleBack`. */
    method HandleBack()
      modifies this`activeStep
      ensures activeStep == old(activeStep) - 1
    {
      activeStep := activeStep - 1;
    }

    /** `handleNext`: on the review step it places the order, elsewhere it advances. */
    method HandleNext()
      modifies this`activeStep, this`isSubmitting, this`error
      ensures old(activeStep) == ReviewStep ==>
        activeStep == old(activeStep) && isSubmitting && error == None
      ensures old(activeStep) != ReviewStep ==>
        activeStep == old(activeStep) + 1 && isSubmitting == old(isSubmitting) && error == old(error)
    {
      if activeStep == ReviewStep {
        BeginPlaceOrder();
      } else {
        activeStep := activeStep + 1;
      }
    }

    /** `handlePlaceOrder` up to its `await`. */
    method BeginPlaceOrder()
      modifies this`isSubmitting, this`error
      ensures isSubmitting && error == None
    {
      isSubmitting := true;
      error := None;
    }

    /** `handlePlaceOrder` after the `await`. On success the cart is cleared through
        the mounted cart slice and the wizard moves one step on from wherever it is
        now; when the awaited step rejects (`fails`; the two-second timer of the
        source never does) the error is shown and the step stays. */
    method FinishPlaceOrder(fails: bool)
      modifies this`activeStep, this`isSubmitting, this`error, cart`items, cart.browser`carts
      ensures !isSubmitting
      ensures !fails ==> && cart.items == []
                         && cart.browser.carts == Cleared(old(cart.browser.carts), cart.userId)
                         && activeStep == old(activeStep) + 1 && error == old(error)
      ensures fails ==> && error == Some(OrderError) && activeStep == old(activeStep)
                        && unchanged(cart) && cart.browser.carts == old(cart.browser.carts)
    {
      if fails {
        error := Some(OrderError);
      } else {
        cart.ClearCart();
        activeStep := activeStep + 1;
      }
      isSubmitting := false;
    }

    /** A click on an enabled navigation button keeps the wizard valid. */
    method Click(b: Button)
      requires Valid() && Enabled(activeStep, isSubmitting, b)
      modifies this`activeStep, this`isSubmitting, this`error
      ensures Valid()
      ensures b == Back ==> activeStep == old(activeStep) - 1 && !isSubmitting
      ensures b == Next ==> activeStep == ReviewStep && isSubmitting
    {
      match b
      case Back => HandleBack();
      case Next => HandleNext();
    }

    /** The pending order settling keeps the wizard valid: with the corrected guard
        nothing moved the step meanwhile, so success lands on the confirmation step
        with the cart emptied and failure stays on the review step. */
    method OrderSettles(fails: bool)
      requires Valid() && isSubmitting
      modifies this`activeStep, this`isSubmitting, this`error, cart`items, cart.browser`carts
      ensures Valid() && !isSubmitting
      ensures !fails ==> activeStep == ConfirmationStep && cart.items == []
      ensures fails ==> activeStep == ReviewStep && error == Some(OrderError)
    {
      FinishPlaceOrder(fails);
    }

    /** `handleShippingSubmit`, reached through the shipping form's `handleSubmit`,
        which calls it only when every field rule holds. */
    method SubmitShipping(d: ShippingData)
      requires Valid() && activeStep == 0
      modifies this`shipping, this`activeStep
      ensures ShippingValid(d) ==> shipping == d && activeStep == 1
      ensures !ShippingValid(d) ==> shipping == old(shipping) && activeStep == 0
      ensures Valid()
    {
      if ShippingValid(d) {
        shipping := d;
        activeStep := activeStep + 1;
      }
    }

    /** `handlePaymentSubmit`, reached through the payment form's `handleSubmit`. */
    method SubmitPayment(d: PaymentData)
      requires Valid() && activeStep == 1
      modifies this`payment, this`activeStep
      ensures PaymentValid(d) ==> payment == d && activeStep == ReviewStep
      ensures !PaymentValid(d) ==> payment == old(payment) && activeStep == 1
      ensures Valid()
    {
      if PaymentValid(d) {
        payment := d;
        activeStep := activeStep + 1;
      }
    }
  }

  /** As written, Back stays enabled while the order is pending: clicking Place
      Order and then Back before the timer fires empties the cart but leaves the
      shopper on the review step instead of the confirmation. */
  method BackDuringOrderAsWritten(flow: CheckoutFlow)
    requires flow.Valid() && flow.activeStep == ReviewStep && !flow.isSubmitting
    modifies flow, flow.cart`items, flow.cart.browser`carts
    ensures flow.activeStep == ReviewStep && flow.cart.items == []
    ensures !flow.isSubmitting
  {
    assert EnabledAsWritten(flow.activeStep, flow.isSubmitting, Next);
    flow.HandleNext();
    assert EnabledAsWritten(flow.activeStep, flow.isSubmitting, Back);
    flow.HandleBack();
    flow.FinishPlaceOrder(false);
  }
}
