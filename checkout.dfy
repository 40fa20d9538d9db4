/** The routed checkout page: a three-step wizard (shipping, payment,
    confirmation) whose Next button is enabled only when the current step's
    form is complete, and whose last step completes the order. */
module Checkout {
  import opened Text
  import opened Effects

  /** The labels of the wizard's steps. */
  const Steps: seq<string> := ["Informaci\U{F3}n de Env\U{ED}o", "M\U{E9}todo de Pago", "Confirmaci\U{F3}n"]

  datatype ShippingInfo = ShippingInfo(
    firstName: string, lastName: string, email: string, phone: string,
    address: string, city: string, state: string, zipCode: string)
  {
    /** `Object.values(shippingInfo)`, in declaration order. */
    function Values(): seq<string> {
      [firstName, lastName, email, phone, address, city, state, zipCode]
    }
  }

  datatype PaymentInfo = PaymentInfo(cardNumber: string, expiryDate: string, cvv: string, cardName: string)
  {
    function Values(): seq<string> {
      [cardNumber, expiryDate, cvv, cardName]
    }
  }

  const EmptyShipping: ShippingInfo := ShippingInfo("", "", "", "", "", "", "", "")
  const EmptyPayment: PaymentInfo := PaymentInfo("", "", "", "")

  /** `value.trim() !== ''`. */
  predicate Filled(value: string) {
    Trim(value) != ""
  }

  /** `values.every(value => value.trim() !== '')`. */
  predicate AllFilled(values: seq<string>) {
    forall i :: 0 <= i < |values| ==> Filled(values[i])
  }

  /** `isStepValid()`, for the step and the form contents given. */
  function IsStepValid(step: int, shipping: ShippingInfo, paymentMethod: string, payment: PaymentInfo): bool {
    if step == 0 then AllFilled(shipping.Values())
    else if step == 1 then paymentMethod == "cash" || AllFilled(payment.Values())
    else step == 2
  }

  /** `value.trim() !== ''` holds exactly for values that are not blank. */
  lemma FilledIff(value: string)
    ensures Filled(value) <==> !IsBlank(value)
  {
  }

  /** `every` keeps exactly the lists with no blank value. */
  lemma AllFilledIff(values: seq<string>)
    ensures AllFilled(values) <==> forall i :: 0 <= i < |values| ==> !IsBlank(values[i])
  {
    forall i | 0 <= i < |values|
      ensures Filled(values[i]) <==> !IsBlank(values[i])
    {
      FilledIff(values[i]);
    }
  }

  /** Step 0 needs every shipping field to hold something other than white
      space. */
  lemma ShippingStepMeaning(s: ShippingInfo, paymentMethod: string, p: PaymentInfo)
    ensures IsStepValid(0, s, paymentMethod, p) <==>
      !IsBlank(s.firstName) && !IsBlank(s.lastName) && !IsBlank(s.email) && !IsBlank(s.phone) &&
      !IsBlank(s.address) && !IsBlank(s.city) && !IsBlank(s.state) && !IsBlank(s.zipCode)
  {
    var v := s.Values();
    AllFilledIff(v);
    assert v[0] == s.firstName && v[1] == s.lastName && v[2] == s.email && v[3] == s.phone;
    assert v[4] == s.address && v[5] == s.city && v[6] == s.state && v[7] == s.zipCode;
  }

  /** Step 1 needs cash on delivery, or every card field holding something
      other than white space. */
  lemma PaymentStepMeaning(s: ShippingInfo, paymentMethod: string, p: PaymentInfo)
    ensures IsStepValid(1, s, paymentMethod, p) <==>
      paymentMethod == "cash" ||
      (!IsBlank(p.cardNumber) && !IsBlank(p.expiryDate) && !IsBlank(p.cvv) && !IsBlank(p.cardName))
  {
    var v := p.Values();
    AllFilledIff(v);
    assert v[0] == p.cardNumber && v[1] == p.expiryDate && v[2] == p.cvv && v[3] == p.cardName;
  }

  /** The confirmation step is always valid, and no step outside the three
      is. */
  lemma OtherStepsMeaning(step: int, s: ShippingInfo, paymentMethod: string, p: PaymentInfo)
    ensures step == 2 ==> IsStepValid(step, s, paymentMethod, p)
    ensures step !in {0, 1, 2} ==> !IsStepValid(step, s, paymentMethod, p)
  {
  }

  /** What the page shows. */
  datatype CheckoutView =
    | EmptyCartWarning
    | Wizard(step: int, dialogOpen: bool)

  class CheckoutWizard {
    var activeStep: int
    var orderComplete: bool
    var shippingInfo: ShippingInfo
    var paymentMethod: string
    var paymentInfo: PaymentInfo

    /** The steps the wizard can be on. */
    ghost predicate Valid()
      reads this
    {
      0 <= activeStep < |Steps|
    }

    constructor()
      ensures Valid()
      ensures activeStep == 0 && !orderComplete
      ensures shippingInfo == EmptyShipping && paymentMethod == "credit" && paymentInfo == EmptyPayment
    {
      activeStep := 0;
      orderComplete := false;
      shippingInfo := EmptyShipping;
      paymentMethod := "credit";
      paymentInfo := EmptyPayment;
    }

    /** The current step's validity, which enables the Next button. */
    function StepValid(): bool
      reads this
    {
      IsStepValid(activeStep, shippingInfo, paymentMethod, paymentInfo)
    }

    /** `handleCompleteOrder`: marks the order complete and asks the cart to
        empty itself. */
    method HandleCompleteOrder() returns (calls: seq<CartCall>)
      modifies this`orderComplete
      ensures orderComplete
      ensures calls == [ClearCart]
    {
      orderComplete := true;
      calls := [ClearCart];
    }

    /** `handleNext`: on the last step it completes the order and stays,
        anywhere else it moves one step on. */
    method HandleNext() returns (calls: seq<CartCall>)
      modifies this`activeStep, this`orderComplete
      ensures old(activeStep) == |Steps| - 1 ==> activeStep == old(activeStep) && orderComplete && calls == [ClearCart]
      ensures old(activeStep) != |Steps| - 1 ==> activeStep == old(activeStep) + 1 && orderComplete == old(orderComplete) && calls == []
    {
      if activeStep == |Steps| - 1 {
        calls := HandleCompleteOrder();
      } else {
        activeStep := activeStep + 1;
        calls := [];
      }
    }

    /** `handleBack`. */
    method HandleBack()
      modifies this`activeStep
      ensures activeStep == old(activeStep) - 1
    {
      activeStep := activeStep - 1;
    }

    /** `handleCloseDialog`: closes the confirmation and goes home. */
    method HandleCloseDialog() returns (nav: Route)
      modifies this`orderComplete
      ensures !orderComplete
      ensures nav == HomePage
    {
      orderComplete := false;
      nav := HomePage;
    }

    /** A click on Next, which is disabled while the step is not valid. The
        wizard stays on a step, and the order is completed only from the
        last step. */
    method PressNext() returns (calls: seq<CartCall>)
      requires Valid()
      modifies this`activeStep, this`orderComplete
      ensures Valid()
      ensures !old(StepValid()) ==> activeStep == old(activeStep) && orderComplete == old(orderComplete) && calls == []
      ensures old(StepValid()) && old(activeStep) < |Steps| - 1 ==> activeStep == old(activeStep) + 1 && orderComplete == old(orderComplete) && calls == []
      ensures old(activeStep) == |Steps| - 1 ==> activeStep == old(activeStep) && orderComplete && calls == [ClearCart]
    {
      if StepValid() {
        calls := HandleNext();
      } else {
        calls := [];
      }
    }

    /** A click on Back, which is disabled on the first step. */
    method PressBack()
      requires Valid()
      modifies this`activeStep
      ensures Valid()
      ensures old(activeStep) == 0 ==> activeStep == 0
      ensures old(activeStep) > 0 ==> activeStep == old(activeStep) - 1
    {
      if activeStep != 0 {
        HandleBack();
      }
    }

    method SetShippingInfo(info: ShippingInfo)
      modifies this`shippingInfo
      ensures shippingInfo == info
    {
      shippingInfo := info;
    }

    method SetPaymentMethod(value: string)
      modifies this`paymentMethod
      ensures paymentMethod == value
    {
      paymentMethod := value;
    }

    method SetPaymentInfo(info: PaymentInfo)
      modifies this`paymentInfo
      ensures paymentInfo == info
    {
      paymentInfo := info;
    }

    /** With an empty cart and no order just completed, a warning replaces
        the wizard; otherwise the wizard shows its step and the dialog is
        open exactly when the order is complete. */
    function View(cartEmpty: bool): (r: CheckoutView)
      reads this
      ensures r == EmptyCartWarning <==> cartEmpty && !orderComplete
      ensures r.Wizard? ==> r.step == activeStep && r.dialogOpen == orderComplete
    {
      if cartEmpty && !orderComplete then EmptyCartWarning else Wizard(activeStep, orderComplete)
    }
  }
}
