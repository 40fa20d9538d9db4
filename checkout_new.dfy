/** The redesigned checkout page: a single form whose required fields are
    checked on submit, an error map that marks the empty ones, and a
    processing flag that disables the submit button while the payment is
    simulated. */
module CheckoutNew {
  import opened Text
  import opened Effects
  import Checkout

  /** The keys of `formData`. */
  datatype Field =
    | Email | FirstName | LastName | Address | City | State | ZipCode | Country
    | CardNumber | ExpiryDate | Cvv | CardName
    | SaveInfo | SameAsShipping | ShippingMethod

  /** A form value: text inputs hold strings, checkboxes booleans. */
  datatype Value = Str(s: string) | Flag(b: bool)

  /** JavaScript truthiness of a form entry; a missing key reads as
      `undefined`, which is falsy. */
  predicate Truthy(form: map<Field, Value>, f: Field) {
    f in form &&
    match form[f]
    case Str(s) => s != ""
    case Flag(b) => b
  }

  /** The fields `validateForm` checks. */
  const RequiredFields: set<Field> :=
    {Email, FirstName, LastName, Address, City, State, ZipCode, CardNumber, ExpiryDate, Cvv, CardName}

  /** The order in which `validateForm` checks them. */
  const RequiredOrder: seq<Field> :=
    [Email, FirstName, LastName, Address, City, State, ZipCode, CardNumber, ExpiryDate, Cvv, CardName]

  /** The message `validateForm` records for a required field. */
  function RequiredMessage(f: Field): string
    requires f in RequiredFields
  {
    match f
    case Email => "Email is required"
    case FirstName => "First name is required"
    case LastName => "Last name is required"
    case Address => "Address is required"
    case City => "City is required"
    case State => "State is required"
    case ZipCode => "ZIP code is required"
    case CardNumber => "Card number is required"
    case ExpiryDate => "Expiry date is required"
    case Cvv => "CVV is required"
    case CardName => "Cardholder name is required"
  }

  /** Country, the two checkboxes and the shipping method are never
      checked. */
  lemma OptionalFieldsNeverChecked(f: Field)
    ensures f !in RequiredFields <==> f in {Country, SaveInfo, SameAsShipping, ShippingMethod}
    ensures f in RequiredFields <==> f in RequiredOrder
  {
  }

  /** `errs` has an entry exactly for the fields of `checked` that are
      falsy in `form`, each holding that field's message. */
  ghost predicate ErrorsExactlyFor(errs: map<Field, string>, form: map<Field, Value>, checked: seq<Field>) {
    forall f :: (f in errs <==> f in checked && !Truthy(form, f)) && (f in errs ==> f in RequiredFields && errs[f] == RequiredMessage(f))
  }

  /** Every required field holds a truthy value. */
  predicate AllRequiredFilled(form: map<Field, Value>) {
    forall f :: f in RequiredFields ==> Truthy(form, f)
  }

  /** One `if (!formData.f) newErrors.f = message` of `validateForm`. */
  lemma ErrorsStep(before: map<Field, string>, after: map<Field, string>, form: map<Field, Value>, checked: seq<Field>, f: Field)
    requires f in RequiredFields
    requires ErrorsExactlyFor(before, form, checked)
    requires after == if !Truthy(form, f) then before[f := RequiredMessage(f)] else before
    ensures ErrorsExactlyFor(after, form, checked + [f])
  {
  }

  /** Once every required field is checked, the map lists exactly the falsy
      ones, and it is empty exactly when all are filled. */
  lemma ErrorsComplete(errs: map<Field, string>, form: map<Field, Value>)
    requires ErrorsExactlyFor(errs, form, RequiredOrder)
    ensures forall f :: f in errs <==> f in RequiredFields && !Truthy(form, f)
    ensures forall f :: f in errs ==> f in RequiredFields && errs[f] == RequiredMessage(f)
    ensures |errs| == 0 <==> AllRequiredFilled(form)
    ensures |errs| == 0 <==> errs == map[]
  {
    forall f | f in RequiredFields
      ensures f in RequiredOrder
    {
      OptionalFieldsNeverChecked(f);
    }
    if |errs| != 0 {
      var f :| f in errs;
      assert !Truthy(form, f);
    }
    if !AllRequiredFilled(form) {
      var f :| f in RequiredFields && !Truthy(form, f);
      assert f in errs;
    }
  }

  const InitialForm: map<Field, Value> := map[
    Email := Str(""), FirstName := Str(""), LastName := Str(""),
    Address := Str(""), City := Str(""), State := Str(""), ZipCode := Str(""),
    Country := Str("United States"),
    CardNumber := Str(""), ExpiryDate := Str(""), Cvv := Str(""), CardName := Str(""),
    SaveInfo := Flag(false), SameAsShipping := Flag(true), ShippingMethod := Str("standard")
  ]

  /** Unlike the wizard's trimmed check, a value of white space only counts
      as filled here. */
  lemma WhiteSpaceCountsAsFilled()
    ensures Truthy(InitialForm[FirstName := Str(" ")], FirstName)
    ensures !Checkout.Filled(" ")
  {
    assert IsBlank(" ");
  }

  /** What the page shows. */
  datatype CheckoutView = NoItemsToCheckout | OrderForm(processing: bool)

  class CheckoutForm {
    var formData: map<Field, Value>
    var errors: map<Field, string>
    var isProcessing: bool

    constructor()
      ensures formData == InitialForm && errors == map[] && !isProcessing
    {
      formData := InitialForm;
      errors := map[];
      isProcessing := false;
    }

    /** `validateForm`: records exactly the required fields that are empty,
        each with its message, and reports whether there are none. */
    method ValidateForm() returns (ok: bool)
      modifies this`errors
      ensures forall f :: f in errors <==> f in RequiredFields && !Truthy(formData, f)
      ensures forall f :: f in errors ==> f in RequiredFields && errors[f] == RequiredMessage(f)
      ensures ok <==> AllRequiredFilled(formData)
      ensures ok <==> errors == map[]
    {
      var form := formData;
      var newErrors: map<Field, string> := map[];
      for i := 0 to |RequiredOrder|
        invariant ErrorsExactlyFor(newErrors, form, RequiredOrder[..i])
      {
        var f := RequiredOrder[i];
        ghost var before := newErrors;
        if !Truthy(form, f) {
          newErrors := newErrors[f := RequiredMessage(f)];
        }
        assert RequiredOrder[..i + 1] == RequiredOrder[..i] + [f];
        ErrorsStep(before, newErrors, form, RequiredOrder[..i], f);
      }
      assert RequiredOrder[..|RequiredOrder|] == RequiredOrder;
      ErrorsComplete(newErrors, form);
      errors := newErrors;
      ok := |newErrors| == 0;
    }

    /** `handleInputChange`: stores the checkbox's state or the input's text
        under `name`, and blanks that field's error if it had one. */
    method HandleInputChange(name: Field, value: string, isCheckbox: bool, checked: bool)
      modifies this`formData, this`errors
      ensures formData == old(formData)[name := if isCheckbox then Flag(checked) else Str(value)]
      ensures name in old(errors) && old(errors)[name] != "" ==> errors == old(errors)[name := ""]
      ensures !(name in old(errors) && old(errors)[name] != "") ==> errors == old(errors)
    {
      formData := formData[name := if isCheckbox then Flag(checked) else Str(value)];
      if name in errors && errors[name] != "" {
        errors := errors[name := ""];
      }
    }

    /** `handleSubmit`: validates, and starts the payment only when the
        form is complete. */
    method HandleSubmit()
      modifies this`errors, this`isProcessing
      ensures forall f :: f in errors <==> f in RequiredFields && !Truthy(formData, f)
      ensures AllRequiredFilled(formData) ==> isProcessing
      ensures !AllRequiredFilled(formData) ==> isProcessing == old(isProcessing)
    {
      var ok := ValidateForm();
      if !ok {
        return;
      }
      isProcessing := true;
    }

    /** The submit button, disabled while a payment is being processed. */
    method PressSubmit()
      modifies this`errors, this`isProcessing
      ensures old(isProcessing) ==> isProcessing && errors == old(errors)
      ensures !old(isProcessing) ==> forall f :: f in errors <==> f in RequiredFields && !Truthy(formData, f)
      ensures !old(isProcessing) ==> (isProcessing <==> AllRequiredFilled(formData))
    {
      if !isProcessing {
        HandleSubmit();
      }
    }

    /** The end of the simulated payment: the cart is emptied, processing
        stops and the confirmation page is shown. */
    method PaymentCompletes() returns (calls: seq<CartCall>, nav: Route)
      modifies this`isProcessing
      ensures !isProcessing
      ensures calls == [ClearCart] && nav == OrderConfirmation
    {
      calls := [ClearCart];
      isProcessing := false;
      nav := OrderConfirmation;
    }

    /** An empty cart replaces the form with a notice. */
    function View(cartEmpty: bool): (r: CheckoutView)
      reads this
      ensures r == NoItemsToCheckout <==> cartEmpty
      ensures r.OrderForm? ==> r.processing == isProcessing
    {
      if cartEmpty then NoItemsToCheckout else OrderForm(isProcessing)
    }
  }
}
