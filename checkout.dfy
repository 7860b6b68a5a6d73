/**
 * The checkout wizard: three steps (shipping, payment, review), the form the steps fill in,
 * the error map of the last validated step, and the placing of the order.
 */
module Checkout {
  import opened Wrappers
  import Text
  import AuthSlice
  import CartSlice

  /** The names of the form's inputs. */
  datatype Field =
    | FullName | Email | Phone | Address | City | State | Pincode | Country
    | PaymentMethod | CardNumber | ExpiryDate | Cvv | CardName | UpiId | Instructions

  /** `formData`: a value for every input name. */
  type Form = map<Field, string>

  predicate Complete(form: Form) {
    forall f: Field :: f in form
  }

  /** A form that has each input listed is complete. */
  lemma CompleteByCases(form: Form)
    requires FullName in form && Email in form && Phone in form && Address in form && City in form
    requires State in form && Pincode in form && Country in form && PaymentMethod in form
    requires CardNumber in form && ExpiryDate in form && Cvv in form && CardName in form
    requires UpiId in form && Instructions in form
    ensures Complete(form)
  {
    forall f: Field ensures f in form {
      match f
      case FullName => case Email => case Phone => case Address => case City => case State =>
      case Pincode => case Country => case PaymentMethod => case CardNumber => case ExpiryDate =>
      case Cvv => case CardName => case UpiId => case Instructions =>
    }
  }

  /** The form the page opens with: name and e-mail from the signed-in user when present. */
  function InitialForm(user: Option<AuthSlice.User>): (form: Form)
    ensures Complete(form)
    ensures user.Some? && user.value.name.Some? ==> form[FullName] == user.value.name.value
    ensures user.None? || user.value.name.None? ==> form[FullName] == ""
    ensures user.Some? && user.value.email.Some? ==> form[Email] == user.value.email.value
    ensures user.None? || user.value.email.None? ==> form[Email] == ""
    ensures form[Country] == "India" && form[PaymentMethod] == "card"
    ensures form[Phone] == "" && form[Address] == "" && form[City] == "" && form[State] == ""
    ensures form[Pincode] == "" && form[CardNumber] == "" && form[ExpiryDate] == "" && form[Cvv] == ""
    ensures form[CardName] == "" && form[UpiId] == "" && form[Instructions] == ""
  {
    var name := if user.Some? then user.value.name.GetOr("") else "";
    var email := if user.Some? then user.value.email.GetOr("") else "";
    var form := map[
      FullName := name, Email := email, Phone := "", Address := "", City := "", State := "",
      Pincode := "", Country := "India", PaymentMethod := "card", CardNumber := "",
      ExpiryDate := "", Cvv := "", CardName := "", UpiId := "", Instructions := ""];
    CompleteByCases(form);
    form
  }

  /** The message a blank required field gets. */
  function RequiredMessage(f: Field): string {
    match f
    case FullName => "Full name is required"
    case Email => "Email is required"
    case Phone => "Phone number is required"
    case Address => "Address is required"
    case City => "City is required"
    case State => "State is required"
    case Pincode => "Pincode is required"
    case CardNumber => "Card number is required"
    case ExpiryDate => "Expiry date is required"
    case Cvv => "CVV is required"
    case CardName => "Cardholder name is required"
    case UpiId => "UPI ID is required"
    case _ => ""
  }

  const ShippingFields: set<Field> := {FullName, Email, Phone, Address, City, State, Pincode}
  const CardFields: set<Field> := {CardNumber, ExpiryDate, Cvv, CardName}

  /** The fields step `n` checks: the shipping fields for step 1; for step 2 the card fields, the
      UPI id, or nothing, by payment method; nothing for any other step. */
  function RequiredFields(paymentMethod: string, n: int): (r: set<Field>)
    ensures Country !in r && PaymentMethod !in r && Instructions !in r
  {
    if n == 1 then ShippingFields
    else if n == 2 then
      if paymentMethod == "card" then CardFields
      else if paymentMethod == "upi" then {UpiId}
      else {}
    else {}
  }

  /** The errors over a set of checked fields: each blank one with its message. */
  function ErrorsOver(form: Form, fields: set<Field>): map<Field, string>
    requires Complete(form)
  {
    map f | f in fields && Text.IsBlank(form[f]) :: RequiredMessage(f)
  }

  /** Checking one more field adds its error exactly when it is blank. */
  lemma ErrorsOverAdd(form: Form, fields: set<Field>, f: Field)
    requires Complete(form)
    ensures ErrorsOver(form, fields + {f}) ==
      if Text.IsBlank(form[f]) then ErrorsOver(form, fields)[f := RequiredMessage(f)] else ErrorsOver(form, fields)
  {
  }

  /** The errors of step `n`: exactly the required fields that are blank after trimming, each
      with its own message. */
  function StepErrors(form: Form, n: int): (errs: map<Field, string>)
    requires Complete(form)
    ensures forall f :: f in errs <==> f in RequiredFields(form[PaymentMethod], n) && Text.IsBlank(form[f])
    ensures forall f :: f in errs ==> errs[f] == RequiredMessage(f)
  {
    ErrorsOver(form, RequiredFields(form[PaymentMethod], n))
  }

  /** A step validates exactly when none of its required fields is blank. */
  lemma StepValidIff(form: Form, n: int)
    requires Complete(form)
    ensures StepErrors(form, n) == map[] <==>
      forall f :: f in RequiredFields(form[PaymentMethod], n) ==> !Text.IsBlank(form[f])
  {
    var errs := StepErrors(form, n);
    if errs != map[] {
      var f :| f in errs;
    }
  }

  /** The country is never checked. */
  lemma CountryNeverChecked(form: Form, n: int, country: string)
    requires Complete(form)
    ensures StepErrors(form[Country := country], n) == StepErrors(form, n)
  {
  }

  /** A payment method other than card or UPI makes step 2 pass whatever the form holds. */
  lemma OtherPaymentPasses(form: Form)
    requires Complete(form)
    requires form[PaymentMethod] != "card" && form[PaymentMethod] != "upi"
    ensures StepErrors(form, 2) == map[]
  {
  }

  /** One line of `validateStep`: a blank `f` gets its message. */
  method CheckRequired(form: Form, errs: map<Field, string>, ghost checked: set<Field>, f: Field)
    returns (r: map<Field, string>)
    requires Complete(form) && errs == ErrorsOver(form, checked)
    ensures r == ErrorsOver(form, checked + {f})
  {
    ErrorsOverAdd(form, checked, f);
    r := errs;
    if Text.IsBlank(form[f]) {
      r := errs[f := RequiredMessage(f)];
    }
  }

  /** `validateStep`'s `newErrors`, filled in field by field. */
  method CollectErrors(form: Form, n: int) returns (errs: map<Field, string>)
    requires Complete(form)
    ensures errs == StepErrors(form, n)
  {
    errs := map[];
    ghost var checked: set<Field> := {};
    assert errs == ErrorsOver(form, checked);
    if n == 1 {
      errs := CheckRequired(form, errs, checked, FullName);
      checked := checked + {FullName};
      errs := CheckRequired(form, errs, checked, Email);
      checked := checked + {Email};
      errs := CheckRequired(form, errs, checked, Phone);
      checked := checked + {Phone};
      errs := CheckRequired(form, errs, checked, Address);
      checked := checked + {Address};
      errs := CheckRequired(form, errs, checked, City);
      checked := checked + {City};
      errs := CheckRequired(form, errs, checked, State);
      checked := checked + {State};
      errs := CheckRequired(form, errs, checked, Pincode);
      checked := checked + {Pincode};
    }
    if n == 2 {
      if form[PaymentMethod] == "card" {
        errs := CheckRequired(form, errs, checked, CardNumber);
        checked := checked + {CardNumber};
        errs := CheckRequired(form, errs, checked, ExpiryDate);
        checked := checked + {ExpiryDate};
        errs := CheckRequired(form, errs, checked, Cvv);
        checked := checked + {Cvv};
        errs := CheckRequired(form, errs, checked, CardName);
        checked := checked + {CardName};
      } else if form[PaymentMethod] == "upi" {
        errs := CheckRequired(form, errs, checked, UpiId);
        checked := checked + {UpiId};
      }
    }
    assert checked == RequiredFields(form[PaymentMethod], n);
  }

  /** The label the order carries for a payment method. */
  function PaymentLabel(choice: string): (shown: string)
    ensures choice == "card" <==> shown == "Credit Card"
    ensures choice == "upi" <==> shown == "UPI"
    ensures choice == "cod" <==> shown == "Cash on Delivery"
    ensures shown == "Net Banking" <==> choice !in {"card", "upi", "cod"}
  {
    if choice == "card" then "Credit Card"
    else if choice == "upi" then "UPI"
    else if choice == "cod" then "Cash on Delivery"
    else "Net Banking"
  }

  datatype ShippingAddress = ShippingAddress(street: string, city: string, state: string, pincode: string, country: string)

  /** The order payload sent to the API. */
  datatype OrderData = OrderData(
    userId: Option<string>, customerName: string, customerEmail: string, customerPhone: string,
    items: seq<CartSlice.CartItem>, total: int, shippingAddress: ShippingAddress,
    paymentMethod: string, instructions: string)

  /** The payload built from the form, the signed-in user and the cart as displayed. */
  function BuildOrder(form: Form, user: Option<AuthSlice.User>, items: seq<CartSlice.CartItem>, total: int): (o: OrderData)
    requires Complete(form)
    ensures o.items == items && o.total == total
    ensures o.userId == (if user.Some? then user.value.id else None)
    ensures o.customerName == form[FullName] && o.customerEmail == form[Email] && o.customerPhone == form[Phone]
    ensures o.shippingAddress == ShippingAddress(form[Address], form[City], form[State], form[Pincode], form[Country])
    ensures o.paymentMethod == PaymentLabel(form[PaymentMethod]) && o.instructions == form[Instructions]
  {
    OrderData(
      if user.Some? then user.value.id else None,
      form[FullName], form[Email], form[Phone], items, total,
      ShippingAddress(form[Address], form[City], form[State], form[Pincode], form[Country]),
      PaymentLabel(form[PaymentMethod]), form[Instructions])
  }

  /** What the page shows. */
  datatype View = EmptyCartView | OrderPlacedView | StepView(step: int)

  function SelectView(cartIsEmpty: bool, orderPlaced: bool, step: int): (v: View)
    ensures v == EmptyCartView <==> cartIsEmpty && !orderPlaced
    ensures v == OrderPlacedView <==> orderPlaced
    ensures v.StepView? ==> v.step == step
  {
    if cartIsEmpty && !orderPlaced then EmptyCartView
    else if orderPlaced then OrderPlacedView
    else StepView(step)
  }

  class CheckoutPage {
    var step: int
    var orderPlaced: bool
    var form: Form
    var errors: map<Field, string>
    const user: Option<AuthSlice.User>
    const cart: CartSlice.CartStore

    /** The step is one of the three, and every input has a value. */
    ghost predicate Valid()
      reads this
    {
      1 <= step <= 3 && Complete(form)
    }

    constructor (user: Option<AuthSlice.User>, cart: CartSlice.CartStore)
      ensures Valid()
      ensures step == 1 && !orderPlaced && form == InitialForm(user) && errors == map[]
      ensures this.user == user && this.cart == cart
    {
      this.user, this.cart := user, cart;
      step, orderPlaced := 1, false;
      form, errors := InitialForm(user), map[];
    }

    /** `handleInputChange`: set one input; a set error of that input is blanked. */
    method InputChange(name: Field, value: string)
      requires Valid()
      modifies this`form, this`errors
      ensures Valid()
      ensures form == old(form)[name := value]
      ensures name in old(errors) && old(errors)[name] != "" ==> errors == old(errors)[name := ""]
      ensures !(name in old(errors) && old(errors)[name] != "") ==> errors == old(errors)
    {
      form := form[name := value];
      if name in errors && errors[name] != "" {
        errors := errors[name := ""];
      }
    }

    /** `validateStep(n)`: the error map becomes the errors of step `n` alone. */
    method ValidateStep(n: int) returns (ok: bool)
      requires Valid()
      modifies this`errors
      ensures Valid()
      ensures errors == StepErrors(form, n)
      ensures ok <==> errors == map[]
    {
      errors := CollectErrors(form, n);
      ok := errors == map[];
    }

    /** `handleNextStep`, offered on steps 1 and 2: advance by one exactly when the step
        validates. */
    method NextStep()
      requires Valid() && step < 3
      modifies this`step, this`errors
      ensures Valid()
      ensures errors == StepErrors(form, old(step))
      ensures errors == map[] ==> step == old(step) + 1
      ensures errors != map[] ==> step == old(step)
    {
      var ok := ValidateStep(step);
      if ok {
        step := step + 1;
      }
    }

    /** `handlePreviousStep`, offered on steps 2 and 3. */
    method PreviousStep()
      requires Valid() && step > 1
      modifies this`step
      ensures Valid()
      ensures step == old(step) - 1
    {
      step := step - 1;
    }

    /** `handlePlaceOrder`, offered on step 3: when the payment step validates, the order built
        from the cart as displayed is sent (returned here), `removeFromCart()` runs with no id,
        and the order counts as placed at once. */
    method PlaceOrder() returns (sent: Option<OrderData>)
      requires Valid()
      modifies this`errors, this`orderPlaced, cart
      ensures Valid()
      ensures errors == StepErrors(form, 2)
      ensures errors != map[] ==> sent == None && orderPlaced == old(orderPlaced) && unchanged(cart)
      ensures errors == map[] ==>
        && sent == Some(BuildOrder(form, user, old(cart.items), old(cart.total)))
        && orderPlaced
        && cart.items == CartSlice.RemoveId(old(cart.items), None)
        && cart.TotalsAgree() && cart.stored == Some(cart.Snapshot())
    {
      var ok := ValidateStep(2);
      if ok {
        sent := Some(BuildOrder(form, user, cart.items, cart.total));
        cart.RemoveFromCart(None);
        orderPlaced := true;
      } else {
        sent := None;
      }
    }

    function CurrentView(): (v: View)
      reads this, cart
      ensures v == OrderPlacedView <==> orderPlaced
      ensures v == EmptyCartView <==> cart.items == [] && !orderPlaced
      ensures v.StepView? ==> v.step == step
    {
      SelectView(cart.items == [], orderPlaced, step)
    }
  }

  /** Once an order is placed the success view stays, whatever the cart holds. */
  lemma PlacedViewWins(cartIsEmpty: bool, step: int)
    ensures SelectView(cartIsEmpty, true, step) == OrderPlacedView
  {
  }
}
