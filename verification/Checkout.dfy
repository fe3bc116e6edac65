/** The checkout page: its own delivery-based shipping policy, the form
    record, the submit procedure with its two guards, the rupee-to-paise
    amount handed to the payment widget and the resets on failure. */
module Checkout {
  import opened Wrappers
  import opened CartContext
  import Cart

  /** The keys of the checkout form. */
  datatype Field =
    | Email | FirstName | LastName | Phone | Address | Apartment | City | State | Pincode
    | DeliveryMethod | PaymentMethod | SameAsBilling | Marketing

  /** A form value: text from an input or a checkbox flag. */
  datatype Value = Text(text: string) | Flag(flag: bool)

  /** JavaScript truthiness of a form value. */
  predicate Truthy(v: Value) {
    match v
    case Text(s) => s != ""
    case Flag(b) => b
  }

  type Form = map<Field, Value>

  /** Every key is present, as in the initial record. */
  ghost predicate Complete(form: Form) {
    forall f: Field :: f in form
  }

  const InitialForm: Form := map[
    Email := Text(""), FirstName := Text(""), LastName := Text(""), Phone := Text(""),
    Address := Text(""), Apartment := Text(""), City := Text(""), State := Text(""),
    Pincode := Text(""), DeliveryMethod := Text("standard"), PaymentMethod := Text("card"),
    SameAsBilling := Flag(true), Marketing := Flag(false)]

  /** The fields the submit guard insists on; the apartment line is optional. */
  const RequiredFields: seq<Field> := [Email, FirstName, LastName, Phone, Address, City, State, Pincode]

  /** The first guard of `handleSubmit`: some required field is empty. */
  predicate MissingInformation(form: Form)
    requires Complete(form)
  {
    !Truthy(form[Email]) || !Truthy(form[FirstName]) || !Truthy(form[LastName])
    || !Truthy(form[Phone]) || !Truthy(form[Address]) || !Truthy(form[City])
    || !Truthy(form[State]) || !Truthy(form[Pincode])
  }

  /** Information is missing exactly when one of the required fields is
      empty; the apartment line (like the other optional fields) never
      makes it missing. */
  lemma MissingInformationRule(form: Form, v: Value)
    requires Complete(form)
    ensures MissingInformation(form) <==> exists i :: 0 <= i < |RequiredFields| && !Truthy(form[RequiredFields[i]])
    ensures MissingInformation(form[Apartment := v]) == MissingInformation(form)
  {
    if !Truthy(form[Email]) { assert !Truthy(form[RequiredFields[0]]); }
    if !Truthy(form[FirstName]) { assert !Truthy(form[RequiredFields[1]]); }
    if !Truthy(form[LastName]) { assert !Truthy(form[RequiredFields[2]]); }
    if !Truthy(form[Phone]) { assert !Truthy(form[RequiredFields[3]]); }
    if !Truthy(form[Address]) { assert !Truthy(form[RequiredFields[4]]); }
    if !Truthy(form[City]) { assert !Truthy(form[RequiredFields[5]]); }
    if !Truthy(form[State]) { assert !Truthy(form[RequiredFields[6]]); }
    if !Truthy(form[Pincode]) { assert !Truthy(form[RequiredFields[7]]); }
  }

  /** The initial record holds every key, and submitting it untouched
      stops at the first guard. */
  lemma InitialFormComplete()
    ensures Complete(InitialForm)
    ensures MissingInformation(InitialForm)
    ensures InitialForm[DeliveryMethod] == Text("standard")
  {
    forall f: Field
      ensures f in InitialForm
    {
      match f
      case Email =>
      case FirstName =>
      case LastName =>
      case Phone =>
      case Address =>
      case Apartment =>
      case City =>
      case State =>
      case Pincode =>
      case DeliveryMethod =>
      case PaymentMethod =>
      case SameAsBilling =>
      case Marketing =>
    }
  }

  /** Flat delivery pricing: 199 for express, otherwise free. */
  function Shipping(form: Form): int
    requires Complete(form)
  {
    if form[DeliveryMethod] == Text("express") then 199 else 0
  }

  /** Subtotal plus delivery; no promo discount applies here. */
  function Total(items: seq<CartItem>, form: Form): int
    requires Complete(form)
  {
    Cart.Subtotal(items) + Shipping(form)
  }

  /** Checkout shipping ignores the subtotal, so it agrees with the cart
      page's threshold shipping only for standard delivery on an order of
      999 or more; it never applies the cart page's discount. */
  lemma CheckoutShippingPolicy(items: seq<CartItem>, form: Form, applied: bool)
    requires Complete(form)
    ensures Shipping(form) == Cart.Shipping(Cart.Subtotal(items))
        <==> form[DeliveryMethod] != Text("express") && Cart.Subtotal(items) >= Cart.FreeShippingThreshold
    ensures Total(items, form) == Cart.Subtotal(items) + (if form[DeliveryMethod] == Text("express") then 199 else 0)
    ensures Cart.Subtotal(items) >= 0 && form[DeliveryMethod] != Text("express") ==>
              Total(items, form) <= Cart.Total(Cart.Subtotal(items), false)
  {
  }

  /** `total * 100`: the amount in paise, a whole number of rupees. */
  function PaiseAmount(total: int): (paise: int)
    ensures paise % 100 == 0 && paise / 100 == total
  {
    total * 100
  }

  /** What the payment widget does once the order is submitted. */
  datatype Gateway =
    | SdkMissing                 // the script has not defined the widget
    | OpenFails                  // constructing or opening the widget throws
    | StillOpen                  // the widget is showing; nothing has happened yet
    | Paid(paymentId: string)    // the success handler runs
    | Dismissed                  // the modal's dismiss handler runs

  /** The notice the user sees (the toast, or none while the widget is open). */
  datatype Outcome =
    | MissingInformationNotice
    | EmptyCartNotice
    | AwaitingPayment
    | PaymentSuccessful(paymentId: string)
    | PaymentCancelled
    | PaymentError

  class CheckoutPage {
    var form: Form
    var isSubmitting: bool

    ghost predicate Valid()
      reads this
    {
      Complete(form)
    }

    constructor ()
      ensures Valid() && form == InitialForm && !isSubmitting
    {
      InitialFormComplete();
      form := InitialForm;
      isSubmitting := false;
    }

    /** `handleInputChange(field, value)`: only that field changes. */
    method HandleInputChange(f: Field, v: Value)
      requires Valid()
      modifies this
      ensures Valid()
      ensures form == old(form)[f := v] && isSubmitting == old(isSubmitting)
      ensures forall g :: g != f ==> form[g] == old(form)[g]
    {
      form := form[f := v];
    }

    /** `handleSubmit`: the two guards in order, then the payment widget.
        The cart is read, never changed; `amount` is the paise amount handed
        to the widget when one is constructed. */
    method HandleSubmit(cart: CartStore, gateway: Gateway) returns (outcome: Outcome, amount: Option<int>)
      requires Valid()
      modifies this
      ensures Valid() && form == old(form)
      ensures cart.items == old(cart.items)
      ensures MissingInformation(form) ==>
        outcome == MissingInformationNotice && amount == None && isSubmitting == old(isSubmitting)
      ensures !MissingInformation(form) && |cart.items| == 0 ==>
        outcome == EmptyCartNotice && amount == None && isSubmitting == old(isSubmitting)
        && !SubmitEnabled(cart.items)
      ensures !MissingInformation(form) && |cart.items| > 0 ==>
        && (amount.Some? <==> gateway != SdkMissing)
        && (amount.Some? ==> amount.value == PaiseAmount(Total(cart.items, form)))
        && (isSubmitting <==> gateway.StillOpen? || gateway.Paid?)
        && (SubmitEnabled(cart.items) <==> !(gateway.StillOpen? || gateway.Paid?))
        && outcome == match gateway
             case SdkMissing => PaymentError
             case OpenFails => PaymentError
             case StillOpen => AwaitingPayment
             case Paid(id) => PaymentSuccessful(id)
             case Dismissed => PaymentCancelled
    {
      if MissingInformation(form) {
        return MissingInformationNotice, None;
      }
      if |cart.items| == 0 {
        return EmptyCartNotice, None;
      }
      isSubmitting := true;
      if gateway == SdkMissing {
        // the thrown error is caught
        outcome, amount := PaymentError, None;
        isSubmitting := false;
        return;
      }
      amount := Some(PaiseAmount(Total(cart.items, form)));
      match gateway {
        case OpenFails =>
          outcome := PaymentError;
          isSubmitting := false;
        case StillOpen =>
          outcome := AwaitingPayment;
        case Paid(id) =>
          outcome := PaymentSuccessful(id);
        case Dismissed =>
          outcome := PaymentCancelled;
          isSubmitting := false;
      }
    }

    /** The submit button is enabled unless a payment is in progress or the
        cart is empty. */
    function SubmitEnabled(items: seq<CartItem>): bool
      reads this
    {
      !isSubmitting && |items| > 0
    }
  }
}
