/** The checkout component's state and its event handlers
    (src/components/Checkout.tsx). The eleven form cells of the component are
    kept together in one `Form` value; each handler replaces the cells it
    sets. A control that is only rendered on one step has no effect on the
    other. */
module CheckoutPage {
  import opened Text
  import opened Catalog
  import opened Checkout

  /** The free-text inputs of the details step. */
  datatype TextField = CustomerName | ContactNumber | Address | Landmark | CustomTime | DineInTime | Notes

  function TextOf(f: Form, field: TextField): string {
    match field
    case CustomerName => f.customerName
    case ContactNumber => f.contactNumber
    case Address => f.address
    case Landmark => f.landmark
    case CustomTime => f.customTime
    case DineInTime => f.dineInTime
    case Notes => f.notes
  }

  /** The form after one input's `onChange`: that input holds the new text
      and every other cell is as it was. */
  function WithText(f: Form, field: TextField, value: string): (r: Form)
    ensures TextOf(r, field) == value
    ensures forall other :: other != field ==> TextOf(r, other) == TextOf(f, other)
    ensures r.serviceType == f.serviceType && r.pickupTime == f.pickupTime
    ensures r.partySize == f.partySize && r.paymentMethod == f.paymentMethod
  {
    match field
    case CustomerName => f.(customerName := value)
    case ContactNumber => f.(contactNumber := value)
    case Address => f.(address := value)
    case Landmark => f.(landmark := value)
    case CustomTime => f.(customTime := value)
    case DineInTime => f.(dineInTime := value)
    case Notes => f.(notes := value)
  }

  /** Clearing the name or the contact number always blocks the details
      step, whatever else is filled in. */
  lemma ClearingNameOrContactBlocks(f: Form, field: TextField)
    requires field == CustomerName || field == ContactNumber
    ensures !IsDetailsValid(WithText(f, field, ""))
  {
  }

  class CheckoutFlow {
    var step: Step
    var form: Form

    /** The party size stays within the stepper's bounds, and the payment
        step is only ever reached with valid details. */
    predicate Valid()
      reads this
    {
      MinPartySize <= form.partySize <= MaxPartySize &&
      (step == Payment ==> IsDetailsValid(form))
    }

    /** The component as first rendered: the details step over the initial
        form. */
    constructor ()
      ensures Valid()
      ensures step == Details && form == InitialForm
    {
      step := Details;
      form := InitialForm;
    }

    /** Typing into one of the details inputs. */
    method EditText(field: TextField, value: string)
      requires Valid()
      modifies this
      ensures Valid()
      ensures step == old(step)
      ensures form == if old(step) == Details then WithText(old(form), field, value) else old(form)
    {
      if step == Details {
        form := WithText(form, field, value);
      }
    }

    /** One of the three service buttons. */
    method SetServiceType(t: ServiceType)
      requires Valid()
      modifies this
      ensures Valid()
      ensures step == old(step)
      ensures form == if old(step) == Details then old(form).(serviceType := t) else old(form)
    {
      if step == Details {
        form := form.(serviceType := t);
      }
    }

    /** One of the four pickup-time buttons ('5-10', '15-20', '25-30',
        'custom'). */
    method SetPickupTime(preset: string)
      requires Valid()
      modifies this
      ensures Valid()
      ensures step == old(step)
      ensures form == if old(step) == Details then old(form).(pickupTime := preset) else old(form)
    {
      if step == Details {
        form := form.(pickupTime := preset);
      }
    }

    /** The "-" party-size button: one guest fewer, never below one. */
    method DecreasePartySize()
      requires Valid()
      modifies this
      ensures Valid()
      ensures step == old(step)
      ensures form == if old(step) == Details then old(form).(partySize := FewerGuests(old(form).partySize)) else old(form)
    {
      if step == Details {
        form := form.(partySize := FewerGuests(form.partySize));
      }
    }

    /** The "+" party-size button: one guest more, never above twenty. */
    method IncreasePartySize()
      requires Valid()
      modifies this
      ensures Valid()
      ensures step == old(step)
      ensures form == if old(step) == Details then old(form).(partySize := MoreGuests(old(form).partySize)) else old(form)
    {
      if step == Details {
        form := form.(partySize := MoreGuests(form.partySize));
      }
    }

    /** "Proceed to Payment": the button is disabled while the details are
        not valid, so the step only changes with valid details. */
    method ProceedToPayment()
      requires Valid()
      modifies this
      ensures Valid()
      ensures form == old(form)
      ensures step == if old(step) == Details && IsDetailsValid(old(form)) then Payment else old(step)
    {
      if step == Details && IsDetailsValid(form) {
        step := Payment;
      }
    }

    /** "Back" on the payment step. */
    method BackToDetails()
      requires Valid()
      modifies this
      ensures Valid()
      ensures form == old(form) && step == Details
    {
      step := Details;
    }

    /** The default-payment effect, run whenever the method list or the
        chosen method changes. */
    method ApplyDefaultPayment(methods: seq<PaymentMethodInfo>)
      requires Valid()
      modifies this
      ensures Valid()
      ensures step == old(step)
      ensures form == old(form).(paymentMethod := DefaultPayment(old(form).paymentMethod, methods))
    {
      form := form.(paymentMethod := DefaultPayment(form.paymentMethod, methods));
    }

    /** A payment-method button on the payment step. */
    method SelectPaymentMethod(m: PaymentMethodInfo)
      requires Valid()
      modifies this
      ensures Valid()
      ensures step == old(step)
      ensures form == if old(step) == Payment then old(form).(paymentMethod := m.id) else old(form)
    {
      if step == Payment {
        form := form.(paymentMethod := m.id);
      }
    }

    /** "Confirm on Messenger": the message handed to the messaging app. It
        is built from valid details, and, when no input carries a newline,
        it reads back as the transcript's line table. */
    method PlaceOrder(items: seq<CartItem>, total: int, methods: seq<PaymentMethodInfo>, fmt: Formats) returns (message: string)
      requires Valid() && step == Payment
      ensures IsDetailsValid(form)
      ensures message == TranscriptAsWritten(form, items, total, methods, fmt)
      ensures SingleLineInputs(form, items, total, methods, fmt) ==>
        Split(message, '\n') == TranscriptLines(form, items, total, methods, fmt)
    {
      message := TranscriptAsWritten(form, items, total, methods, fmt);
      if SingleLineInputs(form, items, total, methods, fmt) {
        TranscriptSplitsIntoLines(form, items, total, methods, fmt);
      }
    }
  }

  /** From the initial page, typing the details of `f` into the inputs,
      choosing its service type and pickup preset, and stepping the party
      size up to its count, then pressing "Proceed to Payment", reaches the
      payment step exactly when those details are valid. */
  method ProceedOnlyWhenValid(f: Form) returns (reached: bool)
    requires MinPartySize <= f.partySize <= MaxPartySize
    ensures reached <==> IsDetailsValid(f)
  {
    var page := new CheckoutFlow();
    page.EditText(CustomerName, f.customerName);
    page.EditText(ContactNumber, f.contactNumber);
    page.SetServiceType(f.serviceType);
    page.EditText(Address, f.address);
    page.EditText(Landmark, f.landmark);
    page.SetPickupTime(f.pickupTime);
    page.EditText(CustomTime, f.customTime);
    page.EditText(DineInTime, f.dineInTime);
    page.EditText(Notes, f.notes);
    while page.form.partySize < f.partySize
      invariant page.Valid() && page.step == Details
      invariant page.form.partySize <= f.partySize
      invariant page.form == f.(partySize := page.form.partySize, paymentMethod := "")
      decreases f.partySize - page.form.partySize
    {
      page.IncreasePartySize();
    }
    page.ProceedToPayment();
    reached := page.step == Payment;
  }
}
