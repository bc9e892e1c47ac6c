/**
 * The customer dashboard: the booking form with its submit guard and its
 * reset after a booking, and the customer's parcel list, newest first.
 */
module CustomerDashboard {
  import opened Wrappers
  import opened Parcels

  /** The booking form's fields, as the page keeps them. */
  datatype BookingForm = BookingForm(
    pickupAddress: string,
    deliveryAddress: string,
    parcelSize: string,
    parcelType: string,
    paymentType: string,
    codAmount: real,
    notes: string)

  /** The form as first shown and as restored after every booking. */
  const InitialForm := BookingForm("", "", "Small", "Standard", "Prepaid", 0.0, "")

  /** The form's text fields, one per input or select. */
  datatype TextField = PickupAddress | DeliveryAddress | ParcelSize | ParcelType | PaymentType | Notes

  function FieldText(form: BookingForm, field: TextField): string
  {
    match field
    case PickupAddress => form.pickupAddress
    case DeliveryAddress => form.deliveryAddress
    case ParcelSize => form.parcelSize
    case ParcelType => form.parcelType
    case PaymentType => form.paymentType
    case Notes => form.notes
  }

  /** `{ ...form, [field]: text }`: that field takes the text; every other field, the amount included, is kept. */
  function WithText(form: BookingForm, field: TextField, text: string): (r: BookingForm)
    ensures FieldText(r, field) == text
    ensures forall g :: g != field ==> FieldText(r, g) == FieldText(form, g)
    ensures r.codAmount == form.codAmount
  {
    match field
    case PickupAddress => form.(pickupAddress := text)
    case DeliveryAddress => form.(deliveryAddress := text)
    case ParcelSize => form.(parcelSize := text)
    case ParcelType => form.(parcelType := text)
    case PaymentType => form.(paymentType := text)
    case Notes => form.(notes := text)
  }

  /** Two edits of different fields can happen in either order; a second edit of the same field overrides the first. */
  lemma EditsCommute(form: BookingForm, f: TextField, a: string, g: TextField, b: string)
    ensures f != g ==> WithText(WithText(form, f, a), g, b) == WithText(WithText(form, g, b), f, a)
    ensures WithText(WithText(form, f, a), f, b) == WithText(form, f, b)
  {
  }

  /** The submit button is disabled while a booking is in flight or while either address is empty. */
  function SubmitDisabled(loading: bool, form: BookingForm): (r: bool)
    ensures r <==> loading || form.pickupAddress == "" || form.deliveryAddress == ""
  {
    loading || form.pickupAddress == "" || form.deliveryAddress == ""
  }

  /** The amount input is rendered only for cash on delivery. */
  function CodInputShown(form: BookingForm): (r: bool)
  {
    form.paymentType == "COD"
  }

  /**
   * Switching back from COD hides the amount input but keeps the amount,
   * so the booking request still carries it.
   */
  lemma HiddenAmountStillSent(form: BookingForm, paymentType: string)
    requires CodInputShown(form) && paymentType != "COD"
    ensures !CodInputShown(WithText(form, PaymentType, paymentType))
    ensures WithText(form, PaymentType, paymentType).codAmount == form.codAmount
  {
  }

  /**
   * The dashboard: the parcel list and its loading flag, and the booking
   * form with its own in-flight flag.
   */
  class Dashboard {
    var parcels: seq<Parcel>
    var listLoading: bool
    var form: BookingForm
    var submitting: bool

    constructor()
      ensures parcels == [] && listLoading
      ensures form == InitialForm && !submitting
    {
      parcels := [];
      listLoading := true;
      form := InitialForm;
      submitting := false;
    }

    /** The list fetch settled: its answer replaces the list; a failure is swallowed. */
    method ListLoaded(reply: ApiReply<seq<Parcel>>)
      modifies this
      ensures !listLoading
      ensures parcels == (if reply.Ok? then reply.value else old(parcels))
      ensures form == old(form) && submitting == old(submitting)
    {
      if reply.Ok? {
        parcels := reply.value;
      }
      listLoading := false;
    }

    /** A text input or select changed; the booking form is mounted only once the list has loaded. */
    method Edit(field: TextField, text: string)
      requires !listLoading
      modifies this
      ensures form == WithText(old(form), field, text)
      ensures parcels == old(parcels) && listLoading == old(listLoading) && submitting == old(submitting)
    {
      form := WithText(form, field, text);
    }

    /** The amount input changed; the number it parses to is given. */
    method EditCodAmount(amount: real)
      requires !listLoading
      modifies this
      ensures form == old(form).(codAmount := amount)
      ensures parcels == old(parcels) && listLoading == old(listLoading) && submitting == old(submitting)
    {
      form := form.(codAmount := amount);
    }

    /**
     * The submit button was pressed. A disabled button submits nothing;
     * otherwise the booking request carries the whole form.
     */
    method Submit() returns (body: Option<BookingForm>)
      requires !listLoading
      modifies this
      ensures body.Some? <==> !SubmitDisabled(old(submitting), old(form))
      ensures body.Some? ==> body.value == form && submitting
      ensures body.None? ==> submitting == old(submitting)
      ensures form == old(form) && parcels == old(parcels) && listLoading == old(listLoading)
    {
      if SubmitDisabled(submitting, form) {
        return None;
      }
      submitting := true;
      body := Some(form);
    }

    /**
     * The booking request settled. A created parcel goes to the head of
     * the list, ahead of the unchanged earlier ones, and the form returns
     * to its defaults; a failure keeps the form as typed.
     */
    method SubmitSettled(reply: ApiReply<Parcel>)
      modifies this
      ensures !submitting && listLoading == old(listLoading)
      ensures reply.Ok? ==> parcels == [reply.value] + old(parcels) && form == InitialForm
      ensures reply.Err? ==> parcels == old(parcels) && form == old(form)
      ensures reply.Ok? ==> SubmitDisabled(submitting, form)
    {
      if reply.Ok? {
        parcels := [reply.value] + parcels;
        form := InitialForm;
      }
      submitting := false;
    }
  }
}
