/**
 * The agent's dashboard: the delivery-OTP modal driven through its request
 * and confirm steps, the parcel list kept current by real-time events, and
 * the three status counters.
 */
module AgentDashboard {
  import opened Wrappers
  import opened Text
  import opened Utf16
  import opened Seqs
  import opened Parcels

  datatype OtpStep = RequestStep | ConfirmStep

  /** The `otpModal` state record. */
  datatype OtpModal = OtpModal(open: bool, parcelId: Option<string>, step: OtpStep, code: string, sending: bool, error: string)

  /** The initial state, which closing or cancelling restores. */
  const ClosedModal := OtpModal(false, None, RequestStep, "", false, "")

  const SendFailedMessage := "Failed to send OTP"
  const InvalidOtpMessage := "Invalid OTP"

  /**
   * The states the modal can be in: a closed modal holds no parcel, is at
   * the request step and sends nothing; the code never exceeds the input's
   * six UTF-16 units.
   */
  predicate WellFormed(m: OtpModal)
  {
    && (!m.open ==> m.parcelId.None? && m.step == RequestStep && !m.sending)
    && Utf16Length(m.code) <= 6
  }

  /** `requestDeliveryOtp`, before the server answers: open, request step, sending. */
  function OtpRequestStarted(parcelId: Option<string>): (m: OtpModal)
    ensures WellFormed(m) && m.open && m.step == RequestStep && m.sending
    ensures m.parcelId == parcelId && m.code == "" && m.error == ""
  {
    OtpModal(true, parcelId, RequestStep, "", true, "")
  }

  /**
   * `requestDeliveryOtp`, once the server answered: on success the confirm
   * step with an empty code; on failure the request step again with the
   * error's message, or the fixed one when it has none. The modal is open
   * and idle either way.
   */
  function OtpRequestSettled(parcelId: Option<string>, reply: ApiReply<()>): (m: OtpModal)
    ensures WellFormed(m) && m.open && !m.sending && m.parcelId == parcelId && m.code == ""
    ensures m.step == ConfirmStep <==> reply.Ok?
    ensures reply.Ok? ==> m.error == ""
    ensures reply.Err? ==> m.error == OrElse(reply.message, SendFailedMessage) && m.error != ""
  {
    match reply
    case Ok(_) => OtpModal(true, parcelId, ConfirmStep, "", false, "")
    case Err(msg) => OtpModal(true, parcelId, RequestStep, "", false, OrElse(msg, SendFailedMessage))
  }

  /** `confirmDeliveryOtp` goes ahead only with a parcel and a code. */
  predicate ConfirmAllowed(m: OtpModal)
  {
    Filled(m.parcelId) && m.code != ""
  }

  /** `confirmDeliveryOtp`, before the server answers: sending, error cleared, all else kept. */
  function OtpConfirmStarted(m: OtpModal): (r: OtpModal)
    requires WellFormed(m) && ConfirmAllowed(m)
    ensures WellFormed(r) && r.sending && r.error == ""
    ensures r.(sending := m.sending, error := m.error) == m
  {
    m.(sending := true, error := "")
  }

  /**
   * A failed confirm: the step, parcel and code stay as they are, sending
   * stops, and the error is the message or the fixed one.
   */
  function OtpConfirmFailed(m: OtpModal, message: Option<string>): (r: OtpModal)
    requires WellFormed(m)
    ensures WellFormed(r) && !r.sending && r.error != ""
    ensures r.open == m.open && r.step == m.step && r.parcelId == m.parcelId && r.code == m.code
    ensures r.error == OrElse(message, InvalidOtpMessage)
  {
    m.(sending := false, error := OrElse(message, InvalidOtpMessage))
  }

  /** Typing in the code input, whose `maxLength` is 6. */
  function OtpCodeTyped(m: OtpModal, text: string): (r: OtpModal)
    requires WellFormed(m) && Utf16Length(text) <= 6
    ensures WellFormed(r) && r.code == text && r.(code := m.code) == m
  {
    m.(code := text)
  }

  /**
   * From a closed modal, nothing but `requestDeliveryOtp` opens it: a
   * confirm is refused, and a late failed confirm, typing or closing keep
   * it closed.
   */
  lemma OnlyRequestOpens(m: OtpModal, message: Option<string>, text: string)
    requires WellFormed(m) && !m.open
    ensures !ConfirmAllowed(m)
    ensures !OtpConfirmFailed(m, message).open
    ensures Utf16Length(text) <= 6 ==> !OtpCodeTyped(m, text).open
  {
  }

  /** `parcel:update`: `{...x, ...event}` on the parcel whose id is the event's. */
  function MergeById(ps: seq<Parcel>, u: StatusUpdate): (r: seq<Parcel>)
    ensures Ids(r) == Ids(ps)
    ensures forall i :: 0 <= i < |ps| && ps[i].id != u.id ==> r[i] == ps[i]
    ensures forall i :: 0 <= i < |ps| && ps[i].id == u.id ==>
      && r[i].status == u.status
      && r[i].agent == AgentSpread(ps[i].agent, u.agent)
      && r[i].(status := ps[i].status, agent := ps[i].agent) == ps[i]
  {
    MapWhere(ps, (p: Parcel) => p.id == u.id, (p: Parcel) => MergeUpdate(p, u))
  }

  /**
   * `parcel:location`: only when the event carries a `parcelId`, that
   * parcel's `currentLocation` becomes the event's `location`; its ETA and
   * every other parcel stay as they were.
   */
  function LocateByParcelId(ps: seq<Parcel>, d: LocationUpdate): (r: seq<Parcel>)
    ensures !Filled(d.parcelId) ==> r == ps
    ensures Ids(r) == Ids(ps)
    ensures forall i :: 0 <= i < |ps| && d.parcelId != Some(ps[i].id) ==> r[i] == ps[i]
    ensures forall i :: 0 <= i < |ps| && Filled(d.parcelId) && d.parcelId == Some(ps[i].id) ==>
      r[i] == ps[i].(currentLocation := d.location)
  {
    if Filled(d.parcelId) then
      MapWhere(ps, (p: Parcel) => p.id == d.parcelId.value, (p: Parcel) => p.(currentLocation := d.location))
    else ps
  }

  predicate IsInTransit(p: Parcel) { p.status == "In Transit" }
  predicate IsDelivered(p: Parcel) { p.status == "Delivered" }
  /** The "pending" counter counts Pending and Picked Up parcels. */
  predicate IsPendingOrPickedUp(p: Parcel) { p.status == "Pending" || p.status == "Picked Up" }
  predicate IsCounted(p: Parcel) { IsInTransit(p) || IsDelivered(p) || IsPendingOrPickedUp(p) }
  predicate IsTransitOrDelivered(p: Parcel) { IsInTransit(p) || IsDelivered(p) }

  /**
   * The three counters count disjoint sets of parcels: together they count
   * each parcel at most once, so they never add up to more than the total.
   */
  lemma CountersWithinTotal(ps: seq<Parcel>)
    ensures Count(ps, IsInTransit) + Count(ps, IsDelivered) + Count(ps, IsPendingOrPickedUp) == Count(ps, IsCounted)
    ensures Count(ps, IsInTransit) + Count(ps, IsDelivered) + Count(ps, IsPendingOrPickedUp) <= |ps|
  {
    CountDisjoint(ps, IsInTransit, IsDelivered, IsTransitOrDelivered);
    CountDisjoint(ps, IsTransitOrDelivered, IsPendingOrPickedUp, IsCounted);
  }

  class Dashboard {
    var parcels: seq<Parcel>
    var otpModal: OtpModal

    predicate Valid()
      reads this
    {
      WellFormed(otpModal)
    }

    constructor()
      ensures Valid() && parcels == [] && otpModal == ClosedModal
    {
      parcels := [];
      otpModal := ClosedModal;
    }

    /** The list the first fetch returns. */
    method Loaded(ps: seq<Parcel>)
      modifies this
      ensures parcels == ps && otpModal == old(otpModal)
    {
      parcels := ps;
    }

    /** `requestDeliveryOtp(parcelId)` up to the server call. */
    method RequestDeliveryOtp(parcelId: Option<string>)
      modifies this
      ensures Valid() && otpModal == OtpRequestStarted(parcelId) && parcels == old(parcels)
    {
      otpModal := OtpModal(true, parcelId, RequestStep, "", true, "");
    }

    /** The rest of `requestDeliveryOtp(parcelId)`, once the server answered. */
    method RequestDeliveryOtpSettled(parcelId: Option<string>, reply: ApiReply<()>)
      modifies this
      ensures Valid() && otpModal == OtpRequestSettled(parcelId, reply) && parcels == old(parcels)
    {
      match reply {
        case Ok(_) =>
          otpModal := OtpModal(true, parcelId, ConfirmStep, "", false, "");
        case Err(msg) =>
          otpModal := OtpModal(true, parcelId, RequestStep, "", false, OrElse(msg, SendFailedMessage));
      }
    }

    /** `confirmDeliveryOtp` up to the server call; `sent` tells whether it got that far. */
    method ConfirmDeliveryOtp() returns (sent: bool)
      requires Valid()
      modifies this
      ensures Valid() && parcels == old(parcels)
      ensures sent <==> ConfirmAllowed(old(otpModal))
      ensures otpModal == if sent then OtpConfirmStarted(old(otpModal)) else old(otpModal)
    {
      if !Filled(otpModal.parcelId) || otpModal.code == "" {
        return false;
      }
      otpModal := otpModal.(sending := true, error := "");
      sent := true;
    }

    /**
     * The rest of `confirmDeliveryOtp`: on success the returned parcel
     * replaces the one with its id and the modal closes; on failure the
     * modal as it now is keeps its step, parcel and code and shows the error.
     */
    method ConfirmDeliveryOtpSettled(reply: ApiReply<Parcel>)
      requires Valid()
      modifies this
      ensures Valid()
      ensures reply.Ok? ==> parcels == ReplaceById(old(parcels), reply.value) && otpModal == ClosedModal
      ensures reply.Err? ==> parcels == old(parcels) && otpModal == OtpConfirmFailed(old(otpModal), reply.message)
    {
      match reply {
        case Ok(updated) =>
          parcels := ReplaceById(parcels, updated);
          otpModal := ClosedModal;
        case Err(msg) =>
          otpModal := otpModal.(sending := false, error := OrElse(msg, InvalidOtpMessage));
      }
    }

    /** Typing in the code input. */
    method TypeCode(text: string)
      requires Valid() && Utf16Length(text) <= 6
      modifies this
      ensures Valid() && otpModal == OtpCodeTyped(old(otpModal), text) && parcels == old(parcels)
    {
      otpModal := otpModal.(code := text);
    }

    /** The close and cancel buttons. */
    method CloseModal()
      modifies this
      ensures Valid() && otpModal == ClosedModal && parcels == old(parcels)
    {
      otpModal := ClosedModal;
    }

    method OnParcelUpdate(u: StatusUpdate)
      modifies this
      ensures parcels == MergeById(old(parcels), u) && otpModal == old(otpModal)
    {
      parcels := MergeById(parcels, u);
    }

    method OnParcelLocation(d: LocationUpdate)
      modifies this
      ensures parcels == LocateByParcelId(old(parcels), d) && otpModal == old(otpModal)
    {
      parcels := LocateByParcelId(parcels, d);
    }
  }
}
