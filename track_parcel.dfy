/**
 * The signed-in tracking page for one parcel id: its two socket handlers,
 * the subscription it holds for that id, and the route, ETA and payment
 * lines it renders. The route, ETA and payment rules are shared with the
 * public tracking page.
 */
module TrackParcel {
  import opened Wrappers
  import opened Parcels

  /**
   * The `parcel:update` handler: for the route's own id and a loaded parcel,
   * the status is replaced and the agent is replaced unless the event's
   * agent is null or missing (`??`); nothing else changes.
   */
  function ApplyUpdate(routeId: string, prev: Option<Parcel>, payload: StatusUpdate): (r: Option<Parcel>)
    ensures r.Some? <==> prev.Some?
    ensures payload.id != routeId ==> r == prev
    ensures payload.id == routeId && prev.Some? ==>
      && r.value.status == payload.status
      && r.value.agent == (if payload.agent.Present? then Some(payload.agent.value) else prev.value.agent)
      && r.value.(status := prev.value.status, agent := prev.value.agent) == prev.value
  {
    if payload.id == routeId && prev.Some? then
      Some(prev.value.(status := payload.status, agent := AgentNullish(prev.value.agent, payload.agent)))
    else prev
  }

  /** Receiving the same `parcel:update` event twice leaves the parcel as receiving it once. */
  lemma UpdateIdempotent(routeId: string, prev: Option<Parcel>, payload: StatusUpdate)
    ensures ApplyUpdate(routeId, ApplyUpdate(routeId, prev, payload), payload) == ApplyUpdate(routeId, prev, payload)
  {
  }

  /** The `parcel:location` handler: an event for the route's id replaces the live location by its `currentLocation`. */
  function ApplyLocation(routeId: string, liveLoc: Option<Location>, payload: LocationUpdate): (r: Option<Location>)
    ensures payload.id != Some(routeId) ==> r == liveLoc
    ensures payload.id == Some(routeId) ==> r == payload.currentLocation
  {
    if payload.id == Some(routeId) then payload.currentLocation else liveLoc
  }

  /** One end of a directions request: coordinates or an address text. */
  datatype Endpoint = Coords(lat: real, lng: real) | Address(text: string)

  /** The directions origin: the live position when both its coordinates are truthy (non-zero), the pickup address otherwise. */
  function RouteOrigin(loc: Option<Location>, pickup: string): (r: Endpoint)
    ensures r.Coords? <==> loc.Some? && loc.value.lat != 0.0 && loc.value.lng != 0.0
    ensures r.Coords? ==> r.lat == loc.value.lat && r.lng == loc.value.lng
    ensures r.Address? ==> r.text == pickup
  {
    if loc.Some? && loc.value.lat != 0.0 && loc.value.lng != 0.0 then Coords(loc.value.lat, loc.value.lng)
    else Address(pickup)
  }

  /**
   * The directions request the page makes once the maps library is ready
   * and the parcel is loaded: from the origin above to the delivery address.
   */
  function Route(mapsReady: bool, parcel: Option<Parcel>, loc: Option<Location>): (r: Option<(Endpoint, Endpoint)>)
    ensures r.Some? <==> mapsReady && parcel.Some?
    ensures r.Some? ==> r.value.0 == RouteOrigin(loc, parcel.value.pickupAddress)
    ensures r.Some? ==> r.value.1 == Address(parcel.value.deliveryAddress)
  {
    if mapsReady && parcel.Some? then
      Some((RouteOrigin(loc, parcel.value.pickupAddress), Address(parcel.value.deliveryAddress)))
    else None
  }

  /**
   * A `parcel:location` event for this id that carries no `currentLocation`
   * clears the live position, and the next directions request starts from
   * the pickup address again.
   */
  lemma LocationWithoutPositionFallsBack(routeId: string, liveLoc: Option<Location>, payload: LocationUpdate, p: Parcel)
    requires payload.id == Some(routeId) && payload.currentLocation.None?
    ensures Route(true, Some(p), ApplyLocation(routeId, liveLoc, payload)) == Some((Address(p.pickupAddress), Address(p.deliveryAddress)))
  {
  }

  /** `leg.duration?.text || null`: the route's duration text, with an empty text stored as none. */
  function RouteText(text: Option<string>): (r: Option<string>)
    ensures r.Some? <==> text.Some? && text.value != ""
    ensures r.Some? ==> r == text
  {
    if text.Some? && text.value != "" then text else None
  }

  /** What the ETA line shows. */
  datatype EtaShown = Minutes(n: int) | RouteDuration(text: string) | Dash

  /** The ETA line: the stored minutes when truthy (non-zero), else the route duration, else a dash. */
  function EtaText(etaMinutes: Option<int>, duration: Option<string>): (r: EtaShown)
    ensures r.Minutes? <==> etaMinutes.Some? && etaMinutes.value != 0
    ensures r.Minutes? ==> r.n == etaMinutes.value
    ensures r.RouteDuration? <==> !r.Minutes? && duration.Some?
    ensures r.RouteDuration? ==> r.text == duration.value
  {
    if etaMinutes.Some? && etaMinutes.value != 0 then Minutes(etaMinutes.value)
    else if duration.Some? then RouteDuration(duration.value)
    else Dash
  }

  /** A duration that went through `RouteText` is never shown as an empty ETA. */
  lemma EtaNeverBlank(etaMinutes: Option<int>, raw: Option<string>)
    ensures EtaText(etaMinutes, RouteText(raw)) != RouteDuration("")
  {
  }

  /** What the payment line shows: the payment type, with the amount appended for cash on delivery. */
  datatype PaymentShown = Plain(paymentType: string) | WithCod(paymentType: string, amount: real)

  function PaymentText(paymentType: string, codAmount: real): (r: PaymentShown)
    ensures r.paymentType == paymentType
    ensures r.WithCod? <==> paymentType == "COD"
    ensures r.WithCod? ==> r.amount == codAmount
  {
    if paymentType == "COD" then WithCod(paymentType, codAmount) else Plain(paymentType)
  }

  /**
   * The page for one route id. It subscribes to that id on mount and
   * unsubscribes the same id on unmount; `sent` is what it has told the
   * server.
   */
  class TrackPage {
    const routeId: string
    var parcel: Option<Parcel>
    var liveLoc: Option<Location>
    var sent: seq<ClientEmit>
    var mounted: bool

    /** The one subscription the page holds open is its route id's while it is mounted. */
    predicate Valid()
      reads this
    {
      Pairing(sent) == Some(if mounted then Some(routeId) else None)
    }

    constructor(routeId: string)
      ensures this.routeId == routeId && mounted
      ensures parcel == None && liveLoc == None
      ensures sent == [Subscribe(routeId)]
      ensures Valid()
    {
      this.routeId := routeId;
      parcel := None;
      liveLoc := None;
      sent := [Subscribe(routeId)];
      mounted := true;
      PairingAppend([], Subscribe(routeId));
    }

    /** The parcel fetch resolved; a failed fetch is swallowed and changes nothing. */
    method Loaded(p: Parcel)
      modifies this
      ensures parcel == Some(p)
      ensures liveLoc == old(liveLoc) && sent == old(sent) && mounted == old(mounted)
    {
      parcel := Some(p);
    }

    method OnParcelLocation(payload: LocationUpdate)
      modifies this
      ensures liveLoc == ApplyLocation(routeId, old(liveLoc), payload)
      ensures parcel == old(parcel) && sent == old(sent) && mounted == old(mounted)
    {
      if payload.id == Some(routeId) {
        liveLoc := payload.currentLocation;
      }
    }

    method OnParcelUpdate(payload: StatusUpdate)
      modifies this
      ensures parcel == ApplyUpdate(routeId, old(parcel), payload)
      ensures liveLoc == old(liveLoc) && sent == old(sent) && mounted == old(mounted)
    {
      if payload.id == routeId && parcel.Some? {
        var prev := parcel.value;
        parcel := Some(prev.(status := payload.status, agent := AgentNullish(prev.agent, payload.agent)));
      }
    }

    /** The effect cleanup: unsubscribe the same id, then disconnect. */
    method Unmount()
      requires Valid() && mounted
      modifies this
      ensures sent == old(sent) + [Unsubscribe(routeId)]
      ensures !mounted && Valid()
      ensures parcel == old(parcel) && liveLoc == old(liveLoc)
    {
      PairingAppend(sent, Unsubscribe(routeId));
      sent := sent + [Unsubscribe(routeId)];
      mounted := false;
    }
  }
}
