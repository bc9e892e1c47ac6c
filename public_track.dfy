/**
 * The public tracking page, reached by tracking code: the lookup reply
 * split into parcel or error, the three socket handlers that rewrite the
 * parcel, and the subscription the page re-opens each time its parcel
 * changes.
 */
module PublicTrack {
  import opened Wrappers
  import opened Parcels

  const LoadFailed := "Failed to load parcel"

  /**
   * The lookup call's answer: the request failed, or a body whose `message`
   * (empty when missing) sits beside the fields the page reads as a parcel.
   */
  datatype LookupReply = Unreachable | Body(message: string, parcel: Parcel)

  datatype Outcome = Shown(parcel: Parcel) | Error(text: string)

  /**
   * A body with a truthy `message` becomes the error, any other body the
   * parcel; a failed request becomes the fixed load error. An error text is
   * never empty, so the error view always has something to show.
   */
  function LoadOutcome(reply: LookupReply): (r: Outcome)
    ensures r.Error? <==> reply.Unreachable? || reply.message != ""
    ensures r.Error? ==> r.text != ""
    ensures reply.Unreachable? ==> r == Error(LoadFailed)
    ensures reply.Body? && reply.message != "" ==> r == Error(reply.message)
    ensures r.Shown? ==> r.parcel == reply.parcel
  {
    match reply
    case Unreachable => Error(LoadFailed)
    case Body(message, parcel) => if message != "" then Error(message) else Shown(parcel)
  }

  /** `parcel:update`: an event for this parcel's id is spread over it. */
  function OnUpdate(p: Parcel, u: StatusUpdate): (r: Parcel)
    ensures r.id == p.id
    ensures u.id != p.id ==> r == p
    ensures u.id == p.id ==>
      && r.status == u.status
      && r.agent == AgentSpread(p.agent, u.agent)
      && r.(status := p.status, agent := p.agent) == p
  {
    if u.id == p.id then MergeUpdate(p, u) else p
  }

  /** `parcel:location`: an event for this parcel's id sets its location and ETA, missing keys included. */
  function OnLocation(p: Parcel, d: LocationUpdate): (r: Parcel)
    ensures r.id == p.id
    ensures d.id != Some(p.id) ==> r == p
    ensures d.id == Some(p.id) ==>
      && r.currentLocation == d.currentLocation
      && r.etaMinutes == d.etaMinutes
      && r.(currentLocation := p.currentLocation, etaMinutes := p.etaMinutes) == p
  {
    if d.id == Some(p.id) then p.(currentLocation := d.currentLocation, etaMinutes := d.etaMinutes) else p
  }

  /**
   * `parcel.agent && agentId === parcel.agent._id`: only a populated agent
   * has an `_id` to compare, so a bare-id agent never matches.
   */
  predicate AgentMatches(agent: Option<AgentRef>, agentId: string)
  {
    AgentTruthy(agent) && agent.value.AgentDoc? && agent.value.id == agentId
  }

  /** `agent:location:update`: a report from this parcel's agent becomes its location, stamped with the report time. */
  function OnAgentLocation(p: Parcel, agentId: string, location: Location, timestamp: Timestamp): (r: Parcel)
    ensures r.id == p.id
    ensures !AgentMatches(p.agent, agentId) ==> r == p
    ensures AgentMatches(p.agent, agentId) ==>
      && r.currentLocation == Some(Location(location.lat, location.lng, Some(timestamp)))
      && r.(currentLocation := p.currentLocation) == p
  {
    if AgentMatches(p.agent, agentId) then p.(currentLocation := Some(location.(updatedAt := Some(timestamp)))) else p
  }

  /** A parcel whose agent is a bare id never takes positions from agent reports. */
  lemma BareAgentIgnoresReports(p: Parcel, agentId: string, location: Location, timestamp: Timestamp)
    requires p.agent.Some? && p.agent.value.AgentIdRef?
    ensures OnAgentLocation(p, agentId, location, timestamp) == p
  {
  }

  /**
   * The page for one tracking code. Every new parcel object re-runs the
   * subscription effect: the previous parcel's room is left and the new
   * parcel's room is joined. `sent` is what the page has told the server.
   */
  class PublicTrackPage {
    const trackingCode: string
    var parcel: Option<Parcel>
    var error: Option<string>
    var loading: bool
    var sent: seq<ClientEmit>
    var mounted: bool

    /**
     * The page holds the shown parcel's room open while mounted, and every
     * message it has sent names that parcel's id.
     */
    predicate Valid()
      reads this
    {
      && Pairing(sent) == Some(if mounted && parcel.Some? then Some(parcel.value.id) else None)
      && (parcel.None? ==> sent == [])
      && (parcel.Some? ==> forall i :: 0 <= i < |sent| ==> sent[i].parcelId == parcel.value.id)
    }

    constructor(trackingCode: string)
      ensures this.trackingCode == trackingCode
      ensures parcel == None && error == None && loading && mounted && sent == []
      ensures Valid()
    {
      this.trackingCode := trackingCode;
      parcel := None;
      error := None;
      loading := true;
      sent := [];
      mounted := true;
    }

    /** Replace the parcel by `p` (same id once one is shown) and re-run the subscription effect. */
    method Show(p: Parcel)
      requires Valid() && mounted
      requires parcel.Some? ==> p.id == parcel.value.id
      modifies this
      ensures parcel == Some(p)
      ensures sent == old(sent) + (if old(parcel).Some? then [Unsubscribe(p.id)] else []) + [Subscribe(p.id)]
      ensures error == old(error) && loading == old(loading) && mounted
      ensures Valid()
    {
      if parcel.Some? {
        PairingAppend(sent, Unsubscribe(p.id));
        sent := sent + [Unsubscribe(p.id)];
      }
      PairingAppend(sent, Subscribe(p.id));
      sent := sent + [Subscribe(p.id)];
      parcel := Some(p);
    }

    /** The lookup settled: the page leaves its loading state with a parcel or an error. */
    method LoadSettled(reply: LookupReply)
      requires Valid() && mounted && parcel.None?
      modifies this
      ensures !loading && mounted && Valid()
      ensures LoadOutcome(reply).Shown? ==>
        parcel == Some(LoadOutcome(reply).parcel) && error == old(error) && sent == [Subscribe(LoadOutcome(reply).parcel.id)]
      ensures LoadOutcome(reply).Error? ==>
        parcel == None && error == Some(LoadOutcome(reply).text) && sent == old(sent)
    {
      var outcome := LoadOutcome(reply);
      loading := false;
      match outcome
      case Shown(p) =>
        Show(p);
      case Error(text) =>
        error := Some(text);
    }

    method OnParcelUpdate(u: StatusUpdate)
      requires Valid() && mounted
      modifies this
      ensures old(parcel).None? ==> parcel == None && sent == old(sent)
      ensures old(parcel).Some? ==> parcel == Some(OnUpdate(old(parcel).value, u))
      ensures old(parcel).Some? && u.id == old(parcel).value.id ==>
        sent == old(sent) + [Unsubscribe(u.id), Subscribe(u.id)]
      ensures old(parcel).Some? && u.id != old(parcel).value.id ==> sent == old(sent)
      ensures error == old(error) && loading == old(loading) && mounted && Valid()
    {
      if parcel.Some? && u.id == parcel.value.id {
        Show(OnUpdate(parcel.value, u));
      }
    }

    method OnParcelLocation(d: LocationUpdate)
      requires Valid() && mounted
      modifies this
      ensures old(parcel).None? ==> parcel == None && sent == old(sent)
      ensures old(parcel).Some? ==> parcel == Some(OnLocation(old(parcel).value, d))
      ensures old(parcel).Some? && d.id == Some(old(parcel).value.id) ==>
        sent == old(sent) + [Unsubscribe(d.id.value), Subscribe(d.id.value)]
      ensures old(parcel).Some? && d.id != Some(old(parcel).value.id) ==> sent == old(sent)
      ensures error == old(error) && loading == old(loading) && mounted && Valid()
    {
      if parcel.Some? && d.id == Some(parcel.value.id) {
        Show(OnLocation(parcel.value, d));
      }
    }

    method OnAgentLocationUpdate(agentId: string, location: Location, timestamp: Timestamp)
      requires Valid() && mounted
      modifies this
      ensures old(parcel).None? ==> parcel == None && sent == old(sent)
      ensures old(parcel).Some? ==> parcel == Some(OnAgentLocation(old(parcel).value, agentId, location, timestamp))
      ensures old(parcel).Some? && AgentMatches(old(parcel).value.agent, agentId) ==>
        sent == old(sent) + [Unsubscribe(old(parcel).value.id), Subscribe(old(parcel).value.id)]
      ensures old(parcel).Some? && !AgentMatches(old(parcel).value.agent, agentId) ==> sent == old(sent)
      ensures error == old(error) && loading == old(loading) && mounted && Valid()
    {
      if parcel.Some? && AgentMatches(parcel.value.agent, agentId) {
        Show(OnAgentLocation(parcel.value, agentId, location, timestamp));
      }
    }

    /** The effect cleanup on leaving the page: the shown parcel's room is left. */
    method Unmount()
      requires Valid() && mounted
      modifies this
      ensures sent == old(sent) + (if parcel.Some? then [Unsubscribe(parcel.value.id)] else [])
      ensures parcel == old(parcel) && !mounted && Valid()
    {
      if parcel.Some? {
        PairingAppend(sent, Unsubscribe(parcel.value.id));
        sent := sent + [Unsubscribe(parcel.value.id)];
      }
      mounted := false;
    }
  }
}
