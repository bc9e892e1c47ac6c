/**
 * The admin parcel table: the assignment cell's lock, save guard and
 * button, the search box, and the list state kept current by the
 * real-time events.
 */
module AdminPanel {
  import opened Wrappers
  import opened Text
  import opened Seqs
  import opened ParcelStatus
  import opened Parcels

  /** `!['Pending', 'Assigned'].includes(status)` */
  function AssignmentLocked(status: string): (r: bool)
    ensures !r <==> Parse(status) == Some(Pending) || Parse(status) == Some(Assigned)
  {
    !(status == "Pending" || status == "Assigned")
  }

  /**
   * Along the lifecycle, assignment locks from Picked Up onward and never
   * unlocks again; any text that is not a status is locked as well.
   */
  lemma LockedFromPickup(s: Status)
    ensures AssignmentLocked(Label(s)) <==> Rank(s) >= Rank(PickedUp)
  {
    ParseLabel(s);
  }

  /** The agent preselected in the cell: `parcel.agent?._id || parcel.agent || ''`. */
  function InitialSelection(agent: Option<AgentRef>): (r: string)
    ensures agent.None? ==> r == ""
    ensures agent.Some? ==> r == agent.value.id
  {
    match agent
    case None => ""
    case Some(a) => a.id
  }

  /** `save` goes ahead only with an agent chosen and the parcel Pending or Assigned. */
  function SaveProceeds(agentId: string, status: string): (r: bool)
    ensures r <==> agentId != "" && (Parse(status) == Some(Pending) || Parse(status) == Some(Assigned))
  {
    !(agentId == "" || AssignmentLocked(status))
  }

  datatype ButtonFace = Spinner | Reassign | Assign

  /** The assign button's face: a spinner while saving, else reassign iff an agent is set. */
  function AssignButton(saving: bool, agent: Option<AgentRef>): (r: ButtonFace)
    ensures r == Spinner <==> saving
    ensures r == Reassign <==> !saving && AgentTruthy(agent)
  {
    if saving then Spinner else if AgentTruthy(agent) then Reassign else Assign
  }

  /** `disabled={lockAssignment || saving}` */
  function AssignButtonDisabled(status: string, saving: bool): (r: bool)
    ensures r <==> saving || !(Parse(status) == Some(Pending) || Parse(status) == Some(Assigned))
  {
    AssignmentLocked(status) || saving
  }

  /** An enabled button clicked with an agent chosen always goes through to the server. */
  lemma EnabledClickProceeds(agentId: string, status: string, saving: bool)
    requires !AssignButtonDisabled(status, saving) && agentId != ""
    ensures SaveProceeds(agentId, status)
  {
  }

  /** The search predicate: the lowercased query occurs in the lowercased tracking code or status. */
  predicate SearchMatches(p: Parcel, q: string)
  {
    Contains(Lower(p.trackingCode), q) || Contains(Lower(p.status), q)
  }

  /**
   * `filteredParcels`: the whole list for an empty search, otherwise the
   * order-preserving sub-list of exactly the parcels that match.
   */
  function SearchParcels(ps: seq<Parcel>, search: string): (r: seq<Parcel>)
    ensures IsSubsequence(r, ps)
    ensures search == "" ==> r == ps
    ensures search != "" ==>
      && (forall p :: p in r <==> p in ps && SearchMatches(p, Lower(search)))
      && |r| == Count(ps, (p: Parcel) => SearchMatches(p, Lower(search)))
  {
    if search == "" then
      FilterAll(ps, (p: Parcel) => true);
      ps
    else Filter(ps, (p: Parcel) => SearchMatches(p, Lower(search)))
  }

  /**
   * `parcel:update`: only the parcel whose id is the event's changes; it
   * takes the new status, and the new agent only when the event's agent is
   * truthy. Nothing else in it or in the list changes.
   */
  function ApplyUpdate(ps: seq<Parcel>, u: StatusUpdate): (r: seq<Parcel>)
    ensures Ids(r) == Ids(ps)
    ensures forall i :: 0 <= i < |ps| && ps[i].id != u.id ==> r[i] == ps[i]
    ensures forall i :: 0 <= i < |ps| && ps[i].id == u.id ==>
      && r[i].status == u.status
      && r[i].agent == (if u.agent.Present? && AgentTruthy(Some(u.agent.value)) then Some(u.agent.value) else ps[i].agent)
      && r[i].(status := ps[i].status, agent := ps[i].agent) == ps[i]
  {
    MapWhere(ps, (p: Parcel) => p.id == u.id,
      (p: Parcel) => p.(status := u.status, agent := AgentOr(p.agent, u.agent)))
  }

  /** The event names this parcel by `id` or by `parcelId`. */
  predicate LocationTargets(d: LocationUpdate, p: Parcel)
  {
    d.id == Some(p.id) || d.parcelId == Some(p.id)
  }

  /**
   * `parcel:location`: every parcel the event names takes the event's
   * `location` and `etaMinutes`; every other parcel is unchanged.
   */
  function ApplyLocation(ps: seq<Parcel>, d: LocationUpdate): (r: seq<Parcel>)
    ensures Ids(r) == Ids(ps)
    ensures forall i :: 0 <= i < |ps| && !LocationTargets(d, ps[i]) ==> r[i] == ps[i]
    ensures forall i :: 0 <= i < |ps| && LocationTargets(d, ps[i]) ==>
      && r[i].currentLocation == d.location && r[i].etaMinutes == d.etaMinutes
      && r[i].(currentLocation := ps[i].currentLocation, etaMinutes := ps[i].etaMinutes) == ps[i]
  {
    MapWhere(ps, (p: Parcel) => LocationTargets(d, p),
      (p: Parcel) => p.(currentLocation := d.location, etaMinutes := d.etaMinutes))
  }

  /** The table's list state and the count of dashboard-metric reloads it triggered. */
  class ParcelTable {
    var parcels: seq<Parcel>
    var metricsReloads: nat

    constructor(loaded: seq<Parcel>)
      ensures parcels == loaded && metricsReloads == 0
    {
      parcels := loaded;
      metricsReloads := 0;
    }

    /** `parcel:created`: the new parcel goes first, the others follow in order; metrics reload. */
    method OnParcelCreated(p: Parcel)
      modifies this
      ensures parcels == [p] + old(parcels)
      ensures metricsReloads == old(metricsReloads) + 1
    {
      parcels := [p] + parcels;
      metricsReloads := metricsReloads + 1;
    }

    /** `parcel:update`, then a metrics reload. */
    method OnParcelUpdate(u: StatusUpdate)
      modifies this
      ensures parcels == ApplyUpdate(old(parcels), u)
      ensures metricsReloads == old(metricsReloads) + 1
    {
      parcels := ApplyUpdate(parcels, u);
      metricsReloads := metricsReloads + 1;
    }

    /** `parcel:location`; metrics are not reloaded. */
    method OnParcelLocation(d: LocationUpdate)
      modifies this
      ensures parcels == ApplyLocation(old(parcels), d)
      ensures metricsReloads == old(metricsReloads)
    {
      parcels := ApplyLocation(parcels, d);
    }

    /** `onAssigned`: the parcel the server returned replaces the one with its id. */
    method OnAssigned(updated: Parcel)
      modifies this
      ensures parcels == ReplaceById(old(parcels), updated)
      ensures metricsReloads == old(metricsReloads)
    {
      parcels := ReplaceById(parcels, updated);
    }
  }
}
