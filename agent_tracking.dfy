/**
 * The admin's live view of one agent: the parcel filters, the speed
 * estimate with its plausibility band, the location handler that shifts
 * the current location into the previous one, and the reset on selecting
 * another agent. Distances are great-circle distances computed elsewhere;
 * here they are inputs.
 */
module AgentTracking {
  import opened Wrappers
  import opened Text
  import opened Seqs
  import opened Parcels
  import SocketServer

  /** Milliseconds in an hour: `1000 * 60 * 60`. */
  const MsPerHour: real := 3600000.0
  /** The fastest plausible speed, in km/h. */
  const MaxSpeed: real := 120.0

  /**
   * `calculateAgentSpeed`: nothing without both locations or without time
   * elapsing; otherwise distance over elapsed hours, kept only inside
   * (0, 120] km/h.
   */
  function AgentSpeed(current: Option<Location>, previous: Option<Location>, timeDiffMs: int, distanceKm: real)
    : (r: Option<real>)
    ensures current.None? || previous.None? || timeDiffMs <= 0 ==> r.None?
    ensures r.Some? ==> 0.0 < r.value <= MaxSpeed && r.value * (timeDiffMs as real) == distanceKm * MsPerHour
    ensures current.Some? && previous.Some? && timeDiffMs > 0 ==>
      (r.Some? <==> 0.0 < distanceKm * MsPerHour <= MaxSpeed * timeDiffMs as real)
  {
    if previous.None? || current.None? || timeDiffMs <= 0 then None
    else
      var hours := timeDiffMs as real / MsPerHour;
      var speed := distanceKm / hours;
      SpeedScales(distanceKm, timeDiffMs as real, hours, speed);
      if speed > 0.0 && speed <= MaxSpeed then Some(speed) else None
  }

  lemma SpeedScales(distance: real, t: real, hours: real, speed: real)
    requires t > 0.0 && hours == t / MsPerHour && speed == distance / hours
    ensures speed * t == distance * MsPerHour
    ensures speed > 0.0 <==> distance * MsPerHour > 0.0
    ensures speed <= MaxSpeed <==> distance * MsPerHour <= MaxSpeed * t
  {
    assert hours * MsPerHour == t;
    assert speed * hours == distance;
    assert speed * t == speed * hours * MsPerHour;
  }

  /** A parcel passes the status filter: `'all'`, or exactly its status. */
  predicate StatusPasses(p: Parcel, filterStatus: string)
  {
    filterStatus == "all" || p.status == filterStatus
  }

  /**
   * A parcel passes the search filter: the search is blank once trimmed,
   * or its lowercased, untrimmed text occurs in the lowercased tracking
   * code, pickup address, delivery address or parcel type.
   */
  predicate SearchPasses(p: Parcel, filterSearch: string)
  {
    || Trim(filterSearch) == ""
    || Contains(Lower(p.trackingCode), Lower(filterSearch))
    || Contains(Lower(p.pickupAddress), Lower(filterSearch))
    || Contains(Lower(p.deliveryAddress), Lower(filterSearch))
    || Contains(Lower(p.parcelType), Lower(filterSearch))
  }

  function StatusFilter(filterStatus: string): Parcel -> bool
  {
    (p: Parcel) => StatusPasses(p, filterStatus)
  }

  function SearchFilter(filterSearch: string): Parcel -> bool
  {
    (p: Parcel) => SearchPasses(p, filterSearch)
  }

  function BothFilters(filterStatus: string, filterSearch: string): Parcel -> bool
  {
    (p: Parcel) => StatusPasses(p, filterStatus) && SearchPasses(p, filterSearch)
  }

  /**
   * `filteredParcels`: the order-preserving sub-list of exactly the parcels
   * that pass both filters; with `'all'` and a blank search, the whole list.
   */
  function FilterParcels(ps: seq<Parcel>, filterStatus: string, filterSearch: string): (r: seq<Parcel>)
    ensures IsSubsequence(r, ps)
    ensures forall p :: p in r <==> p in ps && StatusPasses(p, filterStatus) && SearchPasses(p, filterSearch)
    ensures |r| == Count(ps, BothFilters(filterStatus, filterSearch))
    ensures filterStatus == "all" && Trim(filterSearch) == "" ==> r == ps
  {
    NoFilterKeepsAll(ps, filterStatus, filterSearch);
    Filter(ps, BothFilters(filterStatus, filterSearch))
  }

  lemma NoFilterKeepsAll(ps: seq<Parcel>, filterStatus: string, filterSearch: string)
    ensures filterStatus == "all" && Trim(filterSearch) == "" ==> Filter(ps, BothFilters(filterStatus, filterSearch)) == ps
  {
    if filterStatus == "all" && Trim(filterSearch) == "" {
      forall i | 0 <= i < |ps|
        ensures BothFilters(filterStatus, filterSearch)(ps[i])
      {
        assert StatusPasses(ps[i], filterStatus);
        assert SearchPasses(ps[i], filterSearch);
      }
      FilterAll(ps, BothFilters(filterStatus, filterSearch));
    }
  }

  /** The two filters combine conjunctively: filtering by status, then by search, is the same. */
  lemma FiltersCompose(ps: seq<Parcel>, filterStatus: string, filterSearch: string)
    ensures FilterParcels(ps, filterStatus, filterSearch)
         == Filter(Filter(ps, StatusFilter(filterStatus)), SearchFilter(filterSearch))
  {
    FilterFilter(ps, StatusFilter(filterStatus), SearchFilter(filterSearch), BothFilters(filterStatus, filterSearch));
  }

  /**
   * Blankness is judged on the trimmed search but matching uses it
   * untrimmed: a parcel whose tracking code is the search's trimmed text
   * is still dropped when the search carries a space the code lacks.
   */
  lemma UntrimmedSearchMisses(p: Parcel)
    requires p.trackingCode == "TRK1" && p.pickupAddress == "" && p.deliveryAddress == "" && p.parcelType == ""
    ensures Trim(" trk1") != ""
    ensures !SearchPasses(p, " trk1")
  {
    assert !IsSpace(" trk1"[1]);
    TrimSpec(" trk1");
    var q := Lower(" trk1");
    assert |q| == 5;
    LongerNotContained(Lower(p.trackingCode), q);
    LongerNotContained(Lower(p.pickupAddress), q);
    LongerNotContained(Lower(p.deliveryAddress), q);
    LongerNotContained(Lower(p.parcelType), q);
  }

  /** The view's state, one field per piece of component state. */
  datatype View = View(
    selectedAgent: Option<string>,
    agentLocation: Option<Location>,
    previousAgentLocation: Option<Location>,
    lastLocationUpdate: Option<Timestamp>,
    agentSpeed: Option<real>,
    filterStatus: string,
    filterSearch: string,
    parcelsLoading: bool)

  /**
   * `handleAgentLocationUpdate`: an update for another agent changes
   * nothing. For the selected agent, the current location becomes the
   * previous one, the report becomes the current one stamped with its
   * time, and the speed shown changes only to a plausible new estimate.
   */
  function OnLocation(v: View, agentId: string, location: Location, timestamp: Timestamp, distanceKm: real): (r: View)
    ensures v.selectedAgent != Some(agentId) ==> r == v
    ensures v.selectedAgent == Some(agentId) ==>
      && r.previousAgentLocation == v.agentLocation
      && r.agentLocation == Some(Location(location.lat, location.lng, Some(timestamp)))
      && r.lastLocationUpdate == Some(timestamp)
      && (r.agentSpeed == v.agentSpeed || (r.agentSpeed.Some? && 0.0 < r.agentSpeed.value <= MaxSpeed))
      && r.(agentLocation := v.agentLocation, previousAgentLocation := v.previousAgentLocation,
            lastLocationUpdate := v.lastLocationUpdate, agentSpeed := v.agentSpeed) == v
    ensures v.selectedAgent == Some(agentId) && v.agentLocation.Some? && v.lastLocationUpdate.Some? ==>
      (var estimate := AgentSpeed(Some(Location(location.lat, location.lng, Some(timestamp))), v.agentLocation,
                                  timestamp - v.lastLocationUpdate.value, distanceKm);
       r.agentSpeed == if estimate.Some? then estimate else v.agentSpeed)
    ensures v.agentLocation.None? || v.lastLocationUpdate.None? ==> r.agentSpeed == v.agentSpeed
  {
    if v.selectedAgent != Some(agentId) then v
    else
      var reported := Location(location.lat, location.lng, Some(timestamp));
      var speed := if v.agentLocation.Some? && v.lastLocationUpdate.Some?
        then AgentSpeed(Some(reported), v.agentLocation, timestamp - v.lastLocationUpdate.value, distanceKm)
        else None;
      v.(agentSpeed := if speed.Some? then speed else v.agentSpeed,
         previousAgentLocation := v.agentLocation,
         agentLocation := Some(reported),
         lastLocationUpdate := Some(timestamp))
  }

  /**
   * Selecting another agent: the parcels reload, every location and speed
   * field is cleared, the status filter is back at `'all'` and the search
   * is empty. Selecting the agent already selected changes nothing.
   */
  function OnSelect(v: View, agentId: string): (r: View)
    ensures v.selectedAgent == Some(agentId) ==> r == v
    ensures v.selectedAgent != Some(agentId) ==>
      r == View(Some(agentId), None, None, None, None, "all", "", true)
  {
    if v.selectedAgent == Some(agentId) then v
    else View(Some(agentId), None, None, None, None, "all", "", true)
  }

  /**
   * The `request:agent:location` messages the socket effect sends after a
   * state change. The effect lists the selected agent, the current location
   * and the last update time among its dependencies, so it reconnects and
   * asks again whenever any of them changes; every accepted location report
   * is a new object, so it changes them.
   */
  function RequestsAfterLocation(v: View, agentId: string): (r: seq<string>)
    ensures r == [] <==> v.selectedAgent != Some(agentId)
  {
    if v.selectedAgent == Some(agentId) then [agentId] else []
  }

  /**
   * The requests selecting an agent sends: one from the effect run the
   * selection triggers, and one more when the reset then clears a location
   * or an update time that was set.
   */
  function RequestsAfterSelect(v: View, agentId: string): (r: seq<string>)
    ensures v.selectedAgent == Some(agentId) ==> r == []
    ensures v.selectedAgent != Some(agentId) ==> 1 <= |r| <= 2 && forall i :: 0 <= i < |r| ==> r[i] == agentId
    ensures v.selectedAgent != Some(agentId) ==> (|r| == 2 <==> v.agentLocation.Some? || v.lastLocationUpdate.Some?)
  {
    if v.selectedAgent == Some(agentId) then []
    else if v.agentLocation.Some? || v.lastLocationUpdate.Some? then [agentId, agentId]
    else [agentId]
  }

  /**
   * Requests sent over `n` rounds in which the server answers each request
   * from its cache and the view receives that answer.
   */
  function ReplayRounds(v: View, cache: map<string, SocketServer.Entry>, agentId: string, distanceKm: real, n: nat)
    : (requests: seq<string>)
    requires agentId in cache
    decreases n
  {
    if n == 0 then []
    else
      var e := cache[agentId];
      var next := OnLocation(v, agentId, e.location, e.timestamp, distanceKm);
      RequestsAfterLocation(v, agentId) + ReplayRounds(next, cache, agentId, distanceKm, n - 1)
  }

  /**
   * Once the server holds a location for the selected agent, the view never
   * stops asking: every request is answered from the cache, the answer is
   * accepted, and accepting it sends the next request, n rounds giving n
   * requests.
   */
  lemma {:induction false} ReplayKeepsRequesting(v: View, cache: map<string, SocketServer.Entry>, agentId: string,
                                                  distanceKm: real, conn: SocketServer.ConnId, n: nat)
    requires agentId in cache && v.selectedAgent == Some(agentId)
    decreases n
    ensures SocketServer.RequestEmissions(cache, conn, agentId)[0]
         == SocketServer.ToConn(conn, SocketServer.AgentLocationUpdate(agentId, cache[agentId].location, cache[agentId].timestamp))
    ensures ReplayRounds(v, cache, agentId, distanceKm, n) == seq(n, i => agentId)
  {
    if n > 0 {
      var e := cache[agentId];
      var next := OnLocation(v, agentId, e.location, e.timestamp, distanceKm);
      ReplayKeepsRequesting(next, cache, agentId, distanceKm, conn, n - 1);
      assert [agentId] + seq(n - 1, i => agentId) == seq(n, i => agentId);
    }
  }

  /**
   * The effect as evidently intended: it depends on the selected agent
   * only, so a location report never reconnects and asks again.
   */
  function RequestsAfterLocationIntended(v: View, agentId: string): (r: seq<string>)
    ensures r == []
  {
    []
  }

  /** Replay rounds under the intended dependency list. */
  function ReplayRoundsIntended(v: View, cache: map<string, SocketServer.Entry>, agentId: string, distanceKm: real, n: nat)
    : (requests: seq<string>)
    requires agentId in cache
    decreases n
  {
    if n == 0 then []
    else
      var e := cache[agentId];
      var next := OnLocation(v, agentId, e.location, e.timestamp, distanceKm);
      RequestsAfterLocationIntended(v, agentId) + ReplayRoundsIntended(next, cache, agentId, distanceKm, n - 1)
  }

  /** The view after `n` rounds of receiving the cached answer; the same under either dependency list. */
  function ReplayView(v: View, cache: map<string, SocketServer.Entry>, agentId: string, distanceKm: real, n: nat): View
    requires agentId in cache
    decreases n
  {
    if n == 0 then v
    else
      var e := cache[agentId];
      ReplayView(OnLocation(v, agentId, e.location, e.timestamp, distanceKm), cache, agentId, distanceKm, n - 1)
  }

  /** Once the cached answer has been received, the view shows that report and its time, for the same agent. */
  lemma {:induction false} ReplayShowsCached(v: View, cache: map<string, SocketServer.Entry>, agentId: string,
                                              distanceKm: real, n: nat)
    requires agentId in cache && v.selectedAgent == Some(agentId) && n > 0
    decreases n
    ensures var w := ReplayView(v, cache, agentId, distanceKm, n);
      && w.selectedAgent == Some(agentId)
      && w.agentLocation == Some(Location(cache[agentId].location.lat, cache[agentId].location.lng, Some(cache[agentId].timestamp)))
      && w.lastLocationUpdate == Some(cache[agentId].timestamp)
  {
    var e := cache[agentId];
    var next := OnLocation(v, agentId, e.location, e.timestamp, distanceKm);
    if n > 1 {
      ReplayShowsCached(next, cache, agentId, distanceKm, n - 1);
    }
  }

  /** Selecting under the intended dependency list: one request per new agent. */
  function RequestsAfterSelectIntended(v: View, agentId: string): (r: seq<string>)
    ensures r == if v.selectedAgent == Some(agentId) then [] else [agentId]
  {
    if v.selectedAgent == Some(agentId) then [] else [agentId]
  }

  /**
   * With the intended dependencies, the cached answer is taken in and
   * nothing more is asked: selecting an agent and then receiving any number
   * of cached answers sends exactly one request, and after at least one
   * answer the view shows the cached report.
   */
  lemma {:induction false} IntendedReplayStops(v: View, cache: map<string, SocketServer.Entry>, agentId: string,
                                                distanceKm: real, n: nat)
    requires agentId in cache && v.selectedAgent != Some(agentId)
    ensures RequestsAfterSelectIntended(v, agentId) + ReplayRoundsIntended(OnSelect(v, agentId), cache, agentId, distanceKm, n)
         == [agentId]
    ensures n > 0 ==>
      ReplayView(OnSelect(v, agentId), cache, agentId, distanceKm, n).agentLocation
        == Some(Location(cache[agentId].location.lat, cache[agentId].location.lng, Some(cache[agentId].timestamp)))
  {
    IntendedRoundsSilent(OnSelect(v, agentId), cache, agentId, distanceKm, n);
    if n > 0 {
      ReplayShowsCached(OnSelect(v, agentId), cache, agentId, distanceKm, n);
    }
  }

  lemma {:induction false} IntendedRoundsSilent(v: View, cache: map<string, SocketServer.Entry>, agentId: string,
                                                 distanceKm: real, n: nat)
    requires agentId in cache
    ensures ReplayRoundsIntended(v, cache, agentId, distanceKm, n) == []
    decreases n
  {
    if n > 0 {
      var e := cache[agentId];
      IntendedRoundsSilent(OnLocation(v, agentId, e.location, e.timestamp, distanceKm), cache, agentId, distanceKm, n - 1);
    }
  }

  /** The page, as written: its view state and every agent id it asked the server about. */
  class Tracker {
    var view: View
    var requests: seq<string>

    constructor()
      ensures view == View(None, None, None, None, None, "all", "", false) && requests == []
    {
      view := View(None, None, None, None, None, "all", "", false);
      requests := [];
    }

    method SelectAgent(agentId: string)
      modifies this
      ensures view == OnSelect(old(view), agentId)
      ensures requests == old(requests) + RequestsAfterSelect(old(view), agentId)
    {
      requests := requests + RequestsAfterSelect(view, agentId);
      view := OnSelect(view, agentId);
    }

    method OnAgentLocationUpdate(agentId: string, location: Location, timestamp: Timestamp, distanceKm: real)
      modifies this
      ensures view == OnLocation(old(view), agentId, location, timestamp, distanceKm)
      ensures requests == old(requests) + RequestsAfterLocation(old(view), agentId)
    {
      requests := requests + RequestsAfterLocation(view, agentId);
      view := OnLocation(view, agentId, location, timestamp, distanceKm);
    }
  }
}
