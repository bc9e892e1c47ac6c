/**
 * The agent's pickup confirmation page, reached by scanning a parcel's QR
 * code: what it shows, when its confirm button is enabled and labelled
 * how, and how a failed confirmation is explained.
 */
module PickupConfirm {
  import opened Wrappers
  import opened Text
  import opened Parcels
  import opened ParcelStatus

  const PickedUpLabel := "Picked Up"
  const LoadFailed := "Failed to load parcel details"
  const PickupFailed := "Failed to update status to Picked Up"
  const NotAssignedHelp := "You cannot pick up this parcel. It may not be assigned to you yet. Please contact your admin to assign this parcel to you first."
  const DefaultBadge := "bg-gray-100 text-gray-800 border-gray-200"

  /** The page's state: the loading flag, the parcel, the confirm-in-progress flag and the error text (empty for none). */
  datatype Page = Page(loading: bool, parcel: Option<Parcel>, processing: bool, error: string)

  /** What the page renders. */
  datatype Screen = Spinner | ErrorPage(text: string) | Blank | Details

  function Render(pg: Page): (r: Screen)
    ensures r == Spinner <==> pg.loading
    ensures r.ErrorPage? <==> !pg.loading && pg.error != "" && pg.parcel.None?
    ensures r.ErrorPage? ==> r.text == pg.error
    ensures r == Details <==> !pg.loading && pg.parcel.Some?
  {
    if pg.loading then Spinner
    else if pg.error != "" && pg.parcel.None? then ErrorPage(pg.error)
    else if pg.parcel.None? then Blank
    else Details
  }

  /** `err.message || fallback`: the thrown message unless it is missing or empty. */
  function MessageOr(message: Option<string>, fallback: string): (r: string)
    ensures message.Some? && message.value != "" ==> r == message.value
    ensures message.None? || message.value == "" ==> r == fallback
  {
    if message.Some? && message.value != "" then message.value else fallback
  }

  /**
   * `loadParcel` begins, on mount and again whenever the route's id
   * changes: the spinner shows and any earlier error is cleared.
   */
  function LoadStarted(pg: Page): (r: Page)
    ensures r.loading && r.error == ""
    ensures r.parcel == pg.parcel && r.processing == pg.processing
  {
    pg.(loading := true, error := "")
  }

  /** The parcel fetch settled: the parcel, or the fetch error's text. */
  function LoadSettled(pg: Page, reply: ApiReply<Parcel>): (r: Page)
    ensures !r.loading && r.processing == pg.processing
    ensures reply.Ok? ==> r.parcel == Some(reply.value) && r.error == pg.error
    ensures reply.Err? ==> r.parcel == pg.parcel && r.error == MessageOr(reply.message, LoadFailed)
  {
    match reply
    case Ok(p) => pg.(loading := false, parcel := Some(p))
    case Err(m) => pg.(loading := false, error := MessageOr(m, LoadFailed))
  }

  /** A failed first load always ends on the full-page error, with a non-empty text. */
  lemma FailedLoadShowsErrorPage(pg: Page, message: Option<string>)
    requires pg.parcel.None?
    ensures Render(LoadSettled(pg, Err(message))).ErrorPage?
  {
  }

  /**
   * A reload after a failed confirmation that fetches the parcel shows its
   * details with no error left over from before.
   */
  lemma ReloadClearsError(pg: Page, p: Parcel)
    ensures var after := LoadSettled(LoadStarted(pg), Ok(p));
      Render(after) == Details && after.error == "" && after.parcel == Some(p)
  {
  }

  /** The confirm button is disabled while confirming, for a parcel already picked up, and for one with no agent. */
  function ConfirmDisabled(processing: bool, status: string, agent: Option<AgentRef>): bool
  {
    processing || status == PickedUpLabel || !AgentTruthy(agent)
  }

  /**
   * The button's label, by priority: confirming, already picked up, not
   * assigned, confirm. It reads "Confirm Pickup" exactly when the button is
   * enabled, and otherwise names the first reason it is disabled.
   */
  function ConfirmLabel(processing: bool, status: string, agent: Option<AgentRef>): (r: string)
    ensures r == "Confirm Pickup" <==> !ConfirmDisabled(processing, status, agent)
    ensures processing ==> r == "Confirming..."
    ensures !processing && status == PickedUpLabel ==> r == "Already Picked Up"
    ensures !processing && status != PickedUpLabel && !AgentTruthy(agent) ==> r == "Not Assigned"
  {
    if processing then "Confirming..."
    else if status == PickedUpLabel then "Already Picked Up"
    else if !AgentTruthy(agent) then "Not Assigned"
    else "Confirm Pickup"
  }

  /** A request the page sends: the new status for a parcel id. */
  datatype StatusRequest = StatusRequest(parcelId: string, status: string)

  /**
   * A click on the confirm button. A disabled button does nothing, and so
   * does the handler while no parcel is loaded; otherwise the error is
   * cleared, the page is confirming, and Picked Up is requested for the
   * route's id.
   */
  function ConfirmClicked(pg: Page, routeId: string): (r: (Page, Option<StatusRequest>))
    ensures r.1.Some? <==> pg.parcel.Some? && !ConfirmDisabled(pg.processing, pg.parcel.value.status, pg.parcel.value.agent)
    ensures r.1.Some? ==> r.1.value == StatusRequest(routeId, PickedUpLabel)
    ensures r.1.Some? ==> r.0 == pg.(processing := true, error := "")
    ensures r.1.None? ==> r.0 == pg
  {
    if pg.parcel.None? || ConfirmDisabled(pg.processing, pg.parcel.value.status, pg.parcel.value.agent) then (pg, None)
    else (pg.(processing := true, error := ""), Some(StatusRequest(routeId, PickedUpLabel)))
  }

  /** A request is only ever sent for a parcel that has an agent and is not yet picked up, and only one at a time. */
  lemma ConfirmGated(pg: Page, routeId: string)
    requires ConfirmClicked(pg, routeId).1.Some?
    ensures pg.parcel.Some? && AgentTruthy(pg.parcel.value.agent) && pg.parcel.value.status != PickedUpLabel
    ensures !pg.processing && ConfirmClicked(pg, routeId).0.processing
    ensures ConfirmClicked(ConfirmClicked(pg, routeId).0, routeId).1.None?
  {
  }

  /**
   * The text shown after a failed confirmation: anything mentioning
   * Forbidden becomes the not-assigned explanation; any other message is
   * shown as it is, and a missing one becomes the default failure text.
   */
  function PickupError(message: Option<string>): (r: string)
    ensures r != ""
    ensures message.Some? && Contains(message.value, "Forbidden") ==> r == NotAssignedHelp
    ensures message.Some? && message.value != "" && !Contains(message.value, "Forbidden") ==> r == message.value
    ensures message.None? || message.value == "" ==> r == PickupFailed
  {
    var m := MessageOr(message, PickupFailed);
    DefaultNotForbidden();
    if Contains(m, "Forbidden") then NotAssignedHelp else m
  }

  /** The default failure text does not itself mention Forbidden. */
  lemma DefaultNotForbidden()
    ensures !Contains(PickupFailed, "Forbidden")
  {
    forall i | 0 <= i <= |PickupFailed| - 9
      ensures !OccursAt(PickupFailed, "Forbidden", i)
    {
      var j := if i == 0 then 1 else 0;
      assert PickupFailed[i..i + 9][j] == PickupFailed[i + j];
      assert PickupFailed[i + j] != "Forbidden"[j];
    }
  }

  /** The confirmation settled: on success the page moves to the parcel's detail route, on failure it shows the explanation. */
  function ConfirmSettled(pg: Page, routeId: string, reply: ApiReply<()>): (r: (Page, Option<string>))
    ensures !r.0.processing && r.0.parcel == pg.parcel && r.0.loading == pg.loading
    ensures reply.Ok? ==> r.1 == Some("/parcel/" + routeId) && r.0.error == pg.error
    ensures reply.Err? ==> r.1 == None && r.0.error == PickupError(reply.message)
  {
    match reply
    case Ok(_) => (pg.(processing := false), Some("/parcel/" + routeId))
    case Err(m) => (pg.(processing := false, error := PickupError(m)), None)
  }

  /**
   * A failed confirmation never replaces the loaded parcel by the
   * full-page error: the details stay on screen with the error above the
   * buttons, and the button is enabled again unless the parcel's own state
   * disables it.
   */
  lemma FailureKeepsDetails(pg: Page, routeId: string, message: Option<string>)
    requires !pg.loading && pg.parcel.Some?
    ensures var after := ConfirmSettled(pg, routeId, Err(message)).0;
      && Render(after) == Details
      && after.error != ""
      && ConfirmLabel(after.processing, after.parcel.value.status, after.parcel.value.agent) != "Confirming..."
  {
  }

  /** The status badge style, with the gray style for any text that is not a status. */
  function StatusBadge(status: string): (r: string)
    ensures r == DefaultBadge <==> Parse(status).None?
  {
    match Parse(status)
    case Some(Pending) => "bg-yellow-100 text-yellow-800 border-yellow-200"
    case Some(Assigned) => "bg-blue-100 text-blue-800 border-blue-200"
    case Some(PickedUp) => "bg-indigo-100 text-indigo-800 border-indigo-200"
    case Some(InTransit) => "bg-purple-100 text-purple-800 border-purple-200"
    case Some(Delivered) => "bg-green-100 text-green-800 border-green-200"
    case Some(Failed) => "bg-red-100 text-red-800 border-red-200"
    case None => DefaultBadge
  }
}
