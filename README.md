# Velocity Courier: real-time parcel tracking core in Dafny

Velocity Courier is a courier system. Customers book parcels, an admin assigns
them to delivery agents, agents pick them up and deliver them, and everyone
watches progress live. This project models the parts of that system that
decide what state a parcel view is in and which real-time events reach whom:

- the Socket.IO server's handlers (`backend/src/services/socket.js`): user and
  parcel rooms, subscribe and unsubscribe, the in-memory cache of each agent's
  last reported location, the replay of that cache on request, and disconnect;
- the registration and login rules (`backend/src/controllers/auth.controller.js`):
  the validation chain, the role default, the public projection of a user, and
  identical answers for an unknown email and a wrong password;
- the geocoding route (`backend/src/routes/geocode.routes.js`): query trimming,
  the ", Bangladesh" enhancement, the `limit` default, the Photon-to-Nominatim
  result conversion and the Photon-then-Nominatim fallback;
- the client pages that hold parcels: the admin panel, the agent dashboard with
  its delivery-OTP modal, the admin's live agent tracking page, the parcel
  detail page, the two tracking pages, the pickup confirmation page and the
  customer dashboard. For each page the model covers its list reducers, the
  socket handlers, the filters, guards and button states, and the lookups from
  a status to a style.

All parcel statuses share one datatype, `ParcelStatus.Status`, in the order
Pending, Assigned, Picked Up, In Transit, Delivered, Failed. A parcel keeps its
status as the text the server sent. Every page's lookup therefore has to handle
text that is not a status. For text that is not a status and not a key every
JavaScript object inherits, the model proves that each lookup falls back to
its default.

Pages whose handlers change component state step by step are classes. Their
fields are the component state, and their methods are the handlers.
Expressions and `map`/`filter` reducers are functions. A page's outgoing
messages go into a `sent` or `requests` sequence field, and the server's into
an `outbox`. Network answers are parameters of type `ApiReply`. The Photon and
Nominatim services are function parameters of `Geocode.Search`.

Some things the code does not do:

- The location cache keeps the report that arrived last, whatever its
  timestamp. The code neither rejects older samples nor keeps a previous
  sample (`SocketServer.LastArrivalWins`).
- Rooms are never collected. The code has no status transition rules, no OTP
  generation or expiry, and no freshness window. The only status rules are the
  client-side guards modelled here: the assignment lock, the pickup gate and
  the OTP modal.

A few behaviours of the code are worth knowing when reading the model:

- The agent dashboard opens its OTP modal only from `requestDeliveryOtp`. The
  page calls that function only from the send button inside the already-open
  modal, so nothing on the page opens the modal
  (`AgentDashboard.OnlyRequestOpens`).
- The pages read different keys of a `parcel:location` event. The admin panel
  and the agent dashboard read `location`, while the two tracking pages read
  `currentLocation`.
- The admin panel merges `parcel:update` agents with `||`, the signed-in
  tracking page with `??`, and the public tracking page and the agent
  dashboard with an object spread. The three rules differ on an empty agent id
  and on a null agent (`Parcels.OrVersusNullish`, `Parcels.SpreadVersusNullish`).
- The public tracking page compares `agentId` with `parcel.agent._id`. An
  agent stored as a bare id has no `_id`, so live agent positions never reach
  such a parcel (`PublicTrack.BareAgentIgnoresReports`).

## Model

| member | source | states |
|---|---|---|
| Text.TrimSpec | backend/src/routes/geocode.routes.js:58 | `trim()` yields the middle slice of the text with no white space at either end, and yields the empty text exactly when the text is all white space |
| Seqs.Filter | frontend/src/components/AdminPanel.jsx:249 | `filter` keeps an order-preserving sub-list with exactly the accepted entries, and its length is the count of accepted entries |
| Seqs.Count | frontend/src/pages/AgentDashboard.jsx:362-384 | `filter(...).length` is at most the list's length, zero exactly when no entry is accepted, and the full length exactly when every entry is |
| Utf16.Utf16Length | backend/src/controllers/auth.controller.js:22 | `length` counts one unit per character plus one per character above U+FFFF, so it equals the character count exactly when there is none |
| Seqs.IndexOf | frontend/src/pages/ParcelDetailView.jsx:383 | `indexOf` is -1 exactly when the entry is absent; otherwise the entry is at that position and not before it |
| ParcelStatus.Rank | frontend/src/pages/ParcelDetailView.jsx:24 | each status has a position below six in the status list, and the list holds its label there |
| ParcelStatus.ParseLabel | frontend/src/pages/TrackParcel.jsx:7 | reading a status's label back gives that status |
| ParcelStatus.StatusIndex | frontend/src/pages/TrackParcel.jsx:77 | the step index is -1 exactly for a text that names no status, and otherwise the status's position in the lifecycle |
| ParcelStatus.BadgeClass | frontend/src/pages/CustomerDashboard.jsx:213-228 | a text gets `badge-pending` exactly when it is Pending or names no status |
| ParcelStatus.BadgeClassInjective | frontend/src/components/AdminPanel.jsx:79-89 | distinct statuses get distinct badge classes |
| ParcelStatus.ProgressBadge | frontend/src/pages/TrackParcel.jsx:109-114 | the default tone is used exactly for texts other than Delivered, In Transit, Failed and Picked Up; success means Delivered, info In Transit, danger Failed and warning Picked Up, each in both directions |
| ParcelStatus.BarWidth | frontend/src/pages/PublicTrack.jsx:191 | the progress line is 20 percent per step index over all six steps, between 0 and 100 for a status and negative for any other text |
| ParcelStatus.StepsShown | frontend/src/pages/TrackParcel.jsx:132-147 | the highlighted steps are those up to the status's position and none for an unknown text; the check-marked ones are the highlighted ones other than the current step; Failed highlights all six |
| Parcels.OrVersusNullish | frontend/src/components/AdminPanel.jsx:214 | the `||` agent merge and the `??` agent merge differ exactly when the event's agent is the empty id and the stored agent is not |
| Parcels.SpreadVersusNullish | frontend/src/pages/AgentDashboard.jsx:299 | the spread merge differs from `??` exactly when the event's agent is null and a stored agent exists, which the spread then clears |
| Parcels.ReplaceById | frontend/src/components/AdminPanel.jsx:415 | replacing by id keeps the list's ids and order, replaces every entry with that id, keeps every other entry, and the new parcel appears iff its id was present |
| Parcels.Ids | frontend/src/components/AdminPanel.jsx:415 | the ids of a list, position by position |
| Parcels.PairingAppend | frontend/src/pages/TrackParcel.jsx:30 | the subscription state after one more message is one step from the state before it |
| Parcels.PairedAlternates | frontend/src/pages/PublicTrack.jsx:32 | in a well-paired message history every unsubscribe directly follows the subscribe of the same parcel, and the history leaves open the last subscribed room or none |
| SocketServer.RoomNamesDistinct | backend/src/services/socket.js:7 | user and parcel room names never collide, and distinct ids give distinct rooms |
| SocketServer.Join | backend/src/services/socket.js:11 | joining adds the connection to that room and changes no other room |
| SocketServer.Leave | backend/src/services/socket.js:15 | leaving removes the connection from that room and changes no other room |
| SocketServer.LeaveAll | backend/src/services/socket.js:54-56 | a closed connection is removed from every room and nothing else changes |
| SocketServer.SubscribeThenUnsubscribe | backend/src/services/socket.js:10-16 | subscribe then unsubscribe leaves the connection outside the parcel room and every other room as before |
| SocketServer.RequestEmissions | backend/src/services/socket.js:37-52 | a location request replays the cached report to the requester only when one exists, then always broadcasts the request |
| SocketServer.LastArrivalWins | backend/src/services/socket.js:26 | the cache keeps the report that arrived last, even when an earlier one carried a newer timestamp |
| SocketServer.Server.constructor | backend/src/services/socket.js:23-24 | the server starts with no cached location, no room and no emitted event |
| SocketServer.Server.Connect | backend/src/services/socket.js:3-8 | a connection joins its user's room only when the handshake names a non-empty user id |
| SocketServer.Server.SubscribeParcel | backend/src/services/socket.js:10-12 | a non-empty parcel id joins that parcel's room, and nothing else changes |
| SocketServer.Server.UnsubscribeParcel | backend/src/services/socket.js:14-16 | a non-empty parcel id leaves that parcel's room, and nothing else changes |
| SocketServer.Server.ReportLocation | backend/src/services/socket.js:19-34 | a report overwrites the agent's cache entry and is broadcast unchanged to every connection |
| SocketServer.Server.RequestLocation | backend/src/services/socket.js:37-52 | the outbox grows by exactly the request's emissions and the cache does not change |
| SocketServer.Server.Disconnect | backend/src/services/socket.js:54-56 | the connection leaves every room; the cache and the outbox are unchanged |
| Auth.EmailMatchesIffShape | backend/src/controllers/auth.controller.js:16 | the email pattern accepts exactly a text without white space that has a single `@` after a non-empty local part and a `.` strictly inside the domain after it |
| Auth.RoleOrDefault | backend/src/controllers/auth.controller.js:35 | a missing or empty role becomes `customer`; any other role is kept |
| Auth.Register | backend/src/controllers/auth.controller.js:9-43 | each rejection happens exactly when its check is the first to fail (missing fields, email format, password under 6 UTF-16 units, email in use); otherwise the stored user carries the given fields and the defaulted role |
| Auth.PublicIgnoresPassword | backend/src/controllers/auth.controller.js:41 | the user returned to the client does not depend on the password hash |
| Auth.Login | backend/src/controllers/auth.controller.js:53-64 | login succeeds exactly for a found user whose password matches, returns that user's public projection, and otherwise answers "Invalid credentials" |
| Auth.LoginFailuresIndistinguishable | backend/src/controllers/auth.controller.js:57-59 | an unknown email and a wrong password get the same answer |
| Geocode.NormalizeQuery | backend/src/routes/geocode.routes.js:58 | the query is empty exactly when `q` is missing, empty or all white space |
| Geocode.LimitArg | backend/src/routes/geocode.routes.js:59 | the limit defaults to 1 exactly when `limit` is missing or empty |
| Geocode.Enhance | backend/src/routes/geocode.routes.js:65-67 | the enhanced query always mentions bangladesh in any case, and is the query itself exactly when it already does, else the query plus ", Bangladesh" |
| Geocode.SuffixMentionsCountry | backend/src/routes/geocode.routes.js:67 | appending ", Bangladesh" makes the lowercased query contain "bangladesh" |
| Geocode.EnhanceIdempotent | backend/src/routes/geocode.routes.js:65-67 | enhancing twice is the same as enhancing once |
| Geocode.PhotonPlace | backend/src/routes/geocode.routes.js:25-30 | latitude is coordinate 1 and longitude coordinate 0, each 0 when missing; name and display name are equal, are the feature's name when it has a non-empty one and the query otherwise, and so are never empty for a non-empty query |
| Geocode.PhotonResults | backend/src/routes/geocode.routes.js:25 | a missing feature list gives no result, otherwise one result per feature in order |
| Geocode.Search | backend/src/routes/geocode.routes.js:56-87 | a blank query is answered 400 without consulting any service; otherwise Photon is asked first, and Nominatim exactly when Photon threw or found nothing; the response is Photon's results, else Nominatim's, else the empty list |
| Geocode.PhotonNamesNonEmpty | backend/src/routes/geocode.routes.js:28-29 | every Photon result of a search has a non-empty name and display name |
| AdminPanel.AssignmentLocked | frontend/src/components/AdminPanel.jsx:116 | assignment is open exactly for Pending and Assigned; any other text locks it |
| AdminPanel.LockedFromPickup | frontend/src/components/AdminPanel.jsx:116 | a status locks assignment exactly when it is Picked Up or later in the lifecycle |
| AdminPanel.InitialSelection | frontend/src/components/AdminPanel.jsx:112 | the agent select starts empty without an agent and on the agent's id otherwise |
| AdminPanel.SaveProceeds | frontend/src/components/AdminPanel.jsx:119 | saving sends a request exactly when an agent is selected and the status is Pending or Assigned |
| AdminPanel.AssignButton | frontend/src/components/AdminPanel.jsx:152 | the button shows a spinner exactly while saving, and "Reassign" exactly when not saving and the parcel has a truthy agent |
| AdminPanel.AssignButtonDisabled | frontend/src/components/AdminPanel.jsx:149 | the button is disabled exactly while saving or when the status is neither Pending nor Assigned |
| AdminPanel.EnabledClickProceeds | frontend/src/components/AdminPanel.jsx:118-149 | a click on the enabled button with an agent selected always sends the assignment |
| AdminPanel.SearchParcels | frontend/src/components/AdminPanel.jsx:246-250 | an empty search keeps the list; otherwise an order-preserving sub-list of exactly the parcels whose lowercased tracking code or status contains the lowercased search |
| AdminPanel.ApplyUpdate | frontend/src/components/AdminPanel.jsx:211-217 | `parcel:update` changes only the parcels with the event's id, and there only status and agent (`||` rule); the ids stay in order |
| AdminPanel.ApplyLocation | frontend/src/components/AdminPanel.jsx:225-233 | `parcel:location` rewrites location and ETA of exactly the parcels matching `id` or `parcelId`, from the event's `location` key |
| AdminPanel.ParcelTable.constructor | frontend/src/components/AdminPanel.jsx:187 | the table starts with the loaded list and no metrics reload |
| AdminPanel.ParcelTable.OnParcelCreated | frontend/src/components/AdminPanel.jsx:199-204 | a created parcel is prepended to the unchanged list and the metrics are reloaded once |
| AdminPanel.ParcelTable.OnParcelUpdate | frontend/src/components/AdminPanel.jsx:210-220 | the list becomes the update's result and the metrics are reloaded once |
| AdminPanel.ParcelTable.OnParcelLocation | frontend/src/components/AdminPanel.jsx:225-234 | the list becomes the location handler's result without a metrics reload |
| AdminPanel.ParcelTable.OnAssigned | frontend/src/components/AdminPanel.jsx:414-415 | the assigned parcel replaces the entry with its id |
| AgentDashboard.OtpRequestStarted | frontend/src/pages/AgentDashboard.jsx:268 | requesting an OTP opens the modal on the request step, sending, with empty code and error |
| AgentDashboard.OtpRequestSettled | frontend/src/pages/AgentDashboard.jsx:269-274 | the modal moves to the confirm step exactly when the request succeeded; a failure shows the message or "Failed to send OTP", never an empty error |
| AgentDashboard.OtpConfirmStarted | frontend/src/pages/AgentDashboard.jsx:278-280 | confirming marks the modal sending and clears its error, and changes nothing else |
| AgentDashboard.OtpConfirmFailed | frontend/src/pages/AgentDashboard.jsx:286 | a failed confirmation stops sending and shows the message or "Invalid OTP", keeping step, parcel and code |
| AgentDashboard.OtpCodeTyped | frontend/src/pages/AgentDashboard.jsx:538-540 | typing replaces only the code, which the input caps at 6 UTF-16 units |
| AgentDashboard.OnlyRequestOpens | frontend/src/pages/AgentDashboard.jsx:267-287 | from a closed modal, neither confirming, a confirmation failure nor typing opens it |
| AgentDashboard.MergeById | frontend/src/pages/AgentDashboard.jsx:299-301 | `parcel:update` is spread over exactly the parcels with the event's id; the ids stay in order |
| AgentDashboard.LocateByParcelId | frontend/src/pages/AgentDashboard.jsx:306-312 | `parcel:location` without a `parcelId` changes nothing; otherwise only the matching parcels take the event's `location` |
| AgentDashboard.CountersWithinTotal | frontend/src/pages/AgentDashboard.jsx:351-384 | the in-transit, delivered and pending-or-picked-up counters count disjoint parcels and sum to at most the total |
| AgentDashboard.Dashboard.constructor | frontend/src/pages/AgentDashboard.jsx:168 | the dashboard starts with no parcels and the closed modal |
| AgentDashboard.Dashboard.Loaded | frontend/src/pages/AgentDashboard.jsx:291 | the loaded list replaces the parcels |
| AgentDashboard.Dashboard.RequestDeliveryOtp | frontend/src/pages/AgentDashboard.jsx:268 | the modal becomes the request-started state |
| AgentDashboard.Dashboard.RequestDeliveryOtpSettled | frontend/src/pages/AgentDashboard.jsx:270-274 | the modal becomes the settled state for the reply |
| AgentDashboard.Dashboard.ConfirmDeliveryOtp | frontend/src/pages/AgentDashboard.jsx:277-280 | a confirmation is sent exactly when the modal has a parcel and a code, and the modal then starts sending |
| AgentDashboard.Dashboard.ConfirmDeliveryOtpSettled | frontend/src/pages/AgentDashboard.jsx:281-287 | success replaces the delivered parcel by id and closes the modal; failure keeps the list and shows the error |
| AgentDashboard.Dashboard.TypeCode | frontend/src/pages/AgentDashboard.jsx:540 | the modal's code becomes the typed text |
| AgentDashboard.Dashboard.CloseModal | frontend/src/pages/AgentDashboard.jsx:559 | the modal is reset to closed |
| AgentDashboard.Dashboard.OnParcelUpdate | frontend/src/pages/AgentDashboard.jsx:299-301 | the list becomes the spread merge's result |
| AgentDashboard.Dashboard.OnParcelLocation | frontend/src/pages/AgentDashboard.jsx:306-312 | the list becomes the location handler's result |
| AgentTracking.AgentSpeed | frontend/src/pages/AdminAgentTracking.jsx:89-101 | no speed without both locations or without elapsed time; otherwise speed times elapsed time is distance times 3,600,000, and a speed is returned exactly when it lies in (0, 120] km/h |
| AgentTracking.SpeedScales | frontend/src/pages/AdminAgentTracking.jsx:97-100 | distance over elapsed hours compares with 0 and 120 as distance times 3,600,000 compares with 0 and 120 times the elapsed milliseconds |
| AgentTracking.FilterParcels | frontend/src/pages/AdminAgentTracking.jsx:49-69 | an order-preserving sub-list of exactly the parcels passing both filters, as many as pass them, and the whole list for `all` with a blank search |
| AgentTracking.NoFilterKeepsAll | frontend/src/pages/AdminAgentTracking.jsx:51-56 | status `all` with a search that trims to empty keeps every parcel |
| AgentTracking.FiltersCompose | frontend/src/pages/AdminAgentTracking.jsx:49-69 | filtering by status and then by search equals the combined filter |
| AgentTracking.UntrimmedSearchMisses | frontend/src/pages/AdminAgentTracking.jsx:56-57 | a search with a leading space is not blank, yet it misses the tracking code it names, because matching uses the untrimmed text |
| AgentTracking.OnLocation | frontend/src/pages/AdminAgentTracking.jsx:246-265 | a report for another agent changes nothing; for the selected agent the current location moves to previous, the new one becomes current with its time, and the speed becomes the new estimate when both earlier values are set and the estimate is plausible, and is kept otherwise |
| AgentTracking.OnSelect | frontend/src/pages/AdminAgentTracking.jsx:216-225 | selecting another agent clears location, previous location, time and speed, sets the status filter to `all` and clears the search; reselecting changes nothing |
| AgentTracking.RequestsAfterLocation | frontend/src/pages/AdminAgentTracking.jsx:280 | as written, every accepted report re-runs the socket effect and sends one more location request |
| AgentTracking.RequestsAfterSelect | frontend/src/pages/AdminAgentTracking.jsx:236-244 | selecting a new agent sends one request for that agent, and a second one exactly when a location or an update time was set (clearing it re-runs the socket effect); reselecting sends none |
| AgentTracking.ReplayKeepsRequesting | frontend/src/pages/AdminAgentTracking.jsx:244-280 | with a cached report, n rounds of request, replay and re-run send exactly n requests: the exchange never stops |
| AgentTracking.RequestsAfterLocationIntended | frontend/src/pages/AdminAgentTracking.jsx:280 | without the location state among the effect's dependencies, an accepted report sends no request |
| AgentTracking.RequestsAfterSelectIntended | frontend/src/pages/AdminAgentTracking.jsx:236-244 | without the location state among the dependencies, selecting a new agent sends exactly one request |
| AgentTracking.IntendedReplayStops | frontend/src/pages/AdminAgentTracking.jsx:244-280 | without the location state among the dependencies, selecting an agent and any number of replays send exactly one request, and once an answer arrives the view shows the cached report |
| AgentTracking.ReplayShowsCached | frontend/src/pages/AdminAgentTracking.jsx:246-272 | after one or more cached answers for the selected agent, the view shows that report's position and time |
| AgentTracking.IntendedRoundsSilent | frontend/src/pages/AdminAgentTracking.jsx:246-272 | without the location state among the dependencies, replays send no request |
| AgentTracking.Tracker.constructor | frontend/src/pages/AdminAgentTracking.jsx:32-46 | the page starts with no agent, no location, status filter `all`, empty search and no request |
| AgentTracking.Tracker.SelectAgent | frontend/src/pages/AdminAgentTracking.jsx:216-244 | the view is reset for the new agent and the requests grow by those the selection sends |
| AgentTracking.Tracker.OnAgentLocationUpdate | frontend/src/pages/AdminAgentTracking.jsx:246-280 | the view takes the report and the requests grow by those the effect re-run sends |
| ParcelDetail.ProgressPercent | frontend/src/pages/ParcelDetailView.jsx:439 | the percent figure is exactly 20 times the step index: 0 to 100 for a status, -20 for any other text |
| ParcelDetail.PercentOfLastSteps | frontend/src/pages/ParcelDetailView.jsx:383-439 | Delivered shows 80 percent and Failed 100 percent |
| ParcelDetail.TimelineSteps | frontend/src/pages/ParcelDetailView.jsx:451 | the timeline lists the first five steps, Failed left out |
| ParcelDetail.TimelineChecks | frontend/src/pages/ParcelDetailView.jsx:452-463 | a timeline step shows a check mark exactly when it is before the current step and the status is not Failed |
| ParcelDetail.FailedTimeline | frontend/src/pages/ParcelDetailView.jsx:439-452 | a failed parcel shows 100 percent but no active timeline step |
| ParcelDetail.UpdateProceeds | frontend/src/pages/ParcelDetailView.jsx:239 | a status update is sent exactly for a non-empty choice that differs from the current status |
| ParcelDetail.UpdateButtonDisabled | frontend/src/pages/ParcelDetailView.jsx:508 | the button is disabled exactly while an update is in flight or when the chosen status is the current one |
| ParcelDetail.EnabledButIgnored | frontend/src/pages/ParcelDetailView.jsx:239-508 | the button is enabled but its click does nothing exactly when nothing is in flight, the choice is empty and the current status is not |
| ParcelDetail.StatusGradient | frontend/src/pages/ParcelDetailView.jsx:63-73 | the gray gradient is used exactly for a text that names no status |
| ParcelDetail.StatusPanel | frontend/src/pages/ParcelDetailView.jsx:75-85 | the gray panel style is used exactly for a text that names no status |
| ParcelDetail.GradientsDistinguishStatuses | frontend/src/pages/ParcelDetailView.jsx:63-73 | distinct statuses get distinct gradients |
| ParcelDetail.GradientInjective | frontend/src/pages/ParcelDetailView.jsx:63-73 | no status has the gray gradient, and no two statuses share a gradient |
| ParcelDetail.PanelsDistinguishStatuses | frontend/src/pages/ParcelDetailView.jsx:75-85 | distinct statuses get distinct panel styles |
| ParcelDetail.PanelInjective | frontend/src/pages/ParcelDetailView.jsx:75-85 | no status has the gray panel style, and no two statuses share a panel style |
| ParcelDetail.IconFor | frontend/src/pages/ParcelDetailView.jsx:60 | a status gets its own icon and any other text the Pending icon |
| ParcelDetail.RoundWhole | frontend/src/pages/ParcelDetailView.jsx:439 | `Math.round` leaves a whole number unchanged |
| ParcelDetail.TimelineIsFirstFive | frontend/src/pages/ParcelDetailView.jsx:451 | filtering Failed out of the status list leaves its first five entries |
| TrackParcel.ApplyUpdate | frontend/src/pages/TrackParcel.jsx:34-36 | an update for the route's id on a loaded parcel sets the status, replaces the agent unless the event's agent is null or missing, and changes nothing else; any other update changes nothing |
| TrackParcel.UpdateIdempotent | frontend/src/pages/TrackParcel.jsx:34-36 | receiving the same update twice equals receiving it once |
| TrackParcel.ApplyLocation | frontend/src/pages/TrackParcel.jsx:31-33 | only an event for the route's id sets the live location, to its `currentLocation` |
| TrackParcel.RouteOrigin | frontend/src/pages/TrackParcel.jsx:49-72 | the route starts at the live position exactly when both its coordinates are non-zero, and at the pickup address otherwise |
| TrackParcel.Route | frontend/src/pages/TrackParcel.jsx:43-72 | a route is requested exactly when the maps library is ready and the parcel is loaded, and it always ends at the delivery address |
| TrackParcel.LocationWithoutPositionFallsBack | frontend/src/pages/TrackParcel.jsx:31-49 | an event for this parcel without `currentLocation` clears the live position, and the route starts from the pickup address again |
| TrackParcel.RouteText | frontend/src/pages/TrackParcel.jsx:60 | an empty or missing duration text is stored as none |
| TrackParcel.EtaText | frontend/src/pages/TrackParcel.jsx:229 | the ETA shows the stored minutes exactly when they are non-zero, else the route duration when there is one, else a dash |
| TrackParcel.EtaNeverBlank | frontend/src/pages/TrackParcel.jsx:229 | a duration that went through `RouteText` never shows as an empty ETA |
| TrackParcel.PaymentText | frontend/src/pages/TrackParcel.jsx:234 | the payment line shows the payment type, with the amount appended exactly for COD |
| TrackParcel.TrackPage.constructor | frontend/src/pages/TrackParcel.jsx:28-30 | the page starts unloaded and subscribed to its route id, holding only that subscription |
| TrackParcel.TrackPage.Loaded | frontend/src/pages/TrackParcel.jsx:24-26 | the fetched parcel is stored and nothing else changes |
| TrackParcel.TrackPage.OnParcelLocation | frontend/src/pages/TrackParcel.jsx:31-33 | the live location becomes the location handler's result and nothing else changes |
| TrackParcel.TrackPage.OnParcelUpdate | frontend/src/pages/TrackParcel.jsx:34-36 | the parcel becomes the update handler's result and nothing else changes |
| TrackParcel.TrackPage.Unmount | frontend/src/pages/TrackParcel.jsx:37-40 | cleanup unsubscribes the same route id, leaving no subscription open |
| PublicTrack.LoadOutcome | frontend/src/pages/PublicTrack.jsx:20-27 | a body with a non-empty `message` or a failed request becomes an error with non-empty text; any other body becomes the parcel |
| PublicTrack.OnUpdate | frontend/src/pages/PublicTrack.jsx:33-37 | an update with the parcel's id is spread over it (status and agent) and keeps its id; any other update changes nothing |
| PublicTrack.OnLocation | frontend/src/pages/PublicTrack.jsx:39-47 | an event with the parcel's id sets its location and ETA from the event, missing keys included; any other event changes nothing |
| PublicTrack.OnAgentLocation | frontend/src/pages/PublicTrack.jsx:49-56 | a report from the parcel's populated agent becomes its location, stamped with the report time; any other report changes nothing |
| PublicTrack.BareAgentIgnoresReports | frontend/src/pages/PublicTrack.jsx:50 | a parcel whose agent is a bare id never takes a position from an agent report |
| PublicTrack.PublicTrackPage.constructor | frontend/src/pages/PublicTrack.jsx:9-16 | the page starts loading, with no parcel, no error and nothing sent |
| PublicTrack.PublicTrackPage.Show | frontend/src/pages/PublicTrack.jsx:30-68 | a new parcel object re-runs the effect: the previous room is left and the parcel's room joined, and every message names the parcel's id |
| PublicTrack.PublicTrackPage.LoadSettled | frontend/src/pages/PublicTrack.jsx:20-27 | loading ends with the parcel shown and subscribed, or with the error and nothing sent |
| PublicTrack.PublicTrackPage.OnParcelUpdate | frontend/src/pages/PublicTrack.jsx:33-37 | a matching update replaces the parcel and re-subscribes the same id; any other update changes nothing |
| PublicTrack.PublicTrackPage.OnParcelLocation | frontend/src/pages/PublicTrack.jsx:39-47 | a matching event replaces the parcel and re-subscribes the same id; any other event changes nothing |
| PublicTrack.PublicTrackPage.OnAgentLocationUpdate | frontend/src/pages/PublicTrack.jsx:49-56 | a report from the parcel's agent replaces the parcel and re-subscribes the same id; any other report changes nothing |
| PublicTrack.PublicTrackPage.Unmount | frontend/src/pages/PublicTrack.jsx:62-68 | cleanup leaves the shown parcel's room, leaving no subscription open |
| PickupConfirm.Render | frontend/src/pages/AgentPickupConfirmPage.jsx:60-104 | the spinner shows exactly while loading; the full-page error exactly when there is an error and no parcel; the details exactly when a parcel is loaded |
| PickupConfirm.MessageOr | frontend/src/pages/AgentPickupConfirmPage.jsx:28 | the thrown message is shown unless missing or empty, else the fallback text |
| PickupConfirm.LoadStarted | frontend/src/pages/AgentPickupConfirmPage.jsx:17-24 | each load, on mount and on every change of the route's id, shows the spinner and clears the error, keeping the parcel |
| PickupConfirm.ReloadClearsError | frontend/src/pages/AgentPickupConfirmPage.jsx:17-32 | a reload that fetches the parcel shows its details with no earlier error left |
| PickupConfirm.LoadSettled | frontend/src/pages/AgentPickupConfirmPage.jsx:21-32 | loading ends with the fetched parcel, or with the error message or "Failed to load parcel details" |
| PickupConfirm.FailedLoadShowsErrorPage | frontend/src/pages/AgentPickupConfirmPage.jsx:71 | a failed first load always ends on the full-page error |
| PickupConfirm.ConfirmLabel | frontend/src/pages/AgentPickupConfirmPage.jsx:299-318 | the label reads "Confirm Pickup" exactly when the button is enabled; otherwise it names the first reason, in the order confirming, already picked up, not assigned |
| PickupConfirm.ConfirmClicked | frontend/src/pages/AgentPickupConfirmPage.jsx:34-44 | a click sends a request exactly when a parcel is loaded and the button is enabled; the request is always Picked Up for the route's id, and it clears the error and starts confirming |
| PickupConfirm.ConfirmGated | frontend/src/pages/AgentPickupConfirmPage.jsx:296 | a request is only sent for a parcel with an agent that is not yet picked up, and never while one is in flight |
| PickupConfirm.PickupError | frontend/src/pages/AgentPickupConfirmPage.jsx:48-54 | a message mentioning Forbidden becomes the not-assigned explanation; any other message is shown as it is, a missing one as "Failed to update status to Picked Up"; the text is never empty |
| PickupConfirm.DefaultNotForbidden | frontend/src/pages/AgentPickupConfirmPage.jsx:49-50 | the default failure text does not mention Forbidden, so it is shown as it is |
| PickupConfirm.ConfirmSettled | frontend/src/pages/AgentPickupConfirmPage.jsx:45-57 | success moves to the parcel's detail route; failure shows the mapped error; either way confirming ends |
| PickupConfirm.FailureKeepsDetails | frontend/src/pages/AgentPickupConfirmPage.jsx:71 | after a failed confirmation the details stay on screen with a non-empty error, and the button no longer reads "Confirming..." |
| PickupConfirm.StatusBadge | frontend/src/pages/AgentPickupConfirmPage.jsx:106-155 | the gray badge is used exactly for a text that names no status |
| CustomerDashboard.WithText | frontend/src/pages/CustomerDashboard.jsx:105-185 | an edit sets that field, keeps every other field, and keeps the amount |
| CustomerDashboard.EditsCommute | frontend/src/pages/CustomerDashboard.jsx:105-185 | edits of different fields commute, and a later edit of a field overrides an earlier one |
| CustomerDashboard.SubmitDisabled | frontend/src/pages/CustomerDashboard.jsx:191 | the button is disabled exactly while a booking is in flight or while either address is empty |
| CustomerDashboard.HiddenAmountStillSent | frontend/src/pages/CustomerDashboard.jsx:155-173 | switching away from COD hides the amount input but keeps the amount in the form that is sent |
| CustomerDashboard.Dashboard.constructor | frontend/src/pages/CustomerDashboard.jsx:56-64 | the form starts at its defaults: empty addresses and notes, Small, Standard, Prepaid, amount 0 |
| CustomerDashboard.Dashboard.ListLoaded | frontend/src/pages/CustomerDashboard.jsx:329-332 | the fetched list replaces the parcels; a failed fetch keeps them; loading ends |
| CustomerDashboard.Dashboard.Edit | frontend/src/pages/CustomerDashboard.jsx:105-185 | once the list has loaded and the form is mounted, the form becomes the edited form and nothing else changes |
| CustomerDashboard.Dashboard.EditCodAmount | frontend/src/pages/CustomerDashboard.jsx:173 | only the form's amount changes |
| CustomerDashboard.Dashboard.Submit | frontend/src/pages/CustomerDashboard.jsx:67-71 | a booking is sent, carrying the whole form, exactly when the button is enabled |
| CustomerDashboard.Dashboard.SubmitSettled | frontend/src/pages/CustomerDashboard.jsx:72-76 | a created parcel is prepended ahead of the unchanged earlier parcels and the form returns to its defaults, which disable the button again; a failure keeps the form |

## Left out

- Great-circle distance and the ETA derived from it are trigonometry over
  floating point. Distance is an input of `AgentTracking.AgentSpeed`, and
  `etaMinutes` is a field set by events.
- Floating point in general is left out: speeds, widths and percentages are
  exact reals, with no NaN or infinity. `Math.round` is modelled for the whole
  multiples of 20 that reach it.
- Network and external services are left out: the `fetch` calls to Photon and
  Nominatim, the client's API wrappers, the Google Directions call, browser
  geolocation and the 20-second position timer. Their answers are parameters.
- The database, JWT signing and bcrypt comparison behind registration and login
  are left out. The email lookup is a boolean, and the password check is a
  function parameter.
- Every `catch` that answers 500 is left out (registration, login and
  geocoding), because only a failing collaborator reaches it.
- The Socket.IO transport, reconnection and acknowledgements are left out.
  Rooms are sets of connection ids and emissions are an outbox.
- Text rendering of numbers is left out (`String(x)`, `${etaMinutes} min`,
  `৳{codAmount}`, `toFixed`, dates). The model stops at the value shown.
- `toLowerCase` is modelled for ASCII letters only. Non-ASCII case mapping
  follows Unicode tables that are not part of this model.
- Objects are modelled as records of the keys the code reads. The `id` key that
  a spread copies from a `parcel:update` event into a parcel, and keys such as
  `__proto__`, are not represented.
- `ParcelStatus.BadgeClass`, `ParcelDetail.StatusGradient`,
  `ParcelDetail.StatusPanel`, `ParcelDetail.IconFor` and
  `PickupConfirm.StatusBadge`: inherited object keys are not modelled. Each
  lookup indexes a plain object literal with the status text and then applies
  `||`. A text such as `constructor`, `toString`, `valueOf`, `hasOwnProperty`
  or `__proto__` finds a truthy member inherited from `Object.prototype`, so
  the code yields that member and not the fallback. The model gives the
  fallback for every text that is not a status, including these.
- `AdminPanel.InitialSelection`: a populated agent's `_id` is taken to be
  non-empty. For a populated agent with an empty `_id`,
  `parcel.agent?._id || parcel.agent || ''` falls through to the agent object
  itself, and `save` would post that object as `agentId`. The selection is a
  text in the model, so that case gives `""`.
- `Geocode.NormalizeQuery`: a repeated `q` in the query string arrives as an
  array, which `toString()` joins with commas (`?q=a&q=b` gives `"a,b"`).
  The model takes `q` as an optional text only.
- `Geocode.LimitArg`: `Number(limit)` parsing is left out. A given limit
  reaches the services as the text it was sent as, and query-string arrays are
  not modelled.
- Socket payloads are assumed to carry `agentId` as a text. A missing `agentId`
  (JavaScript `undefined`) is not modelled.
- `AgentTracking.AgentSpeed`: the ISO timestamp parsing behind `timeDiff` is
  left out. Timestamps are milliseconds.
- The metrics fetched by the admin panel are not modelled; only the number of
  reloads is counted.
- The agent dashboard's geolocation watch, the map initialisation and its
  retries, and the `mapInitialized` dependency of the tracking effect are
  user-interface timing with no state rule of their own.
- `backend/src/routes/user.routes.js` only builds a `{role}` query for the
  database, and `frontend/src/pages/Login.jsx` only chooses between the login
  and register paths. Neither is part of this model.
- The map, icon, language and layout files are presentation only and are not
  part of this model.
- `CustomerDashboard.Dashboard.EditCodAmount` takes the parsed number.
  `Number(e.target.value)` parsing is left out.
- `Auth.Register`: request body values that are not text are not modelled.
  Every field is an optional text. In the code a JSON number sent as
  `password` (say `12`) passes the presence check, and `password.length` is
  then `undefined`, so the length rule does not reject it. The model has no
  such input and always applies the length rule.
- `PublicTrack.PublicTrackPage.LoadSettled` requires that no parcel is shown
  yet. The page fetches once per tracking code, and a change of route
  parameter is not modelled.

## Findings

| source | as written | input that shows it | evidently intended | confidence | as-written member | corrected member |
|---|---|---|---|---|---|---|
| frontend/src/pages/AdminAgentTracking.jsx:280 | the tracking effect lists `agentLocation` and `lastLocationUpdate` among its dependencies, so every accepted report re-runs it, reconnects and emits `request:agent:location` again; the server replays its cached report to the requester, which is accepted again | select an agent that has reported once; each replayed report triggers another request, without end | request the agent's location once per selected agent and let later reports only update the view | medium, not executed | AgentTracking.ReplayKeepsRequesting | AgentTracking.IntendedReplayStops |
