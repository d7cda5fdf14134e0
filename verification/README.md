# Carbon Sentinel: a Dafny model of the report workflow

Carbon Sentinel is a React client over Firebase. Citizens use it to file
environmental reports: a title, a description, a category, a severity, a map
position and up to five photos. Council staff triage those reports. This
project models the logic that the client's components embed and proves
properties of it. The components are:

- the report form, with its bounded image list, location gate, document
  shape, storage paths and reset;
- the council dashboard, with its live counters, status patch and the
  actions it offers per status;
- the report list, with its query choice, status filter and labels;
- the public map, with its status filter, markers, click handler and
  environmental panel;
- the application shell, with its authentication listener, route guards and
  citizen tabs.

Modules, one per component plus shared ones:

| module | file | models |
|---|---|---|
| `Wrappers` | `wrappers.dfy` | `Option` |
| `Text` | `text.dfy` | decimal rendering, `parseInt` on decimal text, substring `includes` |
| `ReportStore` | `report_store.dfy` | the report document, the `reports` collection, its image sub-collection and storage objects, live-query snapshots, `updateDoc` |
| `CouncilDashboard` | `council_dashboard.dfy` | `CouncilDashboard.jsx` |
| `ReportList` | `report_list.dfy` | `ReportList.jsx` |
| `ReportForm` | `report_form.dfy` | `ReportForm.jsx` |
| `MapView` | `map_view.dfy` | `MapView.jsx` |
| `App` | `app.dfy` | `App.jsx` |
| `Lifecycle` | `lifecycle.dfy` | runs of dashboard status changes over a report created by the form |

The Firebase services are not modelled. Each call's outcome is a parameter:

- whether a write is accepted;
- the id a new document gets;
- what each upload returns;
- the profile read on sign-in;
- the instant a timestamp takes.

Component state becomes a class whose methods are the event handlers.

Behaviour of the code as written, which the model follows:

- `Archived` is not final. The dashboard still offers In Review, Resolved
  and Archive for it (`Lifecycle.ArchivedCanBeReopened`).
- Judged by the stored status, only `Resolved` is final
  (`Lifecycle.ResolvedIsFinal`). The panel, however, offers its buttons for
  the copy of the report taken when it was clicked, and later snapshots do
  not refresh that copy. If another session resolves the report in the
  meantime, Archive is still offered. Pressing it archives a resolved
  document and leaves its resolution stamp set
  (`Lifecycle.StaleSelectionArchivesResolved`).
- `reviewedAt` is restamped on every move to In Review, not only the first
  (`Lifecycle.ReviewIsRestamped`).
- A report can be resolved without ever being reviewed
  (`Lifecycle.ResolveWithoutReview`).
- The status handler performs no role check. Only the route guard keeps
  non-council users away from it.
- When a sign-in finds no profile document, or cannot read it, the previous
  profile stays in place. A council member's session followed by such a
  sign-in still opens the council screen
  (`App.CouncilRoleOutlivesProfileRead`).
- React builds the element of every route on each render, so the role
  checks of the `/login` and `/council` routes run whatever the path. For a
  signed-in user whose profile holds a numeric or boolean `roles`, the
  check throws and no page renders, the public map included
  (`App.Route`, `App.NumericRolesBreakTheMap`).
- A `roles` string grants the council role whenever it contains "council"
  as a substring (`App.RoleStringMatchesSubstring`).
- The form writes image details to an `images` sub-collection document and
  leaves the report's own `images` field empty. The map popup's
  attached-images note therefore never shows for reports created by the form
  (`Lifecycle.FormReportsShowNoImageNote`).
- A failure after the report document is written leaves that document in
  place (`ReportForm.FailedUploadKeepsReport`).
- A failure also leaves any storage objects uploaded before it
  (`ReportForm.UploadImages`).
- The map's click handler `handleMapClick` is defined but never attached to
  the map, so map clicks are never passed on. The form's "Select on Map"
  panel can set a location only through the map's "locate me" button.
  `MapView.ForwardClick` models the handler as written.
- The form declares its preview state as `imagePrePreviews`
  (ReportForm.jsx line 15), but its markup reads `imagePreviews` (line 311).
  Every render of the form therefore throws a `ReferenceError`, so, as
  written, the form never appears. None of its handlers can run, and
  neither can `CitizenInterface.OnReportSubmitted`, which the form's success
  callback calls. The model describes these handlers as they behave once
  the form renders.

## Model

| member | source | states |
|---|---|---|
| `Text.Decimal` | src/assets/components/ReportForm.jsx:81-82 | the decimal text of a number is non-empty, all digits, with no leading zero |
| `Text.DecimalValue` | src/assets/components/ReportForm.jsx:82 | the digits of `Decimal(n)` read back as `n` |
| `Text.DecimalRoundTrip` | src/assets/components/ReportForm.jsx:116 | `parseInt` of the decimal text of `n` is `n` |
| `Text.DecimalInjective` | src/assets/components/ReportForm.jsx:82 | different numbers have different decimal texts |
| `Text.DigitPrefix` | src/assets/components/ReportForm.jsx:116 | the longest leading run of digits: all digits, a prefix, followed by a non-digit or the end |
| `Text.ParseDigits` | src/assets/components/ReportForm.jsx:116 | `parseInt` of a non-empty digit string is its decimal value |
| `Text.DigitPrefixOfDigits` | src/assets/components/ReportForm.jsx:116 | an all-digit string is its own digit prefix |
| `Text.TrimStart` | src/assets/components/ReportForm.jsx:116 | a suffix of the input that does not start with white space; everything dropped is white space |
| `Text.ParseInt` | src/assets/components/ReportForm.jsx:116 | `NaN` exactly when no digit follows the white space and optional sign |
| `Text.ContainsAt` | src/App.jsx:77 | a string contains every needle that occurs at some position in it |
| `ReportStore.SnapshotAdmitted` | src/assets/components/ReportList.jsx:29-36 | every report a snapshot delivers matches the query and is the stored document under its id |
| `ReportStore.WithStatus` | src/assets/components/CouncilDashboard.jsx:34-36 | the filter yields only reports of the input with that status, and the whole list when every report has it |
| `ReportStore.WithStatusCounts` | src/assets/components/CouncilDashboard.jsx:34-36 | each report with the status is kept as often as the input holds it; reports with another status are dropped |
| `ReportStore.WithStatusKeepsOrder` | src/assets/components/ReportList.jsx:41-44 | the status filter keeps the original order |
| `ReportStore.WithStatusAppend` | src/assets/components/CouncilDashboard.jsx:34-36 | filtering distributes over concatenation |
| `ReportStore.ApplyPatch` | src/assets/components/CouncilDashboard.jsx:55-59 | status and `updatedAt` are overwritten; a stamp given a value is overwritten and one written as `undefined` is left as it was; no other field changes |
| `ReportStore.Update` | src/assets/components/CouncilDashboard.jsx:54-60 | the update succeeds exactly when the document exists and the write is accepted; it changes only that document and no storage |
| `ReportStore.UpdateKeepsWellFormed` | src/assets/components/CouncilDashboard.jsx:54-60 | after an update every document is still filed under its own id |
| `ReportStore.SamePatchTwiceLastWins` | src/assets/components/CouncilDashboard.jsx:55-59 | two patches for the same status leave the document as the second alone would |
| `CouncilDashboard.ComputeStats` | src/assets/components/CouncilDashboard.jsx:34-43 | the total is the number of reports and no status counter exceeds it (exact counts in `CounterIsOccurrences`) |
| `CouncilDashboard.Uncounted` | src/assets/components/CouncilDashboard.jsx:34-42 | the reports no status card counts are reports of the input with another status |
| `CouncilDashboard.StatsPartition` | src/assets/components/CouncilDashboard.jsx:34-43 | the submitted, in-review and resolved counters plus the uncounted reports make the total, so the three counters never exceed it |
| `CouncilDashboard.CounterIsOccurrences` | src/assets/components/CouncilDashboard.jsx:34-36 | each counter is the number of reports holding exactly that status |
| `CouncilDashboard.UncountedReportOnlyAddsToTotal` | src/assets/components/CouncilDashboard.jsx:34-42 | a report with another status (e.g. Archived) raises the total and no other counter |
| `CouncilDashboard.StatusPatchFor` | src/assets/components/CouncilDashboard.jsx:55-59 | status and `updatedAt` are always written; `reviewedAt` is stamped iff the new status is In Review, `resolvedAt` iff Resolved |
| `CouncilDashboard.OfferedActions` | src/assets/components/CouncilDashboard.jsx:235-261 | nothing for Resolved; Mark In Review iff neither Resolved nor In Review; Resolve and Archive for every other status, Archived included |
| `CouncilDashboard.CardStatusClass` | src/assets/components/CouncilDashboard.jsx:162-166 | the list card pill is blue exactly for statuses other than Resolved and In Review |
| `CouncilDashboard.SeverityBadge` | src/assets/components/CouncilDashboard.jsx:84-91 | the badge is gray exactly when the severity is not one of 1 to 4 |
| `CouncilDashboard.SeverityBadgesDistinct` | src/assets/components/CouncilDashboard.jsx:84-91 | the four levels get four different badges |
| `CouncilDashboard.Dashboard.constructor` | src/assets/components/CouncilDashboard.jsx:8-17 | no reports, zero counters, nothing selected, loading |
| `CouncilDashboard.Dashboard.OnSnapshot` | src/assets/components/CouncilDashboard.jsx:26-46 | the reports are replaced and the counters recomputed from them; loading ends |
| `CouncilDashboard.Dashboard.Select` | src/assets/components/CouncilDashboard.jsx:153 | a clicked report becomes the selection |
| `CouncilDashboard.Dashboard.HandleStatusUpdate` | src/assets/components/CouncilDashboard.jsx:51-70 | the patch is written whatever the current status; success iff the document exists and the write is accepted; selection cleared on success and kept on failure; `updating` false afterwards |
| `ReportList.FilterReports` | src/assets/components/ReportList.jsx:41-44 | `all` returns the list unchanged; any other filter keeps exactly the reports with that status, with their multiplicities |
| `ReportList.FilterKeepsOrder` | src/assets/components/ReportList.jsx:41-44 | the filtered list is a subsequence of the list |
| `ReportList.QueryFor` | src/assets/components/ReportList.jsx:14-27 | restricted to the user's reports exactly when `filterByUser` and a user are both given, unrestricted otherwise, newest first either way |
| `ReportList.OwnListIsOwn` | src/assets/components/ReportList.jsx:14-20 | every report of a user-scoped snapshot belongs to that user |
| `ReportList.StatusClass` | src/assets/components/ReportList.jsx:46-55 | Draft and unknown statuses get the default class; the four others do not |
| `ReportList.StatusClassesDistinct` | src/assets/components/ReportList.jsx:46-55 | Submitted, In Review, Resolved and Archived get four different classes |
| `ReportList.SeverityLabel` | src/assets/components/ReportList.jsx:57-65 | `Unknown` exactly outside 1 to 4; 1 to 4 are Low, Medium, High and Critical |
| `ReportList.UpperAscii` | src/assets/components/ReportList.jsx:162 | lower-case letters move to upper case; everything else is kept |
| `ReportList.IndexOf` | src/assets/components/ReportList.jsx:162 | the first position of the character, or the length when it is absent |
| `ReportList.ReplaceFirst` | src/assets/components/ReportList.jsx:162 | only the first occurrence is replaced; no occurrence means no change |
| `ReportList.CapitalizeWordsFrom` | src/assets/components/ReportList.jsx:162 | each character that starts a word is upper-cased and every other one kept |
| `ReportList.CapitalizeWords` | src/assets/components/ReportList.jsx:162 | each character matched by `\b\w` is upper-cased and every other one kept |
| `ReportList.CategoryLabel` | src/assets/components/ReportList.jsx:162 | a title exactly when there is a category |
| `ReportList.OneWordLabel` | src/assets/components/ReportList.jsx:162 | a lower-case word is shown with a capital initial |
| `ReportList.TwoWordLabel` | src/assets/components/ReportList.jsx:162 | `a_b` is shown as both words capitalised with a space between |
| `ReportList.CategoryTitlesMatchOptions` | src/assets/components/ReportList.jsx:162 | every category value the form offers is shown under the title the form gives it, e.g. `waste_dumping` as `Waste Dumping` |
| `ReportList.LocationLabel` | src/assets/components/ReportList.jsx:173-176 | coordinates when present, otherwise `Location not specified` |
| `ReportList.ReportListView.constructor` | src/assets/components/ReportList.jsx:7-9 | no reports, filter `all`, loading |
| `ReportList.ReportListView.OnSnapshot` | src/assets/components/ReportList.jsx:29-36 | the reports are replaced and the shown list is their filtered projection |
| `ReportList.ReportListView.SetFilter` | src/assets/components/ReportList.jsx:91-130 | the shown list follows the new filter and the "All Reports" count is unchanged |
| `ReportForm.RemoveAt` | src/assets/components/ReportForm.jsx:48-51 | removing index `i` drops exactly that element and keeps the order; an index out of range changes nothing |
| `ReportForm.DropIndexFromSpec` | src/assets/components/ReportForm.jsx:49 | the index filter over a suffix of positions |
| `ReportForm.ExtensionSpec` | src/assets/components/ReportForm.jsx:82 | `Extension`: the extension has no dot, ends the name, and is the whole name or follows a dot |
| `ReportForm.PathText` | src/assets/components/ReportForm.jsx:82-83 | every image path lies in the report's own folder `reports/{id}/images/{id}_` and goes on past it |
| `ReportForm.PathTextDetermines` | src/assets/components/ReportForm.jsx:82-83 | within one report, the path text determines the timestamp, index and extension |
| `ReportForm.ImagePathsDistinct` | src/assets/components/ReportForm.jsx:82-83 | `ImagePath`: images at different positions get different paths, even with equal timestamps |
| `ReportForm.FirstFailure` | src/assets/components/ReportForm.jsx:85-86 | the position of the first upload that does not complete: all before it did, it did not |
| `ReportForm.StoredObjectsSpec` | src/assets/components/ReportForm.jsx:79-86 | `StoredObjects`: every image before the first failure is stored, and the failing one too when only its URL could not be read; each under its own path |
| `ReportForm.UploadEntriesSpec` | src/assets/components/ReportForm.jsx:79-93 | `UploadEntries`: entries exactly when every upload completes, one per image in order with its path, URL, type and size |
| `ReportForm.UploadImages` | src/assets/components/ReportForm.jsx:76-96 | all entries, one per image in order, when every upload completes; none otherwise; the objects stored are those uploaded before the first failure |
| `ReportForm.NewReport` | src/assets/components/ReportForm.jsx:111-126 | the document: the draft's title, description and category, the user's id, Submitted, the parsed severity, the coordinates, no images, no review or resolution stamp, one creation instant |
| `ReportForm.SeverityOptionsStoreTheirLevel` | src/assets/components/ReportForm.jsx:116 | each severity option is stored as its number |
| `ReportForm.ErrorAfter` | src/assets/components/ReportForm.jsx:100-156 | no message exactly after full success; the location message exactly when the location is missing; the retry message after every other failure |
| `ReportForm.SubmitOutcome` | src/assets/components/ReportForm.jsx:98-160 | `Submit`: a missing location or a failed document write leaves the store alone; later outcomes name the new report; success iff the document, every upload and the image document are written |
| `ReportForm.SubmitWithoutLocationWritesNothing` | src/assets/components/ReportForm.jsx:103-107 | without a location the submission writes nothing and reports the missing location |
| `ReportForm.SubmitAddsOneReport` | src/assets/components/ReportForm.jsx:111-129 | one document is added under the new id with the `NewReport` shape; the others are unchanged; the store stays well formed |
| `ReportForm.NoImagesNoUploads` | src/assets/components/ReportForm.jsx:132 | without images nothing is uploaded and no image document is written |
| `ReportForm.SubmittedImagesRecorded` | src/assets/components/ReportForm.jsx:132-137 | a successful submission with images adds one image document, with one entry per image in order, all at distinct paths |
| `ReportForm.FailedUploadKeepsReport` | src/assets/components/ReportForm.jsx:129-137 | a failed upload or image-document write leaves the report document in place, with no image document |
| `ReportForm.SubmitDraft` | src/assets/components/ReportForm.jsx:103-137 | the writes of a submission, step by step, are those `Submit` describes |
| `ReportForm.Form.constructor` | src/assets/components/ReportForm.jsx:9-18 | the form starts at its defaults with no error |
| `ReportForm.Form.HandleImageChange` | src/assets/components/ReportForm.jsx:29-36 | more than five images in all: an error and the list unchanged; otherwise the new files appended in order; never more than five |
| `ReportForm.Form.RemoveImage` | src/assets/components/ReportForm.jsx:48-51 | the list loses exactly the element at the index and stays within five |
| `ReportForm.Form.HandleLocationSelect` | src/assets/components/ReportForm.jsx:53-56 | the picked point becomes the location and the map closes |
| `ReportForm.Form.GetCurrentLocation` | src/assets/components/ReportForm.jsx:58-74 | a position becomes the location; a refusal or no geolocation shows its error and keeps the location |
| `ReportForm.Form.ClearLocation` | src/assets/components/ReportForm.jsx:254 | the location is cleared |
| `ReportForm.Form.ResetDraft` | src/assets/components/ReportForm.jsx:140-146 | after success every draft field is back at its default and the image list is empty |
| `ReportForm.Form.HandleSubmit` | src/assets/components/ReportForm.jsx:98-160 | the store effect is that of `Submit`; the form is back at its defaults only after full success and keeps the draft otherwise; the error matches the outcome; loading ends |
| `App.CouncilRole` | src/App.jsx:77 | throws exactly for a numeric or boolean `roles`; false without a profile or with a missing or null `roles`; list membership for a list, substring for a string |
| `App.RoleStringMatchesSubstring` | src/App.jsx:100 | any roles string ending in "council" grants the role |
| `App.Route` | src/App.jsx:57-112 | a render error on every path iff a user is signed in and the role check throws; otherwise `/` renders the map, unknown paths go to `/`, `/citizen` and `/council` send the anonymous to `/login`, `/login` sends a user to `/council` with the role and to `/citizen` without, and `/council` sends a user without the role to `/citizen`; the login form iff anonymous at `/login`; the citizen screen iff signed in at `/citizen`; the council screen iff signed in with the role at `/council` |
| `App.NumericRolesBreakTheMap` | src/App.jsx:73-78 | a numeric `roles` breaks the public map for a signed-in user |
| `App.RedirectsSettle` | src/App.jsx:73-111 | every redirect targets a route of the table that does not redirect again |
| `App.Overlay` | src/App.jsx:28 | the merged user has the fields of both; the profile wins on a clash |
| `App.AfterAuthEvent` | src/App.jsx:20-41 | sign-out clears user and profile; sign-in with a profile sets both; sign-in without one sets the bare account and keeps the old profile; loading ends |
| `App.Screen` | src/App.jsx:46-55 | the spinner shows exactly while loading |
| `App.SignedOutSeesNoPrivateScreen` | src/App.jsx:36-39 | after sign-out no path shows the citizen or council screen |
| `App.CouncilScreenFollowsProfile` | src/App.jsx:24-28 | after a sign-in with a profile, the council screen opens iff that profile grants the role |
| `App.CouncilRoleOutlivesProfileRead` | src/App.jsx:29-35 | a sign-in without a readable profile keeps the previous profile's council role |
| `App.SignOutResets` | src/App.jsx:36-40 | sign-out forgets everything earlier events set |
| `App.MergedUid` | src/App.jsx:28 | the merged user keeps the account's uid unless the profile has its own |
| `App.Session.constructor` | src/App.jsx:15-17 | no user, no profile, loading: only the spinner shows |
| `App.Session.OnAuthStateChanged` | src/App.jsx:20-41 | the new state is `AfterAuthEvent` of the old one |
| `App.CitizenInterface.constructor` | src/App.jsx:119-120 | the interface opens on the map tab |
| `App.CitizenInterface.Content` | src/App.jsx:161-178 | the Map tab shows the map, the Report tab the form, and My Reports exactly the user-scoped list query |
| `App.CitizenInterface.SelectTab` | src/App.jsx:129-158 | the clicked tab becomes active |
| `App.CitizenInterface.OnReportSubmitted` | src/App.jsx:170 | a successful submission switches to My Reports |
| `App.MyReportsAreOwn` | src/App.jsx:176 | every report on My Reports belongs to the signed-in user |
| `MapView.PublicMapNeverShowsArchived` | src/assets/components/MapView.jsx:61-64 | the map receives only Submitted, In Review and Resolved reports, never drafts or archived ones |
| `MapView.SeverityDotColor` | src/assets/components/MapView.jsx:141-149 | the popup's severity dot (not the pin, which is always the waste icon) is gray exactly outside 1 to 4; 1 to 4 are green, yellow, orange and red |
| `MapView.SeverityDotColorsDistinct` | src/assets/components/MapView.jsx:141-149 | the four levels get four different dot colours |
| `MapView.PopupStatusClass` | src/assets/components/MapView.jsx:238-241 | the popup pill is gray exactly for statuses other than Resolved and In Review |
| `MapView.MarkerFor` | src/assets/components/MapView.jsx:221-253 | the marker sits at the report's coordinates, keyed by its id, with its colour and status class; the images note shows iff it has images |
| `MapView.Markers` | src/assets/components/MapView.jsx:221-226 | no more markers than reports |
| `MapView.MarkerHasReport` | src/assets/components/MapView.jsx:221-226 | each marker belongs to a report of the list that has coordinates |
| `MapView.ReportHasMarker` | src/assets/components/MapView.jsx:221-226 | each report with coordinates has its marker |
| `MapView.OneMarkerPerLocatedReport` | src/assets/components/MapView.jsx:221-226 | with distinct ids, an id has one marker if its report has coordinates and none otherwise |
| `MapView.PublicMarkers` | src/assets/components/MapView.jsx:59-76 | a stored report has exactly one marker iff its status is one the map asks for and it has coordinates |
| `MapView.ForwardClick` | src/assets/components/MapView.jsx:108-115 | the handler as written, which the map never calls: a click would be passed on unchanged exactly when there is a location picker |
| `MapView.EnvironmentCentre` | src/assets/components/MapView.jsx:57 | the user's location when known, Nairobi (-1.2921, 36.8219) otherwise |
| `MapView.MapState.constructor` | src/assets/components/MapView.jsx:49-53 | no reports, no location, no readings, loading |
| `MapView.MapState.OnSnapshot` | src/assets/components/MapView.jsx:66-73 | the reports are replaced and the markers are theirs; loading ends |
| `MapView.MapState.FetchEnvironmentalData` | src/assets/components/MapView.jsx:78-106 | requested at `EnvironmentCentre`; air quality is asked only after weather was read; a request that throws keeps the readings already held |
| `MapView.MapState.HandleLocateMe` | src/assets/components/MapView.jsx:117-139 | a position becomes the user's location and goes to the picker when there is one; otherwise nothing changes |
| `Lifecycle.NewReportConsistent` | src/assets/components/ReportForm.jsx:121-125 | a report the form creates has stamps consistent with its status |
| `Lifecycle.Pressed` | src/assets/components/CouncilDashboard.jsx:55-59 | a button press writes its status and time and leaves the filer and creation time alone |
| `Lifecycle.PressKeepsConsistent` | src/assets/components/CouncilDashboard.jsx:235-261 | an offered press at a later time keeps a report consistent: resolved stamp iff Resolved, review stamp when In Review, no stamp after the last update |
| `Lifecycle.Run` | src/assets/components/CouncilDashboard.jsx:235-261 | the empty run changes nothing |
| `Lifecycle.RunOnePress` | src/assets/components/CouncilDashboard.jsx:235-261 | one press gives the pressed report when its button is offered for the current status, and `None` otherwise |
| `Lifecycle.RunComposes` | src/assets/components/CouncilDashboard.jsx:235-261 | a run is its first part followed by the rest from where the first part ended, and `None` once the first part fails; with `RunOnePress`, a run is `None` at the first press not offered for the status reached so far and otherwise the presses applied in turn |
| `Lifecycle.RunKeepsConsistent` | src/assets/components/CouncilDashboard.jsx:235-261 | any run of offered presses in time order keeps a report consistent |
| `Lifecycle.ResolvedIsFinal` | src/assets/components/CouncilDashboard.jsx:235 | from Resolved only the empty run is possible |
| `Lifecycle.RunKeepsStamps` | src/assets/components/CouncilDashboard.jsx:55-59 | a run never clears a review or resolution stamp and never changes the filer, the creation time, the images or the position |
| `Lifecycle.ResolveWithoutReview` | src/assets/components/CouncilDashboard.jsx:248-254 | a submitted report can be resolved directly, with no review stamp |
| `Lifecycle.ArchivedCanBeReopened` | src/assets/components/CouncilDashboard.jsx:235-261 | Archived is offered In Review, Resolved and Archive, so an archived report can be reopened and resolved |
| `Lifecycle.ReviewIsRestamped` | src/assets/components/CouncilDashboard.jsx:58 | the review stamp records the latest move to In Review |
| `Lifecycle.UpdateStoresPressed` | src/assets/components/CouncilDashboard.jsx:54-60 | writing the patch to an existing document stores the pressed report and keeps the store well formed |
| `Lifecycle.StaleSelectionArchivesResolved` | src/assets/components/CouncilDashboard.jsx:235-261 | with the selection still Submitted and the stored report Resolved, Archive is offered and writes an archived document that keeps its resolution stamp, breaking `Consistent` |
| `Lifecycle.FormReportsShowNoImageNote` | src/assets/components/ReportForm.jsx:125 | a report created by the form never shows the map's attached-images note, whatever its later status |

## Left out

- Firebase itself is not modelled: Firestore, Storage and Auth, the
  subscriptions and their lifetimes. Each call becomes a parameter of the
  handler that makes it: whether it succeeds, the id it assigns, what it
  returns.
- `Lifecycle.Run` and `Lifecycle.ResolvedIsFinal` check each press against
  the stored status. They assume a fresh selection and a single writer.
  With a stale selection or two council sessions at once, the guarantees
  of `RunKeepsConsistent` do not hold
  (`Lifecycle.StaleSelectionArchivesResolved` shows one such case).
- The order in which asynchronous callbacks interleave is not modelled. An
  older profile read can finish after a newer authentication event, and a
  snapshot can arrive during a status update. Each handler is modelled as
  one step.
- Server timestamps, `Date.now()` and `toISOString()` are opaque natural
  numbers. The three `toISOString()` calls of one status update are taken
  to be the same instant. The model does not keep the difference between a
  server Timestamp and an ISO string.
- `ReportStore.Update`: `updateDoc` with `undefined` values is modelled
  this way:
  - with skip semantics (the field is left alone);
  - plus `accepted == false` for a client configured to throw on them;
  - the Firebase configuration that decides between the two is not part of
    this model.
- Image previews are not modelled, since `FileReader` is asynchronous
  browser I/O.
- The preview state is declared as `imagePrePreviews`, but the markup reads
  `imagePreviews`. Markup is not part of this model. The `ReferenceError`
  that follows makes the form unrenderable as written (see above), which
  the modelled handlers do not reflect.
- Browser geolocation, the Open-Meteo requests and their URLs, and
  `toFixed`/`formatDate` formatting are not modelled. They are parameters
  or are dropped.
- The Leaflet map, the icons, `flyTo` and `LocationMarker` are not
  modelled. `LocationMarker` shadows its `onLocationFound` prop, so the prop
  is never called and `userLocation` changes only through "locate me".
- `alert` and `console` calls, `disabled` buttons, the map toggle and all
  markup beyond the class lookups above are not modelled.
- `src/assets/components/Navbar.jsx` and `LoginForm` are not part of this
  model.
- `Text.ParseInt` reads decimal text only. It does not handle the `0x`
  prefix or white space beyond space, tab, line feed and carriage return.
  The form only ever passes "1" to "4" or the initial 2.
- `App.CouncilRole` covers these `roles` values: missing, null, string,
  list, number and boolean. A plain object is not represented.
- `App.Route` compares paths exactly. The router's case-insensitive and
  trailing-slash matching is not modelled.
- `App.CitizenInterface.constructor` requires a text `uid`. A profile
  document whose own `uid` field is not text is not modelled.
- Title and description are not checked by the submit handler; only the
  HTML `required` attribute enforces them, and it is not modelled.
- `MapView.Markers` states only a bound in its own contract. Which markers
  it yields is stated by `MarkerHasReport`, `ReportHasMarker`,
  `OneMarkerPerLocatedReport` and `PublicMarkers`.
