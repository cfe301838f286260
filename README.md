# QSEventAnalytics in Dafny

QSEventAnalytics is a small iOS/watchOS event-tracking library. This project models its core
in Dafny:

- The `AnalyticTool` singleton: the current-page tracker, the session id, the post of every
  event to a collection endpoint, and the retry queue of failed events with its drain loop.
- The `AnalyticModel` record and the `EventType` catalog with its three lookup tables.
- The rule by which the Firebase sink names an event.

The files follow the source:

| file | module | models |
|---|---|---|
| `values.dfy` | `Values` | `Option`, a JSON value type for the `[String: Any]` dictionaries |
| `text.dfy` | `Text` | removing every occurrence of one character (`replacingOccurrences(of:with:)`) |
| `event_model.dfy` | `EventModel` | `AnalyticModel`, `EventType`, `typeCode`, `firebaseTypeCode`, `eventNamePrefix` |
| `firebase_naming.dfy` | `FirebaseNaming` | the event name handed to and logged by `FirebaseAnalyticTool.addEvent` |
| `request_content.dfy` | `RequestContent` | `objectToJsonString`, the event content and the parameter dictionary of `requestApi` |
| `page_tracking.dfy` | `PageTracking` | the page rules of `addEvent`, `getCurrentPageData`, the casts of `returnToPage` |
| `analytic_tool.dfy` | `Analytics` | the `AnalyticTool` class: its fields and every method |
| `scenarios.dfy` | `Scenarios` | short runs of the class that pin down how its asynchronous steps interleave |

`AnalyticTool` changes its fields in place, so it is a Dafny `class` with `modifies` clauses.
The tables, the page rules and the request content are pure, so they are functions with
lemmas.

The source's asynchronous pipeline is cut into atomic steps. A call of `requestApi` is split
in two:

- `RequestApi` hands the record to the IP-lookup closure. When no closure is installed
  (`getIpLocationAction?` at line 189), the record is dropped silently.
- `CompleteRequest(i, location, delivered)` runs when the lookup of waiting request `i`
  answers. It builds the parameter dictionary, checks the URL, posts the dictionary, and
  receives the transport's answer `delivered`.

Any other step may run between the two halves. Two ghost logs record what happened:
`dispatched` holds every record handed to `requestApi`, and `transmitted` holds every
dictionary posted. The requests still waiting for their lookup are in `inFlight`. Each one
is tagged `Fresh` (from `addEvent`) or `Retry` (from the drain), because the two failure
handlers differ:

- `addEvent`'s failure handler rebuilds the record from its captured fields and the session
  id it reads when the failure arrives (line 80). A record whose session was rotated while
  its post was under way is therefore queued under the new session id
  (`Scenarios.SessionRotatedBeforeFailure`).
- The drain's failure handler puts the stored record back unchanged.

A failure does not stop the drain: every resubmission's outcome arrives later, through its
own callback, so the loop empties the whole queue, and a failure only appends the record to
the tail again. The model follows the code
(`Analytics.AnalyticTool.ResendFailedEvents`, `Scenarios.DrainRunsPastFailure`). Nothing ever
sets `isSending` back to false. Only the first drain that finds a non-empty queue runs, and
every later network signal does nothing, whatever is queued. The model keeps this too
(`Scenarios.DrainRunsPastFailure`, `leftAfterSecondSignal`).

## Model

| member | source | states |
|---|---|---|
| EventModel.EventType | QSEventAnalytics/QSEventAnalytics/EventAnalytics/AnalyticModel.swift:21-32 | the eleven kinds of event, one constructor per case, over which every lookup table is total |
| EventModel.AnalyticModel | QSEventAnalytics/QSEventAnalytics/EventAnalytics/AnalyticModel.swift:10-18 | the record of one event: session id, code, name, kind, millisecond timestamp, optional belonging page, optional extra dictionary |
| EventModel.TypeCode | QSEventAnalytics/QSEventAnalytics/EventAnalytics/AnalyticModel.swift:34-59 | the wire code of every kind is one of the five categories in, out, click, load, error |
| EventModel.TypeCodeClasses | QSEventAnalytics/QSEventAnalytics/EventAnalytics/AnalyticModel.swift:34-59 | for each wire code, exactly which kinds map to it, in both directions |
| EventModel.FirebaseTypeCode | QSEventAnalytics/QSEventAnalytics/EventAnalytics/AnalyticModel.swift:61-87 | the Firebase code is empty exactly for the state kind |
| EventModel.FirebaseCodeRefinesTypeCode | QSEventAnalytics/QSEventAnalytics/EventAnalytics/AnalyticModel.swift:34-87 | kinds sharing a Firebase code share a wire code; click and value change share a wire code but not a Firebase code |
| EventModel.EventNamePrefix | QSEventAnalytics/QSEventAnalytics/EventAnalytics/AnalyticModel.swift:89-114 | the display-name template is the bare placeholder exactly for app-in and app-out |
| EventModel.TemplateParts | QSEventAnalytics/QSEventAnalytics/EventAnalytics/AnalyticModel.swift:89-114 | every display-name template is a text without '@', the placeholder "@name", and a text without '@'; app-in and app-out use the bare placeholder |
| EventModel.BracketedTemplate | QSEventAnalytics/QSEventAnalytics/EventAnalytics/AnalyticModel.swift:95-108 | page-in, page-out, show and close put the placeholder between 【 and 】 after their verb |
| EventModel.PrefixedTemplate | QSEventAnalytics/QSEventAnalytics/EventAnalytics/AnalyticModel.swift:99-112 | value change, click, load, state and error end in the placeholder |
| EventModel.TemplateHasOnePlaceholder | QSEventAnalytics/QSEventAnalytics/EventAnalytics/AnalyticModel.swift:89-114 | every template contains the placeholder exactly once, and the app kinds' templates are the placeholder itself |
| Text.RemoveChar | QSEventAnalytics/QSEventAnalytics/EventAnalytics/AnalyticTool.swift:255-260 | the result holds exactly the characters of the input other than the removed one, and is no longer |
| Text.RemoveCharCounts | QSEventAnalytics/QSEventAnalytics/EventAnalytics/AnalyticTool.swift:255-260 | every other character keeps its number of occurrences; the removed one has none left |
| Text.RemoveCharConcat | QSEventAnalytics/QSEventAnalytics/EventAnalytics/AnalyticTool.swift:255-260 | removal works piece by piece, so the kept characters keep their order |
| Text.RemoveCharIdempotent | QSEventAnalytics/QSEventAnalytics/EventAnalytics/AnalyticTool.swift:255-260 | removing a character twice is removing it once |
| Text.RemoveCharCommutes | QSEventAnalytics/QSEventAnalytics/EventAnalytics/AnalyticTool.swift:255-260 | removing spaces then line feeds equals removing line feeds then spaces |
| FirebaseNaming.ToolEventName | QSEventAnalytics/QSEventAnalytics/EventAnalytics/AnalyticTool.swift:65 | the name forwarded to Firebase is the code, then "_", then exactly the Firebase code of the kind |
| FirebaseNaming.StateNameEndsInSeparator | QSEventAnalytics/QSEventAnalytics/EventAnalytics/AnalyticTool.swift:65 | a forwarded name ends in the bare separator exactly when the kind is state |
| FirebaseNaming.ClickAndValueChangeNamesDiffer | QSEventAnalytics/QSEventAnalytics/EventAnalytics/AnalyticModel.swift:72-75 | a click and a value change with the same code get different Firebase names |
| FirebaseNaming.VersionSuffix | QSEventAnalytics/QSEventAnalytics/EventAnalytics/FirebaseAnalyticTool.swift:41 | the version suffix holds no dot and is empty when the version is unknown |
| FirebaseNaming.VersionSuffixKeepsDigits | QSEventAnalytics/QSEventAnalytics/EventAnalytics/FirebaseAnalyticTool.swift:41 | the suffix keeps every non-dot character of the version as often as it occurs |
| FirebaseNaming.LoggedEventName | QSEventAnalytics/QSEventAnalytics/EventAnalytics/FirebaseAnalyticTool.swift:39-49 | the logged name is the name itself when the suffix is empty, otherwise the name, "_" and the suffix; it respects the 40-character limit the source asserts |
| FirebaseNaming.LoggedToolName | QSEventAnalytics/QSEventAnalytics/EventAnalytics/FirebaseAnalyticTool.swift:40-46 | an event forwarded by the analytics tool is logged under its code, the separator and its Firebase code, within the limit, with a dot-free version part |
| FirebaseNaming.VersionExample | QSEventAnalytics/QSEventAnalytics/EventAnalytics/FirebaseAnalyticTool.swift:41-44 | version "1.2.3" turns "app_foreground_in" into "app_foreground_in_123" |
| RequestContent.Strip | QSEventAnalytics/QSEventAnalytics/EventAnalytics/AnalyticTool.swift:246-263 | the cleaned serialisation holds no space and no line feed and is no longer than the input (corrected: whole-text range) |
| RequestContent.StripIsVisible | QSEventAnalytics/QSEventAnalytics/EventAnalytics/AnalyticTool.swift:255-260 | the two removal passes equal a one-pass filter keeping exactly the characters that are neither space nor line feed |
| RequestContent.StripConcat | QSEventAnalytics/QSEventAnalytics/EventAnalytics/AnalyticTool.swift:255-260 | cleaning a concatenation cleans each part, keeping order |
| RequestContent.StripKeepsOtherCharacters | QSEventAnalytics/QSEventAnalytics/EventAnalytics/AnalyticTool.swift:255-260 | every other character survives as often as it occurred |
| RequestContent.StripIdempotent | QSEventAnalytics/QSEventAnalytics/EventAnalytics/AnalyticTool.swift:255-260 | cleaning cleaned text changes nothing |
| RequestContent.StripExample | QSEventAnalytics/QSEventAnalytics/EventAnalytics/AnalyticTool.swift:255-260 | spaces inside string values are removed too, not only the layout |
| RequestContent.CharsInUnits | QSEventAnalytics/QSEventAnalytics/EventAnalytics/AnalyticTool.swift:256-257 | converting a UTF-16 range end to a character offset never goes past the end of the text |
| RequestContent.RemoveInCountedRange | QSEventAnalytics/QSEventAnalytics/EventAnalytics/AnalyticTool.swift:256-257 | one replacement pass as written never lengthens the text and keeps exactly the other characters present, whichever prefix its counted range covers |
| RequestContent.StripAsWritten | QSEventAnalytics/QSEventAnalytics/EventAnalytics/AnalyticTool.swift:255-260 | the clean-up as written never lengthens the text and keeps exactly the other characters present, though it may leave some spaces and line feeds |
| RequestContent.RemoveInCountedRangeCounts | QSEventAnalytics/QSEventAnalytics/EventAnalytics/AnalyticTool.swift:256-257 | one pass as written keeps every other character as often as it occurred |
| RequestContent.StripAsWrittenCounts | QSEventAnalytics/QSEventAnalytics/EventAnalytics/AnalyticTool.swift:255-260 | the clean-up as written removes nothing but spaces and line feeds: every other character keeps its number of occurrences |
| RequestContent.StripAsWrittenOnBasicPlane | QSEventAnalytics/QSEventAnalytics/EventAnalytics/AnalyticTool.swift:255-260 | on text of one-unit characters the clean-up as written equals the corrected one |
| RequestContent.StripAsWrittenKeepsLineFeed | QSEventAnalytics/QSEventAnalytics/EventAnalytics/AnalyticTool.swift:255-260 | after any one-unit head, a value ending in two emoji leaves the final line feed in the clean-up as written, while Strip removes it |
| RequestContent.EventContent | QSEventAnalytics/QSEventAnalytics/EventAnalytics/AnalyticTool.swift:192-195 | (corrected) the event content has no blanks, and is non-empty only when there is an extra that serialises |
| RequestContent.EventContentAsWritten | QSEventAnalytics/QSEventAnalytics/EventAnalytics/AnalyticTool.swift:192-195 | when the serialisation holds only one-unit characters, the event content equals what the clean-up as written produces |
| RequestContent.Env | QSEventAnalytics/QSEventAnalytics/EventAnalytics/AnalyticTool.swift:213-217 | the environment tag is "dev" exactly in a debug build and "prd" otherwise |
| RequestContent.BuildPayload | QSEventAnalytics/QSEventAnalytics/EventAnalytics/AnalyticTool.swift:197-217 | (corrected) each of the fourteen parameters: record fields, user id, location, platform strings, wire code, belong page or "", cleaned content, environment |
| PageTracking.NextPage | QSEventAnalytics/QSEventAnalytics/EventAnalytics/AnalyticTool.swift:54-58 | the current page either stays or becomes the event's page, and a page opens only through a page-in with a non-empty code |
| PageTracking.ImplicitClose | QSEventAnalytics/QSEventAnalytics/EventAnalytics/AnalyticTool.swift:45-52 | the synthesised page-out carries the open page's code and name, belongs to that page, has no extra, and is stamped earlier than the new entry |
| PageTracking.Dispatches | QSEventAnalytics/QSEventAnalytics/EventAnalytics/AnalyticTool.swift:43-58 | one call dispatches two records exactly for a page-in while a page is open, otherwise one; the event itself is always last |
| PageTracking.PreviousPageClosed | QSEventAnalytics/QSEventAnalytics/EventAnalytics/AnalyticTool.swift:43-58 | entering a page while another is open closes the open one once, one millisecond earlier, then records the entry and makes it current |
| PageTracking.NoImplicitClose | QSEventAnalytics/QSEventAnalytics/EventAnalytics/AnalyticTool.swift:43-58 | with no page open, or for any other kind, only the event itself goes out |
| PageTracking.OnlyPageInMovesPage | QSEventAnalytics/QSEventAnalytics/EventAnalytics/AnalyticTool.swift:43-58 | only a page-in changes the current page, and it makes the entered page current; an explicit page-out does not clear it |
| PageTracking.ImplicitCloseIsInert | QSEventAnalytics/QSEventAnalytics/EventAnalytics/AnalyticTool.swift:46-51 | the synthesised page-out triggers no page logic of its own |
| PageTracking.PageEntryTrace | QSEventAnalytics/QSEventAnalytics/EventAnalytics/AnalyticTool.swift:34-58 | over any sequence of page entries, each entry after the first is preceded by exactly one page-out of the previous page, and the last entry is current |
| PageTracking.PageData | QSEventAnalytics/QSEventAnalytics/EventAnalytics/AnalyticTool.swift:99-105 | the snapshot has exactly the keys code, name, extra, holding the page's code and name |
| PageTracking.ParsePageData | QSEventAnalytics/QSEventAnalytics/EventAnalytics/AnalyticTool.swift:108-112 | a snapshot is accepted exactly when it holds a string code and a string name, and yields them |
| PageTracking.PageDataRoundTrip | QSEventAnalytics/QSEventAnalytics/EventAnalytics/AnalyticTool.swift:99-121 | a snapshot reads back as the page it was taken from |
| PageTracking.ReturnEvent | QSEventAnalytics/QSEventAnalytics/EventAnalytics/AnalyticTool.swift:114-119 | returning issues a page-in that enters the snapshot's page and belongs to its code |
| PageTracking.ReturnToOpenPage | QSEventAnalytics/QSEventAnalytics/EventAnalytics/AnalyticTool.swift:108-121 | returning to the page that is open closes it, enters it again, and leaves it current |
| Analytics.Submitted | QSEventAnalytics/QSEventAnalytics/EventAnalytics/AnalyticTool.swift:189 | as many requests wait as records were submitted when a lookup closure is installed, none otherwise |
| Analytics.SubmittedRequests | QSEventAnalytics/QSEventAnalytics/EventAnalytics/AnalyticTool.swift:189 | submitted records wait for the lookup in order and tagged with their submitter, or none wait when no lookup closure is installed |
| Analytics.SubmittedConcat | QSEventAnalytics/QSEventAnalytics/EventAnalytics/AnalyticTool.swift:141-166 | submitting two batches one after the other is submitting their concatenation |
| Analytics.QueuedRecord | QSEventAnalytics/QSEventAnalytics/EventAnalytics/AnalyticTool.swift:76-89 | a queued record equals the submitted one except for the session id, which is the live one for a fresh request and unchanged for a retried one |
| Analytics.AnalyticTool.constructor | QSEventAnalytics/QSEventAnalytics/EventAnalytics/AnalyticTool.swift:342-355 | a new tool has no user, endpoint, lookup closure, page, queue, drain or request |
| Analytics.AnalyticTool.Initialize | QSEventAnalytics/QSEventAnalytics/EventAnalytics/AnalyticTool.swift:20-31 | stores the user id and endpoint and installs the lookup closure, changing nothing else |
| Analytics.AnalyticTool.AddEvent | QSEventAnalytics/QSEventAnalytics/EventAnalytics/AnalyticTool.swift:34-91 | dispatches exactly PageTracking.Dispatches for the event under the current session, moves the current page by PageTracking.NextPage, and changes nothing else |
| Analytics.AnalyticTool.RequestApi | QSEventAnalytics/QSEventAnalytics/EventAnalytics/AnalyticTool.swift:179-189 | the record is dispatched and waits for the lookup only if a closure is installed |
| Analytics.AnalyticTool.CompleteRequest | QSEventAnalytics/QSEventAnalytics/EventAnalytics/AnalyticTool.swift:189-240 | the answered request stops waiting and its record was dispatched; its dictionary is posted only when the endpoint parses as a URL; a failed post appends exactly one QueuedRecord under the live session id |
| Analytics.AnalyticTool.UpdateSessionId | QSEventAnalytics/QSEventAnalytics/EventAnalytics/AnalyticTool.swift:94-96 | only the session id changes; queued and waiting records keep theirs |
| Analytics.AnalyticTool.GetCurrentPageData | QSEventAnalytics/QSEventAnalytics/EventAnalytics/AnalyticTool.swift:99-105 | the snapshot of the current page, which returnToPage reads back as that page |
| Analytics.AnalyticTool.ReturnToPage | QSEventAnalytics/QSEventAnalytics/EventAnalytics/AnalyticTool.swift:108-121 | a malformed snapshot changes nothing; a valid one acts as addEvent of a page-in for its page at the current time |
| Analytics.AnalyticTool.ResendFailedEvents | QSEventAnalytics/QSEventAnalytics/EventAnalytics/AnalyticTool.swift:132-168 | no-op while a drain has started or the queue is empty; otherwise sets the drain flag for good and resubmits the whole queue oldest first, leaving it empty |
| Analytics.AnalyticTool.NetworkStatusChanged | QSEventAnalytics/QSEventAnalytics/EventAnalytics/AnalyticTool.swift:310-322 | a reachable network has exactly the effect of a drain; any other status changes nothing |
| Analytics.AnalyticTool.AppWillEnterForeground | QSEventAnalytics/QSEventAnalytics/EventAnalytics/AnalyticTool.swift:266-274 | records exactly one app-in "app_foreground"/"进入-【前台】" event belonging to the current page code, and changes nothing else |
| Analytics.AnalyticTool.AppDidEnterBackground | QSEventAnalytics/QSEventAnalytics/EventAnalytics/AnalyticTool.swift:277-285 | records exactly one app-out event under the foreground code "app_foreground" with name "进入-【后台】" |
| Analytics.AnalyticTool.DidBecomeActive | QSEventAnalytics/QSEventAnalytics/EventAnalytics/AnalyticTool.swift:288-296 | records exactly one state event "app_become_active"/"进入-活跃状态" |
| Analytics.AnalyticTool.WillResignActive | QSEventAnalytics/QSEventAnalytics/EventAnalytics/AnalyticTool.swift:299-307 | records exactly one state event "app_resign_active"/"进入-非活跃状态" |
| Scenarios.SessionRotatedBeforeFailure | QSEventAnalytics/QSEventAnalytics/EventAnalytics/AnalyticTool.swift:70-89 | the dictionary the tool posted for a click, read back from its transmission log, carries session s1; the failure arriving after rotation to s2 queues the click under s2 |
| Scenarios.DrainWithOneFailure | QSEventAnalytics/QSEventAnalytics/EventAnalytics/AnalyticTool.swift:141-166 | draining [a, b] resubmits both before any outcome; a failing again leaves [a] queued |
| Scenarios.DrainRunsPastFailure | QSEventAnalytics/QSEventAnalytics/EventAnalytics/AnalyticTool.swift:132-168 | after a drain in which one resubmission fails, a second reachable signal resends nothing, because the drain flag is never cleared |
| Scenarios.EventBeforeInitializeIsDropped | QSEventAnalytics/QSEventAnalytics/EventAnalytics/AnalyticTool.swift:189 | an event recorded before initialize never waits, is never queued, and leaves nothing to drain |
| Scenarios.EnterLeaveReturn | QSEventAnalytics/QSEventAnalytics/EventAnalytics/AnalyticTool.swift:34-121 | entering home then cart, then returning to a home snapshot, issues home, close home, cart, close cart, home in that order and ends on home |

## Left out

- Network I/O: the Alamofire post and its pretty-printed JSON body are not modelled. The transport's answer is the `delivered` argument of `CompleteRequest`, and what is posted is recorded in the ghost log `transmitted`.
- Foundation's JSON serialisation and `URL(string:)` are not modelled. They are the `serialize` and `isValidUrl` functions of `Platform`. The `[String: Any]` dictionaries are `Json` values.
- The IP-lookup closure's own work is not modelled. Its answer is the `Location` argument of `CompleteRequest`. A closure that never answers leaves its request in `inFlight` for good.
- Concurrency is not modelled: the global dispatch queue, `NSLock`, and the lookup and transport callbacks. Each step is atomic, and answers arrive in any order through the index `i` of `CompleteRequest`.
- Analytics.AnalyticTool.ResendFailedEvents: the hop to the global queue (line 138) and the locking around each pop are one atomic step. In the source, a failure callback that lands while the background loop still runs appends to the queue that loop is emptying, so that record is resubmitted again in the same pass. In the model such a failure always lands after the drain, and the record waits in the queue.
- Analytics.AnalyticTool.AddEvent: the hop of `addEvent` to the global queue (line 60) is taken as immediate. The session id is therefore read when `addEvent` is called, not when the queued block runs (line 70).
- The `[weak self]` captures are not modelled: the tool is a singleton that is never released.
- The singleton accessor `share`, the `NotificationCenter` registrations and the creation of the `NetworkReachabilityManager` are not modelled. The handlers are methods called directly. Reachability statuses other than reachable are `NetworkStatusChanged(false)`.
- The clock is not modelled: `now` is a parameter. Timestamps are integer milliseconds instead of `TimeInterval` doubles.
- Analytics.AnalyticTool.UpdateSessionId: takes the new id as a parameter instead of generating a UUID. The constructor takes the initial id in the same way.
- The bundle version, the device's system string and the `DEBUG` build flag are fields of `Platform`.
- `myPrint` logging is not modelled.
- `FirebaseAnalyticTool.configure` (FirebaseAnalyticTool.swift:16-33) is not modelled: it is SDK configuration and locale parameters.
- The Firebase SDK's `logEvent` call is not modelled. `AddEvent` does not forward events to the Firebase sink; the forwarded name is modelled by `FirebaseNaming.ToolEventName` and `FirebaseNaming.LoggedEventName`.
- FirebaseNaming.LoggedEventName: the 40-character limit is a precondition, as the source's assertion demands. Release builds, in which that assertion is compiled out and longer names reach the SDK, are not modelled.
- Outside writes to the public `currentPageCode` are not modelled.
- A Swift `Character` is taken to be one Unicode scalar. Grapheme clusters of several scalars, which make `String.count` smaller still, are not modelled.
- RequestContent.StripAsWritten: the range conversion is modelled only under the one-scalar-per-`Character` assumption above. `Range(_:in:)` gives nil when the counted range ends inside a two-unit character, and `replacingOccurrences` then searches the whole text; `RemoveInCountedRange` does the same.
- Analytics.AnalyticTool.Valid only states that every waiting request carries a dispatched record, which `CompleteRequest` uses to state that the record it answers was dispatched. That a queued record differs from a dispatched one only in its session id is stated per call, by `CompleteRequest` through `QueuedRecord`, and is not kept as a class invariant.
- RequestContent.EventContent: uses the corrected clean-up `Strip`. The source runs the clean-up as written (`StripAsWritten`), so on a serialisation with characters outside the basic plane its `eventContent` may keep a line feed or a space near the end. `EventContentAsWritten` shows that the two agree on basic-plane text.
- RequestContent.BuildPayload: its `eventContent` parameter, and so every dictionary `CompleteRequest` records in `transmitted`, is built with the corrected clean-up, as stated for `EventContent`.

## Findings

| source | as written | input that shows it | evidently intended | confidence | as-written member | corrected member |
|---|---|---|---|---|---|---|
| QSEventAnalytics/QSEventAnalytics/EventAnalytics/AnalyticTool.swift:256-260 | each replacement searches `NSRange(location: 0, length: jsonString.count)`: a count of characters used as a length in UTF-16 units | extra `["a": "😀😀"]`, serialised as `{\n  "a" : "😀😀"\n}`: each emoji takes two units, so both passes stop two units short of the end and the line feed before `}` survives | remove every space and every line feed from the whole text | medium, not executed | RequestContent.StripAsWrittenKeepsLineFeed | RequestContent.Strip |
