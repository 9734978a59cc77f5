# Event-management front end: a verified model of its list, form and counter logic

This project models, in Dafny, the logic that sits inside the React components
of an event-management front end. Organizers browse event requests and accept or
reject them. Requesters file requests and pick an interested organizer.
Organizers create events. Users book seats and sign in. A navigation bar tracks
connectivity. The model leaves out rendering and REST calls: a network response
is an input value (a datatype of the outcomes the code distinguishes), and the
component state is a class whose methods make the same updates the handlers make.

Modules (one file each):

- `Common` (common.dfy): `Option`; JavaScript's `s || fallback` on strings (`Or`); `Array.prototype.filter` (`Filter`); one conditional assignment into an error object (`Record`).
- `Text` (text.dfy): the string built-ins the components call. It covers ASCII `toLowerCase`/`toUpperCase`, `includes`, `startsWith`, `split`/`join` on one character, `trim` and `repeat`. It also has decimal rendering and parsing of integers, which stand in for `String(n)` and `parseFloat`/`parseInt`.
- `RequestModel` (request_model.dfy): the event request as the organizer's board receives it, with its requester and its interested organizers.
- `OrganizerRequests` (organizer_requests.dfy): the organizer's request board. It covers the filter and search predicate, the accept and reject list updates, the proposed-budget map, and the board state (`RequestBoard`).
- `RequestForm` (request_form.dfy): the requester's request form. It covers per-field validation, editing, submitting and opening/closing the dialog (`EventRequestForm`).
- `InterestedOrganizers` (interested_organizers.dfy): the requester's list of requests with interested organizers. It has its own record of a request with its organizers' offers, because that endpoint returns a different shape from the organizer's board. It covers the fetch and select-organizer transitions, the status badge and the render decision (`RequesterView`).
- `CreateEvent` (create_event.dfy): the category tree and its picker prefix and indentation, the ordered submit checks, the event body with parsed tags, and the page state (`CreateEventPage`).
- `ConnectionStatus` (connection_status.dfy): the connectivity alert.
- `NavBar` (navbar.dfy): the bounded reconnect counter (`ConnectionMonitor`, with a pure `Step`/`Replay` reference), links by role, the dashboard-path test, avatar initials and logout.
- `Booking` (booking.dfy): seats left, the amount due, the seat clamp, first-failure validation, the disabled pay button and starting a payment (`BookingForm`).
- `LoginSignup` (login_signup.dfy): validation per tab, the role redirect, and the login and signup outcomes (`LoginSignupPage`).
- `OrganizerOverview` (organizer_overview.dfy): counts, attendee and revenue totals, the chart of events from now on (a stable sort by date, proved sorted, a permutation and stable), and the next-event card.

Conventions:

- Times are integer timestamps, and "now" is a parameter.
- A date that `new Date(...)` cannot read is `None`. Every comparison with it is false, as with `NaN`.
- Money is a whole number.
- An error object maps a field datatype to its message.

## Model

| member | source | states |
|---|---|---|
| OrganizerRequests.FilteredRequests | src/Pages/Landing/Organizer/EventRequest.jsx:59-68 | a request is shown iff (the filter is empty or equals its type) and (the search is empty or occurs, case-insensitively, in type, venue, requester name or email); the result is an order-preserving sublist |
| OrganizerRequests.NoCriteriaShowsAll | src/Pages/Landing/Organizer/EventRequest.jsx:59-68 | with empty filter and empty search the list is returned unchanged |
| OrganizerRequests.MissingRequesterFieldNeverMatches | src/Pages/Landing/Organizer/EventRequest.jsx:64-65 | a missing requester name or e-mail is read as "" and never matches a non-empty search |
| OrganizerRequests.VenueHitMatches | src/Pages/Landing/Organizer/EventRequest.jsx:63 | a search term found at some offset of the lower-cased venue makes the request match |
| OrganizerRequests.AcceptUpdateEffect | src/Pages/Landing/Organizer/EventRequest.jsx:103-117 | after accept: same length and order; only the request with that id becomes "deal_done", and only its entries of the calling organizer become "accepted" with the submitted budget; all else unchanged |
| OrganizerRequests.AcceptAddsNoEntry | src/Pages/Landing/Organizer/EventRequest.jsx:109-113 | accept never adds an interest entry: an organizer without one still has none |
| OrganizerRequests.AcceptIdempotent | src/Pages/Landing/Organizer/EventRequest.jsx:103-117 | applying the accept update twice with the same arguments equals applying it once |
| OrganizerRequests.RejectIsRemoval | src/Pages/Landing/Organizer/EventRequest.jsx:157-173 | the reject update (patch, then filter out the id) equals removing the requests with that id |
| OrganizerRequests.RejectEffect | src/Pages/Landing/Organizer/EventRequest.jsx:157-173 | after reject no request has that id, and every other request is kept unchanged and in order |
| OrganizerRequests.RequestBoard.constructor | src/Pages/Landing/Organizer/EventRequest.jsx:7-11 | empty list, filter and search, loading, empty budget map |
| OrganizerRequests.RequestBoard.HandleFilterChange | src/Pages/Landing/Organizer/EventRequest.jsx:50-52 | only the filter changes |
| OrganizerRequests.RequestBoard.HandleSearchChange | src/Pages/Landing/Organizer/EventRequest.jsx:54-56 | only the search term changes |
| OrganizerRequests.RequestBoard.ApplyFetch | src/Pages/Landing/Organizer/EventRequest.jsx:21-45 | an ok body replaces the list; a non-ok answer or a throw keeps it and alerts with the source's texts; loading ends |
| OrganizerRequests.RequestBoard.HandleProposedBudgetChange | src/Pages/Landing/Organizer/EventRequest.jsx:13-18 | sets key eventId to the value; every other key's budget is unchanged |
| OrganizerRequests.RequestBoard.BudgetFor | src/Pages/Landing/Organizer/EventRequest.jsx:343 | the stored budget of a request, or "" when none is stored |
| OrganizerRequests.RequestBoard.HandleAccept | src/Pages/Landing/Organizer/EventRequest.jsx:70-126 | the list changes (by the accept update) only with an organizer id and an ok response; a missing token, a missing organizer id, a non-ok answer or a throw keep it and give the matching alert |
| OrganizerRequests.RequestBoard.AcceptClicked | src/Pages/Landing/Organizer/EventRequest.jsx:358 | the Accept button submits the stored budget, or "" when absent |
| OrganizerRequests.RequestBoard.HandleReject | src/Pages/Landing/Organizer/EventRequest.jsx:128-182 | the list changes (by the reject update) only with an organizer id and an ok response; otherwise it is kept and the matching alert is given |
| RequestForm.ValidationErrorsComplete | src/Pages/Landing/User/EventRequest.jsx:33-48 | every field is checked independently: each failing field has its own message in the error object and no passing field has an entry |
| RequestForm.ValidationErrorsEmptyIff | src/Pages/Landing/User/EventRequest.jsx:50 | the error object is empty iff no field fails |
| RequestForm.BudgetErrorCases | src/Pages/Landing/User/EventRequest.jsx:40-43 | empty budget: "Budget is required"; not a number or at most 0: "Please enter a valid budget amount"; no entry iff it reads as a positive number |
| RequestForm.BudgetOfRenderedNumber | src/Pages/Landing/User/EventRequest.jsx:40-43 | a budget typed as the decimal form of n passes iff n > 0 |
| RequestForm.DescriptionErrorCases | src/Pages/Landing/User/EventRequest.jsx:38-39 | empty description is required, 1 to 9 characters is too short (untrimmed), 10 or more pass; a non-empty venue or date always passes |
| RequestForm.WeddingRequestValid | src/Pages/Landing/User/EventRequest.jsx:37-47 | a complete form with budget "500" and a 17-character description is valid |
| RequestForm.NegativeBudgetRejected | src/Pages/Landing/User/EventRequest.jsx:41-42 | budget "-10" gets "Please enter a valid budget amount" |
| RequestForm.EventRequestForm.constructor | src/Pages/Landing/User/EventRequest.jsx:18-31 | initial form, not loading, empty message and errors, closed |
| RequestForm.EventRequestForm.ValidateForm | src/Pages/Landing/User/EventRequest.jsx:33-51 | stores the error object of all failing fields and returns true iff it is empty, iff the form is valid |
| RequestForm.EventRequestForm.HandleChange | src/Pages/Landing/User/EventRequest.jsx:53-59 | only that field changes; only that field's error is blanked, and only if one was shown |
| RequestForm.EventRequestForm.HandleSubmit | src/Pages/Landing/User/EventRequest.jsx:61-102 | an invalid form sends nothing and shows "Please fix form errors"; a valid one is sent as exactly its five fields, the budget parsed as a decimal number; success resets the form with the server's or the default message; a throw keeps the form and shows the server message or "Failed to submit request"; loading ends |
| RequestForm.EventRequestForm.OpenForm | src/Pages/Landing/User/EventRequest.jsx:104-108 | opens the dialog and clears message and errors |
| RequestForm.EventRequestForm.CloseForm | src/Pages/Landing/User/EventRequest.jsx:110-115 | closes the dialog and resets form data, message and errors |
| InterestedOrganizers.ReplaceFirstUnderscoreShape | src/Pages/Landing/User/IntrestedOrganizers.jsx:61 | `replace('_', ' ')` turns only the first underscore into a space and keeps every other character in place |
| InterestedOrganizers.DealDoneLabel | src/Pages/Landing/User/IntrestedOrganizers.jsx:61 | "deal_done" is labelled "DEAL DONE" |
| InterestedOrganizers.StatusClassDefault | src/Pages/Landing/User/IntrestedOrganizers.jsx:52-60 | the grey default class is used iff the status is not pending, approved, rejected or deal_done |
| InterestedOrganizers.Render | src/Pages/Landing/User/IntrestedOrganizers.jsx:66-92 | loading shows the spinner; a non-empty error shows the error panel and nothing else does; with no error or an empty one, a missing or empty list shows the empty state and a non-empty list is shown as it is |
| InterestedOrganizers.RequesterView.constructor | src/Pages/Landing/User/IntrestedOrganizers.jsx:6-8 | empty list, loading, no error |
| InterestedOrganizers.RequesterView.ApplyFetch | src/Pages/Landing/User/IntrestedOrganizers.jsx:11-22 | a body sets the list to its eventRequests; a throw sets []; loading ends; an empty or missing list renders the empty state |
| InterestedOrganizers.RequesterView.HandleSelectOrganizer | src/Pages/Landing/User/IntrestedOrganizers.jsx:27-45 | a 2xx answer with a successful refetch replaces the list; a non-2xx answer, a throw or a failing refetch leave it unchanged; the alerts are the source's, in order |
| CreateEvent.ChildrenOf | src/Pages/Landing/Organizer/CreateEvent.jsx:36-40 | the kept categories are exactly the active ones whose parent id is the given id, in input order |
| CreateEvent.RootsAreActiveParentless | src/Pages/Landing/Organizer/CreateEvent.jsx:48-53 | the top level is exactly the active categories without a parent, in input order |
| CreateEvent.ChildrenInInputOrder | src/Pages/Landing/Organizer/CreateEvent.jsx:35-45 | one level of children is exactly the active categories naming the parent, in input order |
| CreateEvent.FindChildrenWellFormed | src/Pages/Landing/Organizer/CreateEvent.jsx:35-45 | every subtree is made of active categories, each child naming its parent's id |
| CreateEvent.OrganizedTreeWellFormed | src/Pages/Landing/Organizer/CreateEvent.jsx:33-54 | the whole tree has parentless roots and no inactive category at any depth |
| CreateEvent.PrefixShape | src/Pages/Landing/Organizer/CreateEvent.jsx:72-77 | for level > 0 the prefix is 2·level spaces, level dashes and a space: 3·level+1 characters |
| CreateEvent.PrefixOfTopLevel | src/Pages/Landing/Organizer/CreateEvent.jsx:73 | level 0 has the empty prefix |
| CreateEvent.IndentationStep | src/Pages/Landing/Organizer/CreateEvent.jsx:69 | the step is min(4·level, 16): never above 16, and 4·level up to level 4 |
| CreateEvent.IndentationStyleCapped | src/Pages/Landing/Organizer/CreateEvent.jsx:68-70 | the class is "ml-" followed by a step of at most 16, and "ml-16" from level 4 on |
| CreateEvent.FirstFailure | src/Pages/Landing/Organizer/CreateEvent.jsx:158-161 | the result is the message of the first check whose condition holds, and there is one iff some condition holds |
| CreateEvent.ValidateEventOrder | src/Pages/Landing/Organizer/CreateEvent.jsx:152-161 | a missing category is reported first, then a deadline not before the event date, then an event date not after now; passing means all three are clear |
| CreateEvent.ValidEventDates | src/Pages/Landing/Organizer/CreateEvent.jsx:152-161 | with readable dates, passing iff a category is chosen, deadline < event date and event date > now |
| CreateEvent.ParseTagsShape | src/Pages/Landing/Organizer/CreateEvent.jsx:175 | an empty tags field gives []; otherwise there are commas+1 tags, each a trimmed comma-free piece |
| CreateEvent.ParseTagsJoin | src/Pages/Landing/Organizer/CreateEvent.jsx:175 | tags typed without whitespace join back (with commas) to the typed text |
| CreateEvent.BuildEventData | src/Pages/Landing/Organizer/CreateEvent.jsx:164-177 | name, description and location are trimmed; tags parsed; category and organizer id copied; public only when the box is checked |
| CreateEvent.FailureTextPrecedence | src/Pages/Landing/Organizer/CreateEvent.jsx:200-207 | the handler's own errors show their own text; the response's error, then its message, then the error's message, then "Failed to create event" |
| CreateEvent.CreateEventPage.constructor | src/Pages/Landing/Organizer/CreateEvent.jsx:58-65 | nothing loaded, no user, no error, dialogs closed |
| CreateEvent.CreateEventPage.ApplyInitialData | src/Pages/Landing/Organizer/CreateEvent.jsx:98-130 | when both requests succeed the user's id is kept and the categories are organized into the picker's tree; a failure keeps the user and tree and shows the load error; loading ends |
| CreateEvent.CreateEventPage.HandleCreateEvent | src/Pages/Landing/Organizer/CreateEvent.jsx:135-211 | no loaded user id: "User data not found" before anything is sent; a failing check: its message, nothing sent; in both cases the form, dialog and pending event stay; otherwise the built body is sent and the outcome applied; loading ends |
| CreateEvent.CreateEventPage.CheckAndPost | src/Pages/Landing/Organizer/CreateEvent.jsx:145-199 | a body is sent iff the ordered checks pass, and it is the built body; a failing check shows its message and changes nothing else |
| CreateEvent.CreateEventPage.ApplyCreateOutcome | src/Pages/Landing/Organizer/CreateEvent.jsx:181-207 | a failed post or image upload shows its error; a created event closes the form and, only if approval is needed, opens the dialog on it; on every other path the dialog and pending event stay |
| CreateEvent.CreateEventPage.HandleDialogClose | src/Pages/Landing/Organizer/CreateEvent.jsx:271-274 | the approval dialog is closed |
| ConnectionStatus.Render | src/components/ConnectionStatus.jsx:12-44 | hidden iff connected; otherwise destructive iff attempts ≥ max, and icon and title agree with the variant; the warning shows "Reconnecting..." with "Attempt n of max" |
| NavBar.StepInRange | src/components/NavBar.jsx:81-91 | one event keeps the counter in 0..3; offline disconnects and adds one only below 3; online reconnects with 0 attempts |
| NavBar.ReplayInRange | src/components/NavBar.jsx:86-91 | no sequence of events pushes the counter past 3 |
| NavBar.OfflineRun | src/components/NavBar.jsx:86-91 | k offline events from the connected state leave min(k, 3) attempts |
| NavBar.OfflineRunFrom | src/components/NavBar.jsx:86-91 | k offline events add k attempts, capped at 3, and leave the bar disconnected when k > 0 |
| NavBar.AlertAfterOfflines | src/components/NavBar.jsx:241 | no alert before going offline; "Reconnecting..." with "Attempt k of 3" after 1 or 2 offline events; "Connection lost" from the third on |
| NavBar.ConnectionMonitor.constructor | src/components/NavBar.jsx:24-26 | connected, no attempts |
| NavBar.ConnectionMonitor.HandleOnline | src/components/NavBar.jsx:81-84 | connected and attempts reset to 0; the alert is hidden |
| NavBar.ConnectionMonitor.HandleOffline | src/components/NavBar.jsx:86-91 | disconnected; attempts go up by one only while below 3; the counter stays in range; an alert is shown |
| NavBar.GetNavigationItems | src/components/NavBar.jsx:108-129 | visitors: Home, Events, Contact, About; a signed-in User: Home, Contact; any other signed-in role: none |
| NavBar.IsDashboardPage | src/components/NavBar.jsx:131-134 | true iff the path starts with "/admindb", "/orgdb" or "/userdb" |
| NavBar.DashboardPaths_Examples | src/components/NavBar.jsx:131-134 | paths under "/orgdb" are dashboard pages; "/", "/event" and "/loginsignup" are not |
| NavBar.InitialsOfWords | src/components/NavBar.jsx:211 | a name of single-space-separated words shows the first letter of each word, in order |
| NavBar.InitialsFallback | src/components/NavBar.jsx:211 | no name, an empty name or a blank name shows "U" |
| NavBar.AfterLogout | src/components/NavBar.jsx:102-106 | logout removes exactly the token and role entries |
| NavBar.LinksAfterLogout | src/components/NavBar.jsx:102-129 | after logout the visitor's links are shown |
| Booking.AvailableSeats | src/components/BookingForm.jsx:35 | total slots minus the attendee count, with missing attendees counting 0 |
| Booking.TotalAmountPerSeat | src/components/BookingForm.jsx:36 | one more seat costs one more price; one seat costs the price; non-negative inputs give a non-negative amount |
| Booking.ClampSeats | src/components/BookingForm.jsx:160 | the stored seat count never exceeds the seats left; an unreadable or zero input counts as 1; an in-range input is kept |
| Booking.ClampKeepsNegative | src/components/BookingForm.jsx:160 | a negative input passes the clamp unchanged (the checks before paying catch it) |
| Booking.EnabledButtonPassesInputChecks | src/components/BookingForm.jsx:118-122 | the pay button is enabled iff not loading, a method is chosen and 1 ≤ seats ≤ seats left |
| Booking.BookingForm.constructor | src/components/BookingForm.jsx:25-31 | one seat, no method, not loading, no messages |
| Booking.BookingForm.ValidateBooking | src/components/BookingForm.jsx:45-55 | the first failure in order: no payment method, seats outside 1..seats left (with the count in the message), missing event id; none iff all pass |
| Booking.BookingForm.HandleInputChange | src/components/BookingForm.jsx:57-63 | only the named field changes and the error is cleared |
| Booking.BookingForm.HandleSeatsInput | src/components/BookingForm.jsx:160 | the seat input stores the clamped count |
| Booking.BookingForm.HandlePayment | src/components/BookingForm.jsx:65-116 | a booking is sent iff the checks pass and a token exists; a missing event id gives "Invalid event selected" and a missing token "Please login to continue booking", both without a call; a payment URL shows the redirect message, none gives "Invalid payment URL received", a throw its message or "Payment initiation failed"; loading ends on every path |
| LoginSignup.ValidationErrorsComplete | src/Pages/LoginSignup.jsx:54-72 | after all assignments each field holds exactly its final message (the mismatch overriding the missing confirmation) |
| LoginSignup.ValidationErrorsEmptyIff | src/Pages/LoginSignup.jsx:73-74 | no errors recorded iff the form is valid for the tab |
| LoginSignup.LoginChecksOnlyCredentials | src/Pages/LoginSignup.jsx:54-72 | on the login tab only e-mail and password are checked |
| LoginSignup.SignupChecksEverything | src/Pages/LoginSignup.jsx:54-72 | on the signup tab every field is required and the passwords must agree |
| LoginSignup.MismatchOverridesMissing | src/Pages/LoginSignup.jsx:61-66 | an empty confirmation with a password reads "Passwords do not match", not "Confirm password is required" |
| LoginSignup.ConfirmMissingWhenBothEmpty | src/Pages/LoginSignup.jsx:58-66 | with both passwords empty nothing mismatches: the confirmation reads "Confirm password is required" and the password "Password is required" |
| LoginSignup.RoleTarget | src/Pages/LoginSignup.jsx:77-92 | only Admin, Organizer and User have a target, and every target is a dashboard page |
| LoginSignup.RoleTargets | src/Pages/LoginSignup.jsx:78-87 | Admin goes to /admindb, Organizer to /orgdb, User to /userdb; "admin" has no target |
| LoginSignup.FailureTextPrecedence | src/Pages/LoginSignup.jsx:116-122 | the server's message, else the error's message, else the fallback |
| LoginSignup.LoginSignupPage.constructor | src/Pages/LoginSignup.jsx:12-27 | login tab, empty form and errors, no alert |
| LoginSignup.LoginSignupPage.HandleInputChange | src/Pages/LoginSignup.jsx:41-52 | only that field changes, only that field's error becomes "", and the alert is hidden |
| LoginSignup.LoginSignupPage.ValidateForm | src/Pages/LoginSignup.jsx:54-75 | stores the tab's error object; true iff it is empty, iff the form is valid for the tab |
| LoginSignup.LoginSignupPage.RedirectBasedOnRole | src/Pages/LoginSignup.jsx:77-92 | a known role navigates to its dashboard; any other shows "Invalid user role" |
| LoginSignup.LoginSignupPage.HandleLogin | src/Pages/LoginSignup.jsx:94-127 | a token and a user: clear the error and redirect by the user's role, a user with a missing or unknown role getting "Invalid user role"; a body lacking the token or the user: "Invalid response from server"; a throw: the message precedence with "Invalid email or password" |
| LoginSignup.LoginSignupPage.HandleSignup | src/Pages/LoginSignup.jsx:129-169 | a created user opens the success dialog, resets all six fields to "" and leaves the alert alone; otherwise the form and the dialog are kept and the matching error is shown in the alert |
| LoginSignup.LoginSignupPage.HandleSubmit | src/Pages/LoginSignup.jsx:171-192 | the errors are recorded per field; a request goes out iff the form is valid for the tab; an invalid form leaves the alert hidden and changes nothing else the handlers touch; a valid one ends with loading off and the page showing the login outcome (redirect, "Invalid user role", "Invalid response from server" or the failure text) or the signup outcome; login never touches the form or the dialog, signup never the redirect |
| LoginSignup.LoginSignupPage.CloseSuccessDialog | src/Pages/LoginSignup.jsx:395-398 | the dialog closes and the login tab is shown |
| OrganizerOverview.CountUpcoming | src/Pages/Landing/Organizer/Overview.jsx:48 | the upcoming count (date strictly after now) is at most the total, and equals it iff every event is upcoming |
| Common.FilterMultiset | src/Pages/Landing/Organizer/Overview.jsx:62 | a filter keeps every occurrence of a value the predicate accepts and no occurrence of one it rejects |
| OrganizerOverview.SumsAppend | src/Pages/Landing/Organizer/Overview.jsx:49-51 | attendee and revenue totals add up over any split of the list |
| OrganizerOverview.SumAttendeesBound | src/Pages/Landing/Organizer/Overview.jsx:49 | each event's attendees (missing as 0) are part of the total |
| OrganizerOverview.UniformPriceRevenue | src/Pages/Landing/Organizer/Overview.jsx:50-51 | with one price for all events, revenue is that price times the attendees |
| OrganizerOverview.ComputeStats | src/Pages/Landing/Organizer/Overview.jsx:47-58 | total events is the list length and upcoming is at most total |
| OrganizerOverview.SortSorted | src/Pages/Landing/Organizer/Overview.jsx:63 | the sort orders by ascending date |
| OrganizerOverview.SortStable | src/Pages/Landing/Organizer/Overview.jsx:63 | events with the same date keep their list order |
| OrganizerOverview.ChartData | src/Pages/Landing/Organizer/Overview.jsx:64-69 | one entry per shown event, in order, with its attendees, revenue and capacity |
| OrganizerOverview.ChartEventsSpec | src/Pages/Landing/Organizer/Overview.jsx:61-63 | the chart holds exactly the events dated from now on (as a multiset), sorted ascending, same-day events in list order |
| OrganizerOverview.NextEventIsEarliest | src/Pages/Landing/Organizer/Overview.jsx:169 | "No events" iff no event is dated from now on; otherwise the earliest such date |
| OrganizerOverview.LoadOverview | src/Pages/Landing/Organizer/Overview.jsx:20-78 | with events the stats are `ComputeStats` and the chart is `ChartData` of them, with no error; on failure the zero stats and empty chart stay and the error is the thrown message or "Failed to load dashboard data" |
| OrganizerOverview.LoadedOverviewConsistent | src/Pages/Landing/Organizer/Overview.jsx:47-69 | on the loaded page the chart has one entry per event dated from now on, upcoming ≤ total = number of events, and the next-event card reads "No events" iff no event is dated from now on |
| Text.SplitJoin | src/components/NavBar.jsx:211 | splitting a space-join of space-free words gives the words back |
| Text.JoinSplit | src/Pages/Landing/Organizer/CreateEvent.jsx:175 | joining the pieces of a split with the same separator gives the text back |
| Text.SplitShape | src/Pages/Landing/Organizer/CreateEvent.jsx:175 | split yields separators+1 pieces, none containing the separator |
| Text.TrimShape | src/Pages/Landing/Organizer/CreateEvent.jsx:165-175 | a trimmed string has no whitespace at either end and only characters of the original |
| Text.TrimIdempotent | src/Pages/Landing/Organizer/CreateEvent.jsx:165-175 | trimming twice equals trimming once |
| Text.ContainsAt | src/Pages/Landing/Organizer/EventRequest.jsx:62-65 | `includes` holds whenever the term occurs at some offset |
| Text.ParseIntToString | src/Pages/Landing/User/EventRequest.jsx:41 | parsing the decimal rendering of an integer gives that integer back |

## Left out

- Network calls: every `fetch`/`api.*` call is an input value holding the outcome the code tests (ok or not, status code, body fields, thrown message). Headers, URLs and request timing are not modelled.
- The admin notification and websocket send after an event that needs approval: the source swallows every failure there, so it has no effect on the modelled state.
- Browser storage and tokens: `localStorage` and JWT decoding become the resulting "token present" and "organizer id present" inputs (`Identity`, `Option` parameters). `NavBar.AfterLogout` models only the two removals.
- CreateEvent: the navigation to the organizer's event list after a creation without approval. A response whose `data` lacks `event` (a TypeError in the source) is not modelled.
- Rendering, styling, icons, charts, the `MMM d` date label (a chart entry keeps the timestamp), timers (`setTimeout` redirects and auto-close), `navigate`/`window.location`, scroll and click-outside listeners.
- Number parsing: `parseFloat`/`isNaN`/`parseInt`/`Number` are read as strict decimal integers (an optional '-' and digits). Fractions, exponents, a leading '+', surrounding whitespace in `isNaN`, and `parseInt`'s acceptance of trailing text are not modelled. The seat input takes `parseInt`'s result as a parameter.
- Text: case mapping and `trim` cover ASCII only. Strings are sequences of characters, not UTF-16 code units.
- Dates: `new Date(...)` is an integer timestamp or an unreadable date. The overview's two calls of `new Date()` are one `now`, and the chart assumes readable event dates.
- CreateEvent.OrganizeCategories: the recursion is cut at depth |categories|. With distinct ids the source always terminates (a parent cycle cannot be reached from a root) and the tree is never deeper, but that bound is not proved. With a duplicate id on a path (an active category whose own id and parent id both equal a root's id) `findChildren` recurses until the stack overflows; the error is caught, "Failed to load initial data. Please try again." is shown and the user id is already stored. The model instead returns the tree cut at that depth, with no error.
- NavBar.ConnectionMonitor.HandleOffline: each handler run is assumed to see the latest count. The effect re-registers the handlers after every change, and two offline events between renders are not modelled.
- Error objects are keyed by a field datatype rather than by the field-name strings.
- The remaining requester-list state (`error`) is never given a message by the source. The error panel is therefore unreachable and `RequesterView.Valid` records that.
