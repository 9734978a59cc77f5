/**
  * The requester's "Interested Organizers" page: the requester's own requests
  * with the organizers interested in each, how that list reacts to fetches and
  * to selecting an organizer, and the status badge.
  */
module InterestedOrganizers {
  import opened Common
  import opened Text

  /** One organizer's offer as this page receives it (`event.organizers[i]`). */
  datatype OrganizerOffer = OrganizerOffer(
    organizerId: string,
    fullname: Option<string>,
    contact: Option<string>,
    status: Option<string>,
    proposedBudget: Option<int>,
    message: Option<string>,
    responseDate: Option<int>)

  /**
    * One of the requester's own requests as `event-requests-for-user` returns it.
    * Unlike the organizer's board, this page reads the interested organizers
    * from `organizers`, each with its own name and contact.
    */
  datatype UserRequest = UserRequest(
    id: string,
    eventType: string,
    venue: string,
    date: string,
    budget: int,
    description: string,
    status: Option<string>,
    organizers: seq<OrganizerOffer>)

  /** The outcome of `api.safeGet(".../event-requests-for-user")`: a body (whose list may be missing) or a throw. */
  datatype FetchOutcome = Fetched(eventRequests: Option<seq<UserRequest>>) | FetchThrew(message: Option<string>)

  /** The outcome of the select-organizer PUT: a response with a status code, or a throw. */
  datatype SelectOutcome = SelectResponse(status: int, message: Option<string>) | SelectThrew(message: Option<string>)

  /** What the page renders. */
  datatype View = Spinner | ErrorPanel(text: string) | EmptyState | RequestList(requests: seq<UserRequest>)

  const SelectedAlert := "Organizer selected successfully, and status updated to deal_done."
  const SelectFailedAlert := "An error occurred while selecting the organizer."

  predicate IsSuccessStatus(status: int)
  {
    200 <= status < 300
  }

  // ---------------------------------------------------------------- status badge

  /** `status.replace('_', ' ')`: only the first underscore becomes a space. */
  function ReplaceFirstUnderscore(s: string): (r: string)
    ensures |r| == |s|
  {
    if s == [] then []
    else if s[0] == '_' then [' '] + s[1..]
    else [s[0]] + ReplaceFirstUnderscore(s[1..])
  }

  /** The badge text, `status?.replace('_', ' ').toUpperCase()`; an absent status shows nothing. */
  function StatusLabel(status: Option<string>): string
  {
    match status
    case None => ""
    case Some(s) => ToUpper(ReplaceFirstUnderscore(s))
  }

  /** The colour classes of the badge. */
  function StatusClass(status: Option<string>): string
  {
    if status == Some("pending") then "bg-yellow-100 dark:bg-yellow-900/30 text-yellow-800 dark:text-yellow-300"
    else if status == Some("approved") then "bg-green-100 dark:bg-green-900/30 text-green-800 dark:text-green-300"
    else if status == Some("rejected") then "bg-red-100 dark:bg-red-900/30 text-red-800 dark:text-red-300"
    else if status == Some("deal_done") then "bg-blue-100 dark:bg-blue-900/30 text-blue-800 dark:text-blue-300"
    else DefaultStatusClass
  }

  const DefaultStatusClass := "bg-gray-100 dark:bg-gray-700 text-gray-800 dark:text-gray-300"

  /**
    * The label keeps every character in place, upper-cased, except that the first
    * underscore (if any) becomes a space; later underscores stay.
    */
  lemma {:induction false} ReplaceFirstUnderscoreShape(s: string, k: nat)
    requires k <= |s|
    requires forall i :: 0 <= i < k ==> s[i] != '_'
    requires k == |s| || s[k] == '_'
    ensures ReplaceFirstUnderscore(s) == if k == |s| then s else s[..k] + " " + s[k + 1..]
    decreases k
  {
    if k > 0 {
      ReplaceFirstUnderscoreShape(s[1..], k - 1);
      if k == |s| {
        assert [s[0]] + s[1..] == s;
      } else {
        assert [s[0]] + (s[1..][..k - 1] + " " + s[1..][k..]) == s[..k] + " " + s[k + 1..];
      }
    }
  }

  /** "deal_done" is shown as "DEAL DONE". */
  lemma DealDoneLabel()
    ensures StatusLabel(Some("deal_done")) == "DEAL DONE"
  {
    var s := "deal_done";
    ReplaceFirstUnderscoreShape(s, 4);
    assert ReplaceFirstUnderscore(s) == "deal done" by {
      assert s[..4] == "deal" && s[5..] == "done";
    }
    UpperDealDone();
  }

  /** Upper-casing the label with its space in place. */
  lemma UpperDealDone()
    ensures ToUpper("deal done") == "DEAL DONE"
  {
    var t := "deal done";
    var u := ToUpper(t);
    forall i | 0 <= i < |u|
      ensures u[i] == "DEAL DONE"[i]
    {
      assert u[i] == UpperChar(t[i]);
    }
  }

  /** Only the four known statuses get a colour; every other status gets the grey default. */
  lemma StatusClassDefault(status: Option<string>)
    ensures StatusClass(status) == DefaultStatusClass
        <==> status !in {Some("pending"), Some("approved"), Some("rejected"), Some("deal_done")}
  {
  }

  // ---------------------------------------------------------------- the page

  /** The page's render decision, in the order the component tests it. */
  function Render(loading: bool, error: Option<string>, eventRequests: Option<seq<UserRequest>>): (v: View)
    ensures loading ==> v == Spinner
    ensures !loading && (error.None? || error.value == "") && (eventRequests.None? || eventRequests.value == []) ==> v == EmptyState
    ensures !loading && (error.None? || error.value == "") && eventRequests.Some? && eventRequests.value != [] ==>
              v == RequestList(eventRequests.value)
    ensures v.RequestList? ==> eventRequests.Some? && v.requests == eventRequests.value && v.requests != []
    ensures v.ErrorPanel? <==> !loading && error.Some? && error.value != ""
  {
    if loading then Spinner
    else if error.Some? && error.value != "" then ErrorPanel(error.value)
    else if eventRequests.None? || |eventRequests.value| == 0 then EmptyState
    else RequestList(eventRequests.value)
  }

  /** The state of the `InterestedOrganizers` component. */
  class RequesterView {
    var eventRequests: Option<seq<UserRequest>>
    var loading: bool
    var error: Option<string>

    constructor ()
      ensures Valid() && eventRequests == Some([]) && loading
    {
      eventRequests := Some([]);
      loading := true;
      error := None;
    }

    /** No handler ever stores an error message, so the error panel is never shown. */
    predicate Valid()
      reads this
    {
      error == None
    }

    /** The page as rendered now. */
    function Current(): View
      reads this
    {
      Render(loading, error, eventRequests)
    }

    /** `fetchEventRequests`: a body replaces the list, a throw empties it; loading ends either way. */
    method ApplyFetch(outcome: FetchOutcome)
      requires Valid()
      modifies this
      ensures Valid() && !loading
      ensures outcome.Fetched? ==> eventRequests == outcome.eventRequests
      ensures outcome.FetchThrew? ==> eventRequests == Some([])
      ensures eventRequests.None? || eventRequests.value == [] ==> Current() == EmptyState
    {
      match outcome {
        case Fetched(list) =>
          eventRequests := list;
          error := None;
        case FetchThrew(_) =>
          eventRequests := Some([]);
      }
      loading := false;
    }

    /**
      * `handleSelectOrganizer`: a 2xx answer announces success, refetches and shows
      * the new list; any other answer, a throw, or a refetch that throws leaves the
      * list as it was. The alerts come back in the order they would pop up.
      */
    method HandleSelectOrganizer(eventId: string, organizerId: string, selection: SelectOutcome, refetch: FetchOutcome)
      returns (alerts: seq<string>)
      modifies this`eventRequests
      ensures selection.SelectResponse? && IsSuccessStatus(selection.status) && refetch.Fetched? ==>
                eventRequests == refetch.eventRequests && alerts == [SelectedAlert]
      ensures selection.SelectResponse? && IsSuccessStatus(selection.status) && refetch.FetchThrew? ==>
                alerts == [SelectedAlert, Or(refetch.message, SelectFailedAlert)]
      ensures !(selection.SelectResponse? && IsSuccessStatus(selection.status) && refetch.Fetched?) ==>
                eventRequests == old(eventRequests)
      ensures selection.SelectResponse? && !IsSuccessStatus(selection.status) ==>
                alerts == ["Error: " + Or(selection.message, "Failed to select organizer")]
      ensures selection.SelectThrew? ==>
                alerts == [Or(selection.message, SelectFailedAlert)]
    {
      match selection {
        case SelectResponse(status, message) =>
          if IsSuccessStatus(status) {
            alerts := [SelectedAlert];
            match refetch {
              case Fetched(list) =>
                eventRequests := list;
              case FetchThrew(refetchMessage) =>
                alerts := alerts + [Or(refetchMessage, SelectFailedAlert)];
            }
          } else {
            alerts := ["Error: " + Or(message, "Failed to select organizer")];
          }
        case SelectThrew(message) =>
          alerts := [Or(message, SelectFailedAlert)];
      }
    }
  }
}
