/**
  * The organizer's request board: the list of open event requests, the
  * type filter and free-text search over it, the proposed-budget box of each
  * request, and the local list updates applied after the backend confirms an
  * accept or a reject.
  */
module OrganizerRequests {
  import opened Common
  import opened Text
  import opened RequestModel

  const NoTokenAlert := "No token found. Please log in again."
  const NoOrganizerAlert := "Organizer ID is missing. Please log in again."
  const AcceptedAlert := "Event request accepted successfully"
  const AcceptErrorAlert := "Error accepting event request"
  const RejectedAlert := "Event request rejected successfully"
  const RejectErrorAlert := "Error rejecting event request"
  const FetchFailedAlert := "Failed to fetch event requests. Please try again."

  /** What decoding the stored token gives: no token, a token `jwtDecode` throws on, or its `user.id`. */
  datatype Identity = NoToken | Undecodable | Decoded(organizerId: Option<string>)

  /** The outcome of a PUT: a response (`response.ok`) or a thrown network error. */
  datatype HttpOutcome = Responded(ok: bool) | NetworkError

  /** The outcome of the list fetch: the parsed body, a non-ok response, or a thrown error. */
  datatype FetchOutcome = Loaded(data: seq<Request>) | NotOk | FetchError(message: string)

  /** The decoded token names an organizer (`organizerId` is truthy). */
  predicate HasOrganizer(who: Identity)
  {
    who.Decoded? && who.organizerId.Some? && who.organizerId.value != ""
  }

  // ---------------------------------------------------------------- filter and search

  /** Case-insensitive `includes` of the search term in one field. */
  predicate FieldMatches(field: string, search: string)
  {
    Contains(ToLower(field), ToLower(search))
  }

  predicate MatchesFilter(r: Request, filter: string)
  {
    filter == "" || r.eventType == filter
  }

  predicate MatchesSearch(r: Request, search: string)
  {
    search == ""
    || FieldMatches(r.eventType, search)
    || FieldMatches(r.venue, search)
    || FieldMatches(RequesterName(r), search)
    || FieldMatches(RequesterEmail(r), search)
  }

  /** The per-request predicate of `filteredEventRequests`. */
  predicate Shown(r: Request, filter: string, search: string)
  {
    MatchesFilter(r, filter) && MatchesSearch(r, search)
  }

  /** `filteredEventRequests`: the requests passing both the type filter and the search, in list order. */
  function FilteredRequests(rs: seq<Request>, filter: string, search: string): (v: seq<Request>)
    ensures forall r :: r in v <==> r in rs && MatchesFilter(r, filter) && MatchesSearch(r, search)
    ensures IsSubsequence(v, rs)
  {
    Filter(rs, r => Shown(r, filter, search))
  }

  /** With no filter and no search term the board shows the whole list unchanged. */
  lemma NoCriteriaShowsAll(rs: seq<Request>)
    ensures FilteredRequests(rs, "", "") == rs
  {
    FilterAll(rs, r => Shown(r, "", ""));
  }

  /** A requester without a name (or e-mail) contributes "" and so never matches a non-empty search. */
  lemma MissingRequesterFieldNeverMatches(r: Request, search: string)
    requires search != ""
    ensures (r.requester.None? || r.requester.value.fullname.None?) ==> !FieldMatches(RequesterName(r), search)
    ensures (r.requester.None? || r.requester.value.email.None?) ==> !FieldMatches(RequesterEmail(r), search)
  {
    assert |ToLower(search)| > 0;
  }

  /** A field containing the search term (after lower-casing both) makes the request match it. */
  lemma VenueHitMatches(r: Request, search: string, k: nat)
    requires k + |search| <= |r.venue|
    requires ToLower(r.venue)[k..k + |search|] == ToLower(search)
    ensures MatchesSearch(r, search)
  {
    ContainsAt(ToLower(r.venue), ToLower(search), k);
  }

  // ---------------------------------------------------------------- accept

  function AcceptInterest(org: Interest, organizerId: string, budget: string): Interest
  {
    if org.organizerId == organizerId then org.(status := "accepted", proposedBudget := budget) else org
  }

  function AcceptRequest(r: Request, eventId: string, organizerId: string, budget: string): Request
  {
    if r.id == eventId then
      r.(status := "deal_done",
         interestedOrganizers := seq(|r.interestedOrganizers|, j requires 0 <= j < |r.interestedOrganizers| =>
                                       AcceptInterest(r.interestedOrganizers[j], organizerId, budget)))
    else r
  }

  /** The list updater passed to `setEventRequests` after a successful accept. */
  function AcceptUpdate(rs: seq<Request>, eventId: string, organizerId: string, budget: string): seq<Request>
  {
    seq(|rs|, i requires 0 <= i < |rs| => AcceptRequest(rs[i], eventId, organizerId, budget))
  }

  /**
    * Accept changes only the request with the given id: it becomes "deal_done",
    * and of its interests only the caller's become "accepted" with the submitted
    * budget; length, order, other requests and other organizers' entries stay.
    */
  lemma AcceptUpdateEffect(rs: seq<Request>, eventId: string, organizerId: string, budget: string)
    ensures var out := AcceptUpdate(rs, eventId, organizerId, budget);
      && |out| == |rs|
      && (forall i :: 0 <= i < |rs| && rs[i].id != eventId ==> out[i] == rs[i])
      && (forall i :: 0 <= i < |rs| && rs[i].id == eventId ==>
            && out[i] == rs[i].(status := "deal_done", interestedOrganizers := out[i].interestedOrganizers)
            && |out[i].interestedOrganizers| == |rs[i].interestedOrganizers|
            && (forall j :: 0 <= j < |rs[i].interestedOrganizers| ==>
                  var before, after := rs[i].interestedOrganizers[j], out[i].interestedOrganizers[j];
                  if before.organizerId == organizerId
                  then after == before.(status := "accepted", proposedBudget := budget)
                  else after == before))
  {
  }

  /** An organizer without an interest entry gets none from an accept: the entry list is untouched. */
  lemma AcceptAddsNoEntry(r: Request, eventId: string, organizerId: string, budget: string)
    requires forall j :: 0 <= j < |r.interestedOrganizers| ==> r.interestedOrganizers[j].organizerId != organizerId
    ensures AcceptRequest(r, eventId, organizerId, budget).interestedOrganizers == r.interestedOrganizers
  {
  }

  /** Applying the accept updater twice with the same arguments is the same as applying it once. */
  lemma AcceptIdempotent(rs: seq<Request>, eventId: string, organizerId: string, budget: string)
    ensures AcceptUpdate(AcceptUpdate(rs, eventId, organizerId, budget), eventId, organizerId, budget)
         == AcceptUpdate(rs, eventId, organizerId, budget)
  {
    var once := AcceptUpdate(rs, eventId, organizerId, budget);
    var twice := AcceptUpdate(once, eventId, organizerId, budget);
    forall i | 0 <= i < |rs| ensures twice[i] == once[i] {
      if rs[i].id == eventId {
        var a := once[i].interestedOrganizers;
        assert twice[i].interestedOrganizers == a;
      }
    }
  }

  // ---------------------------------------------------------------- reject

  function RejectInterest(org: Interest, organizerId: string): Interest
  {
    if org.organizerId == organizerId then org.(status := "rejected") else org
  }

  function RejectRequest(r: Request, eventId: string, organizerId: string): Request
  {
    if r.id == eventId then
      r.(status := "open",
         interestedOrganizers := seq(|r.interestedOrganizers|, j requires 0 <= j < |r.interestedOrganizers| =>
                                       RejectInterest(r.interestedOrganizers[j], organizerId)))
    else r
  }

  function RejectPatch(rs: seq<Request>, eventId: string, organizerId: string): seq<Request>
  {
    seq(|rs|, i requires 0 <= i < |rs| => RejectRequest(rs[i], eventId, organizerId))
  }

  /** The list updater passed to `setEventRequests` after a successful reject: patch, then drop. */
  function RejectUpdate(rs: seq<Request>, eventId: string, organizerId: string): seq<Request>
  {
    Filter(RejectPatch(rs, eventId, organizerId), (r: Request) => r.id != eventId)
  }

  /**
    * The patch step of the reject updater is dead: the patched request is the one
    * the filter drops, so the update is plain removal of that id.
    */
  lemma {:induction false} RejectIsRemoval(rs: seq<Request>, eventId: string, organizerId: string)
    ensures RejectUpdate(rs, eventId, organizerId) == Filter(rs, (r: Request) => r.id != eventId)
    decreases |rs|
  {
    if rs != [] {
      var patched := RejectPatch(rs, eventId, organizerId);
      assert patched[1..] == RejectPatch(rs[1..], eventId, organizerId);
      assert patched[0].id == rs[0].id;
      assert patched[0].id != eventId ==> patched[0] == rs[0];
      RejectIsRemoval(rs[1..], eventId, organizerId);
    }
  }

  /** After a reject no request has the rejected id; every other request is kept, unchanged and in order. */
  lemma RejectEffect(rs: seq<Request>, eventId: string, organizerId: string)
    ensures var out := RejectUpdate(rs, eventId, organizerId);
      && (forall r :: r in out ==> r.id != eventId)
      && (forall r :: r in rs && r.id != eventId ==> r in out)
      && IsSubsequence(out, rs)
  {
    RejectIsRemoval(rs, eventId, organizerId);
  }

  // ---------------------------------------------------------------- the component

  /** The state of the organizer's `EventRequest` component. */
  class RequestBoard {
    var eventRequests: seq<Request>
    var filter: string
    var searchTerm: string
    var loading: bool
    var proposedBudget: map<string, string>

    constructor ()
      ensures eventRequests == [] && filter == "" && searchTerm == ""
      ensures loading && proposedBudget == map[]
    {
      eventRequests := [];
      filter := "";
      searchTerm := "";
      loading := true;
      proposedBudget := map[];
    }

    /** The requests on screen. */
    function Visible(): seq<Request>
      reads this
    {
      FilteredRequests(eventRequests, filter, searchTerm)
    }

    /** `handleFilterChange`; the new filter also triggers a refetch (see `ApplyFetch`). */
    method HandleFilterChange(value: string)
      modifies this`filter
      ensures filter == value
    {
      filter := value;
    }

    /** `handleSearchChange`. */
    method HandleSearchChange(value: string)
      modifies this`searchTerm
      ensures searchTerm == value
    {
      searchTerm := value;
    }

    /** The end of `fetchEventRequests`: an ok body replaces the list, anything else only alerts. */
    method ApplyFetch(outcome: FetchOutcome) returns (alert: Option<string>)
      modifies this`eventRequests, this`loading
      ensures !loading
      ensures outcome.Loaded? ==> eventRequests == outcome.data && alert == None
      ensures outcome.NotOk? ==> eventRequests == old(eventRequests) && alert == Some(FetchFailedAlert)
      ensures outcome.FetchError? ==> eventRequests == old(eventRequests)
                                      && alert == Some("Error fetching event requests: " + outcome.message)
    {
      loading := true;
      match outcome {
        case Loaded(data) =>
          eventRequests := data;
          alert := None;
        case NotOk =>
          alert := Some(FetchFailedAlert);
        case FetchError(message) =>
          alert := Some("Error fetching event requests: " + message);
      }
      loading := false;
    }

    /** `handleProposedBudgetChange`: set one key of the budget map. */
    method HandleProposedBudgetChange(eventId: string, value: string)
      modifies this`proposedBudget
      ensures proposedBudget == old(proposedBudget)[eventId := value]
      ensures BudgetFor(eventId) == value
      ensures forall other :: other != eventId ==> BudgetFor(other) == old(BudgetFor(other))
    {
      proposedBudget := proposedBudget[eventId := value];
    }

    /** `proposedBudget[request._id] || ""`: what the Accept button submits for a request. */
    function BudgetFor(eventId: string): (b: string)
      reads this
      ensures eventId !in proposedBudget ==> b == ""
      ensures eventId in proposedBudget ==> b == proposedBudget[eventId]
    {
      Or(if eventId in proposedBudget then Some(proposedBudget[eventId]) else None, "")
    }

    /** `handleAccept(eventId, proposedBudget)`: guards, the PUT's outcome, then the local update. */
    method HandleAccept(eventId: string, budget: string, who: Identity, response: HttpOutcome)
      returns (alert: string)
      modifies this`eventRequests
      ensures HasOrganizer(who) && response == Responded(true) ==>
                eventRequests == AcceptUpdate(old(eventRequests), eventId, who.organizerId.value, budget)
                && alert == AcceptedAlert
      ensures !(HasOrganizer(who) && response == Responded(true)) ==> eventRequests == old(eventRequests)
      ensures who.NoToken? ==> alert == NoTokenAlert
      ensures who.Decoded? && !HasOrganizer(who) ==> alert == NoOrganizerAlert
      ensures who.Undecodable? || (HasOrganizer(who) && response != Responded(true)) ==> alert == AcceptErrorAlert
    {
      match who
      case NoToken =>
        return NoTokenAlert;
      case Undecodable =>
        return AcceptErrorAlert;
      case Decoded(organizerId) =>
        if organizerId.None? || organizerId.value == "" {
          return NoOrganizerAlert;
        }
        if response == Responded(true) {
          eventRequests := AcceptUpdate(eventRequests, eventId, organizerId.value, budget);
          alert := AcceptedAlert;
        } else {
          alert := AcceptErrorAlert;
        }
    }

    /** The Accept button: submits the budget stored for that request. */
    method AcceptClicked(eventId: string, who: Identity, response: HttpOutcome) returns (alert: string)
      modifies this`eventRequests
      ensures HasOrganizer(who) && response == Responded(true) ==>
                eventRequests == AcceptUpdate(old(eventRequests), eventId, who.organizerId.value, BudgetFor(eventId))
      ensures !(HasOrganizer(who) && response == Responded(true)) ==> eventRequests == old(eventRequests)
    {
      alert := HandleAccept(eventId, BudgetFor(eventId), who, response);
    }

    /** `handleReject(eventId)`: guards, the PUT's outcome, then the local update. */
    method HandleReject(eventId: string, who: Identity, response: HttpOutcome) returns (alert: string)
      modifies this`eventRequests
      ensures HasOrganizer(who) && response == Responded(true) ==>
                eventRequests == RejectUpdate(old(eventRequests), eventId, who.organizerId.value)
                && alert == RejectedAlert
      ensures !(HasOrganizer(who) && response == Responded(true)) ==> eventRequests == old(eventRequests)
      ensures who.NoToken? ==> alert == NoTokenAlert
      ensures who.Decoded? && !HasOrganizer(who) ==> alert == NoOrganizerAlert
      ensures who.Undecodable? || (HasOrganizer(who) && response != Responded(true)) ==> alert == RejectErrorAlert
    {
      match who
      case NoToken =>
        return NoTokenAlert;
      case Undecodable =>
        return RejectErrorAlert;
      case Decoded(organizerId) =>
        if organizerId.None? || organizerId.value == "" {
          return NoOrganizerAlert;
        }
        if response == Responded(true) {
          eventRequests := RejectUpdate(eventRequests, eventId, organizerId.value);
          alert := RejectedAlert;
        } else {
          alert := RejectErrorAlert;
        }
    }
  }
}
