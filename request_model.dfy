/**
  * The event-request aggregate as the front end receives it from the backend:
  * a request made by a user, with the organizers that have shown interest in it.
  */
module RequestModel {
  import opened Common

  /** One organizer's interest in a request (`interestedOrganizers[i]`). */
  datatype Interest = Interest(
    organizerId: string,
    status: string,          // "pending", "accepted" or "rejected"
    proposedBudget: string,  // as typed into the budget box; "" when none
    message: string)

  /** The populated `userId` of a request; the backend may omit either field. */
  datatype Requester = Requester(fullname: Option<string>, email: Option<string>)

  /** An event request (`eventRequests[i]`); `id` is the backend's `_id`. */
  datatype Request = Request(
    id: string,
    eventType: string,
    venue: string,
    date: string,
    budget: int,
    description: string,
    requester: Option<Requester>,
    status: string,
    interestedOrganizers: seq<Interest>)

  /** `request.userId?.fullname || ""`. */
  function RequesterName(r: Request): string
  {
    match r.requester
    case None => ""
    case Some(u) => Or(u.fullname, "")
  }

  /** `request.userId?.email || ""`. */
  function RequesterEmail(r: Request): string
  {
    match r.requester
    case None => ""
    case Some(u) => Or(u.email, "")
  }
}
