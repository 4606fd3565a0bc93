/** client/src/redux/actions/ticketActions.js: the permission check, the
    action creators and the thunks' decisions. A thunk is modelled by what one
    run of it does: whether it sends its request, the actions it dispatches in
    order, and whether it throws to its caller. The server's answer to the
    request is a parameter. */
module TicketActions {
  import opened Common
  import opened TicketReducer
  import AuthReducer

  /** The answer to a request: the response data, or a rejection carrying
      `err.response?.data?.error` and `err.message`. */
  datatype Reply<T> = Answered(data: T) | Failed(serverError: Option<string>, message: string)

  /** What one run of a thunk does. */
  datatype Run = Run(requested: bool, dispatched: seq<Action>, threw: bool)

  const NotAuthorized := "Not authorized to view this ticket"
  const OnlyAdmins := "Only admins can update ticket status"

  /** The message of the TypeError thrown when `user.role` is read while no user
      is logged in. */
  const NoUserRole := "Cannot read properties of null (reading 'role')"

  /** The message of the TypeError thrown when `createdBy._id` is read on a
      ticket whose `createdBy` is `null`. */
  const NoCreatorId := "Cannot read properties of null (reading '_id')"

  /** `checkPermission(user, ticketUserId)`: no user, no access; otherwise an
      admin, or the user whose `_id` is the ticket owner's. */
  function CheckPermission(user: Option<AuthReducer.AuthUser>, ticketUserId: Id): (ok: bool)
    ensures user.None? ==> !ok
    ensures user.Some? && user.value.role == Some(AdminRole) ==> ok
    ensures user.Some? && user.value.objectId == Some(ticketUserId) ==> ok
    ensures ok ==> user.Some? && (user.value.role == Some(AdminRole) || user.value.objectId == Some(ticketUserId))
  {
    match user
    case None => false
    case Some(u) => u.role == Some(AdminRole) || u.objectId == Some(ticketUserId)
  }

  /** `err.response?.data?.error || err.message || fallback`. */
  function ErrorText(serverError: Option<string>, message: string, fallback: string): (t: string)
    ensures Truthy(serverError) ==> t == serverError.value
    ensures !Truthy(serverError) && message != "" ==> t == message
    ensures !Truthy(serverError) && message == "" ==> t == fallback
  {
    OrElse(serverError, if message != "" then message else fallback)
  }

  /** `getTickets`: dispatches GET_TICKETS with the fetched list. */
  function GetTicketsRun(reply: Reply<seq<Ticket>>): (r: Run)
    ensures r.requested
    ensures reply.Answered? ==> r.dispatched == [GetTickets(reply.data)] && !r.threw
    ensures reply.Failed? ==>
              r.dispatched == [TicketError(OrElse(reply.serverError, "Error fetching tickets"))] && r.threw
  {
    match reply
    case Answered(ts) => Run(true, [GetTickets(ts)], false)
    case Failed(e, _) => Run(true, [TicketError(OrElse(e, "Error fetching tickets"))], true)
  }

  /** `getTicket`: fetches first, then dispatches GET_TICKET only when the
      ticket has a creator and the permission check on it passes. A ticket
      whose creator is `null` makes reading `createdBy._id` throw a TypeError,
      whose message is dispatched before it is rethrown. */
  function GetTicketRun(user: Option<AuthReducer.AuthUser>, reply: Reply<Ticket>): (r: Run)
    ensures r.requested
    ensures (exists t :: r.dispatched == [GetTicket(t)]) <==>
              reply.Answered? && reply.data.createdBy.Some? && CheckPermission(user, reply.data.createdBy.value)
    ensures reply.Answered? && reply.data.createdBy.None? ==>
              r.dispatched == [TicketError(NoCreatorId)] && r.threw
    ensures reply.Answered? && reply.data.createdBy.Some? && CheckPermission(user, reply.data.createdBy.value) ==>
              r.dispatched == [GetTicket(reply.data)] && !r.threw
    ensures reply.Answered? && reply.data.createdBy.Some? && !CheckPermission(user, reply.data.createdBy.value) ==>
              r.dispatched == [TicketError(NotAuthorized)] && r.threw
    ensures reply.Failed? ==>
              r.dispatched == [TicketError(ErrorText(reply.serverError, reply.message, "Error fetching ticket"))]
              && r.threw
  {
    match reply
    case Answered(t) =>
      if t.createdBy.None? then Run(true, [TicketError(NoCreatorId)], true)
      else if !CheckPermission(user, t.createdBy.value) then Run(true, [TicketError(NotAuthorized)], true)
      else Run(true, [GetTicket(t)], false)
    case Failed(e, m) => Run(true, [TicketError(ErrorText(e, m, "Error fetching ticket"))], true)
  }

  /** `createTicket`: dispatches CREATE_TICKET with the created ticket. */
  function CreateTicketRun(reply: Reply<Ticket>): (r: Run)
    ensures r.requested
    ensures reply.Answered? ==> r.dispatched == [CreateTicket(reply.data)] && !r.threw
    ensures reply.Failed? ==>
              r.dispatched == [TicketError(OrElse(reply.serverError, "Error creating ticket"))] && r.threw
  {
    match reply
    case Answered(t) => Run(true, [CreateTicket(t)], false)
    case Failed(e, _) => Run(true, [TicketError(OrElse(e, "Error creating ticket"))], true)
  }

  /** `updateTicketStatus`: a caller who is not an admin sends nothing; the
      guard's error is dispatched and rethrown. On success the status the
      server answered with is dispatched for `ticketId`. `reply` is the answer
      to the PATCH, when it is sent; its data is the returned ticket's status. */
  function UpdateTicketStatusRun(ticketId: Id, user: Option<AuthReducer.AuthUser>,
                                 reply: Reply<string>): (r: Run)
    ensures r.requested <==> user.Some? && user.value.role == Some(AdminRole)
    ensures user.None? ==> r == Run(false, [TicketError(NoUserRole)], true)
    ensures user.Some? && user.value.role != Some(AdminRole) ==> r == Run(false, [TicketError(OnlyAdmins)], true)
    ensures r.requested && reply.Answered? ==>
              r.dispatched == [UpdateTicketStatus(ticketId, reply.data)] && !r.threw
    ensures r.requested && reply.Failed? ==>
              r.dispatched == [TicketError(ErrorText(reply.serverError, reply.message,
                                                      "Error updating ticket status"))] && r.threw
  {
    match user
    case None => Run(false, [TicketError(NoUserRole)], true)
    case Some(u) =>
      if u.role != Some(AdminRole) then Run(false, [TicketError(OnlyAdmins)], true)
      else match reply
        case Answered(status) => Run(true, [UpdateTicketStatus(ticketId, status)], false)
        case Failed(e, m) => Run(true, [TicketError(ErrorText(e, m, "Error updating ticket status"))], true)
  }

  /** `deleteTicket`: dispatches DELETE_TICKET on success; on failure it
      dispatches the error and, unlike the other thunks, does not throw. */
  function DeleteTicketRun(ticketId: Id, reply: Reply<()>): (r: Run)
    ensures r.requested && !r.threw
    ensures reply.Answered? ==> r.dispatched == [DeleteTicket(ticketId)]
    ensures reply.Failed? ==> r.dispatched == [TicketError(OrElse(reply.serverError, "Error deleting ticket"))]
  {
    match reply
    case Answered(_) => Run(true, [DeleteTicket(ticketId)], false)
    case Failed(e, _) => Run(true, [TicketError(OrElse(e, "Error deleting ticket"))], false)
  }

  /** `setTicketFilter(status)`. */
  function SetFilter(status: string): (a: Action)
    ensures a.SetTicketFilter? && a.filter == status
  {
    SetTicketFilter(status)
  }

  /** `setTicketSearch(searchTerm)`. */
  function SetSearch(searchTerm: string): (a: Action)
    ensures a.SetTicketSearch? && a.searchTerm == searchTerm
  {
    SetTicketSearch(searchTerm)
  }

  /** A status update by anyone but an admin leaves the ticket list as it was
      and records the refusal. */
  lemma NonAdminUpdateKeepsTickets(s: State, ticketId: Id, user: Option<AuthReducer.AuthUser>, reply: Reply<string>)
    requires user.None? || user.value.role != Some(AdminRole)
    ensures var s' := ReduceAll(s, UpdateTicketStatusRun(ticketId, user, reply).dispatched);
      s'.tickets == s.tickets && s'.error.Some? && !s'.loading
  {
    var run := UpdateTicketStatusRun(ticketId, user, reply);
    assert run.dispatched[1..] == [];
  }

  /** The list that getTickets fetches never reaches the store: the reducer
      ignores GET_TICKETS. */
  lemma FetchedTicketsNeverStored(s: State, ts: seq<Ticket>)
    ensures ReduceAll(s, GetTicketsRun(Answered(ts)).dispatched) == s
  {
    var run := GetTicketsRun(Answered(ts));
    assert run.dispatched[1..] == [];
  }

  /** A user object that came from a signup or login answer has no `_id`, so
      for it the permission check is the admin check alone. */
  lemma PermissionWithoutObjectId(user: AuthReducer.AuthUser, ticketUserId: Id)
    requires user.objectId.None?
    ensures CheckPermission(Some(user), ticketUserId) <==> user.role == Some(AdminRole)
  {
  }
}
