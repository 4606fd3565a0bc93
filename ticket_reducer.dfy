/** client/src/redux/reducers/ticketReducer.js: the client's ticket state and
    its `switch` over action kinds. Every action kind the reducer and the
    ticket thunks name is a constructor of `Action` of its own; `Unrelated`
    stands for every other action that reaches this reducer. */
module TicketReducer {
  import opened Common

  /** A ticket as the client holds it: the fields the client reads
      (`_id`, `subject`, `status`, `user.email`, `createdBy._id`). `userEmail`
      and `createdBy` are `None` when the server's populate found no user and
      sent `null` in its place. */
  datatype Ticket = Ticket(id: Id, subject: string, status: string, userEmail: Option<string>,
                           createdBy: Option<Id>)

  datatype State = State(tickets: seq<Ticket>, loading: bool, error: Option<string>,
                         filter: string, searchTerm: string, currentTicket: Option<Ticket>)

  const Initial: State := State([], false, None, "", "", None)

  datatype Action =
    | FetchTicketsRequest
    | FetchTicketsSuccess(tickets: seq<Ticket>)
    | FetchTicketsFailure(error: string)
    | CreateTicket(ticket: Ticket)
    | GetTickets(tickets: seq<Ticket>)
    | GetTicket(ticket: Ticket)
    | TicketError(error: string)
    | UpdateTicketStatus(ticketId: Id, status: string)
    | DeleteTicket(ticketId: Id)
    | SetTicketFilter(filter: string)
    | SetTicketSearch(searchTerm: string)
    | UpdateTicket(ticket: Ticket)
    | Unrelated

  /** `tickets.map(t => t._id === id ? { ...t, status } : t)`. */
  function WithStatus(tickets: seq<Ticket>, id: Id, status: string): (r: seq<Ticket>)
    ensures |r| == |tickets|
    ensures forall i :: 0 <= i < |tickets| ==>
              r[i] == if tickets[i].id == id then tickets[i].(status := status) else tickets[i]
  {
    seq(|tickets|, i requires 0 <= i < |tickets| =>
      if tickets[i].id == id then tickets[i].(status := status) else tickets[i])
  }

  /** `tickets.filter(t => t._id !== id)`: every copy of every ticket with
      another id stays, in order, and no ticket with the id is left. */
  function Without(tickets: seq<Ticket>, id: Id): (r: seq<Ticket>)
    ensures forall t :: multiset(r)[t] == if t.id != id then multiset(tickets)[t] else 0
    ensures IsSubsequence(r, tickets)
  {
    FilterCount(tickets, (t: Ticket) => t.id != id);
    FilterIsSubsequence(tickets, (t: Ticket) => t.id != id);
    Filter(tickets, (t: Ticket) => t.id != id)
  }

  /** The actions that end a request: each clears `loading`. */
  predicate Settles(a: Action)
  {
    a.FetchTicketsSuccess? || a.CreateTicket? || a.GetTicket? || a.FetchTicketsFailure? ||
    a.TicketError? || a.UpdateTicketStatus? || a.DeleteTicket?
  }

  /** The actions that leave the list, `loading`, `error` and the current
      ticket as they are. */
  predicate Passive(a: Action)
  {
    a.SetTicketFilter? || a.SetTicketSearch? || a.GetTickets? || a.UpdateTicket? || a.Unrelated?
  }

  /** The reducer. A request starts loading and clears the error; each action
      that ends a request stops loading and records its error, or clears it;
      the setters and the actions the reducer ignores touch neither. Only the
      setters change a filter or the search term, only GET_TICKET changes the
      current ticket, and a ticket appears in the list only from a fetched
      list, as the created ticket, or with the status of a status update. */
  function Reduce(s: State, a: Action): (r: State)
    ensures Settles(a) || Passive(a) || a.FetchTicketsRequest?
    ensures a.FetchTicketsRequest? ==> r == s.(loading := true, error := None)
    ensures Settles(a) ==> !r.loading
    ensures Settles(a) ==> r.error == if a.FetchTicketsFailure? || a.TicketError? then Some(a.error) else None
    ensures Passive(a) ==>
              r.tickets == s.tickets && r.loading == s.loading && r.error == s.error && r.currentTicket == s.currentTicket
    ensures !a.SetTicketFilter? ==> r.filter == s.filter
    ensures !a.SetTicketSearch? ==> r.searchTerm == s.searchTerm
    ensures !a.GetTicket? ==> r.currentTicket == s.currentTicket
    ensures forall t :: t in r.tickets ==>
              || (t in s.tickets && !a.FetchTicketsSuccess?)
              || (a.FetchTicketsSuccess? && t in a.tickets)
              || (a.CreateTicket? && t == a.ticket)
              || (a.UpdateTicketStatus? && t.id == a.ticketId && t.status == a.status)
  {
    match a
    case FetchTicketsRequest => s.(loading := true, error := None)
    case FetchTicketsSuccess(ts) => s.(loading := false, tickets := ts, error := None)
    case CreateTicket(t) => s.(tickets := [t] + s.tickets, loading := false, error := None)
    case GetTicket(t) => s.(currentTicket := Some(t), loading := false, error := None)
    case FetchTicketsFailure(e) => s.(loading := false, error := Some(e))
    case TicketError(e) => s.(loading := false, error := Some(e))
    case UpdateTicketStatus(id, status) =>
      s.(tickets := WithStatus(s.tickets, id, status), loading := false, error := None)
    case DeleteTicket(id) => s.(tickets := Without(s.tickets, id), loading := false, error := None)
    case SetTicketFilter(f) => s.(filter := f)
    case SetTicketSearch(term) => s.(searchTerm := term)
    case GetTickets(_) => s
    case UpdateTicket(_) => s
    case Unrelated => s
  }

  /** The reducer applied to a sequence of dispatched actions, in order. */
  function ReduceAll(s: State, actions: seq<Action>): State
    decreases |actions|
  {
    if actions == [] then s else ReduceAll(Reduce(s, actions[0]), actions[1..])
  }

  /** CREATE_TICKET puts the new ticket in front of the old list. */
  lemma CreatePrepends(s: State, t: Ticket)
    ensures var s' := Reduce(s, CreateTicket(t));
      && |s'.tickets| == |s.tickets| + 1 && s'.tickets[0] == t && s'.tickets[1..] == s.tickets
      && !s'.loading && s'.error.None?
      && s'.filter == s.filter && s'.searchTerm == s.searchTerm && s'.currentTicket == s.currentTicket
  {
  }

  /** UPDATE_TICKET_STATUS touches only the status of the matching tickets. */
  lemma UpdateStatusOnlyMatching(s: State, id: Id, status: string)
    ensures var s' := Reduce(s, UpdateTicketStatus(id, status));
      && |s'.tickets| == |s.tickets|
      && (forall i :: 0 <= i < |s.tickets| && s.tickets[i].id == id ==>
            s'.tickets[i] == s.tickets[i].(status := status))
      && (forall i :: 0 <= i < |s.tickets| && s.tickets[i].id != id ==> s'.tickets[i] == s.tickets[i])
      && s'.filter == s.filter && s'.searchTerm == s.searchTerm && s'.currentTicket == s.currentTicket
  {
  }

  /** DELETE_TICKET removes every ticket with the id and keeps every copy of
      the rest, in order. */
  lemma DeleteRemovesId(s: State, id: Id)
    ensures var s' := Reduce(s, DeleteTicket(id));
      && (forall t :: t in s'.tickets <==> t in s.tickets && t.id != id)
      && (forall t: Ticket :: t.id != id ==> multiset(s'.tickets)[t] == multiset(s.tickets)[t])
      && IsSubsequence(s'.tickets, s.tickets)
      && ((forall t :: t in s.tickets ==> t.id != id) ==> s'.tickets == s.tickets)
      && s'.filter == s.filter && s'.searchTerm == s.searchTerm && s'.currentTicket == s.currentTicket
  {
    var keep := (t: Ticket) => t.id != id;
    FilterMembership(s.tickets, keep);
    FilterIsSubsequence(s.tickets, keep);
    if forall t :: t in s.tickets ==> t.id != id {
      FilterAll(s.tickets, keep);
    }
  }

  /** Repeating UPDATE_TICKET_STATUS with the same payload changes nothing more. */
  lemma UpdateStatusIdempotent(s: State, id: Id, status: string)
    ensures Reduce(Reduce(s, UpdateTicketStatus(id, status)), UpdateTicketStatus(id, status))
            == Reduce(s, UpdateTicketStatus(id, status))
  {
    var w := WithStatus(s.tickets, id, status);
    assert WithStatus(w, id, status) == w by {
      forall i | 0 <= i < |w| ensures WithStatus(w, id, status)[i] == w[i] {
        assert w[i].id == s.tickets[i].id;
      }
    }
  }

  /** Repeating DELETE_TICKET with the same id changes nothing more. */
  lemma DeleteIdempotent(s: State, id: Id)
    ensures Reduce(Reduce(s, DeleteTicket(id)), DeleteTicket(id)) == Reduce(s, DeleteTicket(id))
  {
    FilterIdempotent(s.tickets, (t: Ticket) => t.id != id);
  }

  /** GET_TICKET makes the payload the current ticket, clears loading and
      error, and keeps the list. */
  lemma GetTicketSetsCurrent(s: State, t: Ticket)
    ensures Reduce(s, GetTicket(t)) == s.(currentTicket := Some(t), loading := false, error := None)
  {
  }

  /** FETCH_TICKETS_SUCCESS replaces the list and clears loading and error. */
  lemma FetchSuccessReplaces(s: State, ts: seq<Ticket>)
    ensures Reduce(s, FetchTicketsSuccess(ts)) == s.(tickets := ts, loading := false, error := None)
  {
  }

  /** TICKET_ERROR and FETCH_TICKETS_FAILURE record the error and keep the list. */
  lemma ErrorsKeepTickets(s: State, e: string)
    ensures Reduce(s, TicketError(e)) == s.(loading := false, error := Some(e))
    ensures Reduce(s, FetchTicketsFailure(e)) == Reduce(s, TicketError(e))
  {
  }

  /** SET_TICKET_FILTER and SET_TICKET_SEARCH change one field each. */
  lemma SettersChangeOneField(s: State, x: string)
    ensures Reduce(s, SetTicketFilter(x)) == s.(filter := x)
    ensures Reduce(s, SetTicketSearch(x)) == s.(searchTerm := x)
  {
  }

  /** GET_TICKETS, UPDATE_TICKET and any other action leave the state as it is. */
  lemma UnhandledUnchanged(s: State, ts: seq<Ticket>, t: Ticket)
    ensures Reduce(s, GetTickets(ts)) == s
    ensures Reduce(s, UpdateTicket(t)) == s
    ensures Reduce(s, Unrelated) == s
  {
  }
}
