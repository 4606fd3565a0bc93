/** server/routes/api/tickets.js: the ticket routes whose records carry `user`
    and `subject`. Listing shows a non-admin only their own tickets; create
    validates three required fields and defaults the priority; the status
    PATCH checks the value against the four statuses before it looks the ticket
    up; delete and export are admin-only; a comment is prepended to the
    ticket's comments. Handlers receive the caller that `auth` admitted; the
    `adminAuth` gate of the admin routes is taken to be `isAdmin`. */
module ApiTicketRoutes {
  import opened Common
  import opened Users
  import opened Middleware
  import opened Ordering

  /** A comment as stored: its text, the author's id and its date. */
  datatype Comment = Comment(text: string, user: Id, date: int)

  /** A stored ticket. `status`, `createdAt` and `lastUpdated` are filled in
      by the ticket schema when the ticket is created. */
  datatype Ticket = Ticket(id: Id, subject: string, description: string, category: string,
                           priority: string, status: string, user: Id, assignedTo: Option<Id>,
                           comments: seq<Comment>, createdAt: int, lastUpdated: int)

  function TicketId(t: Ticket): Id { t.id }
  function CreatedAt(t: Ticket): int { t.createdAt }

  /** The body of POST /; any field may be missing. */
  datatype NewTicket = NewTicket(subject: Option<string>, description: Option<string>,
                                 category: Option<string>, priority: Option<string>)

  /** One row of the CSV export, before the library quotes it. */
  datatype ExportRecord = ExportRecord(id: Id, subject: string, status: string, priority: string,
                                       category: string, user: string, assignedTo: string,
                                       createdAt: int, lastUpdated: int)

  const SubjectRequired := "Subject is required"
  const DescriptionRequired := "Description is required"
  const CategoryRequired := "Category is required"
  const TextRequired := "Comment text is required"

  const TicketNotFound: Body := MsgJson("Ticket not found")
  const InvalidStatus: Body := MsgJson("Invalid status")
  const ServerError: Body := Text("Server Error")

  /** The status a ticket gets from the schema when it is created. */
  const InitialStatus := "open"

  predicate ValidStatus(status: Option<string>)
  {
    status.Some? && status.value in ["open", "in_progress", "resolved", "closed"]
  }

  /** The messages of the create validators that fail, in declaration order. */
  function CreateErrors(body: NewTicket): (errs: seq<string>)
    ensures errs == [] <==> Truthy(body.subject) && Truthy(body.description) && Truthy(body.category)
    ensures SubjectRequired in errs <==> !Truthy(body.subject)
    ensures DescriptionRequired in errs <==> !Truthy(body.description)
    ensures CategoryRequired in errs <==> !Truthy(body.category)
    ensures |errs| <= 3
    ensures IsSubsequence(errs, [SubjectRequired, DescriptionRequired, CategoryRequired])
  {
    PickedInOrder(SubjectRequired, DescriptionRequired, CategoryRequired,
                  !Truthy(body.subject), !Truthy(body.description), !Truthy(body.category));
    (if Truthy(body.subject) then [] else [SubjectRequired])
    + (if Truthy(body.description) then [] else [DescriptionRequired])
    + (if Truthy(body.category) then [] else [CategoryRequired])
  }

  /** The export row of one ticket; `None` when the ticket's creator is no
      longer in the user collection, where reading `ticket.user.email` throws. */
  function ExportRow(t: Ticket, users: seq<User>): (row: Option<ExportRecord>)
    ensures row.Some? <==> Find(users, UserId, t.user).Some?
    ensures row.Some? ==>
              && row.value.id == t.id && row.value.subject == t.subject && row.value.status == t.status
              && row.value.priority == t.priority && row.value.category == t.category
              && row.value.user == Find(users, UserId, t.user).value.email
              && row.value.createdAt == t.createdAt && row.value.lastUpdated == t.lastUpdated
              && (t.assignedTo.None? || Find(users, UserId, t.assignedTo.value).None? ==>
                    row.value.assignedTo == "Unassigned")
              && (t.assignedTo.Some? && Find(users, UserId, t.assignedTo.value).Some? ==>
                    row.value.assignedTo == Find(users, UserId, t.assignedTo.value).value.email)
  {
    match Find(users, UserId, t.user)
    case None => None
    case Some(creator) =>
      var assignee := if t.assignedTo.Some? then Find(users, UserId, t.assignedTo.value) else None;
      Some(ExportRecord(t.id, t.subject, t.status, t.priority, t.category, creator.email,
                        if assignee.Some? then assignee.value.email else "Unassigned",
                        t.createdAt, t.lastUpdated))
  }

  /** The rows of the export, one per ticket and in store order, or `None` as
      soon as one ticket's creator is missing. */
  function ExportRows(tickets: seq<Ticket>, users: seq<User>): (rows: Option<seq<ExportRecord>>)
    ensures rows.Some? <==> forall t :: t in tickets ==> Find(users, UserId, t.user).Some?
    ensures rows.Some? ==>
              |rows.value| == |tickets| && forall i :: 0 <= i < |tickets| ==> Some(rows.value[i]) == ExportRow(tickets[i], users)
  {
    if tickets == [] then Some([])
    else match ExportRow(tickets[0], users)
      case None => None
      case Some(row) =>
        match ExportRows(tickets[1..], users)
        case None =>
          assert exists t :: t in tickets[1..] && Find(users, UserId, t.user).None?;
          None
        case Some(rest) =>
          assert forall t :: t in tickets ==> t == tickets[0] || t in tickets[1..];
          Some([row] + rest)
  }

  /** The ticket collection of this router. */
  class TicketStore {
    var tickets: seq<Ticket>
    var nextId: nat

    ghost predicate Valid()
      reads this
    {
      UniqueKeys(tickets, TicketId) && forall t :: t in tickets ==> t.id < nextId
    }

    constructor ()
      ensures Valid() && tickets == [] && nextId == 0
    {
      tickets := [];
      nextId := 0;
    }

    /** Replaces the ticket at `i` by one with the same id. */
    method ReplaceAt(i: nat, t: Ticket)
      requires Valid() && i < |tickets| && t.id == tickets[i].id
      modifies this
      ensures Valid() && nextId == old(nextId)
      ensures tickets == old(tickets)[i := t]
    {
      ghost var before := tickets;
      tickets := tickets[i := t];
      assert forall k :: 0 <= k < |tickets| ==> tickets[k].id == before[k].id;
      assert UniqueKeys(tickets, TicketId) by {
        forall a, b | 0 <= a < b < |tickets| ensures TicketId(tickets[a]) != TicketId(tickets[b]) {
          assert TicketId(before[a]) != TicketId(before[b]);
        }
      }
      assert forall u :: u in tickets ==> u.id < nextId by {
        forall u | u in tickets ensures u.id < nextId {
          var k :| 0 <= k < |tickets| && tickets[k] == u;
          assert before[k] in before;
        }
      }
    }

    /** GET /: an admin sees every ticket, anyone else the tickets whose
        `user` is them; newest first either way. */
    function List(caller: User): (r: Response<seq<Ticket>>)
      reads this
      ensures r.Ok? && r.status == 200
      ensures forall t :: t in r.value <==> t in tickets && (caller.role == AdminRole || t.user == caller.id)
      ensures caller.role == AdminRole ==> multiset(r.value) == multiset(tickets)
      ensures multiset(r.value) <= multiset(tickets)
      ensures NewestFirst(r.value, CreatedAt)
    {
      var own := (t: Ticket) => t.user == caller.id;
      var visible := if caller.role == AdminRole then tickets else Filter(tickets, own);
      FilterMembership(tickets, own);
      SortMembership(visible, CreatedAt);
      FilterSubMultiset(tickets, own);
      Ok(200, SortNewestFirst(visible, CreatedAt))
    }

    /** POST /: 400 with every failed validator's message when a required
        field is empty; otherwise a new ticket owned by the caller, priority
        "medium" unless one is given, answered with 200. */
    method Create(caller: User, body: NewTicket, now: int) returns (r: Response<Ticket>)
      requires Valid()
      modifies this
      ensures Valid()
      ensures CreateErrors(body) != [] ==>
                r == Err(400, ErrorsJson(CreateErrors(body))) && tickets == old(tickets)
      ensures CreateErrors(body) == [] ==>
                && r.Ok? && r.status == 200
                && r.value.user == caller.id
                && r.value.priority == OrElse(body.priority, "medium")
                && r.value == Ticket(old(nextId), body.subject.value, body.description.value, body.category.value,
                                     OrElse(body.priority, "medium"), InitialStatus, caller.id, None, [], now, now)
                && (forall t :: t in old(tickets) ==> t.id != r.value.id)
                && tickets == old(tickets) + [r.value]
    {
      var errs := CreateErrors(body);
      if errs != [] {
        return Err(400, ErrorsJson(errs));
      }
      var t := Ticket(nextId, body.subject.value, body.description.value, body.category.value,
                      OrElse(body.priority, "medium"), InitialStatus, caller.id, None, [], now, now);
      tickets := tickets + [t];
      nextId := nextId + 1;
      r := Ok(200, t);
    }

    /** PATCH /:id/status (admin only): the status is checked against the four
        values before the ticket is looked up; then only `status` changes. */
    method PatchStatus(caller: User, id: Id, status: Option<string>) returns (r: Response<Ticket>)
      requires Valid()
      modifies this
      ensures Valid() && nextId == old(nextId)
      ensures caller.role != AdminRole ==> r == Err(403, AccessDenied) && tickets == old(tickets)
      ensures caller.role == AdminRole && !ValidStatus(status) ==>
                r == Err(400, InvalidStatus) && tickets == old(tickets)
      ensures caller.role == AdminRole && ValidStatus(status) && (forall t :: t in old(tickets) ==> t.id != id) ==>
                r == Err(404, TicketNotFound) && tickets == old(tickets)
      ensures r.Ok? ==>
                && caller.role == AdminRole && ValidStatus(status) && r.status == 200
                && |tickets| == |old(tickets)|
                && exists i :: 0 <= i < |tickets| && old(tickets)[i].id == id
                     && r.value == old(tickets)[i].(status := status.value)
                     && tickets == old(tickets)[i := r.value]
                     && forall k :: 0 <= k < |tickets| && k != i ==> old(tickets)[k].id != id
      ensures (caller.role == AdminRole && ValidStatus(status) && exists t :: t in old(tickets) && t.id == id) ==> r.Ok?
    {
      match IsAdmin(caller)
      case Deny(code, body) => return Err(code, body);
      case Admit(_) =>
      if !ValidStatus(status) {
        return Err(400, InvalidStatus);
      }
      match IndexOf(tickets, TicketId, id)
      case None => return Err(404, TicketNotFound);
      case Some(i) =>
      KeyOnlyAt(tickets, TicketId, i);
      var updated := tickets[i].(status := status.value);
      ReplaceAt(i, updated);
      r := Ok(200, updated);
    }

    /** DELETE /:id (admin only): removes exactly the ticket with that id. */
    method Delete(caller: User, id: Id) returns (r: Response<Body>)
      requires Valid()
      modifies this
      ensures Valid() && nextId == old(nextId)
      ensures caller.role != AdminRole ==> r == Err(403, AccessDenied) && tickets == old(tickets)
      ensures caller.role == AdminRole && (forall t :: t in old(tickets) ==> t.id != id) ==>
                r == Err(404, TicketNotFound) && tickets == old(tickets)
      ensures caller.role == AdminRole && (exists t :: t in old(tickets) && t.id == id) ==>
                && r == Ok(200, MsgJson("Ticket removed"))
                && tickets == Filter(old(tickets), (t: Ticket) => t.id != id)
                && |tickets| == |old(tickets)| - 1
                && (forall t :: t in tickets <==> t in old(tickets) && t.id != id)
                && IsSubsequence(tickets, old(tickets))
    {
      match IsAdmin(caller)
      case Deny(code, body) => return Err(code, body);
      case Admit(_) =>
      if IndexOf(tickets, TicketId, id).None? {
        return Err(404, TicketNotFound);
      }
      var keep := (t: Ticket) => t.id != id;
      var before := tickets;
      FilterMembership(before, keep);
      FilterIsSubsequence(before, keep);
      FilterUniqueKeys(before, keep, TicketId);
      ghost var k :| 0 <= k < |before| && before[k].id == id;
      FilterRemovesKey(before, TicketId, id, keep);
      tickets := Filter(before, keep);
      r := Ok(200, MsgJson("Ticket removed"));
    }

    /** GET /export (admin only): one record per ticket in store order, with
        the creator's email and "Unassigned" for a ticket nobody is assigned
        to; 500 when some ticket's creator no longer exists. */
    function Export(caller: User, users: seq<User>): (r: Response<seq<ExportRecord>>)
      reads this
      ensures caller.role != AdminRole ==> r == Err(403, AccessDenied)
      ensures caller.role == AdminRole && (exists t :: t in tickets && Find(users, UserId, t.user).None?) ==>
                r == Err(500, ServerError)
      ensures caller.role == AdminRole && (forall t :: t in tickets ==> Find(users, UserId, t.user).Some?) ==>
                && r.Ok? && r.status == 200 && |r.value| == |tickets|
                && forall i :: 0 <= i < |tickets| ==>
                     r.value[i].id == tickets[i].id &&
                     (tickets[i].assignedTo.None? ==> r.value[i].assignedTo == "Unassigned") &&
                     Some(r.value[i]) == ExportRow(tickets[i], users)
    {
      match IsAdmin(caller)
      case Deny(code, body) => Err(code, body)
      case Admit(_) =>
        match ExportRows(tickets, users)
        case None => Err(500, ServerError)
        case Some(rows) => Ok(200, rows)
    }

    /** POST /:id/comments: 400 for empty text, 404 for a missing ticket;
        otherwise the caller's comment goes in front of the existing ones and
        the answer is the new comment list. Any admitted caller may comment on
        any ticket. */
    method AddComment(caller: User, id: Id, text: Option<string>, now: int) returns (r: Response<seq<Comment>>)
      requires Valid()
      modifies this
      ensures Valid() && nextId == old(nextId)
      ensures !Truthy(text) ==> r == Err(400, ErrorsJson([TextRequired])) && tickets == old(tickets)
      ensures Truthy(text) && (forall t :: t in old(tickets) ==> t.id != id) ==>
                r == Err(404, TicketNotFound) && tickets == old(tickets)
      ensures r.Ok? ==>
                && Truthy(text) && r.status == 200
                && |tickets| == |old(tickets)|
                && exists i :: 0 <= i < |tickets| && old(tickets)[i].id == id
                     && r.value == [Comment(text.value, caller.id, now)] + old(tickets)[i].comments
                     && tickets == old(tickets)[i := old(tickets)[i].(comments := r.value)]
      ensures (Truthy(text) && exists t :: t in old(tickets) && t.id == id) ==> r.Ok?
    {
      if !Truthy(text) {
        return Err(400, ErrorsJson([TextRequired]));
      }
      match IndexOf(tickets, TicketId, id)
      case None => return Err(404, TicketNotFound);
      case Some(i) =>
      var comments := [Comment(text.value, caller.id, now)] + tickets[i].comments;
      ReplaceAt(i, tickets[i].(comments := comments));
      r := Ok(200, comments);
    }
  }
}
