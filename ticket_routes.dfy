/** server/routes/tickets.js: the ticket routes whose records carry
    `createdBy` and `title`. Create spreads the request body into a new record
    and then sets the owner to the caller; list shows a non-admin only their own
    tickets, newest first; get-one checks existence before permission; PUT sets
    the status, behind `isAdmin`. Handlers receive the caller that `auth`
    admitted. */
module TicketRoutes {
  import opened Common
  import opened Users
  import opened Middleware
  import opened Ordering

  /** The request body of POST /. Any field may be missing; `createdBy` is the
      one a client might try to forge. `id` and `createdAt` are the `_id` and
      `createdAt` paths, which the spread copies into the record as well. */
  datatype TicketBody = TicketBody(title: Option<string>, description: Option<string>, category: Option<string>,
                                   priority: Option<string>, status: Option<string>, createdBy: Option<Id>,
                                   id: Option<Id>, createdAt: Option<int>)

  /** A stored ticket. The body fields are copied as given (the schema's
      defaults and required checks belong to the ticket schema, whose
      rejection is the `saveError` of Create). */
  datatype Ticket = Ticket(id: Id, title: Option<string>, description: Option<string>, category: Option<string>,
                           priority: Option<string>, status: Option<string>, createdBy: Id, createdAt: int)

  function TicketId(t: Ticket): Id { t.id }
  function CreatedAt(t: Ticket): int { t.createdAt }

  const TicketNotFound: Body := ErrorJson("Ticket not found")
  const NoAccess: Body := ErrorJson("Access denied")

  /** The start of the database's message when an inserted `_id` is taken. */
  const DuplicateKey := "E11000 duplicate key error"

  /** What get-one answers with 500 when a non-admin asks for a ticket whose
      owner no longer exists: after populate `ticket.createdBy` is null, and
      reading its `_id` throws. */
  const NullOwner: Body := ErrorJson("Cannot read properties of null (reading '_id')")

  /** The access policy for one ticket: an admin, or the ticket's owner. */
  predicate CanAccess(caller: User, t: Ticket): (ok: bool)
    ensures caller.role == AdminRole ==> ok
    ensures caller.role != AdminRole ==> (ok <==> t.createdBy == caller.id)
  {
    caller.role == AdminRole || t.createdBy == caller.id
  }

  /** The ticket collection of this router. */
  class TicketStore {
    var tickets: seq<Ticket>
    var nextId: nat

    ghost predicate Valid()
      reads this
    {
      UniqueKeys(tickets, TicketId) && forall t :: t in tickets ==> t.id < nextId
    }

    constructor ()
      ensures Valid() && tickets == [] && nextId == 0
    {
      tickets := [];
      nextId := 0;
    }

    /** POST /: the body's fields, then `createdBy` set to the caller, so a
        forged `createdBy` in the body is overridden. A given `_id` is kept
        instead of a fresh one, and the insert fails when a stored ticket
        already has it; a given `createdAt` replaces the current time.
        `saveError` is the schema's rejection of the record in `save()`. */
    method Create(caller: User, body: TicketBody, now: int, saveError: Option<string>) returns (r: Response<Ticket>)
      requires Valid()
      modifies this
      ensures Valid()
      ensures saveError.Some? ==> r == Err(400, ErrorJson(saveError.value)) && tickets == old(tickets)
      ensures saveError.None? && body.id.Some? && Find(old(tickets), TicketId, body.id.value).Some? ==>
                r == Err(400, ErrorJson(DuplicateKey)) && tickets == old(tickets)
      ensures saveError.None? && (body.id.None? || Find(old(tickets), TicketId, body.id.value).None?) ==>
                && r.Ok? && r.status == 201
                && r.value.createdBy == caller.id
                && r.value == Ticket(if body.id.Some? then body.id.value else old(nextId),
                                     body.title, body.description, body.category, body.priority, body.status,
                                     caller.id, if body.createdAt.Some? then body.createdAt.value else now)
                && (forall t :: t in old(tickets) ==> t.id != r.value.id)
                && tickets == old(tickets) + [r.value]
      ensures r.Err? ==> nextId == old(nextId)
      ensures r.Ok? ==> nextId == if r.value.id + 1 > old(nextId) then r.value.id + 1 else old(nextId)
    {
      if saveError.Some? {
        return Err(400, ErrorJson(saveError.value));
      }
      if body.id.Some? && Find(tickets, TicketId, body.id.value).Some? {
        return Err(400, ErrorJson(DuplicateKey));
      }
      var id := if body.id.Some? then body.id.value else nextId;
      var t := Ticket(id, body.title, body.description, body.category, body.priority, body.status,
                      caller.id, if body.createdAt.Some? then body.createdAt.value else now);
      tickets := tickets + [t];
      nextId := if id + 1 > nextId then id + 1 else nextId;
      r := Ok(201, t);
    }

    /** GET /: an admin sees every ticket, anyone else only those they
        created; newest first either way. */
    function List(caller: User): (r: Response<seq<Ticket>>)
      reads this
      ensures r.Ok? && r.status == 200
      ensures forall t :: t in r.value <==> t in tickets && CanAccess(caller, t)
      ensures caller.role == AdminRole ==> multiset(r.value) == multiset(tickets)
      ensures multiset(r.value) <= multiset(tickets)
      ensures NewestFirst(r.value, CreatedAt)
    {
      var own := (t: Ticket) => t.createdBy == caller.id;
      var visible := if caller.role == AdminRole then tickets else Filter(tickets, own);
      FilterMembership(tickets, own);
      SortMembership(visible, CreatedAt);
      FilterSubMultiset(tickets, own);
      Ok(200, SortNewestFirst(visible, CreatedAt))
    }

    /** GET /:id: 404 for a missing id before any permission check; then 403
        for a non-admin who does not own the ticket. `users` is the user
        collection that populate reads the owner from. */
    function GetOne(caller: User, id: Id, users: seq<User>): (r: Response<Ticket>)
      reads this
      ensures Find(tickets, TicketId, id).None? <==> r == Err(404, TicketNotFound)
      ensures r.Ok? ==> r.status == 200 && Some(r.value) == Find(tickets, TicketId, id) && CanAccess(caller, r.value)
      ensures r == Err(403, NoAccess) <==>
                Find(tickets, TicketId, id).Some? && !CanAccess(caller, Find(tickets, TicketId, id).value) &&
                Find(users, UserId, Find(tickets, TicketId, id).value.createdBy).Some?
      ensures (Find(tickets, TicketId, id).Some? && caller.role != AdminRole &&
               Find(users, UserId, Find(tickets, TicketId, id).value.createdBy).None?) ==>
                r == Err(500, NullOwner)
      ensures Find(tickets, TicketId, id).Some? && caller.role == AdminRole ==> r.Ok?
      ensures (Find(tickets, TicketId, id).Some? && Find(users, UserId, caller.id).Some? &&
               Find(tickets, TicketId, id).value.createdBy == caller.id) ==> r.Ok?
    {
      match Find(tickets, TicketId, id)
      case None => Err(404, TicketNotFound)
      case Some(t) =>
        if caller.role != AdminRole && Find(users, UserId, t.createdBy).None? then Err(500, NullOwner)
        else if caller.role != AdminRole && t.createdBy != caller.id then Err(403, NoAccess)
        else Ok(200, t)
    }

    /** PUT /:id (admin only): sets the status from the body, and nothing else.
        `saveError` is the message with which `save` rejects the changed
        record (the schema's check of the status), answered with 400. */
    method UpdateStatus(caller: User, id: Id, status: Option<string>, saveError: Option<string>)
      returns (r: Response<Ticket>)
      requires Valid()
      modifies this
      ensures Valid() && nextId == old(nextId)
      ensures caller.role != AdminRole ==> r == Err(403, AccessDenied) && tickets == old(tickets)
      ensures caller.role == AdminRole && Find(old(tickets), TicketId, id).None? ==>
                r == Err(404, TicketNotFound) && tickets == old(tickets)
      ensures caller.role == AdminRole && Find(old(tickets), TicketId, id).Some? && saveError.Some? ==>
                r == Err(400, ErrorJson(saveError.value)) && tickets == old(tickets)
      ensures caller.role == AdminRole && Find(old(tickets), TicketId, id).Some? && saveError.None? ==>
                && r == Ok(200, Find(old(tickets), TicketId, id).value.(status := status))
                && |tickets| == |old(tickets)|
                && forall i :: 0 <= i < |tickets| ==>
                     tickets[i] == if old(tickets)[i].id == id then old(tickets)[i].(status := status)
                                   else old(tickets)[i]
    {
      match IsAdmin(caller)
      case Deny(code, body) => return Err(code, body);
      case Admit(_) =>
      match IndexOf(tickets, TicketId, id)
      case None => return Err(404, TicketNotFound);
      case Some(i) =>
      if saveError.Some? {
        return Err(400, ErrorJson(saveError.value));
      }
      KeyOnlyAt(tickets, TicketId, i);
      var updated := tickets[i].(status := status);
      ghost var before := tickets;
      tickets := tickets[i := updated];
      forall k | 0 <= k < |tickets| && k != i ensures before[k].id != id {
        assert k < i ==> before[k].id != before[i].id;
        assert k > i ==> before[i].id != before[k].id;
      }
      assert UniqueKeys(tickets, TicketId) by {
        forall a, b | 0 <= a < b < |tickets| ensures tickets[a].id != tickets[b].id {
          assert tickets[a].id == before[a].id && tickets[b].id == before[b].id;
        }
      }
      assert forall t :: t in tickets ==> t.id < nextId by {
        forall t | t in tickets ensures t.id < nextId {
          var k :| 0 <= k < |tickets| && tickets[k] == t;
          assert tickets[k].id == before[k].id;
        }
      }
      r := Ok(200, updated);
    }
  }
}
