/** The support-ticket route: listing with optional filters, lookup by id,
    creation with a default status and creator, and an update that writes
    only whitelisted columns. */
module SupportTickets {
  import opened Common
  import opened Entities
  import ClientApi
  import Table

  const Open := "open"
  const InProgress := "in_progress"
  const Closed := "closed"
  const AnonymousCreator := "anonymous@example.com"

  const TicketNotFound := "Обращение не найдено"
  const MissingSubjectOrMessage := "Необходимо указать тему и сообщение"
  const NothingToUpdate := "Нет данных для обновления"

  /** The columns an update may write. */
  const UpdatableKeys: set<string> :=
    {"subject", "message", "status", "admin_response", "responded_by", "responded_at", "created_by"}

  /** A whitelisted column of a ticket, by its column name. */
  function Field(t: Ticket, key: string): Option<string>
  {
    if key == "subject" then Some(t.subject)
    else if key == "message" then Some(t.message)
    else if key == "status" then Some(t.status)
    else if key == "created_by" then Some(t.createdBy)
    else if key == "admin_response" then t.adminResponse
    else if key == "responded_by" then t.respondedBy
    else if key == "responded_at" then t.respondedAt
    else None
  }

  /** The value a column takes: the patch's when it has the key, else the old one. */
  function Pick(patch: map<string, string>, key: string, current: string): string
  {
    if key in patch then patch[key] else current
  }

  function PickOpt(patch: map<string, string>, key: string, current: Option<string>): Option<string>
  {
    if key in patch then Some(patch[key]) else current
  }

  /** The `UPDATE` the route builds: each whitelisted key of the body becomes
      `key = value`, and `updated_date` is set. */
  function ApplyPatch(t: Ticket, patch: map<string, string>, now: int): (r: Ticket)
    ensures r.id == t.id && r.updatedDate == Some(now)
    ensures forall k :: k in UpdatableKeys ==> Field(r, k) == (if k in patch then Some(patch[k]) else Field(t, k))
  {
    t.(subject := Pick(patch, "subject", t.subject),
       message := Pick(patch, "message", t.message),
       status := Pick(patch, "status", t.status),
       createdBy := Pick(patch, "created_by", t.createdBy),
       adminResponse := PickOpt(patch, "admin_response", t.adminResponse),
       respondedBy := PickOpt(patch, "responded_by", t.respondedBy),
       respondedAt := PickOpt(patch, "responded_at", t.respondedAt),
       updatedDate := Some(now))
  }

  /** Keys outside the whitelist change nothing. */
  lemma OtherKeysIgnored(t: Ticket, patch: map<string, string>, key: string, value: string, now: int)
    requires key !in UpdatableKeys
    ensures ApplyPatch(t, patch[key := value], now) == ApplyPatch(t, patch, now)
  {
  }

  /** Applying the same patch twice is applying it once. */
  lemma PatchIdempotent(t: Ticket, patch: map<string, string>, now: int)
    ensures ApplyPatch(ApplyPatch(t, patch, now), patch, now) == ApplyPatch(t, patch, now)
  {
  }

  predicate HasUpdatableKey(patch: map<string, string>)
  {
    exists k :: k in patch && k in UpdatableKeys
  }

  /** Ticket ids are unique within the table. */
  ghost predicate UniqueIds(tickets: seq<Ticket>)
  {
    forall i, j :: 0 <= i < j < |tickets| ==> tickets[i].id != tickets[j].id
  }

  /** `PUT /support-tickets/:id` as a function of the table. */
  function PutTicket(tickets: seq<Ticket>, id: Id, patch: map<string, string>, now: int): (res: (seq<Ticket>, Reply<Ticket>))
    ensures (forall i :: 0 <= i < |tickets| ==> tickets[i].id != id) ==> res == (tickets, Fail(404, TicketNotFound))
    ensures (exists i :: 0 <= i < |tickets| && tickets[i].id == id) && !HasUpdatableKey(patch) ==>
      res == (tickets, Fail(400, NothingToUpdate))
    ensures res.1.Ok? <==> (exists i :: 0 <= i < |tickets| && tickets[i].id == id) && HasUpdatableKey(patch)
    ensures res.1.Ok? ==>
      && |res.0| == |tickets|
      && (exists i :: 0 <= i < |tickets| && tickets[i].id == id && res.0 == tickets[i := res.1.value]
                                          && res.1.value == ApplyPatch(tickets[i], patch, now))
    ensures UniqueIds(tickets) ==> UniqueIds(res.0)
  {
    match FirstIndex(tickets, (t: Ticket) => t.id == id)
    case None => (tickets, Fail(404, TicketNotFound))
    case Some(i) =>
      if !HasUpdatableKey(patch) then (tickets, Fail(400, NothingToUpdate))
      else
        var t := ApplyPatch(tickets[i], patch, now);
        (tickets[i := t], Ok(t))
  }

  /** A successful update leaves every other ticket as it was. */
  lemma PutTouchesOnlyThatTicket(tickets: seq<Ticket>, id: Id, patch: map<string, string>, now: int, j: nat)
    requires j < |tickets| && tickets[j].id != id
    ensures j < |PutTicket(tickets, id, patch, now).0| && PutTicket(tickets, id, patch, now).0[j] == tickets[j]
  {
  }

  /** `POST /support-tickets` as a function of the table: status `open`
      unless given, creator `anonymous@example.com` unless given. */
  function PostTicket(tickets: seq<Ticket>, nextId: nat, body: ClientApi.TicketBody): (res: (seq<Ticket>, Reply<Ticket>))
    ensures !Truthy(body.subject) || !Truthy(body.message) ==> res == (tickets, Fail(400, MissingSubjectOrMessage))
    ensures res.1.Ok? <==> Truthy(body.subject) && Truthy(body.message)
    ensures res.1.Ok? ==>
      && res.0 == tickets + [res.1.value]
      && res.1.value.id == nextId
      && res.1.value.subject == body.subject.value && res.1.value.message == body.message.value
      && res.1.value.status == (if body.status.Some? then body.status.value else Open)
      && res.1.value.createdBy == OrElse(body.createdBy, AnonymousCreator)
      && res.1.value.adminResponse.None? && res.1.value.respondedBy.None? && res.1.value.respondedAt.None?
  {
    if !Truthy(body.subject) || !Truthy(body.message) then (tickets, Fail(400, MissingSubjectOrMessage))
    else
      var status := if body.status.Some? then body.status.value else Open;
      var t := Ticket(nextId, body.subject.value, body.message.value, status,
                      OrElse(body.createdBy, AnonymousCreator), None, None, None, None);
      (tickets + [t], Ok(t))
  }

  /** A ticket created through the client with a stored email is never
      anonymous: the creator is the given one, else the stored email. */
  lemma ClientTicketsCarryTheUser(tickets: seq<Ticket>, nextId: nat, data: ClientApi.TicketBody, stored: string)
    requires Truthy(data.subject) && Truthy(data.message) && stored != ""
    ensures var r := PostTicket(tickets, nextId, ClientApi.TicketCreateBody(data, Some(stored))).1;
            r.Ok? && r.value.createdBy == (if Truthy(data.createdBy) then data.createdBy.value else stored)
  {
  }

  /** The filters of `GET /support-tickets`; each applies only when truthy. */
  datatype TicketQuery = TicketQuery(status: Option<string>, createdBy: Option<string>)

  predicate MatchesQuery(q: TicketQuery, t: Ticket)
  {
    (Truthy(q.status) ==> t.status == q.status.value) && (Truthy(q.createdBy) ==> t.createdBy == q.createdBy.value)
  }

  /** The listed tickets are exactly those matching every supplied filter. */
  lemma ListedTickets(tickets: seq<Ticket>, q: TicketQuery, t: Ticket)
    ensures t in Reverse(Filter(tickets, (x: Ticket) => MatchesQuery(q, x))) <==> t in tickets && MatchesQuery(q, t)
  {
    Table.NewestFirstMembers(tickets, (x: Ticket) => MatchesQuery(q, x), t);
  }

  /** The support-ticket table. */
  class TicketStore {
    var tickets: seq<Ticket>
    var nextId: nat

    ghost predicate Valid()
      reads this
    {
      UniqueIds(tickets) && forall i :: 0 <= i < |tickets| ==> tickets[i].id < nextId
    }

    constructor ()
      ensures Valid() && tickets == [] && nextId == 0
    {
      tickets, nextId := [], 0;
    }

    /** `GET /support-tickets`: newest first. */
    method List(q: TicketQuery) returns (r: seq<Ticket>)
      ensures r == Reverse(Filter(tickets, (x: Ticket) => MatchesQuery(q, x)))
    {
      r := Table.SelectNewestFirst(tickets, (x: Ticket) => MatchesQuery(q, x));
    }

    /** `GET /support-tickets/:id` */
    method Get(id: Id) returns (r: Reply<Ticket>)
      ensures r.Fail? <==> forall i :: 0 <= i < |tickets| ==> tickets[i].id != id
      ensures r.Fail? ==> r == Fail(404, TicketNotFound)
      ensures r.Ok? ==> r.value in tickets && r.value.id == id
    {
      var found := FindFirst(tickets, (t: Ticket) => t.id == id);
      if found.None? {
        r := Fail(404, TicketNotFound);
      } else {
        r := Ok(found.value);
      }
    }

    /** `POST /support-tickets` */
    method Create(body: ClientApi.TicketBody) returns (r: Reply<Ticket>)
      requires Valid()
      modifies this
      ensures Valid()
      ensures (tickets, r) == PostTicket(old(tickets), old(nextId), body)
      ensures nextId == old(nextId) + (if r.Ok? then 1 else 0)
    {
      if !Truthy(body.subject) || !Truthy(body.message) {
        return Fail(400, MissingSubjectOrMessage);
      }
      var status := if body.status.Some? then body.status.value else Open;
      var creator := if Truthy(body.createdBy) then body.createdBy.value else AnonymousCreator;
      var t := Ticket(nextId, body.subject.value, body.message.value, status, creator, None, None, None, None);
      tickets := tickets + [t];
      nextId := nextId + 1;
      r := Ok(t);
    }

    /** `PUT /support-tickets/:id`: 404 for an unknown ticket, 400 when the
        body has no whitelisted key, otherwise write those keys and the
        update time. */
    method Update(id: Id, patch: map<string, string>, now: int) returns (r: Reply<Ticket>)
      requires Valid()
      modifies this
      ensures Valid()
      ensures (tickets, r) == PutTicket(old(tickets), id, patch, now)
      ensures nextId == old(nextId)
    {
      var i := FirstIndex(tickets, (t: Ticket) => t.id == id);
      if i.None? {
        return Fail(404, TicketNotFound);
      }
      if !HasUpdatableKey(patch) {
        return Fail(400, NothingToUpdate);
      }
      var t := ApplyPatch(tickets[i.value], patch, now);
      tickets := tickets[i.value := t];
      r := Ok(t);
    }
  }
}
