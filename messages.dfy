/** The chat-message route: the whole table newest first, lookup by id,
    creation of an unread message, setting the read flag, and deletion. */
module Messages {
  import opened Common
  import opened Entities
  import Table

  const MessageNotFound := "Сообщение не найдено"
  const MissingMessageFields := "Необходимо заполнить все обязательные поля (text, recipient_email, created_by)"

  /** The JSON body of `POST /messages`. */
  datatype MessageBody = MessageBody(
    text: Option<string>,
    apartmentId: Option<Id>,
    bookingId: Option<Id>,
    recipientEmail: Option<string>,
    createdBy: Option<string>)

  predicate HasRequiredFields(body: MessageBody)
  {
    Truthy(body.text) && Truthy(body.recipientEmail) && Truthy(body.createdBy)
  }

  ghost predicate UniqueIds(messages: seq<Message>)
  {
    forall i, j :: 0 <= i < j < |messages| ==> messages[i].id != messages[j].id
  }

  /** `POST /messages` as a function of the table. */
  function PostMessage(messages: seq<Message>, nextId: nat, body: MessageBody): (res: (seq<Message>, Reply<Message>))
    ensures !HasRequiredFields(body) ==> res == (messages, Fail(400, MissingMessageFields))
    ensures res.1.Ok? <==> HasRequiredFields(body)
    ensures res.1.Ok? ==>
      && res.0 == messages + [res.1.value]
      && res.1.value.id == nextId
      && !res.1.value.isRead
      && res.1.value.text == body.text.value
      && res.1.value.recipientEmail == body.recipientEmail.value
      && res.1.value.createdBy == body.createdBy.value
      && res.1.value.apartmentId == body.apartmentId && res.1.value.bookingId == body.bookingId
  {
    if !HasRequiredFields(body) then (messages, Fail(400, MissingMessageFields))
    else
      var m := Message(nextId, body.text.value, body.apartmentId, body.bookingId,
                       body.recipientEmail.value, body.createdBy.value, false, None);
      (messages + [m], Ok(m))
  }

  /** `PUT /messages/:id`: `is_read` becomes the truthiness of the body's
      value (`None` when the body has none); no matching row is a 404. */
  function PutMessage(messages: seq<Message>, id: Id, isRead: Option<bool>, now: int): (res: (seq<Message>, Reply<Message>))
    ensures (forall i :: 0 <= i < |messages| ==> messages[i].id != id) <==> res.1.Fail?
    ensures res.1.Fail? ==> res == (messages, Fail(404, MessageNotFound))
    ensures res.1.Ok? ==>
      && |res.0| == |messages|
      && res.1.value.isRead == (isRead == Some(true))
      && res.1.value.id == id && res.1.value.updatedDate == Some(now)
      && exists i :: 0 <= i < |messages| && messages[i].id == id &&
           res.1.value == messages[i].(isRead := isRead == Some(true), updatedDate := Some(now)) &&
           res.0 == messages[i := res.1.value]
    ensures UniqueIds(messages) ==> UniqueIds(res.0)
  {
    match FirstIndex(messages, (m: Message) => m.id == id)
    case None => (messages, Fail(404, MessageNotFound))
    case Some(i) =>
      var m := messages[i].(isRead := isRead == Some(true), updatedDate := Some(now));
      (messages[i := m], Ok(m))
  }

  /** Marking read twice is marking read once. */
  lemma MarkReadIdempotent(messages: seq<Message>, id: Id, now: int)
    ensures var once := PutMessage(messages, id, Some(true), now);
            PutMessage(once.0, id, Some(true), now) == once
  {
    match FirstIndex(messages, (m: Message) => m.id == id)
    case None =>
    case Some(j) =>
      var m := messages[j].(isRead := true, updatedDate := Some(now));
      FirstIndexAfterUpdate(messages, (m: Message) => m.id == id, j, m);
      assert messages[j := m][j := m] == messages[j := m];
  }

  /** `DELETE /messages/:id`: the row with that id goes; no such row is a 404. */
  function DeleteMessage(messages: seq<Message>, id: Id): (res: (seq<Message>, Reply<()>))
    ensures (forall i :: 0 <= i < |messages| ==> messages[i].id != id) <==> res.1.Fail?
    ensures res.1.Fail? ==> res == (messages, Fail(404, MessageNotFound))
    ensures res.1.Ok? ==>
      exists i :: 0 <= i < |messages| && messages[i].id == id && res.0 == messages[..i] + messages[i + 1..]
    ensures UniqueIds(messages) ==> UniqueIds(res.0) && forall k :: 0 <= k < |res.0| ==> res.0[k].id != id
  {
    match FirstIndex(messages, (m: Message) => m.id == id)
    case None => (messages, Fail(404, MessageNotFound))
    case Some(i) =>
      var rest := messages[..i] + messages[i + 1..];
      RemovePreservesUniqueIds(messages, i);
      (rest, Ok(()))
  }

  /** Removing one row keeps ids unique, and its id disappears. */
  lemma RemovePreservesUniqueIds(messages: seq<Message>, i: nat)
    requires i < |messages|
    ensures var rest := messages[..i] + messages[i + 1..];
            UniqueIds(messages) ==> UniqueIds(rest) && forall k :: 0 <= k < |rest| ==> rest[k].id != messages[i].id
  {
    var rest := messages[..i] + messages[i + 1..];
    assert forall k :: 0 <= k < |rest| ==> rest[k] == messages[if k < i then k else k + 1];
  }

  /** `GET /messages/:id` */
  function GetMessage(messages: seq<Message>, id: Id): (r: Reply<Message>)
    ensures r.Fail? <==> forall i :: 0 <= i < |messages| ==> messages[i].id != id
    ensures r.Fail? ==> r == Fail(404, MessageNotFound)
    ensures r.Ok? ==> r.value in messages && r.value.id == id
  {
    match FindFirst(messages, (m: Message) => m.id == id)
    case None => Fail(404, MessageNotFound)
    case Some(m) => Ok(m)
  }

  /** After a delete, the id is gone: a later lookup and a second delete
      both answer 404. */
  lemma DeletedMessageIsGone(messages: seq<Message>, id: Id)
    requires UniqueIds(messages)
    ensures var after := DeleteMessage(messages, id).0;
            GetMessage(after, id) == Fail(404, MessageNotFound) &&
            DeleteMessage(after, id).1 == Fail(404, MessageNotFound)
  {
  }

  /** The message table. */
  class MessageStore {
    var messages: seq<Message>
    var nextId: nat

    ghost predicate Valid()
      reads this
    {
      UniqueIds(messages) && forall i :: 0 <= i < |messages| ==> messages[i].id < nextId
    }

    constructor ()
      ensures Valid() && messages == [] && nextId == 0
    {
      messages, nextId := [], 0;
    }

    /** `GET /messages`: every message, newest first. */
    method List() returns (r: seq<Message>)
      ensures r == Reverse(messages)
    {
      r := Table.SelectNewestFirst(messages, (m: Message) => true);
      FilterKeepsAll(messages, (m: Message) => true);
    }

    /** `GET /messages/:id` */
    method Get(id: Id) returns (r: Reply<Message>)
      ensures r == GetMessage(messages, id)
    {
      var found := FindFirst(messages, (m: Message) => m.id == id);
      if found.None? {
        r := Fail(404, MessageNotFound);
      } else {
        r := Ok(found.value);
      }
    }

    /** `POST /messages` */
    method Create(body: MessageBody) returns (r: Reply<Message>)
      requires Valid()
      modifies this
      ensures Valid()
      ensures (messages, r) == PostMessage(old(messages), old(nextId), body)
      ensures nextId == old(nextId) + (if r.Ok? then 1 else 0)
    {
      if !HasRequiredFields(body) {
        return Fail(400, MissingMessageFields);
      }
      var m := Message(nextId, body.text.value, body.apartmentId, body.bookingId,
                       body.recipientEmail.value, body.createdBy.value, false, None);
      messages := messages + [m];
      nextId := nextId + 1;
      r := Ok(m);
    }

    /** `PUT /messages/:id` */
    method SetRead(id: Id, isRead: Option<bool>, now: int) returns (r: Reply<Message>)
      requires Valid()
      modifies this
      ensures Valid()
      ensures (messages, r) == PutMessage(old(messages), id, isRead, now)
      ensures nextId == old(nextId)
    {
      var i := FirstIndex(messages, (m: Message) => m.id == id);
      if i.None? {
        return Fail(404, MessageNotFound);
      }
      var m := messages[i.value].(isRead := isRead == Some(true), updatedDate := Some(now));
      messages := messages[i.value := m];
      r := Ok(m);
    }

    /** `DELETE /messages/:id` */
    method Delete(id: Id) returns (r: Reply<()>)
      requires Valid()
      modifies this
      ensures Valid()
      ensures (messages, r) == DeleteMessage(old(messages), id)
      ensures nextId == old(nextId)
    {
      var found := FirstIndex(messages, (m: Message) => m.id == id);
      if found.None? {
        return Fail(404, MessageNotFound);
      }
      RemovePreservesUniqueIds(messages, found.value);
      messages := messages[..found.value] + messages[found.value + 1..];
      r := Ok(());
    }
  }
}
