/** The chat window of a booking or apartment: which fetched messages it
    shows and in what order, which of them it marks as read, the body it
    sends, and which messages it draws as the viewer's own. */
module ChatWindow {
  import opened Common
  import opened Entities
  import Messages

  /** The message filter: a message of the booking is always shown; a message
      of the apartment only when the viewer sent or received it. */
  function Visible(bookingId: Option<Id>, apartmentId: Option<Id>, me: Option<string>, m: Message): (r: bool)
    ensures bookingId.Some? && m.bookingId == bookingId ==> r
    ensures r && m.bookingId != bookingId ==>
      apartmentId.Some? && m.apartmentId == apartmentId && me.Some? && (m.createdBy == me.value || m.recipientEmail == me.value)
  {
    if bookingId.Some? && m.bookingId == bookingId then true
    else if apartmentId.Some? && m.apartmentId == apartmentId then Some(m.createdBy) == me || Some(m.recipientEmail) == me
    else false
  }

  /** The shown list: the newest-first fetch, filtered, then reversed. */
  function Shown(fetched: seq<Message>, bookingId: Option<Id>, apartmentId: Option<Id>, me: Option<string>): (r: seq<Message>)
    ensures forall m :: m in r <==> m in fetched && Visible(bookingId, apartmentId, me, m)
  {
    var kept := Filter(fetched, (m: Message) => Visible(bookingId, apartmentId, me, m));
    assert forall m :: m in kept <==> m in fetched && Visible(bookingId, apartmentId, me, m) by {
      forall m ensures m in kept <==> m in fetched && Visible(bookingId, apartmentId, me, m) {
        FilterMembers(fetched, (m: Message) => Visible(bookingId, apartmentId, me, m), m);
      }
    }
    assert forall m :: m in Reverse(kept) <==> m in kept by {
      forall m ensures m in Reverse(kept) <==> m in kept {
        ReverseMembers(kept, m);
      }
    }
    Reverse(kept)
  }

  /** Over the route's newest-first list, the window shows the visible
      messages oldest first: in the order they were stored. */
  lemma ShownOldestFirst(table: seq<Message>, bookingId: Option<Id>, apartmentId: Option<Id>, me: Option<string>)
    ensures Shown(Reverse(table), bookingId, apartmentId, me) ==
            Filter(table, (m: Message) => Visible(bookingId, apartmentId, me, m))
  {
    var p := (m: Message) => Visible(bookingId, apartmentId, me, m);
    FilterReverse(table, p);
    ReverseReverse(Filter(table, p));
  }

  /** A booking's messages are shown to anyone who opens its chat; an
      apartment's other messages only to their two participants. */
  lemma VisibilityByParticipant(bookingId: Option<Id>, apartmentId: Option<Id>, me: Option<string>, m: Message)
    ensures bookingId.Some? && m.bookingId == bookingId ==> Visible(bookingId, apartmentId, me, m)
    ensures Visible(bookingId, apartmentId, me, m) && !(bookingId.Some? && m.bookingId == bookingId) ==>
      me.Some? && (me.value == m.createdBy || me.value == m.recipientEmail)
  {
  }

  /** The unread messages addressed to the viewer. */
  predicate ToMarkRead(me: string, m: Message)
  {
    !m.isRead && m.recipientEmail == me
  }

  function Ids(ms: seq<Message>): (r: seq<Id>)
    ensures |r| == |ms| && forall i :: 0 <= i < |ms| ==> r[i] == ms[i].id
  {
    if ms == [] then [] else Ids(ms[..|ms| - 1]) + [ms[|ms| - 1].id]
  }

  /** The effect after each fetch: walk the shown messages and collect the id
      of every one the viewer has not read yet; nothing without a viewer. */
  method MarkReadTargets(shown: seq<Message>, me: Option<string>) returns (ids: seq<Id>)
    ensures me.None? ==> ids == []
    ensures me.Some? ==> ids == Ids(Filter(shown, (m: Message) => ToMarkRead(me.value, m)))
  {
    ids := [];
    if me.None? {
      return;
    }
    var email := me.value;
    var i := 0;
    while i < |shown|
      invariant 0 <= i <= |shown|
      invariant ids == Ids(Filter(shown[..i], (m: Message) => ToMarkRead(email, m)))
    {
      MarkReadStep(shown, email, i);
      if !shown[i].isRead && shown[i].recipientEmail == email {
        ids := ids + [shown[i].id];
      }
      i := i + 1;
    }
    assert shown[..|shown|] == shown;
  }

  /** One step of the walk: the next message adds its id exactly when it is
      to be marked. */
  lemma MarkReadStep(shown: seq<Message>, me: string, i: nat)
    requires i < |shown|
    ensures var before := Ids(Filter(shown[..i], (m: Message) => ToMarkRead(me, m)));
            Ids(Filter(shown[..i + 1], (m: Message) => ToMarkRead(me, m))) ==
              if ToMarkRead(me, shown[i]) then before + [shown[i].id] else before
  {
    assert shown[..i + 1][..i] == shown[..i];
    var f := Filter(shown[..i], (m: Message) => ToMarkRead(me, m));
    if ToMarkRead(me, shown[i]) {
      assert (f + [shown[i]])[..|f|] == f;
    }
  }

  /** Exactly the unread messages addressed to the viewer are marked: a
      marked id belongs to one, and every one has its id marked. */
  lemma MarkReadExactly(shown: seq<Message>, me: string, m: Message)
    ensures var ids := Ids(Filter(shown, (x: Message) => ToMarkRead(me, x)));
            (m in shown && ToMarkRead(me, m) ==> m.id in ids) &&
            (forall i :: 0 <= i < |ids| ==> exists x :: x in shown && ToMarkRead(me, x) && x.id == ids[i])
  {
    var f := Filter(shown, (x: Message) => ToMarkRead(me, x));
    var ids := Ids(f);
    if m in shown && ToMarkRead(me, m) {
      FilterMembers(shown, (x: Message) => ToMarkRead(me, x), m);
      var k :| 0 <= k < |f| && f[k] == m;
      assert ids[k] == m.id;
    }
    forall i | 0 <= i < |ids| ensures exists x :: x in shown && ToMarkRead(me, x) && x.id == ids[i] {
      assert f[i] in shown && ToMarkRead(me, f[i]);
    }
  }

  /** The viewer's own messages are drawn on the right. */
  function IsOwn(me: string, m: Message): (r: bool)
    ensures !r && Visible(None, m.apartmentId, Some(me), m) ==> m.recipientEmail == me
  {
    m.createdBy == me
  }

  /** `handleSendMessage` as written: nothing for blank text; otherwise the
      text, the recipient and the apartment and booking ids, and no sender. */
  function SendBodyAsWritten(text: string, recipientEmail: Option<string>, apartmentId: Option<Id>, bookingId: Option<Id>): (r: Option<Messages.MessageBody>)
    ensures r.Some? <==> exists i :: 0 <= i < |text| && !IsJsSpace(text[i])
    ensures r.Some? ==> r.value.createdBy.None?
  {
    TrimEmptyIffAllSpace(text);
    if Trim(text) == "" then None
    else Some(Messages.MessageBody(Some(text), apartmentId, bookingId, recipientEmail, None))
  }

  /** Every body the window sends as written is refused by the message
      route, which requires a sender. */
  lemma SentAsWrittenIsRejected(table: seq<Message>, nextId: nat, text: string, recipientEmail: Option<string>,
                                apartmentId: Option<Id>, bookingId: Option<Id>)
    requires SendBodyAsWritten(text, recipientEmail, apartmentId, bookingId).Some?
    ensures Messages.PostMessage(table, nextId, SendBodyAsWritten(text, recipientEmail, apartmentId, bookingId).value).1
            == Fail(400, Messages.MissingMessageFields)
  {
  }

  /** The send body with the viewer as sender. */
  function SendBody(text: string, recipientEmail: Option<string>, apartmentId: Option<Id>, bookingId: Option<Id>, me: string): (r: Option<Messages.MessageBody>)
    ensures r.Some? <==> exists i :: 0 <= i < |text| && !IsJsSpace(text[i])
    ensures r.Some? ==> r.value == Messages.MessageBody(Some(text), apartmentId, bookingId, recipientEmail, Some(me))
  {
    TrimEmptyIffAllSpace(text);
    if Trim(text) == "" then None
    else Some(Messages.MessageBody(Some(text), apartmentId, bookingId, recipientEmail, Some(me)))
  }

  /** With a sender and a known recipient, the route stores what the window
      sends: an unread message from the viewer, carrying the given recipient
      and ids, which the recipient's window then marks. */
  lemma SentIsStoredAndReachesRecipient(table: seq<Message>, nextId: nat, text: string, recipient: string,
                                        apartmentId: Option<Id>, bookingId: Option<Id>, me: string)
    requires SendBody(text, Some(recipient), apartmentId, bookingId, me).Some?
    requires recipient != "" && me != ""
    ensures var r := Messages.PostMessage(table, nextId, SendBody(text, Some(recipient), apartmentId, bookingId, me).value).1;
            && r.Ok? && r.value.createdBy == me && r.value.recipientEmail == recipient
            && r.value.apartmentId == apartmentId && r.value.bookingId == bookingId
            && IsOwn(me, r.value) && ToMarkRead(recipient, r.value)
  {
    assert text != "";
  }

  /** The message input. */
  class Composer {
    var messageText: string

    constructor ()
      ensures messageText == ""
    {
      messageText := "";
    }

    /** After a successful send the input is cleared. */
    method OnSent()
      modifies this
      ensures messageText == ""
    {
      messageText := "";
    }
  }
}
