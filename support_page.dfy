/** The user's support page: the user's own tickets, and the new-ticket form. */
module SupportPage {
  import opened Common
  import opened Entities
  import ClientApi
  import SupportTickets

  /** The ticket list: empty until a user is known (the query is disabled and
      its initial data is empty), then the fetched tickets the user created,
      in the fetched order. */
  function OwnTickets(fetched: seq<Ticket>, user: Option<Profile>): (r: seq<Ticket>)
    ensures user.None? ==> r == []
    ensures user.Some? ==> forall t :: t in r <==> t in fetched && t.createdBy == user.value.email
    ensures IsSubsequence(r, fetched)
  {
    if user.None? then
      SubsequenceOfEmpty(fetched);
      []
    else
      var p := (t: Ticket) => t.createdBy == user.value.email;
      assert forall t :: t in Filter(fetched, p) <==> t in fetched && p(t) by {
        forall t ensures t in Filter(fetched, p) <==> t in fetched && p(t) {
          FilterMembers(fetched, p, t);
        }
      }
      Filter(fetched, p)
  }

  lemma SubsequenceOfEmpty<T>(s: seq<T>)
    ensures IsSubsequence([], s)
  {
  }

  /** The form's body: subject and message only; the client adds the creator. */
  function SubmitBody(subject: string, message: string): (body: ClientApi.TicketBody)
    ensures body.subject == Some(subject) && body.message == Some(message)
    ensures body.createdBy.None? && body.status.None?
  {
    ClientApi.TicketBody(Some(subject), Some(message), None, None)
  }

  /** A ticket submitted from this page, while the browser stores the user's
      email, is created open and by that user, and shows up in the user's
      own list. */
  lemma CreatedTicketIsListed(table: seq<Ticket>, nextId: nat, subject: string, message: string, user: Profile)
    requires subject != "" && message != "" && user.email != ""
    ensures var (after, r) := SupportTickets.PostTicket(table, nextId,
                                ClientApi.TicketCreateBody(SubmitBody(subject, message), Some(user.email)));
            && r.Ok? && r.value.status == SupportTickets.Open && r.value.createdBy == user.email
            && r.value in OwnTickets(Reverse(after), Some(user))
  {
    var (after, r) := SupportTickets.PostTicket(table, nextId,
                        ClientApi.TicketCreateBody(SubmitBody(subject, message), Some(user.email)));
    assert r.value in after;
    ReverseMembers(after, r.value);
  }

  /** The new-ticket form. */
  class TicketForm {
    var subject: string
    var message: string
    var shown: bool

    constructor ()
      ensures subject == "" && message == "" && !shown
    {
      subject, message, shown := "", "", false;
    }

    /** After the ticket is created the form is emptied and hidden. */
    method OnCreated()
      modifies this
      ensures subject == "" && message == "" && !shown
    {
      subject, message := "", "";
      shown := false;
    }
  }
}
