/** The administrators' support board: the admin gate, the three status
    tabs, "take in work", and the response dialog that answers and closes a
    ticket. */
module SupportAdmin {
  import opened Common
  import opened Entities
  import SupportTickets

  /** The page: access denied, or the three tabs. */
  datatype Board =
    | AccessDenied
    | Tabs(open: seq<Ticket>, inProgress: seq<Ticket>, closed: seq<Ticket>)

  function WithStatus(tickets: seq<Ticket>, status: string): (r: seq<Ticket>)
    ensures forall t :: t in r <==> t in tickets && t.status == status
    ensures IsSubsequence(r, tickets)
  {
    var p := (t: Ticket) => t.status == status;
    assert forall t :: t in Filter(tickets, p) <==> t in tickets && p(t) by {
      forall t ensures t in Filter(tickets, p) <==> t in tickets && p(t) {
        FilterMembers(tickets, p, t);
      }
    }
    Filter(tickets, p)
  }

  /** Only an administrator sees the tabs. */
  function Render(user: Option<Profile>, tickets: seq<Ticket>): (b: Board)
    ensures b.AccessDenied? <==> !IsAdmin(user)
    ensures b.Tabs? ==>
      && b.open == WithStatus(tickets, SupportTickets.Open)
      && b.inProgress == WithStatus(tickets, SupportTickets.InProgress)
      && b.closed == WithStatus(tickets, SupportTickets.Closed)
  {
    if !IsAdmin(user) then AccessDenied
    else Tabs(WithStatus(tickets, SupportTickets.Open),
              WithStatus(tickets, SupportTickets.InProgress),
              WithStatus(tickets, SupportTickets.Closed))
  }

  /** The tabs split the tickets: no ticket is in two tabs, and every ticket
      with one of the three statuses is in its tab. A ticket with any other
      status is in none. */
  lemma TabsPartition(user: Option<Profile>, tickets: seq<Ticket>, t: Ticket)
    requires IsAdmin(user)
    ensures var b := Render(user, tickets);
            && !(t in b.open && t in b.inProgress)
            && !(t in b.open && t in b.closed)
            && !(t in b.inProgress && t in b.closed)
            && (t in tickets && t.status in {SupportTickets.Open, SupportTickets.InProgress, SupportTickets.Closed} <==>
                  t in b.open || t in b.inProgress || t in b.closed)
  {
    assert SupportTickets.Open != SupportTickets.InProgress by {
      assert SupportTickets.Open[0] != SupportTickets.InProgress[0];
    }
    assert SupportTickets.Open != SupportTickets.Closed by {
      assert SupportTickets.Open[0] != SupportTickets.Closed[0];
    }
    assert SupportTickets.InProgress != SupportTickets.Closed by {
      assert SupportTickets.InProgress[0] != SupportTickets.Closed[0];
    }
  }

  /** "Take in work": offered on open tickets only, it sends the new status. */
  function TakeInWork(t: Ticket): (patch: Option<map<string, string>>)
    ensures patch.Some? <==> t.status == SupportTickets.Open
    ensures patch.Some? ==> patch.value.Keys == {"status"} && patch.value["status"] == SupportTickets.InProgress
  {
    if t.status == SupportTickets.Open then Some(map["status" := SupportTickets.InProgress]) else None
  }

  /** On the route, taking an open ticket in work changes its status and
      nothing else but the update time. */
  lemma TakeInWorkOnRoute(t: Ticket, now: int)
    requires t.status == SupportTickets.Open
    ensures var u := SupportTickets.ApplyPatch(t, TakeInWork(t).value, now);
            u == t.(status := SupportTickets.InProgress, updatedDate := Some(now))
  {
  }

  /** The body of the response: the answer, the closed status, the
      responding administrator and the time. */
  function ResponsePatch(response: string, adminEmail: string, at: string): (patch: map<string, string>)
    ensures patch.Keys == {"admin_response", "status", "responded_by", "responded_at"}
    ensures patch.Keys <= SupportTickets.UpdatableKeys
  {
    map["admin_response" := response, "status" := SupportTickets.Closed,
        "responded_by" := adminEmail, "responded_at" := at]
  }

  /** Answering through the route closes the ticket, records who answered
      and when, and keeps the user's subject, message and authorship; the
      ticket then moves to the closed tab, where no response form is shown. */
  lemma ResponseClosesTicket(t: Ticket, response: string, adminEmail: string, at: string, now: int)
    ensures var u := SupportTickets.ApplyPatch(t, ResponsePatch(response, adminEmail, at), now);
            && u.status == SupportTickets.Closed
            && u.adminResponse == Some(response) && u.respondedBy == Some(adminEmail) && u.respondedAt == Some(at)
            && u.subject == t.subject && u.message == t.message && u.createdBy == t.createdBy && u.id == t.id
            && !ResponseFormShown(u)
  {
  }

  /** The response form is shown for tickets that are not closed. */
  function ResponseFormShown(t: Ticket): (r: bool)
    ensures t.status == SupportTickets.Open || t.status == SupportTickets.InProgress ==> r
    ensures t.status == SupportTickets.Closed ==> !r
  {
    t.status != SupportTickets.Closed
  }

  /** The response dialog. */
  class ResponseDialog {
    var selected: Option<Ticket>
    var responseText: string
    var open: bool

    constructor ()
      ensures selected.None? && responseText == "" && !open
    {
      selected, responseText, open := None, "", false;
    }

    /** `handleOpenTicket`: select the ticket, pre-fill its answer. */
    method OpenTicket(t: Ticket)
      modifies this
      ensures selected == Some(t) && open
      ensures responseText == OrElse(t.adminResponse, "")
    {
      selected := Some(t);
      responseText := OrElse(t.adminResponse, "");
      open := true;
    }

    /** Submitting the response form. The form exists only for a ticket
        that is not closed; the browser refuses an empty answer (`required`);
        the button is disabled while an answer is being sent; and
        `handleSubmitResponse` sends nothing without a selected ticket.
        Otherwise the answer patch for that ticket goes out. */
    method Submit(adminEmail: string, at: string, sending: bool) returns (request: Option<(Id, map<string, string>)>)
      ensures request.Some? <==>
        selected.Some? && ResponseFormShown(selected.value) && responseText != "" && !sending
      ensures request.Some? ==> request.value == (selected.value.id, ResponsePatch(responseText, adminEmail, at))
    {
      if selected.None? || !ResponseFormShown(selected.value) || responseText == "" || sending {
        return None;
      }
      request := Some((selected.value.id, ResponsePatch(responseText, adminEmail, at)));
    }

    /** After the answer is stored: the dialog closes and is cleared. */
    method OnResponded()
      modifies this
      ensures selected.None? && responseText == "" && !open
    {
      open := false;
      selected := None;
      responseText := "";
    }
  }
}
