/** The browser-side data client: each entity's `filter` fetches the whole
    list and keeps the rows that match ONE criterion, the first present one in
    a fixed precedence; the auth helpers resolve the user's email. The fetch
    itself is a parameter (the list the server returned). */
module ClientApi {
  import opened Common
  import opened Entities

  datatype BookingParams = BookingParams(id: Option<Id>, apartmentId: Option<Id>, createdBy: Option<string>)

  /** `Booking.filter`: `id`, else `apartment_id`, else `created_by`, else everything. */
  function BookingFilter(bookings: seq<Booking>, q: BookingParams): (r: seq<Booking>)
    ensures q.id.Some? ==>
      forall b :: b in r <==> b in bookings && b.id == q.id.value
    ensures q.id.None? && q.apartmentId.Some? ==>
      forall b :: b in r <==> b in bookings && b.apartmentId == q.apartmentId.value
    ensures q.id.None? && q.apartmentId.None? && Truthy(q.createdBy) ==>
      forall b :: b in r <==> b in bookings && b.createdBy == q.createdBy.value
    ensures q.id.None? && q.apartmentId.None? && !Truthy(q.createdBy) ==> r == bookings
    ensures IsSubsequence(r, bookings)
  {
    if q.id.Some? then Filter(bookings, (b: Booking) => b.id == q.id.value)
    else if q.apartmentId.Some? then Filter(bookings, (b: Booking) => b.apartmentId == q.apartmentId.value)
    else if Truthy(q.createdBy) then Filter(bookings, (b: Booking) => b.createdBy == q.createdBy.value)
    else SubsequenceReflexive(bookings); bookings
  }

  datatype PaymentParams = PaymentParams(id: Option<Id>, bookingId: Option<Id>, paidBy: Option<string>)

  /** `Payment.filter`: `id`, else `booking_id`, else `paid_by`, else everything. */
  function PaymentFilter(payments: seq<Payment>, q: PaymentParams): (r: seq<Payment>)
    ensures q.id.Some? ==>
      forall p :: p in r <==> p in payments && p.id == q.id.value
    ensures q.id.None? && q.bookingId.Some? ==>
      forall p :: p in r <==> p in payments && p.bookingId == q.bookingId.value
    ensures q.id.None? && q.bookingId.None? && Truthy(q.paidBy) ==>
      forall p :: p in r <==> p in payments && p.paidBy == q.paidBy.value
    ensures q.id.None? && q.bookingId.None? && !Truthy(q.paidBy) ==> r == payments
    ensures IsSubsequence(r, payments)
  {
    if q.id.Some? then Filter(payments, (p: Payment) => p.id == q.id.value)
    else if q.bookingId.Some? then Filter(payments, (p: Payment) => p.bookingId == q.bookingId.value)
    else if Truthy(q.paidBy) then Filter(payments, (p: Payment) => p.paidBy == q.paidBy.value)
    else SubsequenceReflexive(payments); payments
  }

  datatype TicketParams = TicketParams(id: Option<Id>, status: Option<string>, createdBy: Option<string>)

  /** `SupportTicket.filter`: `id`, else `status`, else `created_by`, else everything. */
  function TicketFilter(tickets: seq<Ticket>, q: TicketParams): (r: seq<Ticket>)
    ensures q.id.Some? ==>
      forall t :: t in r <==> t in tickets && t.id == q.id.value
    ensures q.id.None? && Truthy(q.status) ==>
      forall t :: t in r <==> t in tickets && t.status == q.status.value
    ensures q.id.None? && !Truthy(q.status) && Truthy(q.createdBy) ==>
      forall t :: t in r <==> t in tickets && t.createdBy == q.createdBy.value
    ensures q.id.None? && !Truthy(q.status) && !Truthy(q.createdBy) ==> r == tickets
    ensures IsSubsequence(r, tickets)
  {
    if q.id.Some? then Filter(tickets, (t: Ticket) => t.id == q.id.value)
    else if Truthy(q.status) then Filter(tickets, (t: Ticket) => t.status == q.status.value)
    else if Truthy(q.createdBy) then Filter(tickets, (t: Ticket) => t.createdBy == q.createdBy.value)
    else SubsequenceReflexive(tickets); tickets
  }

  datatype ReviewParams = ReviewParams(apartmentId: Option<Id>, bookingId: Option<Id>)

  /** `Review.filter`: `apartment_id`, else `booking_id`, else everything. */
  function ReviewFilter(reviews: seq<Review>, q: ReviewParams): (r: seq<Review>)
    ensures q.apartmentId.Some? ==>
      forall v :: v in r <==> v in reviews && v.apartmentId == q.apartmentId.value
    ensures q.apartmentId.None? && q.bookingId.Some? ==>
      forall v :: v in r <==> v in reviews && v.bookingId == q.bookingId.value
    ensures q.apartmentId.None? && q.bookingId.None? ==> r == reviews
    ensures IsSubsequence(r, reviews)
  {
    if q.apartmentId.Some? then Filter(reviews, (v: Review) => v.apartmentId == q.apartmentId.value)
    else if q.bookingId.Some? then Filter(reviews, (v: Review) => v.bookingId == q.bookingId.value)
    else SubsequenceReflexive(reviews); reviews
  }

  datatype UserParams = UserParams(email: Option<string>, id: Option<Id>)

  /** `User.filter`: `email`, else `id`, else everything. */
  function UserFilter(users: seq<Profile>, q: UserParams): (r: seq<Profile>)
    ensures Truthy(q.email) ==>
      forall u :: u in r <==> u in users && u.email == q.email.value
    ensures !Truthy(q.email) && q.id.Some? ==>
      forall u :: u in r <==> u in users && u.id == q.id.value
    ensures !Truthy(q.email) && q.id.None? ==> r == users
    ensures IsSubsequence(r, users)
  {
    if Truthy(q.email) then Filter(users, (u: Profile) => u.email == q.email.value)
    else if q.id.Some? then Filter(users, (u: Profile) => u.id == q.id.value)
    else SubsequenceReflexive(users); users
  }

  /** The message `fetchAPI` throws when the server's error reply has none. */
  const RequestFailed := "Ошибка при выполнении запроса"

  /** The message of the error `fetchAPI` throws for a reply that is not ok:
      the reply's `error` field, or the generic text. It is never empty. */
  function FetchError(serverError: Option<string>): (m: string)
    ensures m != ""
    ensures Truthy(serverError) ==> m == serverError.value
    ensures !Truthy(serverError) ==> m == RequestFailed
  {
    OrElse(serverError, RequestFailed)
  }

  /** The entities `base44.entities` defines and the route each one calls. */
  function EntityRoute(name: string): (r: Option<string>)
    ensures r.Some? <==> name in {"Apartment", "Booking", "Review", "User", "SupportTicket", "Payment"}
    ensures r.Some? ==> |r.value| > 1 && r.value[0] == '/'
  {
    if name == "Apartment" then Some("/apartments")
    else if name == "Booking" then Some("/bookings")
    else if name == "Review" then Some("/reviews")
    else if name == "User" then Some("/users")
    else if name == "SupportTicket" then Some("/support-tickets")
    else if name == "Payment" then Some("/payments")
    else None
  }

  /** The chat window calls `base44.entities.Message`, which the client does
      not define: every call throws before a request is made. */
  lemma MessageEntityMissing()
    ensures EntityRoute("Message").None?
  {
  }

  /** The client with the entity the chat window needs, reaching the
      message route. */
  function EntityRouteWithMessages(name: string): (r: Option<string>)
    ensures r.Some? <==> EntityRoute(name).Some? || name == "Message"
    ensures name == "Message" ==> r == Some("/messages")
    ensures name != "Message" ==> r == EntityRoute(name)
  {
    if name == "Message" then Some("/messages") else EntityRoute(name)
  }

  /** With `Message` added, no two entities share a route. */
  lemma EntityRoutesDistinct(a: string, b: string)
    requires EntityRouteWithMessages(a).Some? && a != b
    ensures EntityRouteWithMessages(a) != EntityRouteWithMessages(b)
  {
  }

  /** `Apartment.filter`: with an `id` it fetches that one apartment and wraps
      it in a list, and the fetch throws when the server has no such
      apartment; without an `id` it returns the whole list. */
  function ApartmentFilter(apartments: seq<Apartment>, id: Option<Id>): (r: Reply<seq<Apartment>>)
    ensures id.None? ==> r == Ok(apartments)
    ensures id.Some? ==> (r.Fail? <==> forall i :: 0 <= i < |apartments| ==> apartments[i].id != id.value)
    ensures id.Some? && r.Ok? ==>
      exists i :: 0 <= i < |apartments| && apartments[i].id == id.value && r.value == [apartments[i]]
  {
    if id.None? then Ok(apartments)
    else match FindFirst(apartments, (a: Apartment) => a.id == id.value)
      case None => Fail(404, RequestFailed)
      case Some(a) => Ok([a])
  }

  /** With unique ids, the one-apartment fetch is what filtering the whole
      list by that id gives, as the other entities' `filter` does. */
  lemma ApartmentFilterById(apartments: seq<Apartment>, id: Id)
    requires forall i, j :: 0 <= i < j < |apartments| ==> apartments[i].id != apartments[j].id
    requires exists i :: 0 <= i < |apartments| && apartments[i].id == id
    ensures ApartmentFilter(apartments, Some(id)) == Ok(Filter(apartments, (a: Apartment) => a.id == id))
  {
    var k := FirstIndex(apartments, (a: Apartment) => a.id == id).value;
    FilterSingle(apartments, (a: Apartment) => a.id == id, k);
  }

  /** The body `SupportTicket.create` sends: the caller's fields, with
      `created_by` falling back to the email kept in the browser. */
  datatype TicketBody = TicketBody(subject: Option<string>, message: Option<string>, createdBy: Option<string>, status: Option<string>)

  function TicketCreateBody(data: TicketBody, storedEmail: Option<string>): (r: TicketBody)
    ensures Truthy(data.createdBy) ==> r.createdBy == data.createdBy
    ensures !Truthy(data.createdBy) ==> r.createdBy == storedEmail
    ensures r.subject == data.subject && r.message == data.message && r.status == data.status
  {
    data.(createdBy := if Truthy(data.createdBy) then data.createdBy else storedEmail)
  }

  /** `auth.me(email)` and `updateMe({email, ...})`: the explicit email, else the
      stored one; `None` is the thrown "email not given" error. */
  function ResolveEmail(explicit: Option<string>, stored: Option<string>): (r: Option<string>)
    ensures r.Some? <==> Truthy(explicit) || Truthy(stored)
    ensures r.Some? ==> r.value != ""
    ensures Truthy(explicit) ==> r == explicit
    ensures !Truthy(explicit) && Truthy(stored) ==> r == stored
  {
    if Truthy(explicit) then explicit
    else if Truthy(stored) then stored
    else None
  }
}
