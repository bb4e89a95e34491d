/** The booking card on the bookings pages: who counts as the apartment's
    owner, which actions the card offers, the status changes its buttons send,
    and the review form. `None` stands for a value the page has not loaded
    (`undefined`); comparing two of those with `===` gives true, while a
    NULL `created_by` (`null`) equals neither. */
module BookingCard {
  import opened Common
  import opened Entities

  /** `isOwner`: an administrator, or `apartment?.created_by === currentUser?.email`. */
  function IsOwner(user: Option<Profile>, apartment: Option<Apartment>): (r: bool)
    ensures user.Some? && apartment.Some? && apartment.value.createdBy.Some? ==>
      (r <==> user.value.role == Admin || apartment.value.createdBy.value == user.value.email)
  {
    IsAdmin(user) || OwnerOf(apartment) == Js(EmailOf(user))
  }

  /** While neither the user nor the apartment has loaded, both sides of the
      email comparison are undefined and the card treats the viewer as owner. */
  lemma UnloadedViewerCountsAsOwner()
    ensures IsOwner(None, None)
  {
  }

  /** An apartment stored without an owner (`created_by` NULL) is nobody's:
      `null === undefined` is false, so a viewer not yet loaded is not its
      owner, and only an administrator is. */
  lemma OwnerlessApartmentHasNoOwner(user: Option<Profile>, apartment: Apartment)
    requires apartment.createdBy.None?
    ensures IsOwner(user, Some(apartment)) <==> IsAdmin(user)
  {
  }

  /** `canLeaveReview` */
  function CanLeaveReview(booking: Booking, existingReview: Option<Review>, user: Option<Profile>): (r: bool)
    ensures r <==> booking.status == Completed && existingReview.None? && user.Some? && user.value.email == booking.createdBy
  {
    && booking.status == Completed
    && existingReview.None?
    && Some(booking.createdBy) == EmailOf(user)
  }

  /** `chatRecipient`, given the card's owner test: the guest when the viewer
      is the owner, else the apartment's owner if it has one. Both booking
      cards use it, each with its own `isOwner`. */
  function ChatRecipient(isOwner: bool, booking: Booking, apartment: Option<Apartment>): (r: Option<string>)
    ensures isOwner ==> r == Some(booking.createdBy)
    ensures !isOwner ==> r == OwnerOf(apartment).AsOption()
  {
    if isOwner then Some(booking.createdBy) else OwnerOf(apartment).AsOption()
  }

  /** The chat button: only for live bookings with a known recipient. */
  function ShowChat(isOwner: bool, booking: Booking, apartment: Option<Apartment>): (r: bool)
    ensures r ==> booking.status == Confirmed || booking.status == Pending
    ensures r && isOwner ==> booking.createdBy != ""
    ensures r && !isOwner ==> apartment.Some? && apartment.value.createdBy.Some? && apartment.value.createdBy.value != ""
  {
    (booking.status == Confirmed || booking.status == Pending) && Truthy(ChatRecipient(isOwner, booking, apartment))
  }

  /** An owner who is not the guest always chats with the guest; a guest
      always chats with the apartment's owner. */
  lemma ChatReachesTheOtherSide(booking: Booking, apartment: Apartment, user: Profile)
    requires user.role != Admin
    requires ShowChat(IsOwner(Some(user), Some(apartment)), booking, Some(apartment))
    ensures apartment.createdBy == Some(user.email) ==>
      ChatRecipient(IsOwner(Some(user), Some(apartment)), booking, Some(apartment)) == Some(booking.createdBy)
    ensures apartment.createdBy != Some(user.email) ==>
      ChatRecipient(IsOwner(Some(user), Some(apartment)), booking, Some(apartment)) == apartment.createdBy
    ensures booking.status != Cancelled && booking.status != Completed
  {
  }

  /** The pay button: the guest's own confirmed booking. */
  function ShowPay(booking: Booking, user: Option<Profile>): (r: bool)
    ensures r <==> booking.status == Confirmed && user.Some? && user.value.email == booking.createdBy
  {
    booking.status == Confirmed && Some(booking.createdBy) == EmailOf(user)
  }

  /** The confirm and cancel buttons. */
  function ShowOwnerActions(showActions: bool, booking: Booking, apartment: Option<Apartment>, user: Option<Profile>): (r: bool)
    ensures r ==> showActions && booking.status == Pending
    ensures (r && user.Some? && user.value.role != Admin && apartment.Some? && apartment.value.createdBy.Some?)
            ==> apartment.value.createdBy.value == user.value.email
  {
    showActions && IsOwner(user, apartment) && booking.status == Pending
  }

  /** `Booking.update(id, { status })`: the request carries the status only. */
  datatype StatusUpdate = StatusUpdate(id: Id, status: string)

  datatype OwnerChoice = Confirm | Cancel

  /** The status change a click sends: a button only exists on a pending
      booking the viewer owns and the page shows actions for, and both are
      disabled while an update is in flight. */
  function OwnerAction(choice: OwnerChoice, showActions: bool, updating: bool, booking: Booking,
                       apartment: Option<Apartment>, user: Option<Profile>): (r: Option<StatusUpdate>)
    ensures r.Some? <==> ShowOwnerActions(showActions, booking, apartment, user) && !updating
    ensures r.Some? ==> r.value.id == booking.id
    ensures r.Some? ==> r.value.status == (if choice == Confirm then Confirmed else Cancelled)
  {
    if !ShowOwnerActions(showActions, booking, apartment, user) || updating then None
    else if choice == Confirm then Some(StatusUpdate(booking.id, Confirmed))
    else Some(StatusUpdate(booking.id, Cancelled))
  }

  /** The status changes the card's buttons can make. */
  predicate UiTransition(from: string, to: string)
  {
    from == Pending && (to == Confirmed || to == Cancelled)
  }

  /** Every change the card sends is pending -> confirmed or pending -> cancelled. */
  lemma OwnerActionsFollowLifecycle(choice: OwnerChoice, showActions: bool, updating: bool, booking: Booking,
                                    apartment: Option<Apartment>, user: Option<Profile>)
    requires OwnerAction(choice, showActions, updating, booking, apartment, user).Some?
    ensures UiTransition(booking.status, OwnerAction(choice, showActions, updating, booking, apartment, user).value.status)
    ensures IsOwner(user, apartment)
  {
  }

  /** The query string of a page link. */
  datatype QueryParam = QueryParam(key: string, value: Id)

  /** `URLSearchParams.get(key)`: the first parameter with exactly that key. */
  function GetParam(query: seq<QueryParam>, key: string): (r: Option<Id>)
    ensures r.None? <==> forall i :: 0 <= i < |query| ==> query[i].key != key
    ensures r.Some? ==> exists i :: 0 <= i < |query| && query[i] == QueryParam(key, r.value)
                                     && forall j :: 0 <= j < i ==> query[j].key != key
  {
    match FirstIndex(query, (q: QueryParam) => q.key == key)
    case None => None
    case Some(i) => Some(query[i].value)
  }

  /** The payment page reads the booking from the `bookingid` parameter and
      sends the user back to the bookings list when it is missing. */
  function PaymentPageBookingId(query: seq<QueryParam>): Option<Id>
  {
    GetParam(query, "bookingid")
  }

  /** The card's pay button link. */
  function PayLink(bookingId: Id): seq<QueryParam>
  {
    [QueryParam("bookingid", bookingId)]
  }

  /** The payment page opened from this card finds the booking. */
  lemma PayLinkReachesPayment(bookingId: Id)
    ensures PaymentPageBookingId(PayLink(bookingId)) == Some(bookingId)
  {
    assert PayLink(bookingId)[0].key == "bookingid";
  }

  /** The rating form state. */
  class ReviewForm {
    var rating: int
    var cleanliness: int
    var communication: int
    var location: int
    var value: int
    var comment: string
    var open: bool

    constructor ()
      ensures rating == 5 && cleanliness == 5 && communication == 5 && location == 5 && value == 5
      ensures comment == "" && !open
    {
      rating, cleanliness, communication, location, value := 5, 5, 5, 5, 5;
      comment, open := "", false;
    }

    /** After the review is stored: the dialog closes and every field is reset. */
    method OnReviewCreated()
      modifies this
      ensures rating == 5 && cleanliness == 5 && communication == 5 && location == 5 && value == 5
      ensures comment == "" && !open
    {
      open := false;
      comment := "";
      rating, cleanliness, communication, location, value := 5, 5, 5, 5, 5;
    }
  }

  /** The submit button is disabled while the review is being sent or the
      comment is blank after trimming. */
  function SubmitEnabled(pending: bool, comment: string): (r: bool)
    ensures r <==> !pending && exists i :: 0 <= i < |comment| && !IsJsSpace(comment[i])
  {
    TrimEmptyIffAllSpace(comment);
    !pending && Trim(comment) != ""
  }
}
