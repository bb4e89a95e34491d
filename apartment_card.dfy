/** The second booking card (kept next to the apartment components): the same
    rules as `BookingCard` with a guard for a missing booking, an owner test
    that needs the apartment, id-guarded status changes, a review button hidden
    while the form is open, and its own payment link. */
module ApartmentCard {
  import opened Common
  import opened Entities
  import BookingCard

  /** `isOwner`: an administrator, or the apartment is loaded and its
      `created_by` equals `currentUser?.email`. */
  function IsOwner(user: Option<Profile>, apartment: Option<Apartment>): (r: bool)
    ensures r <==> IsAdmin(user) || (user.Some? && apartment.Some? && apartment.value.createdBy == Some(user.value.email))
  {
    IsAdmin(user) || (apartment.Some? && OwnerOf(apartment) == Js(EmailOf(user)))
  }

  /** The two cards disagree on ownership only while the apartment is missing
      and the user is not known. */
  lemma OwnerTestsAgree(user: Option<Profile>, apartment: Option<Apartment>)
    ensures apartment.Some? || user.Some? ==> (IsOwner(user, apartment) <==> BookingCard.IsOwner(user, apartment))
    ensures apartment.None? && user.None? ==> !IsOwner(user, apartment) && BookingCard.IsOwner(user, apartment)
  {
  }

  /** What the card shows. */
  datatype View =
    | Placeholder
    | Card(isOwner: bool, canLeaveReview: bool, chatRecipient: Option<string>,
           showChat: bool, showPay: bool, showReviewButton: bool, showOwnerActions: bool)

  /** The card: a placeholder without a booking, otherwise the flags that
      decide each section. */
  function Render(booking: Option<Booking>, apartment: Option<Apartment>, user: Option<Profile>,
                  existingReview: Option<Review>, showActions: bool, showReviewForm: bool): (v: View)
    ensures booking.None? <==> v.Placeholder?
    ensures v.Card? ==> (v.isOwner <==> IsOwner(user, apartment))
    ensures v.Card? ==> v.chatRecipient == BookingCard.ChatRecipient(IsOwner(user, apartment), booking.value, apartment)
    ensures v.Card? ==> (v.showChat <==> BookingCard.ShowChat(IsOwner(user, apartment), booking.value, apartment))
    ensures v.Card? ==> (v.showReviewButton <==> v.canLeaveReview && !showReviewForm)
    ensures v.Card? ==> (v.showOwnerActions <==> showActions && IsOwner(user, apartment) && booking.value.status == Pending)
    ensures v.Card? ==> (v.showPay <==> booking.value.status == Confirmed && EmailOf(user) == Some(booking.value.createdBy))
    ensures v.Card? ==> (v.canLeaveReview <==> BookingCard.CanLeaveReview(booking.value, existingReview, user))
  {
    if booking.None? then Placeholder
    else
      var b := booking.value;
      var owner := IsOwner(user, apartment);
      var review := BookingCard.CanLeaveReview(b, existingReview, user);
      var recipient := BookingCard.ChatRecipient(owner, b, apartment);
      Card(owner, review, recipient,
           (b.status == Confirmed || b.status == Pending) && Truthy(recipient),
           BookingCard.ShowPay(b, user),
           review && !showReviewForm,
           showActions && owner && b.status == Pending)
  }

  /** A click on the confirm or cancel button: both are disabled while an
      update is in flight, and `handleConfirm` / `handleCancel` send nothing
      without a booking id. */
  function StatusChange(choice: BookingCard.OwnerChoice, bookingId: Option<Id>, updating: bool): (r: Option<BookingCard.StatusUpdate>)
    ensures r.Some? <==> bookingId.Some? && !updating
    ensures r.Some? ==> r.value.id == bookingId.value
    ensures r.Some? ==> BookingCard.UiTransition(Pending, r.value.status)
    ensures r.Some? ==> r.value.status == (if choice == BookingCard.Confirm then Confirmed else Cancelled)
  {
    if bookingId.None? || updating then None
    else if choice == BookingCard.Confirm then Some(BookingCard.StatusUpdate(bookingId.value, Confirmed))
    else Some(BookingCard.StatusUpdate(bookingId.value, Cancelled))
  }

  /** The pay link as this card builds it: the parameter is named `bookingId`. */
  function PayLinkAsWritten(bookingId: Id): seq<BookingCard.QueryParam>
  {
    [BookingCard.QueryParam("bookingId", bookingId)]
  }

  /** The payment page looks for `bookingid`, so a link from this card never
      carries a booking it can read. */
  lemma PayLinkAsWrittenLosesBooking(bookingId: Id)
    ensures BookingCard.PaymentPageBookingId(PayLinkAsWritten(bookingId)).None?
  {
    assert "bookingId" != "bookingid" by {
      assert "bookingId"[7] != "bookingid"[7];
    }
  }

  /** The pay link with the parameter name the payment page reads. */
  function PayLink(bookingId: Id): (q: seq<BookingCard.QueryParam>)
    ensures BookingCard.PaymentPageBookingId(q) == Some(bookingId)
  {
    BookingCard.PayLinkReachesPayment(bookingId);
    BookingCard.PayLink(bookingId)
  }
}
