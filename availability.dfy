/** The apartment page's booking rule: which existing bookings block a date
    range, the three-part conflict test, the price of a stay, and the booking
    request the page submits. Dates are day numbers. */
module Availability {
  import opened Common
  import opened Entities
  import ClientApi

  /** Only pending and confirmed bookings are kept as blocking. */
  predicate Blocks(b: Booking)
  {
    b.status == Confirmed || b.status == Pending
  }

  /** The page's booking query: the apartment's bookings (through
      `Booking.filter({apartment_id})`) that still block. */
  function BlockingBookings(all: seq<Booking>, apartmentId: Id): (r: seq<Booking>)
    ensures forall b :: b in r <==> b in all && b.apartmentId == apartmentId && Blocks(b)
    ensures forall b :: b in r ==> b.status != Cancelled && b.status != Completed
  {
    var mine := ClientApi.BookingFilter(all, ClientApi.BookingParams(None, Some(apartmentId), None));
    Filter(mine, Blocks)
  }

  /** The page's three-part test between the candidate range and one booking. */
  function ThreePartConflict(start: int, end: int, b: Booking): (r: bool)
    ensures Overlaps(start, end, b.checkIn, b.checkOut) ==> r
    ensures start < end && b.checkIn < b.checkOut ==> (r <==> Overlaps(start, end, b.checkIn, b.checkOut))
  {
    || (start >= b.checkIn && start < b.checkOut)
    || (end > b.checkIn && end <= b.checkOut)
    || (start <= b.checkIn && end >= b.checkOut)
  }

  /** Half-open intervals `[s1, e1)` and `[s2, e2)` share a day. */
  predicate Overlaps(s1: int, e1: int, s2: int, e2: int)
  {
    s1 < e2 && s2 < e1
  }

  /** Back-to-back stays do not conflict, on either side. */
  lemma BackToBackIsFree(start: int, end: int, b: Booking)
    requires start < end && b.checkIn < b.checkOut
    ensures start == b.checkOut ==> !ThreePartConflict(start, end, b)
    ensures end == b.checkIn ==> !ThreePartConflict(start, end, b)
  {
  }

  /** A zero-night range on an existing check-in day is flagged, although it
      shares no night with that booking. */
  lemma ZeroNightRangeAtCheckInConflicts(b: Booking)
    requires b.checkIn < b.checkOut
    ensures ThreePartConflict(b.checkIn, b.checkIn, b)
    ensures !Overlaps(b.checkIn, b.checkIn, b.checkIn, b.checkOut)
  {
  }

  /** `bookings.some(b => conflict)` */
  function AnyConflict(bookings: seq<Booking>, start: int, end: int): (r: bool)
    ensures r <==> exists i :: 0 <= i < |bookings| && ThreePartConflict(start, end, bookings[i])
  {
    if bookings == [] then false
    else ThreePartConflict(start, end, bookings[0]) || AnyConflict(bookings[1..], start, end)
  }

  /** `isDateRangeAvailable`: a missing date or booking list is "available";
      otherwise no blocking booking may pass the three-part test. */
  function IsDateRangeAvailable(start: Option<int>, end: Option<int>, bookings: Option<seq<Booking>>): (r: bool)
    ensures start.None? || end.None? || bookings.None? ==> r
    ensures start.Some? && end.Some? && bookings.Some? ==>
      (r <==> forall b :: b in bookings.value ==> !ThreePartConflict(start.value, end.value, b))
  {
    if start.None? || end.None? || bookings.None? then true
    else !AnyConflict(bookings.value, start.value, end.value)
  }

  /** More bookings can only take availability away: the test is an
      existential over the list. */
  lemma AvailabilityMonotone(start: Option<int>, end: Option<int>, bookings: seq<Booking>, more: seq<Booking>)
    ensures IsDateRangeAvailable(start, end, Some(bookings + more)) ==> IsDateRangeAvailable(start, end, Some(bookings))
    ensures IsDateRangeAvailable(start, end, Some(bookings + more)) ==> IsDateRangeAvailable(start, end, Some(more))
  {
  }

  /** A range is free in a combined list iff it is free in each part. */
  lemma AvailabilityOfUnion(start: Option<int>, end: Option<int>, bookings: seq<Booking>, more: seq<Booking>)
    ensures IsDateRangeAvailable(start, end, Some(bookings + more)) <==>
      IsDateRangeAvailable(start, end, Some(bookings)) && IsDateRangeAvailable(start, end, Some(more))
  {
  }

  /** Cancelled and completed bookings never make a range unavailable: adding
      one to the fetched list leaves the page's answer unchanged. */
  lemma NonBlockingBookingIsIgnored(all: seq<Booking>, apartmentId: Id, b: Booking, start: Option<int>, end: Option<int>)
    requires !Blocks(b)
    ensures IsDateRangeAvailable(start, end, Some(BlockingBookings(all + [b], apartmentId)))
        == IsDateRangeAvailable(start, end, Some(BlockingBookings(all, apartmentId)))
  {
    var before := BlockingBookings(all, apartmentId);
    var after := BlockingBookings(all + [b], apartmentId);
    forall x ensures x in after <==> x in before {
    }
  }

  /** `datesAvailable`: only checked once both dates are chosen. */
  function DatesAvailable(checkIn: Option<int>, checkOut: Option<int>, blocking: Option<seq<Booking>>): (r: bool)
    ensures checkIn.None? || checkOut.None? || blocking.None? ==> r
    ensures (checkIn.Some? && checkOut.Some? && blocking.Some? && checkIn.value < checkOut.value
             && (forall b :: b in blocking.value ==> b.checkIn < b.checkOut)) ==>
      (r <==> forall b :: b in blocking.value ==> !Overlaps(checkIn.value, checkOut.value, b.checkIn, b.checkOut))
  {
    if checkIn.Some? && checkOut.Some? then IsDateRangeAvailable(checkIn, checkOut, blocking) else true
  }

  /** `calculateTotalPrice`: nights times the nightly price, 0 while a date
      or the apartment is missing. */
  function TotalPrice(checkIn: Option<int>, checkOut: Option<int>, apartment: Option<Apartment>): (p: int)
    ensures checkIn.None? || checkOut.None? || apartment.None? ==> p == 0
    ensures (checkIn.Some? && checkOut.Some? && apartment.Some? && checkIn.value <= checkOut.value
             && apartment.value.pricePerNight >= 0) ==> p >= 0
    ensures (checkIn.Some? && checkOut.Some? && apartment.Some? && checkIn.value + 1 == checkOut.value)
            ==> p == apartment.value.pricePerNight
  {
    if checkIn.None? || checkOut.None? || apartment.None? then 0
    else (checkOut.value - checkIn.value) * apartment.value.pricePerNight
  }

  /** The price of a stay is the sum of the prices of its parts. */
  lemma TotalPriceSplits(a: int, b: int, c: int, apartment: Apartment)
    ensures TotalPrice(Some(a), Some(c), Some(apartment))
         == TotalPrice(Some(a), Some(b), Some(apartment)) + TotalPrice(Some(b), Some(c), Some(apartment))
    ensures TotalPrice(Some(a), Some(a), Some(apartment)) == 0
    ensures TotalPrice(Some(a), Some(a + 1), Some(apartment)) == apartment.pricePerNight
  {
    var p := apartment.pricePerNight;
    assert (c - a) * p == (b - a) * p + (c - b) * p by {
      assert c - a == (b - a) + (c - b);
    }
  }

  /** A missing input prices the stay at 0. */
  lemma TotalPriceMissingIsZero(checkIn: Option<int>, checkOut: Option<int>, apartment: Option<Apartment>)
    requires checkIn.None? || checkOut.None? || apartment.None?
    ensures TotalPrice(checkIn, checkOut, apartment) == 0
  {
  }

  /** The body the page posts to create a booking. */
  datatype BookingRequest = BookingRequest(
    apartmentId: Id,
    checkIn: int,
    checkOut: int,
    guests: int,
    totalPrice: int,
    specialRequests: string,
    createdBy: string,
    status: string)

  /** `handleBooking`: the handler returns no request without both dates,
      an available range and a user email; otherwise a pending booking by
      that user, priced by `TotalPrice`. Whether the form reaches the handler
      at all is `SubmitForm`. */
  function HandleBooking(apartmentId: Id, checkIn: Option<int>, checkOut: Option<int>, guests: int,
                         specialRequests: string, user: Option<Profile>, apartment: Option<Apartment>,
                         blocking: Option<seq<Booking>>): (r: Option<BookingRequest>)
    ensures r.Some? <==>
      checkIn.Some? && checkOut.Some? && DatesAvailable(checkIn, checkOut, blocking) && Truthy(EmailOf(user))
    ensures r.Some? ==>
      && r.value.status == Pending
      && r.value.createdBy == user.value.email
      && r.value.checkIn == checkIn.value && r.value.checkOut == checkOut.value
      && r.value.apartmentId == apartmentId
      && r.value.totalPrice == TotalPrice(checkIn, checkOut, apartment)
      && r.value.guests == guests && r.value.specialRequests == specialRequests
  {
    if checkIn.None? || checkOut.None? || !DatesAvailable(checkIn, checkOut, blocking) || !Truthy(EmailOf(user)) then None
    else Some(BookingRequest(apartmentId, checkIn.value, checkOut.value, guests,
                             TotalPrice(checkIn, checkOut, apartment), specialRequests, user.value.email, Pending))
  }

  /** A submitted request never shares a night with a blocking booking of
      positive length, when its own range is non-empty. */
  lemma SubmittedRequestDoesNotOverlap(apartmentId: Id, checkIn: Option<int>, checkOut: Option<int>, guests: int,
                                       specialRequests: string, user: Option<Profile>, apartment: Option<Apartment>,
                                       blocking: seq<Booking>, b: Booking)
    requires HandleBooking(apartmentId, checkIn, checkOut, guests, specialRequests, user, apartment, Some(blocking)).Some?
    requires b in blocking && b.checkIn < b.checkOut
    ensures !Overlaps(checkIn.value, checkOut.value, b.checkIn, b.checkOut)
  {
  }

  /** The stay charged night by night: the sum of the one-night prices of
      the `n` nights starting on day `a`. */
  function NightByNight(a: int, n: nat, apartment: Apartment): int
  {
    if n == 0 then 0
    else NightByNight(a, n - 1, apartment) + TotalPrice(Some(a + n - 1), Some(a + n), Some(apartment))
  }

  /** The page's price of `n` nights equals charging each night separately,
      which is `n` times the nightly price. */
  lemma {:induction false} TotalPriceIsNightByNight(a: int, n: nat, apartment: Apartment)
    ensures TotalPrice(Some(a), Some(a + n), Some(apartment)) == NightByNight(a, n, apartment)
    ensures NightByNight(a, n, apartment) == n * apartment.pricePerNight
  {
    if n > 0 {
      TotalPriceIsNightByNight(a, n - 1, apartment);
      TotalPriceSplits(a, a + n - 1, a + n, apartment);
    }
  }

  /** `isProfileIncomplete`: no user, no phone, or the profile not marked
      completed. */
  function ProfileIncomplete(user: Option<Profile>): (r: bool)
    ensures !r <==> user.Some? && user.value.phone.Some? && user.value.phone.value != "" && user.value.profileCompleted != 0
  {
    user.None? || !Truthy(user.value.phone) || user.value.profileCompleted == 0
  }

  /** The form's only submit button is disabled without both dates, for a
      taken range, while a booking is being created, and for an incomplete
      profile; a disabled button submits nothing. */
  function SubmitEnabled(checkIn: Option<int>, checkOut: Option<int>, blocking: Option<seq<Booking>>,
                          creating: bool, user: Option<Profile>): (r: bool)
    ensures r ==> checkIn.Some? && checkOut.Some? && user.Some? && !creating
    ensures r && blocking.Some? ==> forall b :: b in blocking.value ==> !ThreePartConflict(checkIn.value, checkOut.value, b)
  {
    checkIn.Some? && checkOut.Some? && DatesAvailable(checkIn, checkOut, blocking) && !creating && !ProfileIncomplete(user)
  }

  /** Submitting the booking form: the button must be enabled, and then
      `handleBooking` decides. A request goes out exactly when the button is
      enabled and the user has an email. */
  function SubmitForm(apartmentId: Id, checkIn: Option<int>, checkOut: Option<int>, guests: int,
                      specialRequests: string, user: Option<Profile>, apartment: Option<Apartment>,
                      blocking: Option<seq<Booking>>, creating: bool): (r: Option<BookingRequest>)
    ensures r.Some? <==> SubmitEnabled(checkIn, checkOut, blocking, creating, user) && Truthy(EmailOf(user))
    ensures r.Some? ==> r == HandleBooking(apartmentId, checkIn, checkOut, guests, specialRequests, user, apartment, blocking)
    ensures r.Some? ==> user.Some? && Truthy(user.value.phone) && user.value.profileCompleted != 0
  {
    if SubmitEnabled(checkIn, checkOut, blocking, creating, user)
    then HandleBooking(apartmentId, checkIn, checkOut, guests, specialRequests, user, apartment, blocking)
    else None
  }
}
