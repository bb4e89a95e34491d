/** The Telegram mini-app's "my bookings" page: the status labels and
    classes, and the choice between the loading, empty and list views. */
module BookingsPage {
  import opened Common
  import TelegramBackend

  const PendingLabel := "Ожидает подтверждения"
  const ConfirmedLabel := "Подтверждено"
  const CancelledLabel := "Отменено"

  /** `getStatusText`: the three known statuses have fixed labels; any other
      status is shown as it is. */
  function StatusText(status: string): (text: string)
    ensures status == "pending" ==> text == PendingLabel
    ensures status == "confirmed" ==> text == ConfirmedLabel
    ensures status == "cancelled" ==> text == CancelledLabel
    ensures status !in {"pending", "confirmed", "cancelled"} ==> text == status
  {
    if status == "pending" then PendingLabel
    else if status == "confirmed" then ConfirmedLabel
    else if status == "cancelled" then CancelledLabel
    else status
  }

  /** The three known statuses get three different labels, and a status
      the page does not know, such as "completed", keeps its name. */
  lemma LabelsAreDistinct()
    ensures StatusText("pending") != StatusText("confirmed")
    ensures StatusText("pending") != StatusText("cancelled")
    ensures StatusText("confirmed") != StatusText("cancelled")
    ensures StatusText("completed") == "completed"
  {
    assert PendingLabel[0] != ConfirmedLabel[0];
    assert |PendingLabel| != |CancelledLabel|;
    assert |ConfirmedLabel| != |CancelledLabel|;
  }

  /** Two statuses the page does not know never share a label. */
  lemma UnknownStatusKeepsItsName(s: string, t: string)
    requires s !in {"pending", "confirmed", "cancelled"}
    ensures StatusText(s) == StatusText(t) && t !in {"pending", "confirmed", "cancelled"} ==> s == t
  {
  }

  /** `getStatusClass` */
  function StatusClass(status: string): (c: string)
    ensures |c| == 7 + |status| && c[..7] == "status-" && c[7..] == status
  {
    "status-" + status
  }

  /** The class determines the status it was made from. */
  lemma StatusClassInjective(s: string, t: string)
    requires StatusClass(s) == StatusClass(t)
    ensures s == t
  {
    assert s == StatusClass(s)[7..];
  }

  /** A fetched booking, with its property when the server included it. */
  datatype ListedBooking = ListedBooking(booking: TelegramBackend.TgBooking, property: Option<TelegramBackend.Property>)

  /** A booking's card: blank without a property; otherwise the status badge
      and the property's title. */
  datatype Card = Blank | Detailed(statusClass: string, statusText: string, title: string)

  datatype View = Loading | Empty | Cards(cards: seq<Card>)

  function CardOf(b: ListedBooking): (c: Card)
    ensures c.Blank? <==> b.property.None?
    ensures c.Detailed? ==>
      c == Detailed(StatusClass(b.booking.status), StatusText(b.booking.status), b.property.value.title)
  {
    if b.property.None? then Blank
    else Detailed(StatusClass(b.booking.status), StatusText(b.booking.status), b.property.value.title)
  }

  function CardsOf(bookings: seq<ListedBooking>): (r: seq<Card>)
    ensures |r| == |bookings| && forall i :: 0 <= i < |bookings| ==> r[i] == CardOf(bookings[i])
  {
    if bookings == [] then [] else [CardOf(bookings[0])] + CardsOf(bookings[1..])
  }

  /** The page: the spinner while loading, then the empty state for an
      empty list, otherwise one card per booking in the fetched order. */
  function Render(loading: bool, bookings: seq<ListedBooking>): (v: View)
    ensures loading <==> v.Loading?
    ensures v.Empty? <==> !loading && bookings == []
    ensures v.Cards? ==>
              && |v.cards| == |bookings| > 0
              && forall i :: 0 <= i < |bookings| ==> v.cards[i] == CardOf(bookings[i])
  {
    if loading then Loading
    else if |bookings| == 0 then Empty
    else Cards(CardsOf(bookings))
  }

  /** Over the backend's list for a user, every card with a property shows
      that booking's status, and since the backend creates bookings
      confirmed, a booking it created reads "Подтверждено". */
  lemma CreatedBookingReadsConfirmed(db: TelegramBackend.Db, body: TelegramBackend.BookingBody, p: TelegramBackend.Property)
    requires TelegramBackend.PostBooking(db, body).1.Ok?
    ensures var b := TelegramBackend.PostBooking(db, body).1.value;
            CardOf(ListedBooking(b, Some(p))) == Detailed("status-confirmed", ConfirmedLabel, p.title)
  {
  }
}
