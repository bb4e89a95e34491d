/** The payments route of the marketplace server: listing with optional
    filters, lookup by id, and recording a payment, which marks the booking
    completed when the payment is. */
module Payments {
  import opened Common
  import opened Entities
  import Table

  const MissingFields := "Необходимо указать booking_id, amount, payment_method и paid_by"
  const BookingNotFound := "Бронирование не найдено"
  const PaymentNotFound := "Оплата не найдена"

  /** The JSON body of `POST /payments`; `None` is an absent field. */
  datatype PaymentBody = PaymentBody(
    bookingId: Option<Id>,
    amount: Option<int>,
    paymentMethod: Option<string>,
    status: Option<string>,
    transactionId: Option<string>,
    paidBy: Option<string>)

  /** The four required fields are present and truthy (an amount of 0 is falsy). */
  predicate HasRequiredFields(body: PaymentBody)
  {
    body.bookingId.Some? && body.amount.Some? && body.amount.value != 0 &&
    Truthy(body.paymentMethod) && Truthy(body.paidBy)
  }

  /** The stored state the route reads and writes. */
  datatype Ledger = Ledger(payments: seq<Payment>, bookings: map<Id, Booking>, nextId: nat)

  /** The `status` column of the new payment: `'pending'` unless given. */
  function StatusOf(body: PaymentBody): string
  {
    if body.status.Some? then body.status.value else Pending
  }

  /** Payment ids are unique and all below the next id to hand out. */
  ghost predicate FreshIds(l: Ledger)
  {
    && (forall i, j :: 0 <= i < j < |l.payments| ==> l.payments[i].id != l.payments[j].id)
    && (forall i :: 0 <= i < |l.payments| ==> l.payments[i].id < l.nextId)
  }

  /** `POST /payments` as a function of the stored state. */
  function Post(l: Ledger, body: PaymentBody, now: int): (res: (Ledger, Reply<Payment>))
    ensures !HasRequiredFields(body) ==> res == (l, Fail(400, MissingFields))
    ensures HasRequiredFields(body) && body.bookingId.value !in l.bookings ==> res == (l, Fail(404, BookingNotFound))
    ensures res.1.Ok? <==> HasRequiredFields(body) && body.bookingId.value in l.bookings
    ensures res.1.Ok? ==>
      && res.0.payments == l.payments + [res.1.value]
      && res.0.nextId == l.nextId + 1
      && res.1.value.id == l.nextId
      && res.1.value.bookingId == body.bookingId.value
      && res.1.value.amount == body.amount.value
      && res.1.value.paymentMethod == body.paymentMethod.value
      && res.1.value.paidBy == body.paidBy.value
      && res.1.value.status == StatusOf(body)
      && res.1.value.transactionId == (if Truthy(body.transactionId) then body.transactionId else None)
    ensures res.1.Ok? && StatusOf(body) == Completed ==>
      && res.0.bookings.Keys == l.bookings.Keys
      && res.0.bookings[body.bookingId.value]
           == l.bookings[body.bookingId.value].(status := Completed, updatedDate := Some(now))
      && forall k :: k in l.bookings && k != body.bookingId.value ==> res.0.bookings[k] == l.bookings[k]
    ensures res.1.Ok? && StatusOf(body) != Completed ==> res.0.bookings == l.bookings
    ensures FreshIds(l) ==> FreshIds(res.0)
  {
    if !HasRequiredFields(body) then (l, Fail(400, MissingFields))
    else if body.bookingId.value !in l.bookings then (l, Fail(404, BookingNotFound))
    else
      var bid := body.bookingId.value;
      var p := Payment(l.nextId, bid, body.amount.value, body.paymentMethod.value, StatusOf(body),
                       if Truthy(body.transactionId) then body.transactionId else None, body.paidBy.value);
      var bookings :=
        if StatusOf(body) == Completed
        then l.bookings[bid := l.bookings[bid].(status := Completed, updatedDate := Some(now))]
        else l.bookings;
      (Ledger(l.payments + [p], bookings, l.nextId + 1), Ok(p))
  }

  /** The filters of `GET /payments`; each one applies only when truthy. */
  datatype PaymentQuery = PaymentQuery(bookingId: Option<Id>, status: Option<string>, paidBy: Option<string>)

  predicate MatchesQuery(q: PaymentQuery, p: Payment)
  {
    && (q.bookingId.Some? ==> p.bookingId == q.bookingId.value)
    && (Truthy(q.status) ==> p.status == q.status.value)
    && (Truthy(q.paidBy) ==> p.paidBy == q.paidBy.value)
  }

  /** The listed payments are exactly the matching ones; an empty query lists all. */
  lemma ListedPayments(payments: seq<Payment>, q: PaymentQuery, p: Payment)
    ensures p in Reverse(Filter(payments, (x: Payment) => MatchesQuery(q, x))) <==> p in payments && MatchesQuery(q, p)
    ensures q.bookingId.None? && !Truthy(q.status) && !Truthy(q.paidBy) ==> MatchesQuery(q, p)
  {
    Table.NewestFirstMembers(payments, (x: Payment) => MatchesQuery(q, x), p);
  }

  /** A completed payment completes its booking whatever the booking's
      status was, a cancelled one included. */
  lemma CompletedPaymentCompletesAnyBooking(l: Ledger, body: PaymentBody, now: int)
    requires HasRequiredFields(body) && body.bookingId.value in l.bookings
    requires body.status == Some(Completed)
    requires l.bookings[body.bookingId.value].status == Cancelled
    ensures Post(l, body, now).0.bookings[body.bookingId.value].status == Completed
  {
  }

  /** Posting the same completed payment twice: the booking stays completed,
      and two payment rows with the same transaction id are stored. */
  lemma RepeatedCompletedPayment(l: Ledger, body: PaymentBody, now1: int, now2: int)
    requires HasRequiredFields(body) && body.bookingId.value in l.bookings
    requires body.status == Some(Completed) && Truthy(body.transactionId)
    ensures var once := Post(l, body, now1).0;
            var twice := Post(once, body, now2).0;
            && twice.bookings[body.bookingId.value].status == once.bookings[body.bookingId.value].status == Completed
            && |twice.payments| == |l.payments| + 2
            && twice.payments[|l.payments|].transactionId == twice.payments[|l.payments| + 1].transactionId
            && twice.payments[|l.payments|].id != twice.payments[|l.payments| + 1].id
  {
    var once := Post(l, body, now1);
    assert once.1.Ok?;
    var twice := Post(once.0, body, now2);
    assert twice.1.Ok?;
    assert twice.0.payments == l.payments + [once.1.value] + [twice.1.value];
  }

  /** The payments route over its tables. Payment ids come from `nextId`. */
  class PaymentsRoute {
    var payments: seq<Payment>
    var bookings: map<Id, Booking>
    var nextId: nat

    ghost predicate Valid()
      reads this
    {
      FreshIds(Snapshot())
    }

    function Snapshot(): Ledger
      reads this
    {
      Ledger(payments, bookings, nextId)
    }

    constructor (bookings: map<Id, Booking>)
      ensures Valid() && Snapshot() == Ledger([], bookings, 0)
    {
      this.payments := [];
      this.bookings := bookings;
      this.nextId := 0;
    }

    /** `GET /payments`: matching payments, newest first. */
    method List(q: PaymentQuery) returns (r: seq<Payment>)
      ensures r == Reverse(Filter(payments, (x: Payment) => MatchesQuery(q, x)))
    {
      r := Table.SelectNewestFirst(payments, (x: Payment) => MatchesQuery(q, x));
    }

    /** `GET /payments/:id` */
    method Get(id: Id) returns (r: Reply<Payment>)
      ensures r.Fail? <==> forall i :: 0 <= i < |payments| ==> payments[i].id != id
      ensures r.Fail? ==> r == Fail(404, PaymentNotFound)
      ensures r.Ok? ==> r.value in payments && r.value.id == id
    {
      var found := FindFirst(payments, (p: Payment) => p.id == id);
      if found.None? {
        r := Fail(404, PaymentNotFound);
      } else {
        r := Ok(found.value);
      }
    }

    /** `POST /payments`: validate, insert the payment row, then complete the
        booking when the payment is completed. */
    method Create(body: PaymentBody, now: int) returns (r: Reply<Payment>)
      requires Valid()
      modifies this
      ensures Valid()
      ensures (Snapshot(), r) == Post(old(Snapshot()), body, now)
    {
      if !HasRequiredFields(body) {
        return Fail(400, MissingFields);
      }
      var bid := body.bookingId.value;
      if bid !in bookings {
        return Fail(404, BookingNotFound);
      }
      var paymentId := nextId;
      nextId := nextId + 1;
      var status := if body.status.Some? then body.status.value else Pending;
      var transactionId := if Truthy(body.transactionId) then body.transactionId else None;
      var p := Payment(paymentId, bid, body.amount.value, body.paymentMethod.value, status, transactionId, body.paidBy.value);
      payments := payments + [p];
      if status == Completed {
        var b := bookings[bid];
        bookings := bookings[bid := b.(status := Completed, updatedDate := Some(now))];
      }
      r := Ok(p);
    }
  }
}
