/** The Telegram mini-app backend: one property by id, booking creation with
    date validation and find-or-create of the Telegram user, a user's
    bookings newest first, and favorites. Dates are timestamps; a date the
    server cannot parse is `None`. */
module TelegramBackend {
  import opened Common
  import Table

  const NotFound := "Не найдено"
  const BadDateFormat := "Неверный формат даты"
  const CheckOutNotAfterCheckIn := "Дата выезда должна быть позже даты заезда"
  const Confirmed := "confirmed"

  datatype TgUser = TgUser(id: Id, telegramId: string, firstName: Option<string>, username: Option<string>)
  datatype Property = Property(id: Id, title: string, price: int)
  datatype TgBooking = TgBooking(id: Id, userId: Id, propertyId: int, checkIn: int, checkOut: int, status: string)
  datatype Favorite = Favorite(id: Id, userId: Id, propertyId: int)

  /** The body of `POST /api/bookings`. */
  datatype BookingBody = BookingBody(
    telegramId: string, propertyId: int, checkIn: Option<int>, checkOut: Option<int>,
    firstName: Option<string>, username: Option<string>)

  /** The four tables and the id counters. */
  datatype Db = Db(
    users: seq<TgUser>, properties: seq<Property>, bookings: seq<TgBooking>, favorites: seq<Favorite>,
    nextUserId: nat, nextBookingId: nat, nextFavoriteId: nat)

  /** `telegramId` is a unique column of the user table. */
  ghost predicate UniqueTelegramIds(users: seq<TgUser>)
  {
    forall i, j :: 0 <= i < j < |users| ==> users[i].telegramId != users[j].telegramId
  }

  /** `findUnique({ where: { telegramId } })` */
  function FindUser(users: seq<TgUser>, telegramId: string): (r: Option<TgUser>)
    ensures r.None? <==> forall i :: 0 <= i < |users| ==> users[i].telegramId != telegramId
    ensures r.Some? ==> r.value in users && r.value.telegramId == telegramId
  {
    FindFirst(users, (u: TgUser) => u.telegramId == telegramId)
  }

  /** With unique Telegram ids the lookup returns the one user holding that id. */
  lemma FindUserIsTheUser(users: seq<TgUser>, telegramId: string, k: nat)
    requires UniqueTelegramIds(users)
    requires k < |users| && users[k].telegramId == telegramId
    ensures FindUser(users, telegramId) == Some(users[k])
  {
    var idx := FirstIndex(users, (u: TgUser) => u.telegramId == telegramId).value;
    assert users[idx].telegramId == users[k].telegramId;
  }

  /** Find the user by Telegram id, or create one with the given names. */
  function EnsureUser(db: Db, telegramId: string, firstName: Option<string>, username: Option<string>): (res: (Db, TgUser))
    ensures res.1.telegramId == telegramId && res.1 in res.0.users
    ensures FindUser(db.users, telegramId).Some? ==> res == (db, FindUser(db.users, telegramId).value)
    ensures FindUser(db.users, telegramId).None? ==>
      && res.0 == db.(users := db.users + [res.1], nextUserId := db.nextUserId + 1)
      && res.1 == TgUser(db.nextUserId, telegramId, firstName, username)
    ensures UniqueTelegramIds(db.users) ==> UniqueTelegramIds(res.0.users)
  {
    match FindUser(db.users, telegramId)
    case Some(u) => (db, u)
    case None =>
      var u := TgUser(db.nextUserId, telegramId, firstName, username);
      (db.(users := db.users + [u], nextUserId := db.nextUserId + 1), u)
  }

  /** `POST /api/bookings` as a function of the database. */
  function PostBooking(db: Db, body: BookingBody): (res: (Db, Reply<TgBooking>))
    ensures body.checkIn.None? || body.checkOut.None? ==> res == (db, Fail(400, BadDateFormat))
    ensures body.checkIn.Some? && body.checkOut.Some? && body.checkOut.value <= body.checkIn.value ==>
      res == (db, Fail(400, CheckOutNotAfterCheckIn))
    ensures res.1.Ok? <==> body.checkIn.Some? && body.checkOut.Some? && body.checkIn.value < body.checkOut.value
    ensures res.1.Ok? ==>
      && res.0.bookings == db.bookings + [res.1.value]
      && res.1.value.id == db.nextBookingId
      && res.1.value.status == Confirmed
      && res.1.value.propertyId == body.propertyId
      && res.1.value.checkIn == body.checkIn.value && res.1.value.checkOut == body.checkOut.value
      && res.0.favorites == db.favorites && res.0.properties == db.properties
      && exists u :: u in res.0.users && u.id == res.1.value.userId && u.telegramId == body.telegramId
    ensures UniqueTelegramIds(db.users) ==> UniqueTelegramIds(res.0.users)
  {
    if body.checkIn.None? || body.checkOut.None? then (db, Fail(400, BadDateFormat))
    else if body.checkOut.value <= body.checkIn.value then (db, Fail(400, CheckOutNotAfterCheckIn))
    else
      var (db1, u) := EnsureUser(db, body.telegramId, body.firstName, body.username);
      var b := TgBooking(db1.nextBookingId, u.id, body.propertyId, body.checkIn.value, body.checkOut.value, Confirmed);
      (db1.(bookings := db1.bookings + [b], nextBookingId := db1.nextBookingId + 1), Ok(b))
  }

  /** Two bookings under the same Telegram id are owned by one user, and the
      second request adds no user. */
  lemma SameTelegramIdSharesUser(db: Db, first: BookingBody, second: BookingBody)
    requires UniqueTelegramIds(db.users)
    requires first.telegramId == second.telegramId
    requires PostBooking(db, first).1.Ok?
    ensures var (db1, r1) := PostBooking(db, first);
            var (db2, r2) := PostBooking(db1, second);
            r2.Ok? ==> r2.value.userId == r1.value.userId && db2.users == db1.users
  {
    var (db1, r1) := PostBooking(db, first);
    var u1 := EnsureUser(db, first.telegramId, first.firstName, first.username).1;
    assert db1.users == EnsureUser(db, first.telegramId, first.firstName, first.username).0.users;
    var k :| 0 <= k < |db1.users| && db1.users[k] == u1;
    FindUserIsTheUser(db1.users, first.telegramId, k);
  }

  /** No overlap check: two bookings of one property for the very same
      dates are both stored as confirmed. */
  lemma OverlappingBookingsAreBothConfirmed(db: Db, body: BookingBody)
    requires body.checkIn.Some? && body.checkOut.Some? && body.checkIn.value < body.checkOut.value
    ensures var (db1, r1) := PostBooking(db, body);
            var (db2, r2) := PostBooking(db1, body);
            && r1.Ok? && r2.Ok? && r1.value.status == r2.value.status == Confirmed
            && r1.value.propertyId == r2.value.propertyId
            && r1.value.checkIn == r2.value.checkIn && r1.value.checkOut == r2.value.checkOut
            && db2.bookings == db.bookings + [r1.value, r2.value]
  {
  }

  /** `GET /api/bookings/:telegramId`: nothing for an unknown user, otherwise
      that user's bookings, newest first. */
  function UserBookings(db: Db, telegramId: string): (r: seq<TgBooking>)
    ensures FindUser(db.users, telegramId).None? ==> r == []
    ensures FindUser(db.users, telegramId).Some? ==>
      forall b :: b in r <==> b in db.bookings && b.userId == FindUser(db.users, telegramId).value.id
  {
    match FindUser(db.users, telegramId)
    case None => []
    case Some(u) =>
      var p := (b: TgBooking) => b.userId == u.id;
      Table.NewestFirstMembersAll(db.bookings, p);
      Reverse(Filter(db.bookings, p))
  }

  /** `POST /api/favorites`: find or create the user (without names), then add
      one favorite row. */
  function PostFavorite(db: Db, telegramId: string, propertyId: int): (res: (Db, Favorite))
    ensures res.0.favorites == db.favorites + [res.1]
    ensures res.1.id == db.nextFavoriteId && res.1.propertyId == propertyId
    ensures exists u :: u in res.0.users && u.id == res.1.userId && u.telegramId == telegramId
    ensures FindUser(db.users, telegramId).Some? ==> res.0.users == db.users
    ensures FindUser(db.users, telegramId).None? ==> |res.0.users| == |db.users| + 1
    ensures res.0.bookings == db.bookings && res.0.properties == db.properties
    ensures UniqueTelegramIds(db.users) ==> UniqueTelegramIds(res.0.users)
  {
    var (db1, u) := EnsureUser(db, telegramId, None, None);
    var f := Favorite(db1.nextFavoriteId, u.id, propertyId);
    (db1.(favorites := db1.favorites + [f], nextFavoriteId := db1.nextFavoriteId + 1), f)
  }

  /** The backend over its tables. */
  class Backend {
    var users: seq<TgUser>
    var properties: seq<Property>
    var bookings: seq<TgBooking>
    var favorites: seq<Favorite>
    var nextUserId: nat
    var nextBookingId: nat
    var nextFavoriteId: nat

    ghost predicate Valid()
      reads this
    {
      && UniqueTelegramIds(users)
      && (forall i :: 0 <= i < |users| ==> users[i].id < nextUserId)
      && (forall i :: 0 <= i < |bookings| ==> bookings[i].id < nextBookingId)
      && (forall i :: 0 <= i < |favorites| ==> favorites[i].id < nextFavoriteId)
    }

    function Snapshot(): Db
      reads this
    {
      Db(users, properties, bookings, favorites, nextUserId, nextBookingId, nextFavoriteId)
    }

    constructor (properties: seq<Property>)
      ensures Valid() && Snapshot() == Db([], properties, [], [], 0, 0, 0)
    {
      this.users, this.properties, this.bookings, this.favorites := [], properties, [], [];
      this.nextUserId, this.nextBookingId, this.nextFavoriteId := 0, 0, 0;
    }

    /** `GET /api/properties/:id` */
    method GetProperty(id: Id) returns (r: Reply<Property>)
      ensures r.Fail? <==> forall i :: 0 <= i < |properties| ==> properties[i].id != id
      ensures r.Fail? ==> r == Fail(404, NotFound)
      ensures r.Ok? ==> r.value in properties && r.value.id == id
    {
      var found := FindFirst(properties, (p: Property) => p.id == id);
      if found.None? {
        r := Fail(404, NotFound);
      } else {
        r := Ok(found.value);
      }
    }

    /** Find the user by Telegram id or insert a new one. */
    method FindOrCreateUser(telegramId: string, firstName: Option<string>, username: Option<string>) returns (u: TgUser)
      requires Valid()
      modifies this
      ensures Valid()
      ensures (Snapshot(), u) == EnsureUser(old(Snapshot()), telegramId, firstName, username)
    {
      var found := FindUser(users, telegramId);
      if found.Some? {
        u := found.value;
      } else {
        u := TgUser(nextUserId, telegramId, firstName, username);
        users := users + [u];
        nextUserId := nextUserId + 1;
      }
    }

    /** `POST /api/bookings`: validate the dates, find or create the user,
        insert a confirmed booking. */
    method CreateBooking(body: BookingBody) returns (r: Reply<TgBooking>)
      requires Valid()
      modifies this
      ensures Valid()
      ensures (Snapshot(), r) == PostBooking(old(Snapshot()), body)
    {
      if body.checkIn.None? || body.checkOut.None? {
        return Fail(400, BadDateFormat);
      }
      if body.checkOut.value <= body.checkIn.value {
        return Fail(400, CheckOutNotAfterCheckIn);
      }
      var u := FindOrCreateUser(body.telegramId, body.firstName, body.username);
      var b := TgBooking(nextBookingId, u.id, body.propertyId, body.checkIn.value, body.checkOut.value, Confirmed);
      bookings := bookings + [b];
      nextBookingId := nextBookingId + 1;
      r := Ok(b);
    }

    /** `GET /api/bookings/:telegramId` */
    method GetUserBookings(telegramId: string) returns (r: seq<TgBooking>)
      ensures r == UserBookings(Snapshot(), telegramId)
    {
      var found := FindUser(users, telegramId);
      if found.None? {
        return [];
      }
      var u := found.value;
      r := Table.SelectNewestFirst(bookings, (b: TgBooking) => b.userId == u.id);
    }

    /** `POST /api/favorites` */
    method AddFavorite(telegramId: string, propertyId: int) returns (f: Favorite)
      requires Valid()
      modifies this
      ensures Valid()
      ensures (Snapshot(), f) == PostFavorite(old(Snapshot()), telegramId, propertyId)
    {
      var u := FindOrCreateUser(telegramId, None, None);
      f := Favorite(nextFavoriteId, u.id, propertyId);
      favorites := favorites + [f];
      nextFavoriteId := nextFavoriteId + 1;
    }
  }
}
