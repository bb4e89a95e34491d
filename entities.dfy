/** Rows of the rental marketplace's tables, shared by the server routes that
    store them and the pages that receive them as JSON. Dates are day numbers;
    amounts and prices are whole currency units. */
module Entities {
  import opened Common

  // Booking statuses.
  const Pending := "pending"
  const Confirmed := "confirmed"
  const Cancelled := "cancelled"
  const Completed := "completed"

  // Roles.
  const Admin := "admin"
  const UserRole := "user"

  datatype Apartment = Apartment(
    id: Id,
    title: string,
    pricePerNight: int,
    createdBy: Option<string>)   // the owner's email; None is a NULL column

  datatype Booking = Booking(
    id: Id,
    apartmentId: Id,
    checkIn: int,
    checkOut: int,
    guests: int,
    totalPrice: int,
    specialRequests: string,
    createdBy: string,           // the guest's email
    status: string,
    updatedDate: Option<int>)

  datatype Payment = Payment(
    id: Id,
    bookingId: Id,
    amount: int,
    paymentMethod: string,
    status: string,
    transactionId: Option<string>,
    paidBy: string)

  datatype Review = Review(
    id: Id,
    apartmentId: Id,
    bookingId: Id,
    rating: int,
    comment: string,
    createdBy: string)

  /** A row of the users table. */
  datatype User = User(
    id: Id,
    login: string,
    password: string,
    email: string,
    fullName: string,
    phone: Option<string>,
    role: string,
    profileCompleted: int,
    isBlocked: bool)

  /** A user as the server sends it out: every column but the password. */
  datatype Profile = Profile(
    id: Id,
    login: string,
    email: string,
    fullName: string,
    phone: Option<string>,
    role: string,
    profileCompleted: int,
    isBlocked: bool)

  /** `const { password: _, ...rest } = user` */
  function ProfileOf(u: User): Profile
  {
    Profile(u.id, u.login, u.email, u.fullName, u.phone, u.role, u.profileCompleted, u.isBlocked)
  }

  datatype Ticket = Ticket(
    id: Id,
    subject: string,
    message: string,
    status: string,
    createdBy: string,
    adminResponse: Option<string>,
    respondedBy: Option<string>,
    respondedAt: Option<string>,
    updatedDate: Option<int>)

  datatype Message = Message(
    id: Id,
    text: string,
    apartmentId: Option<Id>,
    bookingId: Option<Id>,
    recipientEmail: string,
    createdBy: string,
    isRead: bool,                // the 0/1 `is_read` column
    updatedDate: Option<int>)

  /** `currentUser?.email`: undefined while no user is known. */
  function EmailOf(user: Option<Profile>): Option<string>
  {
    if user.Some? then Some(user.value.email) else None
  }

  /** A string property as the browser reads it: `undefined` when the object
      holding it is not loaded, `null` for a NULL column, or a string. Strict
      equality (`===`) tells the three apart. */
  datatype JsString = Undefined | Null | Str(value: string)
  {
    /** The string, if there is one; `undefined` and `null` are both falsy. */
    function AsOption(): Option<string>
    {
      if Str? then Some(value) else None
    }
  }

  /** An optional-chaining read: an absent object gives `undefined`. */
  function Js(o: Option<string>): JsString
  {
    if o.Some? then Str(o.value) else Undefined
  }

  /** `apartment?.created_by` */
  function OwnerOf(apartment: Option<Apartment>): JsString
  {
    if apartment.None? then Undefined
    else if apartment.value.createdBy.None? then Null
    else Str(apartment.value.createdBy.value)
  }

  /** `currentUser?.role === 'admin'` */
  predicate IsAdmin(user: Option<Profile>)
  {
    user.Some? && user.value.role == Admin
  }
}
