/** The authentication routes: registration into the users table, login by
    login or email with ordered checks, and lookup of a user by email. Every
    successful reply is a `Profile`, which has no password field. */
module Auth {
  import opened Common
  import opened Entities

  const MissingRegistrationFields := "Необходимо заполнить все обязательные поля"
  const LoginTaken := "Пользователь с таким логином уже существует"
  const EmailTaken := "Пользователь с таким email уже существует"
  const MissingCredentials := "Необходимо указать логин/email и пароль"
  const BadCredentials := "Неверный логин или пароль"
  const AccountBlocked := "Ваш аккаунт заблокирован. Обратитесь к администратору."
  const UserNotFound := "Пользователь не найден"

  /** The body of `POST /register`. */
  datatype RegisterBody = RegisterBody(
    login: Option<string>, password: Option<string>, email: Option<string>,
    fullName: Option<string>, phone: Option<string>)

  /** The body of `POST /login`; `login` may hold a login or an email. */
  datatype LoginBody = LoginBody(login: Option<string>, password: Option<string>)

  predicate HasRequiredFields(body: RegisterBody)
  {
    Truthy(body.login) && Truthy(body.password) && Truthy(body.email) && Truthy(body.fullName)
  }

  predicate LoginUsed(users: seq<User>, login: string)
  {
    exists i :: 0 <= i < |users| && users[i].login == login
  }

  predicate EmailUsed(users: seq<User>, email: string)
  {
    exists i :: 0 <= i < |users| && users[i].email == email
  }

  /** What registration keeps true of the table: no two users share a login,
      no two share an email. */
  ghost predicate UniqueLoginsAndEmails(users: seq<User>)
  {
    forall i, j :: 0 <= i < j < |users| ==> users[i].login != users[j].login && users[i].email != users[j].email
  }

  /** The users table and the id counter. */
  datatype UserTable = UserTable(users: seq<User>, nextId: nat)

  /** `POST /register` as a function of the table. */
  function PostRegister(t: UserTable, body: RegisterBody): (res: (UserTable, Reply<Profile>))
    ensures !HasRequiredFields(body) ==> res == (t, Fail(400, MissingRegistrationFields))
    ensures HasRequiredFields(body) && LoginUsed(t.users, body.login.value) ==> res == (t, Fail(400, LoginTaken))
    ensures HasRequiredFields(body) && !LoginUsed(t.users, body.login.value) && EmailUsed(t.users, body.email.value) ==>
      res == (t, Fail(400, EmailTaken))
    ensures res.1.Ok? <==>
      HasRequiredFields(body) && !LoginUsed(t.users, body.login.value) && !EmailUsed(t.users, body.email.value)
    ensures res.1.Ok? ==>
      var u := User(t.nextId, body.login.value, body.password.value, body.email.value, body.fullName.value,
                    if Truthy(body.phone) then body.phone else None, UserRole, 0, false);
      && res.0 == UserTable(t.users + [u], t.nextId + 1)
      && res.1.value == ProfileOf(u)
    ensures UniqueLoginsAndEmails(t.users) ==> UniqueLoginsAndEmails(res.0.users)
  {
    if !HasRequiredFields(body) then (t, Fail(400, MissingRegistrationFields))
    else if LoginUsed(t.users, body.login.value) then (t, Fail(400, LoginTaken))
    else if EmailUsed(t.users, body.email.value) then (t, Fail(400, EmailTaken))
    else
      var u := User(t.nextId, body.login.value, body.password.value, body.email.value, body.fullName.value,
                    if Truthy(body.phone) then body.phone else None, UserRole, 0, false);
      (UserTable(t.users + [u], t.nextId + 1), Ok(ProfileOf(u)))
  }

  /** `SELECT * FROM users WHERE login = ? OR email = ?`: the first such row. */
  function FindByLoginOrEmail(users: seq<User>, x: string): (r: Option<User>)
    ensures r.None? <==> forall i :: 0 <= i < |users| ==> users[i].login != x && users[i].email != x
    ensures r.Some? ==> r.value in users && (r.value.login == x || r.value.email == x)
  {
    FindFirst(users, (u: User) => u.login == x || u.email == x)
  }

  /** `POST /login`: missing fields, unknown user, blocked account and wrong
      password are checked in that order. */
  function PostLogin(users: seq<User>, body: LoginBody): (r: Reply<Profile>)
    ensures !Truthy(body.login) || !Truthy(body.password) ==> r == Fail(400, MissingCredentials)
    ensures Truthy(body.login) && Truthy(body.password) ==>
      var found := FindByLoginOrEmail(users, body.login.value);
      && (found.None? ==> r == Fail(401, BadCredentials))
      && (found.Some? && found.value.isBlocked ==> r == Fail(403, AccountBlocked))
      && (found.Some? && !found.value.isBlocked && found.value.password != body.password.value ==> r == Fail(401, BadCredentials))
      && (r.Ok? <==> found.Some? && !found.value.isBlocked && found.value.password == body.password.value)
      && (r.Ok? ==> r.value == ProfileOf(found.value))
  {
    if !Truthy(body.login) || !Truthy(body.password) then Fail(400, MissingCredentials)
    else match FindByLoginOrEmail(users, body.login.value)
      case None => Fail(401, BadCredentials)
      case Some(u) =>
        if u.isBlocked then Fail(403, AccountBlocked)
        else if u.password != body.password.value then Fail(401, BadCredentials)
        else Ok(ProfileOf(u))
  }

  /** An unknown identifier and a wrong password for any unblocked account,
      named by login or by email, get the very same reply. */
  lemma UnknownUserLooksLikeWrongPassword(users: seq<User>, unknown: string, x: string, wrong: string)
    requires unknown != "" && x != "" && wrong != ""
    requires forall i :: 0 <= i < |users| ==> users[i].login != unknown && users[i].email != unknown
    requires FindByLoginOrEmail(users, x).Some?
    requires !FindByLoginOrEmail(users, x).value.isBlocked && FindByLoginOrEmail(users, x).value.password != wrong
    ensures PostLogin(users, LoginBody(Some(unknown), Some(wrong))) == PostLogin(users, LoginBody(Some(x), Some(wrong)))
  {
  }

  /** A blocked account is refused before its password is looked at: the
      right and a wrong password get the same 403. */
  lemma BlockedBeforePassword(users: seq<User>, x: string, p1: string, p2: string)
    requires x != "" && p1 != "" && p2 != ""
    requires FindByLoginOrEmail(users, x).Some? && FindByLoginOrEmail(users, x).value.isBlocked
    ensures PostLogin(users, LoginBody(Some(x), Some(p1))) == PostLogin(users, LoginBody(Some(x), Some(p2))) == Fail(403, AccountBlocked)
  {
  }

  /** The reply never depends on the stored password: two users that differ
      only in it are sent out identically. */
  lemma ProfileHidesPassword(u: User, other: string)
    ensures ProfileOf(u) == ProfileOf(u.(password := other))
    ensures ProfileOf(u).email == u.email && ProfileOf(u).login == u.login && ProfileOf(u).role == u.role
  {
  }

  /** A user who has just registered can log in with the login and password
      given, unless an earlier user's email equals that login (the lookup
      matches logins and emails alike and returns the first row). */
  lemma RegisteredUserCanLogIn(t: UserTable, body: RegisterBody)
    requires PostRegister(t, body).1.Ok?
    requires !EmailUsed(t.users, body.login.value)
    ensures PostLogin(PostRegister(t, body).0.users, LoginBody(body.login, body.password)) == PostRegister(t, body).1
  {
    var (t1, r) := PostRegister(t, body);
    assert t1.users[|t.users|].login == body.login.value;
    forall i | 0 <= i < |t.users|
      ensures t1.users[i].login != body.login.value && t1.users[i].email != body.login.value
    {
      assert t1.users[i] == t.users[i];
    }
  }

  /** `GET /user/:email` */
  function GetUser(users: seq<User>, email: string): (r: Reply<Profile>)
    ensures r.Fail? <==> forall i :: 0 <= i < |users| ==> users[i].email != email
    ensures r.Fail? ==> r == Fail(404, UserNotFound)
    ensures r.Ok? ==> exists u :: u in users && u.email == email && r.value == ProfileOf(u)
  {
    match FindFirst(users, (u: User) => u.email == email)
    case None => Fail(404, UserNotFound)
    case Some(u) => Ok(ProfileOf(u))
  }

  /** The users table behind `/register`. */
  class UserStore {
    var users: seq<User>
    var nextId: nat

    ghost predicate Valid()
      reads this
    {
      UniqueLoginsAndEmails(users) && forall i :: 0 <= i < |users| ==> users[i].id < nextId
    }

    function Snapshot(): UserTable
      reads this
    {
      UserTable(users, nextId)
    }

    constructor ()
      ensures Valid() && users == [] && nextId == 0
    {
      users, nextId := [], 0;
    }

    /** `POST /register`: required fields, then the login, then the email must
        be free; the new row gets role `user`, an incomplete profile and a
        phone only when one was given. */
    method Register(body: RegisterBody) returns (r: Reply<Profile>)
      requires Valid()
      modifies this
      ensures Valid()
      ensures (Snapshot(), r) == PostRegister(old(Snapshot()), body)
    {
      if !HasRequiredFields(body) {
        return Fail(400, MissingRegistrationFields);
      }
      var login, email := body.login.value, body.email.value;
      var sameLogin := FindFirst(users, (u: User) => u.login == login);
      if sameLogin.Some? {
        return Fail(400, LoginTaken);
      }
      var sameEmail := FindFirst(users, (u: User) => u.email == email);
      if sameEmail.Some? {
        return Fail(400, EmailTaken);
      }
      var phone := if Truthy(body.phone) then body.phone else None;
      var u := User(nextId, login, body.password.value, email, body.fullName.value, phone, UserRole, 0, false);
      users := users + [u];
      nextId := nextId + 1;
      r := Ok(ProfileOf(u));
    }
  }
}
