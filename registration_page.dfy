/** The Telegram mini-app's registration and login form: the two validators
    with their fixed order of checks, the request bodies, and the form state
    around a submission. */
module RegistrationPage {
  import opened Common

  const NameRequired := "Имя обязательно"
  const EmailRequired := "Email обязателен"
  const EmailInvalid := "Некорректный email"
  const PasswordRequired := "Пароль обязателен"
  const PasswordTooShort := "Пароль должен содержать минимум 6 символов"
  const PasswordsDiffer := "Пароли не совпадают"
  const RegistrationSucceeded := "Регистрация успешна! Теперь вы можете войти в систему."
  const RegistrationFailed := "Ошибка регистрации"
  const LoginFailed := "Ошибка авторизации"
  const ConnectionFailed := "Ошибка соединения с сервером"

  datatype RegistrationForm = RegistrationForm(firstName: string, email: string, phone: string, password: string, confirmPassword: string)
  datatype LoginForm = LoginForm(email: string, password: string)

  /** One validation step: whether it fails, and the message it reports. */
  datatype Check = Check(fails: bool, message: string)

  /** The message of the first failing check, if any. */
  function FirstFailure(checks: seq<Check>): (r: Option<string>)
    ensures r.None? <==> forall i :: 0 <= i < |checks| ==> !checks[i].fails
    ensures r.Some? ==> exists i :: 0 <= i < |checks| && checks[i].fails && checks[i].message == r.value &&
                                    forall j :: 0 <= j < i ==> !checks[j].fails
  {
    if checks == [] then None
    else if checks[0].fails then Some(checks[0].message)
    else
      var rest := FirstFailure(checks[1..]);
      if rest.Some? then
        var i :| 0 <= i < |checks[1..]| && checks[1..][i].fails && checks[1..][i].message == rest.value &&
                 forall j :: 0 <= j < i ==> !checks[1..][j].fails;
        assert checks[i + 1] == checks[1..][i];
        assert forall j :: 1 <= j < i + 1 ==> checks[j] == checks[1..][j - 1];
        rest
      else rest
  }

  /** The first failing check is the one reported. */
  lemma FirstFailureAt(checks: seq<Check>, i: nat)
    requires i < |checks| && checks[i].fails
    requires forall j :: 0 <= j < i ==> !checks[j].fails
    ensures FirstFailure(checks) == Some(checks[i].message)
  {
    var k :| 0 <= k < |checks| && checks[k].fails && checks[k].message == FirstFailure(checks).value &&
             forall j :: 0 <= j < k ==> !checks[j].fails;
    assert k == i;
  }

  /** The checks of `validateRegistration`, in the order they run. */
  function RegistrationChecks(f: RegistrationForm): seq<Check>
  {
    [ Check(Trim(f.firstName) == "", NameRequired),
      Check(Trim(f.email) == "", EmailRequired),
      Check('@' !in f.email, EmailInvalid),
      Check(f.password == "", PasswordRequired),
      Check(|f.password| < 6, PasswordTooShort),
      Check(f.password != f.confirmPassword, PasswordsDiffer) ]
  }

  /** `validateRegistration`: the first failing check's message, or none. */
  function ValidateRegistration(f: RegistrationForm): (r: Option<string>)
    ensures r == FirstFailure(RegistrationChecks(f))
    ensures r.None? <==>
      && (exists i :: 0 <= i < |f.firstName| && !IsJsSpace(f.firstName[i]))
      && '@' in f.email
      && |f.password| >= 6
      && f.password == f.confirmPassword
  {
    TrimEmptyIffAllSpace(f.firstName);
    TrimEmptyIffAllSpace(f.email);
    var c := RegistrationChecks(f);
    if Trim(f.firstName) == "" then FirstFailureAt(c, 0); Some(NameRequired)
    else if Trim(f.email) == "" then FirstFailureAt(c, 1); Some(EmailRequired)
    else if '@' !in f.email then FirstFailureAt(c, 2); Some(EmailInvalid)
    else if f.password == "" then FirstFailureAt(c, 3); Some(PasswordRequired)
    else if |f.password| < 6 then FirstFailureAt(c, 4); Some(PasswordTooShort)
    else if f.password != f.confirmPassword then FirstFailureAt(c, 5); Some(PasswordsDiffer)
    else None
  }

  /** A blank name is reported before anything about the email or the
      password, and a mismatch only once everything else is right. */
  lemma RegistrationErrorOrder(f: RegistrationForm)
    ensures Trim(f.firstName) == "" ==> ValidateRegistration(f) == Some(NameRequired)
    ensures ValidateRegistration(f) == Some(PasswordsDiffer) ==>
      Trim(f.firstName) != "" && '@' in f.email && |f.password| >= 6
  {
  }

  /** The checks of `validateLogin`. */
  function LoginChecks(f: LoginForm): seq<Check>
  {
    [ Check(Trim(f.email) == "", EmailRequired),
      Check(f.password == "", PasswordRequired) ]
  }

  /** `validateLogin` */
  function ValidateLogin(f: LoginForm): (r: Option<string>)
    ensures r == FirstFailure(LoginChecks(f))
    ensures r.None? <==> (exists i :: 0 <= i < |f.email| && !IsJsSpace(f.email[i])) && f.password != ""
  {
    TrimEmptyIffAllSpace(f.email);
    if Trim(f.email) == "" then Some(EmailRequired)
    else if f.password == "" then Some(PasswordRequired)
    else None
  }

  /** The registration request's JSON body; an empty phone is left out. */
  datatype RegisterRequest = RegisterRequest(firstName: string, email: string, phone: Option<string>, password: string)

  function RegisterBody(f: RegistrationForm): (r: RegisterRequest)
    ensures r.phone.None? <==> f.phone == ""
    ensures r.phone.Some? ==> r.phone.value == f.phone
    ensures r.firstName == f.firstName && r.email == f.email && r.password == f.password
  {
    RegisterRequest(f.firstName, f.email, if f.phone == "" then None else Some(f.phone), f.password)
  }

  const EmptyRegistration := RegistrationForm("", "", "", "", "")

  /** The form and the messages around it. */
  class AuthForm {
    var registration: RegistrationForm
    var login: LoginForm
    var error: string
    var success: string
    var loading: bool

    constructor ()
      ensures registration == EmptyRegistration && login == LoginForm("", "")
      ensures error == "" && success == "" && !loading
    {
      registration, login := EmptyRegistration, LoginForm("", "");
      error, success, loading := "", "", false;
    }

    /** `handleRegistration` up to the request: both messages are cleared; a
        validation error is shown and nothing is sent; otherwise the request
        goes out and the form shows it is loading. */
    method SubmitRegistration() returns (request: Option<RegisterRequest>)
      modifies this
      ensures registration == old(registration) && login == old(login) && success == ""
      ensures request.None? <==> ValidateRegistration(registration).Some?
      ensures request.None? ==> error == ValidateRegistration(registration).value && loading == old(loading)
      ensures request.Some? ==> request.value == RegisterBody(registration) && error == "" && loading
    {
      error, success := "", "";
      var failure := ValidateRegistration(registration);
      if failure.Some? {
        error := failure.value;
        return None;
      }
      loading := true;
      request := Some(RegisterBody(registration));
    }

    /** The server's answer: on success a message and an emptied form; on
        failure the server's message, or a generic one. */
    method OnRegistrationReply(ok: bool, serverError: Option<string>)
      modifies this
      ensures !loading && login == old(login)
      ensures ok ==> registration == EmptyRegistration && success == RegistrationSucceeded && error == old(error)
      ensures !ok ==> registration == old(registration) && error == OrElse(serverError, RegistrationFailed) && success == old(success)
    {
      if ok {
        success := RegistrationSucceeded;
        registration := EmptyRegistration;
      } else {
        error := OrElse(serverError, RegistrationFailed);
      }
      loading := false;
    }

    /** `handleLogin` up to the request. */
    method SubmitLogin() returns (request: Option<LoginForm>)
      modifies this
      ensures registration == old(registration) && login == old(login) && success == ""
      ensures request.None? <==> ValidateLogin(login).Some?
      ensures request.None? ==> error == ValidateLogin(login).value && loading == old(loading)
      ensures request.Some? ==> request.value == login && error == "" && loading
    {
      error, success := "", "";
      var failure := ValidateLogin(login);
      if failure.Some? {
        error := failure.value;
        return None;
      }
      loading := true;
      request := Some(login);
    }

    /** The login answer: on success a greeting by first name, or by email
        when the server sent none; on failure the server's message, or a
        generic one. */
    method OnLoginReply(ok: bool, serverError: Option<string>, firstName: Option<string>, email: string)
      modifies this
      ensures !loading && registration == old(registration) && login == old(login)
      ensures ok ==> success == "Добро пожаловать, " + OrElse(firstName, email) + "!" && error == old(error)
      ensures !ok ==> error == OrElse(serverError, LoginFailed) && success == old(success)
    {
      if ok {
        success := "Добро пожаловать, " + OrElse(firstName, email) + "!";
      } else {
        error := OrElse(serverError, LoginFailed);
      }
      loading := false;
    }

    /** A request that never reached the server, on either form. */
    method OnConnectionError()
      modifies this
      ensures !loading && error == ConnectionFailed
      ensures registration == old(registration) && login == old(login) && success == old(success)
    {
      error := ConnectionFailed;
      loading := false;
    }
  }
}
