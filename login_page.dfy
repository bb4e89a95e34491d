/** The marketplace's sign-up form: password confirmation, length, and the
    email pattern `^[^\s@]+@[^\s@]+\.[^\s@]+$`, checked in that order before
    the registration request is sent. */
module LoginPage {
  import opened Common
  import Auth
  import ClientApi

  const PasswordsDiffer := "Пароли не совпадают"
  const PasswordTooShort := "Пароль должен содержать минимум 6 символов"
  const EmailInvalid := "Введите корректный email"
  const RegistrationFailed := "Ошибка при регистрации"

  /** `[^\s@]`: neither white space nor `@`. */
  predicate Plain(c: char)
  {
    !IsJsSpace(c) && c != '@'
  }

  predicate AllPlain(s: string)
  {
    forall i :: 0 <= i < |s| ==> Plain(s[i])
  }

  /** The regular expression matched with `@` at `at` and the separating dot
      at `dot`: three non-empty runs of plain characters around them. */
  ghost predicate MatchesAt(s: string, at: int, dot: int)
  {
    && 0 < at && at + 1 < dot && dot + 1 < |s|
    && s[at] == '@' && s[dot] == '.'
    && AllPlain(s[..at]) && AllPlain(s[at + 1..dot]) && AllPlain(s[dot + 1..])
  }

  /** `emailRegex.test(s)` */
  ghost predicate MatchesEmailRegex(s: string)
  {
    exists at, dot :: MatchesAt(s, at, dot)
  }

  /** The test the page's pattern performs, as a scan: the first `@` is not
      at the start, nothing else is white space or another `@`, and after the
      `@` there is a dot with text on both sides. */
  function IsEmail(s: string): (b: bool)
    ensures b ==> 5 <= |s| && s[0] != '@' && '@' in s[1..]
  {
    match FirstIndex(s, (c: char) => c == '@')
    case None => false
    case Some(at) =>
      && at > 0
      && AllPlain(s[..at])
      && AllPlain(s[at + 1..])
      && exists dot :: at + 1 < dot < |s| - 1 && s[dot] == '.'
  }

  /** The scan accepts exactly the strings the pattern matches. */
  lemma IsEmailMatchesRegex(s: string)
    ensures IsEmail(s) <==> MatchesEmailRegex(s)
  {
    if IsEmail(s) {
      var at := FirstIndex(s, (c: char) => c == '@').value;
      var dot :| at + 1 < dot < |s| - 1 && s[dot] == '.';
      var tail := s[at + 1..];
      assert s[at + 1..dot] == tail[..dot - at - 1];
      assert s[dot + 1..] == tail[dot - at..];
      assert MatchesAt(s, at, dot);
    }
    if MatchesEmailRegex(s) {
      var at, dot :| MatchesAt(s, at, dot);
      assert forall i :: 0 <= i < at ==> s[i] == s[..at][i];
      assert FirstIndex(s, (c: char) => c == '@') == Some(at);
      var tail := s[at + 1..];
      forall i | 0 <= i < |tail| ensures Plain(tail[i]) {
        if at + 1 + i < dot {
          assert tail[i] == s[at + 1..dot][i];
        } else if at + 1 + i > dot {
          assert tail[i] == s[dot + 1..][at + i - dot];
        }
      }
    }
  }

  /** An accepted email has exactly one `@` and no white space. */
  lemma AcceptedEmailShape(s: string)
    requires IsEmail(s)
    ensures exists at :: 0 < at < |s| && s[at] == '@' && forall i :: 0 <= i < |s| && i != at ==> Plain(s[i])
    ensures forall i :: 0 <= i < |s| ==> !IsJsSpace(s[i])
  {
    var at := FirstIndex(s, (c: char) => c == '@').value;
    forall i | 0 <= i < |s| && i != at ensures Plain(s[i]) {
      if i < at {
        assert s[i] == s[..at][i];
      } else {
        assert s[i] == s[at + 1..][i - at - 1];
      }
    }
  }

  /** Three non-empty runs of plain characters joined by `@` and a dot make
      an address the page accepts. */
  lemma RunsMakeAnEmail(local: string, domain: string, top: string)
    requires local != [] && domain != [] && top != []
    requires AllPlain(local) && AllPlain(domain) && AllPlain(top)
    ensures IsEmail(local + "@" + domain + "." + top)
  {
    var s := local + "@" + domain + "." + top;
    var at, dot := |local|, |local| + 1 + |domain|;
    assert s[..at] == local;
    assert s[at + 1..dot] == domain;
    assert s[dot + 1..] == top;
    assert MatchesAt(s, at, dot);
    IsEmailMatchesRegex(s);
  }

  /** An address that starts with `@`, or has no dot after an `@`, is
      refused. */
  lemma RefusedEmails(s: string)
    ensures |s| > 0 && s[0] == '@' ==> !IsEmail(s)
    ensures (forall i, j :: 0 <= i < j < |s| && s[i] == '@' ==> s[j] != '.') ==> !IsEmail(s)
  {
  }

  /** The sign-up form. */
  datatype SignUpForm = SignUpForm(login: string, email: string, password: string, confirmPassword: string,
                                   fullName: string, phone: string)

  /** `handleRegister`'s checks: the first failure's message, or the
      registration body once all three pass. */
  function HandleRegister(f: SignUpForm): (r: Result)
    ensures f.password != f.confirmPassword ==> r == Refused(PasswordsDiffer)
    ensures f.password == f.confirmPassword && |f.password| < 6 ==> r == Refused(PasswordTooShort)
    ensures f.password == f.confirmPassword && |f.password| >= 6 && !IsEmail(f.email) ==> r == Refused(EmailInvalid)
    ensures r.Sent? <==> f.password == f.confirmPassword && |f.password| >= 6 && IsEmail(f.email)
    ensures r.Sent? ==> r.body == Auth.RegisterBody(Some(f.login), Some(f.password), Some(f.email), Some(f.fullName), Some(f.phone))
  {
    if f.password != f.confirmPassword then Refused(PasswordsDiffer)
    else if |f.password| < 6 then Refused(PasswordTooShort)
    else if !IsEmail(f.email) then Refused(EmailInvalid)
    else Sent(Auth.RegisterBody(Some(f.login), Some(f.password), Some(f.email), Some(f.fullName), Some(f.phone)))
  }

  datatype Result = Refused(message: string) | Sent(body: Auth.RegisterBody)

  /** A form the page sends gets past the route's required-field check once
      login and full name are filled in: the password and the email are
      never empty by then. */
  lemma SentFormHasPasswordAndEmail(f: SignUpForm)
    requires HandleRegister(f).Sent?
    requires f.login != "" && f.fullName != ""
    ensures Auth.HasRequiredFields(HandleRegister(f).body)
  {
    AcceptedEmailShape(f.email);
  }

  /** `err.message || "Ошибка при регистрации"` for a thrown error. */
  function FailureText(thrown: string): (text: string)
    ensures thrown != "" ==> text == thrown
    ensures thrown == "" ==> text == RegistrationFailed
  {
    if thrown != "" then thrown else RegistrationFailed
  }

  /** A refused registration shows the server's message, or the client's
      generic request error; the page's own fallback never shows for an
      error from `fetchAPI`, whose message is never empty. */
  lemma RefusalShowsServerMessage(serverError: Option<string>)
    ensures Truthy(serverError) ==> FailureText(ClientApi.FetchError(serverError)) == serverError.value
    ensures !Truthy(serverError) ==> FailureText(ClientApi.FetchError(serverError)) == ClientApi.RequestFailed
    ensures FailureText(ClientApi.FetchError(serverError)) != RegistrationFailed || serverError == Some(RegistrationFailed)
  {
  }

  /** The page's error line around a submission. */
  class SignUpPage {
    var error: string
    var loading: bool

    constructor ()
      ensures error == "" && !loading
    {
      error, loading := "", false;
    }

    /** `handleRegister` up to the request: the old error is cleared before
        the checks run, a failing check's message replaces it, and only a
        form that passes all three is sent. */
    method Submit(f: SignUpForm) returns (request: Option<Auth.RegisterBody>)
      modifies this
      ensures request.None? <==> HandleRegister(f).Refused?
      ensures request.None? ==> error == HandleRegister(f).message && loading == old(loading)
      ensures request.Some? ==> request.value == HandleRegister(f).body && error == "" && loading
    {
      error := "";
      var outcome := HandleRegister(f);
      if outcome.Refused? {
        error := outcome.message;
        return None;
      }
      loading := true;
      request := Some(outcome.body);
    }

    /** The end of the request: loading stops. A failure reaches the page as
        the error `fetchAPI` throws, built from the server's `error` field,
        and the page shows its message, or the generic text when the
        message is empty. On success the page signs the new user in and
        leaves, which is not modelled. */
    method OnReply(ok: bool, serverError: Option<string>)
      modifies this
      ensures !loading
      ensures ok ==> error == old(error)
      ensures !ok ==> error == FailureText(ClientApi.FetchError(serverError))
    {
      if !ok {
        error := FailureText(ClientApi.FetchError(serverError));
      }
      loading := false;
    }
  }
}
