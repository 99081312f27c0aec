/** The registration form (src/components/auth/SignupPage.jsx): field
    validation with the first failing rule reported, the e-mail pattern
    `^[^\s@]+@[^\s@]+\.[^\s@]+$`, and the mapping of server field errors to
    one message. */
module SignupPage {
  import opened Js
  import opened Http
  import Strings
  import Endpoints

  const USERNAME_LABEL: string := "نام کاربری: "
  const EMAIL_LABEL: string := "ایمیل: "
  const PASSWORD_LABEL: string := "رمز عبور: "

  // ---------------------------------------------------------------------
  // The e-mail pattern
  // ---------------------------------------------------------------------

  /** A character of the class `[^\s@]`. The dot is one of them. */
  predicate Plain(c: char) {
    !IsSpace(c) && c != '@'
  }

  predicate AllPlain(t: string) {
    forall i :: 0 <= i < |t| ==> Plain(t[i])
  }

  /** The pattern matches with the `@` at index `at` and the literal dot at
      index `dot`: three non-empty runs of `[^\s@]` around them, anchored
      at both ends. */
  predicate MatchAt(s: string, at: int, dot: int) {
    && 0 < at && at + 1 < dot < |s| - 1
    && AllPlain(s[..at]) && s[at] == '@'
    && AllPlain(s[at + 1..dot]) && s[dot] == '.'
    && AllPlain(s[dot + 1..])
  }

  /** `emailRegex.test(s)`: some placement of `@` and dot matches. */
  predicate EmailPattern(s: string) {
    exists at, dot | 0 <= at < |s| && 0 <= dot < |s| :: MatchAt(s, at, dot)
  }

  /** In a match the `@` is the first character outside `[^\s@]`, and
      everything after it is in `[^\s@]`. */
  lemma MatchShape(s: string, at: int, dot: int)
    requires MatchAt(s, at, dot)
    ensures forall i :: 0 <= i < at ==> Plain(s[i])
    ensures !Plain(s[at])
    ensures forall i :: at < i < |s| ==> Plain(s[i])
  {
    forall i | at < i < |s|
      ensures Plain(s[i])
    {
      if i < dot {
        assert s[at + 1..dot][i - at - 1] == s[i];
      } else if i > dot {
        assert s[dot + 1..][i - dot - 1] == s[i];
      }
    }
  }

  /** With `at` the index of the first character outside `[^\s@]` (or the
      length when there is none), the pattern matches exactly when that
      character is an `@` after a non-empty prefix and the rest is in
      `[^\s@]` with a dot strictly inside it. */
  lemma PatternAtFirstStop(s: string, at: int)
    requires 0 <= at <= |s|
    requires forall i :: 0 <= i < at ==> Plain(s[i])
    requires at == |s| || !Plain(s[at])
    ensures EmailPattern(s) <==>
      && 0 < at < |s| && s[at] == '@'
      && (forall i :: at < i < |s| ==> Plain(s[i]))
      && (exists k :: at + 1 < k < |s| - 1 && s[k] == '.')
  {
    if EmailPattern(s) {
      var a, d :| 0 <= a < |s| && 0 <= d < |s| && MatchAt(s, a, d);
      MatchShape(s, a, d);
      assert a == at;
      assert at + 1 < d < |s| - 1 && s[d] == '.';
    }
    if && 0 < at < |s| && s[at] == '@'
       && (forall i :: at < i < |s| ==> Plain(s[i]))
       && (exists k :: at + 1 < k < |s| - 1 && s[k] == '.')
    {
      var k :| at + 1 < k < |s| - 1 && s[k] == '.';
      assert MatchAt(s, at, k);
    }
  }

  /** One left-to-right pass: find the first character outside `[^\s@]`,
      require it to be an `@` after a non-empty prefix, then require the
      rest to be in `[^\s@]` with a dot strictly inside it. */
  method ScanEmail(s: string) returns (ok: bool)
    ensures ok <==> EmailPattern(s)
  {
    var at := 0;
    while at < |s| && Plain(s[at])
      invariant 0 <= at <= |s|
      invariant forall i :: 0 <= i < at ==> Plain(s[i])
    {
      at := at + 1;
    }
    PatternAtFirstStop(s, at);
    if at == 0 || at == |s| || s[at] != '@' {
      return false;
    }
    var found := false;
    var j := at + 1;
    while j < |s|
      invariant at + 1 <= j <= |s|
      invariant forall i :: at < i < j ==> Plain(s[i])
      invariant found <==> exists k :: at + 1 < k < j && k < |s| - 1 && s[k] == '.'
    {
      if !Plain(s[j]) {
        return false;
      }
      if s[j] == '.' && at + 1 < j < |s| - 1 {
        found := true;
      }
      j := j + 1;
    }
    ok := found;
  }

  /** A matching address is not blank: its first character is not
      whitespace. */
  lemma PatternNotBlank(s: string)
    requires EmailPattern(s)
    ensures !IsBlank(s)
  {
    var a, d :| 0 <= a < |s| && 0 <= d < |s| && MatchAt(s, a, d);
    assert s[..a][0] == s[0];
    BlankIffAllSpace(s);
  }

  // ---------------------------------------------------------------------
  // Validation
  // ---------------------------------------------------------------------

  datatype SignupForm = SignupForm(username: string, email: string, password: string, confirm: string)

  datatype Verdict = Valid | Invalid(message: string)

  /** `validateForm`: the rules in source order, the first failing one
      naming the message. Lengths count characters. */
  function ValidateForm(f: SignupForm): (r: Verdict)
    ensures IsBlank(f.username) ==> r == Invalid(Strings.REQUIRED_FIELD)
    ensures !IsBlank(f.username) && |f.username| < 3 ==> r == Invalid(Strings.USERNAME_MIN)
    ensures !IsBlank(f.username) && |f.username| >= 3 && IsBlank(f.email) ==>
      r == Invalid(Strings.REQUIRED_FIELD)
    ensures (!IsBlank(f.username) && |f.username| >= 3 && !IsBlank(f.email) && EmailPattern(f.email)
             && f.password == "") ==> r == Invalid(Strings.REQUIRED_FIELD)
    ensures (!IsBlank(f.username) && |f.username| >= 3 && !IsBlank(f.email) && EmailPattern(f.email)
             && 1 <= |f.password| < 8) ==> r == Invalid(Strings.PASSWORD_MIN)
    ensures r == Invalid(Strings.INVALID_EMAIL) <==>
      !IsBlank(f.username) && |f.username| >= 3 && !IsBlank(f.email) && !EmailPattern(f.email)
    ensures r == Invalid(Strings.PASSWORD_MISMATCH) <==>
      !IsBlank(f.username) && |f.username| >= 3 && EmailPattern(f.email)
      && |f.password| >= 8 && f.password != f.confirm
    ensures r.Invalid? ==> r.message in {Strings.REQUIRED_FIELD, Strings.USERNAME_MIN, Strings.INVALID_EMAIL,
                                         Strings.PASSWORD_MIN, Strings.PASSWORD_MISMATCH}
  {
    if IsBlank(f.username) then Invalid(Strings.REQUIRED_FIELD)
    else if |f.username| < 3 then Invalid(Strings.USERNAME_MIN)
    else if IsBlank(f.email) then Invalid(Strings.REQUIRED_FIELD)
    else if !EmailPattern(f.email) then Invalid(Strings.INVALID_EMAIL)
    else if f.password == "" then Invalid(Strings.REQUIRED_FIELD)
    else if |f.password| < 8 then Invalid(Strings.PASSWORD_MIN)
    else if f.password != f.confirm then Invalid(Strings.PASSWORD_MISMATCH)
    else Valid
  }

  /** The form passes exactly when every rule holds on its own: the blank
      checks on e-mail and password are implied by the pattern and the
      minimum length. */
  lemma ValidIff(f: SignupForm)
    ensures ValidateForm(f) == Valid <==>
      && !IsBlank(f.username) && |f.username| >= 3
      && EmailPattern(f.email)
      && |f.password| >= 8 && f.password == f.confirm
  {
    if EmailPattern(f.email) {
      PatternNotBlank(f.email);
    }
  }

  // ---------------------------------------------------------------------
  // Submission
  // ---------------------------------------------------------------------

  datatype SignupState = SignupState(form: SignupForm, loading: bool, error: string, success: string)

  /** `list[0]` in a template literal: "undefined" for an empty list. */
  function FirstOrUndefined(list: seq<string>): (r: string)
    ensures list != [] ==> r == list[0]
    ensures list == [] ==> r == "undefined"
  {
    if list == [] then "undefined" else list[0]
  }

  /** `errors.field[0]` in a template literal: the first message of an
      array ("undefined" for an empty one), or the first character of a
      string ("undefined" for an empty one). */
  function FirstOf(f: FieldError): (r: string)
    ensures f.ErrorList? ==> r == FirstOrUndefined(f.list)
    ensures f.ErrorText? && f.text != "" ==> r == [f.text[0]] && r <= f.text
    ensures f.ErrorText? && f.text == "" ==> r == "undefined"
  {
    match f
    case ErrorList(list) => FirstOrUndefined(list)
    case ErrorText(text) => if text != "" then [text[0]] else "undefined"
  }

  /** The `catch` block: the first truthy field error among username, e-mail
      and password, each behind its label; else a `detail`; else the generic
      failure. */
  function SignupError(e: HttpError): (r: string)
    ensures DataOf(e).NoData? ==> r == Strings.REGISTRATION_FAILED
    ensures DataOf(e).Fields? && FieldTruthy(DataOf(e).username) ==>
      r == USERNAME_LABEL + FirstOf(DataOf(e).username.value)
    ensures (DataOf(e).Fields? && !FieldTruthy(DataOf(e).username) && FieldTruthy(DataOf(e).email)) ==>
      r == EMAIL_LABEL + FirstOf(DataOf(e).email.value)
    ensures (DataOf(e).Fields? && !FieldTruthy(DataOf(e).username) && !FieldTruthy(DataOf(e).email)
             && FieldTruthy(DataOf(e).password)) ==>
      r == PASSWORD_LABEL + FirstOf(DataOf(e).password.value)
    ensures (DataOf(e).Fields? && !FieldTruthy(DataOf(e).username) && !FieldTruthy(DataOf(e).email)
             && !FieldTruthy(DataOf(e).password)) ==>
      r == OrElse(DataOf(e).detail, Strings.REGISTRATION_FAILED)
    ensures r != ""
  {
    match DataOf(e)
    case NoData => Strings.REGISTRATION_FAILED
    case Fields(username, email, password, detail, _) =>
      if FieldTruthy(username) then USERNAME_LABEL + FirstOf(username.value)
      else if FieldTruthy(email) then EMAIL_LABEL + FirstOf(email.value)
      else if FieldTruthy(password) then PASSWORD_LABEL + FirstOf(password.value)
      else OrElse(detail, Strings.REGISTRATION_FAILED)
  }

  /** A field error wins whatever `detail` or `error` says: two responses
      that agree on the three field errors, at least one of them truthy,
      give the same message, and it names the first truthy field. */
  lemma FieldErrorBeatsDetail(u: Option<FieldError>, m: Option<FieldError>, p: Option<FieldError>,
                              s1: int, d1: string, x1: string, s2: int, d2: string, x2: string)
    requires FieldTruthy(u) || FieldTruthy(m) || FieldTruthy(p)
    ensures SignupError(Response(s1, Fields(u, m, p, d1, x1))) == SignupError(Response(s2, Fields(u, m, p, d2, x2)))
    ensures var r := SignupError(Response(s1, Fields(u, m, p, d1, x1)));
      || (FieldTruthy(u) && r == USERNAME_LABEL + FirstOf(u.value))
      || (!FieldTruthy(u) && FieldTruthy(m) && r == EMAIL_LABEL + FirstOf(m.value))
      || (!FieldTruthy(u) && !FieldTruthy(m) && r == PASSWORD_LABEL + FirstOf(p.value))
  {
  }

  /** A field error sent as a plain string shows only its first character:
      `{"username": "taken"}` reads as the username label followed by "t". */
  lemma StringFieldShowsFirstChar(s: int, d: string, x: string)
    ensures SignupError(Response(s, Fields(Some(ErrorText("taken")), None, None, d, x))) == USERNAME_LABEL + "t"
  {
    assert FirstOf(ErrorText("taken")) == "t";
  }

  /** Without field errors, a truthy `detail` wins over the generic
      message, and the generic message appears exactly when `detail` is
      missing too. */
  lemma DetailBeatsGeneric(s: int, d: string, x: string)
    ensures d != "" ==> SignupError(Response(s, Fields(None, None, None, d, x))) == d
    ensures d == "" ==> SignupError(Response(s, Fields(None, None, None, d, x))) == Strings.REGISTRATION_FAILED
  {
  }

  /** `handleSignup`: both banners are cleared first; an invalid form shows
      its message and stops. A valid one is posted as typed; success shows
      the confirmation, failure the mapped error. Loading ends either way. */
  function HandleSignup(st: SignupState, outcome: Outcome<()>): (r: Step<SignupState>)
    ensures r.state.form == st.form
    ensures ValidateForm(st.form).Invalid? ==>
      r == Step(st.(error := ValidateForm(st.form).message, success := ""), [])
    ensures ValidateForm(st.form) == Valid ==>
      && r.effects == [Call(Post(Endpoints.AUTH_REGISTER,
                                 RegistrationPayload(st.form.username, st.form.email, st.form.password)))]
      && !r.state.loading
    ensures ValidateForm(st.form) == Valid && outcome.Ok? ==>
      r.state.success == Strings.ACCOUNT_CREATED && r.state.error == ""
    ensures ValidateForm(st.form) == Valid && outcome.Fail? ==>
      r.state.success == "" && r.state.error == SignupError(outcome.error)
    ensures r.state.error == "" || r.state.success == ""
  {
    var cleared := st.(error := "", success := "");
    match ValidateForm(st.form)
    case Invalid(msg) => Step(cleared.(error := msg), [])
    case Valid =>
      var call := Call(Post(Endpoints.AUTH_REGISTER,
                            RegistrationPayload(st.form.username, st.form.email, st.form.password)));
      match outcome
      case Ok(_) => Step(cleared.(success := Strings.ACCOUNT_CREATED, loading := false), [call])
      case Fail(e) => Step(cleared.(error := SignupError(e), loading := false), [call])
  }

  /** Enter submits only while no registration is in flight. */
  function OnKeyPress(st: SignupState, enter: bool, outcome: Outcome<()>): (r: Step<SignupState>)
    ensures !enter || st.loading ==> r == Step(st, [])
    ensures enter && !st.loading ==> r == HandleSignup(st, outcome)
  {
    if enter && !st.loading then HandleSignup(st, outcome) else Step(st, [])
  }

  /** No request ever carries a form the validator rejects: whatever is
      posted has a username of three or more characters with a
      non-whitespace one, a matching e-mail and a password of at least
      eight characters. */
  lemma PostedFormIsValid(st: SignupState, outcome: Outcome<()>)
    requires HandleSignup(st, outcome).effects != []
    ensures !IsBlank(st.form.username) && |st.form.username| >= 3
    ensures EmailPattern(st.form.email)
    ensures |st.form.password| >= 8 && st.form.password == st.form.confirm
  {
    ValidIff(st.form);
  }
}
