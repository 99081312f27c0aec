/** The login handler shared, up to its three messages, by
    src/components/auth/LoginPage.jsx and src/components/auth/AuthPage.jsx. */
module LoginFlow {
  import opened Js
  import opened Http
  import opened Storage
  import Endpoints

  /** The three messages a login form can show. */
  datatype LoginTexts = LoginTexts(required: string, invalid: string, failed: string)

  datatype LoginForm = LoginForm(username: string, password: string, loading: bool, error: string)

  /** The form and the browser storage after a handler has run. */
  datatype LoginResult = LoginResult(form: LoginForm, store: Store)

  /** The message of the `catch` block: a 401 wins; otherwise a truthy
      `detail` of the response body; otherwise the generic failure. */
  function LoginError(texts: LoginTexts, e: HttpError): (r: string)
    ensures e.Response? && e.status == 401 ==> r == texts.invalid
    ensures !(e.Response? && e.status == 401) && DataOf(e).Fields? && DataOf(e).detail != "" ==>
      r == DataOf(e).detail
    ensures !(e.Response? && e.status == 401) && !(DataOf(e).Fields? && DataOf(e).detail != "") ==>
      r == texts.failed
  {
    if e.Response? && e.status == 401 then texts.invalid
    else if DataOf(e).Fields? && DataOf(e).detail != "" then DataOf(e).detail
    else texts.failed
  }

  /** `handleLogin`. Blank fields stop it before any request, with loading
      untouched. Otherwise the credentials are posted exactly as typed; on
      success the tokens are stored and the router goes to "/"; on failure
      the storage is untouched and the error is shown. Loading ends either
      way. */
  function HandleLogin(texts: LoginTexts, form: LoginForm, store: Store, outcome: Outcome<TokenPair>): (r: Step<LoginResult>)
    ensures IsBlank(form.username) || IsBlank(form.password) ==>
      r == Step(LoginResult(form.(error := texts.required), store), [])
    ensures !IsBlank(form.username) && !IsBlank(form.password) ==>
      && |r.effects| > 0
      && r.effects[0] == Call(Post(Endpoints.AUTH_TOKEN, CredentialsPayload(form.username, form.password)))
      && !r.state.form.loading
      && r.state.form.username == form.username && r.state.form.password == form.password
    ensures !IsBlank(form.username) && !IsBlank(form.password) && outcome.Ok? ==>
      && r.state.store == SaveTokenPair(store, outcome.value)
      && r.state.form.error == ""
      && r.effects[1..] == [Navigate("/")]
    ensures !IsBlank(form.username) && !IsBlank(form.password) && outcome.Fail? ==>
      && r.state.store == store
      && r.state.form.error == LoginError(texts, outcome.error)
      && |r.effects| == 1
  {
    if IsBlank(form.username) || IsBlank(form.password) then
      Step(LoginResult(form.(error := texts.required), store), [])
    else
      var call := Call(Post(Endpoints.AUTH_TOKEN, CredentialsPayload(form.username, form.password)));
      match outcome
      case Ok(tokens) =>
        Step(LoginResult(form.(loading := false, error := ""), SaveTokenPair(store, tokens)),
             [call, Navigate("/")])
      case Fail(e) =>
        Step(LoginResult(form.(loading := false, error := LoginError(texts, e)), store), [call])
  }

  /** Enter submits only while no login is in flight. */
  function OnKeyPress(texts: LoginTexts, form: LoginForm, store: Store, enter: bool,
                      outcome: Outcome<TokenPair>): (r: Step<LoginResult>)
    ensures !enter || form.loading ==> r == Step(LoginResult(form, store), [])
    ensures enter && !form.loading ==> r == HandleLogin(texts, form, store, outcome)
  {
    if enter && !form.loading then HandleLogin(texts, form, store, outcome)
    else Step(LoginResult(form, store), [])
  }

  /** A login changes the storage only when the server answered with
      tokens, and then only under the two token keys. */
  lemma LoginTouchesOnlyTokens(texts: LoginTexts, form: LoginForm, store: Store, outcome: Outcome<TokenPair>)
    ensures AgreeOutside(store, HandleLogin(texts, form, store, outcome).state.store, {ACCESS_TOKEN, REFRESH_TOKEN})
    ensures HandleLogin(texts, form, store, outcome).state.store != store ==>
      outcome.Ok? && Navigate("/") in HandleLogin(texts, form, store, outcome).effects
  {
    var r := HandleLogin(texts, form, store, outcome);
    if r.state.store != store {
      assert r.effects[1..][0] == Navigate("/");
    }
  }

  /** After a successful login the stored access token is truthy unless the
      server sent an empty one; a response with no `access` field at all
      stores the text "undefined", and an `access` of `null` the text
      "null", both of which count as logged in. */
  lemma LoginAlwaysLeavesToken(texts: LoginTexts, form: LoginForm, store: Store, t: TokenPair)
    requires !IsBlank(form.username) && !IsBlank(form.password)
    ensures HasTruthy(HandleLogin(texts, form, store, Ok(t)).state.store, ACCESS_TOKEN) <==> t.access != Str("")
    ensures t.access.Undefined? ==> GetItem(HandleLogin(texts, form, store, Ok(t)).state.store, ACCESS_TOKEN) == Some("undefined")
    ensures t.access.Null? ==> GetItem(HandleLogin(texts, form, store, Ok(t)).state.store, ACCESS_TOKEN) == Some("null")
  {
  }
}
