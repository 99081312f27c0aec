/** The Persian login page (src/components/auth/LoginPage.jsx): the shared
    login handler with the texts of src/constants/strings.js. */
module LoginPage {
  import opened Js
  import opened Http
  import opened Storage
  import opened LoginFlow
  import Endpoints
  import Strings

  const TEXTS: LoginTexts := LoginTexts(Strings.REQUIRED_FIELD, Strings.INVALID_CREDENTIALS, Strings.LOGIN_FAILED)

  /** `handleLogin` with the page's messages: a blank field shows "this
      field is required", a 401 "wrong username or password", a body
      without detail "login failed". */
  function HandleLogin(form: LoginForm, store: Store, outcome: Outcome<TokenPair>): (r: Step<LoginResult>)
    ensures IsBlank(form.username) || IsBlank(form.password) ==>
      r.state.form.error == Strings.REQUIRED_FIELD && r.effects == [] && r.state.store == store
    ensures !IsBlank(form.username) && !IsBlank(form.password) ==>
      && |r.effects| > 0
      && r.effects[0] == Call(Post(Endpoints.AUTH_TOKEN, CredentialsPayload(form.username, form.password)))
      && !r.state.form.loading
    ensures !IsBlank(form.username) && !IsBlank(form.password) && outcome.Fail? ==>
      && (outcome.error.Response? && outcome.error.status == 401 ==> r.state.form.error == Strings.INVALID_CREDENTIALS)
      && (!(outcome.error.Response? && outcome.error.status == 401)
          && DataOf(outcome.error).Fields? && DataOf(outcome.error).detail != "" ==>
          r.state.form.error == DataOf(outcome.error).detail)
      && (!(outcome.error.Response? && outcome.error.status == 401)
          && !(DataOf(outcome.error).Fields? && DataOf(outcome.error).detail != "") ==>
          r.state.form.error == Strings.LOGIN_FAILED)
      && r.state.store == store
    ensures !IsBlank(form.username) && !IsBlank(form.password) && outcome.Ok? ==>
      r.state.store == SaveTokenPair(store, outcome.value) && Navigate("/") in r.effects
  {
    var r := LoginFlow.HandleLogin(TEXTS, form, store, outcome);
    assert !IsBlank(form.username) && !IsBlank(form.password) && outcome.Ok? ==> r.effects[1..][0] in r.effects;
    r
  }

  /** Every message the page can show after a request is either one of
      its own texts or a `detail` sent by the server. */
  lemma ErrorIsKnownOrServerDetail(form: LoginForm, store: Store, e: HttpError)
    requires !IsBlank(form.username) && !IsBlank(form.password)
    ensures var msg := HandleLogin(form, store, Fail(e)).state.form.error;
      msg == Strings.INVALID_CREDENTIALS || msg == Strings.LOGIN_FAILED
      || (e.Response? && e.data.Fields? && msg == e.data.detail)
  {
  }
}
