/** The English login page (src/components/auth/AuthPage.jsx): the same
    handler as the Persian page, with English messages. */
module AuthPage {
  import opened Js
  import opened Http
  import opened Storage
  import opened LoginFlow
  import Endpoints
  import LoginPage

  const REQUIRED: string := "Please enter both username and password."
  const INVALID: string := "Invalid username or password."
  const FAILED: string := "Login failed. Please try again."
  const TEXTS: LoginTexts := LoginTexts(REQUIRED, INVALID, FAILED)

  function HandleLogin(form: LoginForm, store: Store, outcome: Outcome<TokenPair>): (r: Step<LoginResult>)
    ensures IsBlank(form.username) || IsBlank(form.password) ==>
      r.state.form.error == REQUIRED && r.effects == [] && r.state.store == store
    ensures !IsBlank(form.username) && !IsBlank(form.password) ==>
      && |r.effects| > 0
      && r.effects[0] == Call(Post(Endpoints.AUTH_TOKEN, CredentialsPayload(form.username, form.password)))
      && !r.state.form.loading
    ensures !IsBlank(form.username) && !IsBlank(form.password) && outcome.Fail? ==>
      && (outcome.error.Response? && outcome.error.status == 401 ==> r.state.form.error == INVALID)
      && (!(outcome.error.Response? && outcome.error.status == 401)
          && DataOf(outcome.error).Fields? && DataOf(outcome.error).detail != "" ==>
          r.state.form.error == DataOf(outcome.error).detail)
      && (!(outcome.error.Response? && outcome.error.status == 401)
          && !(DataOf(outcome.error).Fields? && DataOf(outcome.error).detail != "") ==>
          r.state.form.error == FAILED)
      && r.state.store == store
    ensures !IsBlank(form.username) && !IsBlank(form.password) && outcome.Ok? ==>
      r.state.store == SaveTokenPair(store, outcome.value) && Navigate("/") in r.effects
  {
    var r := LoginFlow.HandleLogin(TEXTS, form, store, outcome);
    assert !IsBlank(form.username) && !IsBlank(form.password) && outcome.Ok? ==> r.effects[1..][0] in r.effects;
    r
  }

  /** The English and the Persian pages behave identically except for the
      text of the messages: same requests, same storage, same navigation. */
  lemma SameFlowAsLoginPage(form: LoginForm, store: Store, outcome: Outcome<TokenPair>)
    ensures HandleLogin(form, store, outcome).effects == LoginPage.HandleLogin(form, store, outcome).effects
    ensures HandleLogin(form, store, outcome).state.store == LoginPage.HandleLogin(form, store, outcome).state.store
    ensures HandleLogin(form, store, outcome).state.form.loading == LoginPage.HandleLogin(form, store, outcome).state.form.loading
  {
  }
}
