/** The login screen of the src/auth directory (src/auth/AuthPage.jsx): no
    validation, no loading state, no refresh token. */
module LegacyAuthPage {
  import opened Js
  import opened Http
  import opened Storage
  import Endpoints
  import LoginFlow
  import LoginPage

  const LOGIN_FAILED: string := "Login failed. Check credentials."

  /** `handleLogin`: always posts; a success stores `access_token` (the
      text "undefined" when the field is missing, "null" when it is `null`)
      and goes to "/"; a failure alerts and writes nothing. */
  function HandleLogin(username: string, password: string, store: Store, outcome: Outcome<TokenPair>): (r: Step<Store>)
    ensures |r.effects| == 2
    ensures r.effects[0] == Call(Post(Endpoints.AUTH_TOKEN, CredentialsPayload(username, password)))
    ensures outcome.Ok? ==>
      && r.state == store[ACCESS_TOKEN := Stringify(outcome.value.access)]
      && r.effects[1] == Navigate("/")
    ensures outcome.Fail? ==> r.state == store && r.effects[1] == Alert(LOGIN_FAILED)
    ensures AgreeOutside(store, r.state, {ACCESS_TOKEN})
    ensures SameAt(store, r.state, REFRESH_TOKEN)
  {
    var call := Call(Post(Endpoints.AUTH_TOKEN, CredentialsPayload(username, password)));
    match outcome
    case Ok(t) => Step(store[ACCESS_TOKEN := Stringify(t.access)], [call, Navigate("/")])
    case Fail(_) => Step(store, [call, Alert(LOGIN_FAILED)])
  }

  /** Unlike the src/components/auth pages, an empty form still reaches the server. */
  lemma EmptyFormIsPosted(store: Store, outcome: Outcome<TokenPair>)
    ensures Calls(HandleLogin("", "", store, outcome).effects) == [Post(Endpoints.AUTH_TOKEN, CredentialsPayload("", ""))]
    ensures LoginFlow.HandleLogin(LoginPage.TEXTS, LoginFlow.LoginForm("", "", false, ""), store, outcome).effects == []
  {
    var e := HandleLogin("", "", store, outcome).effects;
    CallsOfOne([], Post(Endpoints.AUTH_TOKEN, CredentialsPayload("", "")), e[1..]);
    assert e == [] + [e[0]] + e[1..];
  }
}
