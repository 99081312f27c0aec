/** The authentication hook (src/components/auth/useAuth.js). The decoded
    user payload has an opaque type `P`; `JSON.parse` and `JSON.stringify`
    are parameters (`parse` yields `None` for "null" and for text that does
    not parse). */
module UseAuth {
  import opened Js
  import opened Http
  import opened Storage

  datatype AuthState<P> = AuthState(user: Option<P>, isAuthenticated: bool)

  /** The lazy initialiser of `user`: the parsed `user` entry when it is
      present and non-empty, otherwise null. */
  function InitialUser<P>(store: Store, parse: string -> Option<P>): (r: Option<P>)
    ensures !HasTruthy(store, USER) ==> r == None
    ensures HasTruthy(store, USER) ==> r == parse(store[USER])
  {
    match GetItem(store, USER)
    case Some(raw) => if raw != "" then parse(raw) else None
    case None => None
  }

  /** Both initialisers: `isAuthenticated` starts as `!!getItem('access_token')`. */
  function Initial<P>(store: Store, parse: string -> Option<P>): (r: AuthState<P>)
    ensures r.isAuthenticated <==> HasTruthy(store, ACCESS_TOKEN)
    ensures r.user == InitialUser(store, parse)
  {
    AuthState(InitialUser(store, parse), HasTruthy(store, ACCESS_TOKEN))
  }

  /** The effect that runs whenever `user` changes: the flag is recomputed
      from storage; the user is kept. */
  function Resync<P>(st: AuthState<P>, store: Store): (r: AuthState<P>)
    ensures r.user == st.user
    ensures r.isAuthenticated <==> HasTruthy(store, ACCESS_TOKEN)
  {
    st.(isAuthenticated := HasTruthy(store, ACCESS_TOKEN))
  }

  /** `saveTokens`: the login write of both tokens, then the flag is set
      (whatever was stored). */
  function SaveTokens<P>(st: AuthState<P>, store: Store, t: TokenPair): (r: (AuthState<P>, Store))
    ensures r.0 == st.(isAuthenticated := true)
    ensures r.1 == SaveTokenPair(store, t)
  {
    (st.(isAuthenticated := true), SaveTokenPair(store, t))
  }

  /** `clear`: exactly the three keys go; the user and the flag are reset. */
  function Clear<P>(st: AuthState<P>, store: Store): (r: (AuthState<P>, Store))
    ensures r.0 == AuthState(None, false)
    ensures ACCESS_TOKEN !in r.1 && REFRESH_TOKEN !in r.1 && USER !in r.1
    ensures AgreeOutside(store, r.1, {ACCESS_TOKEN, REFRESH_TOKEN, USER})
  {
    (AuthState(None, false), RemoveItems(store, {ACCESS_TOKEN, REFRESH_TOKEN, USER}))
  }

  /** `setUserFromToken`: the serialised payload goes under `user` and the
      payload becomes the user. */
  function SetUserFromToken<P>(st: AuthState<P>, store: Store, payload: P,
                               stringify: P -> string): (r: (AuthState<P>, Store))
    ensures r.0 == st.(user := Some(payload))
    ensures GetItem(r.1, USER) == Some(stringify(payload))
    ensures AgreeOutside(store, r.1, {USER})
  {
    (st.(user := Some(payload)), store[USER := stringify(payload)])
  }

  /** A stored user survives a reload when the serialisation reads back:
      the initialiser then yields the same payload. */
  lemma UserSurvivesReload<P>(st: AuthState<P>, store: Store, payload: P,
                              parse: string -> Option<P>, stringify: P -> string)
    requires stringify(payload) != ""
    requires parse(stringify(payload)) == Some(payload)
    ensures InitialUser(SetUserFromToken(st, store, payload, stringify).1, parse) == Some(payload)
  {
    var s := SetUserFromToken(st, store, payload, stringify).1;
    assert GetItem(s, USER) == Some(stringify(payload));
  }

  /** After `clear`, a reload starts logged out with no user. */
  lemma ClearThenReload<P>(st: AuthState<P>, store: Store, parse: string -> Option<P>)
    ensures Initial(Clear(st, store).1, parse) == AuthState(None, false)
  {
    var s := Clear(st, store).1;
    assert GetItem(s, USER) == None && GetItem(s, ACCESS_TOKEN) == None;
  }

  /** `saveTokens` claims authentication even when the server sent an
      empty access token; the next re-sync (or reload) withdraws it exactly
      in that case. */
  lemma SaveTokensThenResync<P>(st: AuthState<P>, store: Store, t: TokenPair)
    ensures SaveTokens(st, store, t).0.isAuthenticated
    ensures Resync(SaveTokens(st, store, t).0, SaveTokens(st, store, t).1).isAuthenticated
        <==> t.access != Str("")
  {
    var s := SaveTokens(st, store, t).1;
    assert GetItem(s, ACCESS_TOKEN) == Some(Stringify(t.access));
  }
}
