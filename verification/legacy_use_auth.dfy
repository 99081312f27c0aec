/** The src/auth authentication hook (src/auth/useAuth.js): it
    stores tokens under the keys `access` and `refresh`, which nothing else
    reads. */
module LegacyUseAuth {
  import opened Js
  import opened Http
  import opened Storage
  import Api

  const ACCESS: string := "access"
  const REFRESH: string := "refresh"

  /** `saveTokens`: both values are written unconditionally, an absent one
      as the text "undefined" and a `null` one as "null". */
  function SaveTokens(store: Store, t: TokenPair): (r: Store)
    ensures GetItem(r, ACCESS) == Some(Stringify(t.access))
    ensures GetItem(r, REFRESH) == Some(Stringify(t.refresh))
    ensures AgreeOutside(store, r, {ACCESS, REFRESH})
  {
    store[ACCESS := Stringify(t.access)][REFRESH := Stringify(t.refresh)]
  }

  /** `clear`: exactly `access`, `refresh` and `user` go; the user is reset. */
  function Clear<P>(user: Option<P>, store: Store): (r: (Option<P>, Store))
    ensures r.0 == None
    ensures ACCESS !in r.1 && REFRESH !in r.1 && USER !in r.1
    ensures AgreeOutside(store, r.1, {ACCESS, REFRESH, USER})
  {
    (None, RemoveItems(store, {ACCESS, REFRESH, USER}))
  }

  /** `setUserFromToken`. */
  function SetUserFromToken<P>(user: Option<P>, store: Store, payload: P,
                               stringify: P -> string): (r: (Option<P>, Store))
    ensures r.0 == Some(payload)
    ensures GetItem(r.1, USER) == Some(stringify(payload))
    ensures AgreeOutside(store, r.1, {USER})
  {
    (Some(payload), store[USER := stringify(payload)])
  }

  /** The legacy `saveTokens` never reaches `access_token`: the request
      interceptor attaches exactly what it attached before, and a logged-out
      user stays logged out. */
  lemma SaveTokensInvisibleToInterceptor(config: Api.Config, store: Store, t: TokenPair)
    ensures SameAt(store, SaveTokens(store, t), ACCESS_TOKEN)
    ensures Api.Intercept(config, SaveTokens(store, t)) == Api.Intercept(config, store)
    ensures HasTruthy(SaveTokens(store, t), ACCESS_TOKEN) <==> HasTruthy(store, ACCESS_TOKEN)
  {
    var s := SaveTokens(store, t);
    assert GetItem(s, ACCESS_TOKEN) == GetItem(store, ACCESS_TOKEN);
  }
}
