/** The shared axios instance (src/api.js): default headers and the request
    interceptor that attaches the stored access token. */
module Api {
  import opened Js
  import opened Storage

  const BASE_URL: string := "http://127.0.0.1:8000"
  const AUTHORIZATION: string := "Authorization"

  type Headers = map<string, string>

  /** The part of an outgoing request config the interceptor sees. */
  datatype Config = Config(url: string, headers: Headers)

  /** Headers every request starts with. */
  const DEFAULT_HEADERS: Headers := map["Content-Type" := "application/json"]

  /** The request interceptor: with a truthy stored `access_token` the config
      gains `Authorization: Bearer <token>`; otherwise it passes unchanged.
      No other header and nothing else in the config is touched. */
  function Intercept(config: Config, store: Store): (r: Config)
    ensures r.url == config.url
    ensures HasTruthy(store, ACCESS_TOKEN) ==>
      AUTHORIZATION in r.headers && r.headers[AUTHORIZATION] == "Bearer " + store[ACCESS_TOKEN]
    ensures !HasTruthy(store, ACCESS_TOKEN) ==> r == config
    ensures forall k :: k != AUTHORIZATION ==>
      (k in r.headers <==> k in config.headers) &&
      (k in r.headers ==> r.headers[k] == config.headers[k])
  {
    match GetItem(store, ACCESS_TOKEN)
    case Some(token) =>
      if token != "" then config.(headers := config.headers[AUTHORIZATION := "Bearer " + token])
      else config
    case None => config
  }

  /** A fresh request carries an Authorization header exactly when a truthy
      access token is stored, and keeps its JSON content type either way. */
  lemma FreshRequestHeaders(url: string, store: Store)
    ensures var r := Intercept(Config(url, DEFAULT_HEADERS), store);
      && (AUTHORIZATION in r.headers <==> HasTruthy(store, ACCESS_TOKEN))
      && r.headers["Content-Type"] == "application/json"
  {
  }

  /** The bearer value is the token and nothing else: the token can be read
      back from the header. */
  lemma BearerRoundTrip(config: Config, store: Store)
    requires HasTruthy(store, ACCESS_TOKEN)
    ensures var v := Intercept(config, store).headers[AUTHORIZATION];
      |v| > 7 && v[..7] == "Bearer " && v[7..] == store[ACCESS_TOKEN]
  {
  }
}
