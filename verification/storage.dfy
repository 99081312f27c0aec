/** `window.localStorage` as a finite map from keys to stored strings. */
module Storage {
  import opened Js
  import opened Http

  type Store = map<string, string>

  const ACCESS_TOKEN: string := "access_token"
  const REFRESH_TOKEN: string := "refresh_token"
  const USER: string := "user"

  /** `localStorage.getItem(key)`: null when the key is absent. */
  function GetItem(store: Store, key: string): (v: Option<string>)
    ensures v.Some? <==> key in store
    ensures v.Some? ==> v.value == store[key]
  {
    if key in store then Some(store[key]) else None
  }

  /** `!!localStorage.getItem(key)`: present and non-empty. */
  predicate HasTruthy(store: Store, key: string) {
    TruthyOpt(GetItem(store, key))
  }

  /** The key is absent or maps to the same value in both stores. */
  predicate SameAt(a: Store, b: Store, key: string) {
    GetItem(a, key) == GetItem(b, key)
  }

  /** Two stores agree everywhere except possibly on `keys`. */
  predicate AgreeOutside(a: Store, b: Store, keys: set<string>) {
    && (forall k :: k in a && k !in keys ==> k in b && b[k] == a[k])
    && (forall k :: k in b && k !in keys ==> k in a)
  }

  /** `localStorage.removeItem` of several keys. */
  function RemoveItems(store: Store, keys: set<string>): (r: Store)
    ensures forall k :: k in keys ==> k !in r
    ensures AgreeOutside(store, r, keys)
  {
    store - keys
  }

  /** What a successful login writes: `access_token` always (the text
      "undefined" when the response lacks it, "null" when it is `null`),
      `refresh_token` only when the
      refresh value is truthy. Nothing else changes. */
  function SaveTokenPair(store: Store, t: TokenPair): (r: Store)
    ensures ACCESS_TOKEN in r && r[ACCESS_TOKEN] == Stringify(t.access)
    ensures TruthyJs(t.refresh) ==> REFRESH_TOKEN in r && r[REFRESH_TOKEN] == t.refresh.text
    ensures !TruthyJs(t.refresh) ==> SameAt(store, r, REFRESH_TOKEN)
    ensures AgreeOutside(store, r, {ACCESS_TOKEN, REFRESH_TOKEN})
  {
    var withAccess := store[ACCESS_TOKEN := Stringify(t.access)];
    if TruthyJs(t.refresh) then withAccess[REFRESH_TOKEN := t.refresh.text] else withAccess
  }
}
