/** Shapes of the REST exchange as the handlers see it: the decoded body of a
    successful response, the error an `await api.…` call rejects with, the
    requests issued and the other observable effects of a handler. */
module Http {
  import opened Js

  /** The value of one property of a response object, as far as `||` and
      `Array.isArray` can tell values apart. */
  datatype Prop<+T> =
    | Falsy                 // missing, null, false, 0 or ""
    | Array(items: seq<T>)  // an array (always truthy, even when empty)
    | NonArray              // any other truthy value

  /** `res.data` of a successful response whose list items have type T. */
  datatype Body<T> =
    | NullBody                               // null: property access throws
    | ArrayBody(items: seq<T>)               // a bare JSON array
    | ObjectBody(props: map<string, Prop<T>>) // a JSON object
    | ScalarBody                             // a string, number or boolean

  /** `data[key]` on an object body; a missing key reads as undefined. */
  function PropOf<T>(props: map<string, Prop<T>>, key: string): (p: Prop<T>)
    ensures key !in props ==> p == Falsy
    ensures key in props ==> p == props[key]
  {
    if key in props then props[key] else Falsy
  }

  /** The body stores a list, or nothing, under `key`: a truthy non-array
      there would be stored as the component's list, which the model cannot
      represent. */
  predicate ListShaped<T>(body: Body<T>, key: string) {
    body.ObjectBody? ==> !PropOf(body.props, key).NonArray?
  }

  /** `data[key] || []`. Reading a property of a null body throws (None). */
  function ListOrEmpty<T>(body: Body<T>, key: string): (r: Option<seq<T>>)
    requires ListShaped(body, key)
    ensures r.None? <==> body.NullBody?
    ensures body.ObjectBody? && PropOf(body.props, key).Array? ==>
      r == Some(PropOf(body.props, key).items)
    ensures body.ObjectBody? && PropOf(body.props, key).Falsy? ==> r == Some([])
    ensures body.ArrayBody? || body.ScalarBody? ==> r == Some([])
  {
    match body
    case NullBody => None
    case ObjectBody(props) =>
      var p := PropOf(props, key);
      Some(if p.Array? then p.items else [])
    case _ => Some([])
  }

  /** A per-field validation error as the server sends it: an array of
      messages, or a single string. */
  datatype FieldError = ErrorList(list: seq<string>) | ErrorText(text: string)

  /** A field error tested with `if`: any array is truthy, a string only
      when non-empty, a missing field never. */
  predicate FieldTruthy(f: Option<FieldError>) {
    f.Some? && (f.value.ErrorList? || f.value.text != "")
  }

  /** `err.response.data` of a failed request: the fields any handler reads.
      A missing field is `None` or "". */
  datatype ErrorData =
    | NoData
    | Fields(username: Option<FieldError>, email: Option<FieldError>,
             password: Option<FieldError>, detail: string, error: string)

  /** What an awaited call rejects with: no response at all (network
      failure, or a TypeError thrown inside the `try`), or an HTTP status. */
  datatype HttpError = NoResponse | Response(status: int, data: ErrorData)

  /** `err.response?.data`, or NoData when there was no response. */
  function DataOf(e: HttpError): (d: ErrorData)
    ensures e.NoResponse? ==> d == NoData
    ensures e.Response? ==> d == e.data
  {
    match e
    case NoResponse => NoData
    case Response(_, data) => data
  }

  /** `res.data` of a successful login: `{ access, refresh }`, each of
      which may also be missing or `null`. */
  datatype TokenPair = TokenPair(access: JsString, refresh: JsString)

  /** The settled result of one awaited request. */
  datatype Outcome<+T> = Ok(value: T) | Fail(error: HttpError)

  /** JSON request bodies sent by the handlers. */
  datatype Payload =
    | EmptyObject
    | MessagePayload(message: string)
    | QueryPayload(query: string)
    | CredentialsPayload(username: string, password: string)
    | RegistrationPayload(username: string, email: string, password: string)

  datatype Request =
    | Get(path: string)
    | Post(path: string, payload: Payload)
    | Delete(path: string)

  /** Observable effects of a handler, in the order they happen. */
  datatype Effect =
    | Call(request: Request)         // an HTTP request is issued
    | Confirm(question: string)      // `window.confirm` is shown
    | Alert(text: string)            // `alert` is shown
    | Navigate(to: string)           // the router navigates
    | Reselect(id: string)           // the active session is selected anew

  /** The state a handler leaves behind and what it did on the way. */
  datatype Step<S> = Step(state: S, effects: seq<Effect>)

  /** The requests among a list of effects, in order. */
  function Calls(effects: seq<Effect>): (r: seq<Request>)
    ensures |r| <= |effects|
    ensures forall q :: q in r <==> Call(q) in effects
  {
    if effects == [] then []
    else if effects[0].Call? then [effects[0].request] + Calls(effects[1..])
    else Calls(effects[1..])
  }

  /** A handler's effect list issues no request at all. */
  predicate Silent(effects: seq<Effect>) {
    forall e :: e in effects ==> !e.Call?
  }

  lemma {:induction false} SilentIffNoCalls(effects: seq<Effect>)
    ensures Silent(effects) <==> Calls(effects) == []
  {
    if effects != [] {
      SilentIffNoCalls(effects[1..]);
      assert effects == [effects[0]] + effects[1..];
    }
  }

  /** The requests of two effect lists run one after the other. */
  lemma {:induction false} CallsAppend(a: seq<Effect>, b: seq<Effect>)
    ensures Calls(a + b) == Calls(a) + Calls(b)
  {
    if a == [] {
      assert a + b == b;
    } else {
      assert (a + b)[1..] == a[1..] + b;
      CallsAppend(a[1..], b);
    }
  }

  /** A handler that issues exactly one request among effects that issue
      none. */
  lemma CallsOfOne(before: seq<Effect>, q: Request, after: seq<Effect>)
    requires Silent(before) && Silent(after)
    ensures Calls(before + [Call(q)] + after) == [q]
  {
    SilentIffNoCalls(before);
    SilentIffNoCalls(after);
    CallsAppend(before + [Call(q)], after);
    CallsAppend(before, [Call(q)]);
    assert Calls([Call(q)]) == [q] + Calls([]);
  }
}
