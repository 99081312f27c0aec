/** The top-level chat view (src/components/chat/ChatLayout.jsx): it owns the
    session list, the selection and the tab, fetches the list on mount and
    logs out. */
module ChatLayout {
  import opened Js
  import opened Http
  import opened Storage
  import opened Sessions
  import Endpoints

  datatype LayoutState = LayoutState(sessions: seq<Session>, active: Option<Session>, tab: nat)

  /** The state before anything has been fetched: no sessions, nothing
      selected, the chat tab shown. */
  function Initial(): (r: LayoutState)
    ensures r.sessions == [] && r.active == None && r.tab == 0
    ensures ActiveListed(r.sessions, r.active)
  {
    LayoutState([], None, 0)
  }

  /** The list the mount-time fetch stores: an array body as it is,
      otherwise `data.results || []`; a null body throws inside the `try`
      and lands in the `catch`, which stores []. */
  function SessionsOf(body: Body<Session>): (r: seq<Session>)
    requires ListShaped(body, "results")
    ensures body.ArrayBody? ==> r == body.items
    ensures body.ObjectBody? && PropOf(body.props, "results").Array? ==>
      r == PropOf(body.props, "results").items
    ensures body.NullBody? || body.ScalarBody? ==> r == []
    ensures body.ObjectBody? && PropOf(body.props, "results").Falsy? ==> r == []
  {
    if body.ArrayBody? then body.items
    else match ListOrEmpty(body, "results")
      case Some(items) => items
      case None => []
  }

  /** The mount effect: one GET of the collection; a failed fetch leaves an
      empty list. The selection and the tab are not touched. */
  function FetchSessions(st: LayoutState, outcome: Outcome<Body<Session>>): (r: Step<LayoutState>)
    requires outcome.Ok? ==> ListShaped(outcome.value, "results")
    ensures r.effects == [Call(Get(Endpoints.SESSIONS))]
    ensures outcome.Ok? ==> r.state.sessions == SessionsOf(outcome.value)
    ensures outcome.Fail? ==> r.state.sessions == []
    ensures r.state.active == st.active && r.state.tab == st.tab
  {
    var sessions := match outcome
      case Ok(body) => SessionsOf(body)
      case Fail(_) => [];
    Step(st.(sessions := sessions), [Call(Get("/api/sessions/"))])
  }

  /** The fetched list replaces whatever was shown before: two states that
      receive the same response end with the same list. */
  lemma SessionsReplacedWholesale(a: LayoutState, b: LayoutState, outcome: Outcome<Body<Session>>)
    requires outcome.Ok? ==> ListShaped(outcome.value, "results")
    ensures FetchSessions(a, outcome).state.sessions == FetchSessions(b, outcome).state.sessions
    ensures FetchSessions(a, outcome).effects == FetchSessions(b, outcome).effects
  {
  }

  /** `onSelectSession`: the selection becomes exactly the given value,
      `None` included; nothing else changes. */
  function SelectSession(st: LayoutState, s: Option<Session>): (r: LayoutState)
    ensures r.active == s
    ensures r.sessions == st.sessions && r.tab == st.tab
    ensures s.None? || s.value in st.sessions ==> ActiveListed(r.sessions, r.active)
  {
    if s.Some? && s.value in st.sessions then
      MemberListed(s.value, st.sessions);
      st.(active := s)
    else st.(active := s)
  }

  /** `handleLogout`: removes the two token keys (and not `user`), then
      navigates to the login page. */
  function Logout(store: Store): (r: Step<Store>)
    ensures ACCESS_TOKEN !in r.state && REFRESH_TOKEN !in r.state
    ensures AgreeOutside(store, r.state, {ACCESS_TOKEN, REFRESH_TOKEN})
    ensures SameAt(store, r.state, USER)
    ensures r.effects == [Navigate("/login")]
  {
    Step(RemoveItems(store, {ACCESS_TOKEN, REFRESH_TOKEN}), [Navigate("/login")])
  }
}
