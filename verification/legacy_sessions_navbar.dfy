/** The src/chat session list with a logout button
    (src/chat/SessionsNavbar.jsx): no confirmation, and failures are only
    logged. */
module LegacySessionsNavbar {
  import opened Js
  import opened Http
  import opened Sessions
  import Endpoints

  datatype LegacyNavbarState = LegacyNavbarState(sessions: seq<Session>, active: Option<Session>)

  /** `handleNewChat`: prepend and select on success; a failure changes
      nothing and shows nothing. */
  function NewChat(st: LegacyNavbarState, create: Outcome<Session>): (r: Step<LegacyNavbarState>)
    ensures r.effects == [Call(Post(Endpoints.SESSIONS, EmptyObject))]
    ensures create.Ok? ==> r.state == LegacyNavbarState([create.value] + st.sessions, Some(create.value))
    ensures create.Fail? ==> r.state == st
    ensures create.Ok? ==> ActiveListed(r.state.sessions, r.state.active)
  {
    var call := Call(Post(Endpoints.SESSIONS, EmptyObject));
    match create
    case Ok(s) =>
      PrependSelectListed(s, st.sessions);
      Step(LegacyNavbarState([s] + st.sessions, Some(s)), [call])
    case Fail(_) => Step(st, [call])
  }

  /** `handleDelete`: the request goes out at once, with no confirmation. */
  function DeleteSession(st: LegacyNavbarState, id: string, outcome: Outcome<()>): (r: Step<LegacyNavbarState>)
    ensures r.effects == [Call(Delete(Endpoints.SessionDetail(id)))]
    ensures outcome.Ok? ==>
      && r.state.sessions == RemoveId(st.sessions, id)
      && r.state.active == (if IsActive(st.active, id) then None else st.active)
    ensures outcome.Fail? ==> r.state == st
    ensures forall s :: s in r.state.sessions ==> s in st.sessions
  {
    var call := Call(Delete(Endpoints.SessionDetail(id)));
    match outcome
    case Ok(_) =>
      var active := if IsActive(st.active, id) then None else st.active;
      Step(LegacyNavbarState(RemoveId(st.sessions, id), active), [call])
    case Fail(_) => Step(st, [call])
  }

  /** Deleting is idempotent on the list: a second delete of the same id
      (if the server accepts it) leaves the list as the first left it. */
  lemma {:induction false} DeleteTwiceSameList(st: LegacyNavbarState, id: string)
    ensures var once := DeleteSession(st, id, Ok(())).state;
      DeleteSession(once, id, Ok(())).state == once
  {
    var once := DeleteSession(st, id, Ok(())).state;
    forall k | 0 <= k < |once.sessions|
      ensures Ids(once.sessions)[k] != id
    {
      assert once.sessions[k] in RemoveId(st.sessions, id);
    }
    RemoveAbsentId(once.sessions, id);
  }

  /** `s.title || "Session " + s.id.slice(0, 6)`. */
  function DisplayTitle(s: Session): (r: string)
    ensures Truthy(s.title) ==> r == s.title
    ensures !Truthy(s.title) ==> r == "Session " + Take(s.id, 6) && |r| <= 14
  {
    OrElse(s.title, "Session " + Take(s.id, 6))
  }
}
