/** The src/chat sidebar with per-session delete and clear buttons
    (src/chat/ChatSidebar.jsx). */
module LegacyChatSidebar {
  import opened Js
  import opened Http
  import opened Sessions
  import Endpoints

  const CREATE_FAILED: string := "Failed to create new chat session"
  const DELETE_QUESTION: string := "Are you sure you want to delete this chat?"
  const DELETE_FAILED: string := "Failed to delete chat session"
  const CLEAR_QUESTION: string := "Are you sure you want to clear all messages in this chat?"
  const CLEAR_FAILED: string := "Failed to clear messages"

  /** The list and the selection the sidebar receives from its parent. */
  datatype SidebarState = SidebarState(sessions: seq<Session>, active: Option<Session>)

  /** `handleNewChat`: prepend and select on success, alert on failure. */
  function NewChat(st: SidebarState, create: Outcome<Session>): (r: Step<SidebarState>)
    ensures create.Ok? ==>
      && r.state == SidebarState([create.value] + st.sessions, Some(create.value))
      && r.effects == [Call(Post(Endpoints.SESSIONS, EmptyObject))]
    ensures create.Fail? ==>
      r == Step(st, [Call(Post(Endpoints.SESSIONS, EmptyObject)), Alert(CREATE_FAILED)])
    ensures create.Ok? ==> ActiveListed(r.state.sessions, r.state.active)
  {
    var call := Call(Post(Endpoints.SESSIONS, EmptyObject));
    match create
    case Ok(s) =>
      PrependSelectListed(s, st.sessions);
      Step(SidebarState([s] + st.sessions, Some(s)), [call])
    case Fail(_) => Step(st, [call, Alert(CREATE_FAILED)])
  }

  /** `handleDelete` after the confirmation dialog. */
  function DeleteSession(st: SidebarState, id: string, confirmed: bool, outcome: Outcome<()>): (r: Step<SidebarState>)
    ensures !confirmed ==> r == Step(st, [Confirm(DELETE_QUESTION)])
    ensures confirmed && outcome.Ok? ==>
      && r.state.sessions == RemoveId(st.sessions, id)
      && r.state.active == (if IsActive(st.active, id) then None else st.active)
      && r.effects == [Confirm(DELETE_QUESTION), Call(Delete(Endpoints.SessionDetail(id)))]
    ensures confirmed && outcome.Fail? ==>
      r == Step(st, [Confirm(DELETE_QUESTION), Call(Delete(Endpoints.SessionDetail(id))), Alert(DELETE_FAILED)])
    ensures ActiveListed(st.sessions, st.active) ==> ActiveListed(r.state.sessions, r.state.active)
  {
    var ask := Confirm(DELETE_QUESTION);
    if !confirmed then Step(st, [ask])
    else
      var call := Call(Delete(Endpoints.SessionDetail(id)));
      match outcome
      case Ok(_) =>
        var active := if IsActive(st.active, id) then None else st.active;
        assert ActiveListed(st.sessions, st.active) ==> ActiveListed(RemoveId(st.sessions, id), active) by {
          if ActiveListed(st.sessions, st.active) {
            RemoveKeepsOtherSelection(st.sessions, active, id);
          }
        }
        Step(SidebarState(RemoveId(st.sessions, id), active), [ask, call])
      case Fail(_) => Step(st, [ask, call, Alert(DELETE_FAILED)])
  }

  /** `handleClearMessages`: the list never changes; when the cleared
      session is the selected one it is selected anew (a fresh copy, which
      makes the chat pane refetch its now empty history). */
  function ClearMessages(st: SidebarState, id: string, confirmed: bool, outcome: Outcome<()>): (r: Step<SidebarState>)
    ensures r.state == st
    ensures !confirmed ==> r.effects == [Confirm(CLEAR_QUESTION)]
    ensures confirmed && outcome.Ok? && IsActive(st.active, id) ==>
      r.effects == [Confirm(CLEAR_QUESTION), Call(Delete(Endpoints.SessionClear(id))), Reselect(id)]
    ensures confirmed && outcome.Ok? && !IsActive(st.active, id) ==>
      r.effects == [Confirm(CLEAR_QUESTION), Call(Delete(Endpoints.SessionClear(id)))]
    ensures confirmed && outcome.Fail? ==>
      r.effects == [Confirm(CLEAR_QUESTION), Call(Delete(Endpoints.SessionClear(id))), Alert(CLEAR_FAILED)]
  {
    var ask := Confirm(CLEAR_QUESTION);
    if !confirmed then Step(st, [ask])
    else
      var call := Call(Delete(Endpoints.SessionClear(id)));
      match outcome
      case Ok(_) => Step(st, if IsActive(st.active, id) then [ask, call, Reselect(id)] else [ask, call])
      case Fail(_) => Step(st, [ask, call, Alert(CLEAR_FAILED)])
  }

  /** Clearing and deleting the same session hit different endpoints: a
      clear never removes a session. */
  lemma ClearIsNotDelete(st: SidebarState, id: string, outcome: Outcome<()>)
    ensures Calls(ClearMessages(st, id, true, outcome).effects) == [Delete(Endpoints.SessionClear(id))]
    ensures Calls(DeleteSession(st, id, true, outcome).effects) == [Delete(Endpoints.SessionDetail(id))]
    ensures Endpoints.SessionClear(id) != Endpoints.SessionDetail(id)
  {
    var ask := [Confirm(CLEAR_QUESTION)];
    var tail := ClearMessages(st, id, true, outcome).effects[2..];
    assert ClearMessages(st, id, true, outcome).effects == ask + [Call(Delete(Endpoints.SessionClear(id)))] + tail;
    CallsOfOne(ask, Delete(Endpoints.SessionClear(id)), tail);
    var ask2 := [Confirm(DELETE_QUESTION)];
    var tail2 := DeleteSession(st, id, true, outcome).effects[2..];
    assert DeleteSession(st, id, true, outcome).effects == ask2 + [Call(Delete(Endpoints.SessionDetail(id)))] + tail2;
    CallsOfOne(ask2, Delete(Endpoints.SessionDetail(id)), tail2);
    assert |Endpoints.SessionClear(id)| != |Endpoints.SessionDetail(id)|;
  }

  /** `s.title || "Chat " + s.id.slice(0, 8)`. */
  function DisplayTitle(s: Session): (r: string)
    ensures Truthy(s.title) ==> r == s.title
    ensures !Truthy(s.title) ==> r == "Chat " + Take(s.id, 8) && |r| <= 13
  {
    OrElse(s.title, "Chat " + Take(s.id, 8))
  }
}
