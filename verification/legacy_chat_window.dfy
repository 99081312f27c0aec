/** The src/chat chat pane (src/chat/ChatWindow.jsx): no loading
    flag, no optimistic message, and a transcript that only grows when the
    assistant has answered. */
module LegacyChatWindow {
  import opened Js
  import opened Http
  import opened Sessions
  import Endpoints

  datatype LegacyWindowState = LegacyWindowState(
    sessions: seq<Session>,
    active: Option<Session>,
    messages: seq<Message>,
    input: string)

  /** An entry of the legacy transcript: a role and a text, no news. */
  function Plain(role: Role, content: string): (m: Message)
    ensures m.role == role && m.content == content && m.news == [] && !m.failed
  {
    Message(role, content, [], false)
  }

  /** The history effect. Only a missing selection object empties the pane
      without a request (an id of "" is still fetched). A success stores
      `data.history || []`; an error, or a null body, leaves the transcript
      as it was. */
  function LoadHistory(st: LegacyWindowState, outcome: Outcome<Body<Message>>): (r: Step<LegacyWindowState>)
    requires outcome.Ok? ==> ListShaped(outcome.value, "history")
    ensures st.active.None? ==> r == Step(st.(messages := []), [])
    ensures st.active.Some? ==> r.effects == [Call(Get(Endpoints.SessionDetail(st.active.value.id)))]
    ensures st.active.Some? && outcome.Ok? && !outcome.value.NullBody? ==>
      r.state.messages == ListOrEmpty(outcome.value, "history").value
    ensures st.active.Some? && (outcome.Fail? || outcome.value.NullBody?) ==>
      r.state.messages == st.messages
    ensures r.state.sessions == st.sessions && r.state.active == st.active
    ensures r.state.input == st.input
  {
    match st.active
    case None => Step(st.(messages := []), [])
    case Some(s) =>
      var call := Call(Get(Endpoints.SessionDetail(s.id)));
      var found := if outcome.Ok? then ListOrEmpty(outcome.value, "history") else None;
      match found
      case Some(items) => Step(st.(messages := items), [call])
      case None => Step(st, [call])
  }

  /** A readable history replaces the transcript outright: two panes on
      the same session that receive the same response show the same
      messages, whatever each showed before. With no selection both are
      cleared. */
  lemma HistoryReplacesWholesale(a: LegacyWindowState, b: LegacyWindowState, outcome: Outcome<Body<Message>>)
    requires outcome.Ok? ==> ListShaped(outcome.value, "history")
    requires || (a.active.None? && b.active.None?)
             || (&& a.active.Some? && b.active.Some? && a.active.value.id == b.active.value.id
                 && outcome.Ok? && !outcome.value.NullBody?)
    ensures LoadHistory(a, outcome).state.messages == LoadHistory(b, outcome).state.messages
    ensures LoadHistory(a, outcome).effects == LoadHistory(b, outcome).effects
  {
  }

  /** The chat half of `handleSend`, once a session id is known: on a reply
      the pair is appended, the session is touched and the input cleared; on
      an error nothing else changes and no message is shown. */
  function Exchange(st: LegacyWindowState, id: string, chat: Outcome<string>, now: string,
                    before: seq<Effect>): (r: Step<LegacyWindowState>)
    ensures r.effects == before + [Call(Post(Endpoints.SessionChat(id), MessagePayload(st.input)))]
    ensures chat.Ok? ==>
      && r.state.messages == st.messages + [Plain(User, st.input), Plain(Assistant, chat.value)]
      && r.state.sessions == Touch(st.sessions, id, now)
      && r.state.input == ""
    ensures chat.Fail? ==> r.state == st
    ensures r.state.active == st.active
  {
    var call := Call(Post(Endpoints.SessionChat(id), MessagePayload(st.input)));
    match chat
    case Ok(response) =>
      var pair := [Plain(User, st.input), Plain(Assistant, response)];
      Step(st.(messages := st.messages + pair, sessions := Touch(st.sessions, id, now), input := ""),
           before + [call])
    case Fail(_) => Step(st, before + [call])
  }

  /** `handleSend`. `create` is consulted only when no session with a
      truthy id is selected; `chat` only when a session id is known. */
  function HandleSend(st: LegacyWindowState, create: Outcome<Session>, chat: Outcome<string>,
                      now: string): (r: Step<LegacyWindowState>)
    ensures IsBlank(st.input) ==> r == Step(st, [])
    ensures !IsBlank(st.input) && ActiveId(st.active).Some? ==>
      r == Exchange(st, st.active.value.id, chat, now, [])
    ensures !IsBlank(st.input) && ActiveId(st.active).None? && create.Fail? ==>
      r == Step(st, [Call(Post(Endpoints.SESSIONS, EmptyObject))])
    ensures !IsBlank(st.input) && ActiveId(st.active).None? && create.Ok? ==>
      var withNew := st.(sessions := [create.value] + st.sessions, active := Some(create.value));
      r == Exchange(withNew, create.value.id, chat, now, [Call(Post(Endpoints.SESSIONS, EmptyObject))])
    ensures chat.Fail? ==> r.state.input == st.input && r.state.messages == st.messages
    ensures chat.Ok? && !IsBlank(st.input) && (ActiveId(st.active).Some? || create.Ok?) ==>
      r.state.input == "" && |r.state.messages| == |st.messages| + 2
  {
    if IsBlank(st.input) then Step(st, [])
    else match ActiveId(st.active)
      case Some(id) => Exchange(st, id, chat, now, [])
      case None =>
        var post := Call(Post(Endpoints.SESSIONS, EmptyObject));
        match create
        case Fail(_) => Step(st, [post])
        case Ok(s) =>
          Exchange(st.(sessions := [s] + st.sessions, active := Some(s)), s.id, chat, now, [post])
  }

  /** Enter sends unconditionally (there is no in-flight state to check). */
  function OnKeyPress(st: LegacyWindowState, enter: bool, create: Outcome<Session>,
                      chat: Outcome<string>, now: string): (r: Step<LegacyWindowState>)
    ensures !enter ==> r == Step(st, [])
    ensures enter ==> r == HandleSend(st, create, chat, now)
  {
    if enter then HandleSend(st, create, chat, now) else Step(st, [])
  }

  /** A successful send leaves the selection listed whenever it was, and
      the selected session is the one whose timestamp moves. */
  lemma SendKeepsSelectionListed(st: LegacyWindowState, create: Outcome<Session>,
                                 chat: Outcome<string>, now: string)
    requires ActiveListed(st.sessions, st.active)
    ensures var r := HandleSend(st, create, chat, now).state;
      ActiveListed(r.sessions, r.active)
  {
    var r := HandleSend(st, create, chat, now).state;
    if !IsBlank(st.input) && ActiveId(st.active).None? && create.Ok? {
      PrependSelectListed(create.value, st.sessions);
      assert Ids(Touch([create.value] + st.sessions, create.value.id, now)) == Ids([create.value] + st.sessions);
    }
  }

  /** With no in-flight state, Enter on a non-blank input always issues a
      request, however recently the previous one went out. */
  lemma EnterAlwaysSends(st: LegacyWindowState, create: Outcome<Session>, chat: Outcome<string>, now: string)
    requires !IsBlank(st.input)
    ensures Calls(OnKeyPress(st, true, create, chat, now).effects) != []
  {
    var e := OnKeyPress(st, true, create, chat, now).effects;
    assert e[0].Call?;
    assert e[0] in e;
  }
}
