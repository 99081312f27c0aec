/** The message pane (src/components/chat/ChatWindow.jsx): history loading
    on selection change and the optimistic send with lazy session creation. */
module ChatWindow {
  import opened Js
  import opened Http
  import opened Sessions
  import Endpoints

  const LOAD_FAILED: string := "Failed to load messages."
  const CREATE_FAILED: string := "Failed to create session. Please try again."
  const REPLY_FAILED: string := "Sorry, I encountered an error. Please try again."
  const SEND_FAILED: string := "Failed to send message. Please try again."

  /** The pane's own state plus the layout's list and selection, which it
      changes through `setSessions` and `setActiveSession`. */
  datatype WindowState = WindowState(
    sessions: seq<Session>,
    active: Option<Session>,
    messages: seq<Message>,
    input: string,
    loading: bool,
    fetchingHistory: bool,
    started: bool,
    error: string)

  /** `res.data` of a successful chat request. */
  datatype ChatReply = ChatReply(response: string, newsItems: Option<seq<NewsItem>>)

  // ---------------------------------------------------------------------
  // History
  // ---------------------------------------------------------------------

  /** `const messagesData = res.data.results || res.data` followed by
      `Array.isArray(messagesData) ? messagesData : []`. None when reading
      `results` of a null body throws. */
  function HistoryOf(body: Body<Message>): (r: Option<seq<Message>>)
    ensures r.None? <==> body.NullBody?
    ensures body.ArrayBody? ==> r == Some(body.items)
    ensures body.ObjectBody? && PropOf(body.props, "results").Array? ==>
      r == Some(PropOf(body.props, "results").items)
    ensures body.ObjectBody? && !PropOf(body.props, "results").Array? ==> r == Some([])
    ensures body.ScalarBody? ==> r == Some([])
  {
    if body.NullBody? then None
    else
      var results := if body.ObjectBody? then PropOf(body.props, "results") else Falsy;
      var data := if !results.Falsy? then results
                  else if body.ArrayBody? then Array(body.items)
                  else NonArray;
      Some(if data.Array? then data.items else [])
  }

  /** The effect keyed on the selected session's id. With no usable id the
      pane is emptied and nothing is fetched; otherwise the history replaces
      the list wholesale, and a failed fetch empties it and reports. */
  function LoadHistory(st: WindowState, outcome: Outcome<Body<Message>>): (r: Step<WindowState>)
    ensures ActiveId(st.active).None? ==>
      r.state.messages == [] && !r.state.started && r.state.error == "" && r.effects == []
    ensures ActiveId(st.active).Some? ==>
      && r.effects == [Call(Get(Endpoints.SessionMessages(ActiveId(st.active).value)))]
      && !r.state.fetchingHistory
    ensures ActiveId(st.active).Some? && outcome.Ok? && !outcome.value.NullBody? ==>
      && r.state.messages == HistoryOf(outcome.value).value
      && r.state.started == (|r.state.messages| > 0)
      && r.state.error == ""
    ensures ActiveId(st.active).Some? && (outcome.Fail? || outcome.value.NullBody?) ==>
      r.state.messages == [] && !r.state.started && r.state.error == LOAD_FAILED
    ensures r.state.sessions == st.sessions && r.state.active == st.active
    ensures r.state.input == st.input && r.state.loading == st.loading
  {
    match ActiveId(st.active)
    case None => Step(st.(messages := [], started := false, error := ""), [])
    case Some(id) =>
      var loaded := if outcome.Ok? then HistoryOf(outcome.value) else None;
      var st' := match loaded
        case Some(msgs) => st.(messages := msgs, started := |msgs| > 0, error := "", fetchingHistory := false)
        case None => st.(messages := [], started := false, error := LOAD_FAILED, fetchingHistory := false);
      Step(st', [Call(Get(Endpoints.SessionMessages(id)))])
  }

  /** Switching sessions never mixes transcripts: what the pane shows after
      a load does not depend on what it showed before. */
  lemma HistoryReplacesWholesale(a: WindowState, b: WindowState, outcome: Outcome<Body<Message>>)
    requires ActiveId(a.active) == ActiveId(b.active)
    ensures LoadHistory(a, outcome).state.messages == LoadHistory(b, outcome).state.messages
    ensures LoadHistory(a, outcome).effects == LoadHistory(b, outcome).effects
  {
  }

  // ---------------------------------------------------------------------
  // Send
  // ---------------------------------------------------------------------

  /** The assistant message built from a reply; `news_items || []`. */
  function AssistantReply(reply: ChatReply): (m: Message)
    ensures m.role == Assistant && m.content == reply.response && !m.failed
    ensures m.news == (if reply.newsItems.Some? then reply.newsItems.value else [])
  {
    Message(Assistant, reply.response, if reply.newsItems.Some? then reply.newsItems.value else [], false)
  }

  /** The synthetic assistant message appended when the chat request fails. */
  function FailureReply(): (m: Message)
    ensures m.role == Assistant && m.failed && m.news == [] && m.content == REPLY_FAILED
  {
    Message(Assistant, REPLY_FAILED, [], true)
  }

  /** `err.response?.data?.error || "Failed to send message. …"`. */
  function SendError(e: HttpError): (r: string)
    ensures DataOf(e).Fields? && DataOf(e).error != "" ==> r == DataOf(e).error
    ensures !(DataOf(e).Fields? && DataOf(e).error != "") ==> r == SEND_FAILED
  {
    match DataOf(e)
    case Fields(_, _, _, _, error) => OrElse(error, SEND_FAILED)
    case NoData => SEND_FAILED
  }

  /** The message that ends an exchange. */
  function ReplyFor(chat: Outcome<ChatReply>): (m: Message)
    ensures m.role == Assistant
    ensures m.failed <==> chat.Fail?
  {
    match chat
    case Ok(reply) => AssistantReply(reply)
    case Fail(_) => FailureReply()
  }

  /** Lines 85-91: the state when the first request goes out. The trimmed
      text is already in the transcript and the input is already empty. */
  function Begin(st: WindowState): (r: WindowState)
    requires !IsBlank(st.input)
    ensures r.messages == st.messages + [UserMessage(Trim(st.input))]
    ensures r.input == "" && r.loading && r.started && r.error == ""
    ensures r.sessions == st.sessions && r.active == st.active
  {
    st.(started := true, error := "", input := "",
        messages := st.messages + [UserMessage(Trim(st.input))], loading := true)
  }

  /** The chat request for session `id` and how its outcome lands. `Fail`
      is a rejected request; a null reply body is not among the outcomes. */
  function Exchange(st: WindowState, id: string, text: string, chat: Outcome<ChatReply>,
                    now: string, before: seq<Effect>): (r: Step<WindowState>)
    ensures r.effects == before + [Call(Post(Endpoints.SessionChat(id), MessagePayload(text)))]
    ensures r.state.messages == st.messages + [ReplyFor(chat)]
    ensures chat.Ok? ==> r.state.sessions == Touch(st.sessions, id, now) && r.state.error == st.error
    ensures chat.Fail? ==> r.state.sessions == st.sessions && r.state.error == SendError(chat.error)
    ensures !r.state.loading && r.state.active == st.active && r.state.input == st.input
    ensures r.state.started == st.started
  {
    var effects := before + [Call(Post(Endpoints.SessionChat(id), MessagePayload(text)))];
    match chat
    case Ok(reply) =>
      Step(st.(messages := st.messages + [AssistantReply(reply)],
               sessions := Touch(st.sessions, id, now), loading := false), effects)
    case Fail(e) =>
      Step(st.(messages := st.messages + [FailureReply()], error := SendError(e), loading := false), effects)
  }

  /** `handleSend`, given the outcome of the session creation (consulted
      only when no session is selected), of the chat request, and the
      current time. */
  function HandleSend(st: WindowState, create: Outcome<Session>, chat: Outcome<ChatReply>,
                      now: string): (r: Step<WindowState>)
    ensures IsBlank(st.input) ==> r == Step(st, [])
    ensures !IsBlank(st.input) ==>
      r.state.input == "" && !r.state.loading && r.state.started && |r.effects| > 0
  {
    if IsBlank(st.input) then Step(st, [])
    else
      var text := Trim(st.input);
      var pending := Begin(st);
      match ActiveId(st.active)
      case Some(id) => Exchange(pending, id, text, chat, now, [])
      case None =>
        var createCall := Call(Post(Endpoints.SESSIONS, EmptyObject));
        match create
        case Fail(_) => Step(pending.(error := CREATE_FAILED, loading := false), [createCall])
        case Ok(s) =>
          Exchange(pending.(active := Some(s), sessions := [s] + pending.sessions),
                   s.id, text, chat, now, [createCall])
  }

  /** With a session selected: one chat request carrying the trimmed text,
      the user message and then exactly one reply; the list keeps its length
      and order and only the selected session's timestamp moves. */
  lemma SendToSelectedSession(st: WindowState, create: Outcome<Session>,
                              chat: Outcome<ChatReply>, now: string)
    requires !IsBlank(st.input) && ActiveId(st.active).Some?
    ensures var r := HandleSend(st, create, chat, now);
      var id := ActiveId(st.active).value;
      && r.effects == [Call(Post(Endpoints.SessionChat(id), MessagePayload(Trim(st.input))))]
      && r.state.messages == st.messages + [UserMessage(Trim(st.input)), ReplyFor(chat)]
      && r.state.active == st.active
      && r.state.sessions == (if chat.Ok? then Touch(st.sessions, id, now) else st.sessions)
      && (chat.Fail? ==> r.state.error == SendError(chat.error))
  {
  }

  /** No session and the creation fails: only the creation request was
      made, the error is set, and the user message stays with no reply
      after it. */
  lemma SendCreateFails(st: WindowState, create: Outcome<Session>,
                        chat: Outcome<ChatReply>, now: string)
    requires !IsBlank(st.input) && ActiveId(st.active).None? && create.Fail?
    ensures var r := HandleSend(st, create, chat, now);
      && r.effects == [Call(Post(Endpoints.SESSIONS, EmptyObject))]
      && r.state.messages == st.messages + [UserMessage(Trim(st.input))]
      && r.state.error == CREATE_FAILED
      && r.state.sessions == st.sessions && r.state.active == st.active
  {
  }

  /** No session and the creation succeeds: the new session is prepended
      and selected, then the message goes to it. */
  lemma SendCreatesSession(st: WindowState, create: Outcome<Session>,
                           chat: Outcome<ChatReply>, now: string)
    requires !IsBlank(st.input) && ActiveId(st.active).None? && create.Ok?
    ensures var r := HandleSend(st, create, chat, now);
      var s := create.value;
      && r.effects == [Call(Post(Endpoints.SESSIONS, EmptyObject)),
                       Call(Post(Endpoints.SessionChat(s.id), MessagePayload(Trim(st.input))))]
      && r.state.active == Some(s)
      && r.state.messages == st.messages + [UserMessage(Trim(st.input)), ReplyFor(chat)]
      && r.state.sessions == (if chat.Ok? then Touch([s] + st.sessions, s.id, now) else [s] + st.sessions)
      && (chat.Fail? ==> r.state.error == SendError(chat.error))
  {
  }

  /** Whatever happens after it, the optimistic user message is the first
      thing a non-blank send adds to the transcript. */
  lemma SendKeepsOptimisticMessage(st: WindowState, create: Outcome<Session>,
                                   chat: Outcome<ChatReply>, now: string)
    requires !IsBlank(st.input)
    ensures var r := HandleSend(st, create, chat, now);
      && |r.state.messages| > |st.messages|
      && r.state.messages[..|st.messages| + 1] == st.messages + [UserMessage(Trim(st.input))]
  {
    var messages := HandleSend(st, create, chat, now).state.messages;
    var u := UserMessage(Trim(st.input));
    var added: seq<Message>;
    if ActiveId(st.active).Some? {
      SendToSelectedSession(st, create, chat, now);
      added := [u, ReplyFor(chat)];
    } else if create.Fail? {
      SendCreateFails(st, create, chat, now);
      added := [u];
    } else {
      SendCreatesSession(st, create, chat, now);
      added := [u, ReplyFor(chat)];
    }
    assert messages == st.messages + added;
    assert messages[..|st.messages| + 1] == st.messages + [added[0]];
  }

  /** A send keeps the selection pointing into the session list. */
  lemma SendKeepsSelectionListed(st: WindowState, create: Outcome<Session>,
                                 chat: Outcome<ChatReply>, now: string)
    requires ActiveListed(st.sessions, st.active)
    ensures var r := HandleSend(st, create, chat, now).state;
      ActiveListed(r.sessions, r.active)
  {
    if !IsBlank(st.input) && ActiveId(st.active).None? && create.Ok? {
      PrependSelectListed(create.value, st.sessions);
    }
  }

  /** Enter (without Shift) sends unless a send is already in flight. */
  function OnKeyPress(st: WindowState, enter: bool, shift: bool, create: Outcome<Session>,
                      chat: Outcome<ChatReply>, now: string): (r: Step<WindowState>)
    ensures st.loading || !enter || shift ==> r == Step(st, [])
    ensures !st.loading && enter && !shift ==> r == HandleSend(st, create, chat, now)
  {
    if enter && !shift && !st.loading then HandleSend(st, create, chat, now) else Step(st, [])
  }

  /** The send button is enabled only when idle and the input has text. */
  predicate SendEnabled(st: WindowState) {
    !st.loading && !IsBlank(st.input)
  }

  /** A click on the send button: a disabled button does nothing, an
      enabled one runs `handleSend`, so a click has an effect exactly when
      the button is enabled. */
  function OnSendClick(st: WindowState, create: Outcome<Session>, chat: Outcome<ChatReply>,
                       now: string): (r: Step<WindowState>)
    ensures r.effects != [] <==> SendEnabled(st)
    ensures !SendEnabled(st) ==> r.state == st
    ensures SendEnabled(st) ==> r.state.input == "" && !r.state.loading
  {
    if SendEnabled(st) then HandleSend(st, create, chat, now) else Step(st, [])
  }

  /** While a send is in flight (the state `Begin` produces), neither the
      key nor the button can start another one. */
  lemma NoSecondSendInFlight(st: WindowState, enter: bool, shift: bool, create: Outcome<Session>,
                             chat: Outcome<ChatReply>, now: string)
    requires !IsBlank(st.input)
    ensures !SendEnabled(Begin(st))
    ensures OnKeyPress(Begin(st), enter, shift, create, chat, now) == Step(Begin(st), [])
  {
  }

  // ---------------------------------------------------------------------
  // A conversation in one session
  // ---------------------------------------------------------------------

  /** One typed message and how its chat request settles. */
  datatype Turn = Turn(text: string, chat: Outcome<ChatReply>, now: string)

  /** Types the turn's text and sends it. In a selected session this adds
      the user message and its reply, and keeps the selection. */
  function SendTurn(st: WindowState, t: Turn): (r: WindowState)
    ensures ActiveId(st.active).Some? && !IsBlank(t.text) ==>
      && r.active == st.active
      && r.messages == st.messages + [UserMessage(Trim(t.text)), ReplyFor(t.chat)]
  {
    var typed := st.(input := t.text);
    if ActiveId(st.active).Some? && !IsBlank(t.text) then
      SendToSelectedSession(typed, Fail(NoResponse), t.chat, t.now);
      HandleSend(typed, Fail(NoResponse), t.chat, t.now).state
    else HandleSend(typed, Fail(NoResponse), t.chat, t.now).state
  }

  /** Sends the turns one after the other, each after the previous one has
      settled (the loading guard forbids overlap). */
  function Converse(st: WindowState, turns: seq<Turn>): WindowState
    decreases |turns|
  {
    if turns == [] then st else Converse(SendTurn(st, turns[0]), turns[1..])
  }

  /** The pairs a conversation appends: each user message directly followed
      by the message that answers it. */
  function Pairs(turns: seq<Turn>): seq<Message>
  {
    if turns == [] then []
    else [UserMessage(Trim(turns[0].text)), ReplyFor(turns[0].chat)] + Pairs(turns[1..])
  }

  /** In a selected session, replies appear in the order of the messages
      that triggered them, each right after its own user message. */
  lemma {:induction false} ConversationOrder(st: WindowState, turns: seq<Turn>)
    requires ActiveId(st.active).Some?
    requires forall i :: 0 <= i < |turns| ==> !IsBlank(turns[i].text)
    ensures Converse(st, turns).messages == st.messages + Pairs(turns)
    decreases |turns|
  {
    if turns != [] {
      var next := SendTurn(st, turns[0]);
      var pair := [UserMessage(Trim(turns[0].text)), ReplyFor(turns[0].chat)];
      assert next.messages == st.messages + pair;
      ConversationOrder(next, turns[1..]);
      assert Converse(st, turns) == Converse(next, turns[1..]);
      assert Pairs(turns) == pair + Pairs(turns[1..]);
      AppendAssoc(st.messages, pair, Pairs(turns[1..]));
    } else {
      assert st.messages + Pairs(turns) == st.messages;
    }
  }
}
