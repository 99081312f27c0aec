# newslens-ui, modelled in Dafny

newslens-ui is the React client of a news chat service. A user signs up, logs
in, keeps several chat sessions with an assistant that answers from news
articles, and searches news directly. The repository has two route tables,
both over the chat layout of `src/components/chat/*`, whose texts are
English: `src/App.jsx` serves the Persian `LoginPage` and `SignupPage` of
`src/components/auth/*`, and `src/App.js` serves the English `AuthPage` of
the same directory. A second set of screens lives in `src/chat/*` and
`src/auth/*`; no route table imports it (only `src/chat/ChatLayout.jsx`
uses its chat pieces, and that layout is itself imported by nothing). Its
modules are modelled too, under the prefix `Legacy`, which names this
unrouted set and implies nothing about age.

This project models the decision logic of the event handlers of both
generations as pure functions over immutable data:

- every handler is one atomic transition `state -> Step(state, effects)`,
  where the effects list records, in order, the HTTP requests issued,
  `window.confirm` prompts, `alert`s, router navigations and re-selections;
- what the outside world answers is a parameter: the settled outcome of each
  request (`Outcome<T>`: `Ok(value)` or `Fail(error)`), the answer to a
  confirmation, the current time, the millisecond age of a timestamp, and
  `JSON.parse`/`JSON.stringify` for the stored user;
- `localStorage` is a `map<string, string>`; a JavaScript absent string is
  `""` where the code only tests it with `||`/`if`, and `Option` where the
  difference shows; a token read from a response is missing, `null` or a
  string (`setItem(k, undefined)` stores the text "undefined", `setItem(k, null)` the text "null");
- a decoded response body is `Body<T>`: null, an array, an object whose
  properties are falsy / an array / some other truthy value, or a scalar.

Modules, one per source file, over shared data:

| module | models |
|---|---|
| `Js`, `Http`, `Storage`, `Clock` | JavaScript strings and `trim`, response and error shapes, effects, `localStorage`, floor division of a millisecond difference |
| `Sessions` | sessions, messages, news items, and the list operations the screens perform (filter by id, touch `updated_at`) |
| `Endpoints` | `src/constants/endpoints.js` |
| `Strings` | `src/constants/strings.js`: messages, `toPersianNumber`, `getRelativeTime` |
| `Api` | `src/api.js`: default headers and the bearer interceptor |
| `ChatLayout`, `ChatWindow`, `SessionsNavbar`, `SearchTab` | `src/components/chat/*` |
| `LegacyChatWindow`, `LegacyChatSidebar`, `LegacySessionsNavbar`, `LegacySearchTab` | `src/chat/*` |
| `LoginFlow`, `LoginPage`, `AuthPage`, `SignupPage`, `UseAuth` | `src/components/auth/*` |
| `LegacyAuthPage`, `LegacyUseAuth` | `src/auth/*` |
| `AppRoutes`, `LegacyAppRoutes` | `src/App.jsx`, `src/App.js` |

The signup e-mail check is the regular expression `^[^\s@]+@[^\s@]+\.[^\s@]+$`.
It is modelled twice: as `SignupPage.EmailPattern`, a predicate that says
where the `@` and the literal dot sit, and as `SignupPage.ScanEmail`, a
single left-to-right pass. The two are proved equal on every string. `\s`
and `trim()` share one whitespace set, the ECMAScript WhiteSpace and
LineTerminator code points (`Js.IsSpace`).

## Model

| member | source | states |
|---|---|---|
| Endpoints.SessionDetail | src/constants/endpoints.js:4-5 | the detail path is `SESSIONS`, then the id, then "/"; the id can be read back from it |
| Endpoints.SessionMessages | src/constants/endpoints.js:6 | the messages path is the detail path followed by "messages/" |
| Endpoints.SessionChat | src/constants/endpoints.js:7 | the chat path is the detail path followed by "chat/" |
| Endpoints.SessionClear | src/constants/endpoints.js:8 | the clear path is the detail path followed by "clear/" |
| Endpoints.RefreshUnderToken | src/constants/endpoints.js:16-17 | `AUTH_REFRESH` is `AUTH_TOKEN` followed by "refresh/" |
| Endpoints.BuildersInjective | src/constants/endpoints.js:5-8 | each per-session builder is injective: equal paths mean equal ids |
| Endpoints.PerSessionPathsDistinct | src/constants/endpoints.js:5-8 | for one id the detail, messages, chat and clear paths are pairwise different |
| Endpoints.DetailOfSlashedIdIsChat | src/constants/endpoints.js:5-7 | ids are not escaped: the detail path of `id + "/chat"` is the chat path of `id` |
| Api.Intercept | src/api.js:12-18 | with a truthy `access_token` the Authorization header becomes "Bearer " + token; otherwise the config is returned unchanged; no other header changes |
| Api.FreshRequestHeaders | src/api.js:4-9 | a request with the default headers carries Authorization iff a truthy token is stored, and keeps its JSON content type |
| Api.BearerRoundTrip | src/api.js:16 | the header value is exactly "Bearer " and the token, so the token can be read back from it |
| Storage.SaveTokenPair | src/components/auth/LoginPage.jsx:46-50 | `access_token` always gets the access value (the text "undefined" when absent, "null" when `null`), `refresh_token` only a truthy refresh value; no other key changes |
| Strings.ToPersianNumber | src/constants/strings.js:113-116 | same length; each ASCII digit d becomes the d-th Persian digit and every other character is kept; no ASCII digit remains |
| Strings.ToPersianIdempotent | src/constants/strings.js:114-115 | converting twice is converting once |
| Strings.FromPersianNumber | src/constants/strings.js:114 | the inverse table: each Persian digit back to its ASCII digit, other characters kept |
| Strings.PersianRoundTrip | src/constants/strings.js:114 | on text without Persian digits, converting back recovers the original: the digit map is injective |
| Strings.NatToString | src/constants/strings.js:147 | `String(n)` of a count is a non-empty run of ASCII digits without a leading zero |
| Strings.NatToStringRoundTrip | src/constants/strings.js:147 | the decimal text of a count parses back to the same count |
| Js.TrimDropsOnlySpace | src/components/chat/SearchTab.jsx:14 | `trim()` removes whitespace only, from both ends: everything before and after the result is whitespace, and the result neither starts nor ends with it |
| Clock.FloorDiv | src/constants/strings.js:142-144 | `Math.floor(diffMs / unit)`: the quotient q satisfies q*unit <= ms < (q+1)*unit, negative differences included |
| Strings.RelativeBucket | src/constants/strings.js:141-151 | exactly one bucket applies to every difference: under a minute (future dates too), 1-59 minutes, 1-23 hours, one day, 2-6 days, older; each count is the floor quotient |
| Strings.PersianCount | src/constants/strings.js:147-150 | the count shown in a label is written in Persian digits only |
| Strings.GetRelativeTime | src/constants/strings.js:138-152 | "now" under a minute; the Persian count of the minutes, hours or days bucket followed by the matching "minutes ago", "hours ago" or "days ago" text; "yesterday" for 24 to 48 hours; a locale date iff 7 days or more; no label text contains an ASCII digit |
| Sessions.RemoveId | src/components/chat/SessionsNavbar.jsx:62 | the filter keeps exactly the sessions whose id differs, never adds any |
| Sessions.RemoveIdAppend | src/components/chat/SessionsNavbar.jsx:62 | filtering distributes over concatenation, so kept sessions stay in their original order |
| Sessions.RemoveAbsentId | src/chat/SessionsNavbar.jsx:37 | removing an id no session has leaves the list as it was |
| Sessions.Touch | src/components/chat/ChatWindow.jsx:129-135 | same length and ids in the same order; only sessions with the id change, and only their timestamp |
| Sessions.PrependSelectListed | src/components/chat/SessionsNavbar.jsx:37-38 | prepending a session and selecting it leaves the selection in the list |
| Sessions.RemoveKeepsOtherSelection | src/components/chat/SessionsNavbar.jsx:62-66 | deleting another id keeps the selection in the list |
| ChatLayout.Initial | src/components/chat/ChatLayout.jsx:11-13 | no sessions, nothing selected, tab 0 |
| ChatLayout.SessionsOf | src/components/chat/ChatLayout.jsx:22 | an array body is used as is; otherwise `results` when it is an array, else [] |
| ChatLayout.FetchSessions | src/components/chat/ChatLayout.jsx:17-30 | one GET of the collection; a failure leaves []; the selection and tab are untouched |
| ChatLayout.SessionsReplacedWholesale | src/components/chat/ChatLayout.jsx:19-26 | the fetched list replaces the previous one: it does not depend on what was shown before |
| ChatLayout.SelectSession | src/components/chat/ChatLayout.jsx:97 | the selection becomes exactly the given value, null included; nothing else changes |
| ChatLayout.Logout | src/components/chat/ChatLayout.jsx:32-36 | exactly the two token keys are removed (`user` stays), then navigation to /login |
| ChatWindow.HistoryOf | src/components/chat/ChatWindow.jsx:61-62 | `results` if it is an array, else the body if it is an array, else []; a null body throws |
| ChatWindow.LoadHistory | src/components/chat/ChatWindow.jsx:45-79 | without a session id: empty transcript, not started, no error, no request; otherwise one GET of the messages path, the list replaced wholesale, `started` iff non-empty; a failure empties it and sets the error |
| ChatWindow.HistoryReplacesWholesale | src/components/chat/ChatWindow.jsx:64 | the loaded transcript does not depend on what was shown before |
| ChatWindow.AssistantReply | src/components/chat/ChatWindow.jsx:119-126 | the reply message carries the response text, and the news items or [] |
| ChatWindow.FailureReply | src/components/chat/ChatWindow.jsx:141-148 | the synthetic reply is an assistant message flagged as an error |
| ChatWindow.SendError | src/components/chat/ChatWindow.jsx:150-153 | the server's `error` text when truthy, else the generic send failure |
| ChatWindow.ReplyFor | src/components/chat/ChatWindow.jsx:119-148 | an assistant message, flagged failed iff the chat request failed |
| ChatWindow.Begin | src/components/chat/ChatWindow.jsx:85-91 | before any request: the trimmed text is appended as a user message, the input is cleared, loading and started are set, the error cleared |
| ChatWindow.Exchange | src/components/chat/ChatWindow.jsx:114-156 | one chat request with the text; exactly one reply appended; on success only the session with that id is touched; on failure the error is set; loading ends |
| ChatWindow.HandleSend | src/components/chat/ChatWindow.jsx:81-157 | blank input changes nothing and sends nothing; otherwise the input ends cleared, loading off, started on, and at least one request made |
| ChatWindow.SendToSelectedSession | src/components/chat/ChatWindow.jsx:93-135 | with a selected session: one request to its chat path with the trimmed text; user message then reply; only its timestamp moves on success |
| ChatWindow.SendCreateFails | src/components/chat/ChatWindow.jsx:96-110 | no session and the create fails: one request, the error set, the user message left without a reply |
| ChatWindow.SendCreatesSession | src/components/chat/ChatWindow.jsx:96-135 | no session and the create succeeds: the session is prepended and selected, then the message goes to it |
| ChatWindow.SendKeepsOptimisticMessage | src/components/chat/ChatWindow.jsx:88-90 | whatever follows, the first entry a send adds is the user message |
| ChatWindow.SendKeepsSelectionListed | src/components/chat/ChatWindow.jsx:101-102 | a send keeps the selection inside the session list |
| ChatWindow.OnKeyPress | src/components/chat/ChatWindow.jsx:159-164 | Enter without Shift sends unless loading; anything else does nothing |
| ChatWindow.SendEnabled | src/components/chat/ChatWindow.jsx:379 | the send button is enabled iff nothing is loading and the input is not blank |
| ChatWindow.OnSendClick | src/components/chat/ChatWindow.jsx:376-379 | a click has an effect exactly when the button is enabled, and then clears the input and ends loading |
| ChatWindow.NoSecondSendInFlight | src/components/chat/ChatWindow.jsx:91-160 | once a send has begun, neither Enter nor the button can start another |
| ChatWindow.SendTurn | src/components/chat/ChatWindow.jsx:85-135 | in a selected session, typing and sending adds the user message and its reply and keeps the selection |
| ChatWindow.ConversationOrder | src/components/chat/ChatWindow.jsx:88-148 | over any sequence of sends in one session, the transcript grows by user/reply pairs in the order typed |
| SessionsNavbar.NewChat | src/components/chat/SessionsNavbar.jsx:31-47 | success prepends the session, keeps the rest in order and selects it; failure alerts and changes nothing; loading ends either way |
| SessionsNavbar.DeleteSession | src/components/chat/SessionsNavbar.jsx:49-75 | declined: no request, nothing changes; success filters the id and clears the selection iff it was the deleted one; failure alerts; `deletingId` ends null |
| SessionsNavbar.DateBucket | src/components/chat/SessionsNavbar.jsx:80-90 | one bucket per difference, counts being floor quotients; one to six days are all days, never "yesterday" |
| SessionsNavbar.FormatDate | src/components/chat/SessionsNavbar.jsx:77-91 | "Just now", "Nm ago", "Nh ago", "Nd ago" by range, a locale date iff 7 days or more |
| SessionsNavbar.OneDayIsNotYesterdayHere | src/components/chat/SessionsNavbar.jsx:88 | a one-day difference reads "1d ago" here while the Persian helper calls it yesterday |
| SessionsNavbar.DisplayTitle | src/components/chat/SessionsNavbar.jsx:175 | the title, or "New Conversation" when it is missing or empty |
| SearchTab.Search | src/components/chat/SearchTab.jsx:13-26 | blank query: no request, no change; else the untrimmed query is posted; success stores `results` or []; failure keeps the old results and alerts; loading ends |
| SearchTab.ResultsReplacedWholesale | src/components/chat/SearchTab.jsx:18-19 | a successful search shows its own results whatever was shown before |
| SearchTab.HandleSearch | src/components/chat/SearchTab.jsx:13-26 | blank query is a no-op; else exactly one request, the query posted; the alert "Search failed. Please try again." iff the search fails, and no other effect; results replaced only by a readable response; loading ends |
| SearchTab.SearchEnabled | src/components/chat/SearchTab.jsx:53 | the search button is enabled iff no search is in flight |
| SearchTab.OnSearchClick | src/components/chat/SearchTab.jsx:50-53 | a click posts a query exactly when the button is enabled and the query is not blank; otherwise nothing changes |
| SearchTab.OnKeyPress | src/components/chat/SearchTab.jsx:40 | Enter runs the search handler whatever the loading flag; any other key does nothing; Enter on a non-blank query always issues a request |
| SearchTab.EnterIgnoresLoading | src/components/chat/SearchTab.jsx:40-53 | the button is disabled while loading but Enter still starts a search |
| LegacyChatWindow.Plain | src/chat/ChatWindow.jsx:48 | a legacy transcript entry has a role and a text only |
| LegacyChatWindow.LoadHistory | src/chat/ChatWindow.jsx:10-25 | no selection empties the transcript without a request; otherwise a GET of the detail path; `history` or [] on success; a failure keeps the transcript |
| LegacyChatWindow.HistoryReplacesWholesale | src/chat/ChatWindow.jsx:10-25 | a readable history replaces the transcript outright, whatever was shown before; with no selection both panes are cleared |
| LegacyChatWindow.Exchange | src/chat/ChatWindow.jsx:46-57 | on success the user message and the reply are appended together, the session is touched and the input cleared; on failure nothing changes |
| LegacyChatWindow.HandleSend | src/chat/ChatWindow.jsx:27-58 | blank input is a no-op; a failed create returns with nothing changed; a successful create prepends and selects; a failed chat keeps the input and transcript |
| LegacyChatWindow.OnKeyPress | src/chat/ChatWindow.jsx:97 | Enter sends, with no guard |
| LegacyChatWindow.SendKeepsSelectionListed | src/chat/ChatWindow.jsx:38-53 | a send keeps the selection inside the session list |
| LegacyChatWindow.EnterAlwaysSends | src/chat/ChatWindow.jsx:97 | with text typed, every Enter issues a request |
| LegacyChatSidebar.NewChat | src/chat/ChatSidebar.jsx:23-33 | success prepends and selects; failure alerts and changes nothing |
| LegacyChatSidebar.DeleteSession | src/chat/ChatSidebar.jsx:35-48 | gated by confirmation; success filters the id and clears the selection iff it was active; failure alerts and changes nothing |
| LegacyChatSidebar.ClearMessages | src/chat/ChatSidebar.jsx:50-62 | gated by confirmation; the list never changes; success re-selects the session only when it is the active one; failure alerts |
| LegacyChatSidebar.ClearIsNotDelete | src/chat/ChatSidebar.jsx:39-54 | clearing and deleting one session issue one request each, to different paths |
| LegacyChatSidebar.DisplayTitle | src/chat/ChatSidebar.jsx:124 | the title, or "Chat " and the first 8 characters of the id |
| LegacySessionsNavbar.NewChat | src/chat/SessionsNavbar.jsx:23-32 | success prepends and selects; failure is silent and changes nothing |
| LegacySessionsNavbar.DeleteSession | src/chat/SessionsNavbar.jsx:34-42 | no confirmation; success filters the id and clears the selection iff it was active; failure changes nothing |
| LegacySessionsNavbar.DeleteTwiceSameList | src/chat/SessionsNavbar.jsx:37 | deleting the same id again leaves the list as the first delete left it |
| LegacySessionsNavbar.DisplayTitle | src/chat/SessionsNavbar.jsx:95 | the title, or "Session " and the first 6 characters of the id |
| LegacySearchTab.HandleSearch | src/chat/SearchTab.jsx:21-33 | always the same resulting state and the same requests as the src/components/chat tab; the effects differ only in the alert text, "Search failed" |
| SignupPage.EmailPattern | src/components/auth/SignupPage.jsx:58 | `^[^\s@]+@[^\s@]+\.[^\s@]+$`: a non-empty run without whitespace or `@`, one `@`, then a run without whitespace or `@` that holds a literal dot with a non-empty run on each side of it |
| SignupPage.MatchShape | src/components/auth/SignupPage.jsx:58 | in a match, the `@` is the first character outside `[^\s@]` and all after it is inside |
| SignupPage.PatternAtFirstStop | src/components/auth/SignupPage.jsx:58 | the pattern matches iff the first character outside `[^\s@]` is an `@` after a non-empty prefix, the rest has no whitespace or `@`, and a dot sits strictly inside it |
| SignupPage.ScanEmail | src/components/auth/SignupPage.jsx:58-59 | the single pass answers true exactly when the pattern matches |
| SignupPage.PatternNotBlank | src/components/auth/SignupPage.jsx:54-59 | a matching address is never blank |
| SignupPage.ValidateForm | src/components/auth/SignupPage.jsx:43-76 | the rules in order, first failure wins: blank username, short username (untrimmed), blank e-mail, pattern, empty password, short password, mismatch |
| SignupPage.ValidIff | src/components/auth/SignupPage.jsx:43-76 | the form is valid iff each rule holds on its own |
| SignupPage.FirstOrUndefined | src/components/auth/SignupPage.jsx:100 | the first element of an error list, "undefined" for an empty one |
| SignupPage.FirstOf | src/components/auth/SignupPage.jsx:100 | `[0]` of a field error: the first message of an array, or the first character of a string; "undefined" when either is empty |
| SignupPage.SignupError | src/components/auth/SignupPage.jsx:97-112 | the first truthy field error among username, e-mail and password behind its label (an array shows its first message, a string its first character), then `detail`, then the generic failure (also without a body); never empty |
| SignupPage.FieldErrorBeatsDetail | src/components/auth/SignupPage.jsx:99-104 | with any field error present, the message does not depend on `detail` or the status and names the first field present |
| SignupPage.StringFieldShowsFirstChar | src/components/auth/SignupPage.jsx:99-100 | a username error sent as the string "taken" is shown as the label followed by "t" |
| SignupPage.DetailBeatsGeneric | src/components/auth/SignupPage.jsx:105-108 | without field errors, a truthy `detail` is shown, and the generic failure iff `detail` is missing |
| SignupPage.HandleSignup | src/components/auth/SignupPage.jsx:78-116 | both banners cleared; an invalid form shows its message and sends nothing; a valid one is posted as typed; success and error banners never both show |
| SignupPage.OnKeyPress | src/components/auth/SignupPage.jsx:118-122 | Enter submits only while not loading |
| SignupPage.PostedFormIsValid | src/components/auth/SignupPage.jsx:82-91 | no register request carries a form the validator rejects |
| LoginFlow.LoginError | src/components/auth/LoginPage.jsx:55-61 | 401 wins even over a detail; then a truthy detail; then the generic failure |
| LoginFlow.HandleLogin | src/components/auth/LoginPage.jsx:31-65 | blank field: the required message, no request, loading untouched; else raw credentials posted; success stores tokens and goes to "/"; failure writes nothing; loading ends |
| LoginFlow.OnKeyPress | src/components/auth/LoginPage.jsx:67-71 | Enter logs in only while not loading |
| LoginFlow.LoginTouchesOnlyTokens | src/components/auth/LoginPage.jsx:46-52 | a login changes storage only under the two token keys, and only on success, which also navigates |
| LoginFlow.LoginAlwaysLeavesToken | src/components/auth/LoginPage.jsx:46-47 | after success the stored token is truthy unless the server sent an empty one; a missing one is stored as "undefined" and a `null` one as "null" |
| LoginPage.HandleLogin | src/components/auth/LoginPage.jsx:31-65 | the shared flow with the Persian messages: required for a blank field and no request; otherwise the credentials posted as typed and loading ended; invalid credentials on 401, else a truthy server `detail`, else login failed; tokens stored and navigation only on success |
| LoginPage.ErrorIsKnownOrServerDetail | src/components/auth/LoginPage.jsx:55-61 | every failure message is one of the page's texts or the server's detail |
| AuthPage.HandleLogin | src/components/auth/AuthPage.jsx:23-62 | the shared flow with the English messages: required for a blank field and no request; otherwise the credentials posted as typed and loading ended; invalid credentials on 401, else a truthy server `detail`, else login failed; tokens stored and navigation only on success |
| AuthPage.SameFlowAsLoginPage | src/components/auth/AuthPage.jsx:23-68 | same requests, storage and loading as the Persian page; only the texts differ |
| LegacyAuthPage.HandleLogin | src/auth/AuthPage.jsx:10-20 | always posts; success stores only `access_token` then navigates; failure alerts, writes nothing and stays |
| LegacyAuthPage.EmptyFormIsPosted | src/auth/AuthPage.jsx:10-12 | an empty form still reaches the server, where the src/components/auth pages stop |
| UseAuth.InitialUser | src/components/auth/useAuth.js:4-11 | null when `user` is absent or empty, else the parsed value (null when unparsable); the hook in src/auth/useAuth.js initialises `user` the same way |
| UseAuth.Initial | src/components/auth/useAuth.js:13-15 | starts authenticated iff a truthy `access_token` is stored |
| UseAuth.Resync | src/components/auth/useAuth.js:17-19 | the flag is recomputed from storage; the user is kept |
| UseAuth.SaveTokens | src/components/auth/useAuth.js:21-27 | the token write of a login, then the flag set |
| UseAuth.Clear | src/components/auth/useAuth.js:29-35 | exactly `access_token`, `refresh_token` and `user` go; user null, flag false |
| UseAuth.SetUserFromToken | src/components/auth/useAuth.js:37-40 | the serialised payload is stored under `user` alone, and the payload becomes the user |
| UseAuth.UserSurvivesReload | src/components/auth/useAuth.js:4-40 | when serialisation reads back, a reload restores the same user |
| UseAuth.ClearThenReload | src/components/auth/useAuth.js:4-35 | after clear, a reload starts logged out with no user |
| UseAuth.SaveTokensThenResync | src/components/auth/useAuth.js:17-27 | the flag is set even for an empty token; the next re-sync withdraws it exactly then |
| LegacyUseAuth.SaveTokens | src/auth/useAuth.js:13-16 | `access` and `refresh` are both written unconditionally; nothing else changes |
| LegacyUseAuth.Clear | src/auth/useAuth.js:19-24 | exactly `access`, `refresh` and `user` go; user null |
| LegacyUseAuth.SetUserFromToken | src/auth/useAuth.js:27-30 | the serialised payload goes under `user`, the payload becomes the user |
| LegacyUseAuth.SaveTokensInvisibleToInterceptor | src/auth/useAuth.js:13-16 | `access_token` is never written, so the interceptor and the guards see no change |
| AppRoutes.ProtectedRoute | src/App.jsx:12-15 | the page iff the token is truthy, else a redirect to /login; the guard of src/App.js is the same |
| AppRoutes.PublicRoute | src/App.jsx:18-21 | a redirect to "/" iff the token is truthy, else the page |
| AppRoutes.GuardsExclusive | src/App.jsx:12-21 | for any storage exactly one guard lets its page through; an empty token counts as none |
| AppRoutes.Route | src/App.jsx:29-53 | /login and /signup public, "/" protected, any other path to "/" |
| AppRoutes.SettlesWithinTwo | src/App.jsx:29-53 | from any path at most two redirects reach a page: the chat with a token, else login (signup for /signup) |
| AppRoutes.LogoutLocksChat | src/components/chat/ChatLayout.jsx:32-36 | after logout "/" redirects to /login, which renders |
| AppRoutes.LoginOpensChat | src/components/auth/LoginPage.jsx:46-52 | after a successful login "/" renders the chat iff the access token is not empty |
| LegacyAppRoutes.LegacyRoute | src/App.js:24-45 | /login unguarded, "/" protected, any other path to "/" |
| LegacyAppRoutes.LegacySettlesWithinTwo | src/App.js:34-45 | at most two redirects; /login renders even with a token |
| LegacyAppRoutes.TablesCompared | src/App.js:35-43 | both tables guard "/" alike; only src/App.jsx sends a logged-in user away from /login |

## Left out

- Rendering, styling and animation (all JSX trees, `sx`, framer-motion, the theme, loaders, NewsItem cards): nothing there decides behaviour.
- src/chat/ChatLayout.jsx, src/chat/ChatSessions.jsx and src/components/chat/ChatSessions.jsx: a tab switcher, a hard-coded placeholder list, and a fetch-and-render list whose API module is not part of this model.
- The HTTP transport, `window.confirm`, `alert`, the router and `localStorage` are effects or parameters; the 2-second redirect after signup (`setTimeout`) is left out.
- Concurrency: each handler runs as one atomic sequence, so effect races (a created session also triggering the history fetch), stale responses and the legacy send's stale `messages`/`sessions` closure are not modelled.
- Date parsing and locale formatting: ages are given as integer milliseconds and the absolute-date branch is the opaque `LocaleDate`.
- `JSON.parse`/`JSON.stringify` for the stored user are opaque parameters.
- The regular-expression engine: the e-mail pattern is a predicate over characters.
- Lengths count code points, not UTF-16 code units; they differ only for characters outside the Basic Multilingual Plane.
- Click tracking and message feedback: nothing shown issues `SEARCH_CLICK`.
- React Router matches paths case-insensitively and ignores a trailing slash; the route tables here compare paths exactly.
- ChatLayout.SessionsOf: requires that `results` is not a truthy non-array, since such a value would be stored as the list.
- ChatLayout.FetchSessions: inherits the requires of ChatLayout.SessionsOf on a successful outcome.
- SearchTab.Search: requires that `results` is not a truthy non-array, since such a value would be stored as the results.
- SearchTab.HandleSearch: inherits the requires of SearchTab.Search.
- SearchTab.OnSearchClick: inherits the requires of SearchTab.Search.
- SearchTab.OnKeyPress: inherits the requires of SearchTab.Search.
- LegacySearchTab.HandleSearch: inherits the requires of SearchTab.Search.
- LegacyChatWindow.LoadHistory: requires that `history` is not a truthy non-array, since such a value would be stored as the transcript.
- SignupPage.SignupError: a field error that is neither an array nor a string (a number, an object) is not modelled; a string's first character is a Dafny character, where JavaScript takes the first UTF-16 code unit, which differs only for characters outside the Basic Multilingual Plane.
- ChatWindow.HandleSend: a create response whose body is null throws at `newSession.id` inside the `try`, so it reaches the create `catch` and is modelled as a failed create.
- ChatWindow.HandleSend: a chat response whose body is null is not modelled. Its fields are read inside the `setMessages` updater, which React runs outside the handler's `try`. So the source skips the `catch`: no failure reply and no error are set, the session's `updated_at` is still touched, loading ends in the `finally`, and the updater's TypeError surfaces at render. The model's chat outcome is either a readable reply or a failed request, so it has no input for this case.
- ChatWindow.HandleSend: the difference between an absent `news_items` and [] is not kept.
- ChatWindow.HandleSend: a create response without `id` does not throw; the source then posts to `/api/sessions/undefined/chat/`. The model always has an id string, so this case is not modelled.
- ChatWindow.HandleSend: a chat response without `response` does not throw; the source then appends an assistant message whose content is `undefined`. The model's reply text is always a string, so this case is not modelled.
- LegacyChatWindow.HandleSend: the reply text is a string, so an absent `response` field (rendered as empty) is not distinguished.
- LegacyChatSidebar.NewChat: a successful create whose body is not a session (the source stores whatever `res.data` is) is not modelled; the same holds for the other new-chat handlers.
- SessionsNavbar.DeleteSession: the intermediate `deletingId = id` while the request is in flight is not visible in an atomic step; only its reset is.
