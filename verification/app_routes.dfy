/** The route table of src/App.jsx (the Persian login and signup pages and
    the chat layout of src/components/chat) and its two guards,
    which read `access_token` at render time. */
module AppRoutes {
  import opened Js
  import opened Storage
  import opened Http
  import ChatLayout
  import LoginFlow

  /** The page components the two route tables can show. */
  datatype Screen = LoginScreen | SignupScreen | AuthScreen | ChatScreen

  /** What a route renders: a page, or a `<Navigate replace>` to a path. */
  datatype Render = Show(screen: Screen) | Redirect(to: string)

  /** `ProtectedRoute`: the page with a truthy token, else the login page. */
  function ProtectedRoute(store: Store, screen: Screen): (r: Render)
    ensures r == Show(screen) <==> HasTruthy(store, ACCESS_TOKEN)
    ensures r.Redirect? ==> r.to == "/login"
  {
    if HasTruthy(store, ACCESS_TOKEN) then Show(screen) else Redirect("/login")
  }

  /** `PublicRoute`: away to "/" with a truthy token, else the page. */
  function PublicRoute(store: Store, screen: Screen): (r: Render)
    ensures r == Show(screen) <==> !HasTruthy(store, ACCESS_TOKEN)
    ensures r.Redirect? ==> r.to == "/"
  {
    if HasTruthy(store, ACCESS_TOKEN) then Redirect("/") else Show(screen)
  }

  /** For any storage exactly one of the two guards lets its page through;
      an empty token counts as none. */
  lemma GuardsExclusive(store: Store, a: Screen, b: Screen)
    ensures ProtectedRoute(store, a).Show? != PublicRoute(store, b).Show?
    ensures GetItem(store, ACCESS_TOKEN) == Some("") ==> PublicRoute(store, b) == Show(b)
  {
  }

  /** The table: "/login" and "/signup" are public, "/" is protected, and
      any other path goes to "/". Paths are compared exactly. */
  function Route(path: string, store: Store): (r: Render)
    ensures path == "/login" ==> r == PublicRoute(store, LoginScreen)
    ensures path == "/signup" ==> r == PublicRoute(store, SignupScreen)
    ensures path == "/" ==> r == ProtectedRoute(store, ChatScreen)
    ensures path !in {"/login", "/signup", "/"} ==> r == Redirect("/")
    ensures r.Redirect? ==> r.to in {"/", "/login"}
  {
    if path == "/login" then PublicRoute(store, LoginScreen)
    else if path == "/signup" then PublicRoute(store, SignupScreen)
    else if path == "/" then ProtectedRoute(store, ChatScreen)
    else Redirect("/")
  }

  /** The page reached from `path` after following at most `fuel`
      redirects, or `None` if more would be needed. */
  function Settle(path: string, store: Store, fuel: nat): Option<Screen>
    decreases fuel
  {
    match Route(path, store)
    case Show(s) => Some(s)
    case Redirect(to) => if fuel == 0 then None else Settle(to, store, fuel - 1)
  }

  /** No redirect loop: from any path at most two redirects lead to a page,
      the chat with a token and otherwise the login page (the signup page
      for "/signup"). */
  lemma SettlesWithinTwo(path: string, store: Store)
    ensures Settle(path, store, 2) ==
      Some(if HasTruthy(store, ACCESS_TOKEN) then ChatScreen
           else if path == "/signup" then SignupScreen
           else LoginScreen)
  {
    assert Route("/login", store) == PublicRoute(store, LoginScreen);
    assert Route("/", store) == ProtectedRoute(store, ChatScreen);
  }

  /** Logging out from the chat locks it: the next render of "/" redirects
      to the login page, which now renders. */
  lemma LogoutLocksChat(store: Store)
    ensures Route("/", ChatLayout.Logout(store).state) == Redirect("/login")
    ensures Route("/login", ChatLayout.Logout(store).state) == Show(LoginScreen)
  {
    assert GetItem(ChatLayout.Logout(store).state, ACCESS_TOKEN) == None;
  }

  /** A successful login opens the chat at "/" unless the server sent an
      empty access token. */
  lemma LoginOpensChat(texts: LoginFlow.LoginTexts, form: LoginFlow.LoginForm, store: Store, t: TokenPair)
    requires !IsBlank(form.username) && !IsBlank(form.password)
    ensures var after := LoginFlow.HandleLogin(texts, form, store, Ok(t)).state.store;
      Route("/", after) == Show(ChatScreen) <==> t.access != Str("")
  {
    LoginFlow.LoginAlwaysLeavesToken(texts, form, store, t);
  }
}
