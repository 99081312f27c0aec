/** The route table of src/App.js (the English AuthPage and the same chat
    layout of src/components/chat): the same `ProtectedRoute` guard as
    src/App.jsx, and an unguarded login route. */
module LegacyAppRoutes {
  import opened Js
  import opened Storage
  import opened AppRoutes

  /** "/login" always shows the login page, "/" is protected, any other
      path goes to "/". */
  function LegacyRoute(path: string, store: Store): (r: Render)
    ensures path == "/login" ==> r == Show(AuthScreen)
    ensures path == "/" ==> r == ProtectedRoute(store, ChatScreen)
    ensures path != "/login" && path != "/" ==> r == Redirect("/")
  {
    if path == "/login" then Show(AuthScreen)
    else if path == "/" then ProtectedRoute(store, ChatScreen)
    else Redirect("/")
  }

  function LegacySettle(path: string, store: Store, fuel: nat): Option<Screen>
    decreases fuel
  {
    match LegacyRoute(path, store)
    case Show(s) => Some(s)
    case Redirect(to) => if fuel == 0 then None else LegacySettle(to, store, fuel - 1)
  }

  /** At most two redirects from any path; "/login" is reached even by a
      logged-in user, and "/signup" is unknown here. */
  lemma LegacySettlesWithinTwo(path: string, store: Store)
    ensures LegacySettle(path, store, 2) ==
      Some(if path == "/login" || !HasTruthy(store, ACCESS_TOKEN) then AuthScreen else ChatScreen)
  {
    assert LegacyRoute("/login", store) == Show(AuthScreen);
    assert LegacyRoute("/", store) == ProtectedRoute(store, ChatScreen);
  }

  /** The two tables agree on guarding the chat page and differ on
      "/login": only the src/App.jsx table sends a logged-in user back to "/". */
  lemma TablesCompared(store: Store)
    ensures LegacyRoute("/", store) == Route("/", store)
    ensures HasTruthy(store, ACCESS_TOKEN) ==>
      LegacyRoute("/login", store) == Show(AuthScreen) && Route("/login", store) == Redirect("/")
  {
  }
}
