/** frontend/src/App.jsx: the route table of the client and the three guards that decide, from
    the authentication context, whether a route shows its page, a spinner, the sign-in form or a
    redirect. A location is given as its path segments ("/drifts/7/edit" is
    ["drifts", "7", "edit"]). */
module AppRoutes {
  import opened Common

  /** What the authentication context tells the guards. */
  datatype AuthState = AuthState(isLoading: bool, isAuthenticated: bool, user: JsValue)

  /** The pages the routes wrap in the layout; `Home` is the layout holding a redirect to the
      drift list. */
  datatype Page = Home | DriftListPage | NewDriftPage | DriftDetailPage(id: string) | EditDriftPage(id: string)
                | AdminUsersPage | NotFoundPage

  /** What a route renders. */
  datatype Element = Spinner | Navigate(to: seq<string>) | Layout(page: Page) | LoginView

  const LoginPath: seq<string> := ["login"]
  const DriftsPath: seq<string> := ["drifts"]
  const AdminUsersPath: seq<string> := ["admin", "users"]

  /** `ProtectedRoute`: a spinner while the context loads, then the children for a signed-in
      user and a redirect to the sign-in page for anyone else. */
  function ProtectedRoute(auth: AuthState, children: Element): (e: Element)
    ensures auth.isLoading ==> e == Spinner
    ensures !auth.isLoading && auth.isAuthenticated ==> e == children
    ensures !auth.isLoading && !auth.isAuthenticated ==> e == Navigate(LoginPath)
  {
    if auth.isLoading then Spinner
    else if auth.isAuthenticated then children
    else Navigate(LoginPath)
  }

  /** `user?.role !== 'admin'`: a missing user, a user without a role and any other role are
      all refused. */
  predicate IsAdmin(user: JsValue) {
    Prop(user, "role") == Str("admin")
  }

  /** `AdminRoute`: a spinner while the context loads, the sign-in page for anyone not signed
      in, the drift list for a signed-in user who is not an administrator, and the children for
      an administrator. */
  function AdminRoute(auth: AuthState, children: Element): (e: Element)
    ensures auth.isLoading ==> e == Spinner
    ensures !auth.isLoading && !auth.isAuthenticated ==> e == Navigate(LoginPath)
    ensures !auth.isLoading && auth.isAuthenticated && !IsAdmin(auth.user) ==> e == Navigate(DriftsPath)
    ensures !auth.isLoading && auth.isAuthenticated && IsAdmin(auth.user) ==> e == children
  {
    if auth.isLoading then Spinner
    else if !auth.isAuthenticated then Navigate(LoginPath)
    else if Prop(auth.user, "role") != Str("admin") then Navigate(DriftsPath)
    else children
  }

  /** `AuthCheck`, the sign-in route: a spinner while the context loads, the drift list for a
      user already signed in, and the sign-in form otherwise. */
  function AuthCheck(auth: AuthState): (e: Element)
    ensures auth.isLoading ==> e == Spinner
    ensures !auth.isLoading && auth.isAuthenticated ==> e == Navigate(DriftsPath)
    ensures e == LoginView <==> !auth.isLoading && !auth.isAuthenticated
  {
    if auth.isLoading then Spinner
    else if auth.isAuthenticated then Navigate(DriftsPath)
    else LoginView
  }

  /** The routes of the table; `Fallback` is `*`. */
  datatype Route = LoginRoute | HomeRoute | DriftsRoute | NewDriftRoute | DriftDetailRoute(id: string)
                 | EditDriftRoute(id: string) | AdminUsersRoute | Fallback

  /** The location a route of the table is declared for, with `id` in place of the dynamic
      segment; the fallback is given a location no other route is declared for. */
  function PathOf(r: Route): seq<string> {
    match r
    case LoginRoute => LoginPath
    case HomeRoute => []
    case DriftsRoute => DriftsPath
    case NewDriftRoute => ["drifts", "new"]
    case DriftDetailRoute(id) => ["drifts", id]
    case EditDriftRoute(id) => ["drifts", id, "edit"]
    case AdminUsersRoute => AdminUsersPath
    case Fallback => ["*"]
  }

  /** The route a location selects: a route is chosen only for the location it is declared for,
      and the static `/drifts/new` outranks the dynamic `/drifts/:id`. */
  function Match(path: seq<string>): (r: Route)
    ensures !r.Fallback? ==> PathOf(r) == path
    ensures path == ["drifts", "new"] ==> r == NewDriftRoute
  {
    if path == [] then HomeRoute
    else if path == LoginPath then LoginRoute
    else if path == DriftsPath then DriftsRoute
    else if path == ["drifts", "new"] then NewDriftRoute
    else if |path| == 2 && path[0] == "drifts" then DriftDetailRoute(path[1])
    else if |path| == 3 && path[0] == "drifts" && path[2] == "edit" then EditDriftRoute(path[1])
    else if path == AdminUsersPath then AdminUsersRoute
    else Fallback
  }

  /** The element of each route: the sign-in route behind `AuthCheck`, the user administration
      behind `AdminRoute`, and every other route, the fallback included, behind
      `ProtectedRoute`. */
  function Render(path: seq<string>, auth: AuthState): (e: Element)
    ensures e.Layout? ==> !auth.isLoading && auth.isAuthenticated
    ensures e == Layout(AdminUsersPage) ==> IsAdmin(auth.user)
    ensures e == LoginView ==> path == LoginPath
    ensures e.Navigate? ==> e.to == LoginPath || e.to == DriftsPath
  {
    match Match(path)
    case LoginRoute => AuthCheck(auth)
    case HomeRoute => ProtectedRoute(auth, Layout(Home))
    case DriftsRoute => ProtectedRoute(auth, Layout(DriftListPage))
    case NewDriftRoute => ProtectedRoute(auth, Layout(NewDriftPage))
    case DriftDetailRoute(id) => ProtectedRoute(auth, Layout(DriftDetailPage(id)))
    case EditDriftRoute(id) => ProtectedRoute(auth, Layout(EditDriftPage(id)))
    case AdminUsersRoute => AdminRoute(auth, Layout(AdminUsersPage))
    case Fallback => ProtectedRoute(auth, Layout(NotFoundPage))
  }

  /** Every route but `/drifts/:id` with the id "new" is selected by the location it is declared
      for, so no declared route is shadowed by another or by the fallback. */
  lemma MatchPathOf(r: Route)
    requires r != DriftDetailRoute("new")
    ensures Match(PathOf(r)) == r
  {
    match r
    case DriftDetailRoute(id) =>
      assert ["drifts", id] != LoginPath && ["drifts", id] != DriftsPath;
    case EditDriftRoute(id) =>
      assert ["drifts", id, "edit"] != LoginPath && ["drifts", id, "edit"] != DriftsPath;
    case AdminUsersRoute =>
      assert AdminUsersPath != LoginPath && AdminUsersPath != DriftsPath;
    case Fallback =>
      assert ["*"] != LoginPath && ["*"] != DriftsPath && ["*"] != AdminUsersPath;
    case _ =>
  }

  /** Where the rendered element sends the browser next, if anywhere; the home page's layout
      holds a redirect to the drift list. */
  function NextLocation(path: seq<string>, auth: AuthState): Option<seq<string>> {
    match Render(path, auth)
    case Navigate(to) => Some(to)
    case Layout(Home) => Some(DriftsPath)
    case _ => None
  }

  /** While the context loads every location shows the spinner, whoever the user is. */
  lemma LoadingFirst(path: seq<string>, auth: AuthState)
    requires auth.isLoading
    ensures Render(path, auth) == Spinner
  {
  }

  /** Someone not signed in is sent to the sign-in page from every other location, and is
      shown the sign-in form there. */
  lemma SignedOutGoesToLogin(path: seq<string>, auth: AuthState)
    requires !auth.isLoading && !auth.isAuthenticated
    ensures path != LoginPath ==> Render(path, auth) == Navigate(LoginPath)
    ensures Render(LoginPath, auth) == LoginView
  {
  }

  /** The user administration is the only location whose element depends on the role: two
      states that differ only in the user render every other location alike. */
  lemma OnlyAdminRouteReadsRole(path: seq<string>, a: AuthState, b: AuthState)
    requires a.isLoading == b.isLoading && a.isAuthenticated == b.isAuthenticated
    requires path != AdminUsersPath
    ensures Render(path, a) == Render(path, b)
  {
  }

  /** The user administration shows exactly to a signed-in administrator; a signed-in user with
      another role is sent to the drift list. */
  lemma AdminPageAccess(auth: AuthState)
    ensures Render(AdminUsersPath, auth) == Layout(AdminUsersPage) <==>
      !auth.isLoading && auth.isAuthenticated && IsAdmin(auth.user)
    ensures !auth.isLoading && auth.isAuthenticated && !IsAdmin(auth.user) ==>
      Render(AdminUsersPath, auth) == Navigate(DriftsPath)
  {
    assert Match(AdminUsersPath) == AdminUsersRoute by {
      assert AdminUsersPath != LoginPath && AdminUsersPath != DriftsPath;
      assert AdminUsersPath[0] != "drifts";
    }
  }

  /** No redirect leads to another: wherever a location sends the browser, the location it
      reaches renders without a redirect, so the guards cannot loop. */
  lemma RedirectsSettle(path: seq<string>, auth: AuthState)
    requires NextLocation(path, auth).Some?
    ensures NextLocation(NextLocation(path, auth).value, auth) == None
  {
    var to := NextLocation(path, auth).value;
    assert to == LoginPath || to == DriftsPath;
    assert Match(LoginPath) == LoginRoute;
    assert Match(DriftsPath) == DriftsRoute by {
      assert DriftsPath != LoginPath;
    }
  }
}
