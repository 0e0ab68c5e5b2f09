/** The route guard (`ProtectedRoute`) and the application's route table (`App`). */
module Routing {
  import opened Common
  import opened Session

  /** What a guarded route renders: its child view, or a redirect to another path. */
  datatype Decision = Render | RedirectTo(path: string)

  /** `ProtectedRoute`: no session (no token, or no user) goes to "/login"; a session whose
      role is not on a given allow-list goes to "/start"; everything else renders. An empty
      allow-list is still a list (truthy in JavaScript) and admits no role. */
  function Guard(isAuthenticated: bool, user: Option<User>, allowedRoles: Option<seq<string>>): (d: Decision)
    ensures !isAuthenticated || user.None? ==> d == RedirectTo("/login")
    ensures (isAuthenticated && user.Some? && allowedRoles.Some? && user.value.role !in allowedRoles.value)
            ==> d == RedirectTo("/start")
    ensures d == Render <==> isAuthenticated && user.Some?
                              && (allowedRoles.None? || user.value.role in allowedRoles.value)
  {
    if !isAuthenticated || user.None? then RedirectTo("/login")
    else if allowedRoles.Some? && user.value.role !in allowedRoles.value then RedirectTo("/start")
    else Render
  }

  /** The session check comes first: a request without a session is never sent to "/start",
      whatever the allow-list. */
  lemma SessionCheckFirst(isAuthenticated: bool, user: Option<User>, allowedRoles: Option<seq<string>>)
    requires !isAuthenticated || user.None?
    ensures Guard(isAuthenticated, user, allowedRoles) != RedirectTo("/start")
    ensures Guard(isAuthenticated, user, allowedRoles) == Guard(isAuthenticated, user, None)
  {
  }

  /** The guard reads the session only through `isAuthenticated` and the user's role. */
  lemma GuardReadsOnlyRole(auth: bool, u: User, v: User, allowedRoles: Option<seq<string>>)
    requires u.role == v.role
    ensures Guard(auth, Some(u), allowedRoles) == Guard(auth, Some(v), allowedRoles)
  {
  }

  // ---------------------------------------------------------------------------
  // The route table.

  datatype View = StartView | LogInView | PassengerSignInView | DriverSignInView | CarSignInView
                | UserProfileView | PassengerHomeView | DriverHomeView

  /** A route's element: a fixed redirect, a public view, or a view behind the guard. */
  datatype Element = Redirect(to: string) | Public(view: View) | Protected(roles: seq<string>, view: View)

  datatype Route = Route(path: string, element: Element)

  const Routes: seq<Route> := [
    Route("/", Redirect("/start")),
    Route("/start", Public(StartView)),
    Route("/LogIn", Public(LogInView)),
    Route("/passengerSignIn", Public(PassengerSignInView)),
    Route("/driverSignIn", Public(DriverSignInView)),
    Route("/CarSignIn", Public(CarSignInView)),
    Route("/userProfile", Protected(["passenger", "driver"], UserProfileView)),
    Route("/passengerHome", Protected(["passenger"], PassengerHomeView)),
    Route("/driverHome", Protected(["driver"], DriverHomeView))
  ]

  function LowerAscii(c: char): char {
    if 'A' <= c <= 'Z' then ((c as int) + 32) as char else c
  }

  /** Two texts of the same length that agree once ASCII letters are lower-cased. */
  predicate SamePath(a: string, b: string) {
    |a| == |b| && forall i :: 0 <= i < |a| ==> LowerAscii(a[i]) == LowerAscii(b[i])
  }

  predicate AllSlashes(s: string) {
    forall i :: 0 <= i < |s| ==> s[i] == '/'
  }

  /** The router's default matching of a declared path against the requested one: the
      declared path, without regard to ASCII case, followed by any number of slashes. So
      "/login" reaches the route declared as "/LogIn" and "/start/" reaches "/start". */
  predicate PathMatches(declared: string, path: string) {
    |declared| <= |path| && SamePath(declared, path[..|declared|]) && AllSlashes(path[|declared|..])
  }

  /** The first route of `routes` whose path matches. */
  function Lookup(routes: seq<Route>, path: string): Option<Element> {
    if routes == [] then None
    else if PathMatches(routes[0].path, path) then Some(routes[0].element)
    else Lookup(routes[1..], path)
  }

  /** `Lookup` finds the first matching route, and finds nothing only when no route
      matches. */
  lemma {:induction false} LookupFirstMatch(routes: seq<Route>, path: string, i: nat)
    requires i < |routes| && PathMatches(routes[i].path, path)
    requires forall j :: 0 <= j < i ==> !PathMatches(routes[j].path, path)
    ensures Lookup(routes, path) == Some(routes[i].element)
  {
    if i > 0 {
      assert !PathMatches(routes[0].path, path);
      assert forall j :: 0 <= j < i - 1 ==> routes[1..][j] == routes[j + 1];
      LookupFirstMatch(routes[1..], path, i - 1);
    }
  }

  lemma {:induction false} LookupNoMatch(routes: seq<Route>, path: string)
    requires forall j :: 0 <= j < |routes| ==> !PathMatches(routes[j].path, path)
    ensures Lookup(routes, path) == None
  {
    if routes != [] {
      assert !PathMatches(routes[0].path, path);
      assert forall j :: 0 <= j < |routes| - 1 ==> routes[1..][j] == routes[j + 1];
      LookupNoMatch(routes[1..], path);
    }
  }

  /** A declared path does not match a request that differs from it, after lower-casing, at
      a position within both. */
  lemma DifferAt(declared: string, path: string, i: nat)
    requires i < |declared| && i < |path| && LowerAscii(declared[i]) != LowerAscii(path[i])
    ensures !PathMatches(declared, path)
  {
    if |declared| <= |path| {
      assert path[..|declared|][i] == path[i];
    }
  }

  /** The root route matches only requests made of slashes. */
  lemma RootNeedsSlashes(path: string)
    requires |path| >= 2 && path[1] != '/'
    ensures !PathMatches("/", path)
  {
    assert path[1..][0] == path[1];
  }

  lemma PathMatchesItself(declared: string)
    ensures PathMatches(declared, declared)
  {
    assert declared[..|declared|] == declared && declared[|declared|..] == [];
  }

  /** A declared path that is "/" or does not end in "/" matches a request exactly when it
      matches the request with one more trailing slash. */
  lemma SlashAppended(declared: string, path: string)
    requires declared == "/" || (declared != "" && declared[|declared| - 1] != '/')
    requires path != "" && path[0] == '/'
    ensures PathMatches(declared, path + "/") <==> PathMatches(declared, path)
  {
    var longer := path + "/";
    var n := |declared|;
    if n <= |path| {
      assert longer[..n] == path[..n];
      var tail, tail' := path[n..], longer[n..];
      assert tail' == tail + "/";
      if AllSlashes(tail') {
        forall k | 0 <= k < |tail| ensures tail[k] == '/' {
          assert tail'[k] == tail[k];
        }
      }
    }
  }

  /** Every path of the table is "/" or has no trailing slash. */
  predicate Declared(routes: seq<Route>) {
    forall j :: 0 <= j < |routes| ==>
      routes[j].path == "/" || (routes[j].path != "" && routes[j].path[|routes[j].path| - 1] != '/')
  }

  lemma TableDeclared()
    ensures Declared(Routes)
  {
  }

  lemma {:induction false} LookupSlashAppended(routes: seq<Route>, path: string)
    requires Declared(routes)
    requires path != "" && path[0] == '/'
    ensures Lookup(routes, path + "/") == Lookup(routes, path)
  {
    if routes != [] {
      SlashAppended(routes[0].path, path);
      assert Declared(routes[1..]) by {
        forall j | 0 <= j < |routes| - 1 ensures routes[1..][j] == routes[j + 1] {
        }
      }
      LookupSlashAppended(routes[1..], path);
    }
  }

  /** What the application shows for `path`: a view, a redirect, or nothing when no route
      matches. */
  datatype Outcome = Show(view: View) | Go(path: string) | NoMatch

  function Navigate(path: string, isAuthenticated: bool, user: Option<User>): Outcome {
    match Lookup(Routes, path)
    case None => NoMatch
    case Some(e) => Handle(e, isAuthenticated, user)
  }

  /** What a matched route element does: a redirect, an unguarded page, or a guarded one. */
  function Handle(e: Element, isAuthenticated: bool, user: Option<User>): Outcome {
    match e
    case Redirect(to) => Go(to)
    case Public(v) => Show(v)
    case Protected(roles, v) =>
      match Guard(isAuthenticated, user, Some(roles))
      case Render => Show(v)
      case RedirectTo(to) => Go(to)
  }

  /** No route of the table matches the path of a later one. */
  lemma EarlierRoutesDiffer(j: nat, i: nat)
    requires j < i < |Routes|
    ensures !PathMatches(Routes[j].path, Routes[i].path)
  {
    var a, b := Routes[j].path, Routes[i].path;
    if j == 0 {
      RootNeedsSlashes(b);
    } else if j == 3 && i == 7 {
      DifferAt(a, b, 10);
    } else if j == 4 && i == 8 {
      DifferAt(a, b, 7);
    } else {
      DifferAt(a, b, 1);
    }
  }

  /** Requesting a declared path finds that route. */
  lemma DeclaredPathFound(i: nat)
    requires i < |Routes|
    ensures Lookup(Routes, Routes[i].path) == Some(Routes[i].element)
  {
    PathMatchesItself(Routes[i].path);
    forall j | 0 <= j < i ensures !PathMatches(Routes[j].path, Routes[i].path) {
      EarlierRoutesDiffer(j, i);
    }
    LookupFirstMatch(Routes, Routes[i].path, i);
  }

  /** Requesting a declared path does what that route's element does. */
  lemma NavigateDeclared(i: nat, isAuthenticated: bool, user: Option<User>)
    requires i < |Routes|
    ensures Navigate(Routes[i].path, isAuthenticated, user) == Handle(Routes[i].element, isAuthenticated, user)
  {
    DeclaredPathFound(i);
  }

  lemma RootRedirectsToStart(isAuthenticated: bool, user: Option<User>)
    ensures Navigate("/", isAuthenticated, user) == Go("/start")
  {
    NavigateDeclared(0, isAuthenticated, user);
  }

  /** The entry, log-in and sign-up pages carry no guard: they show without a session. */
  lemma StartUnguarded(isAuthenticated: bool, user: Option<User>)
    ensures Navigate("/start", isAuthenticated, user) == Show(StartView)
  {
    NavigateDeclared(1, isAuthenticated, user);
  }

  lemma LogInUnguarded(isAuthenticated: bool, user: Option<User>)
    ensures Navigate("/LogIn", isAuthenticated, user) == Show(LogInView)
  {
    NavigateDeclared(2, isAuthenticated, user);
  }

  lemma SignUpPagesUnguarded(isAuthenticated: bool, user: Option<User>)
    ensures Navigate("/passengerSignIn", isAuthenticated, user) == Show(PassengerSignInView)
    ensures Navigate("/driverSignIn", isAuthenticated, user) == Show(DriverSignInView)
    ensures Navigate("/CarSignIn", isAuthenticated, user) == Show(CarSignInView)
  {
    NavigateDeclared(3, isAuthenticated, user);
    NavigateDeclared(4, isAuthenticated, user);
    NavigateDeclared(5, isAuthenticated, user);
  }

  /** The guard's two redirect targets lead to pages without a guard, so a redirect never
      loops. */
  lemma RedirectTargetsArePublic(isAuthenticated: bool, user: Option<User>)
    ensures Navigate("/login", isAuthenticated, user) == Show(LogInView)
    ensures Navigate("/start", isAuthenticated, user) == Show(StartView)
  {
    RootNeedsSlashes("/login");
    DifferAt("/start", "/login", 1);
    assert SamePath("/LogIn", "/login");
    PathMatchesItself("/login");
    LookupFirstMatch(Routes, "/login", 2);
    StartUnguarded(isAuthenticated, user);
  }

  /** The profile admits exactly passengers and drivers. */
  lemma ProfileRoles(u: User)
    ensures Navigate("/userProfile", true, Some(u)) ==
              (if u.role == "passenger" || u.role == "driver" then Show(UserProfileView) else Go("/start"))
  {
    NavigateDeclared(6, true, Some(u));
    var roles := ["passenger", "driver"];
    assert Routes[6].element == Protected(roles, UserProfileView);
    assert u.role in roles <==> u.role == "passenger" || u.role == "driver";
  }

  /** Each home page admits only its own role. */
  lemma PassengerHomeRoles(u: User)
    ensures Navigate("/passengerHome", true, Some(u)) ==
              (if u.role == "passenger" then Show(PassengerHomeView) else Go("/start"))
  {
    NavigateDeclared(7, true, Some(u));
    assert Routes[7].element == Protected(["passenger"], PassengerHomeView);
  }

  lemma DriverHomeRoles(u: User)
    ensures Navigate("/driverHome", true, Some(u)) ==
              (if u.role == "driver" then Show(DriverHomeView) else Go("/start"))
  {
    NavigateDeclared(8, true, Some(u));
    assert Routes[8].element == Protected(["driver"], DriverHomeView);
  }

  /** A passenger who asks for the driver's home page is sent to "/start"; without a session
      anyone is sent to "/login". */
  lemma PassengerKeptFromDriverHome(u: User, user: Option<User>)
    requires u.role == "passenger"
    ensures Navigate("/driverHome", true, Some(u)) == Go("/start")
    ensures Navigate("/driverHome", false, user) == Go("/login")
  {
    DriverHomeRoles(u);
    NavigateDeclared(8, false, user);
  }

  /** A trailing slash changes nothing: "/start/" shows the start page, and "/driverHome/" is
      guarded exactly as "/driverHome" is. */
  lemma TrailingSlashIgnored(path: string, isAuthenticated: bool, user: Option<User>)
    requires path != "" && path[0] == '/'
    ensures Navigate(path + "/", isAuthenticated, user) == Navigate(path, isAuthenticated, user)
    ensures Navigate("/start/", isAuthenticated, user) == Show(StartView)
  {
    TableDeclared();
    LookupSlashAppended(Routes, path);
    LookupSlashAppended(Routes, "/start");
    assert "/start" + "/" == "/start/";
    StartUnguarded(isAuthenticated, user);
  }

  /** A path that no route declares shows nothing. */
  lemma UnknownPathShowsNothing(isAuthenticated: bool, user: Option<User>)
    ensures Navigate("/reservations", isAuthenticated, user) == NoMatch
  {
    var p := "/reservations";
    forall j | 0 <= j < |Routes| ensures !PathMatches(Routes[j].path, p) {
      if j == 0 { RootNeedsSlashes(p); } else { DifferAt(Routes[j].path, p, 1); }
    }
    LookupNoMatch(Routes, p);
  }
}
