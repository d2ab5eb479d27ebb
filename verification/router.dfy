/**
 * The front end's route table and navigation guard (frontend/src/router/index.js). The guard
 * runs before every navigation, reads the authentication store and, for a protected page
 * reached with a token but no profile, validates the token first.
 */
module Router {
  import opened Wrappers
  import opened AuthStore

  /** A route record: path, name, redirect target and `meta.requiresAuth`. */
  datatype Route = Route(path: string, name: Option<string>, redirect: Option<string>, requiresAuth: bool)

  /** What the guard passes to `next`: nothing (go on) or a path to go to instead. */
  datatype Decision = Proceed | RedirectTo(path: string)

  const LoginPath: string := "/login"
  const DashboardPath: string := "/dashboard"

  /** The `routes` table, in declaration order (components are left out). */
  function Routes(): (r: seq<Route>)
    ensures |r| == 8
    ensures r[0].path == "/" && r[0].redirect == Some(DashboardPath) && r[3].path == DashboardPath
    ensures forall i :: 0 <= i < |r| ==> (r[i].redirect.Some? <==> i == 0) && (r[i].name.Some? <==> i != 0)
    ensures forall i :: 0 <= i < |r| ==> (r[i].requiresAuth <==> 3 <= i)
  {
    [ Route("/", None, Some(DashboardPath), false),
      Route(LoginPath, Some("Login"), None, false),
      Route("/register", Some("Register"), None, false),
      Route(DashboardPath, Some("Dashboard"), None, true),
      Route("/transactions", Some("Transactions"), None, true),
      Route("/accounts", Some("Accounts"), None, true),
      Route("/projects", Some("Projects"), None, true),
      Route("/auth-test", Some("AuthTest"), None, true) ]
  }

  /** ASCII upper-case letters to lower case; every other character is kept. */
  function LowerChar(c: char): (d: char)
    ensures 'A' <= c <= 'Z' ==> d as int == c as int + 32
    ensures !('A' <= c <= 'Z') ==> d == c
  {
    if 'A' <= c <= 'Z' then (c as int + 32) as char else c
  }

  /** The path with ASCII letters in lower case. */
  function FoldCase(s: string): (t: string)
    ensures |t| == |s|
    ensures forall i :: 0 <= i < |s| ==> t[i] == LowerChar(s[i])
  {
    seq(|s|, i requires 0 <= i < |s| => LowerChar(s[i]))
  }

  /**
   * The form in which the router compares paths: `createRouter` leaves `sensitive` and
   * `strict` off, so letters match regardless of case and one trailing "/" is optional
   * ("/" itself is kept).
   */
  function Canonical(path: string): (c: string)
    ensures |path| > 1 && path[|path| - 1] == '/' ==> c == FoldCase(path[..|path| - 1])
    ensures !(|path| > 1 && path[|path| - 1] == '/') ==> c == FoldCase(path)
  {
    if |path| > 1 && path[|path| - 1] == '/' then FoldCase(path[..|path| - 1]) else FoldCase(path)
  }

  /** A record with path `pattern` matches a navigation to `path`. */
  predicate Matches(pattern: string, path: string) {
    Canonical(pattern) == Canonical(path)
  }

  /** The first record of `routes` that matches `path`. */
  function Lookup(routes: seq<Route>, path: string): (r: Option<Route>)
    ensures r.Some? ==> r.value in routes && Matches(r.value.path, path)
    ensures r.None? ==> forall i :: 0 <= i < |routes| ==> !Matches(routes[i].path, path)
    decreases |routes|
  {
    if routes == [] then None
    else if Matches(routes[0].path, path) then Some(routes[0])
    else Lookup(routes[1..], path)
  }

  /** The lookup finds the first matching record: a match with no match before it is the one returned. */
  lemma {:induction false} LookupIsFirst(routes: seq<Route>, path: string, i: nat)
    requires i < |routes| && Matches(routes[i].path, path)
    requires forall j :: 0 <= j < i ==> !Matches(routes[j].path, path)
    ensures Lookup(routes, path) == Some(routes[i])
    decreases i
  {
    if i > 0 {
      LookupIsFirst(routes[1..], path, i - 1);
    }
  }

  /**
   * The route a navigation to `path` lands on: a redirect record is followed before any guard
   * runs, and a path no record matches lands on a nameless route with no requirements.
   */
  function Resolve(path: string): (r: Route)
    ensures Lookup(Routes(), path).Some? && Lookup(Routes(), path).value.redirect.None? ==>
      r == Lookup(Routes(), path).value
    ensures Lookup(Routes(), path).None? ==> r == Route(path, None, None, false)
  {
    match Lookup(Routes(), path)
    case None => Route(path, None, None, false)
    case Some(found) =>
      if found.redirect.None? then found
      else match Lookup(Routes(), found.redirect.value)
        case None => Route(found.redirect.value, None, None, false)
        case Some(target) => target
  }

  /** The sign-in and sign-up pages. */
  predicate IsAuthPage(to: Route) {
    to.name == Some("Login") || to.name == Some("Register")
  }

  /**
   * The decision of `beforeEach` for the store's state on entry (`authenticated`, and whether
   * a profile is loaded) and the answer `valid` that token validation gives if it runs.
   */
  function Guard(to: Route, authenticated: bool, hasUser: bool, valid: bool): (d: Decision)
    ensures to.requiresAuth && !authenticated ==> d == RedirectTo(LoginPath)
    ensures to.requiresAuth && authenticated && !hasUser && !valid ==> d == RedirectTo(LoginPath)
    ensures IsAuthPage(to) && authenticated && (!to.requiresAuth || hasUser || valid) ==> d == RedirectTo(DashboardPath)
    ensures d == Proceed <==>
      (!to.requiresAuth || (authenticated && (hasUser || valid))) && !(IsAuthPage(to) && authenticated)
  {
    if to.requiresAuth && !authenticated then RedirectTo(LoginPath)
    else if to.requiresAuth && !hasUser && !valid then RedirectTo(LoginPath)
    else if IsAuthPage(to) && authenticated then RedirectTo(DashboardPath)
    else Proceed
  }

  /**
   * `router.beforeEach`: one decision per navigation. Token validation, the only step that
   * changes the store, runs exactly when a protected page is reached with a token but no
   * profile; `me` is the reply it gets.
   */
  method BeforeEach(to: Route, auth: Auth, me: Reply<Profile>) returns (d: Decision)
    requires auth.Valid()
    modifies auth
    ensures auth.Valid()
    ensures d == Guard(to, old(auth.IsAuthenticated()), old(auth.user.Some?), me.Ok?)
    ensures !(to.requiresAuth && old(auth.IsAuthenticated()) && old(auth.user.None?)) ==>
      auth.token == old(auth.token) && auth.user == old(auth.user) && auth.storedToken == old(auth.storedToken)
    ensures to.requiresAuth && old(auth.IsAuthenticated()) && old(auth.user.None?) && me.Err? ==> auth.LoggedOut()
    ensures to.requiresAuth && old(auth.IsAuthenticated()) && old(auth.user.None?) && me.Ok? ==>
      auth.user == Some(me.data) && auth.token == old(auth.token) && auth.storedToken == old(auth.storedToken)
  {
    if to.requiresAuth {
      if !auth.IsAuthenticated() {
        return RedirectTo(LoginPath);
      }
      if auth.user.None? {
        var valid := auth.ValidateToken(me);
        if !valid {
          return RedirectTo(LoginPath);
        }
      }
    }
    if IsAuthPage(to) && auth.IsAuthenticated() {
      return RedirectTo(DashboardPath);
    }
    return Proceed;
  }

  /** "/" lands on the dashboard. */
  lemma RootLandsOnDashboard()
    ensures Resolve("/") == Resolve(DashboardPath) == Routes()[3]
    ensures Resolve(DashboardPath).name == Some("Dashboard") && Resolve(DashboardPath).requiresAuth
  {
    var routes := Routes();
    assert Lookup(routes, "/") == Some(routes[0]);
    assert |routes[0].path| == 1 && |routes[1].path| == 6 && |routes[2].path| == 9 && |DashboardPath| == 10;
    assert Lookup(routes, DashboardPath) == Lookup(routes[1..], DashboardPath);
    assert Lookup(routes[1..], DashboardPath) == Lookup(routes[2..], DashboardPath) by {
      assert routes[1..][1..] == routes[2..];
    }
    assert Lookup(routes[2..], DashboardPath) == Lookup(routes[3..], DashboardPath) by {
      assert routes[2..][1..] == routes[3..];
    }
    assert Lookup(routes[3..], DashboardPath) == Some(routes[3]);
  }

  /** One trailing "/" does not change which record a path finds. */
  lemma TrailingSlashIgnored(routes: seq<Route>, path: string)
    requires |path| >= 1 && path[|path| - 1] != '/'
    ensures Lookup(routes, path + "/") == Lookup(routes, path)
  {
    var p := path + "/";
    assert p[..|p| - 1] == path;
    assert Canonical(p) == Canonical(path);
  }

  /** "/Dashboard/" has the canonical form of the dashboard's own path. */
  lemma DashboardFolds()
    ensures Canonical("/Dashboard/") == Canonical(DashboardPath) == DashboardPath
  {
    var p: string := "/Dashboard/";
    assert p[..|p| - 1] == "/Dashboard";
    var f := FoldCase("/Dashboard");
    assert f[1] == 'd';
    assert f == DashboardPath;
    var g := FoldCase(DashboardPath);
    assert g == DashboardPath;
  }

  /** Letter case and a trailing "/" do not let a signed-out visitor past the dashboard guard. */
  lemma DashboardVariants(hasUser: bool, valid: bool)
    ensures Resolve("/Dashboard/") == Routes()[3]
    ensures Guard(Resolve("/Dashboard/"), false, hasUser, valid) == RedirectTo(LoginPath)
  {
    RootLandsOnDashboard();
    DashboardFolds();
    LookupAgrees(Routes(), "/Dashboard/", DashboardPath);
  }

  /** Paths with the same canonical form find the same record. */
  lemma {:induction false} LookupAgrees(routes: seq<Route>, p: string, q: string)
    requires Canonical(p) == Canonical(q)
    ensures Lookup(routes, p) == Lookup(routes, q)
    decreases |routes|
  {
    if routes != [] {
      LookupAgrees(routes[1..], p, q);
    }
  }

  /** "/login" lands on the Login record. */
  lemma LoginResolves()
    ensures Resolve(LoginPath) == Routes()[1] && !Resolve(LoginPath).requiresAuth
  {
    var routes := Routes();
    assert |routes[0].path| == 1 && |LoginPath| == 6;
    assert Lookup(routes, LoginPath) == Lookup(routes[1..], LoginPath);
    assert Lookup(routes[1..], LoginPath) == Some(routes[1]);
  }

  /** No path matches two records of the table, so the order of the records does not matter. */
  lemma RecordsDistinct(i: nat, j: nat)
    requires i < j < |Routes()|
    ensures Canonical(Routes()[i].path) != Canonical(Routes()[j].path)
  {
    var r := Routes();
    CanonicalKeeps(r[i].path);
    CanonicalKeeps(r[j].path);
    assert |r[i].path| != |r[j].path| || r[i].path[1] != r[j].path[1];
  }

  /** Without a trailing "/", the canonical form keeps the length and every character that is not an upper-case letter. */
  lemma CanonicalKeeps(path: string)
    requires |path| <= 1 || path[|path| - 1] != '/'
    ensures |Canonical(path)| == |path|
    ensures forall k :: 0 <= k < |path| && !('A' <= path[k] <= 'Z') ==> Canonical(path)[k] == path[k]
  {
  }


  /** Exactly the five application pages are protected; the sign-in and sign-up pages are not. */
  lemma ProtectedPages()
    ensures forall i :: 3 <= i < |Routes()| ==> !IsAuthPage(Routes()[i])
    ensures IsAuthPage(Routes()[1]) && IsAuthPage(Routes()[2])
  {
  }

  /** Signed out, every page of the table is reachable exactly when it is not protected. */
  lemma SignedOutAccess(path: string, hasUser: bool, valid: bool)
    ensures Guard(Resolve(path), false, hasUser, valid) ==
      if Resolve(path).requiresAuth then RedirectTo(LoginPath) else Proceed
  {
  }

  /** The sign-in page admits a signed-out visitor. */
  lemma LoginAdmitsSignedOut(valid: bool)
    ensures Guard(Resolve(LoginPath), false, false, valid) == Proceed
  {
    LoginResolves();
  }

  /** Signed in, the dashboard either proceeds or, when validation fails, sends the visitor to /login. */
  lemma DashboardSettles(hasUser: bool, valid: bool)
    ensures Guard(Resolve(DashboardPath), true, hasUser, valid) in {Proceed, RedirectTo(LoginPath)}
  {
    RootLandsOnDashboard();
  }

  /**
   * Redirects do not loop: the page a redirect to /login lands on admits the signed-out state
   * it leaves behind, and a redirect to /dashboard, taken only when signed in, either proceeds
   * or sends the visitor to /login.
   */
  lemma RedirectsSettle(to: Route, authenticated: bool, hasUser: bool, valid: bool, valid2: bool)
    ensures Guard(to, authenticated, hasUser, valid) == RedirectTo(LoginPath) ==>
      Guard(Resolve(LoginPath), false, false, valid2) == Proceed
    ensures Guard(to, authenticated, hasUser, valid) == RedirectTo(DashboardPath) ==>
      authenticated && Guard(Resolve(DashboardPath), true, hasUser, valid2) in {Proceed, RedirectTo(LoginPath)}
  {
    LoginAdmitsSignedOut(valid2);
    DashboardSettles(hasUser, valid2);
  }
}
