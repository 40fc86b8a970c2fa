/** The client's page table and its role gate: which page each path shows,
    what `ProtectedRoute` renders for a given session and role, how its
    `session` / `userRole` / `loading` state moves, and where
    `RoleRedirector` sends a signed-in user. */
module RoleGate {
  import opened Records
  import LocationSearch

  const ADMIN: string := "admin"
  const DRIVER: string := "driver"

  // ---------------------------------------------------------------------
  // The render decision
  // ---------------------------------------------------------------------

  /** What a path renders: `ProtectedRoute`'s loading screen, a `Navigate`
      (always with `replace`), a guarded page inside the Layout, an unguarded
      page without it, or nothing at all when no route matches. */
  datatype View = LoadingScreen | Redirect(to: string) | InLayout | Unwrapped(page: Element) | Blank

  /** JavaScript truthiness of the fetched role (`data?.role`): missing, null
      and the empty string are falsy. */
  predicate Truthy(role: Option<string>) {
    role.Some? && role.value != ""
  }

  /** The dashboard a role is sent back to when it opens a page it is not
      allowed on: '/admin' for 'admin', '/driver' for every other role. */
  function HomeOf(role: string): (path: string)
    ensures path == "/admin" <==> role == ADMIN
    ensures path == "/driver" <==> role != ADMIN
  {
    if role == ADMIN then "/admin" else "/driver"
  }

  /** `ProtectedRoute`'s render decision. `allowed` is the `allowedRoles`
      prop, `None` where the page passes none. */
  function Decide(loading: bool, hasSession: bool, role: Option<string>, allowed: Option<seq<string>>): (v: View)
    ensures loading ==> v == LoadingScreen
    ensures !loading && !hasSession ==> v == Redirect("/login")
    ensures !loading && hasSession && allowed.Some? && Truthy(role) && role.value !in allowed.value ==>
              v == Redirect(HomeOf(role.value))
    ensures !loading && hasSession && (allowed.None? || !Truthy(role) || role.value in allowed.value) ==>
              v == InLayout
  {
    if loading then LoadingScreen
    else if !hasSession then Redirect("/login")
    else if allowed.Some? && Truthy(role) && role.value !in allowed.value then Redirect(HomeOf(role.value))
    else InLayout
  }

  /** A signed-in user without a role (no profile row, or a null or empty
      role) passes every guard. */
  lemma NullRolePasses(role: Option<string>, allowed: Option<seq<string>>)
    requires !Truthy(role)
    ensures Decide(false, true, role, allowed) == InLayout
  {
  }

  // ---------------------------------------------------------------------
  // The page table
  // ---------------------------------------------------------------------

  /** The pages a guard can wrap. */
  datatype Child = AdminDashboard | DriverDashboard | RoleRedirector

  /** The element `App` mounts for a path. */
  datatype Element =
    | LoginPage
    | SignupPage
    | Guarded(allowed: Option<seq<string>>, child: Child)
    | NavigateTo(path: string)
    | NoMatch

  /** The path without the slashes it ends in. */
  function StripTrailingSlashes(path: string): (r: string)
    ensures r <= path && (r == [] || r[|r| - 1] != '/')
    ensures forall i :: |r| <= i < |path| ==> path[i] == '/'
    decreases |path|
  {
    if path != [] && path[|path| - 1] == '/' then StripTrailingSlashes(path[..|path| - 1]) else path
  }

  /** The form in which a `<Route path>` compares paths: React Router matches
      without regard to letter case (`caseSensitive` is off) and accepts
      trailing slashes. The root '/' becomes the empty string. */
  function Canonical(path: string): string {
    LocationSearch.Lower(StripTrailingSlashes(path))
  }

  /** The route paths themselves are already in that form. */
  lemma CanonicalRoutePath(path: string)
    requires path in {"/login", "/signup", "/admin", "/driver", "/dashboard"}
    ensures Canonical(path) == path
  {
    assert StripTrailingSlashes(path) == path;
    assert forall i :: 0 <= i < |path| ==> !('A' <= path[i] <= 'Z');
    assert LocationSearch.Lower(path) == path;
  }

  lemma CanonicalRoot()
    ensures Canonical("/") == ""
  {
    assert StripTrailingSlashes("/") == StripTrailingSlashes("");
  }

  function ElementAt(path: string): (e: Element)
    ensures Canonical(path) == "" ==> e == NavigateTo("/login")
    ensures e.Guarded? <==> Canonical(path) in {"/admin", "/driver", "/dashboard"}
    ensures e == LoginPage <==> Canonical(path) == "/login"
  {
    var c := Canonical(path);
    if c == "/login" then LoginPage
    else if c == "/signup" then SignupPage
    else if c == "/admin" then Guarded(Some([ADMIN]), AdminDashboard)
    else if c == "/driver" then Guarded(Some([DRIVER]), DriverDashboard)
    else if c == "/dashboard" then Guarded(None, RoleRedirector)
    else if c == "" then NavigateTo("/login")
    else NoMatch
  }

  /** Lower-casing commutes with dropping trailing slashes, since '/' is no letter. */
  lemma {:induction false} StripLower(path: string)
    ensures StripTrailingSlashes(LocationSearch.Lower(path)) == LocationSearch.Lower(StripTrailingSlashes(path))
    decreases |path|
  {
    var low := LocationSearch.Lower(path);
    if path != [] && path[|path| - 1] == '/' {
      var init := path[..|path| - 1];
      assert low[..|low| - 1] == LocationSearch.Lower(init);
      StripLower(init);
    } else if path != [] {
      assert low[|low| - 1] != '/';
    }
  }

  /** A path picks the same element in any letter case and with a trailing
      slash: '/Admin/' shows what '/admin' shows. */
  lemma MatchIgnoresCaseAndTrailingSlash(path: string)
    ensures ElementAt(path + "/") == ElementAt(path)
    ensures ElementAt(LocationSearch.Lower(path)) == ElementAt(path)
  {
    CanonicalSlash(path);
    CanonicalLower(path);
  }

  lemma CanonicalSlash(path: string)
    ensures Canonical(path + "/") == Canonical(path)
  {
    assert (path + "/")[..|path|] == path;
    assert StripTrailingSlashes(path + "/") == StripTrailingSlashes(path);
  }

  lemma CanonicalLower(path: string)
    ensures Canonical(LocationSearch.Lower(path)) == Canonical(path)
  {
    StripLower(path);
    LocationSearch.LowerIdempotent(StripTrailingSlashes(path));
  }

  /** What a path renders once loading is over. */
  function Render(path: string, hasSession: bool, role: Option<string>): (v: View)
    ensures v == InLayout ==> ElementAt(path).Guarded? && hasSession
    ensures v.Unwrapped? <==> Canonical(path) == "/login" || Canonical(path) == "/signup"
    ensures v == Blank <==> ElementAt(path) == NoMatch
    ensures Canonical(path) == "" ==> v == Redirect("/login")
    ensures !v.LoadingScreen?
  {
    match ElementAt(path)
    case Guarded(allowed, _) => Decide(false, hasSession, role, allowed)
    case NavigateTo(to) => Redirect(to)
    case NoMatch => Blank
    case page => Unwrapped(page)
  }

  /** The root path always leads to the login page, which is not guarded. */
  lemma RootAlwaysLogin(hasSession: bool, role: Option<string>)
    ensures Render("/", hasSession, role) == Redirect("/login")
    ensures Render(Render("/", hasSession, role).to, hasSession, role) == Unwrapped(LoginPage)
  {
    CanonicalRoot();
    CanonicalRoutePath("/login");
  }

  /** An 'admin' or 'driver' sent away from the other's dashboard lands on a
      page whose `allowedRoles` holds its role, so that page renders. */
  lemma RedirectLandsOnOwnDashboard(path: string, role: string)
    requires role == ADMIN || role == DRIVER
    requires ElementAt(path).Guarded?
    requires Render(path, true, Some(role)).Redirect?
    ensures ElementAt(Render(path, true, Some(role)).to).Guarded?
    ensures ElementAt(Render(path, true, Some(role)).to).allowed == Some([role])
    ensures Render(Render(path, true, Some(role)).to, true, Some(role)) == InLayout
  {
    CanonicalRoutePath(HomeOf(role));
  }

  /** Any other non-empty role is sent to '/driver', and '/driver' answers
      it with a redirect to '/driver' itself. */
  lemma UnknownRoleRedirectsToItself(path: string, role: string)
    requires role != ADMIN && role != DRIVER && role != ""
    requires ElementAt(path).Guarded? && ElementAt(path).allowed.Some?
    ensures Render(path, true, Some(role)) == Redirect("/driver")
    ensures Render("/driver", true, Some(role)) == Redirect("/driver")
  {
    assert role !in [ADMIN] && role !in [DRIVER];
    CanonicalRoutePath("/driver");
  }

  /** A guarded page never bounces a signed-out visitor anywhere but '/login'. */
  lemma SignedOutGoesToLogin(path: string, role: Option<string>)
    requires ElementAt(path).Guarded?
    ensures Render(path, false, role) == Redirect("/login")
    ensures Render("/login", false, role) == Unwrapped(LoginPage)
  {
    CanonicalRoutePath("/login");
  }

  // ---------------------------------------------------------------------
  // RoleRedirector
  // ---------------------------------------------------------------------

  /** `RoleRedirector`: a `Navigate` to the role's dashboard for 'admin' and
      'driver', nothing (`null`) for any other role or none. */
  function RoleRedirect(role: Option<string>): (to: Option<string>)
    ensures to == Some("/admin") <==> role == Some(ADMIN)
    ensures to == Some("/driver") <==> role == Some(DRIVER)
    ensures to.None? <==> role != Some(ADMIN) && role != Some(DRIVER)
  {
    if role == Some(ADMIN) then Some("/admin")
    else if role == Some(DRIVER) then Some("/driver")
    else None
  }

  /** '/dashboard' renders the redirector for any signed-in user, and where
      the redirector sends a user the user's own dashboard renders. */
  lemma DashboardReachesHome(role: Option<string>)
    ensures Render("/dashboard", true, role) == InLayout
    ensures RoleRedirect(role).Some? ==> Render(RoleRedirect(role).value, true, role) == InLayout
  {
    CanonicalRoutePath("/dashboard");
    if RoleRedirect(role).Some? {
      CanonicalRoutePath(RoleRedirect(role).value);
    }
  }

  // ---------------------------------------------------------------------
  // ProtectedRoute's state
  // ---------------------------------------------------------------------

  /** One mounted `ProtectedRoute`: the session's user id, the fetched role
      and the loading flag, updated by the session callbacks and the role
      check. */
  class ProtectedRoute {
    var session: Option<string>
    var userRole: Option<string>
    var loading: bool
    const allowed: Option<seq<string>>

    constructor (allowedRoles: Option<seq<string>>)
      ensures session.None? && userRole.None? && loading && allowed == allowedRoles
    {
      session, userRole, loading := None, None, true;
      allowed := allowedRoles;
    }

    /** What it renders now. */
    function Current(): (v: View)
      reads this
      ensures loading ==> v == LoadingScreen
      ensures !loading && session.None? ==> v == Redirect("/login")
      ensures v == InLayout ==> !loading && session.Some?
    {
      Decide(loading, session.Some?, userRole, allowed)
    }

    /** The `getSession` result or an `onAuthStateChange` event. Without a
        session, loading ends; with one, a role check starts (`checkRole`)
        and loading stays as it was. The role of an earlier session is kept
        until that check answers. */
    method SessionChanged(s: Option<string>) returns (checkStarted: bool)
      modifies this`session, this`loading
      ensures checkStarted <==> s.Some?
      ensures session == s && userRole == old(userRole)
      ensures loading == (old(loading) && s.Some?)
    {
      session := s;
      checkStarted := s.Some?;
      if s.None? {
        loading := false;
      }
    }

    /** `checkRole` answering: the role is set and loading ends. */
    method RoleChecked(role: Option<string>)
      modifies this`userRole, this`loading
      ensures userRole == role && !loading
      ensures session == old(session)
    {
      userRole := role;
      loading := false;
    }
  }
}
