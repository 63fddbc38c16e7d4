/**
 The route-guard decision made for every request: given the signed-in user id
 (if any), the outcome of fetching that user's record, and the request path,
 either let the request through or redirect it to one fixed page.

 The identity provider's session call and user fetch are inputs here: `userId`
 is what the session reports and `Lookup` is what fetching the user record
 produced.
 */
module Middleware {
  import opened Options
  import opened RouteMatcher

  /** The result of fetching the user record: the fetch threw, or it returned the record's role. */
  datatype Lookup = Failed | Found(role: Option<string>)

  /** `Allow` falls through to the page handler; `Redirect` answers with a redirect to `target`. */
  datatype Outcome = Allow | Redirect(target: string)

  const SignIn: string := "/sign-in"
  const Dashboard: string := "/dashboard"
  const AdminDashboard: string := "/admin/dashboard"
  const ErrorPage: string := "/error"

  /** The only pages the guard ever redirects to. */
  const Targets: set<string> := {SignIn, Dashboard, AdminDashboard, ErrorPage}

  /** The guard tests the user id for truthiness, so an empty id counts as signed out. */
  predicate Authenticated(userId: Option<string>) {
    userId.Some? && userId.value != ""
  }

  /** Only the exact role "admin" is an administrator; a missing role is not. */
  predicate IsAdmin(role: Option<string>) {
    role == Some("admin")
  }

  /**
   The redirect decision, branches taken in source order, first match wins.
   A request is let through only when it is a signed-out request for a public
   page, or a signed-in request whose lookup succeeded for a page that is
   neither public nor an admin page barred to the user.
   */
  function Guard(userId: Option<string>, lookup: Lookup, path: string): (o: Outcome)
    ensures o.Redirect? ==> o.target in Targets
    ensures o == Allow && !Authenticated(userId) ==> IsPublic(path)
    ensures o == Allow && Authenticated(userId) ==> lookup.Found? && !IsPublic(path)
    ensures o == Allow && StartsWith(path, "/admin") ==> Authenticated(userId) && lookup == Found(Some("admin"))
  {
    if !Authenticated(userId) && !IsPublic(path) then Redirect(SignIn)
    else if !Authenticated(userId) then
      assert !StartsWith(path, "/admin") by {
        if StartsWith(path, "/admin") { AdminPrefixNotPublic(path); }
      }
      Allow
    else
      match lookup
      case Failed => Redirect(ErrorPage)
      case Found(role) =>
        if IsAdmin(role) && path == Dashboard then Redirect(AdminDashboard)
        else if !IsAdmin(role) && StartsWith(path, "/admin") then Redirect(Dashboard)
        else if IsPublic(path) then Redirect(if IsAdmin(role) then AdminDashboard else Dashboard)
        else
          assert StartsWith(path, "/admin") ==> !IsPublic(path) by {
            if StartsWith(path, "/admin") { AdminPrefixNotPublic(path); }
          }
          Allow
  }

  /** The dashboard is not a public page, so signed-out users cannot see it. */
  lemma DashboardNotPublic()
    ensures !IsPublic(Dashboard)
  {
    assert Dashboard[1] == 'd';
    assert !StartsWith(Dashboard, "/sign-in") by { assert "/sign-in"[1] == 's'; }
    assert !StartsWith(Dashboard, "/sign-up") by { assert "/sign-up"[1] == 's'; }
    assert Dashboard != "/api/webhook/register" by { assert "/api/webhook/register"[1] == 'a'; }
  }

  /** A signed-out request for a page that is not public is sent to the sign-in page. */
  lemma SignedOutPrivateGoesToSignIn(userId: Option<string>, lookup: Lookup, path: string)
    requires !Authenticated(userId) && !IsPublic(path)
    ensures Guard(userId, lookup, path) == Redirect(SignIn)
  {}

  /**
   A signed-out request is let through exactly when the page is public, and the
   lookup result plays no part in the decision.
   */
  lemma SignedOutAllowedIffPublic(userId: Option<string>, lookup: Lookup, other: Lookup, path: string)
    requires !Authenticated(userId)
    ensures Guard(userId, lookup, path) == Allow <==> IsPublic(path)
    ensures Guard(userId, lookup, path) == Guard(userId, other, path)
  {}

  /** An empty user id is treated exactly like a missing one. */
  lemma EmptyUserIdIsSignedOut(lookup: Lookup, path: string)
    ensures Guard(Some(""), lookup, path) == Guard(None, lookup, path)
  {}

  /** A signed-in request whose user fetch failed goes to the error page, whatever the path. */
  lemma FailedLookupGoesToError(userId: Option<string>, path: string)
    requires Authenticated(userId)
    ensures Guard(userId, Failed, path) == Redirect(ErrorPage)
  {}

  /**
   An administrator is sent to the admin dashboard exactly from "/dashboard"
   and from the public pages; every other path is let through.
   */
  lemma AdminRedirects(userId: Option<string>, path: string)
    requires Authenticated(userId)
    ensures (Guard(userId, Found(Some("admin")), path) == Redirect(AdminDashboard))
              <==> (path == Dashboard || IsPublic(path))
    ensures (Guard(userId, Found(Some("admin")), path) == Allow)
              <==> (path != Dashboard && !IsPublic(path))
  {}

  /**
   A signed-in user whose role is not "admin", including a user with no role,
   is never let onto a path starting with "/admin": they are sent to the
   dashboard instead. This also covers paths such as "/administrator".
   */
  lemma NonAdminBarredFromAdminPaths(userId: Option<string>, role: Option<string>, path: string)
    requires Authenticated(userId) && !IsAdmin(role) && StartsWith(path, "/admin")
    ensures Guard(userId, Found(role), path) == Redirect(Dashboard)
  {}

  /** Whoever asks, a path starting with "/admin" is let through only for a signed-in administrator. */
  lemma AdminPathsOnlyForAdmins(userId: Option<string>, lookup: Lookup, path: string)
    requires StartsWith(path, "/admin")
    ensures Guard(userId, lookup, path) == Allow <==> Authenticated(userId) && lookup == Found(Some("admin"))
  {
    AdminPrefixNotPublic(path);
    assert path != Dashboard by { assert Dashboard[1] == 'd'; }
  }

  /**
   A signed-in user with a successful lookup is never let onto a public page:
   they go to the admin dashboard if and only if the role is "admin", and
   otherwise to the dashboard.
   */
  lemma SignedInPublicRedirected(userId: Option<string>, role: Option<string>, path: string)
    requires Authenticated(userId) && IsPublic(path)
    ensures Guard(userId, Found(role), path) == Redirect(if IsAdmin(role) then AdminDashboard else Dashboard)
  {}

  /**
   No redirect loop: following a redirect with the same identity, and with the
   same successful lookup (hence the same role) when signed in, is let through.
   */
  lemma NoRedirectLoop(userId: Option<string>, lookup: Lookup, path: string, target: string)
    requires !Authenticated(userId) || lookup.Found?
    requires Guard(userId, lookup, path) == Redirect(target)
    ensures Guard(userId, lookup, target) == Allow
  {
    assert IsPublic(SignIn);
    DashboardNotPublic();
    assert !IsPublic(AdminDashboard) by { AdminPrefixNotPublic(AdminDashboard); }
    assert !StartsWith(Dashboard, "/admin") by { assert Dashboard[1] == 'd'; }
  }

  /**
   The exception to the above: while the user fetch keeps failing, the error
   page itself redirects to the error page.
   */
  lemma ErrorPageLoopsWhileLookupFails(userId: Option<string>)
    requires Authenticated(userId)
    ensures Guard(userId, Failed, ErrorPage) == Redirect(ErrorPage)
  {}

  /** Worked cases of the decision table. */
  lemma Examples()
    ensures Guard(None, Failed, "/profile") == Redirect(SignIn)
    ensures Guard(None, Failed, "/sign-up/verify") == Allow
    ensures Guard(Some("u1"), Found(Some("admin")), "/sign-in") == Redirect(AdminDashboard)
    ensures Guard(Some("u1"), Found(Some("user")), "/profile") == Allow
    ensures Guard(Some("u1"), Found(Some("user")), "/admin/settings") == Redirect(Dashboard)
    ensures Guard(Some("u1"), Found(None), "/administrator") == Redirect(Dashboard)
    ensures Guard(Some("u1"), Found(Some("admin")), "/admin/settings") == Allow
  {
    assert !IsPublic("/profile") by { assert "/profile"[1] == 'p'; }
    assert StartsWith("/sign-up/verify", "/sign-up") by { assert "/sign-up/verify"[..8] == "/sign-up"; }
    assert !IsPublic("/admin/settings") by {
      assert StartsWith("/admin/settings", "/admin") by { assert "/admin/settings"[..6] == "/admin"; }
      AdminPrefixNotPublic("/admin/settings");
    }
    assert StartsWith("/administrator", "/admin") by { assert "/administrator"[..6] == "/admin"; }
  }
}
