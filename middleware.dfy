/** The route guard of the dashboard: which paths it covers, and for those
    the redirect it answers from the `auth_token` and `role` cookies. */
module Middleware {
  import opened Base

  datatype Decision = Redirect(path: string) | Pass

  const LoginPath := "/login"
  const DashboardPath := "/dashboard"
  const AdminPath := "/dashboard/admin"
  /** The target the code sends a non-admin to, spelled as it is written. */
  const NonAdminTarget := "/dashboadrd"

  /** The matcher `/dashboard/:path*`: the dashboard itself and every path
      below it. */
  predicate Matches(pathname: string)
  {
    pathname == DashboardPath || StartsWith(pathname, DashboardPath + "/")
  }

  /** `middleware` as written. A missing or empty token cookie sends to the
      login page; an admin path without the admin role sends to the
      misspelt dashboard path; an admin on the user dashboard is sent to
      the admin panel; everything else passes. */
  function Decide(pathname: string, role: Option<string>, token: Option<string>): (r: Decision)
    ensures !Present(token) ==> r == Redirect(LoginPath)
    ensures Present(token) && StartsWith(pathname, AdminPath) && role != Some("admin") ==>
      r == Redirect(NonAdminTarget)
    ensures Present(token) && pathname == DashboardPath && role == Some("admin") ==> r == Redirect(AdminPath)
    ensures r == Pass <==>
      Present(token) && !(StartsWith(pathname, AdminPath) && role != Some("admin")) &&
      !(pathname == DashboardPath && role == Some("admin"))
  {
    if !Present(token) then Redirect(LoginPath)
    else if StartsWith(pathname, AdminPath) && role != Some("admin") then Redirect(NonAdminTarget)
    else if pathname == DashboardPath && role == Some("admin") then Redirect(AdminPath)
    else Pass
  }

  /** What a request meets: the middleware only on the paths the matcher
      covers. */
  function Guard(pathname: string, role: Option<string>, token: Option<string>): (r: Decision)
    ensures !Matches(pathname) ==> r == Pass
    ensures Matches(pathname) ==> r == Decide(pathname, role, token)
  {
    if Matches(pathname) then Decide(pathname, role, token) else Pass
  }

  /** Without a token every covered path goes to the login page, whatever
      the role: the token check comes before both role checks. */
  lemma NoTokenAlwaysLogin(pathname: string, role: Option<string>, token: Option<string>)
    requires Matches(pathname) && !Present(token)
    ensures Guard(pathname, role, token) == Redirect(LoginPath)
  {
  }

  /** An admin below the admin panel is let through. */
  lemma AdminSubpathPasses(rest: string, token: string)
    requires token != ""
    ensures Guard(AdminPath + "/" + rest, Some("admin"), Some(token)) == Pass
  {
    var p := AdminPath + "/" + rest;
    assert p[..|DashboardPath + "/"|] == DashboardPath + "/";
    assert p[..|AdminPath|] == AdminPath;
  }

  /** A user on the user dashboard is let through; a user on the admin panel
      is sent away. */
  lemma UserOnDashboard(token: string)
    requires token != ""
    ensures Guard(DashboardPath, Some("user"), Some(token)) == Pass
    ensures Guard(AdminPath, Some("user"), Some(token)) == Redirect(NonAdminTarget)
    ensures Guard(AdminPath, None, Some(token)) == Redirect(NonAdminTarget)
  {
    assert !StartsWith(DashboardPath, AdminPath);
    assert AdminPath[..|DashboardPath + "/"|] == DashboardPath + "/";
    assert AdminPath[..|AdminPath|] == AdminPath;
  }

  /** The prefix test is on characters, not on path segments: a sibling
      path such as "/dashboard/administrator" counts as the admin panel. */
  lemma AdminPrefixIsTextual(token: string)
    requires token != ""
    ensures Guard("/dashboard/administrator", Some("user"), Some(token)) == Redirect(NonAdminTarget)
  {
    var p := "/dashboard/administrator";
    assert p[..|DashboardPath + "/"|] == DashboardPath + "/";
    assert p[..|AdminPath|] == AdminPath;
  }

  /** The target of the non-admin redirect is outside the paths the matcher
      covers, so it is not the user dashboard the comment of the branch
      describes. */
  lemma NonAdminTargetUncovered()
    ensures !Matches(NonAdminTarget)
    ensures NonAdminTarget != DashboardPath
  {
    assert NonAdminTarget[8] != DashboardPath[8];
  }

  /** The decision with the redirect target the branch evidently intends:
      the user dashboard. */
  function DecideIntended(pathname: string, role: Option<string>, token: Option<string>): (r: Decision)
    ensures Decide(pathname, role, token) != Redirect(NonAdminTarget) ==> r == Decide(pathname, role, token)
    ensures Decide(pathname, role, token) == Redirect(NonAdminTarget) ==> r == Redirect(DashboardPath)
  {
    if !Present(token) then Redirect(LoginPath)
    else if StartsWith(pathname, AdminPath) && role != Some("admin") then Redirect(DashboardPath)
    else if pathname == DashboardPath && role == Some("admin") then Redirect(AdminPath)
    else Pass
  }

  /** With the intended target, a non-admin sent away from the admin panel
      lands on a covered path that lets them through: one redirect, and no
      loop. */
  lemma DecideIntendedLands(pathname: string, role: Option<string>, token: Option<string>)
    requires DecideIntended(pathname, role, token) == Redirect(DashboardPath)
    ensures Matches(DashboardPath)
    ensures DecideIntended(DashboardPath, role, token) == Pass
  {
    assert !StartsWith(DashboardPath, AdminPath);
  }
}
