/**
 * The route guard wrapped around every page (`client/src/components/layouts/auth-layout.tsx`).
 *
 * One evaluation of the guard is a pure function of the auth context (`loading`,
 * `isAuthenticated`) and the current path. Its effect issues `router.push` calls, modelled as
 * the list of targets pushed; its render chooses between the spinner and the children.
 */
module AuthLayout {
  import opened Wrappers

  /** Routes anyone may see. */
  const PublicRoutes: seq<string> := ["/login", "/register", "/", "/about"]

  const Login := "/login"
  const Register := "/register"
  const Dashboard := "/dashboard"

  datatype View = Spinner | Children

  /** `publicRoutes.includes(pathname)`. */
  predicate IsPublic(path: string) {
    path in PublicRoutes
  }

  /** The pages a signed-in user is sent away from. */
  predicate IsAuthPage(path: string) {
    path == Login || path == Register
  }

  /**
   * The effect: nothing while loading; a guest on a protected route goes to the login page;
   * a signed-in user on the login or register page goes to the dashboard.
   */
  function Redirects(loading: bool, isAuthenticated: bool, path: string): (r: seq<string>)
    ensures |r| <= 1
    ensures loading ==> r == []
    ensures r == [Login] <==> !loading && !isAuthenticated && !IsPublic(path)
    ensures r == [Dashboard] <==> !loading && isAuthenticated && IsAuthPage(path)
    ensures r == [] <==> loading || (isAuthenticated && !IsAuthPage(path))
                             || (!isAuthenticated && IsPublic(path))
  {
    if loading then []
    else
      var toLogin := if !isAuthenticated && !IsPublic(path) then [Login] else [];
      var toDashboard := if isAuthenticated && IsAuthPage(path) then [Dashboard] else [];
      assert Dashboard[1] != Login[1];
      assert toLogin == [] || toDashboard == [];
      assert toLogin + [] == toLogin && [] + toDashboard == toDashboard;
      toLogin + toDashboard
  }

  /** The render: the spinner while loading or while a guest is on a protected route. */
  function Render(loading: bool, isAuthenticated: bool, path: string): (v: View)
    ensures v == Children <==> !loading && (isAuthenticated || IsPublic(path))
  {
    if loading then Spinner
    else if !isAuthenticated && !IsPublic(path) then Spinner
    else Children
  }

  /** The whole decision of one evaluation: where to go, if anywhere, and what to show. */
  datatype Decision = Decision(redirect: Option<string>, view: View)

  /** Since the effect pushes at most once, its one target, if any, is the decision's redirect. */
  function Decide(loading: bool, isAuthenticated: bool, path: string): (d: Decision)
    ensures d.redirect.None? <==> Redirects(loading, isAuthenticated, path) == []
    ensures d.redirect.Some? ==> Redirects(loading, isAuthenticated, path) == [d.redirect.value]
    ensures d.view == Render(loading, isAuthenticated, path)
    ensures loading ==> d == Decision(None, Spinner)
  {
    var pushes := Redirects(loading, isAuthenticated, path);
    Decision(if pushes == [] then None else Some(pushes[0]), Render(loading, isAuthenticated, path))
  }

  /** Whoever is sent to the login page never sees the protected children. */
  lemma LoginRedirectHidesChildren(loading: bool, isAuthenticated: bool, path: string)
    ensures Decide(loading, isAuthenticated, path).redirect == Some(Login) ==>
      Decide(loading, isAuthenticated, path).view == Spinner
  {
  }

  /** The redirect targets are themselves public, so following one never redirects a guest again. */
  lemma RedirectTargetsSettle(isAuthenticated: bool, path: string, target: string)
    requires Redirects(false, isAuthenticated, path) == [target]
    ensures target == Login ==> Redirects(false, isAuthenticated, target) == []
    ensures target == Dashboard ==> Redirects(false, isAuthenticated, target) == []
  {
  }

  /** A signed-in user sent from the login page to the dashboard still has the login page rendered meanwhile. */
  lemma DashboardRedirectKeepsChildren(path: string)
    requires IsAuthPage(path)
    ensures Decide(false, true, path) == Decision(Some(Dashboard), Children)
  {
  }
}
