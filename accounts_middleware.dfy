/** The role redirect middleware of the accounts application. */
module AccountMiddleware {
  import opened Wrappers
  import opened AccountModels
  import AccountViews

  /** The path of the site root. */
  const RootPath: string := "/"

  /** A middleware wraps the next handler of the request chain. */
  class RoleRedirectMiddleware<Request, Response> {
    const getResponse: Request -> Response

    /** `__init__` only keeps the next handler. */
    constructor (getResponse: Request -> Response)
      ensures this.getResponse == getResponse
    {
      this.getResponse := getResponse;
    }

    /** `__call__` passes the request on and returns the downstream response unchanged. */
    method Call(request: Request) returns (response: Response)
      ensures response == getResponse(request)
    {
      response := getResponse(request);
    }

    /** `process_view` on a request for `path`: for an authenticated user the verifier
        test comes first, then owner, then administrator; every other request gets no
        redirect (`None`). The path plays no part in the decision. */
    function ProcessView(principal: Principal, path: string): (r: Option<Route>)
      ensures principal.Anonymous? ==> r == None
      ensures principal.Authenticated? && IsVerifier(principal.user) ==> r == Some(VerifyCodePage)
      ensures principal.Authenticated? && !IsVerifier(principal.user) && IsOwner(principal.user)
        ==> r == Some(DashboardPage)
      ensures principal.Authenticated? && !IsVerifier(principal.user) && !IsOwner(principal.user)
        ==> r == (if IsAdmin(principal.user) then Some(AdminSite) else None)
    {
      if principal.Authenticated? then
        var u := principal.user;
        if IsVerifier(u) then Some(VerifyCodePage)
        else if IsOwner(u) then Some(DashboardPage)
        else if IsAdmin(u) then Some(AdminSite)
        else None
      else None
    }

    /** Since the path plays no part, a verifier, owner or administrator who follows the
        redirect to its target (at `paths(target)`) is redirected to the same target
        again, on every request. */
    lemma RedirectsItsOwnTarget(u: User, paths: Route -> string, path: string)
      requires IsVerifier(u) || IsOwner(u) || IsAdmin(u)
      ensures var t := ProcessView(Authenticated(u), path);
        t.Some? && ProcessView(Authenticated(u), paths(t.value)) == t
    {
    }

    /** `process_view` as its comment describes it: the role redirect applies to a
        request for the root only, and every other request goes on to its view. */
    function ProcessViewAtRoot(principal: Principal, path: string): (r: Option<Route>)
      ensures path != RootPath ==> r == None
      ensures path == RootPath ==> r == ProcessView(principal, path)
    {
      if path == RootPath then ProcessView(principal, path) else None
    }

    /** With the redirect limited to the root, following it reaches the target view,
        whenever the target is not the root itself. */
    lemma RootRedirectSettles(principal: Principal, paths: Route -> string)
      ensures var t := ProcessViewAtRoot(principal, RootPath);
        t.Some? && paths(t.value) != RootPath ==> ProcessViewAtRoot(principal, paths(t.value)) == None
      ensures principal.Authenticated? && IsVerifier(principal.user) ==>
        ProcessViewAtRoot(principal, RootPath) == Some(VerifyCodePage)
    {
    }

    /** The middleware and `role_based_redirect` agree for verifiers and owners. They part
        only for an administrator who is neither: the middleware sends them to the admin
        site, the view to the dashboard. A user off the declared roles who is no superuser
        gets no redirect from the middleware and `home` from the view. */
    lemma AgreesWithRoleBasedRedirect(u: User)
      ensures IsVerifier(u) || IsOwner(u) ==>
        ProcessView(Authenticated(u), RootPath) == Some(AccountViews.RoleBasedRedirect(u))
      ensures !IsVerifier(u) && !IsOwner(u) && IsAdmin(u) ==>
        ProcessView(Authenticated(u), RootPath) == Some(AdminSite) &&
        AccountViews.RoleBasedRedirect(u) == DashboardPage
      ensures ProcessView(Authenticated(u), RootPath) == None <==>
        AccountViews.RoleBasedRedirect(u) == HomePage
    {
    }
  }
}
