/** The access decorators of the accounts application. Each wraps a view: it denies the
    request (PermissionDenied), redirects it, or calls the view with the request unchanged. */
module AccountDecorators {
  import opened Wrappers
  import opened AccountModels

  /** A request as the decorators see it: who sends it, and everything else it carries. */
  datatype Request<P> = Request(principal: Principal, payload: P)

  /** What a decorated view yields: a denial, a redirect, or the wrapped view's response. */
  datatype Guarded<R> = Denied | Redirected(route: Route) | Handled(response: R)

  /** `admin_required`: the view runs exactly for an authenticated administrator. */
  function AdminRequired<P, R>(view: Request<P> -> R, request: Request<P>): (g: Guarded<R>)
    ensures g.Handled? <==> request.principal.Authenticated? && IsAdmin(request.principal.user)
    ensures g.Handled? ==> g.response == view(request)
    ensures !g.Handled? ==> g.Denied?
  {
    if !request.principal.Authenticated? then Denied
    else if !IsAdmin(request.principal.user) then Denied
    else Handled(view(request))
  }

  /** `owner_required`: the view runs exactly for an authenticated owner or administrator. */
  function OwnerRequired<P, R>(view: Request<P> -> R, request: Request<P>): (g: Guarded<R>)
    ensures g.Handled? <==>
      request.principal.Authenticated? &&
      (IsOwner(request.principal.user) || IsAdmin(request.principal.user))
    ensures g.Handled? ==> g.response == view(request)
    ensures !g.Handled? ==> g.Denied?
  {
    if !request.principal.Authenticated? then Denied
    else if !(IsOwner(request.principal.user) || IsAdmin(request.principal.user)) then Denied
    else Handled(view(request))
  }

  /** The truth value of `request.user.is_owner` written without a call: a bound method
      object, which Python always treats as true. */
  function UncalledIsOwner(u: User): bool {
    true
  }

  /** `verifier_allowed` as written: its guard reads `is_verifier() or is_owner`, so it
      holds for every authenticated user, every authenticated request reaches the view,
      and the redirect branch under it can never be taken. */
  function VerifierAllowed<P, R>(view: Request<P> -> R, request: Request<P>): (g: Guarded<R>)
    ensures g.Handled? <==> request.principal.Authenticated?
    ensures g.Denied? <==> request.principal.Anonymous?
    ensures !g.Redirected?
    ensures g.Handled? ==> g.response == view(request)
  {
    if !request.principal.Authenticated? then Denied
    else
      var u := request.principal.user;
      if !(IsVerifier(u) || UncalledIsOwner(u)) then
        if IsOwner(u) || IsAdmin(u) then Redirected(DashboardPage) else Denied
      else Handled(view(request))
  }

  /** `verifier_allowed` with the call added, guard `is_verifier() or is_owner()`:
      verifiers and owners reach the view, other administrators go to the dashboard, and
      anyone else is denied. Under this guard the `is_owner()` test of the redirect
      branch can no longer hold. */
  function VerifierAllowedCorrected<P, R>(view: Request<P> -> R, request: Request<P>): (g: Guarded<R>)
    ensures g.Handled? <==>
      request.principal.Authenticated? &&
      (IsVerifier(request.principal.user) || IsOwner(request.principal.user))
    ensures g.Redirected? <==>
      request.principal.Authenticated? &&
      !IsVerifier(request.principal.user) && !IsOwner(request.principal.user) &&
      IsAdmin(request.principal.user)
    ensures g.Redirected? ==> g.route == DashboardPage
    ensures g.Handled? ==> g.response == view(request)
  {
    if !request.principal.Authenticated? then Denied
    else
      var u := request.principal.user;
      if !(IsVerifier(u) || IsOwner(u)) then
        if IsOwner(u) || IsAdmin(u) then Redirected(DashboardPage) else Denied
      else Handled(view(request))
  }

  /** `verifier_allowed` as its documentation describes it, guard `is_verifier()`: only
      verifiers reach the view, owners and administrators go to the dashboard, and anyone
      else is denied. */
  function VerifierAllowedVerifiersOnly<P, R>(view: Request<P> -> R, request: Request<P>): (g: Guarded<R>)
    ensures g.Handled? <==> request.principal.Authenticated? && IsVerifier(request.principal.user)
    ensures g.Redirected? <==>
      request.principal.Authenticated? && !IsVerifier(request.principal.user) &&
      (IsOwner(request.principal.user) || IsAdmin(request.principal.user))
    ensures g.Redirected? ==> g.route == DashboardPage
    ensures g.Handled? ==> g.response == view(request)
  {
    if !request.principal.Authenticated? then Denied
    else
      var u := request.principal.user;
      if !IsVerifier(u) then
        if IsOwner(u) || IsAdmin(u) then Redirected(DashboardPage) else Denied
      else Handled(view(request))
  }

  /** Every view the administrator decorator lets through, the owner decorator lets
      through too, and what that one lets through `verifier_allowed` lets through as
      written and, under either correction, lets through or redirects to the dashboard. */
  lemma DecoratorsNest<P, R>(view: Request<P> -> R, request: Request<P>)
    ensures AdminRequired(view, request).Handled? ==> OwnerRequired(view, request).Handled?
    ensures OwnerRequired(view, request).Handled? ==> VerifierAllowed(view, request).Handled?
    ensures OwnerRequired(view, request).Handled? ==> !VerifierAllowedCorrected(view, request).Denied?
    ensures OwnerRequired(view, request).Handled? ==> !VerifierAllowedVerifiersOnly(view, request).Denied?
  {
  }

  /** The discrepancy of `verifier_allowed`: an authenticated administrator who is neither
      verifier nor owner reaches the view as written, while both corrected guards send
      them to the dashboard; an owner reaches it as written and with `is_owner()` called,
      while the verifier-only guard sends them to the dashboard; a user whose role is off
      the declared choices reaches the view as written, while both corrections deny them. */
  lemma VerifierAllowedAdmitsNonVerifiers<P, R>(view: Request<P> -> R, payload: P)
    ensures
      var admin := User(1, "root", "root@example.org", ADMIN, false, None, "");
      var request := Request(Authenticated(admin), payload);
      && VerifierAllowed(view, request).Handled?
      && VerifierAllowedCorrected(view, request) == Redirected(DashboardPage)
      && VerifierAllowedVerifiersOnly(view, request) == Redirected(DashboardPage)
    ensures
      var owner := User(3, "shop", "shop@example.org", OWNER, false, None, "");
      var request := Request(Authenticated(owner), payload);
      && VerifierAllowed(view, request).Handled?
      && VerifierAllowedCorrected(view, request).Handled?
      && VerifierAllowedVerifiersOnly(view, request) == Redirected(DashboardPage)
    ensures
      var stranger := User(2, "guest", "guest@example.org", "guest", false, None, "");
      var request := Request(Authenticated(stranger), payload);
      && VerifierAllowed(view, request).Handled?
      && VerifierAllowedCorrected(view, request).Denied?
      && VerifierAllowedVerifiersOnly(view, request).Denied?
  {
  }
}
