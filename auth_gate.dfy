/**
 * The authentication gate of the director's API controllers, as the
 * `TestController` subclass of `BaseController` and its examples pin it
 * down: whether a request must be authenticated, what happens when it is
 * not, and what the route body shows of the principal.
 *
 * The HTTP harness and the Basic header encoding are abstracted away: a
 * request is a path and an optional (user, secret) pair, and the identity
 * provider is the set of credentials it accepts.
 */
module AuthGate {
  import opened Wrappers

  /** The (user, secret) pair carried by a Basic Authorization header. */
  datatype Credential = Credential(user: string, secret: string)

  /** A request as the gate sees it. */
  datatype Request = Request(path: string, credential: Option<Credential>)

  /** Status, body, and whether the Date header is present. */
  datatype Response = Response(status: int, body: string, hasDate: bool)

  /** An identity provider, seen only through which credentials it accepts. */
  type IdentityProvider = Credential -> bool

  /** A controller instance: its identity provider and the constructor's override. */
  datatype Controller = Controller(identityProvider: IdentityProvider, alwaysAuthenticatedOverride: Option<bool>)

  const StatusOk: int := 200
  const StatusUnauthorized: int := 401
  const StatusNotFound: int := 404

  /** What `BaseController#always_authenticated?` answers when not overridden. */
  const DefaultAlwaysAuthenticated: bool := true

  /** The one route `TestController` defines, and one it does not. */
  const TestRoute: string := "/test_route"
  const InvalidRoute: string := "/invalid_route"

  const SuccessPrefix: string := "Success with: "
  const NoUser: string := "No user"

  /** Bodies of the refusal responses; their text is not fixed by the examples. */
  const UnauthorizedBody: string := "Not authorized"
  const NotFoundBody: string := "Not Found"

  /** The credential the examples authenticate with. */
  const Admin: Credential := Credential("admin", "admin")

  /** The identity provider of the examples accepts admin/admin. */
  predicate AcceptsAdmin(provider: IdentityProvider)
  {
    provider(Admin)
  }

  /** `TestController.new(identity_provider, always_authenticated)`. */
  function NewTestController(identityProvider: IdentityProvider, alwaysAuthenticated: Option<bool>): (c: Controller)
    ensures c.identityProvider == identityProvider
    ensures c.alwaysAuthenticatedOverride == alwaysAuthenticated
    ensures AuthRequired(c) <==> alwaysAuthenticated != Some(false)
  {
    Controller(identityProvider, alwaysAuthenticated)
  }

  /** `always_authenticated?`: the override when one was given, otherwise the inherited default. */
  function AlwaysAuthenticated(override: Option<bool>): (r: bool)
    ensures override.None? ==> r == DefaultAlwaysAuthenticated
    ensures override.Some? ==> r == override.value
    ensures !r <==> override == Some(false)
  {
    if override.None? then DefaultAlwaysAuthenticated else override.value
  }

  predicate AuthRequired(c: Controller)
  {
    AlwaysAuthenticated(c.alwaysAuthenticatedOverride)
  }

  /** A credential was presented and the identity provider accepted it. */
  predicate Authenticated(c: Controller, req: Request)
  {
    req.credential.Some? && c.identityProvider(req.credential.value)
  }

  predicate RouteExists(path: string)
  {
    path == TestRoute
  }

  /** The body of `get '/test_route'`: the prefix, then the user or "No user". */
  function RouteBody(user: Option<string>): (body: string)
    ensures |SuccessPrefix| <= |body|
    ensures body[..|SuccessPrefix|] == SuccessPrefix
    ensures body[|SuccessPrefix|..] == user.GetOr(NoUser)
  {
    SuccessPrefix + user.GetOr(NoUser)
  }

  /** Reads the shown name back out of a route body, if it is one. */
  function ShownUser(body: string): (shown: Option<string>)
    ensures shown.Some? <==> |SuccessPrefix| <= |body| && body[..|SuccessPrefix|] == SuccessPrefix
    ensures shown.Some? ==> body == SuccessPrefix + shown.value
  {
    if |SuccessPrefix| <= |body| && body[..|SuccessPrefix|] == SuccessPrefix
    then Some(body[|SuccessPrefix|..])
    else None
  }

  /** Every response goes out with a Date header, whatever the decision. */
  function Send(status: int, body: string): Response
  {
    Response(status, body, true)
  }

  /** Route dispatch once the gate has let the request through with `user` attached. */
  function Dispatch(path: string, user: Option<string>): (r: Response)
    ensures r.hasDate
    ensures r.status == StatusOk <==> RouteExists(path)
    ensures r.status != StatusOk ==> r.status == StatusNotFound && r.body == NotFoundBody
    ensures r.status == StatusOk ==> ShownUser(r.body) == Some(user.GetOr(NoUser))
  {
    if RouteExists(path) then Send(StatusOk, RouteBody(user)) else Send(StatusNotFound, NotFoundBody)
  }

  /**
   * The gate in front of every route: when authentication is required, a
   * missing or rejected credential is answered 401 before the route is
   * looked up; otherwise the request is dispatched, 404 if no route matches.
   */
  function Respond(c: Controller, req: Request): (r: Response)
    ensures r.hasDate
    ensures r.status == StatusUnauthorized <==> AuthRequired(c) && !Authenticated(c, req)
    ensures r.status == StatusNotFound <==> !RouteExists(req.path) && (AuthRequired(c) ==> Authenticated(c, req))
    ensures r.status == StatusOk <==> RouteExists(req.path) && (AuthRequired(c) ==> Authenticated(c, req))
    ensures r.status == StatusUnauthorized ==> r.body == UnauthorizedBody
    ensures r.status == StatusNotFound ==> r.body == NotFoundBody
    ensures r.status == StatusOk && AuthRequired(c) ==> ShownUser(r.body) == Some(req.credential.value.user)
    ensures r.status == StatusOk && !AuthRequired(c) ==> ShownUser(r.body) == Some(NoUser)
  {
    if !AlwaysAuthenticated(c.alwaysAuthenticatedOverride) then
      Dispatch(req.path, None)
    else
      match req.credential
      case None => Send(StatusUnauthorized, UnauthorizedBody)
      case Some(credential) =>
        if c.identityProvider(credential) then Dispatch(req.path, Some(credential.user))
        else Send(StatusUnauthorized, UnauthorizedBody)
  }

  // ---------------------------------------------------------------------------
  // Properties of the gate

  /** The route body gives back exactly the user it was rendered with, or "No user". */
  lemma RouteBodyRoundTrip(user: Option<string>)
    ensures ShownUser(RouteBody(user)) == Some(user.GetOr(NoUser))
  {
  }

  /** Two different users never get the same route body. */
  lemma RouteBodyDistinguishesUsers(u: string, v: string)
    requires RouteBody(Some(u)) == RouteBody(Some(v))
    ensures u == v
  {
  }

  /** `@user || 'No user'`: a user literally named "No user" is rendered like no user at all. */
  lemma AnonymousBodyMatchesUserNamedNoUser()
    ensures RouteBody(Some(NoUser)) == RouteBody(None)
  {
  }

  /**
   * Without a credential, a gate that requires authentication answers
   * every path the same way, so routes cannot be probed.
   */
  lemma UnauthenticatedCannotProbeRoutes(c: Controller, p: string, q: string)
    requires AuthRequired(c)
    ensures Respond(c, Request(p, None)) == Respond(c, Request(q, None))
    ensures Respond(c, Request(p, None)).status == StatusUnauthorized
  {
  }

  /**
   * A credential the provider rejects is answered exactly like a missing
   * one, so a caller learns nothing about why it was refused.
   */
  lemma RejectedLooksLikeMissing(c: Controller, path: string, credential: Credential)
    requires AuthRequired(c) && !c.identityProvider(credential)
    ensures Respond(c, Request(path, Some(credential))) == Respond(c, Request(path, None))
  {
  }

  /**
   * A 200 is given only when the route exists and either authentication is
   * off or the presented credential was accepted; a principal name is shown
   * only in the second case.
   */
  lemma OkOnlyWhenPermitted(c: Controller, req: Request)
    requires Respond(c, req).status == StatusOk
    ensures RouteExists(req.path)
    ensures !AuthRequired(c) || Authenticated(c, req)
    ensures ShownUser(Respond(c, req).body) != Some(NoUser) ==> AuthRequired(c) && Authenticated(c, req)
  {
  }

  /** When authentication is off, the credential makes no difference and no principal is attached. */
  lemma OverrideIgnoresCredential(c: Controller, path: string, credential: Option<Credential>)
    requires c.alwaysAuthenticatedOverride == Some(false)
    ensures Respond(c, Request(path, credential)) == Dispatch(path, None)
  {
  }

  /** An accepted credential reaches routing: 200 with the user's name, or 404. */
  lemma AuthenticatedReachesRouting(c: Controller, path: string, credential: Credential)
    requires c.identityProvider(credential)
    ensures Respond(c, Request(path, Some(credential))).status == (if RouteExists(path) then StatusOk else StatusNotFound)
    ensures RouteExists(path) && AuthRequired(c) ==>
      Respond(c, Request(path, Some(credential))).body == RouteBody(Some(credential.user))
  {
  }

  // ---------------------------------------------------------------------------
  // The examples

  lemma SetsTheDateHeader(provider: IdentityProvider)
    ensures Respond(NewTestController(provider, None), Request(TestRoute, None)).hasDate
  {
  }

  lemma RequiresAuthentication(provider: IdentityProvider)
    ensures Respond(NewTestController(provider, None), Request(TestRoute, None)).status == 401
  {
  }

  lemma RequiresAuthenticationEvenForInvalidRoutes(provider: IdentityProvider)
    ensures Respond(NewTestController(provider, None), Request(InvalidRoute, None)).status == 401
  {
  }

  lemma SucceedsWhenAuthenticated(provider: IdentityProvider)
    requires AcceptsAdmin(provider)
    ensures Respond(NewTestController(provider, None), Request(TestRoute, Some(Admin))).status == 200
    ensures Respond(NewTestController(provider, None), Request(TestRoute, Some(Admin))).body == "Success with: admin"
  {
  }

  lemma SkipsAuthorization(provider: IdentityProvider)
    ensures Respond(NewTestController(provider, Some(false)), Request(TestRoute, None)).status == 200
    ensures Respond(NewTestController(provider, Some(false)), Request(TestRoute, None)).body == "Success with: No user"
  {
  }

  lemma SkipsAuthorizationForInvalidRoutes(provider: IdentityProvider)
    ensures Respond(NewTestController(provider, Some(false)), Request(InvalidRoute, None)).status == 404
  {
  }
}
