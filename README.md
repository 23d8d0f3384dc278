# BOSH: director API authentication gate and agent apply orchestration

This project models two small decision components of BOSH in Dafny and proves what they promise.

1. **Authentication gate** (`AuthGate`, `auth_gate.dfy`). Every director API controller derives from
   `BaseController`. Before a route runs, the controller decides whether the request must be
   authenticated. That decision depends on `always_authenticated?`, which defaults to true and which
   `TestController` can override at construction. When authentication is required, a missing or
   rejected Basic credential gets 401, whether or not the route exists. Otherwise the request is
   routed: 200 with the route's body, or 404. The `/test_route` body names the authenticated user,
   or says "No user". A request is a path plus an optional (user, secret) pair. The identity
   provider is the predicate of credentials it accepts; the examples need only that it accepts
   `admin`/`admin`. `Respond` is a total function, and each example of the controller spec is a
   lemma about it.
2. **Apply orchestration** (`Applier`, `applier.dfy`). `concreteApplier.Apply` runs the job applier
   on each job in order, then the package applier on each package in order, and stops at the first
   error. If every job and package succeeds, it sets up log rotation for the vcap user and base
   directory with the spec's maximum log file size. A logrotate error is wrapped with
   "Logrotate setup failed". Each collaborator is an oracle from its arguments to nil or an error.
   `Apply` is a method with two `for` loops and early returns. It also returns a ghost trace of the
   calls it makes. Its postconditions tie the error and the trace to the specification functions
   `ApplyResult` and `ApplyCalls`, and the lemmas prove the ordering and short-circuit properties
   about those functions. The trace is written by `Apply` itself, one append right after each
   collaborator call. Nothing outside the method body ties the trace to the calls actually made.
   The trace properties therefore hold for the body as written, in which every oracle call is
   followed by its append.

`wrappers.dfy` holds the `Option` type. It stands for Ruby's `nil` and for Go's `nil` error.

## Model

| member | source | states |
|---|---|---|
| AuthGate.NewTestController | bosh-director/spec/unit/api/controllers/base_controller_spec.rb:9-12 | the controller keeps the given identity provider and override unchanged; authentication is required unless the override is `false` |
| AuthGate.AlwaysAuthenticated | bosh-director/spec/unit/api/controllers/base_controller_spec.rb:17-19 | with no override (nil) the answer is the inherited default, true; otherwise it is the override; it is false exactly when the override is `false` |
| AuthGate.RouteBody | bosh-director/spec/unit/api/controllers/base_controller_spec.rb:13-15 | the body starts with "Success with: " and the rest is the user's name, or "No user" when no user is set |
| AuthGate.RouteBodyRoundTrip | bosh-director/spec/unit/api/controllers/base_controller_spec.rb:13-15 | reading the name back out of a route body gives the user it was rendered with, or "No user" |
| AuthGate.RouteBodyDistinguishesUsers | bosh-director/spec/unit/api/controllers/base_controller_spec.rb:14 | two different users never get the same body |
| AuthGate.AnonymousBodyMatchesUserNamedNoUser | bosh-director/spec/unit/api/controllers/base_controller_spec.rb:14 | because of `@user \|\| 'No user'`, a user named "No user" gets the same body as a request with no user |
| AuthGate.Dispatch | bosh-director/spec/unit/api/controllers/base_controller_spec.rb:13-15 | once past the gate, `/test_route` answers 200 with a body that shows the attached user (or "No user"); any other path answers 404 |
| AuthGate.Respond | bosh-director/spec/unit/api/controllers/base_controller_spec.rb:50-87 | the decision table: 401 exactly when authentication is required and no accepted credential was presented; 404 exactly when the route is missing and the gate let the request through; 200 exactly when the route exists and the gate let it through, with the credential's user shown when authentication was required and "No user" when it was not; the Date header on every path |
| AuthGate.UnauthenticatedCannotProbeRoutes | bosh-director/spec/unit/api/controllers/base_controller_spec.rb:55-63 | without a credential, a gate that requires authentication gives the same 401 response for every path, existing or not |
| AuthGate.RejectedLooksLikeMissing | bosh-director/spec/unit/api/controllers/base_controller_spec.rb:55-72 | a credential the identity provider rejects gets exactly the response a missing credential gets; the cited lines show only the missing-credential 401 (55-63) and the accepted credential (65-72), so answering a rejected credential with 401 is the model's reading (see "## Left out") |
| AuthGate.OkOnlyWhenPermitted | bosh-director/spec/unit/api/controllers/base_controller_spec.rb:55-87 | a 200 implies the route exists and either authentication is off or an accepted credential was presented; a name other than "No user" shows only in the second case |
| AuthGate.OverrideIgnoresCredential | bosh-director/spec/unit/api/controllers/base_controller_spec.rb:75-87 | with the override `false`, a request is routed with no user attached: 200 with "No user" on `/test_route`, 404 elsewhere, as the two examples show without a credential; that a credential is ignored in this mode too is a choice of the model (see "## Left out") |
| AuthGate.AuthenticatedReachesRouting | bosh-director/spec/unit/api/controllers/base_controller_spec.rb:65-72 | an accepted credential gets 200 on an existing route and 404 on a missing one; with authentication required, the 200 body is the route body for that user; the cited lines show only the existing route (200, "Success with: admin"), so the 404 on a missing route is the model's reading (see "## Left out") |
| AuthGate.SetsTheDateHeader | bosh-director/spec/unit/api/controllers/base_controller_spec.rb:50-53 | `GET /test_route` without a credential carries the Date header |
| AuthGate.RequiresAuthentication | bosh-director/spec/unit/api/controllers/base_controller_spec.rb:55-58 | in default mode, `GET /test_route` without a credential gets 401 |
| AuthGate.RequiresAuthenticationEvenForInvalidRoutes | bosh-director/spec/unit/api/controllers/base_controller_spec.rb:60-63 | in default mode, `GET /invalid_route` without a credential gets 401, not 404 |
| AuthGate.SucceedsWhenAuthenticated | bosh-director/spec/unit/api/controllers/base_controller_spec.rb:65-72 | with a provider that accepts admin/admin, `GET /test_route` as admin gets 200 and the body "Success with: admin" |
| AuthGate.SkipsAuthorization | bosh-director/spec/unit/api/controllers/base_controller_spec.rb:75-82 | with the override `false`, `GET /test_route` without a credential gets 200 and "Success with: No user" |
| AuthGate.SkipsAuthorizationForInvalidRoutes | bosh-director/spec/unit/api/controllers/base_controller_spec.rb:84-87 | with the override `false`, `GET /invalid_route` gets 404, not 401 |
| Applier.ConcreteApplier.constructor | go_agent/src/bosh/agent/applier/concrete_applier.go:17-27 | the job applier, package applier and logrotate delegate are stored unchanged |
| Applier.FirstFailure | go_agent/src/bosh/agent/applier/concrete_applier.go:30-42 | the index where a loop stops: every earlier item succeeded, and the item there failed unless the index is past the end |
| Applier.LogrotateResult | go_agent/src/bosh/agent/applier/concrete_applier.go:47-57 | nil exactly when the delegate returns nil; otherwise the delegate's error wrapped with "Logrotate setup failed" |
| Applier.ConcreteApplier.SetUpLogrotate | go_agent/src/bosh/agent/applier/concrete_applier.go:47-57 | makes a single delegate call with `VCAP_USERNAME`, `VCAP_BASE_DIR` and the spec's maximum log file size, and returns `LogrotateResult` |
| Applier.ConcreteApplier.Apply | go_agent/src/bosh/agent/applier/concrete_applier.go:29-45 | returns `ApplyResult` and makes exactly the calls of `ApplyCalls`; the loop invariants say every earlier item succeeded and the trace so far is the calls for the jobs (then the packages) handled so far |
| Applier.JobsAppliedInOrderFirst | go_agent/src/bosh/agent/applier/concrete_applier.go:30-35 | every job call in the trace is for the job at the same position, and no job call comes after a call of another kind |
| Applier.JobFailureShortCircuits | go_agent/src/bosh/agent/applier/concrete_applier.go:31-34 | if job i is the first to fail, Apply returns that error and the trace is exactly jobs 0..i, with no package or logrotate call |
| Applier.PackagesOnlyAfterAllJobs | go_agent/src/bosh/agent/applier/concrete_applier.go:37-42 | a package call appears only when every job succeeded; it comes after all job calls, at the position of its package in the spec |
| Applier.PackageFailureShortCircuits | go_agent/src/bosh/agent/applier/concrete_applier.go:38-41 | if package p is the first to fail after all jobs succeeded, Apply returns that error unchanged; the trace is all jobs then packages 0..p, with no logrotate call |
| Applier.LogrotateCalledOnceLast | go_agent/src/bosh/agent/applier/concrete_applier.go:44-52 | logrotate setup is called exactly when every job and package succeeded; it is then called once, last, with the vcap user, the vcap base dir and the spec's maximum log file size |
| Applier.AllSucceedRunsLogrotate | go_agent/src/bosh/agent/applier/concrete_applier.go:44 | when every job and package succeeds, Apply returns the logrotate result, and the trace is all jobs, then all packages, then the logrotate call |
| Applier.LogrotateFailureIsWrapped | go_agent/src/bosh/agent/applier/concrete_applier.go:53-55 | when logrotate setup fails with e, Apply returns e wrapped with "Logrotate setup failed" |
| Applier.ApplySucceedsIff | go_agent/src/bosh/agent/applier/concrete_applier.go:29-57 | Apply returns nil exactly when every job, every package and the logrotate setup succeed |
| Applier.StopsAtFirstFailure | go_agent/src/bosh/agent/applier/concrete_applier.go:29-45 | the trace is never empty, every call but the last succeeded, and Apply returns the last call's answer (wrapped if it is the logrotate call) |

## Left out

- `BaseController` is not part of this model. Its behaviour is taken from `TestController` and the examples. The exact texts of the 401 and 404 bodies are not fixed by those. The model uses the placeholders "Not authorized" and "Not Found".
- Two cells of the `Respond` table are the model's reading of a gate that requires authentication, and no example presents them: a credential the identity provider rejects gets 401, and an accepted credential on a route that does not exist gets 404.
- When authentication is not required, the model ignores any credential the request carries and attaches no user. The examples only cover requests without a credential in that mode.
- The route table is `TestController`'s single route, `/test_route`. Other HTTP methods and Sinatra's routing are not modelled.
- The Rack/Sinatra HTTP harness and the Base64 decoding of the Basic Authorization header are left out. This is transport; the gate sees a path and an optional (user, secret) pair.
- The internals of `LocalIdentityProvider` and `UserManager` are not part of this model. The identity provider is a predicate on credentials.
- The director configuration loading, the temporary directory and blobstore fixture, and their cleanup are left out. They are test setup with filesystem effects.
- The value of the Date header is left out, because it is the clock. Only its presence is modelled.
- Concurrent requests and identity-provider timeouts are left out. The gate is a pure function of one request.
- The real `JobApplier`, `PackageApplier` and `LogrotateDelegate` are not part of this model. They do filesystem and process work. Each is an oracle that answers the same argument the same way.
- `bosherr.WrapError` is modelled only as a wrapped error that keeps its cause and adds a message.
- `bosh/settings` is not part of this model. `VCAP_USERNAME` and `VCAP_BASE_DIR` are the constants "vcap" and "/var/vcap".
