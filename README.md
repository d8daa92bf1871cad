# Console route reconciliation, modelled in Dafny

This project models how the IBM Common UI operator reconciles the `cp-console`
OpenShift route. One pass does four things:

- It resolves two dependencies: the secret holding the destination CA certificate, and the
  `cluster_address` entry of the cluster-info configmap.
- It builds the desired route. The route has a fixed shape: target port 3000, target `Service`
  at weight 100, no wildcard, and re-encrypt TLS with redirect.
- It fetches the live route.
- It creates the route if it is missing. If the host or the target service changed, it deletes and
  recreates the route. If anything else differs, it updates the route in place. If the routes are
  equal, it does nothing.

Before comparing, the pass merges the live route's annotations into the desired ones.
It signals "run me again" through a requeue flag.

## Files

- `api.dfy` (module `Api`): the object shapes the reconciler touches (route, secret, configmap), the
  API error kinds, and Go's `[]byte`↔`string` conversion.
- `cluster.dfy` (module `Cluster`): the cluster store.
  - As a value, `Store` holds maps from namespaced names to routes, secrets and configmaps, a log of
    every client call, and one injectable fault per kind of call.
  - As an object, class `Client` holds the same fields, and its methods update them.
  - Without a fault, a call behaves as the API server does: NotFound for a missing object and
    AlreadyExists for a create over an existing one. With a fault, that kind of call fails with the
    given error instead.
- `desired.dfy` (module `Desired`): the constants `CnRouteName`, `CnRoutePath` and `CnAnnotations`, the
  desired-route builder, the annotation merge (as a function and as the source's loop), and the
  comparisons that drive the choice of branch.
- `reconcile.dfy` (module `Reconcile`): the driver.
  - `ReconcileRoutes` and `ReconcileRoute` are imperative methods over a `Client`.
  - Each one is proved to do what the spec function `RoutesPass` / `RoutePass` says, as a
    function of the store before the pass. The Go behaviours not captured are listed under
    "Left out".
- `properties.dfy` (module `Properties`): lemmas about those spec functions, one per branch of the
  pass, plus idempotence.

Modelling choices:

- **Go out-parameter.** The `*bool` requeue flag is passed into each method and handed back.
- **Package-level annotation map.** A Go map is a reference. The builder stores the caller's map in
  the desired route, and the merge loop writes into it. So the merge changes the package-level
  `CnAnnotations`. Class `StringMap` models that map object. `ReconcileRoute` writes the merge
  result back into it, and `Outcome.annotations` is its value after the pass.
- **Route equality.** `IsRouteEqual` is defined in a file that is not part of this model. Here it
  is structural equality over name, annotations and spec. Those are exactly the fields the in-place
  update copies. The spec here holds only the fields the builder sets; see "Left out" for the rest.
- **Names and labels defined elsewhere.** `ServiceName`, `UICertSecretName`,
  `ClusterInfoConfigmapName` and `LabelsForMetadata` are not part of this model. They are fields of
  an `Env` parameter (the labels as a function of the route name).
- **Controller reference.** `SetControllerReference` is an oracle carried by the `Instance`. It
  either links (adding one owner reference) or fails.
- **Choices the code makes that a reader might not expect:**
  - *Annotation conflicts.* When a key is both in the base annotations and on the live route, the
    live route's value wins, because the merge loop overwrites (`controllers/resources/routes.go:142-144`).
    The base value does not win.
  - *Immutable fields.* Only the host and the target service name force a delete-and-recreate
    (line 148). A change of the target kind alone leads to an in-place update.
  - *Missing `cluster_address`.* The requeue flag is left as the caller passed it (line 83). It is
    not reset to false.
- **Annotation leak.** A consequence of the map aliasing is proved in `ObservedAnnotationsLeak` and
  `MissingAnnotationIsRestored`. Suppose someone hand-adds an annotation to the live route and
  later removes it. The first pass copies the annotation into the package-level map. The next pass
  then puts it back on the route with an update.

## Model

| member | source | states |
|---|---|---|
| `Api.BytesToString` | controllers/resources/routes.go:217 | `string(bytes)`: same length, each character is the byte's code, and converting back gives the bytes again |
| `Api.StringToBytes` | controllers/resources/routes.go:217 | inverse of the conversion: same length, each byte is the character's code |
| `Api.Lookup` | controllers/resources/routes.go:82 | Go map index: the stored value when the key is present, and a non-empty result only for a present key |
| `Cluster.Fetch` | controllers/resources/routes.go:53-56 | a get with a fault fails with that fault's error. Without a fault, it succeeds exactly when the key is present and returns the stored object, and a missing key gives NotFound, the error the reconciler tests for |
| `Cluster.Client.GetSecret` | controllers/resources/routes.go:53 | the secret get logs its call and returns the store's answer; nothing else changes |
| `Cluster.Client.GetConfigMap` | controllers/resources/routes.go:69 | the configmap get logs its call and returns the store's answer; nothing else changes |
| `Cluster.Client.GetRoute` | controllers/resources/routes.go:111 | the route get logs its call and returns the store's answer; nothing else changes |
| `Cluster.Client.Create` | controllers/resources/routes.go:120 | the create logs its call. It fails with the fault or AlreadyExists, or it files the route under its key |
| `Cluster.Client.Update` | controllers/resources/routes.go:171 | the update logs its call. It fails with the fault or NotFound, or it replaces the route under its key |
| `Cluster.Client.Delete` | controllers/resources/routes.go:149 | the delete logs its call. It fails with the fault or NotFound, or it removes the route's key |
| `Reconcile.CaCert` | controllers/resources/routes.go:64 | the destination CA is the secret's `ca.crt` bytes, and empty when that key is missing |
| `Reconcile.ClusterAddress` | controllers/resources/routes.go:82-86 | the host exists exactly when the data is non-nil and `cluster_address` is present and non-empty, and it is that value |
| `Reconcile.ReconcileRoutes` | controllers/resources/routes.go:47-94 | the method's final store, package-level annotations, error and requeue flag are exactly those of `RoutesPass` on the initial state |
| `Reconcile.ReconcileRoute` | controllers/resources/routes.go:96-179 | the method's final store, caller's annotation map, error and requeue flag are exactly those of `RoutePass` on the initial state |
| `Desired.GetDesiredRoute` | controllers/resources/routes.go:181-229 | it fails only when the owner link fails, with that error. Otherwise the route has the given name, namespace, annotations, host and path and the labels for the name. Its one owner reference is the instance. It has port 3000, target (`Service`, service name, weight 100), wildcard None, and Reencrypt TLS with Redirect. Its destination CA decodes back to the certificate bytes |
| `Desired.MergeAnnotations` | controllers/resources/routes.go:139-144 | after the merge, the keys are those of both maps. Every live-route key has the live value (the live route wins on conflict). A base key the live route lacks keeps the base value |
| `Desired.MergeObservedAnnotations` | controllers/resources/routes.go:142-144 | the key-by-key merge loop produces exactly `MergeAnnotations(base, observed)` |
| `Desired.ImmutableChanged` | controllers/resources/routes.go:148 | the recreate test: host or target service name differ. Whenever it holds, the routes are also unequal, so it takes precedence over the update test |
| `Desired.IsRouteEqual` | controllers/resources/routes.go:164 | the update test: two routes are equal exactly when copying the second's name, annotations and spec onto the first would change nothing |
| `Desired.WithAnnotations` | controllers/resources/routes.go:143 | the desired route after the merge: the annotations are replaced and every other metadata field (name, namespace, labels, owner references, uid, resource version) and the spec are unchanged, so the recreated route keeps the owner reference and labels of the build |
| `Desired.ApplyDesired` | controllers/resources/routes.go:167-169 | the route sent to the update equals the desired route (name, annotations, spec), so host and service are unchanged. The live route's namespace, labels, owner references, uid and resourceVersion are kept |
| `Properties.SecretUnavailable` | controllers/resources/routes.go:53-63 | if the CA secret get fails, that get is the only call. NotFound gives no error and sets requeue. Any other error is returned unchanged and the flag is left as passed |
| `Properties.ClusterInfoUnavailable` | controllers/resources/routes.go:69-80 | if the configmap get fails, only the two gets are issued and no route call. NotFound gives no error and sets requeue. Any other error is returned unchanged and the flag is left as passed |
| `Properties.ClusterAddressMissing` | controllers/resources/routes.go:82-84 | if the configmap has nil data or an empty or missing `cluster_address`, the pass returns the configuration error, issues no route call and leaves the flag as passed |
| `Properties.DependenciesResolved` | controllers/resources/routes.go:64-88 | with both dependencies present, the pass is `ReconcileRoute` for `cp-console` with the configured address, path "/", the `ca.crt` bytes and the package-level annotations |
| `Properties.OwnerLinkFails` | controllers/resources/routes.go:104-108 | if the owner link fails, the error is returned before any client call, with the flag left as passed |
| `Properties.RouteGetFails` | controllers/resources/routes.go:111-115 | if the route get fails with anything but NotFound, that error is returned, nothing is mutated and the flag is left as passed |
| `Properties.RouteMissingIsCreated` | controllers/resources/routes.go:117-134 | if the route is missing, exactly one create of the desired route is issued. Success or AlreadyExists gives no error and requeue. Any other error is returned with the flag left as passed |
| `Properties.ObservedAnnotationsLeak` | controllers/resources/routes.go:142-144 | once the live route is found, the caller's (package-level) annotation map ends up holding the merge, with every live-route annotation at its live value |
| `Properties.ImmutableChangeRecreates` | controllers/resources/routes.go:146-161 | if the host or service name changed, the calls are a delete of the live route, then a create of the merged desired route, in that order. A failed delete means no create and that error. A failed create returns its error. Requeue is set only when both succeed, and no update is issued |
| `Properties.MutableChangeUpdates` | controllers/resources/routes.go:164-176 | if host and service are unchanged but the routes are unequal, exactly one update is issued. It carries the desired name, the merged annotations, the desired spec and the rest of the live metadata unchanged. Requeue is not touched, and an update error is returned |
| `Properties.EqualRouteIsLeftAlone` | controllers/resources/routes.go:164 | if the routes are equal after the merge, only the route get is issued. The pass returns no error and leaves the flag as passed |
| `Properties.MissingAnnotationIsRestored` | controllers/resources/routes.go:142-171 | when host and service are unchanged, an annotation in the caller's map that the live route lacks is written back to the route by an update (otherwise it returns through the recreate's create, see `Properties.ImmutableChangeRecreates`) |
| `Properties.RequeueOnlySet` | controllers/resources/routes.go:58-178 | on every path, requeue is never cleared. It is set only on a pass that returns no error |
| `Properties.FirstInstallCreatesConsoleRoute` | controllers/resources/routes.go:35-45 | on a first install (the CA secret present and a cluster-info configmap, whatever its other keys, with a non-empty `cluster_address`, no route, no failures) a pass started from the initial `CnAnnotations` creates the `cp-console` route with exactly those annotations (e.g. a 90s timeout), host the cluster address, path "/", the operator's labels, the owner link, the fixed target and TLS shape and the `ca.crt` bytes as destination CA, adds no other route, returns no error and asks for a requeue |
| `Properties.FixedPointIsQuiet` | controllers/resources/routes.go:139-178 | a live route equal to the one built from the current annotations is only read: no mutation, no error, annotations unchanged |
| `Properties.RoutePassConverges` | controllers/resources/routes.go:96-179 | a fault-free pass that returns no error leaves a route equal to what the next pass builds. It leaves secrets, configmaps and faults unchanged |
| `Properties.ResolvedSecondPassIsQuiet` | controllers/resources/routes.go:47-179 | idempotence when both dependencies are present: a second pass issues no create, update or delete and returns no error |
| `Properties.SecondPassIsQuiet` | controllers/resources/routes.go:47-179 | idempotence: after a fault-free pass that returned no error, a second pass with no change in between issues no create, update or delete. It returns no error and leaves the package-level annotations as they were |

## Left out

- The Kubernetes client and its transport, and `context.Context`. They are replaced by the
  in-memory `Store`, which has one injectable fault per kind of call.
  - The model does not capture optimistic concurrency or `resourceVersion` checks on update.
  - It does not capture the server assigning a uid or resourceVersion on create.
  - It does not capture the client decoding server responses back into the objects it was handed.
- Logging (`log.WithValues`, `reqLogger.Info/Error`). It has no behavioural effect.
- `TypeMeta` (`Kind`, `APIVersion`) of the desired route. The reconciler never reads it back.
- The text of the `cluster_address` error. It is the value `ClusterAddressNotSet(configmap name)`.
- `SetControllerReference` and the scheme. The controller reference is an oracle, and a successful
  link adds exactly one owner reference to the fresh route.
- `IsRouteEqual`, `LabelsForMetadata`, `ServiceName`, `UICertSecretName` and `ClusterInfoConfigmapName`.
  These are not part of this model. Equality is structural over name, annotations and spec; the
  others are fields of `Env`.
- The `int32` width of the route weight. The weight is always 100, so no wrap-around arises.
- Concurrency between passes. This code does not contain it.
- Route fields the builder does not set. `RouteSpec` holds only host, path, port, target, wildcard
  policy and TLS termination, insecure-edge policy and destination CA. These are not represented:
  - in the spec: `alternateBackends`, `subdomain`, and TLS `certificate`, `key` and `caCertificate`;
  - in the metadata: anything other than name, namespace, annotations, labels, owner references,
    uid and resourceVersion (for example `generation`, `finalizers`, creation timestamp).
  In the Go code, a live route that differs only in one of the missing spec fields is unequal, so it
  is updated, and the update replaces the whole spec, erasing that field. The model cannot express
  such a route, so it does not capture that update or that loss.
- ReconcileRoute: the Go merge loop writes into the caller's annotation map, which panics when that
  map is nil and the live route has an annotation. A Dafny map cannot be nil, so the model treats a
  nil map as empty and the pass goes on. `ReconcileRoutes` always passes the non-nil package-level
  `CnAnnotations`, so this case cannot arise from the reconcile entry point.
