/**
 * The desired console route: the constants it is built from, the builder,
 * the merge of annotations found on the live route, and the comparisons the
 * reconcile driver makes between the live route and the desired one.
 */
module Desired {
  import opened Api

  const CnRouteName: string := "cp-console"
  const CnRoutePath: string := "/"

  /**
   * The initial value of the package-level annotation map. A pass takes the
   * map object's current contents as a parameter, since the merge writes into
   * it; FirstInstallCreatesConsoleRoute starts a pass from this value.
   */
  const CnAnnotations: map<string, string> := map[
    "haproxy.router.openshift.io/timeout" := "90s",
    "haproxy.router.openshift.io/pod-concurrent-connections" := "100",
    "haproxy.router.openshift.io/rate-limit-connections" := "true",
    "haproxy.router.openshift.io/rate-limit-connections.concurrent-tcp" := "100",
    "haproxy.router.openshift.io/rate-limit-connections.rate-http" := "100",
    "haproxy.router.openshift.io/rate-limit-connections.rate-tcp" := "100"
  ]

  const RouteTargetPort: int := 3000
  const ServiceKind: string := "Service"
  const FullWeight: int := 100

  /**
   * Names and the labelling convention defined elsewhere in the operator:
   * the service the route points at, the secret holding the destination CA,
   * the configmap holding the cluster address, and LabelsForMetadata.
   */
  datatype Env = Env(
    serviceName: string,
    certSecretName: string,
    clusterInfoName: string,
    labelsFor: string -> map<string, string>)

  /** What setting the controller reference on a new route yields. */
  datatype OwnerLink = Linked(ref: OwnerReference) | LinkFailed(reason: string)

  /** The custom resource being reconciled: its namespace, and how linking a route to it turns out. */
  datatype Instance = Instance(namespace: string, ownerLink: OwnerLink)

  /** The parts of a route spec every desired route has, whatever the inputs. */
  predicate FixedShape(spec: RouteSpec, serviceName: string) {
    && spec.port == Some(RoutePort(IntVal(RouteTargetPort)))
    && spec.to == TargetReference(ServiceKind, serviceName, Some(FullWeight))
    && spec.wildcardPolicy == WildcardPolicyNone
    && spec.tls.Some?
    && spec.tls.value.termination == TLSTerminationReencrypt
    && spec.tls.value.insecureEdgeTerminationPolicy == InsecureEdgeTerminationPolicyRedirect
  }

  /**
   * The route the operator wants: the given identity, annotations, host and
   * path, the operator's labels, the fixed target and TLS settings, the
   * certificate bytes as destination CA, and the instance as controller.
   * Linking the route to the instance is the only step that can fail.
   */
  function GetDesiredRoute(env: Env, ownerLink: OwnerLink, name: string, namespace: string,
                           annotations: map<string, string>, routeHost: string, routePath: string,
                           destinationCACert: seq<byte>): (r: Result<Route, Error>)
    ensures r.Failure? <==> ownerLink.LinkFailed?
    ensures r.Failure? ==> r.error == OwnerRefFailed(ownerLink.reason)
    ensures r.Success? ==>
      && r.value.Id() == Key(namespace, name)
      && r.value.meta.annotations == annotations
      && r.value.meta.labels == env.labelsFor(name)
      && r.value.meta.ownerReferences == [ownerLink.ref]
      && r.value.spec.host == routeHost
      && r.value.spec.path == routePath
      && FixedShape(r.value.spec, env.serviceName)
      && IsByteString(r.value.spec.tls.value.destinationCACertificate)
      && StringToBytes(r.value.spec.tls.value.destinationCACertificate) == destinationCACert
  {
    var meta := ObjectMeta(name, namespace, annotations, env.labelsFor(name), [], "", "");
    var spec := RouteSpec(
      routeHost,
      routePath,
      Some(RoutePort(IntVal(RouteTargetPort))),
      TargetReference(ServiceKind, env.serviceName, Some(FullWeight)),
      WildcardPolicyNone,
      Some(TLSConfig(TLSTerminationReencrypt, InsecureEdgeTerminationPolicyRedirect,
                     BytesToString(destinationCACert))));
    match ownerLink
    case LinkFailed(reason) => Failure(OwnerRefFailed(reason))
    case Linked(ref) => Success(Route(meta.(ownerReferences := [ref]), spec))
  }

  /**
   * The desired annotations after copying in every annotation of the live
   * route: all keys of both, the live value wherever the live route has the
   * key, the base value elsewhere.
   */
  function MergeAnnotations(base: map<string, string>, observed: map<string, string>): (m: map<string, string>)
    ensures m.Keys == base.Keys + observed.Keys
    ensures forall k :: k in observed ==> m[k] == observed[k]
    ensures forall k :: k in base && k !in observed ==> m[k] == base[k]
  {
    base + observed
  }

  /**
   * The merge loop: writes each annotation of the live route into the
   * desired annotations, one key at a time.
   */
  method MergeObservedAnnotations(base: map<string, string>, observed: map<string, string>)
    returns (merged: map<string, string>)
    ensures merged == MergeAnnotations(base, observed)
  {
    merged := base;
    var pending := observed.Keys;
    while pending != {}
      invariant pending <= observed.Keys
      invariant merged.Keys == base.Keys + (observed.Keys - pending)
      invariant forall k :: k in observed && k !in pending ==> merged[k] == observed[k]
      invariant forall k :: k in base && (k !in observed || k in pending) ==> merged[k] == base[k]
      decreases pending
    {
      var k :| k in pending;
      merged := merged[k := observed[k]];
      pending := pending - {k};
    }
  }

  /** The host and the target service cannot be changed in place: a difference in either forces a recreate. */
  predicate ImmutableChanged(observed: Route, desired: Route)
    ensures ImmutableChanged(observed, desired) ==> !IsRouteEqual(observed, desired)
  {
    observed.spec.host != desired.spec.host || observed.spec.to.name != desired.spec.to.name
  }

  /**
   * Route equality over the fields the in-place update copies: name,
   * annotations and spec. Two routes are equal exactly when copying those
   * fields of `b` onto `a` would leave `a` as it is.
   */
  predicate IsRouteEqual(a: Route, b: Route)
    ensures IsRouteEqual(a, b)
        <==> a.(meta := a.meta.(name := b.meta.name, annotations := b.meta.annotations), spec := b.spec) == a
  {
    a.meta.name == b.meta.name && a.meta.annotations == b.meta.annotations && a.spec == b.spec
  }

  /** The desired route with its annotations replaced and everything else kept. */
  function WithAnnotations(r: Route, annotations: map<string, string>): (w: Route)
    ensures w.meta.annotations == annotations
    ensures w.meta.(annotations := r.meta.annotations) == r.meta
    ensures w.Id() == r.Id() && w.spec == r.spec
  {
    r.(meta := r.meta.(annotations := annotations))
  }

  /**
   * The live route with the desired name, annotations and spec copied onto it,
   * ready for an in-place update: it then equals the desired route, and the
   * rest of the live route's metadata is kept.
   */
  function ApplyDesired(observed: Route, desired: Route): (u: Route)
    ensures IsRouteEqual(u, desired)
    ensures !ImmutableChanged(u, desired)
    ensures u.meta.namespace == observed.meta.namespace
    ensures u.meta.labels == observed.meta.labels
    ensures u.meta.ownerReferences == observed.meta.ownerReferences
    ensures u.meta.uid == observed.meta.uid
    ensures u.meta.resourceVersion == observed.meta.resourceVersion
  {
    observed.(meta := observed.meta.(name := desired.meta.name, annotations := desired.meta.annotations),
              spec := desired.spec)
  }
}
