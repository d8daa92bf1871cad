/**
 * What a reconciliation pass does, branch by branch: which client calls it
 * issues and in what order, what it returns, what becomes of the requeue
 * flag and of the package-level annotation map; and that a pass that
 * succeeded leaves nothing for the next pass to change.
 */
module Properties {
  import opened Api
  import opened Cluster
  import opened Desired
  import opened Reconcile

  // ---------------------------------------------------------------------------
  // Dependency resolution (ReconcileRoutes)
  // ---------------------------------------------------------------------------

  /**
   * The CA secret cannot be read: the pass stops after that one get. NotFound
   * is "pending" (no error, requeue); any other error is returned unchanged
   * and leaves the flag alone.
   */
  lemma SecretUnavailable(s: Store, env: Env, instance: Instance, cnAnnotations: map<string, string>,
                          requeue: bool, e: ApiError)
    requires Fetch(s.secrets, Key(instance.namespace, env.certSecretName), s.faults.getSecret) == Failure(e)
    ensures var o := RoutesPass(s, env, instance, cnAnnotations, requeue);
      && o.store == s.(log := s.log + [GetSecret(Key(instance.namespace, env.certSecretName))])
      && o.annotations == cnAnnotations
      && (e == NotFound ==> o.err == None && o.requeue)
      && (e != NotFound ==> o.err == Some(Api(e)) && o.requeue == requeue)
  {
  }

  /** The cluster-info configmap cannot be read: the same split, after two gets and no route call. */
  lemma ClusterInfoUnavailable(s: Store, env: Env, instance: Instance, cnAnnotations: map<string, string>,
                               requeue: bool, secret: Secret, e: ApiError)
    requires Fetch(s.secrets, Key(instance.namespace, env.certSecretName), s.faults.getSecret) == Success(secret)
    requires Fetch(s.configMaps, Key(instance.namespace, env.clusterInfoName), s.faults.getConfigMap) == Failure(e)
    ensures var o := RoutesPass(s, env, instance, cnAnnotations, requeue);
      && o.store == s.(log := s.log + [GetSecret(Key(instance.namespace, env.certSecretName)),
                                       GetConfigMap(Key(instance.namespace, env.clusterInfoName))])
      && o.annotations == cnAnnotations
      && (e == NotFound ==> o.err == None && o.requeue)
      && (e != NotFound ==> o.err == Some(Api(e)) && o.requeue == requeue)
  {
  }

  /**
   * The configmap exists but has no data or an empty `cluster_address`: a
   * configuration error, the flag untouched, no route call.
   */
  lemma ClusterAddressMissing(s: Store, env: Env, instance: Instance, cnAnnotations: map<string, string>,
                              requeue: bool, secret: Secret, cm: ConfigMap)
    requires Fetch(s.secrets, Key(instance.namespace, env.certSecretName), s.faults.getSecret) == Success(secret)
    requires Fetch(s.configMaps, Key(instance.namespace, env.clusterInfoName), s.faults.getConfigMap) == Success(cm)
    requires cm.data.None? || "cluster_address" !in cm.data.value || cm.data.value["cluster_address"] == ""
    ensures var o := RoutesPass(s, env, instance, cnAnnotations, requeue);
      && o.store == s.(log := s.log + [GetSecret(Key(instance.namespace, env.certSecretName)),
                                       GetConfigMap(Key(instance.namespace, env.clusterInfoName))])
      && o.annotations == cnAnnotations
      && o.err == Some(ClusterAddressNotSet(env.clusterInfoName))
      && o.requeue == requeue
  {
  }

  /**
   * Both dependencies resolve: the console route is reconciled with the
   * configured address as host, "/" as path, the secret's `ca.crt` (empty when
   * missing) as destination CA, and the package-level annotations.
   */
  lemma DependenciesResolved(s: Store, env: Env, instance: Instance, cnAnnotations: map<string, string>,
                             requeue: bool, secret: Secret, cm: ConfigMap, host: string)
    requires Fetch(s.secrets, Key(instance.namespace, env.certSecretName), s.faults.getSecret) == Success(secret)
    requires Fetch(s.configMaps, Key(instance.namespace, env.clusterInfoName), s.faults.getConfigMap) == Success(cm)
    requires cm.data.Some? && "cluster_address" in cm.data.value && cm.data.value["cluster_address"] == host
    requires host != ""
    ensures RoutesPass(s, env, instance, cnAnnotations, requeue)
         == RoutePass(s.(log := s.log + [GetSecret(Key(instance.namespace, env.certSecretName)),
                                         GetConfigMap(Key(instance.namespace, env.clusterInfoName))]),
                      env, instance, CnRouteName, cnAnnotations, host, CnRoutePath, CaCert(secret), requeue)
  {
    var sk, ck := Key(instance.namespace, env.certSecretName), Key(instance.namespace, env.clusterInfoName);
    var sec := GetSecretStep(s, sk);
    assert sec.res == Success(secret);
    var got := GetConfigMapStep(sec.store, ck);
    assert got.res == Success(cm);
    assert got.store == s.(log := s.log + [GetSecret(sk), GetConfigMap(ck)]);
    assert ClusterAddress(cm) == Some(host);
  }

  // ---------------------------------------------------------------------------
  // The reconcile driver (ReconcileRoute)
  // ---------------------------------------------------------------------------

  /** Linking the desired route to its owner fails: the error is returned before any client call. */
  lemma OwnerLinkFails(s: Store, env: Env, instance: Instance, name: string, annotations: map<string, string>,
                       host: string, path: string, cert: seq<byte>, requeue: bool)
    requires instance.ownerLink.LinkFailed?
    ensures RoutePass(s, env, instance, name, annotations, host, path, cert, requeue)
         == Outcome(s, annotations, Some(OwnerRefFailed(instance.ownerLink.reason)), requeue)
  {
  }

  /** Reading the live route fails other than with NotFound: the error is returned and nothing is changed. */
  lemma RouteGetFails(s: Store, env: Env, instance: Instance, name: string, annotations: map<string, string>,
                      host: string, path: string, cert: seq<byte>, requeue: bool, e: ApiError)
    requires instance.ownerLink.Linked?
    requires Fetch(s.routes, Key(instance.namespace, name), s.faults.getRoute) == Failure(e)
    requires e != NotFound
    ensures RoutePass(s, env, instance, name, annotations, host, path, cert, requeue)
         == Outcome(s.(log := s.log + [GetRoute(Key(instance.namespace, name))]), annotations, Some(Api(e)), requeue)
  {
  }

  /**
   * The live route is missing: exactly one create, of the desired route. A
   * created route and AlreadyExists both give no error and a requeue; any
   * other create error is returned with the flag untouched.
   */
  lemma RouteMissingIsCreated(s: Store, env: Env, instance: Instance, name: string, annotations: map<string, string>,
                              host: string, path: string, cert: seq<byte>, requeue: bool, desired: Route)
    requires GetDesiredRoute(env, instance.ownerLink, name, instance.namespace, annotations, host, path, cert) == Success(desired)
    requires Fetch(s.routes, Key(instance.namespace, name), s.faults.getRoute) == Failure(NotFound)
    ensures var o := RoutePass(s, env, instance, name, annotations, host, path, cert, requeue);
      var created := CreateStep(s.(log := s.log + [GetRoute(Key(instance.namespace, name))]), desired);
      && o.store == created.store
      && o.store.log == s.log + [GetRoute(Key(instance.namespace, name)), CreateRoute(desired)]
      && o.annotations == annotations
      && (created.res.Success? || created.res.error == AlreadyExists ==> o.err == None && o.requeue)
      && (created.res.Failure? && created.res.error != AlreadyExists ==>
            o.err == Some(Api(created.res.error)) && o.requeue == requeue)
  {
  }

  /**
   * The live route exists: whatever happens next, the caller's annotation map
   * ends up holding the merge, so annotations found on the live route stay in
   * the package-level map for later passes.
   */
  lemma ObservedAnnotationsLeak(s: Store, env: Env, instance: Instance, name: string, annotations: map<string, string>,
                                host: string, path: string, cert: seq<byte>, requeue: bool, observed: Route)
    requires instance.ownerLink.Linked?
    requires Fetch(s.routes, Key(instance.namespace, name), s.faults.getRoute) == Success(observed)
    ensures var o := RoutePass(s, env, instance, name, annotations, host, path, cert, requeue);
      && o.annotations == MergeAnnotations(annotations, observed.meta.annotations)
      && (forall k :: k in observed.meta.annotations ==> k in o.annotations && o.annotations[k] == observed.meta.annotations[k])
  {
  }

  /**
   * Host or target service differs: delete the live route, then create the
   * merged desired route, in that order. A failed delete stops the pass before
   * any create; no update is ever issued; requeue only on full success.
   */
  lemma ImmutableChangeRecreates(s: Store, env: Env, instance: Instance, name: string, annotations: map<string, string>,
                                 host: string, path: string, cert: seq<byte>, requeue: bool,
                                 desired: Route, observed: Route)
    requires GetDesiredRoute(env, instance.ownerLink, name, instance.namespace, annotations, host, path, cert) == Success(desired)
    requires Fetch(s.routes, Key(instance.namespace, name), s.faults.getRoute) == Success(observed)
    requires observed.spec.host != host || observed.spec.to.name != env.serviceName
    ensures var o := RoutePass(s, env, instance, name, annotations, host, path, cert, requeue);
      var target := Target(observed, desired);
      var deleted := DeleteStep(s.(log := s.log + [GetRoute(Key(instance.namespace, name))]), observed);
      var created := CreateStep(deleted.store, target);
      && (deleted.res.Failure? ==>
            && o.store == deleted.store
            && o.store.log == s.log + [GetRoute(Key(instance.namespace, name)), DeleteRoute(observed)]
            && o.err == Some(Api(deleted.res.error)) && o.requeue == requeue)
      && (deleted.res.Success? ==>
            && o.store == created.store
            && o.store.log == s.log + [GetRoute(Key(instance.namespace, name)), DeleteRoute(observed), CreateRoute(target)]
            && (created.res.Failure? ==> o.err == Some(Api(created.res.error)) && o.requeue == requeue)
            && (created.res.Success? ==> o.err == None && o.requeue))
  {
  }

  /**
   * Same host and service but some other difference: exactly one update, of
   * the live route carrying the desired name, merged annotations and spec and
   * its own remaining metadata. The requeue flag is not touched.
   */
  lemma MutableChangeUpdates(s: Store, env: Env, instance: Instance, name: string, annotations: map<string, string>,
                             host: string, path: string, cert: seq<byte>, requeue: bool,
                             desired: Route, observed: Route)
    requires GetDesiredRoute(env, instance.ownerLink, name, instance.namespace, annotations, host, path, cert) == Success(desired)
    requires Fetch(s.routes, Key(instance.namespace, name), s.faults.getRoute) == Success(observed)
    requires !ImmutableChanged(observed, desired)
    requires !IsRouteEqual(observed, Target(observed, desired))
    ensures var o := RoutePass(s, env, instance, name, annotations, host, path, cert, requeue);
      var updated := ApplyDesired(observed, Target(observed, desired));
      var step := UpdateStep(s.(log := s.log + [GetRoute(Key(instance.namespace, name))]), updated);
      && o.store == step.store
      && o.store.log == s.log + [GetRoute(Key(instance.namespace, name)), UpdateRoute(updated)]
      && updated.meta.name == name
      && updated.meta.annotations == MergeAnnotations(annotations, observed.meta.annotations)
      && updated.spec == desired.spec
      && updated.meta.(name := observed.meta.name, annotations := observed.meta.annotations) == observed.meta
      && o.requeue == requeue
      && o.err == (if step.res.Failure? then Some(Api(step.res.error)) else None)
  {
  }

  /** The live route already matches: no mutation, no error, the flag untouched. */
  lemma EqualRouteIsLeftAlone(s: Store, env: Env, instance: Instance, name: string, annotations: map<string, string>,
                              host: string, path: string, cert: seq<byte>, requeue: bool,
                              desired: Route, observed: Route)
    requires GetDesiredRoute(env, instance.ownerLink, name, instance.namespace, annotations, host, path, cert) == Success(desired)
    requires Fetch(s.routes, Key(instance.namespace, name), s.faults.getRoute) == Success(observed)
    requires IsRouteEqual(observed, Target(observed, desired))
    ensures var o := RoutePass(s, env, instance, name, annotations, host, path, cert, requeue);
      && o.store == s.(log := s.log + [GetRoute(Key(instance.namespace, name))])
      && o.err == None
      && o.requeue == requeue
  {
  }

  /**
   * An annotation in the caller's map that the live route lacks is put back
   * on the route with an update. Together with ObservedAnnotationsLeak: an
   * annotation hand-added to the route and later hand-removed is restored by
   * the next pass, since the first pass copied it into the package-level map.
   */
  lemma MissingAnnotationIsRestored(s: Store, env: Env, instance: Instance, name: string, annotations: map<string, string>,
                                    host: string, path: string, cert: seq<byte>, requeue: bool,
                                    desired: Route, observed: Route, key: string)
    requires GetDesiredRoute(env, instance.ownerLink, name, instance.namespace, annotations, host, path, cert) == Success(desired)
    requires Fetch(s.routes, Key(instance.namespace, name), s.faults.getRoute) == Success(observed)
    requires !ImmutableChanged(observed, desired)
    requires key in annotations && key !in observed.meta.annotations
    ensures var o := RoutePass(s, env, instance, name, annotations, host, path, cert, requeue);
      && |o.store.log| == |s.log| + 2
      && o.store.log[|s.log| + 1].UpdateRoute?
      && key in o.store.log[|s.log| + 1].route.meta.annotations
      && o.store.log[|s.log| + 1].route.meta.annotations[key] == annotations[key]
  {
    assert !IsRouteEqual(observed, Target(observed, desired)) by {
      assert key in Target(observed, desired).meta.annotations;
    }
    MutableChangeUpdates(s, env, instance, name, annotations, host, path, cert, requeue, desired, observed);
  }

  /** Across every branch of a pass, the requeue flag is only ever set, and only on a pass that returns no error. */
  lemma RequeueOnlySet(s: Store, env: Env, instance: Instance, cnAnnotations: map<string, string>, requeue: bool)
    ensures var o := RoutesPass(s, env, instance, cnAnnotations, requeue);
      && (requeue ==> o.requeue)
      && (o.requeue && !requeue ==> o.err == None)
  {
  }

  /**
   * First install: the CA secret and the cluster-info configmap exist, the
   * console route does not, and nothing fails. Starting from the initial
   * package-level annotations, the pass creates the console route at the
   * cluster address and path "/", carrying exactly those annotations, the
   * secret's certificate as destination CA and the owner link, and asks for a
   * requeue.
   */
  lemma FirstInstallCreatesConsoleRoute(s: Store, env: Env, instance: Instance, secret: Secret, cm: ConfigMap,
                                         host: string)
    requires s.faults == NoFaults
    requires instance.ownerLink.Linked?
    requires Key(instance.namespace, env.certSecretName) in s.secrets
    requires s.secrets[Key(instance.namespace, env.certSecretName)] == secret
    requires Key(instance.namespace, env.clusterInfoName) in s.configMaps
    requires s.configMaps[Key(instance.namespace, env.clusterInfoName)] == cm
    requires cm.data.Some? && "cluster_address" in cm.data.value && cm.data.value["cluster_address"] == host
    requires host != ""
    requires Key(instance.namespace, CnRouteName) !in s.routes
    ensures var o := RoutesPass(s, env, instance, CnAnnotations, false);
      var id := Key(instance.namespace, CnRouteName);
      && o.err == None && o.requeue
      && o.annotations == CnAnnotations
      && id in o.store.routes
      && o.store.routes.Keys == s.routes.Keys + {id}
      && o.store.routes[id].meta.annotations == CnAnnotations
      && o.store.routes[id].meta.annotations["haproxy.router.openshift.io/timeout"] == "90s"
      && o.store.routes[id].meta.labels == env.labelsFor(CnRouteName)
      && o.store.routes[id].meta.ownerReferences == [instance.ownerLink.ref]
      && o.store.routes[id].spec.host == host
      && o.store.routes[id].spec.path == "/"
      && FixedShape(o.store.routes[id].spec, env.serviceName)
      && StringToBytes(o.store.routes[id].spec.tls.value.destinationCACertificate) == CaCert(secret)
  {
    var ns := instance.namespace;
    DependenciesResolved(s, env, instance, CnAnnotations, false, secret, cm, host);
    var t := s.(log := s.log + [GetSecret(Key(ns, env.certSecretName)), GetConfigMap(Key(ns, env.clusterInfoName))]);
    var built := GetDesiredRoute(env, instance.ownerLink, CnRouteName, ns, CnAnnotations, host, CnRoutePath, CaCert(secret));
    RouteMissingIsCreated(t, env, instance, CnRouteName, CnAnnotations, host, CnRoutePath, CaCert(secret), false, built.value);
  }

  // ---------------------------------------------------------------------------
  // Idempotence: a successful pass leaves nothing for the next one to change
  // ---------------------------------------------------------------------------

  /**
   * `after` differs from `before` only by calls appended to the log, none of
   * which is a create, update or delete.
   */
  ghost predicate Quiet(before: Store, after: Store) {
    && after.routes == before.routes
    && after.secrets == before.secrets
    && after.configMaps == before.configMaps
    && after.faults == before.faults
    && |before.log| <= |after.log|
    && after.log[..|before.log|] == before.log
    && forall i :: |before.log| <= i < |after.log| ==> !after.log[i].IsMutation()
  }

  /** The builder's output depends on the annotations only through the annotations field. */
  lemma BuiltWithAnnotations(env: Env, ownerLink: OwnerLink, name: string, namespace: string,
                             a: map<string, string>, b: map<string, string>,
                             host: string, path: string, cert: seq<byte>)
    requires ownerLink.Linked?
    ensures GetDesiredRoute(env, ownerLink, name, namespace, b, host, path, cert).value
         == WithAnnotations(GetDesiredRoute(env, ownerLink, name, namespace, a, host, path, cert).value, b)
  {
  }

  /**
   * A live route that already equals the route built from `annotations` is a
   * fixed point: the pass only reads it.
   */
  lemma FixedPointIsQuiet(t: Store, env: Env, instance: Instance, name: string,
                                             annotations: map<string, string>, host: string, path: string,
                                             cert: seq<byte>, requeue: bool, desired: Route)
    requires t.faults.getRoute.NoFault?
    requires Key(instance.namespace, name) in t.routes
    requires GetDesiredRoute(env, instance.ownerLink, name, instance.namespace, annotations, host, path, cert) == Success(desired)
    requires IsRouteEqual(t.routes[Key(instance.namespace, name)], desired)
    ensures var o := RoutePass(t, env, instance, name, annotations, host, path, cert, requeue);
      && o.store == t.(log := t.log + [GetRoute(Key(instance.namespace, name))])
      && o.annotations == annotations
      && o.err == None
  {
    var observed := t.routes[Key(instance.namespace, name)];
    assert MergeAnnotations(annotations, observed.meta.annotations) == annotations;
    assert Target(observed, desired) == desired;
  }

  /**
   * A pass over a fault-free store that returns no error leaves the route
   * equal to what the next pass builds (from the annotation map as this pass
   * left it), and changes nothing but the routes and the log.
   */
  lemma RoutePassConverges(s: Store, env: Env, instance: Instance, name: string,
                                              annotations: map<string, string>, host: string, path: string,
                                              cert: seq<byte>, requeue: bool)
    requires s.faults == NoFaults && WellFormed(s)
    requires RoutePass(s, env, instance, name, annotations, host, path, cert, requeue).err == None
    ensures var o := RoutePass(s, env, instance, name, annotations, host, path, cert, requeue);
      && o.store.secrets == s.secrets && o.store.configMaps == s.configMaps && o.store.faults == s.faults
      && Key(instance.namespace, name) in o.store.routes
      && GetDesiredRoute(env, instance.ownerLink, name, instance.namespace, o.annotations, host, path, cert).Success?
      && IsRouteEqual(o.store.routes[Key(instance.namespace, name)],
                      GetDesiredRoute(env, instance.ownerLink, name, instance.namespace, o.annotations, host, path, cert).value)
  {
    var ns := instance.namespace;
    var k := Key(ns, name);
    var o := RoutePass(s, env, instance, name, annotations, host, path, cert, requeue);
    var desired := GetDesiredRoute(env, instance.ownerLink, name, ns, annotations, host, path, cert).value;
    var logged := s.(log := s.log + [GetRoute(k)]);
    BuiltWithAnnotations(env, instance.ownerLink, name, ns, annotations, o.annotations, host, path, cert);
    if k !in s.routes {
      assert o == CreateMissing(logged, desired, requeue);
      assert desired.Id() == k;
    } else {
      var observed := s.routes[k];
      assert observed.Id() == k;
      assert o == Converge(logged, observed, desired, requeue);
      var target := Target(observed, desired);
      assert o.annotations == target.meta.annotations;
      if ImmutableChanged(observed, target) {
        assert o.store.routes == (s.routes - {k})[k := target];
      } else if !IsRouteEqual(observed, target) {
        assert ApplyDesired(observed, target).Id() == k;
      }
    }
  }

  /** Appending calls none of which is a create, update or delete keeps a store quiet. */
  lemma ReadsAreQuiet(before: Store, calls: seq<Call>)
    requires forall i :: 0 <= i < |calls| ==> !calls[i].IsMutation()
    ensures Quiet(before, before.(log := before.log + calls))
  {
    var after := before.(log := before.log + calls);
    assert after.log[..|before.log|] == before.log;
    forall i | |before.log| <= i < |after.log|
      ensures !after.log[i].IsMutation()
    {
      assert after.log[i] == calls[i - |before.log|];
    }
  }

  /** The idempotence argument once both dependencies resolve. */
  lemma ResolvedSecondPassIsQuiet(s: Store, env: Env, instance: Instance,
                                                     cnAnnotations: map<string, string>, requeue1: bool, requeue2: bool,
                                                     secret: Secret, cm: ConfigMap, host: string)
    requires s.faults == NoFaults && WellFormed(s)
    requires Fetch(s.secrets, Key(instance.namespace, env.certSecretName), s.faults.getSecret) == Success(secret)
    requires Fetch(s.configMaps, Key(instance.namespace, env.clusterInfoName), s.faults.getConfigMap) == Success(cm)
    requires cm.data.Some? && "cluster_address" in cm.data.value && cm.data.value["cluster_address"] == host
    requires host != ""
    requires RoutesPass(s, env, instance, cnAnnotations, requeue1).err == None
    ensures var o1 := RoutesPass(s, env, instance, cnAnnotations, requeue1);
      var o2 := RoutesPass(o1.store, env, instance, o1.annotations, requeue2);
      && Quiet(o1.store, o2.store)
      && o2.err == None
      && o2.annotations == o1.annotations
  {
    var ns := instance.namespace;
    var sk, ck, rk := Key(ns, env.certSecretName), Key(ns, env.clusterInfoName), Key(ns, CnRouteName);
    var cert := CaCert(secret);
    var o1 := RoutesPass(s, env, instance, cnAnnotations, requeue1);
    var t := s.(log := s.log + [GetSecret(sk), GetConfigMap(ck)]);
    DependenciesResolved(s, env, instance, cnAnnotations, requeue1, secret, cm, host);
    assert o1 == RoutePass(t, env, instance, CnRouteName, cnAnnotations, host, CnRoutePath, cert, requeue1);
    RoutePassConverges(t, env, instance, CnRouteName, cnAnnotations, host, CnRoutePath, cert, requeue1);
    var o2 := RoutesPass(o1.store, env, instance, o1.annotations, requeue2);
    var t2 := o1.store.(log := o1.store.log + [GetSecret(sk), GetConfigMap(ck)]);
    DependenciesResolved(o1.store, env, instance, o1.annotations, requeue2, secret, cm, host);
    assert o2 == RoutePass(t2, env, instance, CnRouteName, o1.annotations, host, CnRoutePath, cert, requeue2);
    var desired2 := GetDesiredRoute(env, instance.ownerLink, CnRouteName, ns, o1.annotations, host, CnRoutePath, cert).value;
    FixedPointIsQuiet(t2, env, instance, CnRouteName, o1.annotations, host, CnRoutePath, cert, requeue2, desired2);
    assert o2.store == o1.store.(log := o1.store.log + [GetSecret(sk), GetConfigMap(ck), GetRoute(rk)]);
    ReadsAreQuiet(o1.store, [GetSecret(sk), GetConfigMap(ck), GetRoute(rk)]);
  }

  /**
   * Idempotence: after a pass over a fault-free store that returned no error,
   * a second pass with no change in between issues no create, update or
   * delete, returns no error, and leaves the package-level annotations as the
   * first pass left them.
   */
  lemma SecondPassIsQuiet(s: Store, env: Env, instance: Instance, cnAnnotations: map<string, string>,
                                             requeue1: bool, requeue2: bool)
    requires s.faults == NoFaults && WellFormed(s)
    requires RoutesPass(s, env, instance, cnAnnotations, requeue1).err == None
    ensures var o1 := RoutesPass(s, env, instance, cnAnnotations, requeue1);
      var o2 := RoutesPass(o1.store, env, instance, o1.annotations, requeue2);
      && Quiet(o1.store, o2.store)
      && o2.err == None
      && o2.annotations == o1.annotations
  {
    var ns := instance.namespace;
    var o1 := RoutesPass(s, env, instance, cnAnnotations, requeue1);
    var sk, ck := Key(ns, env.certSecretName), Key(ns, env.clusterInfoName);
    if sk !in s.secrets {
      SecretUnavailable(s, env, instance, cnAnnotations, requeue1, NotFound);
      SecretUnavailable(o1.store, env, instance, o1.annotations, requeue2, NotFound);
      ReadsAreQuiet(o1.store, [GetSecret(sk)]);
    } else if ck !in s.configMaps {
      ClusterInfoUnavailable(s, env, instance, cnAnnotations, requeue1, s.secrets[sk], NotFound);
      ClusterInfoUnavailable(o1.store, env, instance, o1.annotations, requeue2, s.secrets[sk], NotFound);
      ReadsAreQuiet(o1.store, [GetSecret(sk), GetConfigMap(ck)]);
    } else {
      var secret, cm := s.secrets[sk], s.configMaps[ck];
      if ClusterAddress(cm).None? {
        ClusterAddressMissing(s, env, instance, cnAnnotations, requeue1, secret, cm);
        assert false;
      } else {
        ResolvedSecondPassIsQuiet(s, env, instance, cnAnnotations, requeue1, requeue2, secret, cm, ClusterAddress(cm).value);
      }
    }
  }
}
