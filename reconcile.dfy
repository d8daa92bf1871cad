/**
 * One reconciliation pass of the console route: resolve the destination CA
 * certificate and the cluster address, build the desired route, and bring the
 * live route in line with it by creating, recreating or updating it.
 *
 * RoutesPass and RoutePass say, as functions of the store before the pass,
 * what the pass does; the methods ReconcileRoutes and ReconcileRoute are the
 * step-by-step driver, proved to do exactly that.
 */
module Reconcile {
  import opened Api
  import opened Cluster
  import opened Desired

  /**
   * A Go map value is a reference: the package-level annotation map, handed to
   * the builder and written into by the merge loop, is one of these.
   */
  class StringMap {
    var entries: map<string, string>

    constructor (m: map<string, string>)
      ensures entries == m
    {
      entries := m;
    }
  }

  /** What a pass leaves behind: the store, the caller's annotation map, the returned error and the requeue flag. */
  datatype Outcome = Outcome(store: Store, annotations: map<string, string>, err: Option<Error>, requeue: bool)

  /** The destination CA: the secret's `ca.crt` entry, empty when the key is missing. */
  function CaCert(secret: Secret): (cert: seq<byte>)
    ensures "ca.crt" !in secret.data ==> cert == []
    ensures "ca.crt" in secret.data ==> cert == secret.data["ca.crt"]
  {
    if "ca.crt" in secret.data then secret.data["ca.crt"] else []
  }

  /** The route host: the configmap's non-empty `cluster_address`, or None when the data or the entry is missing or empty. */
  function ClusterAddress(cm: ConfigMap): (host: Option<string>)
    ensures host.Some? <==> cm.data.Some? && "cluster_address" in cm.data.value && cm.data.value["cluster_address"] != ""
    ensures host.Some? ==> host.value == cm.data.value["cluster_address"]
  {
    if cm.data.None? || Lookup(cm.data.value, "cluster_address") == "" then None
    else Some(cm.data.value["cluster_address"])
  }

  /** What ReconcileRoutes does: resolve the two dependencies, then reconcile the console route. */
  function RoutesPass(s: Store, env: Env, instance: Instance, cnAnnotations: map<string, string>, requeue: bool): Outcome
  {
    var ns := instance.namespace;
    var sec := GetSecretStep(s, Key(ns, env.certSecretName));
    if sec.res.Failure? then
      if sec.res.error == NotFound then Outcome(sec.store, cnAnnotations, None, true)
      else Outcome(sec.store, cnAnnotations, Some(Api(sec.res.error)), requeue)
    else
      var cert := CaCert(sec.res.value);
      var cm := GetConfigMapStep(sec.store, Key(ns, env.clusterInfoName));
      if cm.res.Failure? then
        if cm.res.error == NotFound then Outcome(cm.store, cnAnnotations, None, true)
        else Outcome(cm.store, cnAnnotations, Some(Api(cm.res.error)), requeue)
      else
        match ClusterAddress(cm.res.value)
        case None => Outcome(cm.store, cnAnnotations, Some(ClusterAddressNotSet(env.clusterInfoName)), requeue)
        case Some(host) => RoutePass(cm.store, env, instance, CnRouteName, cnAnnotations, host, CnRoutePath, cert, requeue)
  }

  /** What ReconcileRoute does: build the desired route, fetch the live one, then create or converge. */
  function RoutePass(s: Store, env: Env, instance: Instance, name: string, annotations: map<string, string>,
                     routeHost: string, routePath: string, cert: seq<byte>, requeue: bool): Outcome
  {
    var ns := instance.namespace;
    match GetDesiredRoute(env, instance.ownerLink, name, ns, annotations, routeHost, routePath, cert)
    case Failure(e) => Outcome(s, annotations, Some(e), requeue)
    case Success(desired) =>
      var got := GetRouteStep(s, Key(ns, name));
      match got.res
      case Failure(e) =>
        if e != NotFound then Outcome(got.store, annotations, Some(Api(e)), requeue)
        else CreateMissing(got.store, desired, requeue)
      case Success(observed) => Converge(got.store, observed, desired, requeue)
  }

  /** The route does not exist: create it; success and a racing creator both ask for a requeue. */
  function CreateMissing(s: Store, desired: Route, requeue: bool): Outcome {
    var cr := CreateStep(s, desired);
    if cr.res.Failure? && cr.res.error != AlreadyExists then
      Outcome(cr.store, desired.meta.annotations, Some(Api(cr.res.error)), requeue)
    else Outcome(cr.store, desired.meta.annotations, None, true)
  }

  /** The desired route once the live route's annotations are merged into it. */
  function Target(observed: Route, desired: Route): Route {
    WithAnnotations(desired, MergeAnnotations(desired.meta.annotations, observed.meta.annotations))
  }

  /** The route exists: merge its annotations in, then recreate, update or leave it. */
  function Converge(s: Store, observed: Route, desired: Route, requeue: bool): Outcome {
    var target := Target(observed, desired);
    var merged := target.meta.annotations;
    if ImmutableChanged(observed, target) then
      var dr := DeleteStep(s, observed);
      if dr.res.Failure? then Outcome(dr.store, merged, Some(Api(dr.res.error)), requeue)
      else
        var cr := CreateStep(dr.store, target);
        if cr.res.Failure? then Outcome(cr.store, merged, Some(Api(cr.res.error)), requeue)
        else Outcome(cr.store, merged, None, true)
    else if !IsRouteEqual(observed, target) then
      var ur := UpdateStep(s, ApplyDesired(observed, target));
      if ur.res.Failure? then Outcome(ur.store, merged, Some(Api(ur.res.error)), requeue)
      else Outcome(ur.store, merged, None, requeue)
    else Outcome(s, merged, None, requeue)
  }

  /**
   * The pass the controller runs. `cnAnnotations` is the package-level
   * annotation map; `needToRequeue` is the flag the caller passes by pointer,
   * handed in and handed back.
   */
  method ReconcileRoutes(c: Client, cnAnnotations: StringMap, env: Env, instance: Instance, needToRequeue: bool)
    returns (err: Option<Error>, requeue: bool)
    modifies c, cnAnnotations
    ensures var o := RoutesPass(old(c.State()), env, instance, old(cnAnnotations.entries), needToRequeue);
      c.State() == o.store && cnAnnotations.entries == o.annotations && err == o.err && requeue == o.requeue
  {
    requeue := needToRequeue;
    var ns := instance.namespace;

    var sec := c.GetSecret(Key(ns, env.certSecretName));
    if sec.Failure? {
      if sec.error == NotFound {
        requeue := true;
        return None, requeue;
      }
      return Some(Api(sec.error)), requeue;
    }
    var cert := CaCert(sec.value);

    var cm := c.GetConfigMap(Key(ns, env.clusterInfoName));
    if cm.Failure? {
      if cm.error == NotFound {
        requeue := true;
        return None, requeue;
      }
      return Some(Api(cm.error)), requeue;
    }

    if cm.value.data.None? || Lookup(cm.value.data.value, "cluster_address") == "" {
      return Some(ClusterAddressNotSet(env.clusterInfoName)), requeue;
    }
    var routeHost := cm.value.data.value["cluster_address"];

    err, requeue := ReconcileRoute(c, cnAnnotations, env, instance, CnRouteName, routeHost, CnRoutePath, cert, requeue);
  }

  /** Reconcile one route; `annotations` is the caller's map, which the merge writes into. */
  method ReconcileRoute(c: Client, annotations: StringMap, env: Env, instance: Instance, name: string,
                        routeHost: string, routePath: string, cert: seq<byte>, needToRequeue: bool)
    returns (err: Option<Error>, requeue: bool)
    modifies c, annotations
    ensures var o := RoutePass(old(c.State()), env, instance, name, old(annotations.entries), routeHost, routePath, cert, needToRequeue);
      c.State() == o.store && annotations.entries == o.annotations && err == o.err && requeue == o.requeue
  {
    requeue := needToRequeue;
    var ns := instance.namespace;

    var built := GetDesiredRoute(env, instance.ownerLink, name, ns, annotations.entries, routeHost, routePath, cert);
    if built.Failure? {
      return Some(built.error), requeue;
    }
    var desired := built.value;

    var got := c.GetRoute(Key(ns, name));
    if got.Failure? && got.error != NotFound {
      return Some(Api(got.error)), requeue;
    }

    if got.Failure? {
      var cr := c.Create(desired);
      if cr.Failure? {
        if cr.error == AlreadyExists {
          requeue := true;
        } else {
          return Some(Api(cr.error)), requeue;
        }
      } else {
        requeue := true;
      }
    } else {
      var observed := got.value;
      // The desired route's annotations are the caller's map, so the merge lands there.
      var merged := MergeObservedAnnotations(desired.meta.annotations, observed.meta.annotations);
      annotations.entries := merged;
      desired := WithAnnotations(desired, merged);

      if ImmutableChanged(observed, desired) {
        var dr := c.Delete(observed);
        if dr.Failure? {
          return Some(Api(dr.error)), requeue;
        }
        var cr := c.Create(desired);
        if cr.Failure? {
          return Some(Api(cr.error)), requeue;
        }
        requeue := true;
        return None, requeue;
      }

      if !IsRouteEqual(observed, desired) {
        var updated := ApplyDesired(observed, desired);
        var ur := c.Update(updated);
        if ur.Failure? {
          return Some(Api(ur.error)), requeue;
        }
      }
    }
    err := None;
  }
}
