/**
 * The cluster's object store as the reconciler sees it through its client:
 * maps from keys to routes, secrets and configmaps, a log of every call the
 * client issues, and one injectable fault per kind of call.
 *
 * Without a fault a call behaves as the API server does: a get of a missing
 * key, an update or a delete of a missing object are NotFound, a create of a
 * present key is AlreadyExists. A fault makes that kind of call fail with the
 * given error instead (a transport or permission failure, or a racing writer).
 */
module Cluster {
  import opened Api

  datatype Fault = NoFault | Fail(error: ApiError)

  datatype Faults = Faults(
    getSecret: Fault,
    getConfigMap: Fault,
    getRoute: Fault,
    create: Fault,
    update: Fault,
    delete: Fault)

  const NoFaults := Faults(NoFault, NoFault, NoFault, NoFault, NoFault, NoFault)

  /** A client call, as recorded in the store's log (failed calls included). */
  datatype Call =
    | GetSecret(key: Key)
    | GetConfigMap(key: Key)
    | GetRoute(key: Key)
    | CreateRoute(route: Route)
    | UpdateRoute(route: Route)
    | DeleteRoute(route: Route)
  {
    /** The calls that may change what the store holds. */
    predicate IsMutation() { CreateRoute? || UpdateRoute? || DeleteRoute? }
  }

  /** The store as a value. */
  datatype Store = Store(
    routes: map<Key, Route>,
    secrets: map<Key, Secret>,
    configMaps: map<Key, ConfigMap>,
    faults: Faults,
    log: seq<Call>)

  /** The store after a call, and what the call returned. */
  datatype Step<T> = Step(store: Store, res: Result<T, ApiError>)

  /** Every route is filed under its own namespace and name. */
  ghost predicate WellFormed(s: Store) {
    forall k :: k in s.routes ==> s.routes[k].Id() == k
  }

  function Fetch<T>(m: map<Key, T>, k: Key, f: Fault): (r: Result<T, ApiError>)
    ensures f.NoFault? ==> (r.Success? <==> k in m)
    ensures r.Success? ==> k in m && r.value == m[k]
    ensures f.Fail? ==> r == Failure(f.error)
    ensures f.NoFault? && k !in m ==> r == Failure(NotFound)
  {
    if f.Fail? then Failure(f.error)
    else if k in m then Success(m[k])
    else Failure(NotFound)
  }

  function GetSecretStep(s: Store, k: Key): Step<Secret> {
    Step(s.(log := s.log + [GetSecret(k)]), Fetch(s.secrets, k, s.faults.getSecret))
  }

  function GetConfigMapStep(s: Store, k: Key): Step<ConfigMap> {
    Step(s.(log := s.log + [GetConfigMap(k)]), Fetch(s.configMaps, k, s.faults.getConfigMap))
  }

  function GetRouteStep(s: Store, k: Key): Step<Route> {
    Step(s.(log := s.log + [GetRoute(k)]), Fetch(s.routes, k, s.faults.getRoute))
  }

  function CreateStep(s: Store, r: Route): Step<()> {
    var logged := s.(log := s.log + [CreateRoute(r)]);
    if s.faults.create.Fail? then Step(logged, Failure(s.faults.create.error))
    else if r.Id() in s.routes then Step(logged, Failure(AlreadyExists))
    else Step(logged.(routes := s.routes[r.Id() := r]), Success(()))
  }

  function UpdateStep(s: Store, r: Route): Step<()> {
    var logged := s.(log := s.log + [UpdateRoute(r)]);
    if s.faults.update.Fail? then Step(logged, Failure(s.faults.update.error))
    else if r.Id() !in s.routes then Step(logged, Failure(NotFound))
    else Step(logged.(routes := s.routes[r.Id() := r]), Success(()))
  }

  function DeleteStep(s: Store, r: Route): Step<()> {
    var logged := s.(log := s.log + [DeleteRoute(r)]);
    if s.faults.delete.Fail? then Step(logged, Failure(s.faults.delete.error))
    else if r.Id() !in s.routes then Step(logged, Failure(NotFound))
    else Step(logged.(routes := s.routes - {r.Id()}), Success(()))
  }

  /** The client the reconciler is handed; its fields are the store it talks to. */
  class Client {
    var routes: map<Key, Route>
    var secrets: map<Key, Secret>
    var configMaps: map<Key, ConfigMap>
    var faults: Faults
    var log: seq<Call>

    function State(): Store
      reads this
    {
      Store(routes, secrets, configMaps, faults, log)
    }

    constructor (s: Store)
      ensures State() == s
    {
      routes, secrets, configMaps, faults, log := s.routes, s.secrets, s.configMaps, s.faults, s.log;
    }

    method GetSecret(k: Key) returns (res: Result<Secret, ApiError>)
      modifies this
      ensures Step(State(), res) == GetSecretStep(old(State()), k)
    {
      log := log + [Call.GetSecret(k)];
      res := Fetch(secrets, k, faults.getSecret);
    }

    method GetConfigMap(k: Key) returns (res: Result<ConfigMap, ApiError>)
      modifies this
      ensures Step(State(), res) == GetConfigMapStep(old(State()), k)
    {
      log := log + [Call.GetConfigMap(k)];
      res := Fetch(configMaps, k, faults.getConfigMap);
    }

    method GetRoute(k: Key) returns (res: Result<Route, ApiError>)
      modifies this
      ensures Step(State(), res) == GetRouteStep(old(State()), k)
    {
      log := log + [Call.GetRoute(k)];
      res := Fetch(routes, k, faults.getRoute);
    }

    method Create(r: Route) returns (res: Result<(), ApiError>)
      modifies this
      ensures Step(State(), res) == CreateStep(old(State()), r)
    {
      log := log + [CreateRoute(r)];
      if faults.create.Fail? {
        res := Failure(faults.create.error);
      } else if r.Id() in routes {
        res := Failure(AlreadyExists);
      } else {
        routes := routes[r.Id() := r];
        res := Success(());
      }
    }

    method Update(r: Route) returns (res: Result<(), ApiError>)
      modifies this
      ensures Step(State(), res) == UpdateStep(old(State()), r)
    {
      log := log + [UpdateRoute(r)];
      if faults.update.Fail? {
        res := Failure(faults.update.error);
      } else if r.Id() !in routes {
        res := Failure(NotFound);
      } else {
        routes := routes[r.Id() := r];
        res := Success(());
      }
    }

    method Delete(r: Route) returns (res: Result<(), ApiError>)
      modifies this
      ensures Step(State(), res) == DeleteStep(old(State()), r)
    {
      log := log + [DeleteRoute(r)];
      if faults.delete.Fail? {
        res := Failure(faults.delete.error);
      } else if r.Id() !in routes {
        res := Failure(NotFound);
      } else {
        routes := routes - {r.Id()};
        res := Success(());
      }
    }
  }
}
