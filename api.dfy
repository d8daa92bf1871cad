/**
 * The Kubernetes / OpenShift object shapes the route reconciler reads and
 * writes, reduced to the fields it touches, and the error kinds the API
 * server reports.
 */
module Api {

  /** A Go `byte`. */
  newtype byte = x: int | 0 <= x < 256

  datatype Option<T> = None | Some(value: T)

  datatype Result<T, E> = Success(value: T) | Failure(error: E)

  /** The error kinds the API server reports for a get, create, update or delete. */
  datatype ApiError =
    | NotFound
    | AlreadyExists
    | Other(reason: string)

  /** The errors a reconciliation pass hands back to its caller. */
  datatype Error =
    | Api(cause: ApiError)                      // a store error, returned unchanged
    | ClusterAddressNotSet(configMapName: string) // the cluster-info configmap has no usable address
    | OwnerRefFailed(reason: string)            // the controller reference could not be set

  /** A namespaced name, the key of every object in the store. */
  datatype Key = Key(namespace: string, name: string)

  datatype IntOrString = IntVal(intVal: int) | StrVal(strVal: string)

  datatype RoutePort = RoutePort(targetPort: IntOrString)

  /** `weight` is a nullable `*int32` in the Go code. */
  datatype TargetReference = TargetReference(kind: string, name: string, weight: Option<int>)

  datatype WildcardPolicy = WildcardPolicyNone | WildcardPolicySubdomain

  datatype TLSTermination = TLSTerminationEdge | TLSTerminationPassthrough | TLSTerminationReencrypt

  datatype InsecureEdgeTerminationPolicy =
    | InsecureEdgeTerminationPolicyNone
    | InsecureEdgeTerminationPolicyAllow
    | InsecureEdgeTerminationPolicyRedirect

  datatype TLSConfig = TLSConfig(
    termination: TLSTermination,
    insecureEdgeTerminationPolicy: InsecureEdgeTerminationPolicy,
    destinationCACertificate: string)

  /** `port` and `tls` are nullable pointers in the Go code. */
  datatype RouteSpec = RouteSpec(
    host: string,
    path: string,
    port: Option<RoutePort>,
    to: TargetReference,
    wildcardPolicy: WildcardPolicy,
    tls: Option<TLSConfig>)

  datatype OwnerReference = OwnerReference(kind: string, name: string, uid: string)

  /** Object metadata; `uid` and `resourceVersion` stand for the server-managed bookkeeping. */
  datatype ObjectMeta = ObjectMeta(
    name: string,
    namespace: string,
    annotations: map<string, string>,
    labels: map<string, string>,
    ownerReferences: seq<OwnerReference>,
    uid: string,
    resourceVersion: string)

  datatype Route = Route(meta: ObjectMeta, spec: RouteSpec) {
    /** The key under which the store files this route. */
    function Id(): Key { Key(meta.namespace, meta.name) }
  }

  /** A nil `Data` map and an empty one read the same, so both are the empty map here. */
  datatype Secret = Secret(data: map<string, seq<byte>>)

  /** A configmap's `Data` may be nil (None), which the reconciler tests for. */
  datatype ConfigMap = ConfigMap(data: Option<map<string, string>>)

  /** Go's index into a map: the zero value ("") for a missing key. */
  function Lookup(m: map<string, string>, k: string): (v: string)
    ensures v != "" ==> k in m && m[k] == v
    ensures k in m ==> v == m[k]
  {
    if k in m then m[k] else ""
  }

  /** Every character of `s` is the code of a single byte. */
  predicate IsByteString(s: string) {
    forall i :: 0 <= i < |s| ==> s[i] as int < 256
  }

  /** Go's `string(b)`: one character per byte, with the byte's code. */
  function BytesToString(b: seq<byte>): (s: string)
    ensures |s| == |b|
    ensures forall i :: 0 <= i < |b| ==> s[i] as int == b[i] as int
    ensures IsByteString(s) && StringToBytes(s) == b
  {
    var s := seq(|b|, i requires 0 <= i < |b| => b[i] as int as char);
    assert forall i :: 0 <= i < |b| ==> StringToBytes(s)[i] == b[i];
    s
  }

  /** Go's `[]byte(s)` for a string whose characters are bytes. */
  function StringToBytes(s: string): (b: seq<byte>)
    requires IsByteString(s)
    ensures |b| == |s|
    ensures forall i :: 0 <= i < |s| ==> b[i] as int == s[i] as int
  {
    seq(|s|, i requires 0 <= i < |s| => s[i] as int as byte)
  }
}
