/**
 * The objects the controller receives from its watches: Deployments and
 * StatefulSets (reduced to the fields the controller reads), anything else
 * the informers may deliver, the pods listed for a workload, and the
 * namespace/name key that identifies an object.
 */
module Resources {
  import opened Wrappers

  /** Go's `int32`, the type of the replica counts. */
  newtype int32 = x: int | -0x8000_0000 <= x < 0x8000_0000

  datatype Kind = Deployment | StatefulSet

  /**
   * A Deployment or StatefulSet as the controller reads it:
   * `Status.UpdatedReplicas`, `Status.ReadyReplicas`, `*Spec.Replicas`
   * and `Spec.Selector.MatchLabels`.
   */
  datatype Snapshot = Snapshot(
    kind: Kind,
    namespace: string,
    name: string,
    updatedReplicas: int32,
    readyReplicas: int32,
    replicas: int32,
    matchLabels: map<string, string>)

  datatype ObjectMeta = ObjectMeta(namespace: string, name: string)

  /**
   * What a watch delivers: a supported workload, or some other object
   * (a deletion tombstone, for example), which may lack object metadata.
   */
  datatype Object = Workload(snapshot: Snapshot) | Unsupported(meta: Option<ObjectMeta>)

  datatype EventType = Add | Update | Delete

  datatype Event = Event(obj: Object, eventType: EventType)

  /** Which of the `Waiting`, `Running` and `Terminated` pointers are non-nil. */
  datatype ContainerState = ContainerState(waiting: bool, running: bool, terminated: bool)

  datatype ContainerStatus = ContainerStatus(name: string, state: ContainerState, imageID: string)

  datatype Pod = Pod(name: string, phase: string, containerStatuses: seq<ContainerStatus>)

  /** Replica health: every desired replica is ready. */
  predicate IsHealthy(s: Snapshot) {
    s.readyReplicas == s.replicas
  }

  /** The `<namespace>/<name>` key, or just `<name>` outside any namespace. */
  function KeyFor(namespace: string, name: string): string {
    if namespace == "" then name else namespace + "/" + name
  }

  function Key(s: Snapshot): string {
    KeyFor(s.namespace, s.name)
  }

  /**
   * The key derivation applied to every dequeued object: a key and an
   * optional error. An object without metadata yields the empty key and
   * an error.
   */
  function MetaNamespaceKey(obj: Object): (r: (string, Option<string>))
    ensures r.1.Some? <==> obj == Unsupported(None)
    ensures r.1.Some? ==> r.0 == ""
    ensures obj.Workload? ==> r.0 == Key(obj.snapshot)
  {
    match obj
    case Workload(s) => (Key(s), None)
    case Unsupported(Some(m)) => (KeyFor(m.namespace, m.name), None)
    case Unsupported(None) => ("", Some("object has no meta"))
  }

  predicate NoSlash(s: string) {
    forall i :: 0 <= i < |s| ==> s[i] != '/'
  }

  /** The position of the first '/' in `k`, or `|k|` when there is none. */
  function IndexOfSlash(k: string): (i: nat)
    ensures i <= |k|
    ensures forall j :: 0 <= j < i ==> k[j] != '/'
    ensures i < |k| ==> k[i] == '/'
  {
    if k == [] || k[0] == '/' then 0 else 1 + IndexOfSlash(k[1..])
  }

  /** Splits a key back into its namespace and name. */
  function SplitKey(k: string): (string, string) {
    var i := IndexOfSlash(k);
    if i == |k| then ("", k) else (k[..i], k[i + 1..])
  }

  /** Object names and namespaces never contain '/', so a key splits back into them. */
  lemma SplitKeyFor(namespace: string, name: string)
    requires NoSlash(namespace) && NoSlash(name)
    ensures SplitKey(KeyFor(namespace, name)) == (namespace, name)
  {
    var k := KeyFor(namespace, name);
    if namespace != "" {
      assert k[|namespace|] == '/';
      assert IndexOfSlash(k) == |namespace|;
      assert k[..|namespace|] == namespace && k[|namespace| + 1..] == name;
    }
  }

  /**
   * Distinct namespaced names never share a key. The kind is not part of
   * the key: a Deployment and a StatefulSet of the same name share one.
   */
  lemma KeyForInjective(ns1: string, n1: string, ns2: string, n2: string)
    requires NoSlash(ns1) && NoSlash(n1) && NoSlash(ns2) && NoSlash(n2)
    requires KeyFor(ns1, n1) == KeyFor(ns2, n2)
    ensures ns1 == ns2 && n1 == n2
  {
    SplitKeyFor(ns1, n1);
    SplitKeyFor(ns2, n2);
  }
}
