/** The values that flow through makoon: records of clusters and nodes, events, log entries
    (core/src/model.rs, core/src/event.rs) and the two result types. */
module Model {

  datatype Option<+T> = None | Some(value: T)

  datatype Result<+R, +E> = Ok(value: R) | Err(error: E)

  /** What most fallible operations of the core return. */
  type Outcome = Result<(), string>

  datatype NodeType = Master | Worker

  datatype Lock = CreateLock | DeleteLock | ChangeLock

  datatype ClusterNode = ClusterNode(
    vmId: nat,
    name: string,
    cores: nat,
    memory: nat,
    ipAddress: string,
    storagePool: string,
    nodeType: NodeType,
    lock: Option<Lock>)

  datatype Status = Pending | Creating | Sync | OutOfSync | Destroying | Error

  datatype HelmApp = HelmApp(id: string, releaseName: string, chart: string)

  datatype ClusterResource = ClusterResource(id: string, name: string, content: string)

  datatype Cluster = Cluster(
    node: string,
    clusterName: string,
    clusterConfig: string,
    sshKey: string,
    helmApps: seq<HelmApp>,
    clusterResources: seq<ClusterResource>,
    nodes: seq<ClusterNode>,
    status: Status)

  datatype Level = Info | Fault

  datatype LogEntry = LogEntry(date: int, clusterName: string, message: string, level: Level)

  datatype Event =
    | CreateCluster(cluster: string)
    | DeleteCluster(cluster: string)
    | AddNode(cluster: string, node: string)
    | DeleteNode(cluster: string, node: string)
    | ChangeResources(cluster: string, node: string, cores: nat, memory: nat)

  /** The event is about one node of its cluster. */
  predicate NamesNode(e: Event) {
    e.AddNode? || e.DeleteNode? || e.ChangeResources?
  }

  /** The name a node has on the hypervisor and in host files. */
  function FullName(cluster: string, node: string): string {
    cluster + "-" + node
  }

  /** The first node with the given name, as `iter().find` returns it. */
  function FindNode(nodes: seq<ClusterNode>, name: string): (r: Option<ClusterNode>)
    ensures r.Some? ==> r.value in nodes && r.value.name == name
    ensures r.None? <==> forall n :: n in nodes ==> n.name != name
  {
    if nodes == [] then None
    else if nodes[0].name == name then Some(nodes[0])
    else
      assert nodes == [nodes[0]] + nodes[1..];
      FindNode(nodes[1..], name)
  }

  /** The first master whose name is not `name`. */
  function FindOtherMaster(nodes: seq<ClusterNode>, name: string): (r: Option<ClusterNode>)
    ensures r.Some? ==> r.value in nodes && r.value.nodeType == Master && r.value.name != name
    ensures r.None? <==> forall n :: n in nodes ==> n.nodeType != Master || n.name == name
  {
    if nodes == [] then None
    else if nodes[0].nodeType == Master && nodes[0].name != name then Some(nodes[0])
    else
      assert nodes == [nodes[0]] + nodes[1..];
      FindOtherMaster(nodes[1..], name)
  }

  /** The first master of all. */
  function FindMaster(nodes: seq<ClusterNode>): (r: Option<ClusterNode>)
    ensures r.Some? ==> r.value in nodes && r.value.nodeType == Master
    ensures r.None? <==> forall n :: n in nodes ==> n.nodeType != Master
  {
    if nodes == [] then None
    else if nodes[0].nodeType == Master then Some(nodes[0])
    else
      assert nodes == [nodes[0]] + nodes[1..];
      FindMaster(nodes[1..])
  }
}
