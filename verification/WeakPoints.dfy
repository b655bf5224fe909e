/** What goes wrong where the code trusts its callers: runs of the machine, step by step, in the
    order in which the code makes them. */
module WeakPoints {
  import opened Model
  import opened Records
  import opened Machine
  import opened Success
  import Orphans
  import Frames
  import TidyStore

  // ------------------------------------------------------------ two nodes of one name

  /** Dropping a node by name orphans nothing exactly if none of the nodes so called has its VM. The
      code looks at the first of them only. */
  lemma RemovalIsSafeIff(s: Sys, w: Work)
    requires s.mode == Busy(w) && ActEnabled(s, w, DropNode) && w.event.cluster in s.clusters
    requires Orphans.NoOrphan(s.vms, s.clusters) && TidyStore.Apart(s.clusters)
    ensures var r, s' := s.clusters[w.event.cluster], ActApply(s, w, DropNode);
      Orphans.NoOrphan(s'.vms, s'.clusters)
      <==> forall n :: n in Idents(r.nodes) && n.name == w.event.node ==> !Orphans.OursAt(s.vms, w.event.cluster, r.node, n)
  {
    var s', c, name := ActApply(s, w, DropNode), w.event.cluster, w.event.node;
    var r := s.clusters[c];
    Frames.DropNodeEffect(s, w);
    if Orphans.NoOrphan(s'.vms, s'.clusters) {
      forall n | n in Idents(r.nodes) && n.name == name ensures !Orphans.OursAt(s.vms, c, r.node, n) {
        LeftBehind(s, s', c, n);
      }
    }
    if forall n :: n in Idents(r.nodes) && n.name == name ==> !Orphans.OursAt(s.vms, c, r.node, n) {
      forall k | k in s'.vms && s'.vms[k].ours ensures Orphans.Recorded(s'.clusters, k, s'.vms[k].name) {
        var d, n :| Orphans.Accounts(s.clusters, d, n, k, s.vms[k].name);
        if d == c { assert n.name == name ==> Orphans.OursAt(s.vms, c, r.node, n); }
        assert Orphans.Accounts(s'.clusters, d, n, k, s'.vms[k].name);
      }
    }
  }

  /** The account of a VM is not taken over by another node. */
  lemma LeftBehind(s: Sys, s': Sys, c: string, n: ClusterNode)
    requires c in s.clusters && c in s'.clusters && s'.vms == s.vms && TidyStore.Apart(s.clusters)
    requires forall d :: d in s'.clusters ==>
      d in s.clusters && s'.clusters[d].node == s.clusters[d].node && Idents(s'.clusters[d].nodes) <= Idents(s.clusters[d].nodes)
    requires n in Idents(s.clusters[c].nodes) && n !in Idents(s'.clusters[c].nodes)
    requires Orphans.NoOrphan(s'.vms, s'.clusters)
    ensures !Orphans.OursAt(s.vms, c, s.clusters[c].node, n)
  {
    var k := VmKey(s.clusters[c].node, n.vmId);
    if Orphans.OursAt(s.vms, c, s.clusters[c].node, n) {
      var d, m :| Orphans.Accounts(s'.clusters, d, m, k, s.vms[k].name);
      OneAccount(s.clusters, c, n, d, m, k, s.vms[k].name);
    }
  }

  lemma OneAccount(clusters: map<string, Cluster>, c: string, n: ClusterNode, d: string, m: ClusterNode, k: VmKey, name: string)
    requires TidyStore.Apart(clusters)
    requires Orphans.Accounts(clusters, c, n, k, name) && Orphans.Accounts(clusters, d, m, k, name)
    ensures c == d && n == m
  {
  }

  const A := ClusterNode(1, "a", 2, 2048, "10.0.0.1", "local", Master, None)
  const B := ClusterNode(2, "b", 2, 2048, "10.0.0.2", "local", Worker, None)
  const B2 := ClusterNode(3, "b", 2, 2048, "10.0.0.3", "local", Worker, None)

  function Twins(): Cluster {
    Cluster("h", "k", "", "", [], [], [A, B, B2], Pending)
  }

  /** The creation succeeds. */
  lemma TwinsCreated() returns (t: Sys)
    ensures Idle(t) && t.clean && t.clusters == map["k" := Twins().(status := Sync)]
    ensures HasVm(t.vms, "k", Twins(), B) && HasVm(t.vms, "k", Twins(), B2)
  {
    assert Legal([]) && Exec([]) == Init();
    assert Twins().nodes[0] == A && Twins().nodes[1] == B && Twins().nodes[2] == B2;
    var steps, w;
    t, steps, w := CreationCanSucceed(Init(), Twins());
    assert InService(t.vms, "k", Twins(), B) && InService(t.vms, "k", Twins(), B2);
  }

  /** The worker takes up the deletion of node `name` and reads the record. */
  lemma BeginDeletion(s: Sys, c: string, name: string) returns (t: Sys, r: Cluster)
    requires Idle(s) && c in s.clusters && FindNode(s.clusters[c].nodes, name).Some?
    ensures r == s.clusters[c].(nodes := LockFirst(s.clusters[c].nodes, name, Some(DeleteLock)))
    ensures Reading(t, DeleteNode(c, name), r) && t.mode.work.gone == {}
    ensures t == s.(clusters := s.clusters[c := r], sent := t.sent, mode := t.mode)
  {
    Go(s, Env(OpDeleteNode(c, name)));
    var s1 := Next(s, Env(OpDeleteNode(c, name)));
    r := s1.clusters[c];
    assert s1.inflight == multiset{DeleteNode(c, name)};
    var s2 := Deliver(s1, DeleteNode(c, name));
    Go(s2, Do(ReadRecord));
    t := Next(s2, Do(ReadRecord));
    assert s2.clusters == s1.clusters && s1.clusters == s.clusters[c := r];
  }

  lemma Dropped(s: Sys, c: string, name: string, r: Cluster) returns (t: Sys)
    requires Reading(s, DeleteNode(c, name), r)
    requires FindOtherMaster(r.nodes, name).Some? && FindNode(r.nodes, name).Some?
    requires Ident(FindNode(r.nodes, name).value) in s.mode.work.gone
    ensures Reachable(t) && t.vms == s.vms && t.clusters == s.clusters[c := r.(nodes := Without(r.nodes, name))] && t.clean == s.clean
  {
    Go(s, Do(DropNode));
    t := Next(s, Do(DropNode));
  }

  lemma ShutDown(s: Sys, c: string, name: string, r: Cluster, n: ClusterNode) returns (t: Sys)
    requires Reading(s, DeleteNode(c, name), r) && n in r.nodes && Ident(n) in s.mode.work.seen
    ensures Reading(t, DeleteNode(c, name), r) && Ident(n) in t.mode.work.seen
    ensures t == s.(mode := t.mode, vms := SetPower(s.vms, VmKey(r.node, n.vmId), false))
  {
    var a := Remote(Call.Shutdown(n, true), true);
    Go(s, Do(a));
    t := Next(s, Do(a));
  }

  lemma Deleted(s: Sys, c: string, name: string, r: Cluster, n: ClusterNode) returns (t: Sys)
    requires Reading(s, DeleteNode(c, name), r) && n in r.nodes && Ident(n) in s.mode.work.seen
    ensures Reading(t, DeleteNode(c, name), r) && Ident(n) in t.mode.work.gone
    ensures t == s.(mode := t.mode, vms := s.vms - {VmKey(r.node, n.vmId)})
  {
    var a := Remote(Call.Delete(n, true), true);
    Go(s, Do(a));
    t := Next(s, Do(a));
  }

  /** The listed node `n` is drained and detached by the master `m`, and listed again. */
  lemma Detached(s: Sys, c: string, name: string, r: Cluster, m: ClusterNode, n: ClusterNode) returns (t: Sys)
    requires Reading(s, DeleteNode(c, name), r) && Ident(n) in s.mode.work.seen
    ensures Reading(t, DeleteNode(c, name), r) && t == s.(mode := t.mode) && Ident(n) in t.mode.work.seen
  {
    var e := DeleteNode(c, name);
    var s1 := Commanded(s, e, r, m, Drain(FullName(c, name)));
    var s2 := Commanded(s1, e, r, n, Leave);
    var s3 := Commanded(s2, e, r, m, Forget(FullName(c, name)));
    t := ListedAll(s3, e, r);
  }

  /** Its VM is shut down, seen stopped and deleted. */
  lemma VmRemoved(s: Sys, c: string, name: string, r: Cluster, n: ClusterNode) returns (t: Sys)
    requires Reading(s, DeleteNode(c, name), r) && n in r.nodes && Ident(n) in s.mode.work.seen
    ensures Reading(t, DeleteNode(c, name), r) && Ident(n) in t.mode.work.gone
    ensures t.clusters == s.clusters && t.clean == s.clean
    ensures forall k :: k != VmKey(r.node, n.vmId) && k in s.vms ==> k in t.vms && t.vms[k] == s.vms[k]
  {
    var s1 := ShutDown(s, c, name, r, n);
    var s2 := Looked(s1, DeleteNode(c, name), r, [Call.Poll(n, SawStopped)]);
    t := Deleted(s2, c, name, r, n);
  }

  /** Up to the listing, which shows the first `b`. */
  lemma TwinsListed() returns (t: Sys, r: Cluster)
    ensures r.nodes == LockFirst(Twins().nodes, "b", Some(DeleteLock)) && r.node == "h"
    ensures Reading(t, DeleteNode("k", "b"), r) && t.clusters.Keys == {"k"} && t.clean
    ensures HasVm(t.vms, "k", r, B2)
    ensures Ident(B) in Idents(r.nodes) ==> Ident(B) in t.mode.work.seen
  {
    var s1 := TwinsCreated();
    var s2;
    s2, r := BeginDeletion(s1, "k", "b");
    t := ListedAll(s2, DeleteNode("k", "b"), r);
    if Ident(B) in Idents(r.nodes) { assert Ident(B) in Found(s2.vms, "k", r); }
  }

  /** Two nodes are called `b`, and their cluster has been created without a fault. Deleting `b`
      detaches the first one and deletes its VM; then both nodes leave the record, and the second one's
      VM stays behind unaccounted for. No call fails, and nobody outside interferes. */
  lemma EqualNamesOrphanAVm() returns (t: Sys)
    ensures Reachable(t) && t.clean && !Orphans.NoOrphan(t.vms, t.clusters)
  {
    var s, r := FirstTwinGone();
    TwinsFound(r);
    t := Dropped(s, "k", "b", r);
    OnlyA(t.clusters, VmKey("h", 3), FullName("k", "b"));
  }

  /** Up to the deletion of the first one's VM. */
  lemma FirstTwinGone() returns (t: Sys, r: Cluster)
    ensures r.nodes == LockFirst(Twins().nodes, "b", Some(DeleteLock)) && r.node == "h"
    ensures Reading(t, DeleteNode("k", "b"), r) && t.clusters.Keys == {"k"} && t.clean
    ensures HasVm(t.vms, "k", r, B2) && Ident(B) in t.mode.work.gone
  {
    var s1;
    s1, r := TwinsListed();
    TwinsFound(r);
    var b := r.nodes[1];
    assert Ident(b) == Ident(B);
    var s2 := Detached(s1, "k", "b", r, A, b);
    t := VmRemoved(s2, "k", "b", r, b);
  }

  lemma OnlyA(clusters: map<string, Cluster>, k: VmKey, name: string)
    requires forall c :: c in clusters ==> clusters[c].nodes == [A]
    requires k.id != A.vmId
    ensures !Orphans.Recorded(clusters, k, name)
  {
    forall c, n | c in clusters && n in Idents(clusters[c].nodes) ensures n.vmId == A.vmId {}
  }

  lemma {:induction false} NothingLeft(nodes: seq<ClusterNode>, name: string)
    requires forall n :: n in nodes ==> n.name == name
    ensures Without(nodes, name) == []
  {
    if nodes != [] {
      assert nodes == [nodes[0]] + nodes[1..];
      NothingLeft(nodes[1..], name);
    }
  }

  lemma TwinsFound(r: Cluster)
    requires r.nodes == LockFirst(Twins().nodes, "b", Some(DeleteLock))
    ensures r.nodes == [A, B.(lock := Some(DeleteLock)), B2]
    ensures FindNode(r.nodes, "b") == Some(B.(lock := Some(DeleteLock))) && FindOtherMaster(r.nodes, "b") == Some(A)
    ensures Without(r.nodes, "b") == [A]
  {
    var nodes := Twins().nodes;
    assert nodes[1..][0] == B && FirstIndex(nodes[1..], "b") == 0;
    assert FirstIndex(nodes, "b") == 1;
    var b := B.(lock := Some(DeleteLock));
    assert r.nodes[1..] == [b, B2] && r.nodes[1..][1..] == [B2] && r.nodes[1..][1..][1..] == [];
    NothingLeft([b, B2], "b");
    assert Without(r.nodes, "b") == [A] + [];
  }

  // ------------------------------------------------------------ a stranger's VM

  /** The creation fails. */
  lemma Failed(s: Sys, c: string) returns (t: Sys)
    requires Reachable(s) && s.mode.Busy? && s.mode.work.event == Event.CreateCluster(c) && s.mode.work.phase == Working
    requires c in s.clusters
    ensures Reachable(t) && t.mode.Probing?
    ensures t == s.(mode := Probing, clusters := s.clusters[c := s.clusters[c].(status := Status.Error)], dispatched := t.dispatched, clean := false)
  {
    Go(s, Do(Conclude(false)));
    var s1 := Next(s, Do(Conclude(false)));
    t := FailedClosing(s1, c);
  }

  lemma FailedClosing(s: Sys, c: string) returns (t: Sys)
    requires Reachable(s) && s.mode.Busy? && s.mode.work.event == Event.CreateCluster(c) && s.mode.work.phase == Concluded(false)
    requires c in s.clusters
    ensures Reachable(t) && t.mode.Probing?
    ensures t == s.(mode := Probing, clusters := s.clusters[c := s.clusters[c].(status := Status.Error)], dispatched := t.dispatched, clean := false)
  {
    Go(s, Do(SetStatus(Status.Error)));
    var s1 := Next(s, Do(SetStatus(Status.Error)));
    assert s1 == s.(mode := s1.mode, clusters := s.clusters[c := s.clusters[c].(status := Status.Error)]);
    assert s1.mode.work == s.mode.work.(statusDone := true, calls := s1.mode.work.calls);
    Go(s1, Do(Finish(false)));
    t := Next(s1, Do(Finish(false)));
    assert s1.excused + {} == s1.excused;
  }

  function Stranger(): Vm {
    Vm("database", false, true, 8, 65536, {})
  }

  function Small(): Cluster {
    Cluster("h", "k", "", "", [], [], [A], Pending)
  }

  /** Somebody else's VM has the id of a requested node; the creation finds it and fails. */
  lemma StrangerFound() returns (t: Sys)
    ensures Idle(t) && t.clusters == map["k" := Small().(status := Status.Error)] && t.vms == map[VmKey("h", 1) := Stranger()]
  {
    assert Legal([]) && Exec([]) == Init();
    var e := Outside(VmKey("h", 1), Some(Stranger()));
    Go(Init(), Env(e));
    var s0 := Next(Init(), Env(e));
    var s1 := Prepared(s0, Small());
    var s2 := ListedAll(s1, Event.CreateCluster("k"), Small().(status := Creating));
    var s3 := Looked(s2, Event.CreateCluster("k"), Small().(status := Creating), [Call.ListContainers({}, true)]);
    t := Failed(s3, "k");
  }

  /** The worker takes up a change of the node's resources and reads the record. */
  lemma BeginChange(s: Sys, c: string, name: string, cores: nat, memory: nat) returns (t: Sys, r: Cluster)
    requires Idle(s) && c in s.clusters
    ensures r == s.clusters[c].(nodes := LockAll(s.clusters[c].nodes, name, ChangeLock))
    ensures Reading(t, ChangeResources(c, name, cores, memory), r)
    ensures t == s.(clusters := s.clusters[c := r], sent := t.sent, mode := t.mode)
  {
    var op := OpChange(c, name, cores, memory);
    Go(s, Env(op));
    var s1 := Next(s, Env(op));
    r := s1.clusters[c];
    assert s1.inflight == multiset{ChangeResources(c, name, cores, memory)};
    var s2 := Deliver(s1, ChangeResources(c, name, cores, memory));
    Go(s2, Do(ReadRecord));
    t := Next(s2, Do(ReadRecord));
    assert s2.clusters == s1.clusters && s1.clusters == s.clusters[c := r];
  }

  lemma Configured(s: Sys, event: Event, r: Cluster, n: ClusterNode) returns (t: Sys)
    requires event.ChangeResources? && Reading(s, event, r) && FindNode(r.nodes, event.node) == Some(n)
    requires VmKey(r.node, n.vmId) in s.vms
    ensures Reachable(t)
    ensures var k := VmKey(r.node, n.vmId); t.vms == s.vms[k := s.vms[k].(cores := event.cores, memory := event.memory)]
  {
    var a := Remote(Call.Configure(n, event.cores, event.memory, true), true);
    Go(s, Do(a));
    t := Next(s, Do(a));
  }

  /** After that, a resource change of the node reconfigures the stranger's VM. */
  lemma ChangeReachesAStranger() returns (s: Sys, t: Sys)
    ensures Reachable(s) && Reachable(t)
    ensures var k := VmKey("h", 1);
      k in s.vms && k in t.vms && !s.vms[k].ours && s.vms[k].cores == 8 && t.vms[k].cores == 1 && t.vms[k].memory == 512
  {
    s := StrangerFound();
    var u, r := BeginChange(s, "k", "a", 1, 512);
    var n := A.(lock := Some(ChangeLock));
    assert r.nodes == [n];
    t := Configured(u, ChangeResources("k", "a", 1, 512), r, n);
  }
}
