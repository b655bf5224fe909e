/** What becomes of the stored records, said without the functions that compute it: which record is
    rewritten, what in it, and that everything else is as before. */
module Edits {
  import opened Model
  import opened Records
  import opened Machine
  import opened Picks

  /** Of all records only that of `c` may differ. */
  ghost predicate OnlyRecord(before: map<string, Cluster>, after: map<string, Cluster>, c: string) {
    c in before && c in after && after == before[c := after[c]]
  }

  /** Same number of nodes; those of another name are the same, in their places. */
  ghost predicate OthersStay(before: seq<ClusterNode>, after: seq<ClusterNode>, name: string) {
    |after| == |before| && forall i :: 0 <= i < |before| && before[i].name != name ==> after[i] == before[i]
  }

  ghost predicate AllResized(before: Cluster, after: Cluster, name: string, cores: nat, memory: nat) {
    && after == before.(nodes := after.nodes) && OthersStay(before.nodes, after.nodes, name)
    && forall i :: 0 <= i < |before.nodes| && before.nodes[i].name == name ==>
         after.nodes[i] == before.nodes[i].(cores := cores, memory := memory)
  }

  ghost predicate AllLocked(before: Cluster, after: Cluster, name: string, lock: Lock) {
    && after == before.(nodes := after.nodes) && OthersStay(before.nodes, after.nodes, name)
    && forall i :: 0 <= i < |before.nodes| && before.nodes[i].name == name ==>
         after.nodes[i] == before.nodes[i].(lock := Some(lock))
  }

  ghost predicate FirstOf(nodes: seq<ClusterNode>, i: nat, name: string) {
    i < |nodes| && nodes[i].name == name && forall j :: 0 <= j < i ==> nodes[j].name != name
  }

  /** The first node of the name has this lock now, and nothing else is different. */
  ghost predicate FirstRelocked(before: Cluster, after: Cluster, name: string, lock: Option<Lock>) {
    exists i: nat :: FirstOf(before.nodes, i, name) && after == before.(nodes := before.nodes[i := before.nodes[i].(lock := lock)])
  }

  function NotNamed(name: string): ClusterNode -> bool {
    (n: ClusterNode) => n.name != name
  }

  ghost predicate NamedRemoved(before: Cluster, after: Cluster, name: string) {
    after == before.(nodes := after.nodes) &&
    exists at :: Picked(before.nodes, after.nodes, NotNamed(name), at)
  }

  ghost predicate Appended(before: Cluster, after: Cluster, n: ClusterNode) {
    && after == before.(nodes := after.nodes) && |after.nodes| == |before.nodes| + 1
    && after.nodes[..|before.nodes|] == before.nodes && after.nodes[|before.nodes|] == n
  }

  lemma {:induction false} WithoutPicks(nodes: seq<ClusterNode>, name: string) returns (at: seq<nat>)
    ensures Picked(nodes, Without(nodes, name), NotNamed(name), at)
  {
    if nodes == [] { return []; }
    var keep := NotNamed(name);
    var rest := WithoutPicks(nodes[1..], name);
    at := PickNext(nodes, Without(nodes[1..], name), keep, rest);
    assert Without(nodes, name) == (if keep(nodes[0]) then [nodes[0]] else []) + Without(nodes[1..], name);
  }

  function NotFor(name: string): LogEntry -> bool {
    (e: LogEntry) => e.clusterName != name
  }

  /** Clearing a cluster's log drops its entries, and the others stay in their order. */
  lemma {:induction false} LogsWithoutPicks(logs: seq<LogEntry>, cluster: string) returns (at: seq<nat>)
    ensures Picked(logs, LogsWithout(logs, cluster), NotFor(cluster), at)
  {
    if logs == [] { return []; }
    var keep := NotFor(cluster);
    var rest := LogsWithoutPicks(logs[1..], cluster);
    at := PickNext(logs, LogsWithout(logs[1..], cluster), keep, rest);
    assert LogsWithout(logs, cluster) == (if keep(logs[0]) then [logs[0]] else []) + LogsWithout(logs[1..], cluster);
  }

  lemma LockFirstRelocks(r: Cluster, name: string, lock: Option<Lock>)
    requires FindNode(r.nodes, name).Some?
    ensures FirstRelocked(r, r.(nodes := LockFirst(r.nodes, name, lock)), name, lock)
  {
    assert FirstOf(r.nodes, FirstIndex(r.nodes, name), name);
  }

  // ------------------------------------------------------------ requests

  /** What a request of a caller has done to the store. */
  ghost predicate Requested(e: EnvStep, before: map<string, Cluster>, after: map<string, Cluster>) {
    match e
    case OpCreate(r) => r.clusterName !in before && after == before[r.clusterName := r]
    case OpAddNode(c, n) => OnlyRecord(before, after, c) && Appended(before[c], after[c], n.(lock := Some(CreateLock)))
    case OpDeleteNode(c, name) => OnlyRecord(before, after, c) && FirstRelocked(before[c], after[c], name, Some(DeleteLock))
    case OpChange(c, name, _, _) => OnlyRecord(before, after, c) && AllLocked(before[c], after[c], name, ChangeLock)
    case OpDeleteCluster(c) => OnlyRecord(before, after, c) && after[c] == before[c].(status := Destroying)
    case OpEditApps(c, apps, resources) =>
      OnlyRecord(before, after, c) && after[c] == before[c].(helmApps := apps, clusterResources := resources)
    case _ => after == before
  }

  /** Every step of a caller or of an outsider does to the store what was asked, and nothing else. */
  lemma RequestsAreMet(s: Sys, e: EnvStep)
    requires EnvEnabled(s, e)
    ensures Requested(e, s.clusters, EnvApply(s, e).clusters)
  {
    match e
    case OpDeleteNode(c, name) =>
      LockFirstRelocks(s.clusters[c], name, Some(DeleteLock));
      assert EnvApply(s, e).clusters == s.clusters[c := s.clusters[c].(nodes := LockFirst(s.clusters[c].nodes, name, Some(DeleteLock)))];
    case OpChange(c, name, _, _) => ChangeIsMet(s, e);
    case OpAddNode(c, n) => AdditionIsMet(s, c, n);
    case OpCreate(_) =>
    case OpDeleteCluster(_) =>
    case OpEditApps(_, _, _) =>
    case _ =>
  }

  lemma ChangeIsMet(s: Sys, e: EnvStep)
    requires EnvEnabled(s, e) && e.OpChange?
    ensures Requested(e, s.clusters, EnvApply(s, e).clusters)
  {
  }

  lemma AdditionIsMet(s: Sys, c: string, n: ClusterNode)
    requires EnvEnabled(s, OpAddNode(c, n))
    ensures Requested(OpAddNode(c, n), s.clusters, EnvApply(s, OpAddNode(c, n)).clusters)
  {
    var x := n.(lock := Some(CreateLock));
    assert (s.clusters[c].nodes + [x])[..|s.clusters[c].nodes|] == s.clusters[c].nodes;
  }

  // ------------------------------------------------------------ steps of the worker

  /** What a step of the worker does to the record of its event's cluster, if that is stored. */
  ghost predicate Edited(w: Work, a: Act, before: Cluster, after: Cluster) {
    match a
    case SetStatus(st) => after == before.(status := st)
    case SaveKey(key) => after == before.(sshKey := key)
    case SaveConfig(config) => after == before.(clusterConfig := config)
    case SaveResources =>
      w.event.ChangeResources? && AllResized(before, after, w.event.node, w.event.cores, w.event.memory)
    case DropNode => NamesNode(w.event) && NamedRemoved(before, after, w.event.node)
    case Unlock =>
      NamesNode(w.event) && if FindNode(before.nodes, w.event.node).Some? then FirstRelocked(before, after, w.event.node, None)
                            else after == before
    case _ => after == before
  }

  /** What a step of the worker does to the store. */
  ghost predicate Worked(w: Work, a: Act, before: map<string, Cluster>, after: map<string, Cluster>) {
    var c := w.event.cluster;
    if c !in before then after == before
    else if a.DropCluster? then after == before - {c}
    else OnlyRecord(before, after, c) && Edited(w, a, before[c], after[c])
  }

  lemma WorkIsDone(s: Sys, w: Work, a: Act)
    requires s.mode == Busy(w) && ActEnabled(s, w, a)
    ensures Worked(w, a, s.clusters, ActApply(s, w, a).clusters)
  {
    match a
    case SetStatus(st) => StatusIsSet(s, w, st);
    case SaveKey(key) => KeyIsSaved(s, w, key);
    case SaveConfig(config) => ConfigIsSaved(s, w, config);
    case SaveResources => ResourcesAreSaved(s, w);
    case DropNode => NodeIsDropped(s, w);
    case Unlock => LockIsCleared(s, w);
    case _ => NothingIsEdited(s, w, a);
  }

  lemma StatusIsSet(s: Sys, w: Work, st: Status)
    ensures Worked(w, SetStatus(st), s.clusters, SetStatusApply(s, w, st).clusters)
  {
  }

  lemma KeyIsSaved(s: Sys, w: Work, key: string)
    ensures Worked(w, SaveKey(key), s.clusters, SaveKeyApply(s, w, key).clusters)
  {
  }

  lemma ConfigIsSaved(s: Sys, w: Work, config: string)
    ensures Worked(w, SaveConfig(config), s.clusters, SaveConfigApply(s, w, config).clusters)
  {
  }

  lemma ResourcesAreSaved(s: Sys, w: Work)
    requires w.event.ChangeResources?
    ensures Worked(w, SaveResources, s.clusters, SaveResourcesApply(s, w).clusters)
  {
  }

  lemma NodeIsDropped(s: Sys, w: Work)
    requires w.event.DeleteNode?
    ensures Worked(w, DropNode, s.clusters, DropNodeApply(s, w).clusters)
  {
    if w.event.cluster in s.clusters {
      var at := WithoutPicks(s.clusters[w.event.cluster].nodes, w.event.node);
    }
  }

  lemma LockIsCleared(s: Sys, w: Work)
    requires NamesNode(w.event)
    ensures Worked(w, Unlock, s.clusters, UnlockApply(s, w).clusters)
  {
    var c := w.event.cluster;
    if c in s.clusters && FindNode(s.clusters[c].nodes, w.event.node).Some? {
      LockFirstRelocks(s.clusters[c], w.event.node, None);
    }
  }

  lemma NothingIsEdited(s: Sys, w: Work, a: Act)
    requires s.mode == Busy(w) && ActEnabled(s, w, a)
    requires !a.SetStatus? && !a.SaveKey? && !a.SaveConfig? && !a.SaveResources? && !a.DropNode? && !a.Unlock?
    ensures Worked(w, a, s.clusters, ActApply(s, w, a).clusters)
  {
    var c := w.event.cluster;
    if !a.DropCluster? && c in s.clusters { assert s.clusters[c := s.clusters[c]] == s.clusters; }
  }
}
