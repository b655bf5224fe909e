/** Makoon never forgets a VM it created: the record is written before the VM is made and leaves
    the store only after the VM is gone (core/src/dispatcher/usecase/delete_node_from_cluster.rs:
    49-57, 103-137; delete_cluster.rs:21-25; core/src/operator.rs:128-133, 185-199). */
module Orphans {
  import opened Model
  import opened Records
  import opened Machine
  import opened Frames
  import opened Requests

  /** Node `n` of cluster `c` accounts for a VM called `name` at `k`. */
  ghost predicate Accounts(clusters: map<string, Cluster>, c: string, n: ClusterNode, k: VmKey, name: string) {
    && c in clusters && n in Idents(clusters[c].nodes)
    && clusters[c].node == k.host && n.vmId == k.id && FullName(c, n.name) == name
  }

  ghost predicate Recorded(clusters: map<string, Cluster>, k: VmKey, name: string) {
    exists c, n :: Accounts(clusters, c, n, k, name)
  }

  /** Every VM that makoon made belongs to a node of a stored cluster. */
  ghost predicate NoOrphan(vms: map<VmKey, Vm>, clusters: map<string, Cluster>) {
    forall k :: k in vms && vms[k].ours ==> Recorded(clusters, k, vms[k].name)
  }

  ghost predicate OursAt(vms: map<VmKey, Vm>, c: string, host: string, n: ClusterNode) {
    Matches(vms, c, host, n) && vms[VmKey(host, n.vmId)].ours
  }

  /** While a deletion runs: the nodes ticked off have no VM of ours left, and the copy the worker
      read still accounts for every VM of ours that its cluster accounts for. */
  ghost predicate DeletionTracks(s: Sys) {
    s.mode.Busy? && s.mode.work.snap.Some? ==>
      var w, r := s.mode.work, s.mode.work.snap.value;
      && (w.event.DeleteCluster? || w.event.DeleteNode? ==>
            forall n :: n in w.gone ==> !OursAt(s.vms, w.event.cluster, r.node, n))
      && (w.event.DeleteCluster? ==> NoOrphan(s.vms, s.clusters[w.event.cluster := r]))
  }

  ghost predicate Accounted(s: Sys) {
    NoOrphan(s.vms, s.clusters) && DeletionTracks(s)
  }

  /** No VM of ours appears: those of `after` are among those of `before`, under the same name. */
  ghost predicate NoNewOurs(before: map<VmKey, Vm>, after: map<VmKey, Vm>) {
    forall k :: k in after && after[k].ours ==> k in before && before[k].ours && before[k].name == after[k].name
  }

  lemma RecordedExtends(before: map<string, Cluster>, after: map<string, Cluster>, k: VmKey, name: string)
    requires Extends(before, after) && Recorded(before, k, name)
    ensures Recorded(after, k, name)
  {
    var c, n :| Accounts(before, c, n, k, name);
    assert Accounts(after, c, n, k, name);
  }

  lemma NoOrphanMoves(vms: map<VmKey, Vm>, vms': map<VmKey, Vm>, before: map<string, Cluster>, after: map<string, Cluster>)
    requires NoOrphan(vms, before) && NoNewOurs(vms, vms') && Extends(before, after)
    ensures NoOrphan(vms', after)
  {
    forall k | k in vms' && vms'[k].ours ensures Recorded(after, k, vms'[k].name) {
      RecordedExtends(before, after, k, vms'[k].name);
    }
  }

  /** A change that creates no VM of ours and drops no record keeps the account, as long as the
      worker's copy and its tick-list stay as they are. */
  lemma AccountedMoves(s: Sys, s': Sys)
    requires Accounted(s) && SnapKept(s) && SnapKept(s')
    requires NoNewOurs(s.vms, s'.vms) && Extends(s.clusters, s'.clusters)
    requires s'.mode.Busy? && s'.mode.work.snap.Some? ==>
      && s.mode.Busy? && s'.mode.work.event == s.mode.work.event
      && s'.mode.work.snap == s.mode.work.snap && s'.mode.work.gone == s.mode.work.gone
    ensures Accounted(s')
  {
    NoOrphanMoves(s.vms, s'.vms, s.clusters, s'.clusters);
    if s'.mode.Busy? && s'.mode.work.snap.Some? {
      var c, r := s.mode.work.event.cluster, s.mode.work.snap.value;
      if s.mode.work.event.DeleteCluster? {
        NoOrphanMoves(s.vms, s'.vms, s.clusters[c := r], s'.clusters[c := r]);
      }
    }
  }

  lemma EnvAccounted(s: Sys, e: EnvStep)
    requires Accounted(s) && SnapKept(s) && EnvEnabled(s, e)
    ensures Accounted(EnvApply(s, e))
  {
    EnvExtends(s, e);
    assert NoNewOurs(s.vms, EnvApply(s, e).vms);
    assert SnapKept(EnvApply(s, e));
    AccountedMoves(s, EnvApply(s, e));
  }

  // ---- the worker's own steps

  lemma EffectNoNewOurs(vms: map<VmKey, Vm>, c: string, host: string, call: Call)
    requires !call.Create?
    ensures NoNewOurs(vms, Effect(vms, c, host, call))
  {
    match call
    case Ssh(_, command, _) => match command { case AddHost(_) => case ScrubHost(_) => case _ => }
    case _ =>
  }

  /** A listing or a successful delete is good evidence that a VM of ours is not there. */
  lemma GoneGrows(s: Sys, w: Work, call: Call, effect: bool)
    requires s.mode == Busy(w) && ActEnabled(s, w, Remote(call, effect))
    requires w.event.DeleteCluster? || w.event.DeleteNode?
    requires forall n :: n in w.gone ==> !OursAt(s.vms, w.event.cluster, w.snap.value.node, n)
    ensures var s' := ActApply(s, w, Remote(call, effect));
      forall n :: n in Learn(w, s.vms, call).gone ==> !OursAt(s'.vms, w.event.cluster, w.snap.value.node, n)
  {
    EffectNoNewOurs(s.vms, w.event.cluster, w.snap.value.node, call);
    LearnGone(w, s.vms, call);
    if call.Delete? && call.ok {
      assert VmKey(w.snap.value.node, call.node.vmId) !in ActApply(s, w, Remote(call, effect)).vms;
    }
  }

  lemma RemoteAccounted(s: Sys, w: Work, call: Call, effect: bool)
    requires Accounted(s) && SnapKept(s)
    requires s.mode == Busy(w) && ActEnabled(s, w, Remote(call, effect))
    ensures Accounted(ActApply(s, w, Remote(call, effect)))
  {
    var s', c, r := ActApply(s, w, Remote(call, effect)), w.event.cluster, w.snap.value;
    LearnKeeps(w, s.vms, call);
    if call.Create? {
      var n := call.node;
      forall k | k in s'.vms && s'.vms[k].ours ensures Recorded(s'.clusters, k, s'.vms[k].name) {
        if effect && k == VmKey(r.node, n.vmId) {
          assert Ident(n) in Idents(r.nodes);
          assert Accounts(s.clusters, c, Ident(n), k, FullName(c, n.name));
        }
      }
    } else {
      EffectNoNewOurs(s.vms, c, r.node, call);
      NoOrphanMoves(s.vms, s'.vms, s.clusters, s.clusters);
      if w.event.DeleteCluster? || w.event.DeleteNode? { GoneGrows(s, w, call, effect); }
      if w.event.DeleteCluster? {
        NoOrphanMoves(s.vms, s'.vms, s.clusters[c := r], s.clusters[c := r]);
      }
    }
  }

  /** Removing the node is safe because, names being unique, the one node so called is ticked off. */
  lemma DropNodeAccounted(s: Sys, w: Work)
    requires Accounted(s) && SnapKept(s) && UniqueNames(s)
    requires s.mode == Busy(w) && ActEnabled(s, w, DropNode)
    ensures Accounted(ActApply(s, w, DropNode))
  {
    var s', c, name, r := ActApply(s, w, DropNode), w.event.cluster, w.event.node, w.snap.value;
    DropNodeEffect(s, w);
    var target := Ident(FindNode(r.nodes, name).value);
    assert target in Idents(r.nodes);
    forall k | k in s'.vms && s'.vms[k].ours ensures Recorded(s'.clusters, k, s'.vms[k].name) {
      var d, n :| Accounts(s.clusters, d, n, k, s.vms[k].name);
      if d == c && n.name == name {
        UniqueIdent(s.clusters[c].nodes, n, target);
        assert false;
      }
      assert Accounts(s'.clusters, d, n, k, s'.vms[k].name);
    }
  }

  lemma DropClusterAccounted(s: Sys, w: Work)
    requires Accounted(s) && SnapKept(s)
    requires s.mode == Busy(w) && ActEnabled(s, w, DropCluster)
    ensures Accounted(ActApply(s, w, DropCluster))
  {
    var s', c, r := ActApply(s, w, DropCluster), w.event.cluster, w.snap.value;
    var read := s.clusters[c := r];
    forall k | k in s'.vms && s'.vms[k].ours ensures Recorded(s'.clusters, k, s'.vms[k].name) {
      var d, n :| Accounts(read, d, n, k, s.vms[k].name);
      if d == c {
        assert false;
      }
      assert Accounts(s'.clusters, d, n, k, s'.vms[k].name);
    }
  }

  lemma SnapReadAccounted(s: Sys, w: Work, a: Act)
    requires Accounted(s) && SnapKept(s)
    requires s.mode == Busy(w) && ActEnabled(s, w, a) && (a.ReadRecord? || a.SaveKey?)
    ensures Accounted(ActApply(s, w, a))
  {
    ReadGivesCopy(s, w, a);
    if w.event.cluster in s.clusters { FreshCopyAccounted(s, ActApply(s, w, a)); }
  }

  lemma FreshCopyAccounted(s: Sys, s': Sys)
    requires Accounted(s) && FreshCopy(s, s')
    ensures Accounted(s')
  {
    var c := s.mode.work.event.cluster;
    RewrittenExtends(s.clusters, s'.clusters, c);
    NoOrphanMoves(s.vms, s'.vms, s.clusters, s'.clusters);
    assert s'.clusters[c := s'.clusters[c]] == s'.clusters;
  }

  lemma OtherAccounted(s: Sys, w: Work, a: Act)
    requires Accounted(s) && SnapKept(s)
    requires s.mode == Busy(w) && ActEnabled(s, w, a)
    requires Quiet(a)
    ensures Accounted(ActApply(s, w, a))
  {
    var s', c := ActApply(s, w, a), w.event.cluster;
    ActRewrites(s, w, a);
    RewrittenExtends(s.clusters, s'.clusters, c);
    SnapKeptAct(s, w, a);
    QuietWork(s, w, a, s');
    ActKeepsEvent(s, w, a);
    AccountedMoves(s, s');
  }

  lemma ActAccounted(s: Sys, w: Work, a: Act)
    requires Accounted(s) && SnapKept(s) && UniqueNames(s)
    requires s.mode == Busy(w) && ActEnabled(s, w, a)
    ensures Accounted(ActApply(s, w, a))
  {
    match a
    case Remote(call, effect) => RemoteAccounted(s, w, call, effect);
    case DropNode => DropNodeAccounted(s, w);
    case DropCluster => DropClusterAccounted(s, w);
    case ReadRecord => SnapReadAccounted(s, w, a);
    case SaveKey(_) => SnapReadAccounted(s, w, a);
    case _ => OtherAccounted(s, w, a);
  }

  /** In every reachable state of callers, worker and failing hypervisor, every VM that makoon has
      created and that still exists is the VM of a node of a stored cluster, by id and by name;
      provided callers never use a node name twice within a cluster. */
  lemma {:induction false} NoVmIsOrphaned(steps: seq<Step>)
    requires Legal(steps) && AllAskUniquely(steps)
    ensures NoOrphan(Exec(steps).vms, Exec(steps).clusters)
    ensures Accounted(Exec(steps))
  {
    if steps != [] {
      var before, st := steps[..|steps| - 1], steps[|steps| - 1];
      var s := Exec(before);
      NoVmIsOrphaned(before);
      SnapKeptAlways(before);
      NamesStayUnique(before);
      match st
      case Env(e) => EnvAccounted(s, e);
      case Loop(l) => AccountedMoves(s, LoopApply(s, l));
      case Do(a) => ActAccounted(s, s.mode.work, a);
    }
  }
}
