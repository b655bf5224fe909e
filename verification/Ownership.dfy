/** Whose VMs the worker's steps reach. Steps that go by a node's id alone, all those of a resource
    change (core/src/dispatcher/usecase/change_resources.rs:39-47), stay on the node's own VM over
    every run in which each request takes free ids, and only then. */
module Ownership {
  import opened Model
  import opened Records
  import opened Machine
  import opened Frames
  import opened Isolation
  import opened TidyStore

  /** Node `n` of cluster `c` is recorded for the VM at `k`. */
  ghost predicate Claims(clusters: map<string, Cluster>, c: string, n: ClusterNode, k: VmKey) {
    c in clusters && n in Idents(clusters[c].nodes) && k == VmKey(clusters[c].node, n.vmId)
  }

  /** No two recorded nodes claim one VM, and a VM that is claimed carries the node's name. */
  ghost predicate Owned(clusters: map<string, Cluster>, vms: map<VmKey, Vm>) {
    && (forall c, n, d, m, k :: Claims(clusters, c, n, k) && Claims(clusters, d, m, k) ==> c == d && n == m)
    && (forall c, n, k :: Claims(clusters, c, n, k) && k in vms ==> vms[k].name == FullName(c, n.name))
  }

  /** Nobody else claims the VM at `k`, and if it exists it has the right name. */
  ghost predicate FreeFor(s: Sys, c: string, n: ClusterNode, k: VmKey) {
    && (forall d, m :: Claims(s.clusters, d, m, k) ==> d == c && m == n)
    && (k in s.vms ==> s.vms[k].name == FullName(c, n.name))
  }

  /** What a caller can check before recording new nodes: their ids are free on the host. */
  ghost predicate AsksFreely(s: Sys, e: EnvStep) {
    match e
    case OpCreate(r) =>
      && (forall n, m :: n in Idents(r.nodes) && m in Idents(r.nodes) && n.vmId == m.vmId ==> n == m)
      && (forall n :: n in Idents(r.nodes) ==> FreeFor(s, r.clusterName, n, VmKey(r.node, n.vmId)))
    case OpAddNode(c, n) => c in s.clusters && FreeFor(s, c, Ident(n), VmKey(s.clusters[c].node, n.vmId))
    case _ => true
  }

  ghost predicate AllAskFreely(steps: seq<Step>)
    requires Legal(steps)
    decreases |steps|
  {
    steps == [] ||
    var before, st := steps[..|steps| - 1], steps[|steps| - 1];
    AllAskFreely(before) && (st.Env? ==> AsksFreely(Exec(before), st.e))
  }

  // ------------------------------------------------------------ requests

  lemma CreateClaims(s: Sys, r: Cluster, c: string, n: ClusterNode, k: VmKey)
    requires EnvEnabled(s, OpCreate(r))
    ensures Claims(EnvApply(s, OpCreate(r)).clusters, c, n, k)
      <==> Claims(s.clusters, c, n, k) || (c == r.clusterName && n in Idents(r.nodes) && k == VmKey(r.node, n.vmId))
  {
  }

  lemma AddClaims(s: Sys, d: string, x: ClusterNode, c: string, n: ClusterNode, k: VmKey)
    requires EnvEnabled(s, OpAddNode(d, x))
    ensures Claims(EnvApply(s, OpAddNode(d, x)).clusters, c, n, k)
      <==> Claims(s.clusters, c, n, k) || (c == d && n == Ident(x) && k == VmKey(s.clusters[d].node, n.vmId))
  {
    IdentsAppend(s.clusters[d].nodes, x.(lock := Some(CreateLock)));
  }

  lemma CreateOwnedIff(s: Sys, r: Cluster)
    requires Owned(s.clusters, s.vms) && EnvEnabled(s, OpCreate(r))
    ensures Owned(EnvApply(s, OpCreate(r)).clusters, s.vms) <==> AsksFreely(s, OpCreate(r))
  {
    var after, name := EnvApply(s, OpCreate(r)).clusters, r.clusterName;
    if Owned(after, s.vms) {
      forall n, m | n in Idents(r.nodes) && m in Idents(r.nodes) && n.vmId == m.vmId ensures n == m {
        CreateClaims(s, r, name, n, VmKey(r.node, n.vmId));
        CreateClaims(s, r, name, m, VmKey(r.node, n.vmId));
      }
      forall n | n in Idents(r.nodes) ensures FreeFor(s, name, n, VmKey(r.node, n.vmId)) {
        var k := VmKey(r.node, n.vmId);
        CreateClaims(s, r, name, n, k);
        forall d, m | Claims(s.clusters, d, m, k) ensures d == name && m == n { CreateClaims(s, r, d, m, k); }
      }
    }
    if AsksFreely(s, OpCreate(r)) {
      forall c, n, d, m, k | Claims(after, c, n, k) && Claims(after, d, m, k) ensures c == d && n == m {
        CreateClaims(s, r, c, n, k);
        CreateClaims(s, r, d, m, k);
      }
      forall c, n, k | Claims(after, c, n, k) && k in s.vms ensures s.vms[k].name == FullName(c, n.name) {
        CreateClaims(s, r, c, n, k);
      }
    }
  }

  lemma AddOwnedIff(s: Sys, d: string, x: ClusterNode)
    requires Owned(s.clusters, s.vms) && EnvEnabled(s, OpAddNode(d, x))
    ensures Owned(EnvApply(s, OpAddNode(d, x)).clusters, s.vms) <==> AsksFreely(s, OpAddNode(d, x))
  {
    var after, i, k0 := EnvApply(s, OpAddNode(d, x)).clusters, Ident(x), VmKey(s.clusters[d].node, x.vmId);
    AddClaims(s, d, x, d, i, k0);
    if Owned(after, s.vms) {
      forall c, n | Claims(s.clusters, c, n, k0) ensures c == d && n == i { AddClaims(s, d, x, c, n, k0); }
    }
    if AsksFreely(s, OpAddNode(d, x)) {
      forall c, n, e, m, k | Claims(after, c, n, k) && Claims(after, e, m, k) ensures c == e && n == m {
        AddClaims(s, d, x, c, n, k);
        AddClaims(s, d, x, e, m, k);
      }
      forall c, n, k | Claims(after, c, n, k) && k in s.vms ensures s.vms[k].name == FullName(c, n.name) {
        AddClaims(s, d, x, c, n, k);
      }
    }
  }

  /** Fewer claims and no new or renamed VMs. */
  lemma OwnedMoves(before: map<string, Cluster>, vms: map<VmKey, Vm>, after: map<string, Cluster>, vms': map<VmKey, Vm>)
    requires Owned(before, vms) && NamesKept(vms, vms')
    requires forall c :: c in after ==> c in before && after[c].node == before[c].node && Idents(after[c].nodes) <= Idents(before[c].nodes)
    ensures Owned(after, vms')
  {
    forall c, n, k | Claims(after, c, n, k) ensures Claims(before, c, n, k) {}
  }

  lemma ClaimedIsRecorded(clusters: map<string, Cluster>, c: string, n: ClusterNode, k: VmKey)
    requires Claims(clusters, c, n, k)
    ensures KeyRecorded(clusters, k)
  {
    var m :| m in clusters[c].nodes && Ident(m) == n;
  }

  lemma OutsideOwned(s: Sys, k: VmKey, vm: Option<Vm>)
    requires Owned(s.clusters, s.vms) && EnvEnabled(s, Outside(k, vm))
    ensures Owned(s.clusters, EnvApply(s, Outside(k, vm)).vms)
  {
    var vms := EnvApply(s, Outside(k, vm)).vms;
    forall c, n, j | Claims(s.clusters, c, n, j) && j in vms ensures vms[j].name == FullName(c, n.name) {
      ClaimedIsRecorded(s.clusters, c, n, j);
    }
  }

  /** A request keeps every VM in its owner's hands exactly if it asks freely; nothing else that
      callers or outsiders do can put one at risk. */
  lemma EnvOwnedIff(s: Sys, e: EnvStep)
    requires Owned(s.clusters, s.vms) && EnvEnabled(s, e)
    ensures Owned(EnvApply(s, e).clusters, EnvApply(s, e).vms) <==> AsksFreely(s, e)
  {
    match e
    case OpCreate(r) => CreateOwnedIff(s, r);
    case OpAddNode(d, x) => AddOwnedIff(s, d, x);
    case Outside(k, vm) => OutsideOwned(s, k, vm);
    case _ =>
      EnvKeepsIdents(s, e);
      EnvKeepsVms(s, e);
      OwnedMoves(s.clusters, s.vms, EnvApply(s, e).clusters, s.vms);
  }

  lemma EnvKeepsVms(s: Sys, e: EnvStep)
    requires EnvEnabled(s, e) && !e.Outside?
    ensures var s' := EnvApply(s, e);
      s' == s.(clusters := s'.clusters, logs := s'.logs, inflight := s'.inflight,
               queue := s'.queue, sent := s'.sent, shutdown := s'.shutdown)
  {
    match e
    case OpCreate(_) =>
    case OpAddNode(_, _) =>
    case OpDeleteNode(_, _) =>
    case OpChange(_, _, _, _) =>
    case OpDeleteCluster(_) =>
    case OpEditApps(_, _, _) =>
    case _ =>
  }

  // ------------------------------------------------------------ the worker

  lemma CreateOwned(s: Sys, w: Work, n: ClusterNode, ok: bool, effect: bool)
    requires Owned(s.clusters, s.vms) && SnapKept(s)
    requires s.mode == Busy(w) && ActEnabled(s, w, Remote(Call.Create(n, ok), effect))
    ensures Owned(s.clusters, ActApply(s, w, Remote(Call.Create(n, ok), effect)).vms)
  {
    var c, k0 := w.event.cluster, VmKey(w.snap.value.node, n.vmId);
    assert Ident(n) in Idents(w.snap.value.nodes);
    assert Claims(s.clusters, c, Ident(n), k0);
  }

  lemma RemoteOwned(s: Sys, w: Work, call: Call, effect: bool)
    requires Owned(s.clusters, s.vms) && SnapKept(s)
    requires s.mode == Busy(w) && ActEnabled(s, w, Remote(call, effect))
    ensures var s' := ActApply(s, w, Remote(call, effect)); s'.clusters == s.clusters && Owned(s'.clusters, s'.vms)
  {
    if call.Create? {
      CreateOwned(s, w, call.node, call.ok, effect);
    } else {
      EffectNames(s.vms, w.event.cluster, w.snap.value.node, call);
      OwnedMoves(s.clusters, s.vms, s.clusters, ActApply(s, w, Remote(call, effect)).vms);
    }
  }

  lemma ActOwned(s: Sys, w: Work, a: Act)
    requires Owned(s.clusters, s.vms) && SnapKept(s) && s.mode == Busy(w) && ActEnabled(s, w, a)
    ensures Owned(ActApply(s, w, a).clusters, ActApply(s, w, a).vms)
  {
    if a.Remote? {
      RemoteOwned(s, w, a.call, a.effect);
    } else {
      QuietVms(s, w, a);
      if a.DropNode? {
        if w.event.cluster in s.clusters { DropNodeEffect(s, w); }
      } else if !a.DropCluster? {
        ActRewrites(s, w, a);
        RewrittenExtends(s.clusters, ActApply(s, w, a).clusters, w.event.cluster);
      }
      OwnedMoves(s.clusters, s.vms, ActApply(s, w, a).clusters, s.vms);
    }
  }

  /** Over every run of requests that ask freely, every VM under a recorded node's id is that node's. */
  lemma {:induction false} OwnedAlways(steps: seq<Step>)
    requires Legal(steps) && AllAskFreely(steps)
    ensures Owned(Exec(steps).clusters, Exec(steps).vms)
  {
    if steps != [] {
      var before, st := steps[..|steps| - 1], steps[|steps| - 1];
      var s := Exec(before);
      OwnedAlways(before);
      SnapKeptAlways(before);
      match st
      case Env(e) => EnvOwnedIff(s, e);
      case Loop(_) =>
      case Do(a) => ActOwned(s, s.mode.work, a);
    }
  }

  /** A resource change goes to the VM under the id of the node it names. */
  lemma ChangesGoToTarget(s: Sys, w: Work, a: Act, k: VmKey)
    requires SnapKept(s) && s.mode == Busy(w) && w.event.ChangeResources? && ActEnabled(s, w, a)
    requires !SameVm(s.vms, ActApply(s, w, a).vms, k)
    ensures exists n: ClusterNode :: n.name == w.event.node && Claims(s.clusters, w.event.cluster, n, k)
  {
    ChangesAreLocal(s, w, a, k);
    var n := a.call.node;
    assert FindNode(w.snap.value.nodes, w.event.node) == Some(n);
    assert Ident(n) in Idents(w.snap.value.nodes);
    assert Claims(s.clusters, w.event.cluster, Ident(n), k) && Ident(n).name == w.event.node;
  }

  /** Over every run of requests that ask freely, every step of a resource change, be it the new
      configuration, the shutdown, the hard stop or the start, leaves every VM alone but the one that
      carries the changed node's own full name, before and after. */
  lemma ChangesHitOwnVm(steps: seq<Step>, a: Act, k: VmKey)
    requires Legal(steps) && AllAskFreely(steps) && Enabled(Exec(steps), Do(a))
    requires Exec(steps).mode.work.event.ChangeResources?
    requires !SameVm(Exec(steps).vms, Next(Exec(steps), Do(a)).vms, k)
    ensures var s, s', e := Exec(steps), Next(Exec(steps), Do(a)), Exec(steps).mode.work.event;
      && (k in s.vms ==> s.vms[k].name == FullName(e.cluster, e.node))
      && (k in s'.vms ==> s'.vms[k].name == FullName(e.cluster, e.node))
  {
    var s := Exec(steps);
    var w := s.mode.work;
    OwnedAlways(steps);
    SnapKeptAlways(steps);
    ChangesGoToTarget(s, w, a, k);
    var n: ClusterNode :| n.name == w.event.node && Claims(s.clusters, w.event.cluster, n, k);
    ChangesAreLocal(s, w, a, k);
    RemoteOwned(s, w, a.call, a.effect);
    assert Claims(ActApply(s, w, a).clusters, w.event.cluster, n, k);
  }
}
