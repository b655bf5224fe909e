/** While makoon handles an event of one cluster it leaves every other cluster's record and log
    alone, and changes no VM but those that carry the id and the name of one of its nodes
    (core/src/dispatcher/usecase/common.rs:228-248, create_cluster.rs:301-306, delete_cluster.rs:
    21-25). A resource change goes by the id alone (change_resources.rs:39-47). */
module Isolation {
  import opened Model
  import opened Records
  import opened Machine
  import opened Frames

  /** Whatever VM has this id, if any, is named after a node of the record with this id. */
  ghost predicate OwnName(vms: map<VmKey, Vm>, c: string, r: Cluster, id: nat) {
    VmKey(r.node, id) in vms ==>
      exists m :: m in Idents(r.nodes) && m.vmId == id && vms[VmKey(r.node, id)].name == FullName(c, m.name)
  }

  ghost predicate SeenAreOwn(s: Sys) {
    s.mode.Busy? && s.mode.work.snap.Some? ==>
      var w, r := s.mode.work, s.mode.work.snap.value;
      forall n :: n in w.seen ==> n in Idents(r.nodes) && OwnName(s.vms, w.event.cluster, r, n.vmId)
  }

  /** The names of the VMs that stay are the same, and nothing new appears. */
  ghost predicate NamesKept(before: map<VmKey, Vm>, after: map<VmKey, Vm>) {
    forall k :: k in after ==> k in before && after[k].name == before[k].name
  }

  lemma EnvSeen(s: Sys, e: EnvStep)
    requires SeenAreOwn(s) && SnapKept(s) && EnvEnabled(s, e)
    ensures SeenAreOwn(EnvApply(s, e))
  {
    EnvExtends(s, e);
    var s' := EnvApply(s, e);
    if s.mode.Busy? && s.mode.work.snap.Some? {
      var w, r := s.mode.work, s.mode.work.snap.value;
      forall n | n in w.seen ensures OwnName(s'.vms, w.event.cluster, r, n.vmId) {
        var k := VmKey(r.node, n.vmId);
        assert OwnName(s.vms, w.event.cluster, r, n.vmId);
        if k in s'.vms && k !in s.vms {
          OutsidersKeepOff(s, e, k, n);
        }
      }
    }
  }

  /** Nobody outside creates a VM under the id of a recorded node. */
  lemma OutsidersKeepOff(s: Sys, e: EnvStep, k: VmKey, n: ClusterNode)
    requires SnapKept(s) && EnvEnabled(s, e) && s.mode.Busy? && s.mode.work.snap.Some?
    requires n in Idents(s.mode.work.snap.value.nodes) && k == VmKey(s.mode.work.snap.value.node, n.vmId)
    requires k !in s.vms
    ensures k !in EnvApply(s, e).vms
  {
    var c := s.mode.work.event.cluster;
    assert n in Idents(s.clusters[c].nodes);
    var m :| m in s.clusters[c].nodes && Ident(m) == n;
    assert KeyRecorded(s.clusters, k);
    if !e.Outside? { OnlyOutsiders(s, e); }
  }

  lemma OnlyOutsiders(s: Sys, e: EnvStep)
    requires EnvEnabled(s, e) && !e.Outside?
    ensures var s' := EnvApply(s, e);
      s' == s.(clusters := s'.clusters, logs := s'.logs, inflight := s'.inflight,
               queue := s'.queue, sent := s'.sent, shutdown := s'.shutdown)
  {
    match e
    case OpCreate(_) =>
    case OpAddNode(_, _) =>
    case OpDeleteNode(_, _) =>
    case OpChange(_, _, _, _) =>
    case OpDeleteCluster(_) =>
    case OpEditApps(_, _, _) =>
    case _ =>
  }

  lemma EffectNames(vms: map<VmKey, Vm>, c: string, host: string, call: Call)
    requires !call.Create?
    ensures NamesKept(vms, Effect(vms, c, host, call))
  {
    match call
    case Ssh(_, command, _) => match command { case AddHost(_) => case ScrubHost(_) => case _ => }
    case _ =>
  }

  /** A call changes at most the VM under its node's id. */
  lemma EffectLocal(vms: map<VmKey, Vm>, c: string, host: string, call: Call, k: VmKey)
    requires OnNode(call)
    requires k != VmKey(host, call.node.vmId)
    ensures k in vms <==> k in Effect(vms, c, host, call)
    ensures k in vms ==> Effect(vms, c, host, call)[k] == vms[k]
  {
    match call
    case Ssh(_, command, _) => match command { case AddHost(_) => case ScrubHost(_) => case _ => }
    case _ =>
  }

  lemma LearnSeen(w: Work, vms: map<VmKey, Vm>, call: Call)
    requires w.snap.Some?
    ensures Learn(w, vms, call).seen ==
      match call
      case ListVms(_, ok) => if ok then w.seen + Found(vms, w.event.cluster, w.snap.value) else w.seen
      case Create(n, ok) => if ok then w.seen + {Ident(n)} else w.seen
      case _ => w.seen
  {
    if call.Ssh? { LearnCommandSeen(w, vms, call.node, call.command, call.ok); }
  }

  lemma LearnCommandSeen(w: Work, vms: map<VmKey, Vm>, n: ClusterNode, command: Command, ok: bool)
    ensures Learn(w, vms, Ssh(n, command, ok)).seen == w.seen
  {
    match command
    case AddHost(e) => LearnAddHost(w, vms, n, e, ok);
    case ScrubHost(name) => LearnScrub(w, vms, n, name, ok);
    case _ => LearnPlain(w, vms, n, command, ok);
  }

  lemma RemoteSeen(s: Sys, w: Work, call: Call, effect: bool)
    requires SeenAreOwn(s) && s.mode == Busy(w) && ActEnabled(s, w, Remote(call, effect))
    ensures SeenAreOwn(ActApply(s, w, Remote(call, effect)))
  {
    var s', c, r := ActApply(s, w, Remote(call, effect)), w.event.cluster, w.snap.value;
    LearnKeeps(w, s.vms, call);
    LearnSeen(w, s.vms, call);
    var vms := s'.vms;
    assert vms == if effect then Effect(s.vms, c, r.node, call) else s.vms;
    if !call.Create? { EffectNames(s.vms, c, r.node, call); }
    forall n | n in s'.mode.work.seen
      ensures n in Idents(r.nodes) && OwnName(vms, c, r, n.vmId)
    {
      if n in w.seen { assert OwnName(s.vms, c, r, n.vmId); }
      if call.Create? {
        assert Ident(call.node) in Idents(r.nodes);
        CreatedIsOwn(s.vms, c, r, call, effect, n);
      } else if n in w.seen {
        StillOwn(s.vms, vms, c, r, n.vmId);
      }
    }
  }

  lemma StillOwn(before: map<VmKey, Vm>, after: map<VmKey, Vm>, c: string, r: Cluster, id: nat)
    requires OwnName(before, c, r, id) && NamesKept(before, after)
    ensures OwnName(after, c, r, id)
  {
    var k := VmKey(r.node, id);
    if k in before && k in after {
      var m :| m in Idents(r.nodes) && m.vmId == id && before[k].name == FullName(c, m.name);
    }
  }

  lemma CreatedIsOwn(vms: map<VmKey, Vm>, c: string, r: Cluster, call: Call, effect: bool, n: ClusterNode)
    requires call.Create? && Ident(call.node) in Idents(r.nodes)
    requires n == Ident(call.node) && !effect ==> OwnName(vms, c, r, n.vmId)
    requires n != Ident(call.node) ==> OwnName(vms, c, r, n.vmId)
    ensures OwnName(if effect then Effect(vms, c, r.node, call) else vms, c, r, n.vmId)
  {
    var k, after := VmKey(r.node, n.vmId), if effect then Effect(vms, c, r.node, call) else vms;
    if effect && call.node.vmId == n.vmId {
      assert after[k].name == FullName(c, Ident(call.node).name);
    } else if k in vms {
      var m :| m in Idents(r.nodes) && m.vmId == n.vmId && vms[k].name == FullName(c, m.name);
    }
  }

  lemma ReadSeen(s: Sys, w: Work, a: Act)
    requires SeenAreOwn(s) && s.mode == Busy(w) && ActEnabled(s, w, a) && (a.ReadRecord? || a.SaveKey?)
    ensures SeenAreOwn(ActApply(s, w, a))
  {
    RecordHandled(s, w, a);
  }

  lemma DropClusterSeen(s: Sys, w: Work)
    requires s.mode == Busy(w) && ActEnabled(s, w, DropCluster)
    ensures SeenAreOwn(ActApply(s, w, DropCluster))
  {
  }

  lemma QuietSeen(s: Sys, w: Work, a: Act, s': Sys)
    requires SeenAreOwn(s) && s.mode == Busy(w) && ActEnabled(s, w, a) && Quiet(a) && s' == ActApply(s, w, a)
    ensures SeenAreOwn(s')
  {
    QuietWork(s, w, a, s');
    ActKeepsEvent(s, w, a);
  }

  lemma ActSeen(s: Sys, w: Work, a: Act)
    requires SeenAreOwn(s) && s.mode == Busy(w) && ActEnabled(s, w, a)
    ensures SeenAreOwn(ActApply(s, w, a))
  {
    if a.Remote? {
      RemoteSeen(s, w, a.call, a.effect);
    } else if Quiet(a) {
      QuietSeen(s, w, a, ActApply(s, w, a));
    } else if a.DropNode? {
      DropNodeSnap(s, w);
    } else if a.DropCluster? {
      DropClusterSeen(s, w);
    } else {
      ReadSeen(s, w, a);
    }
  }

  lemma {:induction false} SeenAlwaysOwn(steps: seq<Step>)
    requires Legal(steps)
    ensures SeenAreOwn(Exec(steps))
  {
    if steps != [] {
      var before, st := steps[..|steps| - 1], steps[|steps| - 1];
      SeenAlwaysOwn(before);
      SnapKeptAlways(before);
      match st
      case Env(e) => EnvSeen(Exec(before), e);
      case Loop(_) =>
      case Do(a) => ActSeen(Exec(before), Exec(before).mode.work, a);
    }
  }

  // ---- what one step of the worker may touch

  function LogsOf(logs: seq<LogEntry>, c: string): seq<LogEntry> {
    if logs == [] then []
    else (if logs[0].clusterName == c then [logs[0]] else []) + LogsOf(logs[1..], c)
  }

  lemma {:induction false} LogsOfOthers(logs: seq<LogEntry>, c: string, d: string)
    requires c != d
    ensures LogsOf(LogsWithout(logs, c), d) == LogsOf(logs, d)
    ensures LogsOf(LogsWithout(logs, c), c) == []
  {
    if logs != [] {
      LogsOfOthers(logs[1..], c, d);
      var rest := LogsWithout(logs[1..], c);
      if logs[0].clusterName != c { assert ([logs[0]] + rest)[1..] == rest; }
    }
  }

  lemma {:induction false} LogsOfAppend(logs: seq<LogEntry>, entry: LogEntry, d: string)
    ensures LogsOf(logs + [entry], d) == LogsOf(logs, d) + if entry.clusterName == d then [entry] else []
  {
    if logs == [] {
      assert [entry][1..] == [];
    } else {
      LogsOfAppend(logs[1..], entry, d);
      assert (logs + [entry])[1..] == logs[1..] + [entry];
    }
  }

  lemma OtherLogsKept(s: Sys, w: Work, a: Act, d: string)
    requires s.mode == Busy(w) && ActEnabled(s, w, a) && d != w.event.cluster
    ensures LogsOf(ActApply(s, w, a).logs, d) == LogsOf(s.logs, d)
  {
    if a.SaveLog? { LogsOfAppend(s.logs, a.entry, d); }
    if a.DropCluster? { LogsOfOthers(s.logs, w.event.cluster, d); }
  }

  lemma OtherRecordsKept(s: Sys, w: Work, a: Act, d: string)
    requires s.mode == Busy(w) && ActEnabled(s, w, a) && d != w.event.cluster
    ensures var s' := ActApply(s, w, a);
      (d in s.clusters <==> d in s'.clusters) && (d in s.clusters ==> s'.clusters[d] == s.clusters[d])
  {
    if a.DropNode? {
      if w.event.cluster in s.clusters { DropNodeEffect(s, w); }
    } else if !Shrinks(a) {
      ActRewrites(s, w, a);
    }
  }

  predicate SameVm(before: map<VmKey, Vm>, after: map<VmKey, Vm>, k: VmKey) {
    (k in before <==> k in after) && (k in before ==> before[k] == after[k])
  }

  lemma DropNodeVms(s: Sys, w: Work)
    requires w.event.DeleteNode?
    ensures DropNodeApply(s, w).vms == s.vms
  {
  }

  lemma QuietVms(s: Sys, w: Work, a: Act)
    requires s.mode == Busy(w) && ActEnabled(s, w, a) && !a.Remote?
    ensures ActApply(s, w, a).vms == s.vms
  {
    if a.DropNode? {
      DropNodeVms(s, w);
    } else if Quiet(a) {
      QuietWork(s, w, a, ActApply(s, w, a));
    }
  }

  lemma RemoteIsLocal(s: Sys, w: Work, call: Call, effect: bool, k: VmKey)
    requires s.mode == Busy(w) && ActEnabled(s, w, Remote(call, effect))
    ensures var vms := ActApply(s, w, Remote(call, effect)).vms;
      || SameVm(s.vms, vms, k)
      || (effect && OnNode(call) && k == VmKey(w.snap.value.node, call.node.vmId))
  {
    if effect && OnNode(call) {
      if k != VmKey(w.snap.value.node, call.node.vmId) {
        EffectLocal(s.vms, w.event.cluster, w.snap.value.node, call, k);
      }
    }
  }

  /** Only a remote call changes VMs, and only the one under the id of a node of the record. */
  lemma ChangesAreLocal(s: Sys, w: Work, a: Act, k: VmKey)
    requires s.mode == Busy(w) && ActEnabled(s, w, a)
    requires !SameVm(s.vms, ActApply(s, w, a).vms, k)
    ensures a.Remote? && a.effect && w.snap.Some?
    ensures OnNode(a.call)
    ensures k == VmKey(w.snap.value.node, a.call.node.vmId)
  {
    if a.Remote? {
      RemoteIsLocal(s, w, a.call, a.effect, k);
    } else {
      QuietVms(s, w, a);
    }
  }

  /** The calls that change a VM name a node of the record that was listed or created. */
  lemma ChangersAreSeen(s: Sys, w: Work, call: Call, effect: bool)
    requires s.mode == Busy(w) && ActEnabled(s, w, Remote(call, effect)) && !w.event.ChangeResources?
    requires OnNode(call)
    requires effect && Effect(s.vms, w.event.cluster, w.snap.value.node, call) != s.vms
    ensures call.node in w.snap.value.nodes
    ensures !call.Create? ==> Ident(call.node) in w.seen
  {
    match call
    case Ssh(_, command, _) => match command { case AddHost(_) => case ScrubHost(_) => case _ => }
    case _ =>
  }

  ghost predicate OthersUntouched(s: Sys, s': Sys, d: string) {
    && (d in s.clusters <==> d in s'.clusters)
    && (d in s.clusters ==> s'.clusters[d] == s.clusters[d])
    && LogsOf(s'.logs, d) == LogsOf(s.logs, d)
  }

  /** The VM at `k`, before and after, is under the id of a node of `c` and named after such a node. */
  ghost predicate OwnVm(s: Sys, s': Sys, c: string, k: VmKey) {
    && c in s.clusters
    && (exists n :: n in Idents(s.clusters[c].nodes) && k == VmKey(s.clusters[c].node, n.vmId))
    && OwnName(s.vms, c, s.clusters[c], k.id)
    && OwnName(s'.vms, c, s.clusters[c], k.id)
  }

  lemma ChangedVmIsOwn(s: Sys, w: Work, a: Act, k: VmKey)
    requires SnapKept(s) && SeenAreOwn(s) && s.mode == Busy(w) && ActEnabled(s, w, a) && !w.event.ChangeResources?
    requires !SameVm(s.vms, ActApply(s, w, a).vms, k)
    ensures OwnVm(s, ActApply(s, w, a), w.event.cluster, k)
  {
    ChangesAreLocal(s, w, a, k);
    var s', r, n := ActApply(s, w, a), w.snap.value, Ident(a.call.node);
    ChangersAreSeen(s, w, a.call, a.effect);
    assert n in Idents(r.nodes);
    if a.call.Create? {
      CreateOwn(s, w, a.call, s');
    } else {
      StillSeen(s, w, a.call, a.effect, n);
    }
    OwnNameStored(s.vms, w.event.cluster, r, s.clusters[w.event.cluster], k.id);
    OwnNameStored(s'.vms, w.event.cluster, r, s.clusters[w.event.cluster], k.id);
  }

  lemma StillSeen(s: Sys, w: Work, call: Call, effect: bool, n: ClusterNode)
    requires SeenAreOwn(s) && s.mode == Busy(w) && ActEnabled(s, w, Remote(call, effect)) && n in w.seen
    ensures OwnName(s.vms, w.event.cluster, w.snap.value, n.vmId)
    ensures OwnName(ActApply(s, w, Remote(call, effect)).vms, w.event.cluster, w.snap.value, n.vmId)
  {
    RemoteSeen(s, w, call, effect);
    LearnSeen(w, s.vms, call);
    LearnKeeps(w, s.vms, call);
    assert n in ActApply(s, w, Remote(call, effect)).mode.work.seen;
  }

  /** Over every run, every step taken for an event of cluster `c`, other than a resource change:
      the records and logs of other clusters stay as they are, and a VM that changes, appears or
      disappears is under the id of a node of `c` and is, before and after, named after such a node. */
  lemma EventsAreIsolated(steps: seq<Step>, a: Act, d: string, k: VmKey)
    requires Legal(steps) && Enabled(Exec(steps), Do(a))
    requires !Exec(steps).mode.work.event.ChangeResources?
    ensures var s, s', c := Exec(steps), Next(Exec(steps), Do(a)), Exec(steps).mode.work.event.cluster;
      && (d != c ==> OthersUntouched(s, s', d))
      && (!SameVm(s.vms, s'.vms, k) ==> OwnVm(s, s', c, k))
  {
    var s := Exec(steps);
    var w := s.mode.work;
    if d != w.event.cluster {
      OtherLogsKept(s, w, a, d);
      OtherRecordsKept(s, w, a, d);
    }
    if !SameVm(s.vms, Next(s, Do(a)).vms, k) {
      SnapKeptAlways(steps);
      SeenAlwaysOwn(steps);
      ChangedVmIsOwn(s, w, a, k);
    }
  }

  lemma CreateOwn(s: Sys, w: Work, call: Call, s': Sys)
    requires s.mode == Busy(w) && call.Create? && ActEnabled(s, w, Remote(call, true))
    requires s' == ActApply(s, w, Remote(call, true))
    ensures OwnName(s.vms, w.event.cluster, w.snap.value, call.node.vmId)
    ensures OwnName(s'.vms, w.event.cluster, w.snap.value, call.node.vmId)
  {
    assert Ident(call.node) in Idents(w.snap.value.nodes);
    assert s'.vms[VmKey(w.snap.value.node, call.node.vmId)].name == FullName(w.event.cluster, Ident(call.node).name);
  }

  lemma OwnNameStored(vms: map<VmKey, Vm>, c: string, r: Cluster, stored: Cluster, id: nat)
    requires OwnName(vms, c, r, id) && r.node == stored.node && Idents(r.nodes) <= Idents(stored.nodes)
    ensures OwnName(vms, c, stored, id)
  {
  }
}
