/** The hosts files agree with the records (core/src/dispatcher/usecase/add_node_to_cluster.rs:
    79-81, 92-143; delete_node_from_cluster.rs:156-186; create_cluster.rs:240-261). */
module HostsAgree {
  import opened Model
  import opened Records
  import opened HostFile
  import opened Machine
  import opened Frames
  import opened StatusInFlight
  import opened Orphans
  import opened TidyStore
  import opened Isolation

  /** Node `n` of the stored cluster `c` has its VM. */
  ghost predicate Live(s: Sys, c: string, n: ClusterNode) {
    && c in s.clusters && n in Idents(s.clusters[c].nodes)
    && OursAt(s.vms, c, s.clusters[c].node, n)
  }

  ghost function FileOf(s: Sys, c: string, n: ClusterNode): set<Entry>
    requires Live(s, c, n)
  {
    s.vms[VmKey(s.clusters[c].node, n.vmId)].hosts
  }

  ghost predicate On(s: Sys, c: string) {
    s.mode.Busy? && s.mode.work.event.cluster == c
  }

  /** Adding this node is still ahead or under way. */
  ghost predicate Awaiting(s: Sys, c: string, name: string) {
    || Waiting(s, AddNode(c, name))
    || (s.mode.Busy? && s.mode.work.event == AddNode(c, name) && s.mode.work.phase.Working?)
  }

  /** The line of the node just removed may linger until the file is scrubbed. */
  ghost predicate Leftover(s: Sys, c: string, n: ClusterNode, e: Entry) {
    && On(s, c) && s.mode.work.event.DeleteNode? && s.mode.work.removed && s.mode.work.phase.Working?
    && n !in s.mode.work.scrubbed && e.host == FullName(c, s.mode.work.event.node)
  }

  /** The VM was created in this event and its file is still being written. */
  ghost predicate BeingMade(s: Sys, c: string, n: ClusterNode) {
    && On(s, c) && (s.mode.work.event.CreateCluster? || s.mode.work.event.AddNode?)
    && s.mode.work.phase.Working? && n in s.mode.work.made
  }

  ghost predicate FileSound(s: Sys, c: string, n: ClusterNode)
    requires Live(s, c, n)
  {
    forall e :: e in FileOf(s, c, n) ==> e in Pairs(c, Idents(s.clusters[c].nodes)) || Leftover(s, c, n, e)
  }

  ghost predicate FileComplete(s: Sys, c: string, n: ClusterNode)
    requires Live(s, c, n)
  {
    BeingMade(s, c, n) ||
    forall m :: m in Idents(s.clusters[c].nodes) ==> Awaiting(s, c, m.name) || PairOf(c, m) in FileOf(s, c, n)
  }

  ghost predicate FileWritten(s: Sys, c: string, n: ClusterNode)
    requires Live(s, c, n)
  {
    On(s, c) && !s.mode.work.event.DeleteNode? ==> forall e :: (n, e) in s.mode.work.wrote ==> e in FileOf(s, c, n)
  }

  /** The live nodes of the cluster in hand are in the worker's copy, and a listing showed them. */
  ghost predicate LiveKnown(s: Sys, c: string, n: ClusterNode) {
    On(s, c) && s.mode.work.snap.Some? ==>
      && n in Idents(s.mode.work.snap.value.nodes)
      && (s.mode.work.listed ==> n in s.mode.work.seen)
  }

  ghost predicate FilesGood(s: Sys) {
    forall c, n :: Live(s, c, n) ==> FileSound(s, c, n) && FileComplete(s, c, n) && FileWritten(s, c, n) && LiveKnown(s, c, n)
  }

  /** A node that joined the record after the worker read it has its own event ahead. */
  ghost predicate LateAwait(s: Sys) {
    s.mode.Busy? && s.mode.work.snap.Some? && s.mode.work.event.cluster in s.clusters ==>
      forall m :: m in Idents(s.clusters[s.mode.work.event.cluster].nodes) ==>
        m in Idents(s.mode.work.snap.value.nodes) || Waiting(s, AddNode(s.mode.work.event.cluster, m.name))
  }

  /** After the removal, deleting by substring takes no other settled node's line. */
  ghost predicate ScrubSafe(s: Sys) {
    s.mode.Busy? && s.mode.work.event.DeleteNode? && s.mode.work.removed ==>
      var c := s.mode.work.event.cluster;
      c in s.clusters && forall m :: m in Idents(s.clusters[c].nodes) ==>
        || !Contains(Line(PairOf(c, m)), FullName(c, s.mode.work.event.node))
        || Waiting(s, AddNode(c, m.name))
  }

  /** Nothing has failed, as far as can be told. */
  predicate Healthy(s: Sys) {
    s.clean && (s.mode.Busy? ==> !s.mode.work.tainted && s.mode.work.phase != Concluded(false))
  }

  ghost predicate HostsGood(s: Sys) {
    Healthy(s) ==> FilesGood(s) && LateAwait(s) && ScrubSafe(s)
  }

  // ------------------------------------------------------------ steps that move no host line

  /** The same live VMs with the same files, or fewer. */
  ghost predicate LiveKept(s: Sys, s': Sys) {
    forall c, n :: Live(s', c, n) ==> Live(s, c, n) && FileOf(s', c, n) == FileOf(s, c, n)
  }

  /** Records that remain gained at most nodes whose addition is ahead. */
  ghost predicate NodesGained(s: Sys, s': Sys) {
    forall c :: c in s.clusters && c in s'.clusters ==>
      && Idents(s.clusters[c].nodes) <= Idents(s'.clusters[c].nodes)
      && forall m :: m in Idents(s'.clusters[c].nodes) ==>
           m in Idents(s.clusters[c].nodes) || Waiting(s', AddNode(c, m.name))
  }

  ghost predicate WaitsKept(s: Sys, s': Sys) {
    forall c, name :: Waiting(s, AddNode(c, name)) ==> Waiting(s', AddNode(c, name))
  }

  ghost predicate HandKept(m: Mode, m': Mode) {
    if m.Busy? && m'.Busy? then
      var w, w' := m.work, m'.work;
      && w'.event == w.event && w'.snap == w.snap && w'.listed == w.listed && w'.seen == w.seen
      && w'.made == w.made && w'.wrote == w.wrote && w'.scrubbed == w.scrubbed && w'.removed == w.removed
      && w'.tainted == w.tainted
      && (w'.phase == w.phase || (w.phase.Fresh? && !w'.phase.Fresh? && w.event.CreateCluster?))
    else !m.Busy? && !m'.Busy?
  }

  lemma Carry(s: Sys, s': Sys)
    requires HostsGood(s) && (s'.clean ==> s.clean)
    requires LiveKept(s, s') && NodesGained(s, s') && WaitsKept(s, s') && HandKept(s.mode, s'.mode)
    requires SnapKept(s) && s.clusters.Keys <= s'.clusters.Keys
    ensures HostsGood(s')
  {
    if Healthy(s') {
      assert Healthy(s);
      forall c, n | Live(s', c, n)
        ensures FileSound(s', c, n) && FileComplete(s', c, n) && FileWritten(s', c, n) && LiveKnown(s', c, n)
      {
        CarryFile(s, s', c, n);
      }
    }
  }

  lemma CarryFile(s: Sys, s': Sys, c: string, n: ClusterNode)
    requires Live(s', c, n) && Live(s, c, n) && FileOf(s', c, n) == FileOf(s, c, n)
    requires FileSound(s, c, n) && FileComplete(s, c, n) && FileWritten(s, c, n) && LiveKnown(s, c, n)
    requires NodesGained(s, s') && WaitsKept(s, s') && HandKept(s.mode, s'.mode)
    ensures FileSound(s', c, n) && FileComplete(s', c, n) && FileWritten(s', c, n) && LiveKnown(s', c, n)
  {
    forall m | m in Idents(s'.clusters[c].nodes)
      ensures m in Idents(s.clusters[c].nodes) || Awaiting(s', c, m.name)
      ensures Awaiting(s, c, m.name) ==> Awaiting(s', c, m.name)
    {
    }
    assert Pairs(c, Idents(s.clusters[c].nodes)) <= Pairs(c, Idents(s'.clusters[c].nodes));
    forall e | Leftover(s, c, n, e) ensures Leftover(s', c, n, e) {}
  }

  lemma EnvOursKept(s: Sys, e: EnvStep, k: VmKey)
    requires EnvEnabled(s, e) && k in EnvApply(s, e).vms && EnvApply(s, e).vms[k].ours
    ensures var vm := EnvApply(s, e).vms[k]; k in s.vms && s.vms[k] == vm.(running := s.vms[k].running)
  {
    match e
    case Outside(_, _) =>
    case OpCreate(_) =>
    case OpAddNode(_, _) =>
    case OpDeleteNode(_, _) =>
    case OpChange(_, _, _, _) =>
    case _ =>
  }

  lemma AccountedLater(before: map<string, Cluster>, after: map<string, Cluster>, d: string, m: ClusterNode, k: VmKey, name: string)
    requires Extends(before, after) && Accounts(before, d, m, k, name)
    ensures Accounts(after, d, m, k, name)
  {
  }

  /** A VM of ours is live for one node only, and it was live for that node before callers added
      records: they add none that an existing VM of ours could be mistaken for. */
  lemma EnvLiveKept(s: Sys, e: EnvStep)
    requires EnvEnabled(s, e) && NoOrphan(s.vms, s.clusters) && Tidy(EnvApply(s, e).clusters)
    ensures LiveKept(s, EnvApply(s, e))
  {
    var s' := EnvApply(s, e);
    EnvExtends(s, e);
    forall c, n | Live(s', c, n) ensures Live(s, c, n) && FileOf(s', c, n) == FileOf(s, c, n) {
      var k := VmKey(s'.clusters[c].node, n.vmId);
      EnvOursKept(s, e, k);
      var d, m :| Accounts(s.clusters, d, m, k, s.vms[k].name);
      AccountedLater(s.clusters, s'.clusters, d, m, k, s.vms[k].name);
      assert Accounts(s'.clusters, c, n, k, s.vms[k].name);
    }
  }

  lemma EnvGained(s: Sys, e: EnvStep)
    requires EnvEnabled(s, e)
    ensures NodesGained(s, EnvApply(s, e))
  {
    var s' := EnvApply(s, e);
    EnvExtends(s, e);
    forall c, m | c in s.clusters && m in Idents(s'.clusters[c].nodes)
      ensures m in Idents(s.clusters[c].nodes) || Waiting(s', AddNode(c, m.name))
    {
      if e.OpAddNode? && e.cluster == c {
        IdentsAppend(s.clusters[c].nodes, e.node.(lock := Some(CreateLock)));
        assert AddNode(c, e.node.name) in s'.inflight;
      } else if e.OpCreate? {
      } else if e.OpAddNode? {
      } else {
        EnvKeepsIdents(s, e);
      }
    }
  }

  lemma EnvHosts(s: Sys, e: EnvStep)
    requires HostsGood(s) && SnapKept(s) && EnvEnabled(s, e)
    requires NoOrphan(s.vms, s.clusters) && Tidy(EnvApply(s, e).clusters)
    ensures HostsGood(EnvApply(s, e))
  {
    var s' := EnvApply(s, e);
    EnvExtends(s, e);
    EnvLiveKept(s, e);
    EnvGained(s, e);
    forall c, name | Waiting(s, AddNode(c, name)) ensures Waiting(s', AddNode(c, name)) {
      WaitingGrows(s, e, AddNode(c, name));
    }
    Carry(s, s');
  }

  // ------------------------------------------------------------ the worker's steps

  lemma QuietPhase(s: Sys, w: Work, a: Act, s': Sys)
    requires s.mode == Busy(w) && ActEnabled(s, w, a) && s' == ActApply(s, w, a)
    requires Quiet(a) && !a.Conclude? && !a.Finish?
    ensures s'.mode.Busy?
    ensures s'.mode.work.phase == w.phase || (w.phase.Fresh? && !s'.mode.work.phase.Fresh? && w.event.CreateCluster?)
  {
    if a.SetStatus? {
      SetStatusPhase(s, w, a.status);
    } else if a.Unlock? {
      UnlockConclusion(s, w);
    }
  }

  lemma SetStatusPhase(s: Sys, w: Work, st: Status)
    requires w.phase.Fresh? ==> w.event.CreateCluster?
    ensures var p := SetStatusApply(s, w, st).mode.work.phase;
      p == w.phase || (w.phase.Fresh? && !p.Fresh? && w.event.CreateCluster?)
  {
  }

  /** Same identities everywhere and same files. */
  lemma RewrittenCarry(s: Sys, s': Sys, c: string)
    requires Rewritten(s.clusters, s'.clusters, c) && s'.vms == s.vms
    requires s'.queue == s.queue && s'.inflight == s.inflight
    ensures LiveKept(s, s') && NodesGained(s, s') && WaitsKept(s, s') && s.clusters.Keys == s'.clusters.Keys
  {
    RewrittenExtends(s.clusters, s'.clusters, c);
  }

  lemma QuietHosts(s: Sys, w: Work, a: Act)
    requires HostsGood(s) && SnapKept(s)
    requires s.mode == Busy(w) && ActEnabled(s, w, a) && Quiet(a) && !a.Conclude? && !a.Finish?
    ensures HostsGood(ActApply(s, w, a))
  {
    var s' := ActApply(s, w, a);
    ActKeepsEvent(s, w, a);
    QuietWork(s, w, a, s');
    QuietPhase(s, w, a, s');
    ActRewrites(s, w, a);
    RewrittenCarry(s, s', w.event.cluster);
    assert s'.clean == s.clean by { QuietClean(s, w, a); }
    Carry(s, s');
  }

  /** Calls that neither list, nor create, nor edit hosts. */
  predicate Plain(call: Call) {
    !call.ListVms? && !call.Create? && !(call.Ssh? && (call.command.AddHost? || call.command.ScrubHost?))
  }

  lemma PlainLearn(w: Work, vms: map<VmKey, Vm>, call: Call)
    requires Plain(call)
    ensures Learn(w, vms, call) == w.(calls := w.calls + [call], gone := Learn(w, vms, call).gone)
  {
  }

  /** Such a call leaves the files of the VMs that stay as they are. */
  lemma PlainEffect(vms: map<VmKey, Vm>, c: string, host: string, call: Call, k: VmKey)
    requires Plain(call) && k in Effect(vms, c, host, call)
    ensures k in vms
    ensures var v, v' := vms[k], Effect(vms, c, host, call)[k];
      v'.hosts == v.hosts && v'.name == v.name && v'.ours == v.ours
  {
  }

  lemma PlainHosts(s: Sys, w: Work, call: Call, effect: bool)
    requires HostsGood(s) && SnapKept(s) && Plain(call)
    requires s.mode == Busy(w) && ActEnabled(s, w, Remote(call, effect))
    ensures HostsGood(ActApply(s, w, Remote(call, effect)))
  {
    var s', c := ActApply(s, w, Remote(call, effect)), w.event.cluster;
    PlainLearn(w, s.vms, call);
    forall d, n | Live(s', d, n) ensures Live(s, d, n) && FileOf(s', d, n) == FileOf(s, d, n) {
      var k := VmKey(s.clusters[d].node, n.vmId);
      if effect { PlainEffect(s.vms, c, w.snap.value.node, call, k); }
    }
    Carry(s, s');
  }

  /** A listing shows every live node of the cluster. */
  lemma ListHosts(s: Sys, w: Work, l: map<nat, string>, ok: bool, effect: bool)
    requires HostsGood(s) && SnapKept(s)
    requires s.mode == Busy(w) && ActEnabled(s, w, Remote(ListVms(l, ok), effect))
    ensures HostsGood(ActApply(s, w, Remote(ListVms(l, ok), effect)))
  {
    var s', c := ActApply(s, w, Remote(ListVms(l, ok), effect)), w.event.cluster;
    var r := w.snap.value;
    ListLearn(w, s.vms, l, ok);
    assert s'.vms == s.vms;
    if Healthy(s') {
      forall d, n | Live(s', d, n)
        ensures FileSound(s', d, n) && FileComplete(s', d, n) && FileWritten(s', d, n) && LiveKnown(s', d, n)
      {
        assert Live(s, d, n);
        assert FileSound(s, d, n) && FileComplete(s, d, n) && FileWritten(s, d, n) && LiveKnown(s, d, n);
        SameFile(s, s', d, n);
        if On(s', d) { assert n in Found(s.vms, c, r); }
      }
    }
  }

  lemma ListLearn(w: Work, vms: map<VmKey, Vm>, l: map<nat, string>, ok: bool)
    requires w.snap.Some?
    ensures var w' := Learn(w, vms, ListVms(l, ok));
      w' == w.(calls := w'.calls, gone := w'.gone, listed := w.listed || ok,
               seen := if ok then w.seen + Found(vms, w.event.cluster, w.snap.value) else w.seen)
  {
  }

  /** What is said of one file depends on the record, the file, the waiting events and four fields
      of the worker's state. */
  lemma SameFile(s: Sys, s': Sys, c: string, n: ClusterNode)
    requires Live(s, c, n) && Live(s', c, n) && FileOf(s', c, n) == FileOf(s, c, n)
    requires s'.clusters == s.clusters && s'.queue == s.queue && s'.inflight == s.inflight
    requires s.mode.Busy? && s'.mode.Busy?
    requires s'.mode.work == s.mode.work.(calls := s'.mode.work.calls, gone := s'.mode.work.gone,
                                          listed := s'.mode.work.listed, seen := s'.mode.work.seen)
    requires FileSound(s, c, n) && FileComplete(s, c, n) && FileWritten(s, c, n)
    ensures FileSound(s', c, n) && FileComplete(s', c, n) && FileWritten(s', c, n)
  {
    forall m | Awaiting(s, c, m) ensures Awaiting(s', c, m) {}
  }

  /** The VM under the id of a node that was listed or made belongs to the cluster in hand. */
  lemma SeenVmIsOurs(s: Sys, w: Work, id: nat, d: string, n: ClusterNode)
    requires SnapKept(s) && SeenAreOwn(s) && Tidy(s.clusters)
    requires s.mode == Busy(w) && w.snap.Some? && (exists m :: m in w.seen && m.vmId == id)
    requires Live(s, d, n) && VmKey(s.clusters[d].node, n.vmId) == VmKey(w.snap.value.node, id)
    ensures d == w.event.cluster
  {
    var c, r, k := w.event.cluster, w.snap.value, VmKey(w.snap.value.node, id);
    var m :| m in w.seen && m.vmId == id;
    assert OwnName(s.vms, c, r, m.vmId);
    var o :| o in Idents(r.nodes) && o.vmId == id && s.vms[k].name == FullName(c, o.name);
    assert Accounts(s.clusters, c, o, k, s.vms[k].name);
    assert Accounts(s.clusters, d, n, k, s.vms[k].name);
  }

  lemma CreateLearn(s: Sys, w: Work, call: Call, effect: bool)
    requires call.Create?
    requires s.mode == Busy(w) && ActEnabled(s, w, Remote(call, effect))
    ensures var s', i, k := ActApply(s, w, Remote(call, effect)), Ident(call.node), VmKey(w.snap.value.node, call.node.vmId);
      s' == s.(vms := if effect then s.vms[k := Vm(FullName(w.event.cluster, i.name), true, false, call.node.cores, call.node.memory, {})] else s.vms,
               mode := Busy(if call.ok then w.(calls := w.calls + [call], made := w.made + {i}, seen := w.seen + {i})
                            else w.(calls := w.calls + [call], tainted := true)))
  {
  }

  lemma CreatedLive(s: Sys, w: Work, call: Call, effect: bool, d: string, n: ClusterNode)
    requires HostsGood(s) && SnapKept(s) && Tidy(s.clusters) && call.Create?
    requires s.mode == Busy(w) && ActEnabled(s, w, Remote(call, effect))
    requires Healthy(ActApply(s, w, Remote(call, effect))) && Live(ActApply(s, w, Remote(call, effect)), d, n)
    ensures var s' := ActApply(s, w, Remote(call, effect));
      FileSound(s', d, n) && FileComplete(s', d, n) && FileWritten(s', d, n) && LiveKnown(s', d, n)
  {
    CreateLearn(s, w, call, effect);
    var s', c, r, i := ActApply(s, w, Remote(call, effect)), w.event.cluster, w.snap.value, Ident(call.node);
    var k := VmKey(s.clusters[d].node, n.vmId);
    if k == VmKey(r.node, call.node.vmId) {
      assert i in Idents(r.nodes);
      assert Accounts(s.clusters, c, i, k, s'.vms[k].name);
      assert Accounts(s.clusters, d, n, k, s'.vms[k].name);
      assert BeingMade(s', d, n);
    } else {
      assert Live(s, d, n) && FileOf(s', d, n) == FileOf(s, d, n);
      KeepFile(s, s', d, n);
    }
  }

  lemma CreateHosts(s: Sys, w: Work, call: Call, effect: bool)
    requires HostsGood(s) && SnapKept(s) && Tidy(s.clusters) && call.Create?
    requires s.mode == Busy(w) && ActEnabled(s, w, Remote(call, effect))
    ensures HostsGood(ActApply(s, w, Remote(call, effect)))
  {
    var s' := ActApply(s, w, Remote(call, effect));
    CreateLearn(s, w, call, effect);
    if Healthy(s') {
      forall d, n | Live(s', d, n)
        ensures FileSound(s', d, n) && FileComplete(s', d, n) && FileWritten(s', d, n) && LiveKnown(s', d, n)
      {
        CreatedLive(s, w, call, effect, d, n);
      }
    }
  }

  /** What is said of one file survives when the record, the file, the waiting events and the event
      in hand stay as they are, and the evidence grows. */
  lemma KeepFile(s: Sys, s': Sys, c: string, n: ClusterNode)
    requires Live(s, c, n) && Live(s', c, n) && FileOf(s', c, n) == FileOf(s, c, n)
    requires s'.clusters == s.clusters && s'.queue == s.queue && s'.inflight == s.inflight
    requires s.mode.Busy? && s'.mode.Busy?
    requires var w, w' := s.mode.work, s'.mode.work;
      && w'.event == w.event && w'.phase == w.phase && w'.snap == w.snap && w'.removed == w.removed
      && w'.listed == w.listed && w.seen <= w'.seen && w.made <= w'.made
      && (n in w'.scrubbed ==> n in w.scrubbed)
      && (forall e :: (n, e) in w'.wrote ==> (n, e) in w.wrote)
    requires FileSound(s, c, n) && FileComplete(s, c, n) && FileWritten(s, c, n) && LiveKnown(s, c, n)
    ensures FileSound(s', c, n) && FileComplete(s', c, n) && FileWritten(s', c, n) && LiveKnown(s', c, n)
  {
    forall m | Awaiting(s, c, m) ensures Awaiting(s', c, m) {}
  }

  lemma AddHostHosts(s: Sys, w: Work, call: Call, effect: bool)
    requires HostsGood(s) && SnapKept(s) && Tidy(s.clusters) && SeenAreOwn(s)
    requires call.Ssh? && call.command.AddHost?
    requires s.mode == Busy(w) && ActEnabled(s, w, Remote(call, effect))
    ensures HostsGood(ActApply(s, w, Remote(call, effect)))
  {
    var s', c, r := ActApply(s, w, Remote(call, effect)), w.event.cluster, w.snap.value;
    var i, e0, k0 := Ident(call.node), call.command.entry, VmKey(w.snap.value.node, call.node.vmId);
    assert Learn(w, s.vms, call) == if call.ok then w.(calls := w.calls + [call], wrote := w.wrote + {(i, e0)})
                                    else w.(calls := w.calls + [call], tainted := true);
    if Healthy(s') {
      HostMapSound(c, r.nodes);
      assert s' == s.(vms := SetHosts(s.vms, k0, s.vms[k0].hosts + {e0}),
                      mode := Busy(w.(calls := w.calls + [call], wrote := w.wrote + {(i, e0)})));
      AddedHost(s, w, s', call.node, e0, w.calls + [call]);
    }
  }

  lemma AddedHost(s: Sys, w: Work, s': Sys, target: ClusterNode, e0: Entry, calls: seq<Call>)
    requires s.mode == Busy(w) && w.snap.Some? && Ident(target) in w.seen && !w.event.DeleteNode?
    requires SnapKept(s) && Tidy(s.clusters) && SeenAreOwn(s)
    requires FilesGood(s) && LateAwait(s) && ScrubSafe(s)
    requires VmKey(w.snap.value.node, target.vmId) in s.vms
    requires e0 in Pairs(w.event.cluster, Idents(w.snap.value.nodes))
    requires var k0 := VmKey(w.snap.value.node, target.vmId);
      s' == s.(vms := SetHosts(s.vms, k0, s.vms[k0].hosts + {e0}),
               mode := Busy(w.(calls := calls, wrote := w.wrote + {(Ident(target), e0)})))
    ensures FilesGood(s') && LateAwait(s') && ScrubSafe(s')
  {
    var c, i, k0 := w.event.cluster, Ident(target), VmKey(w.snap.value.node, target.vmId);
    forall d, n | Live(s', d, n)
      ensures FileSound(s', d, n) && FileComplete(s', d, n) && FileWritten(s', d, n) && LiveKnown(s', d, n)
    {
      var k := VmKey(s.clusters[d].node, n.vmId);
      assert Live(s, d, n);
      if k == k0 {
        assert i in w.seen && i.vmId == target.vmId;
        SeenVmIsOurs(s, w, target.vmId, d, n);
        AddedFile(s, s', c, n, i, e0);
      } else if d == c {
        KeepFile(s, s', d, n);
      } else {
        OtherClusterFile(s, s', d, n);
      }
    }
  }

  lemma AddedFile(s: Sys, s': Sys, c: string, n: ClusterNode, i: ClusterNode, e0: Entry)
    requires Live(s, c, n) && Live(s', c, n) && On(s, c) && On(s', c)
    requires s'.clusters == s.clusters && s'.queue == s.queue && s'.inflight == s.inflight
    requires var w, w' := s.mode.work, s'.mode.work;
      && !w.event.DeleteNode?
      && w' == w.(calls := w'.calls, wrote := w.wrote + {(i, e0)})
    requires FileOf(s', c, n) == FileOf(s, c, n) + {e0} && e0 in Pairs(c, Idents(s.clusters[c].nodes))
    requires FileSound(s, c, n) && FileComplete(s, c, n) && FileWritten(s, c, n) && LiveKnown(s, c, n)
    ensures FileSound(s', c, n) && FileComplete(s', c, n) && FileWritten(s', c, n) && LiveKnown(s', c, n)
  {
    forall m | Awaiting(s, c, m) ensures Awaiting(s', c, m) {}
  }

  /** What is said of a file of another cluster than the one in hand. */
  lemma OtherClusterFile(s: Sys, s': Sys, d: string, n: ClusterNode)
    requires Live(s, d, n) && Live(s', d, n) && FileOf(s', d, n) == FileOf(s, d, n)
    requires s'.clusters[d] == s.clusters[d] && s'.queue == s.queue && s'.inflight == s.inflight
    requires !On(s, d) && !On(s', d)
    requires FileSound(s, d, n) && FileComplete(s, d, n)
    ensures FileSound(s', d, n) && FileComplete(s', d, n) && FileWritten(s', d, n) && LiveKnown(s', d, n)
  {
    forall m | Awaiting(s, d, m) ensures Awaiting(s', d, m) {}
  }

  lemma ScrubLearn(s: Sys, w: Work, call: Call, effect: bool)
    requires call.Ssh? && call.command.ScrubHost?
    requires s.mode == Busy(w) && ActEnabled(s, w, Remote(call, effect))
    ensures var s' := ActApply(s, w, Remote(call, effect));
      && s'.clusters == s.clusters && s'.queue == s.queue && s'.inflight == s.inflight && s'.clean == s.clean
      && s'.mode == Busy(if call.ok then w.(calls := w.calls + [call], scrubbed := w.scrubbed + {Ident(call.node)})
                         else w.(calls := w.calls + [call], tainted := true))
  {
  }

  lemma ScrubbedVm(s: Sys, w: Work, call: Call, effect: bool, d: string, n: ClusterNode)
    requires HostsGood(s) && SnapKept(s) && Tidy(s.clusters) && SeenAreOwn(s)
    requires call.Ssh? && call.command.ScrubHost?
    requires s.mode == Busy(w) && ActEnabled(s, w, Remote(call, effect))
    requires Healthy(ActApply(s, w, Remote(call, effect))) && Live(ActApply(s, w, Remote(call, effect)), d, n) && Live(s, d, n)
    requires VmKey(s.clusters[d].node, n.vmId) == VmKey(w.snap.value.node, call.node.vmId)
    ensures var s' := ActApply(s, w, Remote(call, effect));
      FileSound(s', d, n) && FileComplete(s', d, n) && FileWritten(s', d, n) && LiveKnown(s', d, n)
  {
    ScrubLearn(s, w, call, effect);
    var s' := ActApply(s, w, Remote(call, effect));
    assert Ident(call.node) in w.seen;
    SeenVmIsOurs(s, w, call.node.vmId, d, n);
    assert FileOf(s', d, n) == Scrub(FileOf(s, d, n), call.command.name);
    ScrubbedFile(s, s', d, n);
  }

  lemma NotScrubbed(s: Sys, w: Work, call: Call, effect: bool, d: string, n: ClusterNode)
    requires HostsGood(s) && SnapKept(s) && call.Ssh? && call.command.ScrubHost?
    requires s.mode == Busy(w) && ActEnabled(s, w, Remote(call, effect))
    requires Healthy(ActApply(s, w, Remote(call, effect))) && Live(ActApply(s, w, Remote(call, effect)), d, n) && Live(s, d, n)
    requires VmKey(s.clusters[d].node, n.vmId) != VmKey(w.snap.value.node, call.node.vmId)
    ensures var s' := ActApply(s, w, Remote(call, effect));
      FileSound(s', d, n) && FileComplete(s', d, n) && FileWritten(s', d, n) && LiveKnown(s', d, n)
  {
    ScrubLearn(s, w, call, effect);
    var s' := ActApply(s, w, Remote(call, effect));
    if d == w.event.cluster { KeepFile(s, s', d, n); } else { OtherClusterFile(s, s', d, n); }
  }

  lemma ScrubbedLive(s: Sys, w: Work, call: Call, effect: bool, d: string, n: ClusterNode)
    requires HostsGood(s) && SnapKept(s) && Tidy(s.clusters) && SeenAreOwn(s)
    requires call.Ssh? && call.command.ScrubHost?
    requires s.mode == Busy(w) && ActEnabled(s, w, Remote(call, effect))
    requires Healthy(ActApply(s, w, Remote(call, effect))) && Live(ActApply(s, w, Remote(call, effect)), d, n)
    ensures var s' := ActApply(s, w, Remote(call, effect));
      FileSound(s', d, n) && FileComplete(s', d, n) && FileWritten(s', d, n) && LiveKnown(s', d, n)
  {
    ScrubLearn(s, w, call, effect);
    assert Live(s, d, n);
    if VmKey(s.clusters[d].node, n.vmId) == VmKey(w.snap.value.node, call.node.vmId) {
      ScrubbedVm(s, w, call, effect, d, n);
    } else {
      NotScrubbed(s, w, call, effect, d, n);
    }
  }

  lemma ScrubHosts(s: Sys, w: Work, call: Call, effect: bool)
    requires HostsGood(s) && SnapKept(s) && Tidy(s.clusters) && SeenAreOwn(s)
    requires call.Ssh? && call.command.ScrubHost?
    requires s.mode == Busy(w) && ActEnabled(s, w, Remote(call, effect))
    ensures HostsGood(ActApply(s, w, Remote(call, effect)))
  {
    var s' := ActApply(s, w, Remote(call, effect));
    ScrubLearn(s, w, call, effect);
    if Healthy(s') {
      forall d, n | Live(s', d, n)
        ensures FileSound(s', d, n) && FileComplete(s', d, n) && FileWritten(s', d, n) && LiveKnown(s', d, n)
      {
        ScrubbedLive(s, w, call, effect, d, n);
      }
    }
  }

  lemma ScrubbedFile(s: Sys, s': Sys, c: string, n: ClusterNode)
    requires Live(s, c, n) && Live(s', c, n) && On(s, c) && On(s', c)
    requires s'.clusters == s.clusters && s'.queue == s.queue && s'.inflight == s.inflight
    requires var w, w' := s.mode.work, s'.mode.work;
      && w.event.DeleteNode? && w.removed && w.phase.Working?
      && w' == w.(calls := w'.calls, scrubbed := w'.scrubbed)
    requires FileOf(s', c, n) == Scrub(FileOf(s, c, n), FullName(c, s.mode.work.event.node))
    requires FileSound(s, c, n) && FileComplete(s, c, n) && LiveKnown(s, c, n) && ScrubSafe(s)
    ensures FileSound(s', c, n) && FileComplete(s', c, n) && FileWritten(s', c, n) && LiveKnown(s', c, n)
  {
    var full := FullName(c, s.mode.work.event.node);
    forall e | e in FileOf(s', c, n) ensures e in Pairs(c, Idents(s.clusters[c].nodes)) {
      if e.host == full { OwnLineContains(e.ip, full); }
    }
    forall m | m in Idents(s.clusters[c].nodes)
      ensures Awaiting(s', c, m.name) || PairOf(c, m) in FileOf(s', c, n)
    {
    }
  }

  // ------------------------------------------------------------ steps that change the record read

  lemma ReadHosts(s: Sys, w: Work, a: Act)
    requires HostsGood(s) && SnapKept(s) && (a.ReadRecord? || a.SaveKey?)
    requires s.mode == Busy(w) && ActEnabled(s, w, a)
    ensures HostsGood(ActApply(s, w, a))
  {
    var s' := ActApply(s, w, a);
    ReadGivesCopy(s, w, a);
    if w.event.cluster in s.clusters { FreshCopyHosts(s, s'); } else { TraceHosts(s, s'); }
  }

  /** One more entry in the trace is nothing to the files. */
  lemma TraceHosts(s: Sys, s': Sys)
    requires HostsGood(s) && SnapKept(s) && s.mode.Busy? && s'.mode.Busy?
    requires s' == s.(mode := Busy(s.mode.work.(calls := s'.mode.work.calls)))
    ensures HostsGood(s')
  {
    Carry(s, s');
  }

  lemma FreshCopyHosts(s: Sys, s': Sys)
    requires HostsGood(s) && FreshCopy(s, s') && s.mode.work.phase.Working? && s.mode.work.made == {}
    ensures HostsGood(s')
  {
    if Healthy(s') {
      RewrittenCarry(s, s', s.mode.work.event.cluster);
      forall d, n | Live(s', d, n)
        ensures FileSound(s', d, n) && FileComplete(s', d, n) && FileWritten(s', d, n) && LiveKnown(s', d, n)
      {
        assert Live(s, d, n) && FileOf(s', d, n) == FileOf(s, d, n);
        forall m | Awaiting(s, d, m) ensures Awaiting(s', d, m) {}
      }
    }
  }

  /** The node of the event has left the record, and the worker has forgotten its copy. */
  ghost predicate NodeDropped(s: Sys, s': Sys) {
    s.mode.Busy? && s.mode.work.event.DeleteNode? && s.mode.work.phase.Working? &&
    var w, c := s.mode.work, s.mode.work.event.cluster;
    && c in s.clusters && c in s'.clusters && s'.mode.Busy?
    && s' == s.(clusters := s.clusters[c := s'.clusters[c]], excused := s'.excused,
                mode := Busy(WithSnap(w, None).(removed := true, unlocked := true, calls := s'.mode.work.calls)))
    && s'.clusters[c].node == s.clusters[c].node
    && Idents(s'.clusters[c].nodes) == set m | m in Idents(s.clusters[c].nodes) && m.name != w.event.node
  }

  lemma DropNodeDrops(s: Sys, w: Work)
    requires s.mode == Busy(w) && ActEnabled(s, w, DropNode)
    ensures if w.event.cluster in s.clusters then NodeDropped(s, ActApply(s, w, DropNode))
            else ActApply(s, w, DropNode) == s.(mode := Busy(Say(w, Call.NodeDropped(false))))
  {
    if w.event.cluster in s.clusters {
      DropNodeEffect(s, w);
      var s' := ActApply(s, w, DropNode);
      assert s'.clusters == s.clusters[w.event.cluster := s'.clusters[w.event.cluster]];
    }
  }

  lemma DropNodeHosts(s: Sys, w: Work)
    requires HostsGood(s) && SnapKept(s) && Tidy(s.clusters)
    requires s.mode == Busy(w) && ActEnabled(s, w, DropNode)
    ensures HostsGood(ActApply(s, w, DropNode))
  {
    DropNodeDrops(s, w);
    assert Ident(FindNode(w.snap.value.nodes, w.event.node).value) in Idents(w.snap.value.nodes);
    DroppedHosts(s, ActApply(s, w, DropNode));
  }

  lemma DroppedHosts(s: Sys, s': Sys)
    requires HostsGood(s) && AllSedSafe(s.clusters) && NodeDropped(s, s')
    requires exists m :: m in Idents(s.clusters[s.mode.work.event.cluster].nodes) && m.name == s.mode.work.event.node
    ensures HostsGood(s')
  {
    if Healthy(s') {
      DroppedScrubSafe(s, s');
      forall d, n | Live(s', d, n)
        ensures FileSound(s', d, n) && FileComplete(s', d, n) && FileWritten(s', d, n) && LiveKnown(s', d, n)
      {
        DroppedLive(s, s', d, n);
      }
    }
  }

  lemma DroppedScrubSafe(s: Sys, s': Sys)
    requires AllSedSafe(s.clusters) && NodeDropped(s, s')
    requires exists m :: m in Idents(s.clusters[s.mode.work.event.cluster].nodes) && m.name == s.mode.work.event.node
    ensures ScrubSafe(s')
  {
    var c, name := s.mode.work.event.cluster, s.mode.work.event.node;
    assert SedSafe(c, Idents(s.clusters[c].nodes));
  }

  lemma DroppedLive(s: Sys, s': Sys, d: string, n: ClusterNode)
    requires HostsGood(s) && Healthy(s) && NodeDropped(s, s') && Live(s', d, n)
    ensures FileSound(s', d, n) && FileComplete(s', d, n) && FileWritten(s', d, n) && LiveKnown(s', d, n)
  {
    assert Live(s, d, n) && FileOf(s', d, n) == FileOf(s, d, n);
    if d == s.mode.work.event.cluster { DroppedFile(s, s', d, n); } else { OtherClusterFile(s, s', d, n); }
  }

  lemma DroppedFile(s: Sys, s': Sys, c: string, n: ClusterNode)
    requires Live(s, c, n) && Live(s', c, n) && FileOf(s', c, n) == FileOf(s, c, n)
    requires FileSound(s, c, n) && FileComplete(s, c, n)
    requires s'.queue == s.queue && s'.inflight == s.inflight && s'.mode.Busy? && s'.mode.work.snap.None?
    requires On(s, c) && On(s', c) && s.mode.work.event.DeleteNode? && s'.mode.work.event == s.mode.work.event
    requires s'.mode.work.removed && s'.mode.work.phase.Working? && s'.mode.work.scrubbed == {}
    requires Idents(s'.clusters[c].nodes) == (set m | m in Idents(s.clusters[c].nodes) && m.name != s.mode.work.event.node)
    ensures FileSound(s', c, n) && FileComplete(s', c, n) && FileWritten(s', c, n) && LiveKnown(s', c, n)
  {
    forall m | Awaiting(s, c, m) ensures Awaiting(s', c, m) {}
    forall e | e in FileOf(s', c, n) ensures e in Pairs(c, Idents(s'.clusters[c].nodes)) || Leftover(s', c, n, e) {
      if e in Pairs(c, Idents(s.clusters[c].nodes)) {
        var m :| m in Idents(s.clusters[c].nodes) && PairOf(c, m) == e;
        if m.name != s.mode.work.event.node { assert m in Idents(s'.clusters[c].nodes); }
      }
    }
  }

  lemma DropClusterHosts(s: Sys, w: Work)
    requires HostsGood(s)
    requires s.mode == Busy(w) && ActEnabled(s, w, DropCluster)
    ensures HostsGood(ActApply(s, w, DropCluster))
  {
    var s', c := ActApply(s, w, DropCluster), w.event.cluster;
    if Healthy(s') {
      forall d, n | Live(s', d, n)
        ensures FileSound(s', d, n) && FileComplete(s', d, n) && FileWritten(s', d, n) && LiveKnown(s', d, n)
      {
        assert Live(s, d, n);
        OtherClusterFile(s, s', d, n);
      }
    }
  }

  // ------------------------------------------------------------ the end of an event

  /** A node of the copy is in the copy's host map under its own address, since the stored names
      are unique. */
  lemma PairIsMapped(c: string, nodes: seq<ClusterNode>, stored: seq<ClusterNode>, m: ClusterNode)
    requires UniqueNamed(stored) && Idents(nodes) <= Idents(stored) && m in Idents(nodes)
    ensures PairOf(c, m) in Entries(HostMap(c, nodes))
  {
    HostMapSound(c, nodes);
    var x :| x in nodes && Ident(x) == m;
    var hosts, full := HostMap(c, nodes), FullName(c, m.name);
    var e := Entry(full, hosts[full]);
    assert e in Entries(hosts);
    var k :| k in Idents(nodes) && PairOf(c, k) == e;
    FullNameInjective(c, k.name, m.name);
    UniqueIdent(stored, k, m);
  }

  /** A file that was given every host of the copy is complete. */
  lemma WroteAllIsComplete(s: Sys, w: Work, n: ClusterNode)
    requires s.mode == Busy(w) && SnapKept(s) && Tidy(s.clusters) && LateAwait(s) && w.snap.Some?
    requires !w.event.DeleteNode? && Live(s, w.event.cluster, n) && FileWritten(s, w.event.cluster, n)
    requires WroteAll(w, n, Entries(HostMap(w.event.cluster, w.snap.value.nodes)))
    ensures forall m :: m in Idents(s.clusters[w.event.cluster].nodes) ==>
      Waiting(s, AddNode(w.event.cluster, m.name)) || PairOf(w.event.cluster, m) in FileOf(s, w.event.cluster, n)
  {
    var c := w.event.cluster;
    forall m | m in Idents(s.clusters[c].nodes) && m in Idents(w.snap.value.nodes)
      ensures PairOf(c, m) in FileOf(s, c, n)
    {
      PairIsMapped(c, w.snap.value.nodes, s.clusters[c].nodes, m);
    }
  }

  lemma CreateEvidenceWrote(w: Work, n: ClusterNode)
    requires w.event.CreateCluster? && Evidence(w) && n in Idents(w.snap.value.nodes)
    ensures WroteAll(w, n, Entries(HostMap(w.event.cluster, w.snap.value.nodes)))
  {
    var x :| x in w.snap.value.nodes && Ident(x) == n;
  }

  lemma AddEvidenceWrote(w: Work, n: ClusterNode, stored: seq<ClusterNode>)
    requires w.event.AddNode? && Evidence(w) && n in Idents(w.snap.value.nodes) && n in w.seen
    requires UniqueNamed(stored) && Idents(w.snap.value.nodes) <= Idents(stored)
    ensures WroteAll(w, n, Entries(HostMap(w.event.cluster, w.snap.value.nodes)))
  {
    var x :| x in w.snap.value.nodes && Ident(x) == n;
    if n.name == w.event.node {
      var added := FindNode(w.snap.value.nodes, w.event.node).value;
      assert Ident(added) in Idents(w.snap.value.nodes);
      UniqueIdent(stored, n, Ident(added));
    }
  }

  lemma ConcludeHosts(s: Sys, w: Work, ok: bool)
    requires HostsGood(s) && SnapKept(s) && Tidy(s.clusters)
    requires s.mode == Busy(w) && ActEnabled(s, w, Conclude(ok))
    ensures HostsGood(ActApply(s, w, Conclude(ok)))
  {
    var s', c := ActApply(s, w, Conclude(ok)), w.event.cluster;
    if Healthy(s') {
      assert s' == s.(mode := Busy(w.(phase := Concluded(true))));
      forall d, n | Live(s', d, n)
        ensures FileSound(s', d, n) && FileComplete(s', d, n) && FileWritten(s', d, n) && LiveKnown(s', d, n)
      {
        assert Live(s, d, n);
        if d != c { OtherClusterFile(s, s', d, n); } else { ConcludedFile(s, s', w, n); }
      }
    }
  }

  lemma ConcludedFile(s: Sys, s': Sys, w: Work, n: ClusterNode)
    requires s.mode == Busy(w) && SnapKept(s) && Tidy(s.clusters) && LateAwait(s) && Evidence(w)
    requires s' == s.(mode := Busy(w.(phase := Concluded(true))))
    requires Live(s, w.event.cluster, n) && Live(s', w.event.cluster, n)
    requires FileSound(s, w.event.cluster, n) && FileComplete(s, w.event.cluster, n)
    requires FileWritten(s, w.event.cluster, n) && LiveKnown(s, w.event.cluster, n)
    ensures FileSound(s', w.event.cluster, n) && FileComplete(s', w.event.cluster, n)
    ensures FileWritten(s', w.event.cluster, n) && LiveKnown(s', w.event.cluster, n)
  {
    var c := w.event.cluster;
    match w.event
    case CreateCluster(_) =>
      CreateEvidenceWrote(w, n);
      WroteAllIsComplete(s, w, n);
    case AddNode(_, _) =>
      AddEvidenceWrote(w, n, s.clusters[c].nodes);
      WroteAllIsComplete(s, w, n);
    case DeleteNode(_, _) =>
      forall m | Awaiting(s, c, m) ensures Awaiting(s', c, m) {}
      if DeleteEvidence(w) {
        var x :| x in w.snap.value.nodes && Ident(x) == n;
      }
    case _ =>
      forall m | Awaiting(s, c, m) ensures Awaiting(s', c, m) {}
  }

  lemma FinishHosts(s: Sys, w: Work, ok: bool)
    requires HostsGood(s) && EvidenceHeld(s)
    requires s.mode == Busy(w) && ActEnabled(s, w, Finish(ok))
    ensures HostsGood(ActApply(s, w, Finish(ok)))
  {
    var s' := ActApply(s, w, Finish(ok));
    assert s'.clusters == s.clusters && s'.vms == s.vms && s'.queue == s.queue && s'.inflight == s.inflight && s'.mode == Probing;
    if Healthy(s') {
      assert Healthy(s);
      forall d, n | Live(s', d, n)
        ensures FileSound(s', d, n) && FileComplete(s', d, n) && FileWritten(s', d, n) && LiveKnown(s', d, n)
      {
        assert Live(s, d, n);
        forall m | Awaiting(s, d, m) ensures Awaiting(s', d, m) {}
      }
    }
  }

  lemma LoopHosts(s: Sys, l: LoopStep)
    requires HostsGood(s) && LoopEnabled(s, l)
    ensures HostsGood(LoopApply(s, l))
  {
    var s' := LoopApply(s, l);
    if Healthy(s') {
      if l.Take? { assert s.queue == [s.queue[0]] + s'.queue; }
      forall d, m | Awaiting(s, d, m) ensures Awaiting(s', d, m) {}
      forall d, n | Live(s', d, n)
        ensures FileSound(s', d, n) && FileComplete(s', d, n) && FileWritten(s', d, n) && LiveKnown(s', d, n)
      {
        assert Live(s, d, n);
      }
    }
  }

  lemma RemoteHosts(s: Sys, w: Work, call: Call, effect: bool)
    requires HostsGood(s) && SnapKept(s) && Tidy(s.clusters) && SeenAreOwn(s) && EvidenceHeld(s)
    requires s.mode == Busy(w) && ActEnabled(s, w, Remote(call, effect))
    ensures HostsGood(ActApply(s, w, Remote(call, effect)))
  {
    if Plain(call) { PlainHosts(s, w, call, effect); }
    else if call.ListVms? { ListHosts(s, w, call.listing, call.ok, effect); }
    else if call.Create? { CreateHosts(s, w, call, effect); }
    else if call.command.AddHost? { AddHostHosts(s, w, call, effect); }
    else { ScrubHosts(s, w, call, effect); }
  }

  lemma ActHosts(s: Sys, w: Work, a: Act)
    requires HostsGood(s) && SnapKept(s) && Tidy(s.clusters) && SeenAreOwn(s) && EvidenceHeld(s)
    requires s.mode == Busy(w) && ActEnabled(s, w, a)
    ensures HostsGood(ActApply(s, w, a))
  {
    match a
    case ReadRecord => ReadHosts(s, w, a);
    case SaveKey(_) => ReadHosts(s, w, a);
    case DropNode => DropNodeHosts(s, w);
    case DropCluster => DropClusterHosts(s, w);
    case Conclude(ok) => ConcludeHosts(s, w, ok);
    case Finish(ok) => FinishHosts(s, w, ok);
    case Remote(call, effect) => RemoteHosts(s, w, call, effect);
    case _ => QuietHosts(s, w, a);
  }

  lemma {:induction false} HostsAlwaysGood(steps: seq<Step>)
    requires Legal(steps) && AllAskTidily(steps)
    ensures HostsGood(Exec(steps))
  {
    if steps != [] {
      var before, st := steps[..|steps| - 1], steps[|steps| - 1];
      var s := Exec(before);
      HostsAlwaysGood(before);
      StaysTidy(before);
      StaysTidy(steps);
      SnapKeptAlways(before);
      SeenAlwaysOwn(before);
      EvidenceAlways(before);
      match st
      case Env(e) => NoVmIsOrphaned(before); EnvHosts(s, e);
      case Loop(l) => LoopHosts(s, l);
      case Do(a) => ActHosts(s, s.mode.work, a);
    }
  }

  /** Over every run in which no event has failed and callers ask tidily: whenever the worker is
      idle with nothing queued and no caller half-way, the hosts file of every VM of a recorded node
      holds exactly the (cluster-node, ip) pairs of the nodes its cluster has by then. */
  lemma HostsFilesAgree(steps: seq<Step>, c: string, n: ClusterNode)
    requires Legal(steps) && AllAskTidily(steps)
    requires Exec(steps).clean && Drained(Exec(steps)) && Live(Exec(steps), c, n)
    ensures FileOf(Exec(steps), c, n) == Pairs(c, Idents(Exec(steps).clusters[c].nodes))
  {
    HostsAlwaysGood(steps);
    var s := Exec(steps);
    assert FileSound(s, c, n) && FileComplete(s, c, n);
    forall m | m in Idents(s.clusters[c].nodes) ensures PairOf(c, m) in FileOf(s, c, n) {
      assert !Awaiting(s, c, m.name);
    }
  }
}
