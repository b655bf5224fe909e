/** What each step of the machine leaves alone. */
module Frames {
  import opened Model
  import opened Records
  import opened HostFile
  import opened Machine

  /** Learning changes the evidence and the trace, nothing else. */
  lemma LearnKeeps(w: Work, vms: map<VmKey, Vm>, call: Call)
    ensures Learnt(w, Learn(w, vms, call), call)
  {
    match call
    case ListVms(_, _) => LearnListing(w, vms, call);
    case Ssh(n, command, ok) => LearnCommand(w, vms, n, command, ok);
    case _ =>
  }

  ghost predicate Learnt(w: Work, w': Work, call: Call) {
    w' == w.(calls := w.calls + [call], listed := w'.listed, seen := w'.seen, gone := w'.gone, made := w'.made,
             wrote := w'.wrote, scrubbed := w'.scrubbed, tainted := w'.tainted)
  }

  lemma LearnListing(w: Work, vms: map<VmKey, Vm>, call: Call)
    requires call.ListVms?
    ensures Learnt(w, Learn(w, vms, call), call)
  {
  }

  lemma LearnAddHost(w: Work, vms: map<VmKey, Vm>, n: ClusterNode, e: Entry, ok: bool)
    ensures Learn(w, vms, Ssh(n, AddHost(e), ok)) ==
      if ok then w.(calls := w.calls + [Call.Ssh(n, AddHost(e), ok)], wrote := w.wrote + {(Ident(n), e)})
      else w.(calls := w.calls + [Call.Ssh(n, AddHost(e), ok)], tainted := true)
  {
  }

  lemma LearnScrub(w: Work, vms: map<VmKey, Vm>, n: ClusterNode, name: string, ok: bool)
    ensures Learnt(w, Learn(w, vms, Ssh(n, ScrubHost(name), ok)), Ssh(n, ScrubHost(name), ok))
  {
  }

  lemma LearnPlain(w: Work, vms: map<VmKey, Vm>, n: ClusterNode, command: Command, ok: bool)
    requires !command.AddHost? && !command.ScrubHost?
    ensures Learn(w, vms, Ssh(n, command, ok)) == w.(calls := w.calls + [Call.Ssh(n, command, ok)])
  {
  }

  lemma LearnCommand(w: Work, vms: map<VmKey, Vm>, n: ClusterNode, command: Command, ok: bool)
    ensures Learnt(w, Learn(w, vms, Ssh(n, command, ok)), Ssh(n, command, ok))
  {
    match command
    case AddHost(e) => LearnAddHost(w, vms, n, e, ok);
    case ScrubHost(name) => LearnScrub(w, vms, n, name, ok);
    case _ => LearnPlain(w, vms, n, command, ok);
  }

  ghost predicate SameChannel(s: Sys, s': Sys) {
    && s'.queue == s.queue && s'.inflight == s.inflight && s'.sent == s.sent && s'.probedAt == s.probedAt
    && s'.shutdown == s.shutdown
  }

  ghost predicate StillBusy(s: Sys, w: Work, s': Sys) {
    SameChannel(s, s') && s'.mode.Busy? && s'.mode.work.event == w.event && s'.dispatched == s.dispatched
  }

  lemma RemoteStillBusy(s: Sys, w: Work, call: Call, effect: bool)
    requires s.mode == Busy(w) && ActEnabled(s, w, Remote(call, effect))
    ensures StillBusy(s, w, ActApply(s, w, Remote(call, effect)))
  {
    LearnKeeps(w, s.vms, call);
  }

  lemma StatusStillBusy(s: Sys, w: Work, st: Status)
    requires s.mode == Busy(w)
    ensures StillBusy(s, w, SetStatusApply(s, w, st))
  {
  }

  lemma UnlockStillBusy(s: Sys, w: Work)
    requires s.mode == Busy(w) && NamesNode(w.event)
    ensures StillBusy(s, w, UnlockApply(s, w))
  {
  }

  lemma DropStillBusy(s: Sys, w: Work)
    requires s.mode == Busy(w) && w.event.DeleteNode?
    ensures StillBusy(s, w, DropNodeApply(s, w))
  {
  }

  lemma UnlockMissed(s: Sys, w: Work)
    requires NamesNode(w.event)
    requires !(w.event.cluster in s.clusters && FindNode(s.clusters[w.event.cluster].nodes, w.event.node).Some?)
    ensures UnlockApply(s, w) == s.(mode := Busy(w.(calls := w.calls + [LockCleared(false)])))
  {
  }

  lemma UnlockFound(s: Sys, w: Work)
    requires NamesNode(w.event)
    requires w.event.cluster in s.clusters && FindNode(s.clusters[w.event.cluster].nodes, w.event.node).Some?
    ensures var c, name, r := w.event.cluster, w.event.node, s.clusters[w.event.cluster];
      UnlockApply(s, w) == s.(clusters := s.clusters[c := r.(nodes := LockFirst(r.nodes, name, None))],
                              mode := Busy(w.(unlocked := true, calls := w.calls + [LockCleared(true)])),
                              excused := s.excused - {(c, name)})
  {
  }

  lemma DropFound(s: Sys, w: Work)
    requires w.event.DeleteNode? && w.event.cluster in s.clusters
    ensures var c, name, r := w.event.cluster, w.event.node, s.clusters[w.event.cluster];
      DropNodeApply(s, w) == s.(clusters := s.clusters[c := r.(nodes := Without(r.nodes, name))],
                                mode := Busy(WithSnap(w, None).(removed := true, unlocked := true, calls := w.calls + [NodeDropped(true)])),
                                excused := s.excused - {(c, name)})
  {
  }

  predicate OnRecord(a: Act) {
    a.ReadRecord? || a.SaveKey? || a.SaveConfig? || a.SaveResources?
  }

  /** What reading and saving the record can change: the record, the trace, and the copy in use, which
      is then what is stored. */
  ghost predicate RecordOnly(s: Sys, w: Work, s': Sys) {
    && s'.mode.Busy? && s' == s.(clusters := s'.clusters, mode := s'.mode)
    && var w' := s'.mode.work;
       || w' == w.(calls := w'.calls)
       || (&& w' == WithSnap(w, w'.snap).(calls := w'.calls)
           && w.event.cluster in s'.clusters && w'.snap == Some(s'.clusters[w.event.cluster]))
  }

  lemma ReadHandles(s: Sys, w: Work)
    ensures RecordOnly(s, w, ReadApply(s, w))
  {
  }

  lemma SaveKeyHandles(s: Sys, w: Work, key: string)
    ensures RecordOnly(s, w, SaveKeyApply(s, w, key))
  {
  }

  lemma SaveConfigHandles(s: Sys, w: Work, config: string)
    ensures RecordOnly(s, w, SaveConfigApply(s, w, config))
  {
  }

  lemma SaveResourcesHandles(s: Sys, w: Work)
    requires w.event.ChangeResources?
    ensures RecordOnly(s, w, SaveResourcesApply(s, w))
  {
  }

  lemma RecordHandled(s: Sys, w: Work, a: Act)
    requires s.mode == Busy(w) && ActEnabled(s, w, a) && OnRecord(a)
    ensures RecordOnly(s, w, ActApply(s, w, a))
  {
    match a
    case ReadRecord => ReadHandles(s, w);
    case SaveKey(key) => SaveKeyHandles(s, w, key);
    case SaveConfig(config) => SaveConfigHandles(s, w, config);
    case SaveResources => SaveResourcesHandles(s, w);
  }

  /** No step of an event touches the channel, and only `Finish` ends the event. */
  lemma ActKeepsEvent(s: Sys, w: Work, a: Act)
    requires s.mode == Busy(w) && ActEnabled(s, w, a)
    ensures var s' := ActApply(s, w, a);
      if a.Finish? then SameChannel(s, s') && s'.mode == Probing && s'.dispatched == s.dispatched + [w.event]
      else StillBusy(s, w, s')
  {
    if OnRecord(a) {
      RecordHandled(s, w, a);
    } else {
      OtherKeepsEvent(s, w, a);
    }
  }

  lemma OtherKeepsEvent(s: Sys, w: Work, a: Act)
    requires s.mode == Busy(w) && ActEnabled(s, w, a) && !OnRecord(a)
    ensures var s' := ActApply(s, w, a);
      if a.Finish? then SameChannel(s, s') && s'.mode == Probing && s'.dispatched == s.dispatched + [w.event]
      else StillBusy(s, w, s')
  {
    match a
    case Remote(call, effect) => RemoteStillBusy(s, w, call, effect);
    case SetStatus(st) => StatusStillBusy(s, w, st);
    case Unlock => UnlockStillBusy(s, w);
    case DropNode => DropStillBusy(s, w);
    case _ =>
  }

  /** Only the end of an event can bring in a failure. */
  lemma QuietClean(s: Sys, w: Work, a: Act)
    requires s.mode == Busy(w) && ActEnabled(s, w, a) && !a.Finish?
    ensures ActApply(s, w, a).clean == s.clean
  {
  }

  predicate Shrinks(a: Act) {
    a.DropNode? || a.DropCluster?
  }

  /** Steps that neither read the record, nor call out, nor shrink the store leave the VMs and all
      the evidence alone. */
  predicate Quiet(a: Act) {
    !Shrinks(a) && !a.ReadRecord? && !a.SaveKey? && !a.Remote?
  }

  ghost predicate SameEvidence(w: Work, m: Mode) {
    m.Busy? &&
    m.work == w.(phase := m.work.phase, calls := m.work.calls,
                 statusDone := m.work.statusDone, unlocked := m.work.unlocked)
  }

  lemma SetStatusQuiet(s: Sys, w: Work, st: Status)
    requires s.mode == Busy(w)
    ensures SetStatusApply(s, w, st).vms == s.vms
    ensures SameEvidence(w, SetStatusApply(s, w, st).mode)
  {
  }

  lemma UnlockQuiet(s: Sys, w: Work)
    requires s.mode == Busy(w) && NamesNode(w.event)
    ensures UnlockApply(s, w).vms == s.vms
    ensures SameEvidence(w, UnlockApply(s, w).mode)
  {
  }

  lemma SaveQuiet(s: Sys, w: Work, a: Act)
    requires s.mode == Busy(w) && ActEnabled(s, w, a) && (a.SaveConfig? || a.SaveResources?)
    ensures RecordOnly(s, w, ActApply(s, w, a)) && ActApply(s, w, a).mode.work == w.(calls := ActApply(s, w, a).mode.work.calls)
  {
    RecordHandled(s, w, a);
  }

  lemma QuietWork(s: Sys, w: Work, a: Act, s': Sys)
    requires s.mode == Busy(w) && ActEnabled(s, w, a) && Quiet(a)
    requires s' == ActApply(s, w, a)
    ensures s'.vms == s.vms
    ensures !a.Finish? ==> SameEvidence(w, s'.mode)
  {
    if a.SetStatus? {
      SetStatusQuiet(s, w, a.status);
    } else if a.Unlock? {
      UnlockQuiet(s, w);
    } else if a.SaveConfig? || a.SaveResources? {
      SaveQuiet(s, w, a);
    }
  }

  /** The nodes ticked off after one more call. */
  lemma LearnGone(w: Work, vms: map<VmKey, Vm>, call: Call)
    requires w.snap.Some?
    ensures Learn(w, vms, call).gone ==
      match call
      case ListVms(_, ok) =>
        if ok then w.gone + (Idents(w.snap.value.nodes) - Found(vms, w.event.cluster, w.snap.value)) else w.gone
      case Delete(n, ok) => if ok then w.gone + {Ident(n)} else w.gone
      case _ => w.gone
  {
  }

  lemma PutExtends(s: Sys, c: string, r: Cluster)
    requires c in s.clusters && r.node == s.clusters[c].node && Idents(s.clusters[c].nodes) <= Idents(r.nodes)
    ensures Extends(s.clusters, Put(s, c, r).clusters)
  {
  }

  lemma AddNodeExtends(s: Sys, c: string, n: ClusterNode)
    requires EnvEnabled(s, OpAddNode(c, n))
    ensures Extends(s.clusters, EnvApply(s, OpAddNode(c, n)).clusters)
  {
    IdentsAppend(s.clusters[c].nodes, n.(lock := Some(CreateLock)));
    PutExtends(s, c, EnvApply(s, OpAddNode(c, n)).clusters[c]);
  }

  lemma DeleteNodeExtends(s: Sys, c: string, name: string)
    requires EnvEnabled(s, OpDeleteNode(c, name))
    ensures Extends(s.clusters, EnvApply(s, OpDeleteNode(c, name)).clusters)
  {
    EditsKeepIdents(s.clusters[c].nodes, name, DeleteLock, Some(DeleteLock), 0, 0);
    PutExtends(s, c, EnvApply(s, OpDeleteNode(c, name)).clusters[c]);
  }

  lemma ChangeExtends(s: Sys, c: string, name: string, cores: nat, memory: nat)
    requires EnvEnabled(s, OpChange(c, name, cores, memory))
    ensures Extends(s.clusters, EnvApply(s, OpChange(c, name, cores, memory)).clusters)
  {
    EditsKeepIdents(s.clusters[c].nodes, name, ChangeLock, None, 0, 0);
    PutExtends(s, c, EnvApply(s, OpChange(c, name, cores, memory)).clusters[c]);
  }

  lemma CreateExtends(s: Sys, r: Cluster)
    requires EnvEnabled(s, OpCreate(r))
    ensures Extends(s.clusters, EnvApply(s, OpCreate(r)).clusters)
  {
  }

  /** Marking a record for destruction and editing its apps leave host and nodes alone. */
  lemma RecordEditExtends(s: Sys, c: string, e: EnvStep)
    requires EnvEnabled(s, e) && (e == OpDeleteCluster(c) || (e.OpEditApps? && e.cluster == c))
    ensures Extends(s.clusters, EnvApply(s, e).clusters)
  {
    PutExtends(s, c, EnvApply(s, e).clusters[c]);
  }

  /** Callers and outsiders have no hand in the worker's state or in the history of its events. */
  lemma EnvKeepsWorker(s: Sys, e: EnvStep)
    requires EnvEnabled(s, e)
    ensures var s' := EnvApply(s, e);
      s' == s.(clusters := s'.clusters, logs := s'.logs, vms := s'.vms, inflight := s'.inflight,
               queue := s'.queue, sent := s'.sent, shutdown := s'.shutdown)
  {
    match e
    case OpCreate(_) =>
    case OpAddNode(_, _) =>
    case OpDeleteNode(_, _) =>
    case OpChange(_, _, _, _) =>
    case OpDeleteCluster(_) =>
    case OpEditApps(_, _, _) =>
    case _ =>
  }

  /** Callers only ever add records and nodes. */
  lemma EnvExtends(s: Sys, e: EnvStep)
    requires EnvEnabled(s, e)
    ensures Extends(s.clusters, EnvApply(s, e).clusters)
    ensures EnvApply(s, e).mode == s.mode && EnvApply(s, e).excused == s.excused && EnvApply(s, e).clean == s.clean
  {
    EnvKeepsWorker(s, e);
    match e
    case OpCreate(r) => CreateExtends(s, r);
    case OpDeleteCluster(c) => RecordEditExtends(s, c, e);
    case OpEditApps(c, _, _) => RecordEditExtends(s, c, e);
    case OpAddNode(c, n) => AddNodeExtends(s, c, n);
    case OpDeleteNode(c, name) => DeleteNodeExtends(s, c, name);
    case OpChange(c, name, cores, memory) => ChangeExtends(s, c, name, cores, memory);
    case _ =>
  }

  lemma EnvFinishesNothing(s: Sys, e: EnvStep)
    requires EnvEnabled(s, e)
    ensures EnvApply(s, e).dispatched == s.dispatched
  {
    EnvKeepsWorker(s, e);
  }

  /** At most the record of `c` was rewritten, and it kept its host and its nodes' identities. */
  ghost predicate Rewritten(before: map<string, Cluster>, after: map<string, Cluster>, c: string) {
    || after == before
    || (&& c in before && c in after && after == before[c := after[c]]
        && after[c].node == before[c].node && SameIdents(after[c].nodes, before[c].nodes))
  }

  /** Of the worker's steps only two shrink the store. */
  lemma ActRewrites(s: Sys, w: Work, a: Act)
    requires s.mode == Busy(w) && ActEnabled(s, w, a) && !Shrinks(a)
    ensures Rewritten(s.clusters, ActApply(s, w, a).clusters, w.event.cluster)
  {
    match a
    case SetStatus(_) =>
    case SaveKey(_) =>
    case SaveConfig(_) =>
    case SaveResources => ResourcesRewrite(s, w);
    case Unlock => UnlockRewrites(s, w);
    case _ =>
  }

  lemma ResourcesRewrite(s: Sys, w: Work)
    requires w.event.ChangeResources?
    ensures Rewritten(s.clusters, SaveResourcesApply(s, w).clusters, w.event.cluster)
  {
    if w.event.cluster in s.clusters {
      EditsKeepIdents(s.clusters[w.event.cluster].nodes, w.event.node, ChangeLock, None, w.event.cores, w.event.memory);
    }
  }

  lemma UnlockRewrites(s: Sys, w: Work)
    requires NamesNode(w.event)
    ensures Rewritten(s.clusters, UnlockApply(s, w).clusters, w.event.cluster)
  {
    if w.event.cluster in s.clusters {
      EditsKeepIdents(s.clusters[w.event.cluster].nodes, w.event.node, ChangeLock, None, 0, 0);
    }
  }

  /** The worker has a fresh copy of the record, whose nodes are the same. */
  ghost predicate FreshCopy(s: Sys, s': Sys) {
    && s.mode.Busy? && s.mode.work.event.cluster in s'.clusters
    && s'.mode.Busy?
    && s' == s.(clusters := s'.clusters,
                mode := Busy(WithSnap(s.mode.work, Some(s'.clusters[s.mode.work.event.cluster])).(calls := s'.mode.work.calls)))
    && Rewritten(s.clusters, s'.clusters, s.mode.work.event.cluster)
  }

  lemma ReadGivesCopy(s: Sys, w: Work, a: Act)
    requires s.mode == Busy(w) && ActEnabled(s, w, a) && (a.ReadRecord? || a.SaveKey?)
    ensures var s' := ActApply(s, w, a);
      if w.event.cluster in s.clusters then FreshCopy(s, s')
      else s'.mode.Busy? && s' == s.(mode := Busy(w.(calls := s'.mode.work.calls)))
  {
    ActRewrites(s, w, a);
    match a
    case ReadRecord => assert ActApply(s, w, a) == ReadApply(s, w);
    case SaveKey(key) => assert ActApply(s, w, a) == SaveKeyApply(s, w, key);
  }

  lemma RewrittenExtends(before: map<string, Cluster>, after: map<string, Cluster>, c: string)
    requires Rewritten(before, after, c)
    ensures Extends(before, after) && after.Keys == before.Keys
    ensures forall d :: d in before ==> Idents(after[d].nodes) == Idents(before[d].nodes)
  {
    if after != before { SameIdentsSets(after[c].nodes, before[c].nodes); }
  }

  /** What the record looks like once the worker has removed a node from it. */
  lemma DropNodeEffect(s: Sys, w: Work)
    requires s.mode == Busy(w) && ActEnabled(s, w, DropNode) && w.event.cluster in s.clusters
    ensures var s', c := ActApply(s, w, DropNode), w.event.cluster;
      && s'.clusters.Keys == s.clusters.Keys
      && (forall d :: d in s.clusters && d != c ==> s'.clusters[d] == s.clusters[d])
      && s'.clusters[c].node == s.clusters[c].node
      && s'.clusters[c].status == s.clusters[c].status
      && Idents(s'.clusters[c].nodes) == (set n | n in Idents(s.clusters[c].nodes) && n.name != w.event.node)
      && s'.vms == s.vms
  {
    IdentsWithout(s.clusters[w.event.cluster].nodes, w.event.node);
  }

  /** The copy the worker reads by is never ahead of the store: same host, and only nodes that the
      stored record still has. */
  ghost predicate SnapKept(s: Sys) {
    s.mode.Busy? && s.mode.work.snap.Some? ==>
      var w, r := s.mode.work, s.mode.work.snap.value;
      && w.event.cluster in s.clusters
      && r.node == s.clusters[w.event.cluster].node
      && Idents(r.nodes) <= Idents(s.clusters[w.event.cluster].nodes)
  }

  /** The copy changes only by being read again. */
  lemma SnapMoves(s: Sys, w: Work, a: Act)
    requires s.mode == Busy(w) && ActEnabled(s, w, a) && !Shrinks(a) && !a.Finish?
    ensures var s', c := ActApply(s, w, a), w.event.cluster;
      && s'.mode.Busy?
      && (s'.mode.work.snap == w.snap
          || (c in s'.clusters && s'.mode.work.snap == Some(s'.clusters[c])))
  {
    if OnRecord(a) { RecordHandled(s, w, a); } else { OtherKeepsSnap(s, w, a); }
  }

  lemma OtherKeepsSnap(s: Sys, w: Work, a: Act)
    requires s.mode == Busy(w) && ActEnabled(s, w, a) && !Shrinks(a) && !a.Finish? && !OnRecord(a)
    ensures ActApply(s, w, a).mode.Busy? && ActApply(s, w, a).mode.work.snap == w.snap
  {
    if a.Remote? { LearnKeeps(w, s.vms, a.call); } else { QuietWork(s, w, a, ActApply(s, w, a)); }
  }

  lemma SnapKeptAct(s: Sys, w: Work, a: Act)
    requires s.mode == Busy(w) && ActEnabled(s, w, a)
    requires SnapKept(s)
    ensures SnapKept(ActApply(s, w, a))
  {
    if a.DropNode? {
      DropNodeSnap(s, w);
    } else if !a.DropCluster? && !a.Finish? {
      ActKeepsEvent(s, w, a);
      ActRewrites(s, w, a);
      RewrittenExtends(s.clusters, ActApply(s, w, a).clusters, w.event.cluster);
      SnapMoves(s, w, a);
    }
  }

  lemma DropNodeSnap(s: Sys, w: Work)
    requires s.mode == Busy(w) && w.event.DeleteNode?
    ensures var s' := DropNodeApply(s, w);
      s'.mode.Busy? && (s'.mode.work.snap == None || s' == s.(mode := Busy(w.(calls := s'.mode.work.calls))))
  {
  }

  lemma {:induction false} SnapKeptAlways(steps: seq<Step>)
    requires Legal(steps)
    ensures SnapKept(Exec(steps))
  {
    if steps != [] {
      var s, st := Exec(steps[..|steps| - 1]), steps[|steps| - 1];
      SnapKeptAlways(steps[..|steps| - 1]);
      match st
      case Env(e) => EnvExtends(s, e);
      case Loop(_) =>
      case Do(a) => SnapKeptAct(s, s.mode.work, a);
    }
  }

  /** `execute` returned `Ok` only with the evidence in hand, and the evidence is not lost before
      the event ends. */
  ghost predicate EvidenceHeld(s: Sys) {
    s.mode.Busy? && s.mode.work.phase == Concluded(true) ==> Evidence(s.mode.work)
  }

  lemma EvidenceStays(w: Work, m: Mode)
    requires Evidence(w) && SameEvidence(w, m)
    ensures Evidence(m.work)
  {
    var w' := m.work;
    assert w'.event == w.event && w'.snap == w.snap && w'.made == w.made && w'.wrote == w.wrote
        && w'.seen == w.seen && w'.scrubbed == w.scrubbed;
    if w.snap.Some? {
      forall n, es | WroteAll(w, n, es) ensures WroteAll(w', n, es) {}
    }
  }

  lemma ConcludedIsQuiet(s: Sys, w: Work, a: Act)
    requires s.mode == Busy(w) && ActEnabled(s, w, a) && w.phase.Concluded?
    ensures Quiet(a) && !a.Conclude?
  {
  }

  /** Only `Conclude` brings about a successful conclusion. */
  lemma ConcludesOnce(s: Sys, w: Work, a: Act, s': Sys)
    requires s.mode == Busy(w) && ActEnabled(s, w, a) && s' == ActApply(s, w, a)
    requires s'.mode.Busy? && s'.mode.work.phase == Concluded(true) && w.phase != Concluded(true)
    ensures a == Conclude(true)
  {
    if OnRecord(a) { RecordHandled(s, w, a); } else { OtherConcludes(s, w, a, s'); }
  }

  lemma OtherConcludes(s: Sys, w: Work, a: Act, s': Sys)
    requires s.mode == Busy(w) && ActEnabled(s, w, a) && !OnRecord(a) && s' == ActApply(s, w, a)
    requires s'.mode.Busy? && s'.mode.work.phase == Concluded(true) && w.phase != Concluded(true)
    ensures a == Conclude(true)
  {
    match a
    case Remote(call, effect) => RemoteConclusion(s, w, call, effect);
    case SetStatus(st) => SetStatusConclusion(s, w, st);
    case Unlock => UnlockConclusion(s, w);
    case DropNode => DropNodeConclusion(s, w);
    case _ =>
  }

  lemma RemoteConclusion(s: Sys, w: Work, call: Call, effect: bool)
    requires s.mode == Busy(w) && ActEnabled(s, w, Remote(call, effect))
    ensures ActApply(s, w, Remote(call, effect)).mode.Busy? && ActApply(s, w, Remote(call, effect)).mode.work.phase == w.phase
  {
    LearnKeeps(w, s.vms, call);
  }

  lemma DropNodeConclusion(s: Sys, w: Work)
    requires s.mode == Busy(w) && w.event.DeleteNode?
    ensures DropNodeApply(s, w).mode.Busy? && DropNodeApply(s, w).mode.work.phase == w.phase
  {
  }

  lemma SetStatusConclusion(s: Sys, w: Work, st: Status)
    ensures SetStatusApply(s, w, st).mode.work.phase in {w.phase, Working, Concluded(false)}
  {
  }

  lemma UnlockConclusion(s: Sys, w: Work)
    requires s.mode == Busy(w) && NamesNode(w.event)
    ensures UnlockApply(s, w).mode.Busy? && UnlockApply(s, w).mode.work.phase == w.phase
  {
  }

  lemma {:induction false} EvidenceAlways(steps: seq<Step>)
    requires Legal(steps)
    ensures EvidenceHeld(Exec(steps))
  {
    if steps != [] {
      var s, st := Exec(steps[..|steps| - 1]), steps[|steps| - 1];
      EvidenceAlways(steps[..|steps| - 1]);
      match st
      case Env(e) => EnvExtends(s, e);
      case Loop(_) =>
      case Do(a) =>
        var w, s' := s.mode.work, Next(s, st);
        if s'.mode.Busy? && s'.mode.work.phase == Concluded(true) {
          if w.phase == Concluded(true) {
            ConcludedIsQuiet(s, w, a);
            QuietWork(s, w, a, s');
          } else {
            ConcludesOnce(s, w, a, s');
            QuietWork(s, w, a, s');
          }
          EvidenceStays(w, s'.mode);
        }
    }
  }
}
