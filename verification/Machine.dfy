/** The whole system as a transition system: callers of the operator, the outside world, and the
    one background worker, over the store, the event channel and the hypervisor.

    A worker step is enabled only on evidence the worker gathered while it handles the current
    event: which nodes a listing showed, which VMs it made or deleted, which host lines it wrote.
    The methods of the use-case modules are proved to take enabled steps only, so whatever holds
    in every legal run of this machine holds in every run of that code, under any interleaving
    with the other steps. A `get_cluster` followed by `save_cluster` is one step. */
module Machine {
  import opened Model
  import opened Records
  import opened HostFile

  /** `mpsc::sync_channel(10)`. */
  const CAPACITY := 10

  // ---------------------------------------------------------------- the hypervisor

  datatype VmKey = VmKey(host: string, id: nat)

  /** `ours` is true of the VMs that makoon created. */
  datatype Vm = Vm(name: string, ours: bool, running: bool, cores: nat, memory: nat, hosts: set<Entry>)

  datatype Answer = SawRunning | SawStopped | NoAnswer(why: string)

  /** What is run on a node; `required`, `usable` and `config` are what it answers if it succeeds. */
  datatype Command =
    | Connect | CloudInit | RebootCheck(required: bool) | EnableIscsi | Install | WaitReady
    | AddTemplateHost(entry: Entry) | AddHost(entry: Entry) | ScrubTemplate(name: string) | ScrubHost(name: string)
    | AddNodeToken(usable: bool) | Join(asWorker: bool) | Drain(name: string) | Leave | Forget(name: string)
    | Kubeconfig(config: string) | Addon(name: string) | HelmRelease(app: HelmApp) | Apply(resource: ClusterResource)

  datatype ImageStep = Look(found: bool) | Download | Details

  /** One thing that the worker asks of the hypervisor, of a node over SSH or of the repository while
      it handles an event, with the answer. */
  datatype Call =
    | ListVms(listing: map<nat, string>, ok: bool)
    | ListContainers(ids: set<nat>, ok: bool)
    | Image(step: ImageStep, ok: bool)
    | Create(node: ClusterNode, ok: bool)
    | LockPoll(node: ClusterNode, free: bool)
    | GrowDisk(node: ClusterNode, ok: bool)
    | Start(node: ClusterNode, ok: bool)
    | Shutdown(node: ClusterNode, ok: bool)
    | HardStop(node: ClusterNode, ok: bool)
    | Poll(node: ClusterNode, answer: Answer)
    | Delete(node: ClusterNode, ok: bool)
    | Configure(node: ClusterNode, cores: nat, memory: nat, ok: bool)
    | Ssh(node: ClusterNode, command: Command, ok: bool)
    | Noted(level: Level, message: string)
    | RecordRead(record: Option<Cluster>)
    | KeySaved(record: Option<Cluster>)
    | ConfigSaved(config: string, found: bool)
    | ResourcesSaved(found: bool)
    | StatusSet(status: Status, found: bool)
    | LockCleared(found: bool)
    | NodeDropped(found: bool)
    | ClusterDropped

  /** The call is about the VM of one node. */
  predicate OnNode(call: Call) {
    || call.Create? || call.LockPoll? || call.GrowDisk? || call.Start? || call.Shutdown? || call.HardStop? || call.Poll?
    || call.Delete? || call.Configure? || call.Ssh?
  }

  /** Calls that read and change nothing the machine tracks. */
  predicate ReadOnly(call: Call) {
    || call.ListContainers? || call.Image? || call.LockPoll? || call.GrowDisk? || call.Poll?
    || (call.Ssh? && (call.command.CloudInit? || call.command.RebootCheck?))
  }

  /** What a listing of a host's VMs returns: ids and names. */
  function Listing(vms: map<VmKey, Vm>, host: string): (l: map<nat, string>)
    ensures forall id :: id in l <==> VmKey(host, id) in vms
    ensures forall id :: id in l ==> l[id] == vms[VmKey(host, id)].name
  {
    var ids := set k | k in vms && k.host == host :: k.id;
    map id | id in ids && VmKey(host, id) in vms :: vms[VmKey(host, id)].name
  }

  predicate Listed(listing: map<nat, string>, cluster: string, n: ClusterNode) {
    n.vmId in listing && listing[n.vmId] == FullName(cluster, n.name)
  }

  predicate Matches(vms: map<VmKey, Vm>, cluster: string, host: string, n: ClusterNode) {
    VmKey(host, n.vmId) in vms && vms[VmKey(host, n.vmId)].name == FullName(cluster, n.name)
  }

  function SetPower(vms: map<VmKey, Vm>, k: VmKey, on: bool): map<VmKey, Vm> {
    if k in vms then vms[k := vms[k].(running := on)] else vms
  }

  function SetHosts(vms: map<VmKey, Vm>, k: VmKey, hosts: set<Entry>): map<VmKey, Vm> {
    if k in vms then vms[k := vms[k].(hosts := hosts)] else vms
  }

  /** What a call does to the VMs of `host` if it takes effect. */
  function Effect(vms: map<VmKey, Vm>, cluster: string, host: string, call: Call): map<VmKey, Vm> {
    match call
    case Create(n, _) =>
      vms[VmKey(host, n.vmId) := Vm(FullName(cluster, n.name), true, false, n.cores, n.memory, {})]
    case Start(n, _) => SetPower(vms, VmKey(host, n.vmId), true)
    case Shutdown(n, _) => SetPower(vms, VmKey(host, n.vmId), false)
    case HardStop(n, _) => SetPower(vms, VmKey(host, n.vmId), false)
    case Delete(n, _) => vms - {VmKey(host, n.vmId)}
    case Configure(n, cores, memory, _) =>
      var k := VmKey(host, n.vmId);
      if k in vms then vms[k := vms[k].(cores := cores, memory := memory)] else vms
    case Ssh(n, AddHost(e), _) =>
      var k := VmKey(host, n.vmId);
      if k in vms then SetHosts(vms, k, vms[k].hosts + {e}) else vms
    case Ssh(n, ScrubHost(p), _) =>
      var k := VmKey(host, n.vmId);
      if k in vms then SetHosts(vms, k, Scrub(vms[k].hosts, p)) else vms
    case _ => vms
  }

  // ---------------------------------------------------------------- the state

  /** How far the dispatcher is with the current event: before the first status update of a
      creation, inside `execute`, or after `execute` returned. */
  datatype Phase = Fresh | Working | Concluded(ok: bool)

  /** The worker's local state while it handles an event.
      `snap` is the record it last read; nodes are named by identity in the evidence sets. */
  datatype Work = Work(
    event: Event,
    phase: Phase,
    snap: Option<Cluster>,
    listed: bool,              // a listing succeeded since the record was read
    seen: set<ClusterNode>,    // found in a listing, or created
    gone: set<ClusterNode>,    // missing from a listing, or deleted
    made: set<ClusterNode>,    // created while handling this event
    wrote: set<(ClusterNode, Entry)>,
    scrubbed: set<ClusterNode>,
    tainted: bool,             // a create or a host edit failed, perhaps after taking effect
    removed: bool,             // the node or the cluster has left the store
    unlocked: bool,            // the node's lock was cleared, or the node removed
    statusDone: bool,          // the closing status update was made or found no record
    calls: seq<Call>)          // all that was asked for this event so far

  datatype Mode = Probing | Napping | Busy(work: Work) | Exited

  datatype Sys = Sys(
    clusters: map<string, Cluster>,
    logs: seq<LogEntry>,
    vms: map<VmKey, Vm>,
    inflight: multiset<Event>, // recorded by a caller who has not yet got it into the channel
    queue: seq<Event>,
    mode: Mode,
    shutdown: bool,
    sent: seq<Event>,          // history: all events that entered the channel
    dispatched: seq<Event>,    // history: events the worker has finished with
    probedAt: nat,             // history: how many events had been sent at the last empty probe
    excused: set<(string, string)>, // history: nodes whose last event failed or was refused
    clean: bool)               // history: no event has ended in an error

  function Init(): Sys {
    Sys(map[], [], map[], multiset{}, [], Probing, false, [], [], 0, {}, true)
  }

  function StartWork(e: Event): Work {
    Work(e, if e.CreateCluster? then Fresh else Working, None, false, {}, {}, {}, {}, {},
         false, false, false, false, [])
  }

  /** Reading the record anew discards evidence about the earlier copy. */
  function WithSnap(w: Work, snap: Option<Cluster>): Work {
    w.(snap := snap, listed := false, seen := {}, gone := {}, made := {}, wrote := {}, scrubbed := {})
  }

  // ---------------------------------------------------------------- steps of everyone else

  datatype EnvStep =
    | OpCreate(record: Cluster)
    | OpAddNode(cluster: string, node: ClusterNode)
    | OpDeleteNode(cluster: string, name: string)
    | OpChange(cluster: string, name: string, cores: nat, memory: nat)
    | OpDeleteCluster(cluster: string)
    | OpEditApps(cluster: string, apps: seq<HelmApp>, resources: seq<ClusterResource>)
    | OpLog(entry: LogEntry)
    | OpClearLogs(cluster: string)
    | Send(event: Event)
    | RequestShutdown
    | Outside(key: VmKey, vm: Option<Vm>)

  predicate KeyRecorded(clusters: map<string, Cluster>, k: VmKey) {
    exists c, n :: c in clusters && n in clusters[c].nodes && clusters[c].node == k.host && n.vmId == k.id
  }

  /** People at the hypervisor may switch any VM on or off, destroy it, or create a VM under an id
      that no stored cluster claims. */
  predicate OutsideEnabled(s: Sys, k: VmKey, vm: Option<Vm>) {
    match vm
    case None => true
    case Some(v) =>
      if k in s.vms then v == s.vms[k].(running := v.running)
      else !v.ours && !KeyRecorded(s.clusters, k)
  }

  predicate EnvEnabled(s: Sys, e: EnvStep) {
    match e
    case OpCreate(r) => !s.shutdown && r.clusterName !in s.clusters && r.status == Pending
    case OpAddNode(c, _) => !s.shutdown && c in s.clusters
    case OpDeleteNode(c, name) => !s.shutdown && c in s.clusters && FindNode(s.clusters[c].nodes, name).Some?
    case OpChange(c, _, _, _) => !s.shutdown && c in s.clusters
    case OpDeleteCluster(c) => !s.shutdown && c in s.clusters
    case OpEditApps(c, _, _) => !s.shutdown && c in s.clusters
    case OpLog(_) => !s.shutdown
    case OpClearLogs(_) => !s.shutdown
    case Send(ev) => ev in s.inflight && |s.queue| < CAPACITY
    case RequestShutdown => s.inflight == multiset{}
    case Outside(k, vm) => OutsideEnabled(s, k, vm)
  }

  function Put(s: Sys, c: string, r: Cluster): Sys {
    s.(clusters := s.clusters[c := r])
  }

  function LogsWithout(logs: seq<LogEntry>, cluster: string): seq<LogEntry> {
    if logs == [] then []
    else if logs[0].clusterName == cluster then LogsWithout(logs[1..], cluster)
    else [logs[0]] + LogsWithout(logs[1..], cluster)
  }

  function EnvApply(s: Sys, e: EnvStep): Sys
    requires EnvEnabled(s, e)
  {
    match e
    case OpCreate(r) =>
      Put(s, r.clusterName, r).(inflight := s.inflight + multiset{CreateCluster(r.clusterName)})
    case OpAddNode(c, n) =>
      var r := s.clusters[c];
      Put(s, c, r.(nodes := r.nodes + [n.(lock := Some(CreateLock))]))
        .(inflight := s.inflight + multiset{AddNode(c, n.name)})
    case OpDeleteNode(c, name) =>
      var r := s.clusters[c];
      Put(s, c, r.(nodes := LockFirst(r.nodes, name, Some(DeleteLock))))
        .(inflight := s.inflight + multiset{DeleteNode(c, name)})
    case OpChange(c, name, cores, memory) =>
      var r := s.clusters[c];
      Put(s, c, r.(nodes := LockAll(r.nodes, name, ChangeLock)))
        .(inflight := s.inflight + multiset{ChangeResources(c, name, cores, memory)})
    case OpDeleteCluster(c) =>
      Put(s, c, s.clusters[c].(status := Destroying))
        .(inflight := s.inflight + multiset{DeleteCluster(c)})
    case OpEditApps(c, apps, resources) =>
      Put(s, c, s.clusters[c].(helmApps := apps, clusterResources := resources))
    case OpLog(entry) => s.(logs := s.logs + [entry])
    case OpClearLogs(c) => s.(logs := LogsWithout(s.logs, c))
    case Send(ev) =>
      s.(inflight := s.inflight - multiset{ev}, queue := s.queue + [ev], sent := s.sent + [ev])
    case RequestShutdown => s.(shutdown := true)
    case Outside(k, vm) => s.(vms := if vm.None? then s.vms - {k} else s.vms[k := vm.value])
  }

  // ---------------------------------------------------------------- steps of the worker loop

  datatype LoopStep = Take | ProbeEmpty | Wake

  predicate LoopEnabled(s: Sys, l: LoopStep) {
    match l
    case Take => s.mode.Probing? && s.queue != []
    case ProbeEmpty => s.mode.Probing? && s.queue == []
    case Wake => s.mode.Napping?
  }

  function LoopApply(s: Sys, l: LoopStep): Sys
    requires LoopEnabled(s, l)
  {
    match l
    case Take => s.(mode := Busy(StartWork(s.queue[0])), queue := s.queue[1..])
    case ProbeEmpty => s.(mode := Napping, probedAt := |s.sent|)
    case Wake => s.(mode := if s.shutdown then Exited else Probing)
  }

  // ---------------------------------------------------------------- steps inside an event

  datatype Act =
    | SaveLog(entry: LogEntry)
    | SetStatus(status: Status)
    | ReadRecord
    | SaveKey(key: string)
    | SaveConfig(config: string)
    | SaveResources
    | Observe(probes: seq<Call>)
    | Remote(call: Call, effect: bool)
    | DropNode
    | DropCluster
    | Unlock
    | Conclude(ok: bool)
    | Finish(ok: bool)

  predicate RemoteEnabled(s: Sys, w: Work, call: Call, effect: bool) {
    w.snap.Some? &&
    var r := w.snap.value;
    var c := w.event.cluster;
    match call
    case ListVms(l, ok) => ok ==> l == Listing(s.vms, r.node)
    case Create(n, ok) =>
      && (w.event.CreateCluster? || w.event.AddNode?)
      && n in r.nodes
      && w.wrote == {}
      && (ok ==> effect)
      && (effect ==> VmKey(r.node, n.vmId) !in s.vms)
    case Start(n, _) => MayPower(w, n)
    case Shutdown(n, _) => MayPower(w, n)
    case HardStop(n, _) => MayPower(w, n)
    case Delete(n, ok) =>
      && (w.event.DeleteCluster? || w.event.DeleteNode?)
      && n in r.nodes && Ident(n) in w.seen
      && (ok ==> effect)
    case Configure(n, _, _, _) => w.event.ChangeResources? && FindNode(r.nodes, w.event.node) == Some(n)
    case Ssh(n, AddHost(e), ok) =>
      && (w.event.CreateCluster? || w.event.AddNode?)
      && n in r.nodes && Ident(n) in w.seen
      && e in Entries(HostMap(c, r.nodes))
      && (ok ==> effect && VmKey(r.node, n.vmId) in s.vms)
    case Ssh(n, ScrubHost(p), ok) =>
      && w.event.DeleteNode? && w.removed
      && n in r.nodes && Ident(n) in w.seen
      && p == FullName(c, w.event.node)
      && (ok ==> effect && VmKey(r.node, n.vmId) in s.vms)
    case Ssh(_, _, _) => true
    case _ => false
  }

  /** A VM is powered on, shut down or stopped only if it was listed under its node's name or
      created in this event; a resource change goes by the node's id alone. */
  predicate MayPower(w: Work, n: ClusterNode)
    requires w.snap.Some?
  {
    if w.event.ChangeResources? then FindNode(w.snap.value.nodes, w.event.node) == Some(n)
    else n in w.snap.value.nodes && Ident(n) in w.seen
  }

  /** What `execute` must have done before it may return `Ok`. */
  predicate Evidence(w: Work) {
    && !w.tainted
    && match w.event
       case CreateCluster(_) => CreateEvidence(w)
       case AddNode(_, name) => AddEvidence(w, name)
       case DeleteNode(_, _) => Refused(w) || DeleteEvidence(w)
       case DeleteCluster(_) => w.removed
       case ChangeResources(_, _, _, _) => true
  }

  /** Every node was created and knows every host. */
  predicate CreateEvidence(w: Work) {
    w.snap.Some? &&
    forall n :: n in w.snap.value.nodes ==>
      Ident(n) in w.made && WroteAll(w, Ident(n), Entries(HostMap(w.event.cluster, w.snap.value.nodes)))
  }

  /** The new node was created and knows every host, and so does every other node that was listed. */
  predicate AddEvidence(w: Work, name: string) {
    w.snap.Some? && w.listed &&
    var nodes := w.snap.value.nodes;
    var added := FindNode(nodes, name);
    && added.Some? && Ident(added.value) in w.made
    && WroteAll(w, Ident(added.value), Entries(HostMap(w.event.cluster, nodes)))
    && forall n :: n in nodes && n.name != name && Ident(n) in w.seen ==>
         WroteAll(w, Ident(n), Entries(HostMap(w.event.cluster, nodes)))
  }

  /** The node has left the record, and every remaining node that was listed afterwards forgot it. */
  predicate DeleteEvidence(w: Work) {
    w.removed && w.snap.Some? && w.listed &&
    forall n :: n in w.snap.value.nodes && Ident(n) in w.seen ==> Ident(n) in w.scrubbed
  }

  predicate WroteAll(w: Work, n: ClusterNode, entries: set<Entry>) {
    forall e :: e in entries ==> (n, e) in w.wrote
  }

  /** The delete of the only node of a cluster is turned down, with `Ok`. */
  predicate Refused(w: Work) {
    w.event.DeleteNode? && !w.removed && w.snap.Some? && |w.snap.value.nodes| == 1
  }

  predicate ActEnabled(s: Sys, w: Work, a: Act) {
    match a
    case SaveLog(entry) => entry.clusterName == w.event.cluster
    case SetStatus(st) =>
      if w.phase.Fresh? then w.event.CreateCluster? && st == Creating
      else w.phase.Concluded? && st == (if w.phase.ok then Sync else Error)
           && !(w.event.DeleteCluster? && w.phase.ok)
    case ReadRecord => w.phase.Working? && w.made == {}
    case SaveKey(_) => w.phase.Working? && w.event.CreateCluster? && w.made == {}
    case SaveConfig(_) => w.phase.Working? && w.event.CreateCluster?
    case SaveResources => w.phase.Working? && w.event.ChangeResources?
    case Observe(probes) => w.phase.Working? && forall k :: 0 <= k < |probes| ==> ReadOnly(probes[k])
    case Remote(call, effect) => w.phase.Working? && RemoteEnabled(s, w, call, effect)
    case DropNode =>
      && w.phase.Working? && w.event.DeleteNode? && w.snap.Some?
      && FindOtherMaster(w.snap.value.nodes, w.event.node).Some?
      && var n := FindNode(w.snap.value.nodes, w.event.node);
      && n.Some? && Ident(n.value) in w.gone
    case DropCluster =>
      && w.phase.Working? && w.event.DeleteCluster? && w.snap.Some?
      && forall n :: n in w.snap.value.nodes ==> Ident(n) in w.gone
    case Unlock => w.phase == Concluded(true) && (w.event.AddNode? || w.event.ChangeResources?)
    case Conclude(ok) => w.phase.Working? && (ok ==> Evidence(w))
    case Finish(ok) =>
      && w.phase.Concluded?
      && (w.event.DeleteCluster? && !w.removed ==> w.statusDone)
      && (w.statusDone || (w.phase.ok && (w.event.DeleteCluster? || (w.event.AddNode? && !w.unlocked))))
      && (ok ==> w.phase.ok && (NamesNode(w.event) && !w.unlocked ==> w.event.DeleteNode? && !w.removed))
  }

  /** One more entry in the worker's trace. */
  function Say(w: Work, call: Call): Work {
    w.(calls := w.calls + [call])
  }

  /** What the worker learns from one completed call. */
  function Learn(w: Work, vms: map<VmKey, Vm>, call: Call): Work {
    var w' := Say(w, call);
    match call
    case ListVms(_, true) =>
      if w.snap.None? then w'
      else
        var r := w.snap.value;
        w'.(listed := true,
            seen := w.seen + Found(vms, w.event.cluster, r),
            gone := w.gone + (Idents(r.nodes) - Found(vms, w.event.cluster, r)))
    case Create(n, true) => w'.(made := w.made + {Ident(n)}, seen := w.seen + {Ident(n)})
    case Create(n, false) => w'.(tainted := true)
    case Delete(n, true) => w'.(gone := w.gone + {Ident(n)})
    case Ssh(n, AddHost(e), true) => w'.(wrote := w.wrote + {(Ident(n), e)})
    case Ssh(n, AddHost(e), false) => w'.(tainted := true)
    case Ssh(n, ScrubHost(_), true) => w'.(scrubbed := w.scrubbed + {Ident(n)})
    case Ssh(n, ScrubHost(_), false) => w'.(tainted := true)
    case _ => w'
  }

  /** The nodes of the record whose VM a listing shows (`get_existing_vms`). */
  function Found(vms: map<VmKey, Vm>, cluster: string, r: Cluster): set<ClusterNode> {
    set n | n in Idents(r.nodes) && Matches(vms, cluster, r.node, n)
  }

  /** A creation whose record is missing at its first status update is over at once. */
  function AfterStatus(w: Work, found: bool): Work {
    if w.phase.Fresh? && found then w.(phase := Working)
    else w.(statusDone := true, phase := if w.phase.Fresh? then Concluded(false) else w.phase)
  }

  /** The record of the event's cluster, if it is stored. */
  function Stored(s: Sys, w: Work): Option<Cluster> {
    if w.event.cluster in s.clusters then Some(s.clusters[w.event.cluster]) else None
  }

  /** The store with the record of the event's cluster replaced. */
  function Replaced(s: Sys, w: Work, r: Option<Cluster>): map<string, Cluster> {
    if r.Some? then s.clusters[w.event.cluster := r.value] else s.clusters
  }

  function ReadApply(s: Sys, w: Work): Sys {
    var r := Stored(s, w);
    s.(mode := Busy(Say(if r.Some? then WithSnap(w, r) else w, RecordRead(r))))
  }

  function SaveKeyApply(s: Sys, w: Work, key: string): Sys {
    var was := Stored(s, w);
    var r := if was.Some? then Some(was.value.(sshKey := key)) else None;
    s.(clusters := Replaced(s, w, r), mode := Busy(Say(if r.Some? then WithSnap(w, r) else w, KeySaved(r))))
  }

  function SaveConfigApply(s: Sys, w: Work, config: string): Sys {
    var was := Stored(s, w);
    var r := if was.Some? then Some(was.value.(clusterConfig := config)) else None;
    s.(clusters := Replaced(s, w, r), mode := Busy(Say(w, ConfigSaved(config, r.Some?))))
  }

  function SaveResourcesApply(s: Sys, w: Work): Sys
    requires w.event.ChangeResources?
  {
    var was, e := Stored(s, w), w.event;
    var r := if was.Some? then Some(was.value.(nodes := Resize(was.value.nodes, e.node, e.cores, e.memory))) else None;
    s.(clusters := Replaced(s, w, r), mode := Busy(Say(w, ResourcesSaved(r.Some?))))
  }

  function SetStatusApply(s: Sys, w: Work, st: Status): Sys {
    var was := Stored(s, w);
    var r := if was.Some? then Some(was.value.(status := st)) else None;
    s.(clusters := Replaced(s, w, r), mode := Busy(Say(AfterStatus(w, r.Some?), StatusSet(st, r.Some?))))
  }

  function DropNodeApply(s: Sys, w: Work): Sys
    requires w.event.DeleteNode?
  {
    var was, name := Stored(s, w), w.event.node;
    var r := if was.Some? then Some(was.value.(nodes := Without(was.value.nodes, name))) else None;
    var w' := if r.Some? then WithSnap(w, None).(removed := true, unlocked := true) else w;
    s.(clusters := Replaced(s, w, r), mode := Busy(Say(w', NodeDropped(r.Some?))),
       excused := if r.Some? then s.excused - {(w.event.cluster, name)} else s.excused)
  }

  function UnlockApply(s: Sys, w: Work): Sys
    requires NamesNode(w.event)
  {
    var was, name := Stored(s, w), w.event.node;
    var r := if was.Some? && FindNode(was.value.nodes, name).Some?
             then Some(was.value.(nodes := LockFirst(was.value.nodes, name, None))) else None;
    s.(clusters := Replaced(s, w, r), mode := Busy(Say(if r.Some? then w.(unlocked := true) else w, LockCleared(r.Some?))),
       excused := if r.Some? then s.excused - {(w.event.cluster, name)} else s.excused)
  }

  function ActApply(s: Sys, w: Work, a: Act): Sys
    requires s.mode == Busy(w) && ActEnabled(s, w, a)
  {
    var c := w.event.cluster;
    match a
    case SaveLog(entry) => s.(logs := s.logs + [entry], mode := Busy(Say(w, Noted(entry.level, entry.message))))
    case SetStatus(st) => SetStatusApply(s, w, st)
    case ReadRecord => ReadApply(s, w)
    case SaveKey(key) => SaveKeyApply(s, w, key)
    case SaveConfig(config) => SaveConfigApply(s, w, config)
    case SaveResources => SaveResourcesApply(s, w)
    case Observe(probes) => s.(mode := Busy(w.(calls := w.calls + probes)))
    case Remote(call, effect) =>
      var vms := if effect then Effect(s.vms, c, w.snap.value.node, call) else s.vms;
      s.(vms := vms, mode := Busy(Learn(w, s.vms, call)))
    case DropNode => DropNodeApply(s, w)
    case DropCluster =>
      s.(clusters := s.clusters - {c}, logs := LogsWithout(s.logs, c),
         mode := Busy(Say(WithSnap(w, None).(removed := true), ClusterDropped)),
         excused := set x | x in s.excused && x.0 != c)
    case Unlock => UnlockApply(s, w)
    case Conclude(ok) => s.(mode := Busy(w.(phase := Concluded(ok))))
    case Finish(ok) =>
      s.(mode := Probing, dispatched := s.dispatched + [w.event], clean := s.clean && ok,
         excused := s.excused +
           (if NamesNode(w.event) && !w.unlocked then {(c, w.event.node)} else {}))
  }

  // ---------------------------------------------------------------- runs

  datatype Step = Env(e: EnvStep) | Loop(l: LoopStep) | Do(a: Act)

  predicate Enabled(s: Sys, st: Step) {
    match st
    case Env(e) => EnvEnabled(s, e)
    case Loop(l) => LoopEnabled(s, l)
    case Do(a) => s.mode.Busy? && ActEnabled(s, s.mode.work, a)
  }

  function Next(s: Sys, st: Step): Sys
    requires Enabled(s, st)
  {
    match st
    case Env(e) => EnvApply(s, e)
    case Loop(l) => LoopApply(s, l)
    case Do(a) => ActApply(s, s.mode.work, a)
  }

  /** The sequence of steps is a run from the empty system. */
  ghost predicate Legal(steps: seq<Step>)
    decreases |steps|, 0
  {
    steps == [] ||
    (Legal(steps[..|steps| - 1]) && Enabled(Exec(steps[..|steps| - 1]), steps[|steps| - 1]))
  }

  /** The state a run ends in. */
  ghost function Exec(steps: seq<Step>): Sys
    requires Legal(steps)
    decreases |steps|, 1
  {
    if steps == [] then Init() else Next(Exec(steps[..|steps| - 1]), steps[|steps| - 1])
  }

  lemma Extend(steps: seq<Step>, st: Step)
    requires Legal(steps) && Enabled(Exec(steps), st)
    ensures Legal(steps + [st]) && Exec(steps + [st]) == Next(Exec(steps), st)
  {
    assert (steps + [st])[..|steps|] == steps;
  }
}
