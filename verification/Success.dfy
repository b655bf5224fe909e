/** What the guards of the machine leave possible: a cluster whose VM ids are free can be created, by a
    run that carries out the plan of core/src/dispatcher/usecase/create_cluster.rs:14-48 to its end. */
module Success {
  import opened Model
  import opened Records
  import opened HostFile
  import opened Machine
  import opened World
  import opened Plan
  import opened Common
  import opened CreateCluster
  import Dispatcher

  ghost predicate Reachable(s: Sys) {
    exists steps :: Legal(steps) && Exec(steps) == s
  }

  lemma Go(s: Sys, st: Step)
    requires Reachable(s) && Enabled(s, st)
    ensures Reachable(Next(s, st))
  {
    var steps :| Legal(steps) && Exec(steps) == s;
    Extend(steps, st);
  }

  /** The worker probes an empty channel. */
  ghost predicate Idle(s: Sys) {
    Reachable(s) && s.mode.Probing? && s.queue == [] && s.inflight == multiset{} && !s.shutdown
  }

  /** A recorded event is sent and taken at once. */
  lemma Deliver(s: Sys, e: Event) returns (t: Sys)
    requires Reachable(s) && s.mode.Probing? && s.queue == [] && s.inflight == multiset{e}
    ensures Reachable(t)
    ensures t == s.(inflight := multiset{}, sent := s.sent + [e], mode := Busy(StartWork(e)))
  {
    Go(s, Env(Send(e)));
    var s1 := Next(s, Env(Send(e)));
    assert s1.queue == [e] && s1.inflight == multiset{};
    Go(s1, Loop(Take));
    t := Next(s1, Loop(Take));
    assert t.queue == [];
  }

  /** The worker starts on a requested cluster. */
  lemma BeginCreation(s: Sys, r: Cluster) returns (t: Sys)
    requires Idle(s) && r.clusterName !in s.clusters && r.status == Pending
    ensures Reachable(t)
    ensures t == s.(clusters := s.clusters[r.clusterName := r], sent := t.sent,
                    mode := Busy(StartWork(Event.CreateCluster(r.clusterName))))
  {
    Go(s, Env(OpCreate(r)));
    var s1 := Next(s, Env(OpCreate(r)));
    assert s1.inflight == multiset{Event.CreateCluster(r.clusterName)};
    t := Deliver(s1, Event.CreateCluster(r.clusterName));
  }

  /** The worker has read the record, which has not changed since. */
  ghost predicate Reading(s: Sys, event: Event, r: Cluster) {
    Reachable(s) && s.mode.Busy? &&
    var w := s.mode.work;
    && w.event == event && w.phase == Working && w.snap == Some(r)
    && event.cluster in s.clusters && s.clusters[event.cluster] == r
  }

  lemma SetCreating(s: Sys, c: string) returns (t: Sys)
    requires Reachable(s) && s.mode == Busy(StartWork(Event.CreateCluster(c))) && c in s.clusters
    ensures Reachable(t)
    ensures t == s.(clusters := s.clusters[c := s.clusters[c].(status := Creating)],
                    mode := Busy(StartWork(Event.CreateCluster(c)).(phase := Working, calls := [StatusSet(Creating, true)])))
  {
    Go(s, Do(SetStatus(Creating)));
    t := Next(s, Do(SetStatus(Creating)));
    assert StartWork(Event.CreateCluster(c)).calls + [StatusSet(Creating, true)] == [StatusSet(Creating, true)];
  }

  const STARTED_CREATING := Noted(Info, "Start creating cluster")

  /** The note at the start of the use case, before the record is read. */
  lemma NotedStart(s: Sys, c: string) returns (t: Sys)
    requires Reachable(s) && s.mode.Busy? && s.mode.work.event == Event.CreateCluster(c)
    ensures Reachable(t)
    ensures t == s.(mode := Busy(s.mode.work.(calls := s.mode.work.calls + [STARTED_CREATING])), logs := t.logs)
  {
    var a := Act.SaveLog(LogEntry(0, c, "Start creating cluster", Info));
    Go(s, Do(a));
    t := Next(s, Do(a));
  }

  lemma Keyed(s: Sys, c: string, key: string) returns (t: Sys)
    requires Reachable(s) && s.mode.Busy? && s.mode.work.event == Event.CreateCluster(c) && s.mode.work.phase == Working
    requires s.mode.work.made == {} && c in s.clusters
    ensures Reading(t, Event.CreateCluster(c), s.clusters[c].(sshKey := key))
    ensures t == s.(clusters := s.clusters[c := s.clusters[c].(sshKey := key)], mode := t.mode)
    ensures t.mode.work == WithSnap(s.mode.work, t.mode.work.snap).(calls := s.mode.work.calls + [KeySaved(t.mode.work.snap)])
  {
    Go(s, Do(Act.SaveKey(key)));
    t := Next(s, Do(Act.SaveKey(key)));
  }

  /** Up to the point where the worker may create VMs. */
  lemma Prepared(s: Sys, r: Cluster) returns (t: Sys)
    requires Idle(s) && r.clusterName !in s.clusters && r.status == Pending
    ensures Reading(t, Event.CreateCluster(r.clusterName), r.(status := Creating))
    ensures t == s.(clusters := s.clusters[r.clusterName := r.(status := Creating)], sent := t.sent, mode := t.mode, logs := t.logs)
    ensures t.mode.work.wrote == {} && !t.mode.work.tainted
    ensures t.mode.work.calls == [StatusSet(Creating, true)] + [STARTED_CREATING, KeySaved(Some(r.(status := Creating)))]
  {
    var c := r.clusterName;
    var s1 := BeginCreation(s, r);
    var s2 := SetCreating(s1, c);
    var s3 := NotedStart(s2, c);
    t := Keyed(s3, c, r.sshKey);
  }

  // ------------------------------------------------------------ single calls, all granted

  /** The worker has nothing but these calls to show for it. */
  function Saying(s: Sys, calls: seq<Call>): Mode
    requires s.mode.Busy?
  {
    Busy(s.mode.work.(calls := s.mode.work.calls + calls))
  }

  lemma Looked(s: Sys, event: Event, r: Cluster, probes: seq<Call>) returns (t: Sys)
    requires Reading(s, event, r) && forall k :: 0 <= k < |probes| ==> ReadOnly(probes[k])
    ensures Reading(t, event, r) && t == s.(mode := Saying(s, probes))
  {
    Go(s, Do(Observe(probes)));
    t := Next(s, Do(Observe(probes)));
  }

  lemma Noting(s: Sys, event: Event, r: Cluster, message: string) returns (t: Sys)
    requires Reading(s, event, r)
    ensures Reading(t, event, r) && t == s.(mode := Saying(s, [Noted(Info, message)]), logs := t.logs)
  {
    var a := Act.SaveLog(LogEntry(0, event.cluster, message, Info));
    Go(s, Do(a));
    t := Next(s, Do(a));
  }

  lemma ListedAll(s: Sys, event: Event, r: Cluster) returns (t: Sys)
    requires Reading(s, event, r)
    ensures Reading(t, event, r)
    ensures var w := s.mode.work;
      t == s.(mode := Busy(w.(calls := w.calls + [Call.ListVms(Listing(s.vms, r.node), true)], listed := true, gone := t.mode.work.gone,
                              seen := w.seen + Found(s.vms, event.cluster, r))))
  {
    var a := Remote(Call.ListVms(Listing(s.vms, r.node), true), false);
    Go(s, Do(a));
    t := Next(s, Do(a));
  }

  lemma Commanded(s: Sys, event: Event, r: Cluster, n: ClusterNode, command: Command) returns (t: Sys)
    requires Reading(s, event, r) && !command.AddHost? && !command.ScrubHost?
    ensures Reading(t, event, r) && t == s.(mode := Saying(s, [Call.Ssh(n, command, true)]))
  {
    var a := Remote(Call.Ssh(n, command, true), true);
    Go(s, Do(a));
    t := Next(s, Do(a));
  }

  lemma VmCreated(s: Sys, c: string, r: Cluster, n: ClusterNode) returns (t: Sys)
    requires Reading(s, Event.CreateCluster(c), r) && n in r.nodes && VmKey(r.node, n.vmId) !in s.vms && s.mode.work.wrote == {}
    ensures Reading(t, Event.CreateCluster(c), r)
    ensures var w := s.mode.work;
      t == s.(mode := Busy(w.(calls := w.calls + [Call.Create(n, true)], made := w.made + {Ident(n)}, seen := w.seen + {Ident(n)})),
              vms := s.vms[VmKey(r.node, n.vmId) := Vm(FullName(c, n.name), true, false, n.cores, n.memory, {})])
  {
    var a := Remote(Call.Create(n, true), true);
    Go(s, Do(a));
    t := Next(s, Do(a));
  }

  lemma VmStarted(s: Sys, c: string, r: Cluster, n: ClusterNode) returns (t: Sys)
    requires Reading(s, Event.CreateCluster(c), r) && n in r.nodes && Ident(n) in s.mode.work.seen
    ensures Reading(t, Event.CreateCluster(c), r)
    ensures t == s.(mode := Saying(s, [Call.Start(n, true)]), vms := SetPower(s.vms, VmKey(r.node, n.vmId), true))
  {
    var a := Remote(Call.Start(n, true), true);
    Go(s, Do(a));
    t := Next(s, Do(a));
  }

  lemma HostAdded(s: Sys, c: string, r: Cluster, n: ClusterNode, e: Entry) returns (t: Sys)
    requires Reading(s, Event.CreateCluster(c), r) && n in r.nodes && Ident(n) in s.mode.work.seen
    requires e in Entries(HostMap(c, r.nodes)) && VmKey(r.node, n.vmId) in s.vms
    ensures Reading(t, Event.CreateCluster(c), r)
    ensures var k, w := VmKey(r.node, n.vmId), s.mode.work;
      t == s.(mode := Busy(w.(calls := w.calls + [Call.Ssh(n, AddHost(e), true)], wrote := w.wrote + {(Ident(n), e)})),
              vms := s.vms[k := s.vms[k].(hosts := s.vms[k].hosts + {e})])
  {
    var a := Remote(Call.Ssh(n, AddHost(e), true), true);
    Go(s, Do(a));
    t := Next(s, Do(a));
  }

  /** `get_cluster`, set the configuration, `save_cluster`; the answer is what is stored already. */
  lemma ConfigKept(s: Sys, c: string, r: Cluster) returns (t: Sys)
    requires Reading(s, Event.CreateCluster(c), r)
    ensures Reading(t, Event.CreateCluster(c), r) && t == s.(mode := Saying(s, [ConfigSaved(r.clusterConfig, true)]))
  {
    var a := Act.SaveConfig(r.clusterConfig);
    Go(s, Do(a));
    t := Next(s, Do(a));
    assert s.clusters[c := r] == s.clusters;
  }

  // ------------------------------------------------------------ tasks

  /** The VMs keep their names and makers, stay up, and forget no host. */
  ghost predicate KeptVms(before: map<VmKey, Vm>, after: map<VmKey, Vm>) {
    forall k :: k in before ==>
      && k in after && after[k].ours == before[k].ours && after[k].name == before[k].name
      && (before[k].running ==> after[k].running) && before[k].hosts <= after[k].hosts
  }

  /** So do the VMs here, the worker loses no evidence, and its calls have carried out the plan. */
  ghost predicate Advanced(s: Sys, t: Sys, plan: seq<Task>) {
    && s.mode.Busy? && t.mode.Busy? && t == s.(mode := t.mode, vms := t.vms, logs := t.logs)
    && KeptVms(s.vms, t.vms)
    && KeptWork(s.mode.work, t.mode.work)
    && Did(s.mode.work.calls, t.mode.work.calls, plan, true)
  }

  ghost predicate KeptWork(w: Work, w': Work) {
    w'.tainted == w.tainted && w.seen <= w'.seen && w.made <= w'.made && w.wrote <= w'.wrote
  }

  lemma AdvancedNothing(s: Sys)
    requires s.mode.Busy?
    ensures Advanced(s, s, [])
  {
    DidNothing(s.mode.work.calls);
  }

  lemma AdvancedThen(s: Sys, t: Sys, u: Sys, p: seq<Task>, q: seq<Task>)
    requires Advanced(s, t, p) && Advanced(t, u, q)
    ensures Advanced(s, u, p + q)
  {
    DidThen(s.mode.work.calls, t.mode.work.calls, u.mode.work.calls, p, q, true);
  }

  /** Nothing changed but the trace and the log. */
  ghost predicate OnlyCalls(s: Sys, t: Sys) {
    s.mode.Busy? && t.mode.Busy? && t == s.(mode := Busy(s.mode.work.(calls := t.mode.work.calls)), logs := t.logs)
  }

  /** The same, and the calls carried out the plan. */
  ghost predicate Performed(s: Sys, t: Sys, plan: seq<Task>) {
    OnlyCalls(s, t) && Did(s.mode.work.calls, t.mode.work.calls, plan, true)
  }

  lemma PerformedOne(s: Sys, t: Sys, task: Task, seg: seq<Call>)
    requires OnlyCalls(s, t) && t.mode.work.calls == s.mode.work.calls + seg && Run(task, seg, true)
    ensures Performed(s, t, [task])
  {
    DidOne(s.mode.work.calls, task, seg, true);
  }

  lemma PerformedThen(s: Sys, t: Sys, u: Sys, p: seq<Task>, q: seq<Task>)
    requires Performed(s, t, p) && Performed(t, u, q)
    ensures Performed(s, u, p + q)
  {
    DidThen(s.mode.work.calls, t.mode.work.calls, u.mode.work.calls, p, q, true);
  }

  lemma PerformedAdvances(s: Sys, t: Sys, plan: seq<Task>)
    requires Performed(s, t, plan)
    ensures Advanced(s, t, plan)
  {
  }

  /** Tasks that leave the VMs alone. */
  predicate Easy(t: Task) {
    || (t.Tell? && t.level == Info) || t.AwaitStart? || t.Reboot? || t.Enroll? || t.SurveyContainers? || t.FetchConfig?
    || (t.Order? && !t.command.AddHost? && !t.command.ScrubHost?)
  }

  lemma StartSeen(n: ClusterNode)
    ensures StartRun(n, [Call.Poll(n, SawRunning), Call.Ssh(n, CloudInit, true)], true)
  {
    var polls, checks := [Call.Poll(n, SawRunning)], [Call.Ssh(n, CloudInit, true)];
    assert RunningRun(n, polls, true) && CloudInitRun(n, checks, true);
    assert [Call.Poll(n, SawRunning), Call.Ssh(n, CloudInit, true)] == polls + checks;
  }

  /** An easy task can always be done. */
  lemma EasyDone(s: Sys, c: string, r: Cluster, task: Task) returns (t: Sys)
    requires Reading(s, Event.CreateCluster(c), r) && Easy(task)
    ensures Reading(t, Event.CreateCluster(c), r) && Performed(s, t, [task])
  {
    var e := Event.CreateCluster(c);
    match task
    case Tell(_, message) =>
      t := Noting(s, e, r, message);
      PerformedOne(s, t, task, [Noted(Info, message)]);
    case SurveyContainers(ids) =>
      t := Looked(s, e, r, [Call.ListContainers(ids, true)]);
      PerformedOne(s, t, task, [Call.ListContainers(ids, true)]);
    case AwaitStart(n) => t := StartAwaited(s, c, r, n);
    case Reboot(n) => t := RebootChecked(s, c, r, n);
    case Order(n, command) =>
      t := Commanded(s, e, r, n, command);
      PerformedOne(s, t, task, [Call.Ssh(n, command, true)]);
    case FetchConfig(m) => t := ConfigFetched(s, c, r, m);
    case Enroll(m, n) => t := Enrolled(s, c, r, m, n);
  }

  lemma StartAwaited(s: Sys, c: string, r: Cluster, n: ClusterNode) returns (t: Sys)
    requires Reading(s, Event.CreateCluster(c), r)
    ensures Reading(t, Event.CreateCluster(c), r) && Performed(s, t, [AwaitStart(n)])
  {
    var seg := [Call.Poll(n, SawRunning), Call.Ssh(n, CloudInit, true)];
    StartSeen(n);
    t := Looked(s, Event.CreateCluster(c), r, seg);
    PerformedOne(s, t, AwaitStart(n), seg);
  }

  lemma RebootChecked(s: Sys, c: string, r: Cluster, n: ClusterNode) returns (t: Sys)
    requires Reading(s, Event.CreateCluster(c), r)
    ensures Reading(t, Event.CreateCluster(c), r) && Performed(s, t, [Reboot(n)])
  {
    t := Looked(s, Event.CreateCluster(c), r, [Call.Ssh(n, RebootCheck(false), true)]);
    PerformedOne(s, t, Reboot(n), [Call.Ssh(n, RebootCheck(false), true)]);
  }

  lemma ConfigFetched(s: Sys, c: string, r: Cluster, m: ClusterNode) returns (t: Sys)
    requires Reading(s, Event.CreateCluster(c), r)
    ensures Reading(t, Event.CreateCluster(c), r) && Performed(s, t, [FetchConfig(m)])
  {
    var s1 := Commanded(s, Event.CreateCluster(c), r, m, Kubeconfig(r.clusterConfig));
    t := ConfigKept(s1, c, r);
    var seg := [Call.Ssh(m, Kubeconfig(r.clusterConfig), true), ConfigSaved(r.clusterConfig, true)];
    assert Run(FetchConfig(m), seg, true);
    PerformedOne(s, t, FetchConfig(m), seg);
  }

  lemma Enrolled(s: Sys, c: string, r: Cluster, m: ClusterNode, n: ClusterNode) returns (t: Sys)
    requires Reading(s, Event.CreateCluster(c), r)
    ensures Reading(t, Event.CreateCluster(c), r) && Performed(s, t, [Enroll(m, n)])
  {
    var e := Event.CreateCluster(c);
    var s1 := Noting(s, e, r, "Generate join token on VM");
    var s2 := Commanded(s1, e, r, m, AddNodeToken(true));
    var s3 := Noting(s2, e, r, "Join node to cluster");
    t := Commanded(s3, e, r, n, Join(n.nodeType == Worker));
    var seg := [ASKING, Call.Ssh(m, AddNodeToken(true), true), JOINING, Call.Ssh(n, Join(n.nodeType == Worker), true)];
    PerformedOne(s, t, Enroll(m, n), seg);
  }

  lemma {:induction false} AllEasyDone(s: Sys, c: string, r: Cluster, plan: seq<Task>) returns (t: Sys)
    requires Reading(s, Event.CreateCluster(c), r) && forall x :: x in plan ==> Easy(x)
    ensures Reading(t, Event.CreateCluster(c), r) && Performed(s, t, plan)
    decreases |plan|
  {
    if plan == [] {
      DidNothing(s.mode.work.calls);
      return s;
    }
    assert plan == [plan[0]] + plan[1..];
    var s1 := EasyDone(s, c, r, plan[0]);
    t := AllEasyDone(s1, c, r, plan[1..]);
    PerformedThen(s, s1, t, [plan[0]], plan[1..]);
  }

  lemma EachEasy<T>(items: seq<T>, body: T -> seq<Task>)
    requires forall x, t :: x in items && t in body(x) ==> Easy(t)
    ensures forall t :: t in Each(items, body) ==> Easy(t)
  {
    forall t | t in Each(items, body) ensures Easy(t) { var x := EachIsOf(items, body, t); }
  }

  /** One easy task after what was done. */
  lemma AndEasy(s: Sys, t: Sys, c: string, r: Cluster, done: seq<Task>, task: Task) returns (u: Sys)
    requires Reading(t, Event.CreateCluster(c), r) && Advanced(s, t, done) && Easy(task)
    ensures Reading(u, Event.CreateCluster(c), r) && OnlyCalls(t, u) && Advanced(s, u, done + [task])
  {
    u := EasyDone(t, c, r, task);
    PerformedAdvances(t, u, [task]);
    AdvancedThen(s, t, u, done, [task]);
  }

  // ------------------------------------------------------------ the VMs

  /** The VM under this node's id is makoon's and bears the node's full name. */
  ghost predicate HasVm(vms: map<VmKey, Vm>, c: string, r: Cluster, n: ClusterNode) {
    var k := VmKey(r.node, n.vmId);
    k in vms && vms[k].ours && vms[k].name == FullName(c, n.name)
  }

  /** And it is up and knows all hosts. */
  ghost predicate InService(vms: map<VmKey, Vm>, c: string, r: Cluster, n: ClusterNode) {
    HasVm(vms, c, r, n) && vms[VmKey(r.node, n.vmId)].running && Entries(HostMap(c, r.nodes)) <= vms[VmKey(r.node, n.vmId)].hosts
  }

  /** The node's VM was created in this event. */
  ghost predicate Made(s: Sys, c: string, r: Cluster, n: ClusterNode) {
    HasVm(s.vms, c, r, n) && s.mode.Busy? && Ident(n) in s.mode.work.made && Ident(n) in s.mode.work.seen
  }

  ghost predicate AllMade(s: Sys, c: string, r: Cluster, nodes: seq<ClusterNode>) {
    forall n :: n in nodes ==> n in r.nodes && Made(s, c, r, n)
  }

  lemma AllMadeStays(s: Sys, t: Sys, plan: seq<Task>, c: string, r: Cluster, nodes: seq<ClusterNode>)
    requires Advanced(s, t, plan) && AllMade(s, c, r, nodes)
    ensures AllMade(t, c, r, nodes)
  {
    forall n | n in nodes ensures Made(t, c, r, n) { assert Made(s, c, r, n); }
  }

  ghost predicate DistinctIds(nodes: seq<ClusterNode>) {
    forall i, j :: 0 <= i < j < |nodes| ==> nodes[i].vmId != nodes[j].vmId
  }

  ghost predicate IdsFree(vms: map<VmKey, Vm>, host: string, nodes: seq<ClusterNode>) {
    forall n :: n in nodes ==> VmKey(host, n.vmId) !in vms
  }

  const IMAGE := [Image(Look(true), true), Image(Details, true)]

  lemma BuildSucceeds(n: ClusterNode)
    ensures BuildRun(n, IMAGE + [Call.Create(n, true)] + [LockPoll(n, true), GrowDisk(n, true)], true)
  {
    assert ImageRun(IMAGE, true);
    assert Locked(n, 0) + [LockPoll(n, true), GrowDisk(n, true)] == [LockPoll(n, true), GrowDisk(n, true)];
    assert GrowthRun(n, [LockPoll(n, true), GrowDisk(n, true)], true);
  }

  /** The calls for one VM. */
  lemma VmMade(s: Sys, c: string, r: Cluster, n: ClusterNode) returns (t: Sys)
    requires Reading(s, Event.CreateCluster(c), r) && n in r.nodes && VmKey(r.node, n.vmId) !in s.vms && s.mode.work.wrote == {}
    ensures Reading(t, Event.CreateCluster(c), r) && Advanced(s, t, [Build(n, true)]) && Made(t, c, r, n)
    ensures t.mode.work.wrote == {} && t.vms.Keys == s.vms.Keys + {VmKey(r.node, n.vmId)}
  {
    var growth := [LockPoll(n, true), GrowDisk(n, true)];
    var s1 := Looked(s, Event.CreateCluster(c), r, IMAGE);
    var s2 := VmCreated(s1, c, r, n);
    t := Looked(s2, Event.CreateCluster(c), r, growth);
    BuildSucceeds(n);
    BuildSaid(s.mode.work.calls, t.mode.work.calls, n);
  }

  lemma BuildSaid(calls: seq<Call>, after: seq<Call>, n: ClusterNode)
    requires after == ((calls + IMAGE) + [Call.Create(n, true)]) + [LockPoll(n, true), GrowDisk(n, true)]
    ensures Did(calls, after, [Build(n, true)], true)
  {
    BuildSucceeds(n);
    var seg := IMAGE + [Call.Create(n, true)] + [LockPoll(n, true), GrowDisk(n, true)];
    assert Run(Build(n, true), seg, true);
    DidOne(calls, Build(n, true), seg, true);
    assert after == calls + seg;
  }

  /** One node's VM, with its log entry. */
  lemma VmBuilt(s: Sys, c: string, r: Cluster, n: ClusterNode, used: set<nat>) returns (t: Sys)
    requires Reading(s, Event.CreateCluster(c), r) && n in r.nodes && VmKey(r.node, n.vmId) !in s.vms && s.mode.work.wrote == {}
    requires n.vmId !in used
    ensures Reading(t, Event.CreateCluster(c), r) && Advanced(s, t, BuildTasks(used)(n)) && Made(t, c, r, n)
    ensures t.mode.work.wrote == {} && t.vms.Keys == s.vms.Keys + {VmKey(r.node, n.vmId)}
  {
    var s1 := VmMade(s, c, r, n);
    t := AndEasy(s, s1, c, r, [Build(n, true)], Tell(Info, "VM has been created"));
    assert [Build(n, true)] + [Tell(Info, "VM has been created")] == BuildTasks(used)(n);
  }

  lemma {:induction false} VmsBuilt(s: Sys, c: string, r: Cluster, todo: seq<ClusterNode>, used: set<nat>) returns (t: Sys)
    requires Reading(s, Event.CreateCluster(c), r) && s.mode.work.wrote == {} && forall n :: n in todo ==> n in r.nodes && n.vmId !in used
    requires DistinctIds(todo) && IdsFree(s.vms, r.node, todo)
    ensures Reading(t, Event.CreateCluster(c), r) && Advanced(s, t, Each(todo, BuildTasks(used))) && AllMade(t, c, r, todo) && t.mode.work.wrote == {}
    decreases |todo|
  {
    if todo == [] {
      AdvancedNothing(s);
      return s;
    }
    var n, rest := todo[0], todo[1..];
    assert todo == [n] + rest;
    var s1 := VmBuilt(s, c, r, n, used);
    IdsStayFree(s.vms, s1.vms, r.node, todo);
    t := VmsBuilt(s1, c, r, rest, used);
    AdvancedThen(s, s1, t, BuildTasks(used)(n), Each(rest, BuildTasks(used)));
    AllMadeStays(s1, t, Each(rest, BuildTasks(used)), c, r, [n]);
  }

  lemma IdsStayFree(before: map<VmKey, Vm>, after: map<VmKey, Vm>, host: string, todo: seq<ClusterNode>)
    requires todo != [] && DistinctIds(todo) && IdsFree(before, host, todo)
    requires after.Keys == before.Keys + {VmKey(host, todo[0].vmId)}
    ensures DistinctIds(todo[1..]) && IdsFree(after, host, todo[1..])
  {
    forall n | n in todo[1..] ensures VmKey(host, n.vmId) !in after {
      var i :| 0 <= i < |todo[1..]| && todo[1..][i] == n;
      assert todo[i + 1] == n;
    }
  }

  ghost predicate AllUp(vms: map<VmKey, Vm>, host: string, nodes: seq<ClusterNode>) {
    forall n :: n in nodes ==> VmKey(host, n.vmId) in vms && vms[VmKey(host, n.vmId)].running
  }

  lemma AllUpStays(s: Sys, t: Sys, plan: seq<Task>, host: string, nodes: seq<ClusterNode>)
    requires Advanced(s, t, plan) && AllUp(s.vms, host, nodes)
    ensures AllUp(t.vms, host, nodes)
  {
  }

  lemma VmPowered(s: Sys, c: string, r: Cluster, n: ClusterNode) returns (t: Sys)
    requires Reading(s, Event.CreateCluster(c), r) && AllMade(s, c, r, [n])
    ensures Reading(t, Event.CreateCluster(c), r) && Advanced(s, t, StartTasks(n)) && AllUp(t.vms, r.node, [n])
  {
    assert n in [n] && Made(s, c, r, n);
    var s1 := VmStarted(s, c, r, n);
    DidOne(s.mode.work.calls, PowerOn(n), [Call.Start(n, true)], true);
    assert Advanced(s, s1, [PowerOn(n)]);
    t := AndEasy(s, s1, c, r, [PowerOn(n)], Tell(Info, "Starting VM"));
    assert [PowerOn(n)] + [Tell(Info, "Starting VM")] == StartTasks(n);
  }

  lemma {:induction false} VmsPowered(s: Sys, c: string, r: Cluster, todo: seq<ClusterNode>) returns (t: Sys)
    requires Reading(s, Event.CreateCluster(c), r) && AllMade(s, c, r, todo)
    ensures Reading(t, Event.CreateCluster(c), r) && Advanced(s, t, Each(todo, StartTasks)) && AllUp(t.vms, r.node, todo)
    decreases |todo|
  {
    if todo == [] {
      AdvancedNothing(s);
      return s;
    }
    var n, rest := todo[0], todo[1..];
    assert todo == [n] + rest;
    var s1 := VmPowered(s, c, r, n);
    AllMadeStays(s, s1, StartTasks(n), c, r, rest);
    t := VmsPowered(s1, c, r, rest);
    AdvancedThen(s, s1, t, StartTasks(n), Each(rest, StartTasks));
    AllUpStays(s1, t, Each(rest, StartTasks), r.node, [n]);
  }

  // ------------------------------------------------------------ the hosts files

  /** This node was given these entries. */
  ghost predicate Knows(s: Sys, r: Cluster, n: ClusterNode, entries: set<Entry>) {
    && s.mode.Busy? && WroteAll(s.mode.work, Ident(n), entries)
    && VmKey(r.node, n.vmId) in s.vms && entries <= s.vms[VmKey(r.node, n.vmId)].hosts
  }

  /** One host is handed to a node: a line in each file. */
  lemma HostGiven(s: Sys, c: string, r: Cluster, n: ClusterNode, e: Entry) returns (t: Sys)
    requires Reading(s, Event.CreateCluster(c), r) && AllMade(s, c, r, [n]) && e in Entries(HostMap(c, r.nodes))
    ensures Reading(t, Event.CreateCluster(c), r) && Given(s, t, [Call.Ssh(n, AddTemplateHost(e), true), Call.Ssh(n, AddHost(e), true)])
    ensures (Ident(n), e) in t.mode.work.wrote && VmKey(r.node, n.vmId) in t.vms && e in t.vms[VmKey(r.node, n.vmId)].hosts
  {
    assert n in [n] && Made(s, c, r, n);
    var s1 := Commanded(s, Event.CreateCluster(c), r, n, AddTemplateHost(e));
    t := HostAdded(s1, c, r, n, e);
    assert t.mode.work.calls == s.mode.work.calls + [Call.Ssh(n, AddTemplateHost(e), true), Call.Ssh(n, AddHost(e), true)];
  }

  /** Like `Advanced`, by these calls. */
  ghost predicate Given(s: Sys, t: Sys, calls: seq<Call>) {
    && s.mode.Busy? && t.mode.Busy? && t == s.(mode := t.mode, vms := t.vms)
    && KeptVms(s.vms, t.vms) && KeptWork(s.mode.work, t.mode.work)
    && t.mode.work.calls == s.mode.work.calls + calls
  }

  lemma GivenThen(s: Sys, t: Sys, u: Sys, a: seq<Call>, b: seq<Call>)
    requires Given(s, t, a) && Given(t, u, b)
    ensures Given(s, u, a + b)
  {
    Assoc(s.mode.work.calls, a, b);
  }

  lemma MadeWhileGiven(s: Sys, t: Sys, calls: seq<Call>, c: string, r: Cluster, n: ClusterNode)
    requires Given(s, t, calls) && AllMade(s, c, r, [n])
    ensures AllMade(t, c, r, [n])
  {
    assert n in [n] && Made(s, c, r, n);
  }

  /** All of these entries, in some order. */
  lemma {:induction false} HostsGiven(s: Sys, c: string, r: Cluster, n: ClusterNode, todo: set<Entry>) returns (t: Sys, order: seq<Entry>)
    requires Reading(s, Event.CreateCluster(c), r) && AllMade(s, c, r, [n]) && todo <= Entries(HostMap(c, r.nodes))
    ensures Reading(t, Event.CreateCluster(c), r) && Given(s, t, HostCalls(n, order)) && Enumerates(order, todo)
    ensures Knows(t, r, n, todo)
    decreases |todo|
  {
    if todo == {} {
      assert n in [n] && Made(s, c, r, n);
      return s, [];
    }
    var e :| e in todo;
    var s1;
    s1, order := HostsGiven(s, c, r, n, todo - {e});
    MadeWhileGiven(s, s1, HostCalls(n, order), c, r, n);
    t := HostGiven(s1, c, r, n, e);
    GivenThen(s, s1, t, HostCalls(n, order), [Call.Ssh(n, AddTemplateHost(e), true), Call.Ssh(n, AddHost(e), true)]);
    OneMore(n, order, e, todo);
    KnowsMore(s1, t, r, n, todo, e);
    order := order + [e];
  }

  lemma OneMore(n: ClusterNode, order: seq<Entry>, e: Entry, todo: set<Entry>)
    requires e in todo && Enumerates(order, todo - {e})
    ensures Enumerates(order + [e], todo)
    ensures HostCalls(n, order + [e]) == HostCalls(n, order) + [Call.Ssh(n, AddTemplateHost(e), true), Call.Ssh(n, AddHost(e), true)]
  {
    assert (order + [e])[..|order|] == order;
    assert todo == (todo - {e}) + {e};
    assert (set x | x in order + [e]) == (set x | x in order) + {e};
  }

  lemma KnowsMore(s: Sys, t: Sys, r: Cluster, n: ClusterNode, todo: set<Entry>, e: Entry)
    requires Knows(s, r, n, todo - {e}) && e in todo && t.mode.Busy? && KeptVms(s.vms, t.vms) && s.mode.work.wrote <= t.mode.work.wrote
    requires (Ident(n), e) in t.mode.work.wrote && VmKey(r.node, n.vmId) in t.vms && e in t.vms[VmKey(r.node, n.vmId)].hosts
    ensures Knows(t, r, n, todo)
  {
    var w := s.mode.work;
    forall x | x in todo ensures (Ident(n), x) in t.mode.work.wrote && x in t.vms[VmKey(r.node, n.vmId)].hosts {
      if x != e { assert x in todo - {e} && (Ident(n), x) in w.wrote; }
    }
  }

  ghost predicate AllKnow(s: Sys, c: string, r: Cluster, nodes: seq<ClusterNode>) {
    forall n :: n in nodes ==> Knows(s, r, n, Entries(HostMap(c, r.nodes)))
  }

  lemma AllKnowStays(s: Sys, t: Sys, plan: seq<Task>, c: string, r: Cluster, nodes: seq<ClusterNode>)
    requires Advanced(s, t, plan) && AllKnow(s, c, r, nodes)
    ensures AllKnow(t, c, r, nodes)
  {
    forall n | n in nodes ensures Knows(t, r, n, Entries(HostMap(c, r.nodes))) {
      assert Knows(s, r, n, Entries(HostMap(c, r.nodes)));
      assert WroteAll(s.mode.work, Ident(n), Entries(HostMap(c, r.nodes)));
    }
  }

  lemma EquipSaid(calls: seq<Call>, after: seq<Call>, n: ClusterNode, entries: set<Entry>, order: seq<Entry>)
    requires Enumerates(order, entries) && after == (calls + [Call.Ssh(n, EnableIscsi, true)]) + HostCalls(n, order)
    ensures Did(calls, after, [Equip(n, entries)], true)
  {
    var seg := [Call.Ssh(n, EnableIscsi, true)] + HostCalls(n, order);
    assert EquipRun(n, entries, seg, true);
    assert Run(Equip(n, entries), seg, true);
    DidOne(calls, Equip(n, entries), seg, true);
    Assoc(calls, [Call.Ssh(n, EnableIscsi, true)], HostCalls(n, order));
  }

  lemma NodeEquipped(s: Sys, c: string, r: Cluster, n: ClusterNode) returns (t: Sys)
    requires Reading(s, Event.CreateCluster(c), r) && AllMade(s, c, r, [n])
    ensures Reading(t, Event.CreateCluster(c), r) && Advanced(s, t, [Equip(n, Entries(HostMap(c, r.nodes)))]) && AllKnow(t, c, r, [n])
  {
    var entries := Entries(HostMap(c, r.nodes));
    var s1 := Commanded(s, Event.CreateCluster(c), r, n, EnableIscsi);
    assert Given(s, s1, [Call.Ssh(n, EnableIscsi, true)]);
    MadeWhileGiven(s, s1, [Call.Ssh(n, EnableIscsi, true)], c, r, n);
    var order;
    t, order := HostsGiven(s1, c, r, n, entries);
    GivenThen(s, s1, t, [Call.Ssh(n, EnableIscsi, true)], HostCalls(n, order));
    EquipSaid(s.mode.work.calls, t.mode.work.calls, n, entries, order);
  }

  lemma NodeSetUp(s: Sys, c: string, r: Cluster, n: ClusterNode) returns (t: Sys)
    requires Reading(s, Event.CreateCluster(c), r) && AllMade(s, c, r, [n])
    ensures Reading(t, Event.CreateCluster(c), r) && AllKnow(t, c, r, [n])
    ensures Advanced(s, t, EquipTasks(Entries(HostMap(c, r.nodes)), "Configure VM")(n))
  {
    var note, equip := Tell(Info, "Configure VM"), Equip(n, Entries(HostMap(c, r.nodes)));
    AdvancedNothing(s);
    var s1 := AndEasy(s, s, c, r, [], note);
    assert [] + [note] == [note];
    AllMadeStays(s, s1, [note], c, r, [n]);
    t := NodeEquipped(s1, c, r, n);
    AdvancedThen(s, s1, t, [note], [equip]);
    assert [note] + [equip] == EquipTasks(Entries(HostMap(c, r.nodes)), "Configure VM")(n);
  }

  lemma {:induction false} NodesSetUp(s: Sys, c: string, r: Cluster, todo: seq<ClusterNode>) returns (t: Sys)
    requires Reading(s, Event.CreateCluster(c), r) && AllMade(s, c, r, todo)
    ensures Reading(t, Event.CreateCluster(c), r) && AllKnow(t, c, r, todo)
    ensures Advanced(s, t, Each(todo, EquipTasks(Entries(HostMap(c, r.nodes)), "Configure VM")))
    decreases |todo|
  {
    if todo == [] {
      AdvancedNothing(s);
      return s;
    }
    var n, rest, body := todo[0], todo[1..], EquipTasks(Entries(HostMap(c, r.nodes)), "Configure VM");
    assert todo == [n] + rest;
    var s1 := NodeSetUp(s, c, r, n);
    AllMadeStays(s, s1, body(n), c, r, rest);
    t := NodesSetUp(s1, c, r, rest);
    AdvancedThen(s, s1, t, body(n), Each(rest, body));
    AllKnowStays(s1, t, Each(rest, body), c, r, [n]);
  }

  // ------------------------------------------------------------ the stages

  /** The VMs are listed, created, started and found up. */
  lemma Provisioned(s: Sys, c: string, r: Cluster) returns (t: Sys, listing: map<nat, string>)
    requires Reading(s, Event.CreateCluster(c), r) && s.mode.work.wrote == {}
    requires DistinctIds(r.nodes) && IdsFree(s.vms, r.node, r.nodes)
    ensures Reading(t, Event.CreateCluster(c), r) && Advanced(s, t, Provisioning(r.nodes, listing, {}))
    ensures AllMade(t, c, r, r.nodes) && AllUp(t.vms, r.node, r.nodes)
  {
    listing := Listing(s.vms, r.node);
    var surveys, builds := [Survey(listing), SurveyContainers({})], Each(r.nodes, BuildTasks(listing.Keys + {}));
    var s1 := Surveyed(s, c, r);
    var s2 := VmsBuilt(s1, c, r, r.nodes, listing.Keys + {});
    t := BootedUp(s2, c, r);
    AdvancedThen(s1, s2, t, builds, Booting(r.nodes));
    AdvancedThen(s, s1, t, surveys, builds + Booting(r.nodes));
    AllMadeStays(s2, t, Booting(r.nodes), c, r, r.nodes);
  }

  lemma Surveyed(s: Sys, c: string, r: Cluster) returns (t: Sys)
    requires Reading(s, Event.CreateCluster(c), r)
    ensures Reading(t, Event.CreateCluster(c), r) && t.vms == s.vms && t.mode.work.wrote == s.mode.work.wrote
    ensures Advanced(s, t, [Survey(Listing(s.vms, r.node)), SurveyContainers({})])
  {
    var listing := Listing(s.vms, r.node);
    var s1 := ListedAll(s, Event.CreateCluster(c), r);
    DidOne(s.mode.work.calls, Survey(listing), [ListVms(listing, true)], true);
    assert Advanced(s, s1, [Survey(listing)]);
    t := AndEasy(s, s1, c, r, [Survey(listing)], SurveyContainers({}));
    assert [Survey(listing)] + [SurveyContainers({})] == [Survey(listing), SurveyContainers({})];
  }

  lemma BootedUp(s: Sys, c: string, r: Cluster) returns (t: Sys)
    requires Reading(s, Event.CreateCluster(c), r) && AllMade(s, c, r, r.nodes)
    ensures Reading(t, Event.CreateCluster(c), r) && Advanced(s, t, Booting(r.nodes)) && AllUp(t.vms, r.node, r.nodes)
  {
    var rest := Each(r.nodes, AwaitTasks) + Each(r.nodes, RebootTasks);
    EachEasy(r.nodes, AwaitTasks);
    EachEasy(r.nodes, RebootTasks);
    var s1 := VmsPowered(s, c, r, r.nodes);
    t := AllEasyDone(s1, c, r, rest);
    PerformedAdvances(s1, t, rest);
    AdvancedThen(s, s1, t, Each(r.nodes, StartTasks), rest);
  }

  lemma JoiningIsEasy(nodes: seq<ClusterNode>)
    requires FindMaster(nodes).Some?
    ensures forall t :: t in Joining(nodes) ==> Easy(t)
  {
    var m := FindMaster(nodes).value;
    EachEasy(OfOtherId(nodes, m.vmId), EnrollTasks(m));
  }

  lemma FurnishingIsEasy(r: Cluster)
    requires FindMaster(r.nodes).Some?
    ensures forall t :: t in Furnishing(r) ==> Easy(t)
  {
    var m := FindMaster(r.nodes).value;
    EachEasy(r.helmApps, AppTasks(m));
    EachEasy(r.clusterResources, ResourceTasks(m));
    assert LeastMaster(r.nodes).Some?;
  }

  /** Kubernetes is installed, found ready and joined, and the cluster is furnished. */
  lemma Clustered(s: Sys, c: string, r: Cluster) returns (t: Sys)
    requires Reading(s, Event.CreateCluster(c), r) && AllMade(s, c, r, r.nodes) && FindMaster(r.nodes).Some?
    ensures Reading(t, Event.CreateCluster(c), r) && Advanced(s, t, Clustering(c, r.nodes) + Furnishing(r)) && AllKnow(t, c, r, r.nodes)
  {
    var equips := Each(r.nodes, EquipTasks(Entries(HostMap(c, r.nodes)), "Configure VM"));
    var rest := Each(r.nodes, InstallTasks) + (Each(r.nodes, ReadyTasks) + Joining(r.nodes));
    var s1 := NodesSetUp(s, c, r, r.nodes);
    RestIsEasy(r);
    t := AllEasyDone(s1, c, r, rest + Furnishing(r));
    PerformedAdvances(s1, t, rest + Furnishing(r));
    AdvancedThen(s, s1, t, equips, rest + Furnishing(r));
    AllKnowStays(s1, t, rest + Furnishing(r), c, r, r.nodes);
    Assoc(equips, rest, Furnishing(r));
  }

  lemma RestIsEasy(r: Cluster)
    requires FindMaster(r.nodes).Some?
    ensures forall t :: t in (Each(r.nodes, InstallTasks) + (Each(r.nodes, ReadyTasks) + Joining(r.nodes))) + Furnishing(r) ==> Easy(t)
  {
    EachEasy(r.nodes, InstallTasks);
    EachEasy(r.nodes, ReadyTasks);
    JoiningIsEasy(r.nodes);
    FurnishingIsEasy(r);
  }

  /** All that is to be done for the record `r`. */
  lemma Built(s: Sys, c: string, r: Cluster) returns (t: Sys, listing: map<nat, string>)
    requires Reading(s, Event.CreateCluster(c), r) && s.mode.work.wrote == {} && !s.mode.work.tainted
    requires FindMaster(r.nodes).Some? && DistinctIds(r.nodes) && IdsFree(s.vms, r.node, r.nodes)
    ensures Reading(t, Event.CreateCluster(c), r) && Evidence(t.mode.work)
    ensures Advanced(s, t, Provisioning(r.nodes, listing, {}) + (Clustering(c, r.nodes) + Furnishing(r)))
    ensures forall n :: n in r.nodes ==> InService(t.vms, c, r, n)
  {
    var s1;
    s1, listing := Provisioned(s, c, r);
    t := Clustered(s1, c, r);
    var rest := Clustering(c, r.nodes) + Furnishing(r);
    AdvancedThen(s, s1, t, Provisioning(r.nodes, listing, {}), rest);
    AllMadeStays(s1, t, rest, c, r, r.nodes);
    AllUpStays(s1, t, rest, r.node, r.nodes);
    AllGiveEvidence(t, c, r);
    forall n | n in r.nodes ensures InService(t.vms, c, r, n) {
      assert Made(t, c, r, n) && Knows(t, r, n, Entries(HostMap(c, r.nodes)));
    }
  }

  lemma AllGiveEvidence(s: Sys, c: string, r: Cluster)
    requires Reading(s, Event.CreateCluster(c), r) && !s.mode.work.tainted
    requires AllMade(s, c, r, r.nodes) && AllKnow(s, c, r, r.nodes)
    ensures Evidence(s.mode.work)
  {
    var w := s.mode.work;
    forall n | n in r.nodes ensures Ident(n) in w.made && WroteAll(w, Ident(n), Entries(HostMap(c, r.nodes))) {
      assert Made(s, c, r, n) && Knows(s, r, n, Entries(HostMap(c, r.nodes)));
    }
  }

  // ------------------------------------------------------------ the end

  const CREATED := Noted(Info, "Cluster has been created")

  lemma ConcludedWell(s: Sys, c: string, r: Cluster) returns (t: Sys)
    requires Reading(s, Event.CreateCluster(c), r) && Evidence(s.mode.work)
    ensures Reachable(t) && t == s.(mode := Busy(s.mode.work.(phase := Concluded(true))))
  {
    Go(s, Do(Conclude(true)));
    t := Next(s, Do(Conclude(true)));
  }

  /** The status and the note. */
  lemma Closed(s: Sys, c: string) returns (t: Sys)
    requires Reachable(s) && s.mode.Busy? && s.mode.work.event == Event.CreateCluster(c) && s.mode.work.phase == Concluded(true)
    requires c in s.clusters
    ensures Reachable(t)
    ensures t == s.(mode := Busy(s.mode.work.(statusDone := true, calls := s.mode.work.calls + [StatusSet(Sync, true), CREATED])),
                    clusters := s.clusters[c := s.clusters[c].(status := Sync)], logs := t.logs)
  {
    Go(s, Do(SetStatus(Sync)));
    var s1 := Next(s, Do(SetStatus(Sync)));
    assert s1 == s.(mode := Busy(s.mode.work.(statusDone := true, calls := s.mode.work.calls + [StatusSet(Sync, true)])),
                    clusters := s.clusters[c := s.clusters[c].(status := Sync)]);
    var a := Act.SaveLog(LogEntry(0, c, "Cluster has been created", Info));
    Go(s1, Do(a));
    t := Next(s1, Do(a));
    Assoc(s.mode.work.calls, [StatusSet(Sync, true)], [CREATED]);
    assert [StatusSet(Sync, true)] + [CREATED] == [StatusSet(Sync, true), CREATED];
  }

  /** The last step of the run ends the event. */
  lemma Finished(s: Sys) returns (t: Sys, steps: seq<Step>)
    requires Reachable(s) && s.mode.Busy? && s.mode.work.event.CreateCluster? && s.mode.work.phase == Concluded(true) && s.mode.work.statusDone
    ensures Legal(steps) && Exec(steps) == t && |steps| > 0 && Took(steps, |steps| - 1, Finish(true), s.mode)
    ensures t == s.(mode := Probing, dispatched := t.dispatched)
  {
    var before :| Legal(before) && Exec(before) == s;
    Extend(before, Do(Finish(true)));
    steps := before + [Do(Finish(true))];
    t := Next(s, Do(Finish(true)));
    assert steps[..|before|] == before;
    assert EndsIn(steps, |before|, s);
    assert At(steps, |before|, Do(Finish(true)), s);
    assert s.excused + {} == s.excused;
  }

  /** What the worker has on record is the handling of the event, all of it. */
  lemma IsHandling(w: Work, c: string, r: Cluster, listing: map<nat, string>, body: seq<Call>)
    requires w.event == Event.CreateCluster(c) && w.phase == Concluded(true)
    requires w.calls == [StatusSet(Creating, true)] + body + [StatusSet(Sync, true), CREATED]
    requires Ran(CreationPlan(c, r, listing, {}), body, true)
    ensures Dispatcher.Handling(w, true)
  {
    var mark, tell, close := Mark(Sync), Tell(Info, "Cluster has been created"), [StatusSet(Sync, true), CREATED];
    RanOne(mark, [StatusSet(Sync, true)], true);
    RanOne(tell, [CREATED], true);
    RanThen([mark], [StatusSet(Sync, true)], [tell], [CREATED], true);
    assert [mark] + [tell] == Dispatcher.Closing(w.event, true, "");
    assert [StatusSet(Sync, true)] + [CREATED] == close;
    assert Creation(c, body, true);
    Dispatcher.Tied(w.event, body, true);
    assert Dispatcher.Went(w.event, w.calls, true, Dispatcher.Course(body, true, "", close, true));
  }

  /** The body of the use case, from the trace before the VMs were created and after all was done. */
  lemma WholeBody(c: string, r: Cluster, listing: map<nat, string>, before: seq<Call>, after: seq<Call>) returns (body: seq<Call>)
    requires before == [StatusSet(Creating, true)] + [STARTED_CREATING, KeySaved(Some(r))]
    requires Did(before, after, Provisioning(r.nodes, listing, {}) + (Clustering(c, r.nodes) + Furnishing(r)), true)
    ensures after == [StatusSet(Creating, true)] + body && Ran(CreationPlan(c, r, listing, {}), body, true)
  {
    var rest := Provisioning(r.nodes, listing, {}) + (Clustering(c, r.nodes) + Furnishing(r));
    var note, keys := Tell(Info, "Start creating cluster"), FetchWithKeys(r);
    RanOne(note, [STARTED_CREATING], true);
    RanOne(keys, [KeySaved(Some(r))], true);
    RanThen([note], [STARTED_CREATING], [keys], [KeySaved(Some(r))], true);
    assert [note] + [keys] == [note, keys] && [STARTED_CREATING] + [KeySaved(Some(r))] == [STARTED_CREATING, KeySaved(Some(r))];
    RanThen([note, keys], [STARTED_CREATING, KeySaved(Some(r))], rest, after[|before|..], true);
    body := [STARTED_CREATING, KeySaved(Some(r))] + after[|before|..];
    Assoc([StatusSet(Creating, true)], [STARTED_CREATING, KeySaved(Some(r))], after[|before|..]);
  }

  /** Whatever cluster is requested, with a master and distinct VM ids that are free on its host: its
      creation can succeed. No guard of the machine stands in the way of the calls that the code makes:
      there is a run whose last step ends the event with success, after its use case has been carried out
      to the end. Then every node has its VM, which is up and knows all hosts, nothing has failed, and
      all other VMs are still there. */
  lemma CreationCanSucceed(s: Sys, r: Cluster) returns (t: Sys, steps: seq<Step>, w: Work)
    requires Idle(s) && r.clusterName !in s.clusters && r.status == Pending
    requires FindMaster(r.nodes).Some? && DistinctIds(r.nodes) && IdsFree(s.vms, r.node, r.nodes)
    ensures Idle(t) && t.clusters == s.clusters[r.clusterName := r.(status := Sync)] && t.clean == s.clean
    ensures Legal(steps) && Exec(steps) == t && |steps| > 0
    ensures w.event == Event.CreateCluster(r.clusterName) && Dispatcher.Ended(steps, |steps| - 1, w, true)
    ensures forall n :: n in r.nodes ==> InService(t.vms, r.clusterName, r, n)
    ensures KeptVms(s.vms, t.vms)
  {
    var c, r' := r.clusterName, r.(status := Creating);
    var s1 := Prepared(s, r);
    t, steps, w := BuiltToEnd(s1, c, r');
    SameService(t.vms, c, r, r');
    IdleAgain(s, s1, t, steps, c, r, r');
  }

  lemma IdleAgain(s: Sys, s1: Sys, t: Sys, steps: seq<Step>, c: string, r: Cluster, r': Cluster)
    requires Idle(s) && Legal(steps) && Exec(steps) == t && r' == r.(status := Creating)
    requires s1 == s.(clusters := s.clusters[c := r'], sent := s1.sent, mode := s1.mode, logs := s1.logs)
    requires t == s1.(mode := Probing, vms := t.vms, dispatched := t.dispatched, logs := t.logs, clusters := s1.clusters[c := r'.(status := Sync)])
    ensures Idle(t) && t.clusters == s.clusters[c := r.(status := Sync)] && t.clean == s.clean && s1.vms == s.vms
  {
  }

  lemma SameService(vms: map<VmKey, Vm>, c: string, r: Cluster, r': Cluster)
    requires r'.node == r.node && r'.nodes == r.nodes && forall n :: n in r'.nodes ==> InService(vms, c, r', n)
    ensures forall n :: n in r.nodes ==> InService(vms, c, r, n)
  {
    forall n | n in r.nodes ensures InService(vms, c, r, n) { assert InService(vms, c, r', n); }
  }

  lemma BuiltToEnd(s: Sys, c: string, r: Cluster) returns (t: Sys, steps: seq<Step>, w: Work)
    requires Reading(s, Event.CreateCluster(c), r) && s.mode.work.wrote == {} && !s.mode.work.tainted
    requires s.mode.work.calls == [StatusSet(Creating, true)] + [STARTED_CREATING, KeySaved(Some(r))]
    requires FindMaster(r.nodes).Some? && DistinctIds(r.nodes) && IdsFree(s.vms, r.node, r.nodes)
    ensures Legal(steps) && Exec(steps) == t && |steps| > 0
    ensures w.event == Event.CreateCluster(c) && Dispatcher.Ended(steps, |steps| - 1, w, true)
    ensures t == s.(mode := Probing, vms := t.vms, dispatched := t.dispatched, logs := t.logs, clusters := s.clusters[c := r.(status := Sync)])
    ensures KeptVms(s.vms, t.vms) && forall n :: n in r.nodes ==> InService(t.vms, c, r, n)
  {
    var s1, listing := Built(s, c, r);
    var body := WholeBody(c, r, listing, s.mode.work.calls, s1.mode.work.calls);
    t, steps, w := BroughtToEnd(s1, c, r, listing, body);
  }

  lemma BroughtToEnd(s: Sys, c: string, r: Cluster, listing: map<nat, string>, body: seq<Call>) returns (t: Sys, steps: seq<Step>, w: Work)
    requires Reading(s, Event.CreateCluster(c), r) && Evidence(s.mode.work)
    requires s.mode.work.calls == [StatusSet(Creating, true)] + body && Ran(CreationPlan(c, r, listing, {}), body, true)
    ensures Legal(steps) && Exec(steps) == t && |steps| > 0
    ensures w.event == Event.CreateCluster(c) && Dispatcher.Ended(steps, |steps| - 1, w, true)
    ensures t == s.(mode := Probing, dispatched := t.dispatched, logs := t.logs, clusters := s.clusters[c := r.(status := Sync)])
  {
    var s1 := ConcludedWell(s, c, r);
    var s2 := Closed(s1, c);
    w := s2.mode.work;
    t, steps := Finished(s2);
    IsHandling(w, c, r, listing, body);
    Dispatcher.SameEvidence(s.mode.work, w);
  }
}
