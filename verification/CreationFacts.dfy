/** What a cluster's creation looks like from outside, finished or broken off: stage after stage, each
    over for all nodes before the next begins
    (core/src/dispatcher/usecase/create_cluster.rs:35-46). */
module CreationFacts {
  import opened Model
  import opened HostFile
  import opened Machine
  import opened Plan
  import opened Trace
  import opened Common
  import opened CreateCluster

  // ------------------------------------------------------------ stages

  /** The stages of a creation, in their intended order; 0 for calls that belong to none. */
  function Stage(call: Call): nat {
    match call
    case ListVms(_, _) => 1
    case ListContainers(_, _) => 1
    case Image(_, _) => 1
    case Create(_, _) => 1
    case LockPoll(_, _) => 1
    case GrowDisk(_, _) => 1
    case Start(_, _) => 2
    case Shutdown(_, _) => 2
    case HardStop(_, _) => 2
    case Poll(_, _) => 2
    case Ssh(_, command, _) => CommandStage(command)
    case _ => 0
  }

  function CommandStage(command: Command): nat {
    match command
    case CloudInit => 2
    case RebootCheck(_) => 2
    case EnableIscsi => 3
    case AddTemplateHost(_) => 3
    case AddHost(_) => 3
    case Install => 4
    case WaitReady => 5
    case AddNodeToken(_) => 6
    case Join(_) => 6
    case Kubeconfig(_) => 7
    case Addon(_) => 8
    case Connect => 9
    case HelmRelease(_) => 9
    case Apply(_) => 10
    case _ => 0
  }

  const Rank: Task -> nat := (t: Task) =>
    if t.Survey? || t.SurveyContainers? || t.Build? then 1
    else if t.PowerOn? || t.AwaitStart? || t.Reboot? then 2
    else if t.Equip? then 3
    else if t.Enroll? then 6
    else if t.FetchConfig? then 7
    else if t.Order? then CommandStage(t.command)
    else 0

  const StageOf: Call -> nat := (c: Call) => Stage(c)

  /** Tasks of creations and additions. */
  predicate Creative(t: Task) {
    || t.Tell? || t.Fetch? || t.FetchWithKeys? || t.FetchConfig? || t.Stuck? || t.Survey? || t.SurveyContainers? || t.Build?
    || t.PowerOn? || t.AwaitStart? || t.Reboot? || (t.Order? && !t.command.Join? && !t.command.AddNodeToken?) || t.Equip? || t.Enroll?
  }

  lemma StartStage(n: ClusterNode, seg: seq<Call>, ok: bool, c: Call)
    requires StartRun(n, seg, ok) && c in seg
    ensures Stage(c) == 2
  {
  }

  lemma StopStage(n: ClusterNode, seg: seq<Call>, ok: bool, c: Call)
    requires StopRun(n, seg, ok) && c in seg
    ensures Stage(c) == 2
  {
    StopFacts(n, seg, ok);
  }

  lemma RebootStage(n: ClusterNode, seg: seq<Call>, ok: bool, c: Call)
    requires RebootRun(n, seg, ok) && c in seg
    ensures Stage(c) == 2 || c.Noted?
  {
    if rest :| RestartRun(n, rest, ok) && seg == [Call.Ssh(n, RebootCheck(true), true)] + rest {
      if c in rest { RestartStage(n, rest, ok, c); }
    }
  }

  lemma RestartStage(n: ClusterNode, rest: seq<Call>, ok: bool, c: Call)
    requires RestartRun(n, rest, ok) && c in rest
    ensures Stage(c) == 2 || c.Noted?
  {
    forall stop, k | StopRun(n, stop, k) && c in stop ensures Stage(c) == 2 { StopStage(n, stop, k, c); }
    forall start, k | StartRun(n, start, k) && c in start ensures Stage(c) == 2 { StartStage(n, start, k, c); }
  }

  lemma {:induction false} HostStage(n: ClusterNode, order: seq<Entry>, c: Call)
    requires c in HostCalls(n, order)
    ensures Stage(c) == 3 && c.Ssh?
  {
    if c in HostCalls(n, order[..|order| - 1]) { HostStage(n, order[..|order| - 1], c); }
  }

  lemma EquipStage(n: ClusterNode, entries: set<Entry>, seg: seq<Call>, ok: bool, c: Call)
    requires EquipRun(n, entries, seg, ok) && c in seg
    ensures Stage(c) == 3
  {
    forall order | c in HostCalls(n, order) ensures Stage(c) == 3 { HostStage(n, order, c); }
  }

  lemma BuildStage(n: ClusterNode, seg: seq<Call>, ok: bool, c: Call)
    requires BuildRun(n, seg, ok) && c in seg
    ensures Stage(c) <= 1 && !c.StatusSet?
  {
    forall image, k | ImageRun(image, k) && c in image ensures Stage(c) <= 1 && !c.StatusSet? { ImageStage(image, k, c); }
  }

  lemma ImageStage(image: seq<Call>, ok: bool, c: Call)
    requires ImageRun(image, ok) && c in image
    ensures Stage(c) <= 1 && (c.Image? || c == DOWNLOADED)
  {
  }

  lemma CallsOfTask(t: Task, seg: seq<Call>, ok: bool, c: Call)
    requires Creative(t) && Run(t, seg, ok) && c in seg
    ensures Stage(c) <= Rank(t)
  {
    match t
    case Build(n, free) => if free { BuildStage(n, seg, ok, c); }
    case AwaitStart(n) => StartStage(n, seg, ok, c);
    case Reboot(n) => RebootStage(n, seg, ok, c);
    case Equip(n, entries) => EquipStage(n, entries, seg, ok, c);
    case _ =>
  }

  lemma CallsKeepRank(plan: seq<Task>)
    requires forall t :: t in plan ==> Creative(t)
    ensures Bounded(plan, Rank, StageOf)
  {
    forall t, seg, ok, c | t in plan && Run(t, seg, ok) && c in seg ensures StageOf(c) <= Rank(t) {
      CallsOfTask(t, seg, ok, c);
    }
  }

  // ------------------------------------------------------------ the plan is ordered

  ghost predicate Arranged(plan: seq<Task>, low: nat, high: nat) {
    Ordered(plan, Rank) && Within(plan, Rank, low, high) && forall t :: t in plan ==> Creative(t)
  }

  /** The same, kept out of the verifier's sight. */
  ghost predicate Fine(plan: seq<Task>, low: nat, high: nat) {
    forall p :: p == plan ==> Arranged(p, low, high)
  }

  lemma IsFine(plan: seq<Task>, low: nat, high: nat)
    requires Arranged(plan, low, high)
    ensures Fine(plan, low, high)
  {
  }

  lemma FineIs(plan: seq<Task>, low: nat, high: nat)
    requires Fine(plan, low, high)
    ensures Arranged(plan, low, high)
  {
  }

  lemma FineWithout(plan: seq<Task>, low: nat, high: nat, t: Task)
    requires Fine(plan, low, high) && Rank(t) > 0 && !(low <= Rank(t) <= high)
    ensures t !in plan
  {
    FineIs(plan, low, high);
  }

  lemma FineThen(p: seq<Task>, q: seq<Task>, low: nat, mid: nat, mid': nat, high: nat)
    requires Fine(p, low, mid) && Fine(q, mid', high) && low <= mid <= mid' <= high
    ensures Fine(p + q, low, high)
  {
    FineIs(p, low, mid);
    FineIs(q, mid', high);
    OrderedThen(p, q, Rank, low, mid, mid', high);
    IsFine(p + q, low, high);
  }

  lemma FineEach<T>(items: seq<T>, body: T -> seq<Task>, k: nat)
    requires forall x :: x in items ==> Arranged(body(x), k, k)
    ensures Fine(Each(items, body), k, k)
  {
    forall x | x in items ensures Within(body(x), Rank, k, k) { assert Arranged(body(x), k, k); }
    WithinEach(items, body, Rank, k, k);
    OneRank(Each(items, body), Rank, k);
    forall t | t in Each(items, body) ensures Creative(t) {
      var x := EachIsOf(items, body, t);
      assert Arranged(body(x), k, k);
    }
    IsFine(Each(items, body), k, k);
  }

  lemma ProvisioningFine(nodes: seq<ClusterNode>, listing: map<nat, string>, ids: set<nat>)
    ensures Fine(Provisioning(nodes, listing, ids), 1, 2)
  {
    var surveys, builds := [Survey(listing), SurveyContainers(ids)], Each(nodes, BuildTasks(listing.Keys + ids));
    FineEach(nodes, BuildTasks(listing.Keys + ids), 1);
    BootingFine(nodes);
    IsFine(surveys, 1, 1);
    FineThen(builds, Booting(nodes), 1, 1, 2, 2);
    FineThen(surveys, builds + Booting(nodes), 1, 1, 1, 2);
  }

  lemma BootingFine(nodes: seq<ClusterNode>)
    ensures Fine(Booting(nodes), 2, 2)
  {
    FineEach(nodes, StartTasks, 2);
    FineEach(nodes, AwaitTasks, 2);
    FineEach(nodes, RebootTasks, 2);
    FineThen(Each(nodes, AwaitTasks), Each(nodes, RebootTasks), 2, 2, 2, 2);
    FineThen(Each(nodes, StartTasks), Each(nodes, AwaitTasks) + Each(nodes, RebootTasks), 2, 2, 2, 2);
  }

  lemma JoiningFine(nodes: seq<ClusterNode>)
    ensures Fine(Joining(nodes), 6, 6)
  {
    if |nodes| != 1 && FindMaster(nodes).Some? {
      var m := FindMaster(nodes).value;
      FineEach(OfOtherId(nodes, m.vmId), EnrollTasks(m), 6);
    } else {
      IsFine(Joining(nodes), 6, 6);
    }
  }

  lemma EquipsFine(nodes: seq<ClusterNode>, entries: set<Entry>, message: string)
    ensures Fine(Each(nodes, EquipTasks(entries, message)), 3, 3)
  {
    FineEach(nodes, EquipTasks(entries, message), 3);
  }

  lemma InstallsFine(nodes: seq<ClusterNode>)
    ensures Fine(Each(nodes, InstallTasks), 4, 4)
  {
    FineEach(nodes, InstallTasks, 4);
  }

  lemma ReadiesFine(nodes: seq<ClusterNode>)
    ensures Fine(Each(nodes, ReadyTasks), 5, 5)
  {
    FineEach(nodes, ReadyTasks, 5);
  }

  lemma ClusteringFine(c: string, nodes: seq<ClusterNode>)
    ensures Fine(Clustering(c, nodes), 3, 6)
  {
    EquipsFine(nodes, Entries(HostMap(c, nodes)), "Configure VM");
    InstallsFine(nodes);
    ReadiesFine(nodes);
    JoiningFine(nodes);
    FourFine(Each(nodes, EquipTasks(Entries(HostMap(c, nodes)), "Configure VM")), Each(nodes, InstallTasks), Each(nodes, ReadyTasks), Joining(nodes));
  }

  lemma FourFine(a: seq<Task>, b: seq<Task>, c: seq<Task>, d: seq<Task>)
    requires Fine(a, 3, 3) && Fine(b, 4, 4) && Fine(c, 5, 5) && Fine(d, 6, 6)
    ensures Fine(a + (b + (c + d)), 3, 6)
  {
    FineThen(c, d, 5, 5, 6, 6);
    FineThen(b, c + d, 4, 4, 5, 6);
    FineThen(a, b + (c + d), 3, 3, 4, 6);
  }

  lemma ConnectFine(m: ClusterNode, each: seq<Task>, k: nat)
    requires Fine(each, k, k) && 9 <= k
    ensures Fine([Order(m, Connect)] + each, 9, k)
  {
    IsFine([Order(m, Connect)], 9, 9);
    FineThen([Order(m, Connect)], each, 9, 9, k, k);
  }

  lemma AppsFine(m: ClusterNode, apps: seq<HelmApp>)
    ensures Fine([Order(m, Connect)] + Each(apps, AppTasks(m)), 9, 9)
  {
    FineEach(apps, AppTasks(m), 9);
    ConnectFine(m, Each(apps, AppTasks(m)), 9);
  }

  lemma AppliesFine(m: ClusterNode, resources: seq<ClusterResource>)
    ensures Fine([Order(m, Connect)] + Each(resources, ResourceTasks(m)), 9, 10)
  {
    FineEach(resources, ResourceTasks(m), 10);
    ConnectFine(m, Each(resources, ResourceTasks(m)), 10);
  }

  lemma TellFine(message: string, rest: seq<Task>, low: nat, high: nat)
    requires Fine(rest, low, high) && low <= high
    ensures Fine([Tell(Info, message)] + rest, low, high)
  {
    IsFine([Tell(Info, message)], low, low);
    FineThen([Tell(Info, message)], rest, low, low, low, high);
  }

  lemma StuckFine(low: nat, high: nat)
    ensures Fine([Stuck], low, high)
  {
    IsFine([Stuck], low, high);
  }

  lemma WorkloadsFine(nodes: seq<ClusterNode>, apps: seq<HelmApp>, resources: seq<ClusterResource>)
    ensures Fine(HelmApps(nodes, apps), 9, 9) && Fine(Resources(nodes, resources), 9, 10)
  {
    match FindMaster(nodes)
    case None =>
      StuckFine(9, 9);
      StuckFine(9, 10);
      TellFine("Install Helm apps", [Stuck], 9, 9);
      TellFine("Install Cluster resources", [Stuck], 9, 10);
    case Some(m) =>
      AppsFine(m, apps);
      AppliesFine(m, resources);
      TellFine("Install Helm apps", [Order(m, Connect)] + Each(apps, AppTasks(m)), 9, 9);
      TellFine("Install Cluster resources", [Order(m, Connect)] + Each(resources, ResourceTasks(m)), 9, 10);
  }

  lemma ConfigFine(nodes: seq<ClusterNode>)
    ensures Fine(AskingForConfig(nodes), 7, 7)
  {
    match LeastMaster(nodes)
    case None =>
      StuckFine(7, 7);
      TellFine("Add kube config to project", [Stuck], 7, 7);
    case Some(m) =>
      IsFine([FetchConfig(m)], 7, 7);
      TellFine("Add kube config to project", [FetchConfig(m)], 7, 7);
  }

  lemma BothAddonsFine(m: ClusterNode)
    ensures Fine([Order(m, Addon("dns")), Order(m, Addon("helm3"))], 8, 8)
  {
    IsFine([Order(m, Addon("dns")), Order(m, Addon("helm3"))], 8, 8);
  }

  lemma AddonsFine(nodes: seq<ClusterNode>)
    ensures Fine(Addons(nodes), 8, 8)
  {
    match FindMaster(nodes)
    case None =>
      StuckFine(8, 8);
      TellFine("Enable MicroK8s addons: [dns, helm3]", [Stuck], 8, 8);
    case Some(m) =>
      BothAddonsFine(m);
      TellFine("Enable MicroK8s addons: [dns, helm3]", [Order(m, Addon("dns")), Order(m, Addon("helm3"))], 8, 8);
  }

  lemma LastFine(a: seq<Task>, b: seq<Task>, c: seq<Task>, d: seq<Task>)
    requires Fine(a, 7, 7) && Fine(b, 8, 8) && Fine(c, 9, 9) && Fine(d, 9, 10)
    ensures Fine(a + (b + (c + d)), 7, 10)
  {
    FineThen(c, d, 9, 9, 9, 10);
    FineThen(b, c + d, 8, 8, 9, 10);
    FineThen(a, b + (c + d), 7, 7, 8, 10);
  }

  lemma FurnishingFine(r: Cluster)
    ensures Fine(Furnishing(r), 7, 10)
  {
    WorkloadsFine(r.nodes, r.helmApps, r.clusterResources);
    ConfigFine(r.nodes);
    AddonsFine(r.nodes);
    LastFine(AskingForConfig(r.nodes), Addons(r.nodes), HelmApps(r.nodes, r.helmApps), Resources(r.nodes, r.clusterResources));
  }

  lemma CreationFine(c: string, r: Cluster, listing: map<nat, string>, ids: set<nat>)
    ensures Fine(CreationPlan(c, r, listing, ids), 1, 10)
  {
    ProvisioningFine(r.nodes, listing, ids);
    ClusteringFine(c, r.nodes);
    FurnishingFine(r);
    HeadFine(r);
    AllFine([Tell(Info, "Start creating cluster"), FetchWithKeys(r)], Provisioning(r.nodes, listing, ids), Clustering(c, r.nodes), Furnishing(r));
  }

  lemma HeadFine(r: Cluster)
    ensures Fine([Tell(Info, "Start creating cluster"), FetchWithKeys(r)], 1, 1)
  {
    IsFine([Tell(Info, "Start creating cluster"), FetchWithKeys(r)], 1, 1);
  }

  lemma AllFine(head: seq<Task>, a: seq<Task>, b: seq<Task>, c: seq<Task>)
    requires Fine(head, 1, 1) && Fine(a, 1, 2) && Fine(b, 3, 6) && Fine(c, 7, 10)
    ensures Fine(head + (a + (b + c)), 1, 10)
  {
    FineThen(b, c, 3, 6, 7, 10);
    FineThen(a, b + c, 1, 2, 3, 10);
    FineThen(head, a + (b + c), 1, 1, 1, 10);
  }

  // ------------------------------------------------------------ every node first

  /** What every node must have been through. */
  lemma NodeTasks(c: string, r: Cluster, listing: map<nat, string>, ids: set<nat>, n: ClusterNode)
    requires n in r.nodes
    ensures var plan, entries := CreationPlan(c, r, listing, ids), Entries(HostMap(c, r.nodes));
      && Build(n, n.vmId !in listing.Keys + ids) in plan && PowerOn(n) in plan && AwaitStart(n) in plan && Reboot(n) in plan
      && Equip(n, entries) in plan && Order(n, Install) in plan && Order(n, WaitReady) in plan
  {
    var used, entries := listing.Keys + ids, Entries(HostMap(c, r.nodes));
    EachHas(r.nodes, BuildTasks(used), n, Build(n, n.vmId !in used));
    EachHas(r.nodes, StartTasks, n, PowerOn(n));
    EachHas(r.nodes, AwaitTasks, n, AwaitStart(n));
    EachHas(r.nodes, RebootTasks, n, Reboot(n));
    EachHas(r.nodes, EquipTasks(entries, "Configure VM"), n, Equip(n, entries));
    EachHas(r.nodes, InstallTasks, n, Order(n, Install));
    EachHas(r.nodes, ReadyTasks, n, Order(n, WaitReady));
  }

  lemma {:induction false} HostCallsHas(n: ClusterNode, order: seq<Entry>, e: Entry)
    requires e in order
    ensures Call.Ssh(n, AddTemplateHost(e), true) in HostCalls(n, order) && Call.Ssh(n, AddHost(e), true) in HostCalls(n, order)
  {
    var last := |order| - 1;
    assert order == order[..last] + [order[last]];
    if e in order[..last] { HostCallsHas(n, order[..last], e); }
  }

  lemma EquipHas(n: ClusterNode, entries: set<Entry>, seg: seq<Call>, e: Entry)
    requires EquipRun(n, entries, seg, true) && e in entries
    ensures Call.Ssh(n, AddTemplateHost(e), true) in seg && Call.Ssh(n, AddHost(e), true) in seg
  {
    var order :| Enumerates(order, entries) && seg == [Call.Ssh(n, EnableIscsi, true)] + HostCalls(n, order);
    assert e in order;
    HostCallsHas(n, order, e);
  }

  lemma StartHas(n: ClusterNode, seg: seq<Call>)
    requires StartRun(n, seg, true)
    ensures Call.Poll(n, SawRunning) in seg && Call.Ssh(n, CloudInit, true) in seg
  {
    var polls, checks :| RunningRun(n, polls, true) && CloudInitRun(n, checks, true) && seg == polls + checks;
    assert polls[|polls| - 1] == Call.Poll(n, SawRunning) && checks[|checks| - 1] == Call.Ssh(n, CloudInit, true);
  }

  lemma BuildHas(n: ClusterNode, seg: seq<Call>)
    requires BuildRun(n, seg, true)
    ensures Call.Create(n, true) in seg && Call.GrowDisk(n, true) in seg
  {
    var image, growth :| ImageRun(image, true) && GrowthRun(n, growth, true) && seg == image + [Call.Create(n, true)] + growth;
    assert growth[|growth| - 1] == GrowDisk(n, true);
    assert seg[|image|] == Call.Create(n, true);
  }

  /** Whether a reboot is required was asked, and if it is, the VM was shut down and seen stopped. */
  predicate Rebooted(calls: seq<Call>, n: ClusterNode) {
    || Call.Ssh(n, RebootCheck(false), true) in calls
    || (Call.Ssh(n, RebootCheck(true), true) in calls && Call.Shutdown(n, true) in calls && Call.Poll(n, SawStopped) in calls)
  }

  lemma RebootHas(n: ClusterNode, seg: seq<Call>)
    requires RebootRun(n, seg, true)
    ensures Rebooted(seg, n)
  {
    if seg != [Call.Ssh(n, RebootCheck(false), true)] {
      var rest :| RestartRun(n, rest, true) && seg == [Call.Ssh(n, RebootCheck(true), true)] + rest;
      assert seg[0] == Call.Ssh(n, RebootCheck(true), true);
      RestartHas(n, rest);
    }
  }

  lemma RestartHas(n: ClusterNode, rest: seq<Call>)
    requires RestartRun(n, rest, true)
    ensures Call.Shutdown(n, true) in rest && Call.Poll(n, SawStopped) in rest
  {
    var stop, start :| StopRun(n, stop, true) && StartRun(n, start, true)
      && rest == [REBOOTING] + stop + [STARTING, Call.Start(n, true)] + start + if true then [STARTED] else [];
    StopFacts(n, stop, true);
    var down :| DownRun(n, down, [], false, true) && stop == [Call.Shutdown(n, true)] + down;
    assert stop[0] == Call.Shutdown(n, true);
    assert forall c :: c in stop ==> c in rest;
  }

  /** The plan sends this node through all stages up to readiness. */
  ghost predicate Sends(plan: seq<Task>, n: ClusterNode, entries: set<Entry>, free: bool) {
    && Build(n, free) in plan && PowerOn(n) in plan && AwaitStart(n) in plan && Reboot(n) in plan
    && Equip(n, entries) in plan && Order(n, Install) in plan && Order(n, WaitReady) in plan
  }

  /** Before the call at `j`, the earlier stages of this node were all completed: if it is a start or
      anything later, the VM had been created and its disk grown; if it touches a hosts file or comes later, the
      VM had been started, seen running, logged in to and, if required, rebooted; if Kubernetes is installed,
      this node had got every host in both files; if a node is asked whether it is ready, this one had been installed; and if a node
      joins, this one had been found ready. */
  ghost predicate NodeFirst(calls: seq<Call>, j: nat, n: ClusterNode, entries: set<Entry>)
    requires j < |calls|
  {
    && VmFirst(calls, j, n)
    && (Stage(calls[j]) >= 4 ==> forall e :: e in entries ==>
          Call.Ssh(n, AddTemplateHost(e), true) in calls[..j] && Call.Ssh(n, AddHost(e), true) in calls[..j])
    && (Stage(calls[j]) >= 5 ==> Call.Ssh(n, Install, true) in calls[..j])
    && (Stage(calls[j]) >= 6 ==> Call.Ssh(n, WaitReady, true) in calls[..j])
  }

  ghost predicate VmFirst(calls: seq<Call>, j: nat, n: ClusterNode)
    requires j < |calls|
  {
    && (Stage(calls[j]) >= 2 ==> Call.Create(n, true) in calls[..j] && Call.GrowDisk(n, true) in calls[..j])
    && (Stage(calls[j]) >= 3 ==>
          Call.Start(n, true) in calls[..j] && Call.Poll(n, SawRunning) in calls[..j] && Call.Ssh(n, CloudInit, true) in calls[..j]
          && Rebooted(calls[..j], n))
  }

  lemma VmStagesFirst(plan: seq<Task>, calls: seq<Call>, ok: bool, n: ClusterNode, free: bool, j: nat)
    requires Ranked(plan, calls, ok) && Build(n, free) in plan && PowerOn(n) in plan && AwaitStart(n) in plan && Reboot(n) in plan && j < |calls|
    ensures VmFirst(calls, j, n)
  {
    if Stage(calls[j]) >= 2 { BuiltFirst(plan, calls, ok, n, free, j); }
    if Stage(calls[j]) >= 3 {
      StartedFirst(plan, calls, ok, n, j);
      RebootedFirst(plan, calls, ok, n, j);
    }
  }

  lemma RebootedFirst(plan: seq<Task>, calls: seq<Call>, ok: bool, n: ClusterNode, j: nat)
    requires Ranked(plan, calls, ok) && Reboot(n) in plan && j < |calls| && Stage(calls[j]) >= 3
    ensures Rebooted(calls[..j], n)
  {
    var seg := DoneBefore(plan, calls, ok, Rank, StageOf, j, Reboot(n));
    RebootHas(n, seg);
  }

  lemma StagesFirst(plan: seq<Task>, calls: seq<Call>, ok: bool, n: ClusterNode, entries: set<Entry>, free: bool, j: nat)
    requires Ranked(plan, calls, ok) && Sends(plan, n, entries, free) && j < |calls|
    ensures NodeFirst(calls, j, n, entries)
  {
    VmStagesFirst(plan, calls, ok, n, free, j);
    if Stage(calls[j]) >= 4 { EquippedFirst(plan, calls, ok, n, entries, j); }
    if Stage(calls[j]) >= 5 { OrderedFirst(plan, calls, ok, n, Install, j); }
    if Stage(calls[j]) >= 6 { OrderedFirst(plan, calls, ok, n, WaitReady, j); }
  }

  /** In a creation, every node of the record goes through each stage before any node enters a later
      one, however the creation ends. */
  lemma EveryNodeFirst(c: string, r: Cluster, listing: map<nat, string>, ids: set<nat>, calls: seq<Call>, ok: bool, n: ClusterNode, j: nat)
    requires Ran(CreationPlan(c, r, listing, ids), calls, ok) && n in r.nodes && j < |calls|
    ensures NodeFirst(calls, j, n, Entries(HostMap(c, r.nodes)))
  {
    var plan, free := CreationPlan(c, r, listing, ids), n.vmId !in listing.Keys + ids;
    CreationRanked(c, r, listing, ids, calls, ok);
    NodeTasks(c, r, listing, ids, n);
    assert Sends(plan, n, Entries(HostMap(c, r.nodes)), free);
    StagesFirst(plan, calls, ok, n, Entries(HostMap(c, r.nodes)), free, j);
  }

  lemma CreationRanked(c: string, r: Cluster, listing: map<nat, string>, ids: set<nat>, calls: seq<Call>, ok: bool)
    requires Ran(CreationPlan(c, r, listing, ids), calls, ok)
    ensures Ranked(CreationPlan(c, r, listing, ids), calls, ok)
  {
    var plan := CreationPlan(c, r, listing, ids);
    CreationFine(c, r, listing, ids);
    FineIs(plan, 1, 10);
    CallsKeepRank(plan);
  }

  lemma OrderedFirst(plan: seq<Task>, calls: seq<Call>, ok: bool, n: ClusterNode, command: Command, j: nat)
    requires Ranked(plan, calls, ok) && Order(n, command) in plan && j < |calls| && 0 < CommandStage(command) < Stage(calls[j])
    ensures Call.Ssh(n, command, true) in calls[..j]
  {
    var seg := DoneBefore(plan, calls, ok, Rank, StageOf, j, Order(n, command));
  }

  /** The plan may be carried out by looking at ranks only. */
  ghost predicate Ranked(plan: seq<Task>, calls: seq<Call>, ok: bool) {
    Ran(plan, calls, ok) && Ordered(plan, Rank) && Bounded(plan, Rank, StageOf)
  }

  lemma BuiltFirst(plan: seq<Task>, calls: seq<Call>, ok: bool, n: ClusterNode, free: bool, j: nat)
    requires Ranked(plan, calls, ok) && Build(n, free) in plan && j < |calls| && Stage(calls[j]) >= 2
    ensures Call.Create(n, true) in calls[..j] && Call.GrowDisk(n, true) in calls[..j]
  {
    var seg := DoneBefore(plan, calls, ok, Rank, StageOf, j, Build(n, free));
    BuildHas(n, seg);
  }

  lemma StartedFirst(plan: seq<Task>, calls: seq<Call>, ok: bool, n: ClusterNode, j: nat)
    requires Ranked(plan, calls, ok) && PowerOn(n) in plan && AwaitStart(n) in plan && j < |calls| && Stage(calls[j]) >= 3
    ensures Call.Start(n, true) in calls[..j] && Call.Poll(n, SawRunning) in calls[..j] && Call.Ssh(n, CloudInit, true) in calls[..j]
  {
    var start := DoneBefore(plan, calls, ok, Rank, StageOf, j, PowerOn(n));
    var wait := DoneBefore(plan, calls, ok, Rank, StageOf, j, AwaitStart(n));
    StartHas(n, wait);
  }

  lemma EquippedFirst(plan: seq<Task>, calls: seq<Call>, ok: bool, n: ClusterNode, entries: set<Entry>, j: nat)
    requires Ranked(plan, calls, ok) && Equip(n, entries) in plan && j < |calls| && Stage(calls[j]) >= 4
    ensures forall e :: e in entries ==> Call.Ssh(n, AddTemplateHost(e), true) in calls[..j] && Call.Ssh(n, AddHost(e), true) in calls[..j]
  {
    var seg := DoneBefore(plan, calls, ok, Rank, StageOf, j, Equip(n, entries));
    forall e | e in entries ensures Call.Ssh(n, AddTemplateHost(e), true) in calls[..j] && Call.Ssh(n, AddHost(e), true) in calls[..j] {
      EquipHas(n, entries, seg, e);
    }
  }

  // ------------------------------------------------------------ what was asked for, in order

  const Creates: Call -> bool := (c: Call) => c.Create?
  const Joins: Call -> bool := (c: Call) => c.Ssh? && c.command.Join?
  const Tokens: Call -> bool := (c: Call) => c.Ssh? && c.command.AddNodeToken?
  const Furnishes: Call -> bool := (c: Call) => Stage(c) >= 8

  const AskCreate: Task -> seq<Call> := (t: Task) => if t.Build? then [Call.Create(t.node, true)] else []
  const AskJoin: Task -> seq<Call> := (t: Task) => if t.Enroll? then [JoinOf(t.node)] else []
  const AskFurnish: Task -> seq<Call> := (t: Task) =>
    if t.Order? && CommandStage(t.command) >= 8 then [Call.Ssh(t.node, t.command, true)] else []

  function JoinOf(n: ClusterNode): Call {
    Call.Ssh(n, Join(n.nodeType == Worker), true)
  }

  lemma NotKept(seg: seq<Call>, keep: Call -> bool)
    requires forall c :: c in seg ==> !keep(c)
    ensures Filter(seg, keep) == [] && UpTo(Filter(seg, keep), [], 0)
  {
    FilterNone(seg, keep);
  }

  lemma BuildAsks(n: ClusterNode, seg: seq<Call>, ok: bool)
    requires BuildRun(n, seg, ok)
    ensures if ok then Filter(seg, Creates) == [Call.Create(n, true)] else exists j :: UpTo(Filter(seg, Creates), [Call.Create(n, true)], j)
  {
    if !ok && ImageRun(seg, false) {
      ImageAsksNone(seg, false);
      assert UpTo(Filter(seg, Creates), [Call.Create(n, true)], 0);
    } else if image :| !ok && ImageRun(image, true) && seg == image + [Call.Create(n, false)] {
      RefusalAsks(n, image);
    } else {
      var image, growth :| ImageRun(image, true) && GrowthRun(n, growth, ok) && seg == image + [Call.Create(n, true)] + growth;
      CreateInside(n, image, true, growth);
      assert UpTo(Filter(seg, Creates), [Call.Create(n, true)], 1);
    }
  }

  lemma ImageAsksNone(image: seq<Call>, ok: bool)
    requires ImageRun(image, ok)
    ensures Filter(image, Creates) == []
  {
    forall c | c in image ensures !Creates(c) { ImageStage(image, ok, c); }
    FilterNone(image, Creates);
  }

  lemma RefusalAsks(n: ClusterNode, image: seq<Call>)
    requires ImageRun(image, true)
    ensures UpTo(Filter(image + [Call.Create(n, false)], Creates), [Call.Create(n, true)], 0)
  {
    ImageAsksNone(image, true);
    FilterOne(Call.Create(n, false), Creates);
    FilterAppend(image, [Call.Create(n, false)], Creates);
  }

  lemma CreateInside(n: ClusterNode, image: seq<Call>, granted: bool, growth: seq<Call>)
    requires ImageRun(image, true) && forall c :: c in growth ==> !c.Create?
    ensures Filter(image + [Call.Create(n, granted)] + growth, Creates) == [Call.Create(n, granted)]
  {
    ImageAsksNone(image, true);
    FilterNone(growth, Creates);
    FilterOne(Call.Create(n, granted), Creates);
    FilterAppend(image, [Call.Create(n, granted)], Creates);
    FilterAppend(image + [Call.Create(n, granted)], growth, Creates);
  }

  /** Which calls a task can make at all. */
  lemma CallKinds(t: Task, seg: seq<Call>, ok: bool, c: Call)
    requires Creative(t) && Runs(t, seg, ok) && c in seg
    ensures c.Create? ==> t.Build?
    ensures Joins(c) ==> t.Enroll?
    ensures Tokens(c) ==> t.Enroll? && c.node == t.master
    ensures (Stage(c) >= 8 ==> t.Order?) && !c.StatusSet?
  {
    if t.Build? {
      BuildKinds(t.node, t.free, seg, ok, c);
    } else if t.AwaitStart? || t.Reboot? || t.Equip? {
      BigTaskKinds(t, seg, ok, c);
    } else {
      SmallTaskKinds(t, seg, ok, c);
    }
  }

  lemma BuildKinds(n: ClusterNode, free: bool, seg: seq<Call>, ok: bool, c: Call)
    requires Runs(Build(n, free), seg, ok) && c in seg
    ensures Stage(c) <= 1 && !Joins(c) && !Tokens(c) && !c.StatusSet?
  {
    assert Run(Build(n, free), seg, ok);
    BuildStage(n, seg, ok, c);
  }

  lemma BigTaskKinds(t: Task, seg: seq<Call>, ok: bool, c: Call)
    requires (t.AwaitStart? || t.Reboot? || t.Equip?) && Runs(t, seg, ok) && c in seg
    ensures c.Noted? || 2 <= Stage(c) <= 3
  {
    assert Run(t, seg, ok);
    match t
    case AwaitStart(n) => StartStage(n, seg, ok, c);
    case Reboot(n) => RebootStage(n, seg, ok, c);
    case Equip(n, entries) => EquipStage(n, entries, seg, ok, c);
  }

  lemma SmallTaskKinds(t: Task, seg: seq<Call>, ok: bool, c: Call)
    requires Creative(t) && Runs(t, seg, ok) && c in seg && !t.Build? && !t.AwaitStart? && !t.Reboot? && !t.Equip?
    ensures !c.Create? && (Joins(c) ==> t.Enroll?) && (Tokens(c) ==> t.Enroll? && c.node == t.master) && (Stage(c) >= 8 ==> t.Order?) && !c.StatusSet?
  {
    assert Run(t, seg, ok);
    match t
    case Enroll(m, n) => assert Stage(c) <= 6 && !c.Create? && !c.StatusSet?;
    case FetchConfig(m) => assert Stage(c) <= 7 && !c.Create? && !Joins(c) && !Tokens(c) && !c.StatusSet?;
    case _ =>
  }

  lemma AsksCreate(t: Task)
    requires Creative(t)
    ensures Asks(t, Creates, AskCreate(t))
  {
    forall seg, ok | Run(t, seg, ok)
      ensures if ok then Filter(seg, Creates) == AskCreate(t) else exists j :: UpTo(Filter(seg, Creates), AskCreate(t), j)
    {
      if t.Build? && t.free {
        BuildAsks(t.node, seg, ok);
      } else {
        forall c | c in seg ensures !Creates(c) { CallKinds(t, seg, ok, c); }
        FilterNone(seg, Creates);
        assert UpTo([], AskCreate(t), 0);
      }
    }
  }

  lemma EnrollAsks(m: ClusterNode, n: ClusterNode, seg: seq<Call>, ok: bool)
    requires EnrollRun(m, n, seg, ok)
    ensures if ok then Filter(seg, Joins) == [JoinOf(n)] else exists j :: UpTo(Filter(seg, Joins), [JoinOf(n)], j)
  {
    var asked := Call.Ssh(n, Join(n.nodeType == Worker), ok);
    if seg == [ASKING, Call.Ssh(m, AddNodeToken(true), true), JOINING, asked] {
      var head := [ASKING, Call.Ssh(m, AddNodeToken(true), true), JOINING];
      assert seg == head + [asked];
      FilterNone(head, Joins);
      FilterOne(asked, Joins);
      FilterAppend(head, [asked], Joins);
      assert UpTo([asked], [JoinOf(n)], if ok then 1 else 0);
    } else {
      FilterNone(seg, Joins);
      assert UpTo([], [JoinOf(n)], 0);
    }
  }

  lemma AsksJoin(t: Task)
    requires Creative(t)
    ensures Asks(t, Joins, AskJoin(t))
  {
    forall seg, ok | Run(t, seg, ok)
      ensures if ok then Filter(seg, Joins) == AskJoin(t) else exists j :: UpTo(Filter(seg, Joins), AskJoin(t), j)
    {
      if t.Enroll? {
        EnrollAsks(t.master, t.node, seg, ok);
      } else {
        forall c | c in seg ensures !Joins(c) { CallKinds(t, seg, ok, c); }
        FilterNone(seg, Joins);
        assert UpTo([], AskJoin(t), 0);
      }
    }
  }

  lemma AsksFurnish(t: Task)
    requires Creative(t)
    ensures Asks(t, Furnishes, AskFurnish(t))
  {
    forall seg, ok | Run(t, seg, ok)
      ensures if ok then Filter(seg, Furnishes) == AskFurnish(t) else exists j :: UpTo(Filter(seg, Furnishes), AskFurnish(t), j)
    {
      if t.Order? && CommandStage(t.command) >= 8 {
        FilterOne(Call.Ssh(t.node, t.command, ok), Furnishes);
        assert UpTo(seg, AskFurnish(t), if ok then 1 else 0);
      } else {
        forall c | c in seg ensures !Furnishes(c) { CallKinds(t, seg, ok, c); CallsOfTask(t, seg, ok, c); }
        FilterNone(seg, Furnishes);
        assert UpTo([], AskFurnish(t), 0);
      }
    }
  }

  // ------------------------------------------------------------ what a creation wants

  function Creations(nodes: seq<ClusterNode>): seq<Call> {
    seq(|nodes|, i requires 0 <= i < |nodes| => Call.Create(nodes[i], true))
  }

  /** The joins that a cluster of these nodes needs. */
  function JoinsOf(nodes: seq<ClusterNode>): seq<Call> {
    if |nodes| == 1 || FindMaster(nodes).None? then [] else JoinEach(OfOtherId(nodes, FindMaster(nodes).value.vmId))
  }

  function JoinEach(nodes: seq<ClusterNode>): seq<Call> {
    seq(|nodes|, i requires 0 <= i < |nodes| => JoinOf(nodes[i]))
  }

  /** Addons, apps and resources, each once and in order, all on the first master. */
  function Furniture(r: Cluster): seq<Call> {
    match FindMaster(r.nodes)
    case None => []
    case Some(m) =>
      [Call.Ssh(m, Addon("dns"), true), Call.Ssh(m, Addon("helm3"), true)]
      + (([Call.Ssh(m, Connect, true)] + Releases(m, r.helmApps)) + ([Call.Ssh(m, Connect, true)] + Applications(m, r.clusterResources)))
  }

  function Releases(m: ClusterNode, apps: seq<HelmApp>): seq<Call> {
    seq(|apps|, i requires 0 <= i < |apps| => Call.Ssh(m, HelmRelease(apps[i]), true))
  }

  function Applications(m: ClusterNode, resources: seq<ClusterResource>): seq<Call> {
    seq(|resources|, i requires 0 <= i < |resources| => Call.Ssh(m, Apply(resources[i]), true))
  }

  /** Tasks of other ranks want none of the calls that count. */
  lemma OtherRanksWantNone(plan: seq<Task>, low: nat, high: nat)
    requires Fine(plan, low, high)
    ensures low > 1 ==> Wanted(plan, AskCreate) == []
    ensures low > 6 || high < 6 ==> Wanted(plan, AskJoin) == []
    ensures high < 8 ==> Wanted(plan, AskFurnish) == []
  {
    if low > 1 { LaterWantNoVms(plan, low, high); }
    if low > 6 || high < 6 { OthersWantNoJoins(plan, low, high); }
    if high < 8 { EarlierWantNoFurniture(plan, low, high); }
  }

  lemma LaterWantNoVms(plan: seq<Task>, low: nat, high: nat)
    requires Fine(plan, low, high) && low > 1
    ensures Wanted(plan, AskCreate) == []
  {
    FineIs(plan, low, high);
    forall t | t in plan ensures AskCreate(t) == [] { assert Creative(t) && (Rank(t) > 0 ==> Rank(t) > 1); }
    WantedNone(plan, AskCreate);
  }

  lemma OthersWantNoJoins(plan: seq<Task>, low: nat, high: nat)
    requires Fine(plan, low, high) && (low > 6 || high < 6)
    ensures Wanted(plan, AskJoin) == []
  {
    FineIs(plan, low, high);
    forall t | t in plan ensures AskJoin(t) == [] { assert Creative(t) && Rank(t) != 6; }
    WantedNone(plan, AskJoin);
  }

  lemma EarlierWantNoFurniture(plan: seq<Task>, low: nat, high: nat)
    requires Fine(plan, low, high) && high < 8
    ensures Wanted(plan, AskFurnish) == []
  {
    FineIs(plan, low, high);
    forall t | t in plan ensures AskFurnish(t) == [] { assert Creative(t) && Rank(t) < 8; }
    WantedNone(plan, AskFurnish);
  }

  lemma WantsFour(a: seq<Task>, b: seq<Task>, c: seq<Task>, d: seq<Task>, ask: Task -> seq<Call>)
    ensures Wanted(a + (b + (c + d)), ask) == Wanted(a, ask) + (Wanted(b, ask) + (Wanted(c, ask) + Wanted(d, ask)))
  {
    WantedAppend(c, d, ask);
    WantedAppend(b, c + d, ask);
    WantedAppend(a, b + (c + d), ask);
  }

  lemma WantsTwo(x: Task, y: Task, ask: Task -> seq<Call>)
    ensures Wanted([x, y], ask) == ask(x) + ask(y)
  {
    assert [x, y][1..] == [y] && [y][1..] == [];
    assert Wanted([y], ask) == ask(y) + Wanted([], ask);
  }

  lemma WantsOne(x: Task, ask: Task -> seq<Call>)
    ensures Wanted([x], ask) == ask(x)
  {
    assert [x][1..] == [] && Wanted([x], ask) == ask(x) + Wanted([], ask);
  }

  lemma BuildsWant(nodes: seq<ClusterNode>, used: set<nat>)
    ensures Wanted(Each(nodes, BuildTasks(used)), AskCreate) == Creations(nodes)
  {
    var one := (n: ClusterNode) => Call.Create(n, true);
    forall n | n in nodes ensures Wanted(BuildTasks(used)(n), AskCreate) == [one(n)] {
      WantsTwo(Build(n, n.vmId !in used), Tell(Info, "VM has been created"), AskCreate);
    }
    WantedEach(nodes, BuildTasks(used), AskCreate, one);
    assert Creations(nodes) == seq(|nodes|, i requires 0 <= i < |nodes| => one(nodes[i]));
  }

  lemma ProvisioningWants(nodes: seq<ClusterNode>, listing: map<nat, string>, ids: set<nat>)
    ensures Wanted(Provisioning(nodes, listing, ids), AskCreate) == Creations(nodes)
  {
    var surveys, builds := [Survey(listing), SurveyContainers(ids)], Each(nodes, BuildTasks(listing.Keys + ids));
    BootingFine(nodes);
    OtherRanksWantNone(Booting(nodes), 2, 2);
    BuildsWant(nodes, listing.Keys + ids);
    WantsTwo(Survey(listing), SurveyContainers(ids), AskCreate);
    WantedAppend(builds, Booting(nodes), AskCreate);
    WantedAppend(surveys, builds + Booting(nodes), AskCreate);
  }

  lemma CreationWantsVms(c: string, r: Cluster, listing: map<nat, string>, ids: set<nat>)
    ensures Wanted(CreationPlan(c, r, listing, ids), AskCreate) == Creations(r.nodes)
  {
    ProvisioningWants(r.nodes, listing, ids);
    ClusteringFine(c, r.nodes);
    FurnishingFine(r);
    OtherRanksWantNone(Clustering(c, r.nodes), 3, 6);
    OtherRanksWantNone(Furnishing(r), 7, 10);
    WantsTwo(Tell(Info, "Start creating cluster"), FetchWithKeys(r), AskCreate);
    WantsFour([Tell(Info, "Start creating cluster"), FetchWithKeys(r)], Provisioning(r.nodes, listing, ids), Clustering(c, r.nodes), Furnishing(r), AskCreate);
  }

  lemma EnrollsWant(m: ClusterNode, others: seq<ClusterNode>)
    ensures Wanted(Each(others, EnrollTasks(m)), AskJoin) == JoinEach(others)
  {
    var one := (n: ClusterNode) => JoinOf(n);
    forall n | n in others ensures Wanted(EnrollTasks(m)(n), AskJoin) == [one(n)] { WantsOne(Enroll(m, n), AskJoin); }
    WantedEach(others, EnrollTasks(m), AskJoin, one);
    assert JoinEach(others) == seq(|others|, i requires 0 <= i < |others| => one(others[i]));
  }

  lemma JoiningWants(nodes: seq<ClusterNode>)
    ensures Wanted(Joining(nodes), AskJoin) == JoinsOf(nodes)
  {
    if |nodes| != 1 {
      match FindMaster(nodes)
      case None => WantsOne(Stuck, AskJoin);
      case Some(m) => EnrollsWant(m, OfOtherId(nodes, m.vmId));
    }
  }

  lemma ClusteringWants(c: string, nodes: seq<ClusterNode>)
    ensures Wanted(Clustering(c, nodes), AskJoin) == JoinsOf(nodes)
  {
    EquipsFine(nodes, Entries(HostMap(c, nodes)), "Configure VM");
    InstallsFine(nodes);
    ReadiesFine(nodes);
    var equips := Each(nodes, EquipTasks(Entries(HostMap(c, nodes)), "Configure VM"));
    OtherRanksWantNone(equips, 3, 3);
    OtherRanksWantNone(Each(nodes, InstallTasks), 4, 4);
    OtherRanksWantNone(Each(nodes, ReadyTasks), 5, 5);
    JoiningWants(nodes);
    WantsFour(equips, Each(nodes, InstallTasks), Each(nodes, ReadyTasks), Joining(nodes), AskJoin);
  }

  lemma CreationWantsJoins(c: string, r: Cluster, listing: map<nat, string>, ids: set<nat>)
    ensures Wanted(CreationPlan(c, r, listing, ids), AskJoin) == JoinsOf(r.nodes)
  {
    ProvisioningFine(r.nodes, listing, ids);
    ClusteringWants(c, r.nodes);
    FurnishingFine(r);
    OtherRanksWantNone(Provisioning(r.nodes, listing, ids), 1, 2);
    OtherRanksWantNone(Furnishing(r), 7, 10);
    WantsTwo(Tell(Info, "Start creating cluster"), FetchWithKeys(r), AskJoin);
    WantsFour([Tell(Info, "Start creating cluster"), FetchWithKeys(r)], Provisioning(r.nodes, listing, ids), Clustering(c, r.nodes), Furnishing(r), AskJoin);
  }

  lemma TellWants(message: string, rest: seq<Task>, ask: Task -> seq<Call>)
    requires ask(Tell(Info, message)) == []
    ensures Wanted([Tell(Info, message)] + rest, ask) == Wanted(rest, ask)
  {
    WantsOne(Tell(Info, message), ask);
    WantedAppend([Tell(Info, message)], rest, ask);
  }

  lemma ConnectWants(m: ClusterNode, each: seq<Task>)
    ensures Wanted([Order(m, Connect)] + each, AskFurnish) == [Call.Ssh(m, Connect, true)] + Wanted(each, AskFurnish)
  {
    WantsOne(Order(m, Connect), AskFurnish);
    WantedAppend([Order(m, Connect)], each, AskFurnish);
  }

  lemma AppsWant(m: ClusterNode, apps: seq<HelmApp>)
    ensures Wanted([Order(m, Connect)] + Each(apps, AppTasks(m)), AskFurnish) == [Call.Ssh(m, Connect, true)] + Releases(m, apps)
  {
    ReleasesWanted(m, apps);
    ConnectWants(m, Each(apps, AppTasks(m)));
  }

  lemma ReleasesWanted(m: ClusterNode, apps: seq<HelmApp>)
    ensures Wanted(Each(apps, AppTasks(m)), AskFurnish) == Releases(m, apps)
  {
    var one := (app: HelmApp) => Call.Ssh(m, HelmRelease(app), true);
    forall app | app in apps ensures Wanted(AppTasks(m)(app), AskFurnish) == [one(app)] {
      WantsTwo(Tell(Info, "Install Helm app"), Order(m, HelmRelease(app)), AskFurnish);
    }
    WantedEach(apps, AppTasks(m), AskFurnish, one);
    assert Releases(m, apps) == seq(|apps|, i requires 0 <= i < |apps| => one(apps[i]));
  }

  lemma AppliesWant(m: ClusterNode, resources: seq<ClusterResource>)
    ensures Wanted([Order(m, Connect)] + Each(resources, ResourceTasks(m)), AskFurnish)
         == [Call.Ssh(m, Connect, true)] + Applications(m, resources)
  {
    ApplicationsWanted(m, resources);
    ConnectWants(m, Each(resources, ResourceTasks(m)));
  }

  lemma ApplicationsWanted(m: ClusterNode, resources: seq<ClusterResource>)
    ensures Wanted(Each(resources, ResourceTasks(m)), AskFurnish) == Applications(m, resources)
  {
    var one := (resource: ClusterResource) => Call.Ssh(m, Apply(resource), true);
    forall x | x in resources ensures Wanted(ResourceTasks(m)(x), AskFurnish) == [one(x)] {
      WantsTwo(Tell(Info, "Apply cluster resource"), Order(m, Apply(x)), AskFurnish);
    }
    WantedEach(resources, ResourceTasks(m), AskFurnish, one);
    assert Applications(m, resources) == seq(|resources|, i requires 0 <= i < |resources| => one(resources[i]));
  }

  lemma AddonsWant(m: ClusterNode)
    ensures Wanted([Order(m, Addon("dns")), Order(m, Addon("helm3"))], AskFurnish)
         == [Call.Ssh(m, Addon("dns"), true), Call.Ssh(m, Addon("helm3"), true)]
  {
    WantsTwo(Order(m, Addon("dns")), Order(m, Addon("helm3")), AskFurnish);
  }

  lemma HelmAppsWant(nodes: seq<ClusterNode>, apps: seq<HelmApp>)
    ensures Wanted(HelmApps(nodes, apps), AskFurnish) == match FindMaster(nodes)
      case None => []
      case Some(m) => [Call.Ssh(m, Connect, true)] + Releases(m, apps)
  {
    match FindMaster(nodes)
    case None =>
      WantsOne(Stuck, AskFurnish);
      TellWants("Install Helm apps", [Stuck], AskFurnish);
    case Some(m) =>
      AppsWant(m, apps);
      TellWants("Install Helm apps", [Order(m, Connect)] + Each(apps, AppTasks(m)), AskFurnish);
  }

  lemma ResourcesWant(nodes: seq<ClusterNode>, resources: seq<ClusterResource>)
    ensures Wanted(Resources(nodes, resources), AskFurnish) == match FindMaster(nodes)
      case None => []
      case Some(m) => [Call.Ssh(m, Connect, true)] + Applications(m, resources)
  {
    match FindMaster(nodes)
    case None =>
      WantsOne(Stuck, AskFurnish);
      TellWants("Install Cluster resources", [Stuck], AskFurnish);
    case Some(m) =>
      AppliesWant(m, resources);
      TellWants("Install Cluster resources", [Order(m, Connect)] + Each(resources, ResourceTasks(m)), AskFurnish);
  }

  lemma AllAddonsWant(nodes: seq<ClusterNode>)
    ensures Wanted(Addons(nodes), AskFurnish) == match FindMaster(nodes)
      case None => []
      case Some(m) => [Call.Ssh(m, Addon("dns"), true), Call.Ssh(m, Addon("helm3"), true)]
  {
    match FindMaster(nodes)
    case None =>
      WantsOne(Stuck, AskFurnish);
      TellWants("Enable MicroK8s addons: [dns, helm3]", [Stuck], AskFurnish);
    case Some(m) =>
      AddonsWant(m);
      TellWants("Enable MicroK8s addons: [dns, helm3]", [Order(m, Addon("dns")), Order(m, Addon("helm3"))], AskFurnish);
  }

  lemma FurnishingWants(r: Cluster)
    ensures Wanted(Furnishing(r), AskFurnish) == Furniture(r)
  {
    ConfigFine(r.nodes);
    OtherRanksWantNone(AskingForConfig(r.nodes), 7, 7);
    AllAddonsWant(r.nodes);
    HelmAppsWant(r.nodes, r.helmApps);
    ResourcesWant(r.nodes, r.clusterResources);
    WantsFour(AskingForConfig(r.nodes), Addons(r.nodes), HelmApps(r.nodes, r.helmApps), Resources(r.nodes, r.clusterResources), AskFurnish);
  }

  lemma CreationWantsFurniture(c: string, r: Cluster, listing: map<nat, string>, ids: set<nat>)
    ensures Wanted(CreationPlan(c, r, listing, ids), AskFurnish) == Furniture(r)
  {
    ProvisioningFine(r.nodes, listing, ids);
    ClusteringFine(c, r.nodes);
    OtherRanksWantNone(Provisioning(r.nodes, listing, ids), 1, 2);
    OtherRanksWantNone(Clustering(c, r.nodes), 3, 6);
    FurnishingWants(r);
    WantsTwo(Tell(Info, "Start creating cluster"), FetchWithKeys(r), AskFurnish);
    WantsFour([Tell(Info, "Start creating cluster"), FetchWithKeys(r)], Provisioning(r.nodes, listing, ids), Clustering(c, r.nodes), Furnishing(r), AskFurnish);
  }

  // ------------------------------------------------------------ the results

  /** Creations are asked for in the order of the record: those of the first `j` nodes are granted, and
      perhaps the next is refused, whose VM may exist in part all the same; no other is asked for. */
  lemma CreationsInOrder(c: string, r: Cluster, listing: map<nat, string>, ids: set<nat>, calls: seq<Call>, ok: bool) returns (j: nat)
    requires Ran(CreationPlan(c, r, listing, ids), calls, ok)
    ensures UpTo(Filter(calls, Creates), Creations(r.nodes), j) && (ok ==> Filter(calls, Creates) == Creations(r.nodes))
  {
    var plan := CreationPlan(c, r, listing, ids);
    AllCreative(c, r, listing, ids);
    forall t | t in plan ensures Asks(t, Creates, AskCreate(t)) { AsksCreate(t); }
    CreationWantsVms(c, r, listing, ids);
    j := PlanAsks(plan, calls, ok, Creates, AskCreate);
  }

  /** So are joins: every node with another id than the first master's, in its own role. */
  lemma JoinsInOrder(c: string, r: Cluster, listing: map<nat, string>, ids: set<nat>, calls: seq<Call>, ok: bool) returns (j: nat)
    requires Ran(CreationPlan(c, r, listing, ids), calls, ok)
    ensures UpTo(Filter(calls, Joins), JoinsOf(r.nodes), j) && (ok ==> Filter(calls, Joins) == JoinsOf(r.nodes))
  {
    var plan := CreationPlan(c, r, listing, ids);
    AllCreative(c, r, listing, ids);
    forall t | t in plan ensures Asks(t, Joins, AskJoin(t)) { AsksJoin(t); }
    CreationWantsJoins(c, r, listing, ids);
    j := PlanAsks(plan, calls, ok, Joins, AskJoin);
  }

  /** So are addons, apps and resources, all on the first master; a success has asked for them all. */
  lemma FurnishedInOrder(c: string, r: Cluster, listing: map<nat, string>, ids: set<nat>, calls: seq<Call>, ok: bool) returns (j: nat)
    requires Ran(CreationPlan(c, r, listing, ids), calls, ok)
    ensures UpTo(Filter(calls, Furnishes), Furniture(r), j) && (ok ==> Filter(calls, Furnishes) == Furniture(r))
  {
    var plan := CreationPlan(c, r, listing, ids);
    AllCreative(c, r, listing, ids);
    forall t | t in plan ensures Asks(t, Furnishes, AskFurnish(t)) { AsksFurnish(t); }
    CreationWantsFurniture(c, r, listing, ids);
    j := PlanAsks(plan, calls, ok, Furnishes, AskFurnish);
  }

  lemma AllCreative(c: string, r: Cluster, listing: map<nat, string>, ids: set<nat>)
    ensures forall t :: t in CreationPlan(c, r, listing, ids) ==> Creative(t)
  {
    CreationFine(c, r, listing, ids);
    FineIs(CreationPlan(c, r, listing, ids), 1, 10);
  }

  /** Before the first addon, the master with the least id has been asked for the configuration, and
      its answer has been stored. */
  lemma ConfigFirst(c: string, r: Cluster, listing: map<nat, string>, ids: set<nat>, calls: seq<Call>, ok: bool, j: nat)
      returns (m: ClusterNode, config: string)
    requires Ran(CreationPlan(c, r, listing, ids), calls, ok) && j < |calls| && Stage(calls[j]) >= 8
    ensures LeastMaster(r.nodes) == Some(m)
    ensures Call.Ssh(m, Kubeconfig(config), true) in calls[..j] && ConfigSaved(config, true) in calls[..j]
  {
    FurnishedHasMaster(c, r, listing, ids, calls, ok, calls[j]);
    m := LeastMaster(r.nodes).value;
    ConfigTask(c, r, listing, ids, m);
    CreationRanked(c, r, listing, ids, calls, ok);
    config := ConfigBefore(CreationPlan(c, r, listing, ids), calls, ok, m, j);
  }

  lemma FurnishedHasMaster(c: string, r: Cluster, listing: map<nat, string>, ids: set<nat>, calls: seq<Call>, ok: bool, call: Call)
    requires Ran(CreationPlan(c, r, listing, ids), calls, ok) && call in calls && Stage(call) >= 8
    ensures FindMaster(r.nodes).Some?
  {
    var j := FurnishedInOrder(c, r, listing, ids, calls, ok);
    FilterHas(calls, Furnishes, call);
  }

  lemma ConfigBefore(plan: seq<Task>, calls: seq<Call>, ok: bool, m: ClusterNode, j: nat) returns (config: string)
    requires Ranked(plan, calls, ok) && FetchConfig(m) in plan && j < |calls| && Stage(calls[j]) >= 8
    ensures Call.Ssh(m, Kubeconfig(config), true) in calls[..j] && ConfigSaved(config, true) in calls[..j]
  {
    var seg := DoneBefore(plan, calls, ok, Rank, StageOf, j, FetchConfig(m));
    assert exists x :: seg == [Call.Ssh(m, Kubeconfig(x), true), ConfigSaved(x, true)];
    config :| seg == [Call.Ssh(m, Kubeconfig(config), true), ConfigSaved(config, true)];
  }

  lemma ConfigTask(c: string, r: Cluster, listing: map<nat, string>, ids: set<nat>, m: ClusterNode)
    requires LeastMaster(r.nodes) == Some(m)
    ensures FetchConfig(m) in CreationPlan(c, r, listing, ids)
  {
    assert FetchConfig(m) in AskingForConfig(r.nodes);
    assert FetchConfig(m) in Furnishing(r);
  }

  /** If ids are distinct, the joins are one for every node except the first master. */
  lemma {:induction false} OthersOnce(nodes: seq<ClusterNode>, id: nat, n: ClusterNode)
    requires forall i, j :: 0 <= i < j < |nodes| ==> nodes[i].vmId != nodes[j].vmId
    ensures multiset(OfOtherId(nodes, id))[n] == if n in nodes && n.vmId != id then 1 else 0
  {
    if nodes != [] {
      var rest := nodes[1..];
      assert nodes == [nodes[0]] + rest;
      assert forall i :: 0 <= i < |rest| ==> rest[i] == nodes[i + 1];
      OthersOnce(rest, id, n);
      var head := if nodes[0].vmId != id then [nodes[0]] else [];
      assert multiset(head + OfOtherId(rest, id)) == multiset(head) + multiset(OfOtherId(rest, id));
    }
  }

  lemma {:induction false} JoinsOnce(others: seq<ClusterNode>, n: ClusterNode)
    ensures multiset(JoinEach(others))[JoinOf(n)] == multiset(others)[n]
  {
    if others != [] {
      var rest := others[1..];
      JoinsOnce(rest, n);
      assert others == [others[0]] + rest;
      assert JoinEach(others) == [JoinOf(others[0])] + JoinEach(rest);
    }
  }

  /** With distinct VM ids a successful creation joined every node except the first master, exactly
      once, as a worker exactly if it is one, and the first master never. */
  lemma EveryNodeJoinsOnce(c: string, r: Cluster, listing: map<nat, string>, ids: set<nat>, calls: seq<Call>, n: ClusterNode)
    requires Ran(CreationPlan(c, r, listing, ids), calls, true) && n in r.nodes
    requires forall i, j :: 0 <= i < j < |r.nodes| ==> r.nodes[i].vmId != r.nodes[j].vmId
    ensures FindMaster(r.nodes).Some?
    ensures multiset(Filter(calls, Joins))[JoinOf(n)] == if n == FindMaster(r.nodes).value then 0 else 1
  {
    SucceedsWithMaster(c, r, listing, ids, calls);
    var j := JoinsInOrder(c, r, listing, ids, calls, true);
    JoinsOfOnce(r.nodes, n);
  }

  lemma JoinsOfOnce(nodes: seq<ClusterNode>, n: ClusterNode)
    requires n in nodes && FindMaster(nodes).Some? && forall i, j :: 0 <= i < j < |nodes| ==> nodes[i].vmId != nodes[j].vmId
    ensures multiset(JoinsOf(nodes))[JoinOf(n)] == if n == FindMaster(nodes).value then 0 else 1
  {
    var m := FindMaster(nodes).value;
    var a :| 0 <= a < |nodes| && nodes[a] == n;
    var b :| 0 <= b < |nodes| && nodes[b] == m;
    if |nodes| != 1 {
      OthersOnce(nodes, m.vmId, n);
      JoinsOnce(OfOtherId(nodes, m.vmId), n);
      if n.vmId == m.vmId { assert a == b; }
    } else {
      assert a == b;
    }
  }

  lemma SucceedsWithMaster(c: string, r: Cluster, listing: map<nat, string>, ids: set<nat>, calls: seq<Call>)
    requires Ran(CreationPlan(c, r, listing, ids), calls, true)
    ensures FindMaster(r.nodes).Some?
  {
    if FindMaster(r.nodes).None? {
      StuckInside(c, r, listing, ids);
      NeverPastStuck(CreationPlan(c, r, listing, ids), calls);
    }
  }

  lemma StuckInside(c: string, r: Cluster, listing: map<nat, string>, ids: set<nat>)
    requires FindMaster(r.nodes).None?
    ensures Stuck in CreationPlan(c, r, listing, ids)
  {
    assert Stuck in AskingForConfig(r.nodes);
    assert Stuck in Furnishing(r);
  }

  lemma NeverPastStuck(plan: seq<Task>, calls: seq<Call>)
    requires Ran(plan, calls, true)
    ensures Stuck !in plan
  {
    var segs :| Split(plan, segs, true) && Flat(segs) == calls;
    forall i | 0 <= i < |plan| ensures plan[i] != Stuck { assert Run(plan[i], segs[i], true); }
  }

  // ------------------------------------------------------------ what a creation goes by

  /** The record as it was stored with the new keys. */
  predicate KeyedOn(calls: seq<Call>, r: Cluster) {
    |calls| > 1 && calls[1] == KeySaved(Some(r))
  }

  function CreationHead(r: Cluster, listing: map<nat, string>, ids: set<nat>): seq<Task> {
    [Tell(Info, "Start creating cluster"), FetchWithKeys(r), Survey(listing), SurveyContainers(ids)]
  }

  lemma CreationHasHead(c: string, r: Cluster, listing: map<nat, string>, ids: set<nat>) returns (rest: seq<Task>)
    ensures CreationPlan(c, r, listing, ids) == CreationHead(r, listing, ids) + rest
  {
    var builds := Each(r.nodes, BuildTasks(listing.Keys + ids)) + Booting(r.nodes);
    rest := builds + (Clustering(c, r.nodes) + Furnishing(r));
    Assoc([Survey(listing), SurveyContainers(ids)], builds, Clustering(c, r.nodes) + Furnishing(r));
    Assoc([Tell(Info, "Start creating cluster"), FetchWithKeys(r)], [Survey(listing), SurveyContainers(ids)], rest);
    assert [Tell(Info, "Start creating cluster"), FetchWithKeys(r)] + [Survey(listing), SurveyContainers(ids)] == CreationHead(r, listing, ids);
  }

  /** A creation that calls on any node works on the record that it stored with its keys, and on what its
      two listings showed. */
  lemma CreationGoesBy(c: string, r: Cluster, listing: map<nat, string>, ids: set<nat>, calls: seq<Call>, ok: bool)
    requires Ran(CreationPlan(c, r, listing, ids), calls, ok)
    ensures forall q :: KeyedOn(calls, q) ==> q == r
    ensures |calls| > 2 ==> KeyedOn(calls, r)
    ensures |calls| > 4 ==> calls[2] == ListVms(listing, true) && calls[3] == ListContainers(ids, true)
    ensures forall j :: 0 <= j < 4 && j < |calls| ==> !OnNode(calls[j])
  {
    var rest := CreationHasHead(c, r, listing, ids);
    HeadGoesBy(CreationHead(r, listing, ids), rest, r, listing, ids, calls, ok);
  }

  lemma HeadGoesBy(head: seq<Task>, rest: seq<Task>, r: Cluster, listing: map<nat, string>, ids: set<nat>, calls: seq<Call>, ok: bool)
    requires head == CreationHead(r, listing, ids) && Ran(head + rest, calls, ok)
    ensures forall q :: KeyedOn(calls, q) ==> q == r
    ensures |calls| > 2 ==> KeyedOn(calls, r)
    ensures |calls| > 4 ==> calls[2] == ListVms(listing, true) && calls[3] == ListContainers(ids, true)
    ensures forall j :: 0 <= j < 4 && j < |calls| ==> !OnNode(calls[j])
  {
    if |calls| > 0 { HeadCall(head, rest, r, listing, ids, calls, ok, 0); }
    if |calls| > 1 { HeadCall(head, rest, r, listing, ids, calls, ok, 1); }
    if |calls| > 2 { HeadCall(head, rest, r, listing, ids, calls, ok, 2); }
    if |calls| > 3 { HeadCall(head, rest, r, listing, ids, calls, ok, 3); }
  }

  lemma HeadCall(head: seq<Task>, rest: seq<Task>, r: Cluster, listing: map<nat, string>, ids: set<nat>, calls: seq<Call>, ok: bool, i: nat)
    requires head == CreationHead(r, listing, ids) && Ran(head + rest, calls, ok) && i < 4 && i < |calls|
    ensures !OnNode(calls[i])
    ensures i == 1 ==> (forall q :: calls[1] == KeySaved(Some(q)) ==> q == r) && (|calls| > 2 ==> calls[1] == KeySaved(Some(r)))
    ensures i == 2 && |calls| > 3 ==> calls[2] == ListVms(listing, true)
    ensures i == 3 && |calls| > 4 ==> calls[3] == ListContainers(ids, true)
  {
    var t, x, done := LeadingCall(head, rest, calls, ok, i);
    assert Run(t, [x], done) && [x][0] == x;
  }

  /** No VM is asked for under an id that one of the two listings showed. */
  lemma CreatesOnlyFree(c: string, r: Cluster, listing: map<nat, string>, ids: set<nat>, calls: seq<Call>, ok: bool, call: Call)
    requires Ran(CreationPlan(c, r, listing, ids), calls, ok) && call in calls && call.Create?
    ensures call.node.vmId !in listing && call.node.vmId !in ids
    ensures |calls| > 4 && calls[2] == ListVms(listing, true) && calls[3] == ListContainers(ids, true)
  {
    CreationGoesBy(c, r, listing, ids, calls, ok);
    var t, seg, done := CallHasTask(CreationPlan(c, r, listing, ids), calls, ok, call);
    AllCreative(c, r, listing, ids);
    CreateIsOfTask(t, seg, done, call);
    BuildsAreFree(c, r, listing, ids, t);
  }

  lemma CreateIsOfTask(t: Task, seg: seq<Call>, ok: bool, call: Call)
    requires Creative(t) && Run(t, seg, ok) && call in seg && call.Create?
    ensures t.Build? && t.free && call.node == t.node
  {
    CallKinds(t, seg, ok, call);
    BuildAsks(t.node, seg, ok);
    FilterHas(seg, Creates, call);
  }

  lemma BuildsAreFree(c: string, r: Cluster, listing: map<nat, string>, ids: set<nat>, t: Task)
    requires t in CreationPlan(c, r, listing, ids) && t.Build?
    ensures t.free <==> t.node.vmId !in listing && t.node.vmId !in ids
  {
    var used := listing.Keys + ids;
    if t in Each(r.nodes, BuildTasks(used)) {
      var n := EachIsOf(r.nodes, BuildTasks(used), t);
    } else {
      BuildsOnlyThere(c, r, listing, ids, t);
    }
  }

  lemma BuildsOnlyThere(c: string, r: Cluster, listing: map<nat, string>, ids: set<nat>, t: Task)
    requires t in CreationPlan(c, r, listing, ids) && t.Build?
    ensures t in Each(r.nodes, BuildTasks(listing.Keys + ids))
  {
    CreationParts(c, r, listing, ids, t);
    ClusteringFine(c, r.nodes);
    FineWithout(Clustering(c, r.nodes), 3, 6, t);
    FurnishingFine(r);
    FineWithout(Furnishing(r), 7, 10, t);
    BuildInProvisioning(r.nodes, listing, ids, t);
  }

  lemma BuildInProvisioning(nodes: seq<ClusterNode>, listing: map<nat, string>, ids: set<nat>, t: Task)
    requires t in Provisioning(nodes, listing, ids) && t.Build?
    ensures t in Each(nodes, BuildTasks(listing.Keys + ids))
  {
    BootingFine(nodes);
    FineWithout(Booting(nodes), 2, 2, t);
  }

  lemma CreationParts(c: string, r: Cluster, listing: map<nat, string>, ids: set<nat>, t: Task)
    requires t in CreationPlan(c, r, listing, ids) && (t.Build? || t.Enroll?)
    ensures t in Provisioning(r.nodes, listing, ids) || t in Clustering(c, r.nodes) || t in Furnishing(r)
  {
    InOneOf([Tell(Info, "Start creating cluster"), FetchWithKeys(r)], Provisioning(r.nodes, listing, ids), Clustering(c, r.nodes), Furnishing(r), t);
  }

  lemma InOneOf(a: seq<Task>, b: seq<Task>, c: seq<Task>, d: seq<Task>, t: Task)
    requires t in a + (b + (c + d))
    ensures t in a || t in b || t in c || t in d
  {
  }

  /** Every join token is asked of the first master. */
  lemma TokensFromMaster(c: string, r: Cluster, listing: map<nat, string>, ids: set<nat>, calls: seq<Call>, ok: bool, call: Call)
    requires Ran(CreationPlan(c, r, listing, ids), calls, ok) && call in calls && Tokens(call)
    ensures FindMaster(r.nodes) == Some(call.node)
  {
    var t, seg, done := CallHasTask(CreationPlan(c, r, listing, ids), calls, ok, call);
    AllCreative(c, r, listing, ids);
    CallKinds(t, seg, done, call);
    EnrollsWithMaster(c, r, listing, ids, t);
  }

  lemma EnrollsWithMaster(c: string, r: Cluster, listing: map<nat, string>, ids: set<nat>, t: Task)
    requires t in CreationPlan(c, r, listing, ids) && t.Enroll?
    ensures FindMaster(r.nodes) == Some(t.master)
  {
    CreationParts(c, r, listing, ids, t);
    ProvisioningFine(r.nodes, listing, ids);
    FineWithout(Provisioning(r.nodes, listing, ids), 1, 2, t);
    FurnishingFine(r);
    FineWithout(Furnishing(r), 7, 10, t);
    EnrollInClustering(c, r.nodes, t);
  }

  lemma EnrollInClustering(c: string, nodes: seq<ClusterNode>, t: Task)
    requires t in Clustering(c, nodes) && t.Enroll?
    ensures FindMaster(nodes) == Some(t.master)
  {
    var entries := Entries(HostMap(c, nodes));
    EquipsFine(nodes, entries, "Configure VM");
    FineWithout(Each(nodes, EquipTasks(entries, "Configure VM")), 3, 3, t);
    InstallsFine(nodes);
    FineWithout(Each(nodes, InstallTasks), 4, 4, t);
    ReadiesFine(nodes);
    FineWithout(Each(nodes, ReadyTasks), 5, 5, t);
    InOneOf(Each(nodes, EquipTasks(entries, "Configure VM")), Each(nodes, InstallTasks), Each(nodes, ReadyTasks), Joining(nodes), t);
    EnrollInJoining(nodes, t);
  }

  lemma EnrollInJoining(nodes: seq<ClusterNode>, t: Task)
    requires t in Joining(nodes) && t.Enroll?
    ensures FindMaster(nodes) == Some(t.master)
  {
    var m := FindMaster(nodes).value;
    var n := EachIsOf(OfOtherId(nodes, m.vmId), EnrollTasks(m), t);
  }
}
