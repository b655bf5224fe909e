/** Creating a cluster (core/src/dispatcher/usecase/create_cluster.rs): one loop over the nodes per
    stage, so that each stage is over for all nodes before the next begins. */
module CreateCluster {
  import opened Model
  import opened Records
  import opened HostFile
  import opened Machine
  import opened World
  import opened Plan
  import opened Common

  // ------------------------------------------------------------ the plan

  function BuildTasks(used: set<nat>): ClusterNode -> seq<Task> {
    (n: ClusterNode) => [Build(n, n.vmId !in used), Tell(Info, "VM has been created")]
  }

  const StartTasks: ClusterNode -> seq<Task> := (n: ClusterNode) => [PowerOn(n), Tell(Info, "Starting VM")]
  const AwaitTasks: ClusterNode -> seq<Task> := (n: ClusterNode) => [AwaitStart(n), Tell(Info, "VM has been started")]
  const RebootTasks: ClusterNode -> seq<Task> := (n: ClusterNode) => [Reboot(n)]
  const InstallTasks: ClusterNode -> seq<Task> := (n: ClusterNode) => Announced("Install Kubernetes on VM", n, Install)
  const ReadyTasks: ClusterNode -> seq<Task> := (n: ClusterNode) => Announced("Wait for Kubernetes on VM", n, WaitReady)

  function EnrollTasks(master: ClusterNode): ClusterNode -> seq<Task> {
    (n: ClusterNode) => [Enroll(master, n)]
  }

  function AppTasks(master: ClusterNode): HelmApp -> seq<Task> {
    (app: HelmApp) => Announced("Install Helm app", master, HelmRelease(app))
  }

  function ResourceTasks(master: ClusterNode): ClusterResource -> seq<Task> {
    (resource: ClusterResource) => Announced("Apply cluster resource", master, Apply(resource))
  }

  /** The nodes with another id, in order. */
  function OfOtherId(nodes: seq<ClusterNode>, id: nat): (r: seq<ClusterNode>)
    ensures forall n :: n in r <==> n in nodes && n.vmId != id
  {
    if nodes == [] then []
    else
      assert nodes == [nodes[0]] + nodes[1..];
      (if nodes[0].vmId != id then [nodes[0]] else []) + OfOtherId(nodes[1..], id)
  }

  /** The VMs are created, started and rebooted where necessary. */
  function Provisioning(nodes: seq<ClusterNode>, listing: map<nat, string>, ids: set<nat>): seq<Task> {
    [Survey(listing), SurveyContainers(ids)] + (Each(nodes, BuildTasks(listing.Keys + ids)) + Booting(nodes))
  }

  function Booting(nodes: seq<ClusterNode>): seq<Task> {
    Each(nodes, StartTasks) + (Each(nodes, AwaitTasks) + Each(nodes, RebootTasks))
  }

  /** Every other node joins the first master. */
  function Joining(nodes: seq<ClusterNode>): seq<Task> {
    if |nodes| == 1 then []
    else
      match FindMaster(nodes)
      case None => [Stuck]
      case Some(m) => Each(OfOtherId(nodes, m.vmId), EnrollTasks(m))
  }

  /** The hosts files are written, and Kubernetes is installed and joined. */
  function Clustering(cluster: string, nodes: seq<ClusterNode>): seq<Task> {
    Each(nodes, EquipTasks(Entries(HostMap(cluster, nodes)), "Configure VM"))
    + (Each(nodes, InstallTasks) + (Each(nodes, ReadyTasks) + Joining(nodes)))
  }

  function AskingForConfig(nodes: seq<ClusterNode>): seq<Task> {
    [Tell(Info, "Add kube config to project")]
    + match LeastMaster(nodes) { case None => [Stuck] case Some(m) => [FetchConfig(m)] }
  }

  function Addons(nodes: seq<ClusterNode>): seq<Task> {
    [Tell(Info, "Enable MicroK8s addons: [dns, helm3]")]
    + match FindMaster(nodes) { case None => [Stuck] case Some(m) => [Order(m, Addon("dns")), Order(m, Addon("helm3"))] }
  }

  function HelmApps(nodes: seq<ClusterNode>, apps: seq<HelmApp>): seq<Task> {
    [Tell(Info, "Install Helm apps")]
    + match FindMaster(nodes) { case None => [Stuck] case Some(m) => [Order(m, Connect)] + Each(apps, AppTasks(m)) }
  }

  function Resources(nodes: seq<ClusterNode>, resources: seq<ClusterResource>): seq<Task> {
    [Tell(Info, "Install Cluster resources")]
    + match FindMaster(nodes) { case None => [Stuck] case Some(m) => [Order(m, Connect)] + Each(resources, ResourceTasks(m)) }
  }

  /** Configuration, addons, apps and resources, all on a master. */
  function Furnishing(r: Cluster): seq<Task> {
    AskingForConfig(r.nodes) + (Addons(r.nodes) + (HelmApps(r.nodes, r.helmApps) + Resources(r.nodes, r.clusterResources)))
  }

  /** What a creation has to do, for the record `r` with its new keys, if a listing shows these VMs and
      these containers. */
  function CreationPlan(c: string, r: Cluster, listing: map<nat, string>, ids: set<nat>): seq<Task> {
    [Tell(Info, "Start creating cluster"), FetchWithKeys(r)]
    + (Provisioning(r.nodes, listing, ids) + (Clustering(c, r.nodes) + Furnishing(r)))
  }

  // ------------------------------------------------------------ creating the VMs

  /** The first `i` nodes were created. */
  ghost predicate Building(before: Work, now: Work, nodes: seq<ClusterNode>, used: set<nat>, i: nat) {
    && i <= |nodes|
    && Did(before.calls, now.calls, Each(nodes[..i], BuildTasks(used)), true)
    && now == before.(calls := now.calls, made := now.made, seen := now.seen)
    && forall n :: n in nodes[..i] ==> Ident(n) in now.made && Ident(n) in now.seen
  }

  /** A creation that broke off may have left a VM behind. */
  ghost predicate BuildFailed(before: Work, after: Work, nodes: seq<ClusterNode>, used: set<nat>) {
    && Did(before.calls, after.calls, Each(nodes, BuildTasks(used)), false)
    && after == before.(calls := after.calls, made := after.made, seen := after.seen, tainted := after.tainted)
  }

  lemma BuiltOne(before: Work, now: Work, after: Work, nodes: seq<ClusterNode>, used: set<nat>, i: nat, ok: bool)
    requires Building(before, now, nodes, used, i) && i < |nodes|
    requires Did(now.calls, after.calls, BuildTasks(used)(nodes[i]), ok) && Created(now, after, nodes[i], ok)
    ensures if ok then Building(before, after, nodes, used, i + 1) else BuildFailed(before, after, nodes, used)
  {
    EachStep(before.calls, now.calls, after.calls, nodes, i, BuildTasks(used), ok);
    assert nodes[..i + 1] == nodes[..i] + [nodes[i]];
  }

  /** A creation is in hand of these nodes of the record, and no hosts file has been written. */
  ghost predicate MayCreate(w: Work, nodes: seq<ClusterNode>) {
    w.event.CreateCluster? && w.snap.Some? && w.snap.value.nodes == nodes && w.wrote == {}
  }

  method CreateOne(w: World, n: ClusterNode, used: set<nat>) returns (r: Outcome)
    requires w.InEvent() && w.W().event.CreateCluster? && w.W().snap.Some? && n in w.W().snap.value.nodes && w.W().wrote == {}
    modifies w
    ensures w.InEvent() && w.Since(old(w.steps), old(w.s.dispatched))
    ensures Did(old(w.W()).calls, w.W().calls, BuildTasks(used)(n), r.Ok?) && Created(old(w.W()), w.W(), n, r.Ok?)
  {
    if n.vmId in used {
      OneBuilt(w.W().calls, n, false, [], false);
      assert w.W().calls + [] == w.W().calls;
      return Err("VM with this id already exists");
    }
    r := CreateAndLog(w, n);
  }

  method CreateAndLog(w: World, n: ClusterNode) returns (r: Outcome)
    requires w.InEvent() && w.W().event.CreateCluster? && w.W().snap.Some? && n in w.W().snap.value.nodes && w.W().wrote == {}
    modifies w
    ensures w.InEvent() && w.Since(old(w.steps), old(w.s.dispatched))
    ensures Did(old(w.W()).calls, w.W().calls, [Build(n, true), Tell(Info, "VM has been created")], r.Ok?)
    ensures Created(old(w.W()), w.W(), n, r.Ok?)
  {
    ghost var seg;
    r, seg := CreateVm(w, n);
    OneBuilt(old(w.W()).calls, n, true, seg, r.Ok?);
    if r.Ok? { w.Log(Info, "VM has been created"); }
  }

  lemma OneBuilt(c0: seq<Call>, n: ClusterNode, free: bool, seg: seq<Call>, ok: bool)
    requires Run(Build(n, free), seg, ok)
    ensures Did(c0, if ok then c0 + seg + [Noted(Info, "VM has been created")] else c0 + seg,
                [Build(n, free), Tell(Info, "VM has been created")], ok)
  {
    var build, tell := [Build(n, free)], Tell(Info, "VM has been created");
    DidOne(c0, Build(n, free), seg, ok);
    assert c0 + [] == c0 && build + [tell] == [Build(n, free), tell];
    if ok {
      DidOne(c0 + seg, tell, [Noted(Info, "VM has been created")], true);
      DidThen(c0, c0 + seg, c0 + seg + [Noted(Info, "VM has been created")], build, [tell], true);
    } else {
      DidBroken(c0, c0 + seg, build, [tell]);
    }
  }

  method CreateNext(w: World, nodes: seq<ClusterNode>, used: set<nat>, i: nat, ghost before: Work) returns (r: Outcome)
    requires w.InEvent() && MayCreate(before, nodes) && Building(before, w.W(), nodes, used, i) && i < |nodes|
    modifies w
    ensures w.InEvent() && w.Since(old(w.steps), old(w.s.dispatched))
    ensures if r.Ok? then Building(before, w.W(), nodes, used, i + 1) else BuildFailed(before, w.W(), nodes, used)
  {
    r := CreateOne(w, nodes[i], used);
    BuiltOne(before, old(w.W()), w.W(), nodes, used, i, r.Ok?);
  }

  method CreateUnusedVms(w: World, nodes: seq<ClusterNode>, used: set<nat>) returns (r: Outcome)
    requires w.InEvent() && MayCreate(w.W(), nodes)
    modifies w
    ensures w.InEvent() && w.Since(old(w.steps), old(w.s.dispatched))
    ensures if r.Ok? then Building(old(w.W()), w.W(), nodes, used, |nodes|) else BuildFailed(old(w.W()), w.W(), nodes, used)
  {
    ghost var w0 := w.W();
    DidNothing(w0.calls);
    for i := 0 to |nodes|
      invariant w.InEvent() && w.Since(old(w.steps), old(w.s.dispatched))
      invariant Building(w0, w.W(), nodes, used, i)
    {
      r := CreateNext(w, nodes, used, i, w0);
      if r.Err? { return; }
    }
    r := Ok(());
  }

  /** The VMs and containers of the host. */
  method ListUsedIds(w: World) returns (r: Outcome, listing: map<nat, string>, ids: set<nat>)
    requires w.InEvent() && w.W().snap.Some?
    modifies w
    ensures w.InEvent() && w.Since(old(w.steps), old(w.s.dispatched))
    ensures Did(old(w.W()).calls, w.W().calls, [Survey(listing), SurveyContainers(ids)], r.Ok?)
    ensures w.W() == old(w.W()).(calls := w.W().calls, listed := w.W().listed, seen := w.W().seen, gone := w.W().gone)
  {
    ghost var c0 := w.W().calls;
    listing, ids := map[], {};
    var vms := w.ListVms();
    if vms.Err? {
      UsedIds(c0, listing, ids, false, false);
      return Err(vms.error), listing, ids;
    }
    listing := vms.value;
    var containers := w.ListContainers();
    if containers.Ok? { ids := containers.value; }
    UsedIds(c0, listing, ids, true, containers.Ok?);
    r := if containers.Ok? then Ok(()) else Err(containers.error);
  }

  lemma UsedIds(c0: seq<Call>, listing: map<nat, string>, ids: set<nat>, first: bool, ok: bool)
    requires ok ==> first
    requires !first ==> listing == map[]
    requires first && !ok ==> ids == {}
    ensures Did(c0, if first then c0 + [ListVms(listing, true)] + [ListContainers(ids, ok)] else c0 + [ListVms(listing, false)],
                [Survey(listing), SurveyContainers(ids)], ok)
  {
    assert [Survey(listing)] + [SurveyContainers(ids)] == [Survey(listing), SurveyContainers(ids)];
    DidOne(c0, Survey(listing), [ListVms(listing, first)], first);
    var c1 := c0 + [ListVms(listing, first)];
    if first {
      DidOne(c1, SurveyContainers(ids), [ListContainers(ids, ok)], ok);
      DidThen(c0, c1, c1 + [ListContainers(ids, ok)], [Survey(listing)], [SurveyContainers(ids)], ok);
    } else {
      DidBroken(c0, c1, [Survey(listing)], [SurveyContainers(ids)]);
    }
  }

  // ------------------------------------------------------------ starting them

  /** The nodes' VMs were listed or made. */
  ghost predicate MayPowerAll(w: Work, nodes: seq<ClusterNode>) {
    w.snap.Some? && forall n :: n in nodes ==> MayPower(w, n)
  }

  method StartOne(w: World, n: ClusterNode) returns (r: Outcome)
    requires w.InEvent() && w.W().snap.Some? && MayPower(w.W(), n)
    modifies w
    ensures w.InEvent() && w.Since(old(w.steps), old(w.s.dispatched))
    ensures Just(old(w.W()), w.W(), StartTasks(n), r.Ok?)
  {
    r := w.Start(n);
    JustOne(old(w.W()), PowerOn(n), [Call.Start(n, r.Ok?)], r.Ok?);
    ghost var w1, tell := w.W(), [Tell(Info, "Starting VM")];
    assert [PowerOn(n)] + tell == StartTasks(n);
    if r.Err? {
      JustBroken(old(w.W()), w1, [PowerOn(n)], tell);
    } else {
      LogOnly(w, "Starting VM");
      JustThen(old(w.W()), w1, w.W(), [PowerOn(n)], tell, true);
    }
  }

  method StartVms(w: World, nodes: seq<ClusterNode>) returns (r: Outcome)
    requires w.InEvent() && MayPowerAll(w.W(), nodes)
    modifies w
    ensures w.InEvent() && w.Since(old(w.steps), old(w.s.dispatched))
    ensures Just(old(w.W()), w.W(), Each(nodes, StartTasks), r.Ok?)
  {
    ghost var w0 := w.W();
    JustNone(w0, nodes, StartTasks);
    for i := 0 to |nodes|
      invariant w.InEvent() && w.Since(old(w.steps), old(w.s.dispatched)) && JustEach(w0, w.W(), nodes, StartTasks, i)
    {
      ghost var w1 := w.W();
      assert MayPower(w0, nodes[i]);
      r := StartOne(w, nodes[i]);
      JustNext(w0, w1, w.W(), nodes, StartTasks, i, r.Ok?);
      if r.Err? { return; }
    }
    JustAll(w0, w.W(), nodes, StartTasks);
    r := Ok(());
  }

  method AwaitOne(w: World, n: ClusterNode) returns (r: Outcome)
    requires w.InEvent()
    modifies w
    ensures w.InEvent() && w.Since(old(w.steps), old(w.s.dispatched))
    ensures Just(old(w.W()), w.W(), AwaitTasks(n), r.Ok?)
  {
    ghost var seg;
    r, seg := WaitForStart(w, n);
    JustOne(old(w.W()), AwaitStart(n), seg, r.Ok?);
    ghost var w1, tell := w.W(), [Tell(Info, "VM has been started")];
    assert [AwaitStart(n)] + tell == AwaitTasks(n);
    if r.Err? {
      JustBroken(old(w.W()), w1, [AwaitStart(n)], tell);
    } else {
      LogOnly(w, "VM has been started");
      JustThen(old(w.W()), w1, w.W(), [AwaitStart(n)], tell, true);
    }
  }

  method WaitForVmsStart(w: World, nodes: seq<ClusterNode>) returns (r: Outcome)
    requires w.InEvent()
    modifies w
    ensures w.InEvent() && w.Since(old(w.steps), old(w.s.dispatched))
    ensures Just(old(w.W()), w.W(), Each(nodes, AwaitTasks), r.Ok?)
  {
    ghost var w0 := w.W();
    JustNone(w0, nodes, AwaitTasks);
    for i := 0 to |nodes|
      invariant w.InEvent() && w.Since(old(w.steps), old(w.s.dispatched)) && JustEach(w0, w.W(), nodes, AwaitTasks, i)
    {
      ghost var w1 := w.W();
      r := AwaitOne(w, nodes[i]);
      JustNext(w0, w1, w.W(), nodes, AwaitTasks, i, r.Ok?);
      if r.Err? { return; }
    }
    JustAll(w0, w.W(), nodes, AwaitTasks);
    r := Ok(());
  }

  method RestartVmsIfNecessary(w: World, nodes: seq<ClusterNode>) returns (r: Outcome)
    requires w.InEvent() && MayPowerAll(w.W(), nodes)
    modifies w
    ensures w.InEvent() && w.Since(old(w.steps), old(w.s.dispatched))
    ensures Just(old(w.W()), w.W(), Each(nodes, RebootTasks), r.Ok?)
  {
    ghost var w0 := w.W();
    JustNone(w0, nodes, RebootTasks);
    for i := 0 to |nodes|
      invariant w.InEvent() && w.Since(old(w.steps), old(w.s.dispatched)) && JustEach(w0, w.W(), nodes, RebootTasks, i)
    {
      ghost var w1, seg := w.W(), [];
      assert MayPower(w0, nodes[i]);
      r, seg := RestartVmIfNecessary(w, nodes[i]);
      JustOne(w1, Reboot(nodes[i]), seg, r.Ok?);
      JustNext(w0, w1, w.W(), nodes, RebootTasks, i, r.Ok?);
      if r.Err? { return; }
    }
    JustAll(w0, w.W(), nodes, RebootTasks);
    r := Ok(());
  }

  method Boot(w: World, nodes: seq<ClusterNode>) returns (r: Outcome)
    requires w.InEvent() && MayPowerAll(w.W(), nodes)
    modifies w
    ensures w.InEvent() && w.Since(old(w.steps), old(w.s.dispatched))
    ensures Just(old(w.W()), w.W(), Booting(nodes), r.Ok?)
  {
    ghost var w0, starts, waits, reboots := w.W(), Each(nodes, StartTasks), Each(nodes, AwaitTasks), Each(nodes, RebootTasks);
    r := StartVms(w, nodes);
    if r.Err? { JustBroken(w0, w.W(), starts, waits + reboots); return; }
    ghost var w1 := w.W();
    r := AwaitAndReboot(w, nodes);
    JustThen(w0, w1, w.W(), starts, waits + reboots, r.Ok?);
  }

  method AwaitAndReboot(w: World, nodes: seq<ClusterNode>) returns (r: Outcome)
    requires w.InEvent() && MayPowerAll(w.W(), nodes)
    modifies w
    ensures w.InEvent() && w.Since(old(w.steps), old(w.s.dispatched))
    ensures Just(old(w.W()), w.W(), Each(nodes, AwaitTasks) + Each(nodes, RebootTasks), r.Ok?)
  {
    ghost var w0 := w.W();
    r := WaitForVmsStart(w, nodes);
    if r.Err? { JustBroken(w0, w.W(), Each(nodes, AwaitTasks), Each(nodes, RebootTasks)); return; }
    ghost var w1 := w.W();
    r := RestartVmsIfNecessary(w, nodes);
    JustThen(w0, w1, w.W(), Each(nodes, AwaitTasks), Each(nodes, RebootTasks), r.Ok?);
  }

  // ------------------------------------------------------------ the VMs as a whole

  /** A creation has read its record, which has these nodes, and done nothing yet that leaves traces
      outside. */
  ghost predicate Starting(w: Work, nodes: seq<ClusterNode>) {
    w.event.CreateCluster? && w.snap.Some? && w.snap.value.nodes == nodes && w.wrote == {} && !w.tainted
  }

  /** The VMs exist and have been started. */
  ghost predicate Provisioned(before: Work, after: Work, nodes: seq<ClusterNode>) {
    && after.event == before.event && after.snap == before.snap && !after.tainted && after.wrote == {}
    && forall n :: n in nodes ==> Ident(n) in after.made && Ident(n) in after.seen
  }

  method CreateVms(w: World, nodes: seq<ClusterNode>) returns (r: Outcome, listing: map<nat, string>, ids: set<nat>)
    requires w.InEvent() && Starting(w.W(), nodes)
    modifies w
    ensures w.InEvent() && w.Since(old(w.steps), old(w.s.dispatched))
    ensures Did(old(w.W()).calls, w.W().calls,
                [Survey(listing), SurveyContainers(ids)] + Each(nodes, BuildTasks(listing.Keys + ids)), r.Ok?)
    ensures w.W().event == old(w.W()).event && w.W().snap == old(w.W()).snap
    ensures r.Ok? ==> Provisioned(old(w.W()), w.W(), nodes)
  {
    ghost var w0 := w.W();
    r, listing, ids := ListUsedIds(w);
    ghost var surveys, builds := [Survey(listing), SurveyContainers(ids)], Each(nodes, BuildTasks(listing.Keys + ids));
    if r.Err? { DidBroken(w0.calls, w.W().calls, surveys, builds); return; }
    ghost var w1 := w.W();
    r := CreateUnusedVms(w, nodes, listing.Keys + ids);
    assert nodes[..|nodes|] == nodes;
    DidThen(w0.calls, w1.calls, w.W().calls, surveys, builds, r.Ok?);
  }

  method ProvisionVms(w: World, nodes: seq<ClusterNode>) returns (r: Outcome, listing: map<nat, string>, ids: set<nat>)
    requires w.InEvent() && Starting(w.W(), nodes)
    modifies w
    ensures w.InEvent() && w.Since(old(w.steps), old(w.s.dispatched))
    ensures Did(old(w.W()).calls, w.W().calls, Provisioning(nodes, listing, ids), r.Ok?)
    ensures w.W().event == old(w.W()).event && w.W().snap == old(w.W()).snap
    ensures r.Ok? ==> Provisioned(old(w.W()), w.W(), nodes)
  {
    ghost var w0 := w.W();
    r, listing, ids := CreateVms(w, nodes);
    ghost var surveys, builds := [Survey(listing), SurveyContainers(ids)], Each(nodes, BuildTasks(listing.Keys + ids));
    Assoc(surveys, builds, Booting(nodes));
    if r.Err? { DidBroken(w0.calls, w.W().calls, surveys + builds, Booting(nodes)); return; }
    ghost var w1 := w.W();
    r := Boot(w, nodes);
    DidThen(w0.calls, w1.calls, w.W().calls, surveys + builds, Booting(nodes), r.Ok?);
  }

  // ------------------------------------------------------------ hosts files and Kubernetes

  method SetupVms(w: World, nodes: seq<ClusterNode>) returns (r: Outcome)
    requires w.InEvent() && w.W().event.CreateCluster? && w.W().snap.Some? && w.W().snap.value.nodes == nodes
    requires forall n :: n in nodes ==> Ident(n) in w.W().seen
    modifies w
    ensures w.InEvent() && w.Since(old(w.steps), old(w.s.dispatched))
    ensures var entries := Entries(HostMap(w.W().event.cluster, nodes));
      && Did(old(w.W()).calls, w.W().calls, Each(nodes, EquipTasks(entries, "Configure VM")), r.Ok?)
      && (r.Ok? ==> Equipping(old(w.W()), w.W(), nodes, entries, "Configure VM", |nodes|))
    ensures w.W() == old(w.W()).(calls := w.W().calls, wrote := w.W().wrote, tainted := w.W().tainted)
  {
    r := SetupEach(w, nodes, HostMap(w.s.mode.work.event.cluster, nodes), "Configure VM");
  }

  method InstallKubernetesOnAll(w: World, nodes: seq<ClusterNode>) returns (r: Outcome)
    requires w.InEvent() && w.W().snap.Some?
    modifies w
    ensures w.InEvent() && w.Since(old(w.steps), old(w.s.dispatched))
    ensures Just(old(w.W()), w.W(), Each(nodes, InstallTasks), r.Ok?)
  {
    ghost var w0 := w.W();
    JustNone(w0, nodes, InstallTasks);
    for i := 0 to |nodes|
      invariant w.InEvent() && w.Since(old(w.steps), old(w.s.dispatched)) && JustEach(w0, w.W(), nodes, InstallTasks, i)
    {
      ghost var w1 := w.W();
      r := InstallKubernetes(w, nodes[i]);
      JustNext(w0, w1, w.W(), nodes, InstallTasks, i, r.Ok?);
      if r.Err? { return; }
    }
    JustAll(w0, w.W(), nodes, InstallTasks);
    r := Ok(());
  }

  method WaitForKubernetesOnAll(w: World, nodes: seq<ClusterNode>) returns (r: Outcome)
    requires w.InEvent() && w.W().snap.Some?
    modifies w
    ensures w.InEvent() && w.Since(old(w.steps), old(w.s.dispatched))
    ensures Just(old(w.W()), w.W(), Each(nodes, ReadyTasks), r.Ok?)
  {
    ghost var w0 := w.W();
    JustNone(w0, nodes, ReadyTasks);
    for i := 0 to |nodes|
      invariant w.InEvent() && w.Since(old(w.steps), old(w.s.dispatched)) && JustEach(w0, w.W(), nodes, ReadyTasks, i)
    {
      ghost var w1 := w.W();
      r := WaitForReadyKubernetes(w, nodes[i]);
      JustNext(w0, w1, w.W(), nodes, ReadyTasks, i, r.Ok?);
      if r.Err? { return; }
    }
    JustAll(w0, w.W(), nodes, ReadyTasks);
    r := Ok(());
  }

  method JoinNodes(w: World, nodes: seq<ClusterNode>) returns (r: Outcome)
    requires w.InEvent() && w.W().snap.Some?
    modifies w
    ensures w.InEvent() && w.Since(old(w.steps), old(w.s.dispatched))
    ensures Just(old(w.W()), w.W(), Joining(nodes), r.Ok?)
  {
    ghost var w0 := w.W();
    if |nodes| == 1 {
      DidNothing(w0.calls);
      return Ok(());
    }
    var found := FindMaster(nodes);
    if found.None? {
      NoOneToAsk(w0);
      return Err("Cannot find any master node");
    }
    r := JoinOthers(w, found.value, OfOtherId(nodes, found.value.vmId));
  }

  method JoinOthers(w: World, master: ClusterNode, others: seq<ClusterNode>) returns (r: Outcome)
    requires w.InEvent() && w.W().snap.Some?
    modifies w
    ensures w.InEvent() && w.Since(old(w.steps), old(w.s.dispatched))
    ensures Just(old(w.W()), w.W(), Each(others, EnrollTasks(master)), r.Ok?)
  {
    ghost var w0 := w.W();
    JustNone(w0, others, EnrollTasks(master));
    for i := 0 to |others|
      invariant w.InEvent() && w.Since(old(w.steps), old(w.s.dispatched)) && JustEach(w0, w.W(), others, EnrollTasks(master), i)
    {
      ghost var w1 := w.W();
      r := JoinNodeToCluster(w, master, others[i]);
      JustNext(w0, w1, w.W(), others, EnrollTasks(master), i, r.Ok?);
      if r.Err? { return; }
    }
    JustAll(w0, w.W(), others, EnrollTasks(master));
    r := Ok(());
  }

  method ReadyAndJoin(w: World, nodes: seq<ClusterNode>) returns (r: Outcome)
    requires w.InEvent() && w.W().snap.Some?
    modifies w
    ensures w.InEvent() && w.Since(old(w.steps), old(w.s.dispatched))
    ensures Just(old(w.W()), w.W(), Each(nodes, ReadyTasks) + Joining(nodes), r.Ok?)
  {
    ghost var w0 := w.W();
    r := WaitForKubernetesOnAll(w, nodes);
    if r.Err? { JustBroken(w0, w.W(), Each(nodes, ReadyTasks), Joining(nodes)); return; }
    ghost var w1 := w.W();
    r := JoinNodes(w, nodes);
    JustThen(w0, w1, w.W(), Each(nodes, ReadyTasks), Joining(nodes), r.Ok?);
  }

  method SetupKubernetes(w: World, nodes: seq<ClusterNode>) returns (r: Outcome)
    requires w.InEvent() && w.W().snap.Some?
    modifies w
    ensures w.InEvent() && w.Since(old(w.steps), old(w.s.dispatched))
    ensures Just(old(w.W()), w.W(), Each(nodes, InstallTasks) + (Each(nodes, ReadyTasks) + Joining(nodes)), r.Ok?)
  {
    ghost var w0, rest := w.W(), Each(nodes, ReadyTasks) + Joining(nodes);
    r := InstallKubernetesOnAll(w, nodes);
    if r.Err? { JustBroken(w0, w.W(), Each(nodes, InstallTasks), rest); return; }
    ghost var w1 := w.W();
    r := ReadyAndJoin(w, nodes);
    JustThen(w0, w1, w.W(), Each(nodes, InstallTasks), rest, r.Ok?);
  }

  /** Every VM was made and knows all hosts. */
  ghost predicate Complete(w: Work, nodes: seq<ClusterNode>) {
    w.event.CreateCluster? && w.snap.Some? && w.snap.value.nodes == nodes && !w.tainted && CreateEvidence(w)
  }

  lemma HostsComplete(w0: Work, before: Work, after: Work, nodes: seq<ClusterNode>)
    requires Starting(w0, nodes) && Provisioned(w0, before, nodes)
    requires Equipping(before, after, nodes, Entries(HostMap(before.event.cluster, nodes)), "Configure VM", |nodes|)
    ensures Complete(after, nodes)
  {
    assert nodes[..|nodes|] == nodes;
  }

  lemma StillComplete(before: Work, after: Work, nodes: seq<ClusterNode>)
    requires Complete(before, nodes) && after == before.(calls := after.calls)
    ensures Complete(after, nodes)
  {
    forall n | n in after.snap.value.nodes
      ensures WroteAll(after, Ident(n), Entries(HostMap(after.event.cluster, after.snap.value.nodes)))
    {
      assert WroteAll(before, Ident(n), Entries(HostMap(before.event.cluster, before.snap.value.nodes)));
    }
  }

  method ClusterNodes(w: World, nodes: seq<ClusterNode>, ghost start: Work) returns (r: Outcome)
    requires w.InEvent() && Starting(start, nodes) && Provisioned(start, w.W(), nodes)
    modifies w
    ensures w.InEvent() && w.Since(old(w.steps), old(w.s.dispatched))
    ensures Did(old(w.W()).calls, w.W().calls, Clustering(w.W().event.cluster, nodes), r.Ok?)
    ensures w.W().event == old(w.W()).event && w.W().snap == old(w.W()).snap
    ensures r.Ok? ==> Complete(w.W(), nodes)
  {
    ghost var w0 := w.W();
    ghost var equips := Each(nodes, EquipTasks(Entries(HostMap(w0.event.cluster, nodes)), "Configure VM"));
    ghost var rest := Each(nodes, InstallTasks) + (Each(nodes, ReadyTasks) + Joining(nodes));
    r := SetupVms(w, nodes);
    if r.Err? { DidBroken(w0.calls, w.W().calls, equips, rest); return; }
    ghost var w1 := w.W();
    HostsComplete(start, w0, w1, nodes);
    r := SetupKubernetes(w, nodes);
    DidThen(w0.calls, w1.calls, w.W().calls, equips, rest, r.Ok?);
    StillComplete(w1, w.W(), nodes);
  }

  // ------------------------------------------------------------ after the joins

  /** `sort_by` on the VM id, then `first`: the first master with the least id. */
  function LeastMaster(nodes: seq<ClusterNode>): (r: Option<ClusterNode>)
    ensures r.None? <==> FindMaster(nodes).None?
    ensures r.Some? ==> r.value in nodes && r.value.nodeType == Master
    ensures r.Some? ==> forall n :: n in nodes && n.nodeType == Master ==> r.value.vmId <= n.vmId
  {
    if nodes == [] then None
    else
      assert nodes == [nodes[0]] + nodes[1..];
      var rest := LeastMaster(nodes[1..]);
      if nodes[0].nodeType != Master then rest
      else if rest.None? || nodes[0].vmId <= rest.value.vmId then Some(nodes[0])
      else rest
  }

  /** The answer of the master is stored, if the record is still there. */
  method FetchAndSave(w: World, m: ClusterNode) returns (r: Outcome, config: string)
    requires w.InEvent() && w.W().event.CreateCluster? && w.W().snap.Some?
    modifies w
    ensures w.InEvent() && w.Since(old(w.steps), old(w.s.dispatched))
    ensures Just(old(w.W()), w.W(), [FetchConfig(m)], r.Ok?)
    ensures r.Ok? ==> Saved(w.s.clusters, w.W().event.cluster, config)
  {
    config := *;
    r := w.Ask(m, Kubeconfig(""), Kubeconfig(config));
    if r.Err? {
      JustOne(old(w.W()), FetchConfig(m), [Call.Ssh(m, Kubeconfig(""), false)], false);
      return;
    }
    r := w.SaveConfig(config);
    FetchedAndSaved(old(w.W()), m, config, r.Ok?);
  }

  lemma FetchedAndSaved(w: Work, m: ClusterNode, config: string, ok: bool)
    ensures Just(w, Say(Say(w, Call.Ssh(m, Kubeconfig(config), true)), ConfigSaved(config, ok)), [FetchConfig(m)], ok)
  {
    var seg := [Call.Ssh(m, Kubeconfig(config), true), ConfigSaved(config, ok)];
    assert Run(FetchConfig(m), seg, ok);
    JustOne(w, FetchConfig(m), seg, ok);
    assert w.calls + [seg[0]] + [seg[1]] == w.calls + seg;
  }

  predicate Saved(clusters: map<string, Cluster>, c: string, config: string) {
    c in clusters && clusters[c].clusterConfig == config
  }

  method AddKubeconfig(w: World, nodes: seq<ClusterNode>) returns (r: Outcome, config: string)
    requires w.InEvent() && w.W().event.CreateCluster? && w.W().snap.Some?
    modifies w
    ensures w.InEvent() && w.Since(old(w.steps), old(w.s.dispatched))
    ensures Just(old(w.W()), w.W(), AskingForConfig(nodes), r.Ok?)
    ensures r.Ok? ==> Saved(w.s.clusters, w.W().event.cluster, config)
  {
    config := *;
    ghost var w0, tell := w.W(), [Tell(Info, "Add kube config to project")];
    LogOnly(w, "Add kube config to project");
    ghost var w1 := w.W();
    var first := LeastMaster(nodes);
    if first.None? {
      r := Err("Cannot get first master node");
      NoOneToAsk(w1);
      JustThen(w0, w1, w1, tell, [Stuck], false);
      return;
    }
    r, config := FetchAndSave(w, first.value);
    JustThen(w0, w1, w.W(), tell, [FetchConfig(first.value)], r.Ok?);
  }

  method EnableAddons(w: World, nodes: seq<ClusterNode>) returns (r: Outcome)
    requires w.InEvent() && w.W().snap.Some?
    modifies w
    ensures w.InEvent() && w.Since(old(w.steps), old(w.s.dispatched))
    ensures Just(old(w.W()), w.W(), Addons(nodes), r.Ok?)
  {
    ghost var w0, tell := w.W(), [Tell(Info, "Enable MicroK8s addons: [dns, helm3]")];
    LogOnly(w, "Enable MicroK8s addons: [dns, helm3]");
    ghost var w1 := w.W();
    var found := FindMaster(nodes);
    if found.None? {
      r := Err("Cannot find any master node");
      NoOneToAsk(w1);
      JustThen(w0, w1, w1, tell, [Stuck], false);
      return;
    }
    r := EnableOn(w, found.value);
    JustThen(w0, w1, w.W(), tell, [Order(found.value, Addon("dns")), Order(found.value, Addon("helm3"))], r.Ok?);
  }

  method EnableOn(w: World, m: ClusterNode) returns (r: Outcome)
    requires w.InEvent() && w.W().snap.Some?
    modifies w
    ensures w.InEvent() && w.Since(old(w.steps), old(w.s.dispatched))
    ensures Just(old(w.W()), w.W(), [Order(m, Addon("dns")), Order(m, Addon("helm3"))], r.Ok?)
  {
    ghost var w0, dns, helm := w.W(), [Order(m, Addon("dns"))], [Order(m, Addon("helm3"))];
    assert dns + helm == [Order(m, Addon("dns")), Order(m, Addon("helm3"))];
    r := RunCommand(w, m, Addon("dns"));
    if r.Err? { JustBroken(w0, w.W(), dns, helm); return; }
    ghost var w1 := w.W();
    r := RunCommand(w, m, Addon("helm3"));
    JustThen(w0, w1, w.W(), dns, helm, r.Ok?);
  }

  method InstallHelmApps(w: World, nodes: seq<ClusterNode>, apps: seq<HelmApp>) returns (r: Outcome)
    requires w.InEvent() && w.W().snap.Some?
    modifies w
    ensures w.InEvent() && w.Since(old(w.steps), old(w.s.dispatched))
    ensures Just(old(w.W()), w.W(), HelmApps(nodes, apps), r.Ok?)
  {
    ghost var w0, tell := w.W(), [Tell(Info, "Install Helm apps")];
    LogOnly(w, "Install Helm apps");
    ghost var w1 := w.W();
    var found := FindMaster(nodes);
    if found.None? {
      r := Err("Cannot find any master node");
      NoOneToAsk(w1);
      JustThen(w0, w1, w1, tell, [Stuck], false);
      return;
    }
    r := InstallAppsOn(w, found.value, apps);
    JustThen(w0, w1, w.W(), tell, [Order(found.value, Connect)] + Each(apps, AppTasks(found.value)), r.Ok?);
  }

  method InstallAppsOn(w: World, m: ClusterNode, apps: seq<HelmApp>) returns (r: Outcome)
    requires w.InEvent() && w.W().snap.Some?
    modifies w
    ensures w.InEvent() && w.Since(old(w.steps), old(w.s.dispatched))
    ensures Just(old(w.W()), w.W(), [Order(m, Connect)] + Each(apps, AppTasks(m)), r.Ok?)
  {
    ghost var w0, tasks := w.W(), Each(apps, AppTasks(m));
    r := RunCommand(w, m, Connect);
    if r.Err? { JustBroken(w0, w.W(), [Order(m, Connect)], tasks); return; }
    ghost var w1 := w.W();
    r := InstallEachApp(w, m, apps);
    JustThen(w0, w1, w.W(), [Order(m, Connect)], tasks, r.Ok?);
  }

  method InstallEachApp(w: World, m: ClusterNode, apps: seq<HelmApp>) returns (r: Outcome)
    requires w.InEvent() && w.W().snap.Some?
    modifies w
    ensures w.InEvent() && w.Since(old(w.steps), old(w.s.dispatched))
    ensures Just(old(w.W()), w.W(), Each(apps, AppTasks(m)), r.Ok?)
  {
    ghost var w0 := w.W();
    JustNone(w0, apps, AppTasks(m));
    for i := 0 to |apps|
      invariant w.InEvent() && w.Since(old(w.steps), old(w.s.dispatched)) && JustEach(w0, w.W(), apps, AppTasks(m), i)
    {
      ghost var w1 := w.W();
      r := LogAndSsh(w, m, HelmRelease(apps[i]), "Install Helm app");
      JustNext(w0, w1, w.W(), apps, AppTasks(m), i, r.Ok?);
      if r.Err? { return; }
    }
    JustAll(w0, w.W(), apps, AppTasks(m));
    r := Ok(());
  }

  method InstallClusterResources(w: World, nodes: seq<ClusterNode>, resources: seq<ClusterResource>) returns (r: Outcome)
    requires w.InEvent() && w.W().snap.Some?
    modifies w
    ensures w.InEvent() && w.Since(old(w.steps), old(w.s.dispatched))
    ensures Just(old(w.W()), w.W(), Resources(nodes, resources), r.Ok?)
  {
    ghost var w0, tell := w.W(), [Tell(Info, "Install Cluster resources")];
    LogOnly(w, "Install Cluster resources");
    ghost var w1 := w.W();
    var found := FindMaster(nodes);
    if found.None? {
      r := Err("Cannot find any master node");
      NoOneToAsk(w1);
      JustThen(w0, w1, w1, tell, [Stuck], false);
      return;
    }
    r := ApplyResourcesOn(w, found.value, resources);
    JustThen(w0, w1, w.W(), tell, [Order(found.value, Connect)] + Each(resources, ResourceTasks(found.value)), r.Ok?);
  }

  method ApplyResourcesOn(w: World, m: ClusterNode, resources: seq<ClusterResource>) returns (r: Outcome)
    requires w.InEvent() && w.W().snap.Some?
    modifies w
    ensures w.InEvent() && w.Since(old(w.steps), old(w.s.dispatched))
    ensures Just(old(w.W()), w.W(), [Order(m, Connect)] + Each(resources, ResourceTasks(m)), r.Ok?)
  {
    ghost var w0, tasks := w.W(), Each(resources, ResourceTasks(m));
    r := RunCommand(w, m, Connect);
    if r.Err? { JustBroken(w0, w.W(), [Order(m, Connect)], tasks); return; }
    ghost var w1 := w.W();
    r := ApplyEachResource(w, m, resources);
    JustThen(w0, w1, w.W(), [Order(m, Connect)], tasks, r.Ok?);
  }

  method ApplyEachResource(w: World, m: ClusterNode, resources: seq<ClusterResource>) returns (r: Outcome)
    requires w.InEvent() && w.W().snap.Some?
    modifies w
    ensures w.InEvent() && w.Since(old(w.steps), old(w.s.dispatched))
    ensures Just(old(w.W()), w.W(), Each(resources, ResourceTasks(m)), r.Ok?)
  {
    ghost var w0 := w.W();
    JustNone(w0, resources, ResourceTasks(m));
    for i := 0 to |resources|
      invariant w.InEvent() && w.Since(old(w.steps), old(w.s.dispatched)) && JustEach(w0, w.W(), resources, ResourceTasks(m), i)
    {
      ghost var w1 := w.W();
      r := LogAndSsh(w, m, Apply(resources[i]), "Apply cluster resource");
      JustNext(w0, w1, w.W(), resources, ResourceTasks(m), i, r.Ok?);
      if r.Err? { return; }
    }
    JustAll(w0, w.W(), resources, ResourceTasks(m));
    r := Ok(());
  }

  method InstallWorkloads(w: World, cluster: Cluster) returns (r: Outcome)
    requires w.InEvent() && w.W().snap.Some?
    modifies w
    ensures w.InEvent() && w.Since(old(w.steps), old(w.s.dispatched))
    ensures Just(old(w.W()), w.W(), HelmApps(cluster.nodes, cluster.helmApps) + Resources(cluster.nodes, cluster.clusterResources), r.Ok?)
  {
    ghost var w0 := w.W();
    ghost var apps, resources := HelmApps(cluster.nodes, cluster.helmApps), Resources(cluster.nodes, cluster.clusterResources);
    r := InstallHelmApps(w, cluster.nodes, cluster.helmApps);
    if r.Err? { JustBroken(w0, w.W(), apps, resources); return; }
    ghost var w1 := w.W();
    r := InstallClusterResources(w, cluster.nodes, cluster.clusterResources);
    JustThen(w0, w1, w.W(), apps, resources, r.Ok?);
  }

  method AddonsAndWorkloads(w: World, cluster: Cluster) returns (r: Outcome)
    requires w.InEvent() && w.W().snap.Some?
    modifies w
    ensures w.InEvent() && w.Since(old(w.steps), old(w.s.dispatched))
    ensures Just(old(w.W()), w.W(), Addons(cluster.nodes)
                + (HelmApps(cluster.nodes, cluster.helmApps) + Resources(cluster.nodes, cluster.clusterResources)), r.Ok?)
  {
    ghost var w0 := w.W();
    ghost var rest := HelmApps(cluster.nodes, cluster.helmApps) + Resources(cluster.nodes, cluster.clusterResources);
    r := EnableAddons(w, cluster.nodes);
    if r.Err? { JustBroken(w0, w.W(), Addons(cluster.nodes), rest); return; }
    ghost var w1 := w.W();
    r := InstallWorkloads(w, cluster);
    JustThen(w0, w1, w.W(), Addons(cluster.nodes), rest, r.Ok?);
  }

  method Furnish(w: World, cluster: Cluster) returns (r: Outcome)
    requires w.InEvent() && w.W().event.CreateCluster? && w.W().snap.Some?
    modifies w
    ensures w.InEvent() && w.Since(old(w.steps), old(w.s.dispatched))
    ensures Just(old(w.W()), w.W(), Furnishing(cluster), r.Ok?)
  {
    ghost var w0 := w.W();
    ghost var rest := Addons(cluster.nodes) + (HelmApps(cluster.nodes, cluster.helmApps) + Resources(cluster.nodes, cluster.clusterResources));
    var config;
    r, config := AddKubeconfig(w, cluster.nodes);
    if r.Err? { JustBroken(w0, w.W(), AskingForConfig(cluster.nodes), rest); return; }
    ghost var w1 := w.W();
    r := AddonsAndWorkloads(w, cluster);
    JustThen(w0, w1, w.W(), AskingForConfig(cluster.nodes), rest, r.Ok?);
  }

  // ------------------------------------------------------------ the whole of it

  method ClusterAndFurnish(w: World, cluster: Cluster, ghost start: Work) returns (r: Outcome)
    requires w.InEvent() && Starting(start, cluster.nodes) && Provisioned(start, w.W(), cluster.nodes)
    modifies w
    ensures w.InEvent() && w.Since(old(w.steps), old(w.s.dispatched)) && w.W().event == old(w.W()).event
    ensures Did(old(w.W()).calls, w.W().calls, Clustering(w.W().event.cluster, cluster.nodes) + Furnishing(cluster), r.Ok?)
    ensures r.Ok? ==> Complete(w.W(), cluster.nodes)
  {
    ghost var w0, clustering := w.W(), Clustering(w.W().event.cluster, cluster.nodes);
    r := ClusterNodes(w, cluster.nodes, start);
    if r.Err? { DidBroken(w0.calls, w.W().calls, clustering, Furnishing(cluster)); return; }
    ghost var w1 := w.W();
    r := Furnish(w, cluster);
    DidThen(w0.calls, w1.calls, w.W().calls, clustering, Furnishing(cluster), r.Ok?);
    StillComplete(w1, w.W(), cluster.nodes);
  }

  method BuildCluster(w: World, cluster: Cluster) returns (r: Outcome, listing: map<nat, string>, ids: set<nat>)
    requires w.InEvent() && Starting(w.W(), cluster.nodes)
    modifies w
    ensures w.InEvent() && w.Since(old(w.steps), old(w.s.dispatched)) && w.W().event == old(w.W()).event
    ensures Did(old(w.W()).calls, w.W().calls, Provisioning(cluster.nodes, listing, ids)
                + (Clustering(w.W().event.cluster, cluster.nodes) + Furnishing(cluster)), r.Ok?)
    ensures r.Ok? ==> Complete(w.W(), cluster.nodes)
  {
    ghost var w0, rest := w.W(), Clustering(w.W().event.cluster, cluster.nodes) + Furnishing(cluster);
    r, listing, ids := ProvisionVms(w, cluster.nodes);
    if r.Err? { DidBroken(w0.calls, w.W().calls, Provisioning(cluster.nodes, listing, ids), rest); return; }
    ghost var w1 := w.W();
    r := ClusterAndFurnish(w, cluster, w0);
    DidThen(w0.calls, w1.calls, w.W().calls, Provisioning(cluster.nodes, listing, ids), rest, r.Ok?);
  }

  /** `get_cluster`, `generate_ssh_keys`, `save_cluster`: the copy worked from has the new keys. */
  method FetchAndKey(w: World) returns (r: Result<Cluster, string>, ghost record: Cluster)
    requires w.InEvent() && w.W().event.CreateCluster? && w.W().made == {}
    modifies w
    ensures w.InEvent() && w.Since(old(w.steps), old(w.s.dispatched)) && w.W().event == old(w.W()).event
    ensures Did(old(w.W()).calls, w.W().calls, [FetchWithKeys(record)], r.Ok?)
    ensures r.Ok? ==> r.value == record && w.W() == WithSnap(old(w.W()), Some(record)).(calls := w.W().calls)
  {
    record := *;
    var key: string := *;
    var generated: bool := *;
    if !generated {
      var read := w.GetCluster();
      DidOne(old(w.W()).calls, FetchWithKeys(record), [RecordRead(read)], false);
      return Err(if read.None? then "Cannot find cluster" else "Generate SSH keys"), record;
    }
    var cluster := w.SaveKey(key);
    if cluster.None? {
      DidOne(old(w.W()).calls, FetchWithKeys(record), [KeySaved(None)], false);
      return Err("Cannot find cluster"), record;
    }
    record := cluster.value;
    DidOne(old(w.W()).calls, FetchWithKeys(record), [KeySaved(Some(record))], true);
    r := Ok(cluster.value);
  }

  method ReadAndBuild(w: World) returns (r: Outcome, ghost record: Cluster, ghost listing: map<nat, string>, ghost ids: set<nat>)
    requires w.InEvent() && w.W().event.CreateCluster? && w.W().made == {} && !w.W().tainted
    modifies w
    ensures w.InEvent() && w.Since(old(w.steps), old(w.s.dispatched)) && w.W().event == old(w.W()).event
    ensures Did(old(w.W()).calls, w.W().calls, [FetchWithKeys(record)] + (Provisioning(record.nodes, listing, ids)
                + (Clustering(w.W().event.cluster, record.nodes) + Furnishing(record))), r.Ok?)
    ensures r.Ok? ==> Evidence(w.W())
  {
    ghost var w0 := w.W();
    var cluster;
    cluster, record := FetchAndKey(w);
    listing, ids := map[], {};
    ghost var rest := Provisioning(record.nodes, listing, ids) + (Clustering(w0.event.cluster, record.nodes) + Furnishing(record));
    if cluster.Err? {
      DidBroken(w0.calls, w.W().calls, [FetchWithKeys(record)], rest);
      return Err(cluster.error), record, listing, ids;
    }
    ghost var w1 := w.W();
    r, listing, ids := BuildCluster(w, cluster.value);
    rest := Provisioning(record.nodes, listing, ids) + (Clustering(w0.event.cluster, record.nodes) + Furnishing(record));
    DidThen(w0.calls, w1.calls, w.W().calls, [FetchWithKeys(record)], rest, r.Ok?);
  }

  /** Some creation of a record of this name, with what its listings showed. */
  ghost predicate Creation(c: string, calls: seq<Call>, ok: bool) {
    exists record, listing, ids :: Ran(CreationPlan(c, record, listing, ids), calls, ok)
  }

  /** `create_cluster::execute`. Whatever happens, the calls carry out the plan for the record that was
      read, up to the first task that fails; a success comes with the evidence for it. */
  method Execute(w: World) returns (r: Outcome, ghost seg: seq<Call>)
    requires w.InEvent() && w.W().event.CreateCluster? && w.W().made == {} && !w.W().tainted
    modifies w
    ensures w.InEvent() && w.W().event == old(w.W()).event && w.Since(old(w.steps), old(w.s.dispatched))
    ensures w.W().calls == old(w.W()).calls + seg && Creation(w.W().event.cluster, seg, r.Ok?)
    ensures r.Ok? ==> Evidence(w.W())
  {
    ghost var w0, tell := w.W(), [Tell(Info, "Start creating cluster")];
    LogOnly(w, "Start creating cluster");
    ghost var w1 := w.W();
    ghost var record, listing, ids;
    r, record, listing, ids := ReadAndBuild(w);
    ghost var plan := Provisioning(record.nodes, listing, ids) + (Clustering(w0.event.cluster, record.nodes) + Furnishing(record));
    DidThen(w0.calls, w1.calls, w.W().calls, tell, [FetchWithKeys(record)] + plan, r.Ok?);
    Assoc(tell, [FetchWithKeys(record)], plan);
    assert tell + [FetchWithKeys(record)] == [Tell(Info, "Start creating cluster"), FetchWithKeys(record)];
    seg := w.W().calls[|w0.calls|..];
    assert Ran(CreationPlan(w0.event.cluster, record, listing, ids), seg, r.Ok?);
  }
}
