/** Adding one node (core/src/dispatcher/usecase/add_node_to_cluster.rs): the stages of a creation
    for the new node alone, with the other nodes' hosts files brought up to date in between. */
module AddNode {
  import opened Model
  import opened Records
  import opened HostFile
  import opened Machine
  import opened World
  import opened Plan
  import opened Common
  import opened CreateCluster

  // ------------------------------------------------------------ the plan

  function BootingOne(n: ClusterNode): seq<Task> {
    [Build(n, true)] + (StartTasks(n) + (AwaitTasks(n) + [Reboot(n)]))
  }

  /** The new node gets all hosts, then every other listed node. */
  function Introducing(entries: set<Entry>, n: ClusterNode, others: seq<ClusterNode>): seq<Task> {
    EquipTasks(entries, "Configure VM")(n) + Each(others, EquipTasks(entries, "Add new node hostname to existing VM"))
  }

  function JoiningOne(master: ClusterNode, n: ClusterNode): seq<Task> {
    InstallTasks(n) + (ReadyTasks(n) + [Enroll(master, n)])
  }

  function Adding(entries: set<Entry>, master: ClusterNode, n: ClusterNode, others: seq<ClusterNode>): seq<Task> {
    BootingOne(n) + (Introducing(entries, n, others) + JoiningOne(master, n))
  }

  /** The rest of an addition, once the record `r` has been read and a master found. */
  function AddingTo(c: string, name: string, r: Cluster, master: ClusterNode, listing: map<nat, string>): seq<Task> {
    [Survey(listing)] +
    match FindNode(r.nodes, name)
    case None => [Stuck]
    case Some(n) => Adding(Entries(HostMap(c, r.nodes)), master, n, Without(Existing(r.nodes, listing, c), name))
  }

  function AdditionWork(c: string, name: string, r: Cluster, listing: map<nat, string>): seq<Task> {
    match FindOtherMaster(r.nodes, name)
    case None => [Stuck]
    case Some(master) => AddingTo(c, name, r, master, listing)
  }

  function AdditionPlan(c: string, name: string, r: Cluster, listing: map<nat, string>): seq<Task> {
    [Tell(Info, "Start creating node"), Fetch(r)] + AdditionWork(c, name, r, listing)
  }

  // ------------------------------------------------------------ the new VM

  method CreateNodeVm(w: World, n: ClusterNode) returns (r: Outcome)
    requires w.InEvent() && w.W().event.AddNode? && w.W().snap.Some? && n in w.W().snap.value.nodes && w.W().wrote == {}
    modifies w
    ensures w.InEvent() && w.Since(old(w.steps), old(w.s.dispatched))
    ensures Did(old(w.W()).calls, w.W().calls, [Build(n, true)], r.Ok?) && Created(old(w.W()), w.W(), n, r.Ok?)
  {
    ghost var seg;
    r, seg := CreateVm(w, n);
    DidOne(old(w.W()).calls, Build(n, true), seg, r.Ok?);
  }

  method RebootOne(w: World, n: ClusterNode) returns (r: Outcome)
    requires w.InEvent() && w.W().snap.Some? && MayPower(w.W(), n)
    modifies w
    ensures w.InEvent() && w.Since(old(w.steps), old(w.s.dispatched))
    ensures Just(old(w.W()), w.W(), [Reboot(n)], r.Ok?)
  {
    ghost var seg;
    r, seg := RestartVmIfNecessary(w, n);
    JustOne(old(w.W()), Reboot(n), seg, r.Ok?);
  }

  method AwaitAndReboot(w: World, n: ClusterNode) returns (r: Outcome)
    requires w.InEvent() && w.W().snap.Some? && MayPower(w.W(), n)
    modifies w
    ensures w.InEvent() && w.Since(old(w.steps), old(w.s.dispatched))
    ensures Just(old(w.W()), w.W(), AwaitTasks(n) + [Reboot(n)], r.Ok?)
  {
    ghost var w0 := w.W();
    r := AwaitOne(w, n);
    if r.Err? { JustBroken(w0, w.W(), AwaitTasks(n), [Reboot(n)]); return; }
    ghost var w1 := w.W();
    r := RebootOne(w, n);
    JustThen(w0, w1, w.W(), AwaitTasks(n), [Reboot(n)], r.Ok?);
  }

  method Boot(w: World, n: ClusterNode) returns (r: Outcome)
    requires w.InEvent() && w.W().snap.Some? && MayPower(w.W(), n)
    modifies w
    ensures w.InEvent() && w.Since(old(w.steps), old(w.s.dispatched))
    ensures Just(old(w.W()), w.W(), StartTasks(n) + (AwaitTasks(n) + [Reboot(n)]), r.Ok?)
  {
    ghost var w0, rest := w.W(), AwaitTasks(n) + [Reboot(n)];
    r := StartOne(w, n);
    if r.Err? { JustBroken(w0, w.W(), StartTasks(n), rest); return; }
    ghost var w1 := w.W();
    r := AwaitAndReboot(w, n);
    JustThen(w0, w1, w.W(), StartTasks(n), rest, r.Ok?);
  }

  method CreateAndBoot(w: World, n: ClusterNode) returns (r: Outcome)
    requires w.InEvent() && w.W().event.AddNode? && w.W().snap.Some? && n in w.W().snap.value.nodes && w.W().wrote == {}
    modifies w
    ensures w.InEvent() && w.Since(old(w.steps), old(w.s.dispatched)) && w.W().event == old(w.W()).event
    ensures Did(old(w.W()).calls, w.W().calls, BootingOne(n), r.Ok?)
    ensures r.Ok? ==> w.W() == old(w.W()).(calls := w.W().calls, made := old(w.W()).made + {Ident(n)}, seen := old(w.W()).seen + {Ident(n)})
  {
    ghost var w0, rest := w.W(), StartTasks(n) + (AwaitTasks(n) + [Reboot(n)]);
    r := CreateNodeVm(w, n);
    if r.Err? { DidBroken(w0.calls, w.W().calls, [Build(n, true)], rest); return; }
    ghost var w1 := w.W();
    r := Boot(w, n);
    DidThen(w0.calls, w1.calls, w.W().calls, [Build(n, true)], rest, r.Ok?);
  }

  // ------------------------------------------------------------ hosts files

  /** The new node and the old nodes that were listed know all hosts. */
  ghost predicate Introduced(w: Work, n: ClusterNode, others: seq<ClusterNode>) {
    w.snap.Some? &&
    var entries := Entries(HostMap(w.event.cluster, w.snap.value.nodes));
    WroteAll(w, Ident(n), entries) && forall m :: m in others ==> WroteAll(w, Ident(m), entries)
  }

  lemma BothIntroduced(w1: Work, w2: Work, n: ClusterNode, others: seq<ClusterNode>, entries: set<Entry>, message: string)
    requires w1.snap.Some? && entries == Entries(HostMap(w1.event.cluster, w1.snap.value.nodes))
    requires WroteAll(w1, Ident(n), entries) && Equipping(w1, w2, others, entries, message, |others|)
    ensures Introduced(w2, n, others)
  {
    assert others[..|others|] == others;
  }

  /** `setup_vm` for the new node with `hosts.extend`, then for each of the others. */
  method Introduce(w: World, cluster: Cluster, n: ClusterNode, others: seq<ClusterNode>) returns (r: Outcome)
    requires w.InEvent() && w.W().event.AddNode? && w.W().snap == Some(cluster) && n in cluster.nodes && Ident(n) in w.W().seen
    requires forall m :: m in others ==> m in cluster.nodes && Ident(m) in w.W().seen
    modifies w
    ensures w.InEvent() && w.Since(old(w.steps), old(w.s.dispatched))
    ensures Did(old(w.W()).calls, w.W().calls, Introducing(Entries(HostMap(w.W().event.cluster, cluster.nodes)), n, others), r.Ok?)
    ensures w.W() == old(w.W()).(calls := w.W().calls, wrote := w.W().wrote, tainted := w.W().tainted)
    ensures r.Ok? ==> Introduced(w.W(), n, others) && w.W().tainted == old(w.W()).tainted
  {
    ghost var c0 := w.W().calls;
    r := IntroduceNew(w, cluster, n, others);
    if r.Ok? { r := IntroduceToOthers(w, n, others, HostMap(w.s.mode.work.event.cluster, cluster.nodes), c0); }
  }

  method IntroduceNew(w: World, cluster: Cluster, n: ClusterNode, ghost others: seq<ClusterNode>) returns (r: Outcome)
    requires w.InEvent() && w.W().event.AddNode? && w.W().snap == Some(cluster) && n in cluster.nodes && Ident(n) in w.W().seen
    modifies w
    ensures w.InEvent() && w.Since(old(w.steps), old(w.s.dispatched))
    ensures var entries := Entries(HostMap(w.W().event.cluster, cluster.nodes));
      && Equipped(old(w.W()), w.W(), n, entries, r.Ok?)
      && if r.Ok? then Did(old(w.W()).calls, w.W().calls, EquipTasks(entries, "Configure VM")(n), true)
         else Did(old(w.W()).calls, w.W().calls, Introducing(entries, n, others), false)
  {
    ghost var c0 := w.W().calls;
    var c, name := w.s.mode.work.event.cluster, w.s.mode.work.event.node;
    var all := HostMap(c, cluster.nodes);
    ExtendIsNoop(c, cluster.nodes, name);
    r := LogAndSetup(w, n, all + HostMap(c, Without(cluster.nodes, name)), "Configure VM");
    if r.Err? {
      DidBroken(c0, w.W().calls, EquipTasks(Entries(all), "Configure VM")(n),
                Each(others, EquipTasks(Entries(all), "Add new node hostname to existing VM")));
    }
  }

  method IntroduceToOthers(w: World, n: ClusterNode, others: seq<ClusterNode>, hosts: map<string, string>, ghost c0: seq<Call>) returns (r: Outcome)
    requires w.InEvent() && w.W().event.AddNode? && w.W().snap.Some? && hosts == HostMap(w.W().event.cluster, w.W().snap.value.nodes)
    requires forall m :: m in others ==> m in w.W().snap.value.nodes && Ident(m) in w.W().seen
    requires WroteAll(w.W(), Ident(n), Entries(hosts)) && Did(c0, w.W().calls, EquipTasks(Entries(hosts), "Configure VM")(n), true)
    modifies w
    ensures w.InEvent() && w.Since(old(w.steps), old(w.s.dispatched))
    ensures Did(c0, w.W().calls, Introducing(Entries(hosts), n, others), r.Ok?)
    ensures w.W() == old(w.W()).(calls := w.W().calls, wrote := w.W().wrote, tainted := w.W().tainted)
    ensures r.Ok? ==> Introduced(w.W(), n, others) && w.W().tainted == old(w.W()).tainted
  {
    ghost var w1, first := w.W(), EquipTasks(Entries(hosts), "Configure VM")(n);
    r := SetupEach(w, others, hosts, "Add new node hostname to existing VM");
    DidThen(c0, w1.calls, w.W().calls, first, Each(others, EquipTasks(Entries(hosts), "Add new node hostname to existing VM")), r.Ok?);
    if r.Ok? { BothIntroduced(w1, w.W(), n, others, Entries(hosts), "Add new node hostname to existing VM"); }
  }

  /** Both lists were complete: every node listed under another name is among the others. */
  lemma EvidenceOfAddition(found: set<ClusterNode>, w: Work, n: ClusterNode, others: seq<ClusterNode>)
    requires w.event.AddNode? && w.snap.Some? && w.listed && FindNode(w.snap.value.nodes, w.event.node) == Some(n)
    requires Ident(n) in w.made && w.seen == found + {Ident(n)}
    requires forall m :: m in w.snap.value.nodes && m.name != n.name && Ident(m) in found ==> m in others
    requires Introduced(w, n, others)
    ensures AddEvidence(w, w.event.node)
  {
    forall m | m in w.snap.value.nodes && m.name != n.name && Ident(m) in w.seen
      ensures WroteAll(w, Ident(m), Entries(HostMap(w.event.cluster, w.snap.value.nodes)))
    {
      assert Ident(m).name == m.name && m in others;
    }
  }

  // ------------------------------------------------------------ Kubernetes

  method ReadyAndJoin(w: World, master: ClusterNode, n: ClusterNode) returns (r: Outcome)
    requires w.InEvent() && w.W().snap.Some?
    modifies w
    ensures w.InEvent() && w.Since(old(w.steps), old(w.s.dispatched))
    ensures Just(old(w.W()), w.W(), ReadyTasks(n) + [Enroll(master, n)], r.Ok?)
  {
    ghost var w0 := w.W();
    r := WaitForReadyKubernetes(w, n);
    if r.Err? { JustBroken(w0, w.W(), ReadyTasks(n), [Enroll(master, n)]); return; }
    ghost var w1 := w.W();
    r := JoinNodeToCluster(w, master, n);
    JustThen(w0, w1, w.W(), ReadyTasks(n), [Enroll(master, n)], r.Ok?);
  }

  method SetupKubernetes(w: World, master: ClusterNode, n: ClusterNode) returns (r: Outcome)
    requires w.InEvent() && w.W().snap.Some?
    modifies w
    ensures w.InEvent() && w.Since(old(w.steps), old(w.s.dispatched))
    ensures Just(old(w.W()), w.W(), JoiningOne(master, n), r.Ok?)
  {
    ghost var w0, rest := w.W(), ReadyTasks(n) + [Enroll(master, n)];
    r := InstallKubernetes(w, n);
    if r.Err? { JustBroken(w0, w.W(), InstallTasks(n), rest); return; }
    ghost var w1 := w.W();
    r := ReadyAndJoin(w, master, n);
    JustThen(w0, w1, w.W(), InstallTasks(n), rest, r.Ok?);
  }

  // ------------------------------------------------------------ the whole of it

  lemma StillIntroduced(before: Work, after: Work, n: ClusterNode, others: seq<ClusterNode>)
    requires Introduced(before, n, others) && after == before.(calls := after.calls)
    ensures Introduced(after, n, others)
  {
    forall m, entries | WroteAll(before, Ident(m), entries) ensures WroteAll(after, Ident(m), entries) {}
  }

  method IntroduceAndJoin(w: World, cluster: Cluster, master: ClusterNode, n: ClusterNode, others: seq<ClusterNode>) returns (r: Outcome)
    requires w.InEvent() && w.W().event.AddNode? && w.W().snap == Some(cluster) && n in cluster.nodes && Ident(n) in w.W().seen
    requires forall m :: m in others ==> m in cluster.nodes && Ident(m) in w.W().seen
    modifies w
    ensures w.InEvent() && w.Since(old(w.steps), old(w.s.dispatched)) && w.W().event == old(w.W()).event
    ensures Did(old(w.W()).calls, w.W().calls,
                Introducing(Entries(HostMap(w.W().event.cluster, cluster.nodes)), n, others) + JoiningOne(master, n), r.Ok?)
    ensures r.Ok? ==> Introduced(w.W(), n, others) && w.W() == old(w.W()).(calls := w.W().calls, wrote := w.W().wrote)
  {
    ghost var w0, intro := w.W(), Introducing(Entries(HostMap(w.W().event.cluster, cluster.nodes)), n, others);
    r := Introduce(w, cluster, n, others);
    if r.Err? { DidBroken(w0.calls, w.W().calls, intro, JoiningOne(master, n)); return; }
    ghost var w1 := w.W();
    r := SetupKubernetes(w, master, n);
    DidThen(w0.calls, w1.calls, w.W().calls, intro, JoiningOne(master, n), r.Ok?);
    StillIntroduced(w1, w.W(), n, others);
  }

  /** The worker has read the record and listed the VMs. */
  ghost predicate Ready(w: Work, cluster: Cluster, n: ClusterNode, others: seq<ClusterNode>) {
    && w.event.AddNode? && w.snap == Some(cluster) && FindNode(cluster.nodes, w.event.node) == Some(n)
    && w.wrote == {} && !w.tainted && w.listed
    && forall m :: m in others ==> m in cluster.nodes && Ident(m) in w.seen
  }

  /** From the listing on. */
  method Extend(w: World, cluster: Cluster, master: ClusterNode, n: ClusterNode, others: seq<ClusterNode>) returns (r: Outcome)
    requires w.InEvent() && Ready(w.W(), cluster, n, others)
    modifies w
    ensures w.InEvent() && w.Since(old(w.steps), old(w.s.dispatched)) && w.W().event == old(w.W()).event
    ensures Did(old(w.W()).calls, w.W().calls, Adding(Entries(HostMap(w.W().event.cluster, cluster.nodes)), master, n, others), r.Ok?)
    ensures r.Ok? ==> Introduced(w.W(), n, others)
    ensures r.Ok? ==> w.W() == old(w.W()).(calls := w.W().calls, made := old(w.W()).made + {Ident(n)},
                                           seen := old(w.W()).seen + {Ident(n)}, wrote := w.W().wrote)
  {
    ghost var w0, entries := w.W(), Entries(HostMap(w.W().event.cluster, cluster.nodes));
    ghost var rest := Introducing(entries, n, others) + JoiningOne(master, n);
    r := CreateAndBoot(w, n);
    if r.Err? { DidBroken(w0.calls, w.W().calls, BootingOne(n), rest); return; }
    ghost var w1 := w.W();
    r := IntroduceAndJoin(w, cluster, master, n, others);
    DidThen(w0.calls, w1.calls, w.W().calls, BootingOne(n), rest, r.Ok?);
  }

  /** The record has just been read. */
  ghost predicate HasRead(w: Work, cluster: Cluster) {
    w.event.AddNode? && w.snap == Some(cluster) && w.wrote == {} && w.made == {} && w.seen == {} && !w.tainted
  }

  /** The listed nodes with another name than the new node. */
  ghost predicate AreOthers(w: Work, nodes: seq<ClusterNode>, others: seq<ClusterNode>) {
    && NamesNode(w.event)
    && (forall m :: m in others ==> m in nodes && Ident(m) in w.seen)
    && (forall m :: m in nodes && m.name != w.event.node && Ident(m) in w.seen ==> m in others)
  }

  method ListOthers(w: World, cluster: Cluster) returns (r: Result<seq<ClusterNode>, string>, listing: map<nat, string>)
    requires w.InEvent() && HasRead(w.W(), cluster)
    modifies w
    ensures w.InEvent() && w.Since(old(w.steps), old(w.s.dispatched)) && Did(old(w.W()).calls, w.W().calls, [Survey(listing)], r.Ok?)
    ensures w.W() == old(w.W()).(calls := w.W().calls, listed := w.W().listed, seen := w.W().seen, gone := w.W().gone)
    ensures r.Ok? ==> w.W().listed && AreOthers(w.W(), cluster.nodes, r.value)
    ensures r.Ok? ==> r.value == Without(Existing(cluster.nodes, listing, w.W().event.cluster), w.W().event.node)
  {
    var vms;
    vms, listing := GetExistingVms(w, cluster.nodes);
    if vms.Err? { return Err(vms.error), listing; }
    SeenExisting(cluster.nodes, listing, w.W().event.cluster, vms.value);
    r := Ok(Without(vms.value, w.s.mode.work.event.node));
  }

  method ListAndExtend(w: World, cluster: Cluster, master: ClusterNode) returns (r: Outcome, ghost listing: map<nat, string>)
    requires w.InEvent() && HasRead(w.W(), cluster)
    modifies w
    ensures w.InEvent() && w.W().event == old(w.W()).event && w.Since(old(w.steps), old(w.s.dispatched))
    ensures Did(old(w.W()).calls, w.W().calls, AddingTo(w.W().event.cluster, w.W().event.node, cluster, master, listing), r.Ok?)
    ensures r.Ok? ==> Evidence(w.W())
  {
    ghost var w0 := w.W();
    var others;
    others, listing := ListOthers(w, cluster);
    ghost var rest := AddingTo(w0.event.cluster, w0.event.node, cluster, master, listing)[1..];
    assert AddingTo(w0.event.cluster, w0.event.node, cluster, master, listing) == [Survey(listing)] + rest;
    if others.Err? {
      r := Err(others.error);
      DidBroken(w0.calls, w.W().calls, [Survey(listing)], rest);
      return;
    }
    ghost var w1 := w.W();
    r := ExtendIfFound(w, cluster, master, others.value);
    DidThen(w0.calls, w1.calls, w.W().calls, [Survey(listing)], rest, r.Ok?);
  }

  method ExtendIfFound(w: World, cluster: Cluster, master: ClusterNode, others: seq<ClusterNode>) returns (r: Outcome)
    requires w.InEvent() && w.W().event.AddNode? && w.W().snap == Some(cluster) && w.W().wrote == {} && !w.W().tainted && w.W().listed
    requires AreOthers(w.W(), cluster.nodes, others)
    modifies w
    ensures w.InEvent() && w.W().event == old(w.W()).event && w.Since(old(w.steps), old(w.s.dispatched))
    ensures Did(old(w.W()).calls, w.W().calls,
      match FindNode(cluster.nodes, w.W().event.node)
      case None => [Stuck]
      case Some(n) => Adding(Entries(HostMap(w.W().event.cluster, cluster.nodes)), master, n, others), r.Ok?)
    ensures r.Ok? ==> Evidence(w.W())
  {
    ghost var w0 := w.W();
    var target := FindNode(cluster.nodes, w.s.mode.work.event.node);
    if target.None? {
      NoOneToAsk(w0);
      return Err("Cannot find node to create");
    }
    r := Extend(w, cluster, master, target.value, others);
    if r.Ok? { EvidenceOfAddition(w0.seen, w.W(), target.value, others); }
  }

  method AddToCluster(w: World, cluster: Cluster) returns (r: Outcome, ghost listing: map<nat, string>)
    requires w.InEvent() && HasRead(w.W(), cluster)
    modifies w
    ensures w.InEvent() && w.W().event == old(w.W()).event && w.Since(old(w.steps), old(w.s.dispatched))
    ensures Did(old(w.W()).calls, w.W().calls, AdditionWork(w.W().event.cluster, w.W().event.node, cluster, listing), r.Ok?)
    ensures r.Ok? ==> Evidence(w.W())
  {
    listing := map[];
    var master := FindOtherMaster(cluster.nodes, w.s.mode.work.event.node);
    if master.None? {
      NoOneToAsk(w.W());
      r := Err("Cannot find any master node");
      return;
    }
    r, listing := ListAndExtend(w, cluster, master.value);
  }

  method AddIfFound(w: World, cluster: Option<Cluster>) returns (r: Outcome, ghost listing: map<nat, string>)
    requires w.InEvent() && w.W().event.AddNode? && (cluster.Some? ==> HasRead(w.W(), cluster.value))
    modifies w
    ensures w.InEvent() && w.W().event == old(w.W()).event && w.Since(old(w.steps), old(w.s.dispatched))
    ensures if cluster.Some?
            then Did(old(w.W()).calls, w.W().calls, AdditionWork(w.W().event.cluster, w.W().event.node, cluster.value, listing), r.Ok?)
            else r.Err? && w.W().calls == old(w.W()).calls
    ensures r.Ok? ==> Evidence(w.W())
  {
    listing := map[];
    if cluster.None? { return Err("Cannot find cluster"), listing; }
    r, listing := AddToCluster(w, cluster.value);
  }

  /** Some addition of a node of this name to a record of this name, with what its listing showed. */
  ghost predicate Addition(c: string, name: string, calls: seq<Call>, ok: bool) {
    exists record, listing :: Ran(AdditionPlan(c, name, record, listing), calls, ok)
  }

  method FetchAndAdd(w: World) returns (r: Outcome, ghost record: Cluster, ghost listing: map<nat, string>)
    requires w.InEvent() && w.W().event.AddNode? && w.W().made == {} && !w.W().tainted
    modifies w
    ensures w.InEvent() && w.W().event == old(w.W()).event && w.Since(old(w.steps), old(w.s.dispatched))
    ensures Did(old(w.W()).calls, w.W().calls, AdditionPlan(w.W().event.cluster, w.W().event.node, record, listing), r.Ok?)
    ensures r.Ok? ==> Evidence(w.W())
  {
    ghost var c0 := w.W().calls;
    var cluster;
    cluster, record := LogAndFetch(w, "Start creating node");
    ghost var c1, found := w.W().calls, cluster.Some?;
    r, listing := AddIfFound(w, cluster);
    IsAddition(w.W().event.cluster, w.W().event.node, c0, c1, w.W().calls, record, listing, found, r.Ok?);
  }

  /** The record was found and the rest done, or it was not found. */
  lemma IsAddition(c: string, name: string, c0: seq<Call>, c1: seq<Call>, c2: seq<Call>, r: Cluster, listing: map<nat, string>, found: bool, ok: bool)
    requires Did(c0, c1, [Tell(Info, "Start creating node"), Fetch(r)], found)
    requires if found then Did(c1, c2, AdditionWork(c, name, r, listing), ok) else !ok && c2 == c1
    ensures Did(c0, c2, AdditionPlan(c, name, r, listing), ok)
  {
    var head, rest := [Tell(Info, "Start creating node"), Fetch(r)], AdditionWork(c, name, r, listing);
    if found { DidThen(c0, c1, c2, head, rest, ok); } else { DidBroken(c0, c1, head, rest); }
  }

  /** `add_node_to_cluster::execute`. */
  method Execute(w: World) returns (r: Outcome, ghost seg: seq<Call>)
    requires w.InEvent() && w.W().event.AddNode? && w.W().made == {} && !w.W().tainted
    modifies w
    ensures w.InEvent() && w.W().event == old(w.W()).event && w.Since(old(w.steps), old(w.s.dispatched))
    ensures w.W().calls == old(w.W()).calls + seg && Addition(w.W().event.cluster, w.W().event.node, seg, r.Ok?)
    ensures r.Ok? ==> Evidence(w.W())
  {
    ghost var record, listing;
    r, record, listing := FetchAndAdd(w);
    seg := w.W().calls[|old(w.W()).calls|..];
    assert Ran(AdditionPlan(w.W().event.cluster, w.W().event.node, record, listing), seg, r.Ok?);
  }
}
