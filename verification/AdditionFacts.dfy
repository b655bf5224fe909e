/** What the addition of a node and a change of its resources look like from outside
    (core/src/dispatcher/usecase/add_node_to_cluster.rs:46-88, change_resources.rs:34-58). */
module AdditionFacts {
  import opened Model
  import opened Records
  import opened HostFile
  import opened Machine
  import opened Plan
  import opened Trace
  import opened Common
  import opened CreateCluster
  import opened AddNode
  import opened CreationFacts
  import ChangeResources

  // ------------------------------------------------------------ the plan of an addition is ordered

  lemma BuildFine(n: ClusterNode)
    ensures Fine([Build(n, true)], 1, 1)
  {
    IsFine([Build(n, true)], 1, 1);
  }

  lemma StartFine(n: ClusterNode)
    ensures Fine(StartTasks(n), 2, 2)
  {
    IsFine(StartTasks(n), 2, 2);
  }

  lemma AwaitFine(n: ClusterNode)
    ensures Fine(AwaitTasks(n), 2, 2)
  {
    IsFine(AwaitTasks(n), 2, 2);
  }

  lemma RebootFine(n: ClusterNode)
    ensures Fine([Reboot(n)], 2, 2)
  {
    IsFine([Reboot(n)], 2, 2);
  }

  lemma InstallFine(n: ClusterNode)
    ensures Fine(InstallTasks(n), 4, 4)
  {
    IsFine(InstallTasks(n), 4, 4);
  }

  lemma ReadyFine(n: ClusterNode)
    ensures Fine(ReadyTasks(n), 5, 5)
  {
    IsFine(ReadyTasks(n), 5, 5);
  }

  lemma EnrollFine(m: ClusterNode, n: ClusterNode)
    ensures Fine([Enroll(m, n)], 6, 6)
  {
    IsFine([Enroll(m, n)], 6, 6);
  }

  /** Three plans one after the other. */
  lemma ThreeFine(a: seq<Task>, b: seq<Task>, c: seq<Task>, k: nat, l: nat, m: nat)
    requires Fine(a, k, k) && Fine(b, l, l) && Fine(c, m, m) && k <= l <= m
    ensures Fine(a + (b + c), k, m)
  {
    FineThen(b, c, l, l, m, m);
    FineThen(a, b + c, k, k, l, m);
  }

  lemma BootingRestFine(n: ClusterNode)
    ensures Fine(StartTasks(n) + (AwaitTasks(n) + [Reboot(n)]), 2, 2)
  {
    StartFine(n);
    AwaitFine(n);
    RebootFine(n);
    ThreeFine(StartTasks(n), AwaitTasks(n), [Reboot(n)], 2, 2, 2);
  }

  lemma BootingOneFine(n: ClusterNode)
    ensures Fine(BootingOne(n), 1, 2)
  {
    BuildFine(n);
    BootingRestFine(n);
    FineThen([Build(n, true)], StartTasks(n) + (AwaitTasks(n) + [Reboot(n)]), 1, 1, 2, 2);
  }

  lemma IntroducingFine(entries: set<Entry>, n: ClusterNode, others: seq<ClusterNode>)
    ensures Fine(Introducing(entries, n, others), 3, 3)
  {
    IsFine(EquipTasks(entries, "Configure VM")(n), 3, 3);
    EquipsFine(others, entries, "Add new node hostname to existing VM");
    FineThen(EquipTasks(entries, "Configure VM")(n), Each(others, EquipTasks(entries, "Add new node hostname to existing VM")), 3, 3, 3, 3);
  }

  lemma JoiningOneFine(m: ClusterNode, n: ClusterNode)
    ensures Fine(JoiningOne(m, n), 4, 6)
  {
    InstallFine(n);
    ReadyFine(n);
    EnrollFine(m, n);
    ThreeFine(InstallTasks(n), ReadyTasks(n), [Enroll(m, n)], 4, 5, 6);
  }

  lemma AddingFine(entries: set<Entry>, m: ClusterNode, n: ClusterNode, others: seq<ClusterNode>)
    ensures Fine(Adding(entries, m, n, others), 1, 6)
  {
    BootingOneFine(n);
    IntroducingFine(entries, n, others);
    JoiningOneFine(m, n);
    FineThen(Introducing(entries, n, others), JoiningOne(m, n), 3, 3, 4, 6);
    FineThen(BootingOne(n), Introducing(entries, n, others) + JoiningOne(m, n), 1, 2, 3, 6);
  }

  /** The record names the node, another master, and, with the listing, the others. */
  ghost predicate Names(c: string, name: string, r: Cluster, listing: map<nat, string>, m: ClusterNode, n: ClusterNode, others: seq<ClusterNode>) {
    && FindOtherMaster(r.nodes, name) == Some(m) && FindNode(r.nodes, name) == Some(n)
    && others == Without(Existing(r.nodes, listing, c), name)
  }

  function FullAddition(c: string, r: Cluster, listing: map<nat, string>, m: ClusterNode, n: ClusterNode, others: seq<ClusterNode>): seq<Task> {
    [Tell(Info, "Start creating node"), Fetch(r)] + ([Survey(listing)] + Adding(Entries(HostMap(c, r.nodes)), m, n, others))
  }

  lemma IsFullAddition(c: string, name: string, r: Cluster, listing: map<nat, string>, m: ClusterNode, n: ClusterNode, others: seq<ClusterNode>)
    requires Names(c, name, r, listing, m, n, others)
    ensures AdditionPlan(c, name, r, listing) == FullAddition(c, r, listing, m, n, others)
  {
  }

  lemma HeadsFine(r: Cluster, listing: map<nat, string>)
    ensures Fine([Tell(Info, "Start creating node"), Fetch(r)], 1, 1) && Fine([Survey(listing)], 1, 1)
  {
    IsFine([Tell(Info, "Start creating node"), Fetch(r)], 1, 1);
    IsFine([Survey(listing)], 1, 1);
  }

  lemma AdditionFine(c: string, r: Cluster, listing: map<nat, string>, m: ClusterNode, n: ClusterNode, others: seq<ClusterNode>)
    ensures Fine(FullAddition(c, r, listing, m, n, others), 1, 6)
  {
    var adding := Adding(Entries(HostMap(c, r.nodes)), m, n, others);
    HeadsFine(r, listing);
    AddingFine(Entries(HostMap(c, r.nodes)), m, n, others);
    FineThen([Survey(listing)], adding, 1, 1, 1, 6);
    FineThen([Tell(Info, "Start creating node"), Fetch(r)], [Survey(listing)] + adding, 1, 1, 1, 6);
  }

  lemma AdditionTasks(c: string, r: Cluster, listing: map<nat, string>, m: ClusterNode, n: ClusterNode, others: seq<ClusterNode>)
    ensures Sends(FullAddition(c, r, listing, m, n, others), n, Entries(HostMap(c, r.nodes)), true)
    ensures forall o :: o in others ==> Equip(o, Entries(HostMap(c, r.nodes))) in FullAddition(c, r, listing, m, n, others)
  {
    var entries := Entries(HostMap(c, r.nodes));
    assert Build(n, true) in BootingOne(n) && Reboot(n) in BootingOne(n) && PowerOn(n) in StartTasks(n) && AwaitStart(n) in AwaitTasks(n);
    assert Equip(n, entries) in EquipTasks(entries, "Configure VM")(n);
    assert Order(n, Install) in InstallTasks(n) && Order(n, WaitReady) in ReadyTasks(n);
    forall o | o in others ensures Equip(o, entries) in Introducing(entries, n, others) {
      EachHas(others, EquipTasks(entries, "Add new node hostname to existing VM"), o, Equip(o, entries));
    }
  }

  /** In an addition, the new node goes through the stages of a creation in their order, and before it
      is installed, it and every other listed node have got all hosts of the record. */
  lemma NewNodeInOrder(c: string, name: string, r: Cluster, listing: map<nat, string>, m: ClusterNode, n: ClusterNode, others: seq<ClusterNode>,
                       calls: seq<Call>, ok: bool, j: nat)
    requires Names(c, name, r, listing, m, n, others) && Ran(AdditionPlan(c, name, r, listing), calls, ok) && j < |calls|
    ensures NodeFirst(calls, j, n, Entries(HostMap(c, r.nodes)))
    ensures Stage(calls[j]) >= 4 ==> forall o, e :: o in others && e in Entries(HostMap(c, r.nodes)) ==> Call.Ssh(o, AddHost(e), true) in calls[..j]
  {
    var plan, entries := FullAddition(c, r, listing, m, n, others), Entries(HostMap(c, r.nodes));
    IsFullAddition(c, name, r, listing, m, n, others);
    AdditionFine(c, r, listing, m, n, others);
    AdditionTasks(c, r, listing, m, n, others);
    FineRanked(plan, calls, ok);
    StagesFirst(plan, calls, ok, n, entries, true, j);
    if Stage(calls[j]) >= 4 {
      forall o | o in others ensures forall e :: e in entries ==> Call.Ssh(o, AddHost(e), true) in calls[..j] {
        EquippedFirst(plan, calls, ok, o, entries, j);
      }
    }
  }

  lemma FineRanked(plan: seq<Task>, calls: seq<Call>, ok: bool)
    requires Ran(plan, calls, ok) && Fine(plan, 1, 6)
    ensures Ranked(plan, calls, ok)
  {
    FineIs(plan, 1, 6);
    CallsKeepRank(plan);
  }

  /** It creates and joins this node and no other, once. */
  lemma OnlyNewNode(c: string, name: string, r: Cluster, listing: map<nat, string>, m: ClusterNode, n: ClusterNode, others: seq<ClusterNode>,
                    calls: seq<Call>, ok: bool) returns (i: nat, j: nat)
    requires Names(c, name, r, listing, m, n, others) && Ran(AdditionPlan(c, name, r, listing), calls, ok)
    ensures UpTo(Filter(calls, Creates), [Call.Create(n, true)], i) && (ok ==> Filter(calls, Creates) == [Call.Create(n, true)])
    ensures UpTo(Filter(calls, Joins), [JoinOf(n)], j) && (ok ==> Filter(calls, Joins) == [JoinOf(n)])
  {
    var plan := FullAddition(c, r, listing, m, n, others);
    IsFullAddition(c, name, r, listing, m, n, others);
    AdditionFine(c, r, listing, m, n, others);
    FineIs(plan, 1, 6);
    AdditionWants(c, r, listing, m, n, others);
    forall t | t in plan ensures Asks(t, Creates, AskCreate(t)) { AsksCreate(t); }
    forall t | t in plan ensures Asks(t, Joins, AskJoin(t)) { AsksJoin(t); }
    i := PlanAsks(plan, calls, ok, Creates, AskCreate);
    j := PlanAsks(plan, calls, ok, Joins, AskJoin);
  }

  lemma AdditionWants(c: string, r: Cluster, listing: map<nat, string>, m: ClusterNode, n: ClusterNode, others: seq<ClusterNode>)
    ensures Wanted(FullAddition(c, r, listing, m, n, others), AskCreate) == [Call.Create(n, true)]
    ensures Wanted(FullAddition(c, r, listing, m, n, others), AskJoin) == [JoinOf(n)]
  {
    var entries := Entries(HostMap(c, r.nodes));
    AddingWantsOne(entries, m, n, others);
    AddingWantsJoin(entries, m, n, others);
    WantsTwo(Tell(Info, "Start creating node"), Fetch(r), AskCreate);
    WantsTwo(Tell(Info, "Start creating node"), Fetch(r), AskJoin);
    WantsOne(Survey(listing), AskCreate);
    WantsOne(Survey(listing), AskJoin);
    HeadsWant(r, listing, Adding(entries, m, n, others), AskCreate);
    HeadsWant(r, listing, Adding(entries, m, n, others), AskJoin);
  }

  lemma HeadsWant(r: Cluster, listing: map<nat, string>, rest: seq<Task>, ask: Task -> seq<Call>)
    ensures Wanted([Tell(Info, "Start creating node"), Fetch(r)] + ([Survey(listing)] + rest), ask)
         == Wanted([Tell(Info, "Start creating node"), Fetch(r)], ask) + (Wanted([Survey(listing)], ask) + Wanted(rest, ask))
  {
    WantedAppend([Survey(listing)], rest, ask);
    WantedAppend([Tell(Info, "Start creating node"), Fetch(r)], [Survey(listing)] + rest, ask);
  }

  lemma WantsThree(a: seq<Task>, b: seq<Task>, c: seq<Task>, ask: Task -> seq<Call>)
    ensures Wanted(a + (b + c), ask) == Wanted(a, ask) + (Wanted(b, ask) + Wanted(c, ask))
  {
    WantedAppend(b, c, ask);
    WantedAppend(a, b + c, ask);
  }

  lemma BootingWantsVm(n: ClusterNode)
    ensures Wanted(BootingOne(n), AskCreate) == [Call.Create(n, true)]
  {
    BootingRestFine(n);
    OtherRanksWantNone(StartTasks(n) + (AwaitTasks(n) + [Reboot(n)]), 2, 2);
    WantsOne(Build(n, true), AskCreate);
    WantedAppend([Build(n, true)], StartTasks(n) + (AwaitTasks(n) + [Reboot(n)]), AskCreate);
  }

  lemma JoiningWantsOne(m: ClusterNode, n: ClusterNode)
    ensures Wanted(JoiningOne(m, n), AskJoin) == [JoinOf(n)]
  {
    InstallFine(n);
    ReadyFine(n);
    OtherRanksWantNone(InstallTasks(n), 4, 4);
    OtherRanksWantNone(ReadyTasks(n), 5, 5);
    WantsOne(Enroll(m, n), AskJoin);
    WantsThree(InstallTasks(n), ReadyTasks(n), [Enroll(m, n)], AskJoin);
  }

  lemma AddingWantsOne(entries: set<Entry>, m: ClusterNode, n: ClusterNode, others: seq<ClusterNode>)
    ensures Wanted(Adding(entries, m, n, others), AskCreate) == [Call.Create(n, true)]
  {
    BootingWantsVm(n);
    IntroducingFine(entries, n, others);
    JoiningOneFine(m, n);
    OtherRanksWantNone(Introducing(entries, n, others), 3, 3);
    OtherRanksWantNone(JoiningOne(m, n), 4, 6);
    WantsThree(BootingOne(n), Introducing(entries, n, others), JoiningOne(m, n), AskCreate);
  }

  lemma AddingWantsJoin(entries: set<Entry>, m: ClusterNode, n: ClusterNode, others: seq<ClusterNode>)
    ensures Wanted(Adding(entries, m, n, others), AskJoin) == [JoinOf(n)]
  {
    BootingOneFine(n);
    IntroducingFine(entries, n, others);
    JoiningWantsOne(m, n);
    OtherRanksWantNone(BootingOne(n), 1, 2);
    OtherRanksWantNone(Introducing(entries, n, others), 3, 3);
    WantsThree(BootingOne(n), Introducing(entries, n, others), JoiningOne(m, n), AskJoin);
  }

  /** An addition that got to its listing works on the record that it read, and has found a master in it. */
  lemma AdditionGoesBy(c: string, name: string, r0: Cluster, l0: map<nat, string>, calls: seq<Call>, ok: bool, r: Cluster, listing: map<nat, string>)
    requires Ran(AdditionPlan(c, name, r0, l0), calls, ok) && Begins(calls, r, listing)
    ensures r0 == r && l0 == listing && FindOtherMaster(r.nodes, name).Some?
    ensures |calls| > 3 ==> FindNode(r.nodes, name).Some?
  {
    var head := [Tell(Info, "Start creating node"), Fetch(r0)];
    match FindOtherMaster(r0.nodes, name)
    case None =>
      Leading(head, [Stuck], calls, ok);
      RanIsOne(Stuck, calls[2..], ok);
    case Some(m) =>
      var rest := AddingTo(c, name, r0, m, l0)[1..];
      assert AddingTo(c, name, r0, m, l0) == [Survey(l0)] + rest;
      AdditionSurveys(head, r0, l0, rest, calls, ok, r, listing);
      if |calls| > 3 && FindNode(r0.nodes, name).None? { RanIsOne(Stuck, calls[3..], ok); }
  }

  lemma AdditionSurveys(head: seq<Task>, r0: Cluster, l0: map<nat, string>, rest: seq<Task>, calls: seq<Call>, ok: bool, r: Cluster, listing: map<nat, string>)
    requires head == [Tell(Info, "Start creating node"), Fetch(r0)] && Ran(head + ([Survey(l0)] + rest), calls, ok) && Begins(calls, r, listing)
    ensures r0 == r && l0 == listing && (|calls| > 3 ==> Ran(rest, calls[3..], ok))
  {
    Assoc(head, [Survey(l0)], rest);
    assert head + [Survey(l0)] == [Tell(Info, "Start creating node"), Fetch(r0), Survey(l0)];
    HeadBegins("Start creating node", r0, l0, rest, calls, ok, r, listing);
    if |calls| > 3 { Leading([Tell(Info, "Start creating node"), Fetch(r0), Survey(l0)], rest, calls, ok); }
  }

  // ------------------------------------------------------------ changes of resources

  const ChangeRank: Task -> nat := (t: Task) =>
    if t.Reconfigure? then 1 else if t.Halt? then 2 else if t.PowerOn? then 3 else if t.StoreResources? then 4 else 0

  const ChangeStep: Call -> nat := (c: Call) =>
    if c.Configure? then 1 else if c.Shutdown? || c.Poll? || c.HardStop? then 2 else if c.Start? then 3
    else if c.ResourcesSaved? then 4 else 0

  /** A VM is configured before it is shut down, seen stopped before it is started, and started before
      the new numbers are stored; only the VM of the first node of the name in the record is touched. */
  lemma ChangesInOrder(name: string, cores: nat, memory: nat, r: Cluster, calls: seq<Call>, ok: bool, n: ClusterNode, j: nat)
    requires Ran(ChangeResources.ChangePlan(name, cores, memory, r), calls, ok) && FindNode(r.nodes, name) == Some(n) && j < |calls|
    ensures OnNode(calls[j]) ==> calls[j].node == n
    ensures calls[j].Configure? ==> calls[j].cores == cores && calls[j].memory == memory
    ensures ChangeStep(calls[j]) >= 2 ==> Call.Configure(n, cores, memory, true) in calls[..j]
    ensures ChangeStep(calls[j]) >= 3 ==> Call.Poll(n, SawStopped) in calls[..j]
    ensures ChangeStep(calls[j]) >= 4 ==> Call.Start(n, true) in calls[..j]
  {
    var plan := ChangeResources.ChangePlan(name, cores, memory, r);
    var t, seg, done := CallHasTask(plan, calls, ok, calls[j]);
    ChangeCalls(n, cores, memory, t, seg, done, calls[j]);
    ChangeBounded(name, cores, memory, r, n);
    ChangeDone(plan, calls, ok, n, cores, memory, j);
  }

  lemma ChangeDone(plan: seq<Task>, calls: seq<Call>, ok: bool, n: ClusterNode, cores: nat, memory: nat, j: nat)
    requires Ran(plan, calls, ok) && Ordered(plan, ChangeRank) && Bounded(plan, ChangeRank, ChangeStep) && j < |calls|
    requires Reconfigure(n, cores, memory) in plan && Halt(n) in plan && PowerOn(n) in plan
    ensures ChangeStep(calls[j]) >= 2 ==> Call.Configure(n, cores, memory, true) in calls[..j]
    ensures ChangeStep(calls[j]) >= 3 ==> Call.Poll(n, SawStopped) in calls[..j]
    ensures ChangeStep(calls[j]) >= 4 ==> Call.Start(n, true) in calls[..j]
  {
    if ChangeStep(calls[j]) >= 2 { var s := DoneBefore(plan, calls, ok, ChangeRank, ChangeStep, j, Reconfigure(n, cores, memory)); }
    if ChangeStep(calls[j]) >= 3 {
      var s := DoneBefore(plan, calls, ok, ChangeRank, ChangeStep, j, Halt(n));
      StopFacts(n, s, true);
    }
    if ChangeStep(calls[j]) >= 4 { var s := DoneBefore(plan, calls, ok, ChangeRank, ChangeStep, j, PowerOn(n)); }
  }

  lemma ChangeCalls(n: ClusterNode, cores: nat, memory: nat, t: Task, seg: seq<Call>, ok: bool, c: Call)
    requires t in {Reconfigure(n, cores, memory), Halt(n), PowerOn(n), StoreResources} || t.Tell? || t.Fetch?
    requires Run(t, seg, ok) && c in seg
    ensures OnNode(c) ==> c.node == n
    ensures c.Configure? ==> c.cores == cores && c.memory == memory
    ensures ChangeStep(c) <= ChangeRank(t)
  {
    if t.Halt? { StopFacts(n, seg, ok); }
  }

  lemma ChangeBounded(name: string, cores: nat, memory: nat, r: Cluster, n: ClusterNode)
    requires FindNode(r.nodes, name) == Some(n)
    ensures var plan := ChangeResources.ChangePlan(name, cores, memory, r);
      Ordered(plan, ChangeRank) && Bounded(plan, ChangeRank, ChangeStep)
  {
    var plan := ChangeResources.ChangePlan(name, cores, memory, r);
    forall t, seg, ok, c | t in plan && Run(t, seg, ok) && c in seg ensures ChangeStep(c) <= ChangeRank(t) {
      ChangeCalls(n, cores, memory, t, seg, ok, c);
    }
  }

  /** A change works on the record that it read. */
  lemma ChangeGoesBy(name: string, cores: nat, memory: nat, r0: Cluster, calls: seq<Call>, ok: bool, r: Cluster)
    requires Ran(ChangeResources.ChangePlan(name, cores, memory, r0), calls, ok) && Reads(calls, r)
    ensures r0 == r && (|calls| > 2 ==> FindNode(r.nodes, name).Some?)
  {
    var head, message := [Tell(Info, "Start creating cluster"), Fetch(r0)], "Start creating cluster";
    var rest := match FindNode(r0.nodes, name) { case None => [Stuck] case Some(n) => ChangeResources.Changing(n, cores, memory) };
    HeadReads(message, r0, rest, calls, ok, r);
    if |calls| > 2 && FindNode(r0.nodes, name).None? {
      Leading(head, rest, calls, ok);
      RanIsOne(Stuck, calls[2..], ok);
    }
  }
}
