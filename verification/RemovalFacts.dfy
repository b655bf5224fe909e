/** What the removal of a node looks like from outside
    (core/src/dispatcher/usecase/delete_node_from_cluster.rs:12-174). */
module RemovalFacts {
  import opened Model
  import opened Machine
  import opened Plan
  import opened Trace
  import opened Common
  import opened DeleteCluster
  import opened DeleteNode
  import opened DeletionFacts

  // ------------------------------------------------------------ which branch is taken

  /** The listing shows the id under the full name of a node of the record. */
  predicate Shows(r: Cluster, listing: map<nat, string>, c: string, id: nat) {
    exists n :: n in r.nodes && n.vmId == id && Listed(listing, c, n)
  }

  lemma ShowsIsHasId(r: Cluster, listing: map<nat, string>, c: string, id: nat)
    ensures Shows(r, listing, c, id) <==> HasId(Existing(r.nodes, listing, c), id)
  {
    if Shows(r, listing, c, id) {
      var n :| n in r.nodes && n.vmId == id && Listed(listing, c, n);
      assert n in Existing(r.nodes, listing, c);
    }
  }

  /** The node to go and the master that is asked, if the record has both. */
  predicate Chosen(r: Cluster, name: string, master: ClusterNode, target: ClusterNode) {
    |r.nodes| != 1 && FindOtherMaster(r.nodes, name) == Some(master) && FindNode(r.nodes, name) == Some(target)
  }

  /** What is left to do once the first listing has been read. */
  function Onward(c: string, r: Cluster, name: string, master: ClusterNode, target: ClusterNode, a: Answers): seq<Task> {
    (if Shows(r, a.first, c, target.vmId) then Detaching(c, master, target) + RemovingIfListed(c, r.nodes, target, a.second) else [])
    + Forgetting(c, name, a.rest, a.third)
  }

  lemma WorkIsOnward(c: string, name: string, a: Answers, master: ClusterNode, target: ClusterNode)
    requires Chosen(a.record, name, master, target)
    ensures RemovalWork(c, name, a) == [Survey(a.first)] + Onward(c, a.record, name, master, target, a)
  {
    ShowsIsHasId(a.record, a.first, c, target.vmId);
    var on := if Shows(a.record, a.first, c, target.vmId) then Detaching(c, master, target) + RemovingIfListed(c, a.record.nodes, target, a.second) else [];
    Assoc([Survey(a.first)], on, Forgetting(c, name, a.rest, a.third));
  }

  /** A removal that gets to its first listing has both nodes, and goes on as that listing says. */
  lemma RemovalSurveys(c: string, name: string, a: Answers, calls: seq<Call>, ok: bool, r: Cluster, listing: map<nat, string>)
      returns (master: ClusterNode, target: ClusterNode, rest: seq<Call>)
    requires Ran(RemovalPlan(c, name, a), calls, ok) && Begins(calls, r, listing)
    ensures a.record == r && a.first == listing && Chosen(r, name, master, target)
    ensures calls == [Noted(Info, "Start deleting node"), RecordRead(Some(r)), ListVms(listing, true)] + rest
    ensures Ran(Onward(c, r, name, master, target, a), rest, ok)
  {
    HeadReads("Start deleting node", a.record, RemovalWork(c, name, a), calls, ok, r);
    Leading([Tell(Info, "Start deleting node"), Fetch(r)], RemovalWork(c, name, a), calls, ok);
    var onward;
    master, target, onward := WorkGoesOn(c, name, a, calls[2..], ok);
    rest := Surveyed(a.first, onward, calls[2..], ok, listing);
    HeadOf(calls, calls[0], calls[1], calls[2], rest);
  }

  lemma HeadOf(calls: seq<Call>, x: Call, y: Call, z: Call, rest: seq<Call>)
    requires |calls| > 2 && calls[0] == x && calls[1] == y && calls[2..] == [z] + rest
    ensures calls == [x, y, z] + rest
  {
    assert calls == [x, y] + calls[2..];
    Assoc([x, y], [z], rest);
  }

  lemma WorkGoesOn(c: string, name: string, a: Answers, tail: seq<Call>, ok: bool)
      returns (master: ClusterNode, target: ClusterNode, onward: seq<Task>)
    requires Ran(RemovalWork(c, name, a), tail, ok) && tail != [] && tail[0].ListVms?
    ensures Chosen(a.record, name, master, target) && onward == Onward(c, a.record, name, master, target, a)
    ensures Ran([Survey(a.first)] + onward, tail, ok)
  {
    NotKept(c, name, a, tail, ok);
    master, target := FindOtherMaster(a.record.nodes, name).value, FindNode(a.record.nodes, name).value;
    WorkIsOnward(c, name, a, master, target);
    onward := Onward(c, a.record, name, master, target, a);
  }

  lemma Surveyed(first: map<nat, string>, onward: seq<Task>, tail: seq<Call>, ok: bool, listing: map<nat, string>) returns (rest: seq<Call>)
    requires Ran([Survey(first)] + onward, tail, ok) && tail != [] && tail[0] == ListVms(listing, true)
    ensures first == listing && tail == [ListVms(listing, true)] + rest && Ran(onward, rest, ok)
  {
    var look, shown;
    look, rest, shown := RanFirst(Survey(first), onward, tail, ok);
    assert tail[0] == look[0];
  }

  lemma NotKept(c: string, name: string, a: Answers, tail: seq<Call>, ok: bool)
    requires Ran(RemovalWork(c, name, a), tail, ok) && tail != [] && tail[0].ListVms?
    ensures |a.record.nodes| != 1 && FindOtherMaster(a.record.nodes, name).Some? && FindNode(a.record.nodes, name).Some?
  {
    if |a.record.nodes| == 1 {
      RanIsOne(Tell(Fault, "Cannot delete last node, delete whole cluster instead"), tail, ok);
    } else if FindOtherMaster(a.record.nodes, name).None? || FindNode(a.record.nodes, name).None? {
      RanIsOne(Stuck, tail, ok);
    }
  }

  /** A call about a VM that only makes its node forget this name. */
  predicate Scrubs(call: Call, pattern: string) {
    call.Ssh? && (call.command == ScrubTemplate(pattern) || call.command == ScrubHost(pattern))
  }

  /** If the first listing does not show the node's id, no call is about any VM, but for the host lines
      of the other nodes: the node leaves the record at once. */
  lemma NotShownIsLeftAlone(c: string, name: string, calls: seq<Call>, ok: bool, r: Cluster, listing: map<nat, string>)
    requires Removal(c, name, calls, ok) && Begins(calls, r, listing)
    requires FindNode(r.nodes, name).Some? ==> !Shows(r, listing, c, FindNode(r.nodes, name).value.vmId)
    ensures |calls| > 3 && calls[3].NodeDropped?
    ensures forall call :: call in calls && OnNode(call) ==> Scrubs(call, FullName(c, name))
  {
    var a :| Ran(RemovalPlan(c, name, a), calls, ok);
    var master, target, rest := RemovalSurveys(c, name, a, calls, ok, r, listing);
    assert Onward(c, r, name, master, target, a) == Forgetting(c, name, a.rest, a.third);
    DropsFirst(c, name, a.rest, a.third, rest, ok);
    forall call | call in rest && OnNode(call) ensures Scrubs(call, FullName(c, name)) {
      OnlyScrubs(c, name, a.rest, a.third, rest, ok, call);
    }
    AlsoFromStart(calls, r, listing, rest, FullName(c, name));
  }

  lemma AlsoFromStart(calls: seq<Call>, r: Cluster, listing: map<nat, string>, rest: seq<Call>, pattern: string)
    requires calls == [Noted(Info, "Start deleting node"), RecordRead(Some(r)), ListVms(listing, true)] + rest
    requires forall call :: call in rest && OnNode(call) ==> Scrubs(call, pattern)
    ensures forall call :: call in calls && OnNode(call) ==> Scrubs(call, pattern)
  {
  }

  lemma DropsFirst(c: string, name: string, r: Cluster, listing: map<nat, string>, calls: seq<Call>, ok: bool)
    requires Ran(Forgetting(c, name, r, listing), calls, ok)
    ensures calls != [] && calls[0].NodeDropped?
  {
    var drop, tail, gone := RanFirst(RetireNode, Forgetting(c, name, r, listing)[1..], calls, ok);
  }

  lemma OnlyScrubs(c: string, name: string, r: Cluster, listing: map<nat, string>, calls: seq<Call>, ok: bool, call: Call)
    requires Ran(Forgetting(c, name, r, listing), calls, ok) && call in calls && OnNode(call)
    ensures Scrubs(call, FullName(c, name))
  {
    var t, seg, done := CallHasTask(Forgetting(c, name, r, listing), calls, ok, call);
    if t in Each(Existing(r.nodes, listing, c), CleanseTasks(FullName(c, name))) {
      var n := EachIsOf(Existing(r.nodes, listing, c), CleanseTasks(FullName(c, name)), t);
    }
  }

  /** If it shows it, the next call after a note drains the node, on the first master of another name. */
  lemma ShownIsDrained(c: string, name: string, calls: seq<Call>, ok: bool, r: Cluster, listing: map<nat, string>)
      returns (master: ClusterNode, target: ClusterNode)
    requires Removal(c, name, calls, ok) && Begins(calls, r, listing)
    requires FindNode(r.nodes, name).Some? ==> Shows(r, listing, c, FindNode(r.nodes, name).value.vmId)
    ensures Chosen(r, name, master, target)
    ensures |calls| > 4 && calls[3] == Noted(Info, "Drain a node")
    ensures calls[4] == Call.Ssh(master, Drain(FullName(c, name)), true) || calls[4] == Call.Ssh(master, Drain(FullName(c, name)), false)
  {
    var a :| Ran(RemovalPlan(c, name, a), calls, ok);
    var rest;
    master, target, rest := RemovalSurveys(c, name, a, calls, ok, r, listing);
    Assoc(Detaching(c, master, target), RemovingIfListed(c, r.nodes, target, a.second), Forgetting(c, name, a.rest, a.third));
    DrainsFirst(c, master, target, RemovingIfListed(c, r.nodes, target, a.second) + Forgetting(c, name, a.rest, a.third), rest, ok);
  }

  lemma DrainsFirst(c: string, master: ClusterNode, target: ClusterNode, more: seq<Task>, calls: seq<Call>, ok: bool)
    requires Ran(Detaching(c, master, target) + more, calls, ok)
    ensures |calls| > 1 && calls[0] == Noted(Info, "Drain a node")
    ensures calls[1].Ssh? && calls[1] == Call.Ssh(master, Drain(FullName(c, target.name)), calls[1].ok)
  {
    var drain, rest := Order(master, Drain(FullName(c, target.name))), Detaching(c, master, target)[2..] + more;
    assert Detaching(c, master, target) + more == [Tell(Info, "Drain a node")] + ([drain] + rest);
    var note, tail, told := RanFirst(Tell(Info, "Drain a node"), [drain] + rest, calls, ok);
    var order, later, done := RanFirst(drain, rest, tail, ok);
    assert calls[1] == tail[0];
  }

  // ------------------------------------------------------------ what comes before what

  lemma OneStep(plan: seq<Task>, k: nat)
    requires forall t :: t in plan ==> Destructive(t) && (DownRank(t) == 0 || DownRank(t) == k)
    ensures Ranged(plan, k, k)
  {
    OneRank(plan, DownRank, k);
  }

  lemma DetachingInOrder(c: string, master: ClusterNode, target: ClusterNode)
    ensures Ranged(Detaching(c, master, target), 1, 3)
  {
    var drain := [Tell(Info, "Drain a node"), Order(master, Drain(FullName(c, target.name)))];
    var leave := [Tell(Info, "Wait 30s to gracefully shutdown pods"), Tell(Info, "Detach a node from the cluster"), Order(target, Leave)];
    var forget := [Order(master, Forget(FullName(c, target.name)))];
    OneStep(drain, 1);
    OneStep(leave, 2);
    OneStep(forget, 3);
    RangedThen(leave, forget, 2, 2, 3, 3);
    RangedThen(drain, leave + forget, 1, 1, 2, 3);
    assert drain + (leave + forget) == Detaching(c, master, target);
  }

  lemma RemovingInOrder(target: ClusterNode)
    ensures Ranged(Removing(target), 4, 6)
  {
    OneStep([Tell(Info, "Removing VM")], 4);
    OneStep(AskTasks(target), 4);
    OneStep([AwaitDown(target, [])], 5);
    OneStep(EraseTasks(target), 6);
    RangedThen([AwaitDown(target, [])], EraseTasks(target), 5, 5, 6, 6);
    RangedThen(AskTasks(target), [AwaitDown(target, [])] + EraseTasks(target), 4, 4, 5, 6);
    RangedThen([Tell(Info, "Removing VM")], AskTasks(target) + ([AwaitDown(target, [])] + EraseTasks(target)), 4, 4, 4, 6);
  }

  lemma ForgettingInOrder(c: string, name: string, rest: Cluster, listing: map<nat, string>)
    ensures Ranged(Forgetting(c, name, rest, listing), 7, 8)
  {
    var existing, tasks := Existing(rest.nodes, listing, c), CleanseTasks(FullName(c, name));
    EachDestructive(existing, tasks, 8);
    OneStep([RetireNode], 7);
    OneStep([Fetch(rest), Survey(listing)], 8);
    RangedThen([Fetch(rest), Survey(listing)], Each(existing, tasks), 8, 8, 8, 8);
    RangedThen([RetireNode], [Fetch(rest), Survey(listing)] + Each(existing, tasks), 7, 7, 7, 8);
  }

  /** The second listing still shows the id under the name of the node. */
  predicate StillShows(r: Cluster, listing: map<nat, string>, c: string, target: ClusterNode) {
    exists n :: n in r.nodes && n.name == target.name && n.vmId == target.vmId && Listed(listing, c, n)
  }

  lemma StillShowsIsHasId(r: Cluster, listing: map<nat, string>, c: string, target: ClusterNode)
    ensures StillShows(r, listing, c, target) <==> HasId(Existing(Named(r.nodes, target.name), listing, c), target.vmId)
  {
    if StillShows(r, listing, c, target) {
      var n :| n in r.nodes && n.name == target.name && n.vmId == target.vmId && Listed(listing, c, n);
      assert n in Existing(Named(r.nodes, target.name), listing, c);
    }
  }

  /** What is left to do once the second listing has been read. */
  function After(c: string, r: Cluster, name: string, target: ClusterNode, a: Answers): seq<Task> {
    (if StillShows(r, a.second, c, target) then Removing(target) else []) + Forgetting(c, name, a.rest, a.third)
  }

  lemma AfterInOrder(c: string, r: Cluster, name: string, target: ClusterNode, a: Answers)
    ensures Ranged(After(c, r, name, target, a), 4, 8)
  {
    ForgettingInOrder(c, name, a.rest, a.third);
    RemovingInOrder(target);
    OneStep([], 4);
    RangedThen(if StillShows(r, a.second, c, target) then Removing(target) else [], Forgetting(c, name, a.rest, a.third), 4, 6, 7, 8);
  }

  /** The whole plan of a removal of a node that is shown. */
  function FullRemoval(c: string, r: Cluster, name: string, master: ClusterNode, target: ClusterNode, a: Answers): seq<Task> {
    Detaching(c, master, target) + ([Survey(a.second)] + After(c, r, name, target, a))
  }

  lemma OnwardIsFull(c: string, r: Cluster, name: string, master: ClusterNode, target: ClusterNode, a: Answers)
    requires Shows(r, a.first, c, target.vmId)
    ensures Onward(c, r, name, master, target, a) == FullRemoval(c, r, name, master, target, a)
  {
    StillShowsIsHasId(r, a.second, c, target);
    var on := if StillShows(r, a.second, c, target) then Removing(target) else [];
    Assoc([Survey(a.second)], on, Forgetting(c, name, a.rest, a.third));
    Assoc(Detaching(c, master, target), [Survey(a.second)] + on, Forgetting(c, name, a.rest, a.third));
  }

  lemma FullRemovalInOrder(c: string, r: Cluster, name: string, master: ClusterNode, target: ClusterNode, a: Answers)
    ensures Ranged(FullRemoval(c, r, name, master, target, a), 1, 8)
  {
    DetachingInOrder(c, master, target);
    AfterInOrder(c, r, name, target, a);
    OneStep([Survey(a.second)], 4);
    RangedThen([Survey(a.second)], After(c, r, name, target, a), 4, 4, 4, 8);
    RangedThen(Detaching(c, master, target), [Survey(a.second)] + After(c, r, name, target, a), 1, 3, 4, 8);
  }

  lemma FullTasks(c: string, r: Cluster, name: string, master: ClusterNode, target: ClusterNode, a: Answers)
    ensures var plan := FullRemoval(c, r, name, master, target, a);
      && Order(master, Drain(FullName(c, target.name))) in plan && Order(target, Leave) in plan
      && Order(master, Forget(FullName(c, target.name))) in plan
      && (StillShows(r, a.second, c, target) ==> AskDown(target) in plan && AwaitDown(target, []) in plan && Erase(target) in plan)
  {
    var plan, detaching := FullRemoval(c, r, name, master, target, a), Detaching(c, master, target);
    assert detaching[1] == Order(master, Drain(FullName(c, target.name))) && detaching[4] == Order(target, Leave);
    assert detaching[5] == Order(master, Forget(FullName(c, target.name)));
    if StillShows(r, a.second, c, target) { RemovingTasks(target); }
  }

  lemma RemovingTasks(target: ClusterNode)
    ensures AskDown(target) in Removing(target) && AwaitDown(target, []) in Removing(target) && Erase(target) in Removing(target)
  {
    assert AskTasks(target)[0] == AskDown(target) && EraseTasks(target)[0] == Erase(target);
  }

  /** Only the departing VM is touched, and only if the second listing still shows it. */
  lemma TouchesTarget(c: string, r: Cluster, name: string, master: ClusterNode, target: ClusterNode, a: Answers, t: Task)
    requires t in FullRemoval(c, r, name, master, target, a) && (t.AskDown? || t.AwaitDown? || t.Erase?)
    ensures StillShows(r, a.second, c, target) && t in Removing(target) && t.node == target
  {
    var existing, tasks := Existing(a.rest.nodes, a.third, c), CleanseTasks(FullName(c, name));
    if t in Each(existing, tasks) { var n := EachIsOf(existing, tasks, t); }
    assert t !in Forgetting(c, name, a.rest, a.third);
    assert t !in Detaching(c, master, target);
  }

  ghost predicate Detached(c: string, calls: seq<Call>, j: nat, master: ClusterNode, target: ClusterNode)
    requires j < |calls|
  {
    && (DownStep(calls[j]) >= 2 ==> Call.Ssh(master, Drain(FullName(c, target.name)), true) in calls[..j])
    && (DownStep(calls[j]) >= 3 ==> Call.Ssh(target, Leave, true) in calls[..j])
    && (DownStep(calls[j]) >= 4 ==> Call.Ssh(master, Forget(FullName(c, target.name)), true) in calls[..j])
  }

  lemma OrderedBefore(plan: seq<Task>, calls: seq<Call>, ok: bool, n: ClusterNode, command: Command, j: nat)
    requires Stepped(plan, calls, ok) && Order(n, command) in plan && j < |calls|
    requires 0 < DownRank(Order(n, command)) < DownStep(calls[j])
    ensures Call.Ssh(n, command, true) in calls[..j]
  {
    var seg := DoneBefore(plan, calls, ok, DownRank, StepOf, j, Order(n, command));
  }

  lemma DetachedFirst(plan: seq<Task>, c: string, master: ClusterNode, target: ClusterNode, calls: seq<Call>, ok: bool, j: nat)
    requires Stepped(plan, calls, ok) && j < |calls|
    requires Order(master, Drain(FullName(c, target.name))) in plan && Order(target, Leave) in plan
    requires Order(master, Forget(FullName(c, target.name))) in plan
    ensures Detached(c, calls, j, master, target)
  {
    if DownStep(calls[j]) >= 2 { OrderedBefore(plan, calls, ok, master, Drain(FullName(c, target.name)), j); }
    if DownStep(calls[j]) >= 3 { OrderedBefore(plan, calls, ok, target, Leave, j); }
    if DownStep(calls[j]) >= 4 { OrderedBefore(plan, calls, ok, master, Forget(FullName(c, target.name)), j); }
  }

  predicate TouchesVm(call: Call) {
    call.Shutdown? || call.Poll? || call.HardStop? || call.Delete?
  }

  lemma TouchedByTask(plan: seq<Task>, calls: seq<Call>, ok: bool, call: Call) returns (t: Task)
    requires Stepped(plan, calls, ok) && call in calls && TouchesVm(call)
    ensures t in plan && (t.AskDown? || t.AwaitDown? || t.Erase?) && t.node == call.node
  {
    var seg, done;
    t, seg, done := CallHasTask(plan, calls, ok, call);
    CallOfStep(t, seg, done, call);
  }

  lemma FullIsStepped(c: string, r: Cluster, name: string, master: ClusterNode, target: ClusterNode, a: Answers, calls: seq<Call>, ok: bool)
    requires Ran(FullRemoval(c, r, name, master, target, a), calls, ok)
    ensures Stepped(FullRemoval(c, r, name, master, target, a), calls, ok)
  {
    FullRemovalInOrder(c, r, name, master, target, a);
    StepsKeepRank(FullRemoval(c, r, name, master, target, a));
  }

  /** What the calls after the first listing keep to. */
  ghost predicate Disciplined(c: string, master: ClusterNode, target: ClusterNode, calls: seq<Call>) {
    && InSteps(calls)
    && (forall j :: 0 <= j < |calls| ==> Detached(c, calls, j, master, target))
    && (forall j :: 0 <= j < |calls| && TouchesVm(calls[j]) ==> calls[j].node == target)
    && (forall j :: 0 <= j < |calls| && calls[j].Delete? ==> Prepared(calls, j))
  }

  lemma FullIsDisciplined(c: string, r: Cluster, name: string, master: ClusterNode, target: ClusterNode, a: Answers, calls: seq<Call>, ok: bool)
    requires Ran(FullRemoval(c, r, name, master, target, a), calls, ok)
    ensures Disciplined(c, master, target, calls)
  {
    var plan := FullRemoval(c, r, name, master, target, a);
    FullIsStepped(c, r, name, master, target, a, calls, ok);
    FullTasks(c, r, name, master, target, a);
    SteppedInSteps(plan, calls, ok);
    forall j | 0 <= j < |calls| ensures Detached(c, calls, j, master, target) { DetachedFirst(plan, c, master, target, calls, ok, j); }
    forall j | 0 <= j < |calls| && TouchesVm(calls[j])
      ensures calls[j].node == target && StillShows(r, a.second, c, target)
    {
      var t := TouchedByTask(plan, calls, ok, calls[j]);
      TouchesTarget(c, r, name, master, target, a, t);
    }
    forall j | 0 <= j < |calls| && calls[j].Delete? ensures Prepared(calls, j) {
      ErasureIsPrepared(plan, calls, ok, target, [], j);
    }
  }

  /** In every removal whose first listing shows the node: drain, leave, forget, shutdown, wait, deletion,
      removal from the record and cleansing come in this order; no later one before the drain, the leave
      and the forget have been granted; only the VM of the departing node is shut down, stopped or
      deleted, and it is deleted only after a granted shutdown request and then a poll that saw it stopped
      or a hard stop. */
  lemma RemovalIsDisciplined(c: string, name: string, calls: seq<Call>, ok: bool, r: Cluster, listing: map<nat, string>)
      returns (master: ClusterNode, target: ClusterNode)
    requires Removal(c, name, calls, ok) && Begins(calls, r, listing)
    requires FindNode(r.nodes, name).Some? ==> Shows(r, listing, c, FindNode(r.nodes, name).value.vmId)
    ensures Chosen(r, name, master, target) && Disciplined(c, master, target, calls[3..])
  {
    var a :| Ran(RemovalPlan(c, name, a), calls, ok);
    var rest;
    master, target, rest := RemovalSurveys(c, name, a, calls, ok, r, listing);
    OnwardIsFull(c, r, name, master, target, a);
    FullIsDisciplined(c, r, name, master, target, a, rest, ok);
    assert calls[3..] == rest;
  }

  // ------------------------------------------------------------ the second listing

  /** The second listing is the call after the six of the detachment. */
  lemma SecondListing(c: string, r: Cluster, name: string, master: ClusterNode, target: ClusterNode, a: Answers,
                      calls: seq<Call>, ok: bool, second: map<nat, string>) returns (rest: seq<Call>)
    requires Ran(FullRemoval(c, r, name, master, target, a), calls, ok) && |calls| > 6 && calls[6] == ListVms(second, true)
    ensures a.second == second && calls[7..] == rest && Ran(After(c, r, name, target, a), rest, ok)
  {
    Leading(Detaching(c, master, target), [Survey(a.second)] + After(c, r, name, target, a), calls, ok);
    rest := Surveyed(a.second, After(c, r, name, target, a), calls[6..], ok, second);
    assert calls[7..] == calls[6..][1..];
  }

  /** What follows the second listing: the VM is shut down if it is still shown, else the node leaves. */
  ghost predicate GoesOnWith(calls: seq<Call>, at: nat, shown: bool, target: ClusterNode) {
    if shown then |calls| > at + 1 && calls[at] == Noted(Info, "Removing VM") && calls[at + 1].Shutdown? && calls[at + 1].node == target
    else |calls| > at && calls[at].NodeDropped? && forall call :: call in calls ==> !TouchesVm(call)
  }

  lemma AfterDecides(c: string, r: Cluster, name: string, master: ClusterNode, target: ClusterNode, a: Answers,
                     calls: seq<Call>, ok: bool, second: map<nat, string>)
    requires Ran(FullRemoval(c, r, name, master, target, a), calls, ok) && |calls| > 6 && calls[6] == ListVms(second, true)
    ensures GoesOnWith(calls, 7, StillShows(r, second, c, target), target)
  {
    var later := SecondListing(c, r, name, master, target, a, calls, ok, second);
    assert forall i :: 0 <= i < |later| ==> later[i] == calls[7 + i];
    if StillShows(r, second, c, target) {
      ShutsDownFirst(c, name, target, a, later, ok);
    } else {
      assert [] + Forgetting(c, name, a.rest, a.third) == Forgetting(c, name, a.rest, a.third);
      DropsFirst(c, name, a.rest, a.third, later, ok);
      NothingTouched(c, r, name, master, target, a, calls, ok);
    }
  }

  lemma GoesOnFurther(calls: seq<Call>, r: Cluster, listing: map<nat, string>, rest: seq<Call>, at: nat, shown: bool, target: ClusterNode)
    requires calls == [Noted(Info, "Start deleting node"), RecordRead(Some(r)), ListVms(listing, true)] + rest
    requires GoesOnWith(rest, at, shown, target)
    ensures GoesOnWith(calls, at + 3, shown, target)
  {
    assert forall i :: 0 <= i < |rest| ==> rest[i] == calls[3 + i];
  }

  /** The call after the detachment reads a second listing; the VM is stopped and deleted if and only if
      that still shows its id under the name of the node, and otherwise the node leaves the record. */
  lemma SecondListingDecides(c: string, name: string, calls: seq<Call>, ok: bool, r: Cluster, listing: map<nat, string>, second: map<nat, string>)
    requires Removal(c, name, calls, ok) && Begins(calls, r, listing) && |calls| > 9 && calls[9] == ListVms(second, true)
    requires FindNode(r.nodes, name).Some? && Shows(r, listing, c, FindNode(r.nodes, name).value.vmId)
    ensures GoesOnWith(calls, 10, StillShows(r, second, c, FindNode(r.nodes, name).value), FindNode(r.nodes, name).value)
  {
    var a :| Ran(RemovalPlan(c, name, a), calls, ok);
    var master, target, rest := RemovalSurveys(c, name, a, calls, ok, r, listing);
    OnwardIsFull(c, r, name, master, target, a);
    assert rest[6] == calls[9];
    AfterDecides(c, r, name, master, target, a, rest, ok, second);
    GoesOnFurther(calls, r, listing, rest, 7, StillShows(r, second, c, target), target);
  }

  lemma ShutsDownFirst(c: string, name: string, target: ClusterNode, a: Answers, calls: seq<Call>, ok: bool)
    requires Ran(Removing(target) + Forgetting(c, name, a.rest, a.third), calls, ok)
    ensures |calls| > 1 && calls[0] == Noted(Info, "Removing VM") && calls[1].Shutdown? && calls[1].node == target
  {
    var more := Removing(target)[2..] + Forgetting(c, name, a.rest, a.third);
    assert Removing(target) + Forgetting(c, name, a.rest, a.third) == [Tell(Info, "Removing VM")] + ([AskDown(target)] + more);
    var note, tail, told := RanFirst(Tell(Info, "Removing VM"), [AskDown(target)] + more, calls, ok);
    var ask, later, done := RanFirst(AskDown(target), more, tail, ok);
    assert calls[1] == tail[0];
  }

  lemma NothingTouched(c: string, r: Cluster, name: string, master: ClusterNode, target: ClusterNode, a: Answers, calls: seq<Call>, ok: bool)
    requires Ran(FullRemoval(c, r, name, master, target, a), calls, ok) && !StillShows(r, a.second, c, target)
    ensures forall call :: call in calls ==> !TouchesVm(call)
  {
    FullIsStepped(c, r, name, master, target, a, calls, ok);
    forall call | call in calls ensures !TouchesVm(call) {
      if TouchesVm(call) {
        var t := TouchedByTask(FullRemoval(c, r, name, master, target, a), calls, ok, call);
        TouchesTarget(c, r, name, master, target, a, t);
      }
    }
  }

  // ------------------------------------------------------------ the end

  /** These calls make every node that the listing shows forget the name. */
  ghost predicate AllForget(c: string, name: string, rest: Cluster, listing: map<nat, string>, calls: seq<Call>) {
    forall n :: n in rest.nodes && Listed(listing, c, n) ==>
      Call.Ssh(n, ScrubTemplate(FullName(c, name)), true) in calls && Call.Ssh(n, ScrubHost(FullName(c, name)), true) in calls
  }

  lemma ForgettingDone(c: string, name: string, r: Cluster, listing: map<nat, string>, calls: seq<Call>) returns (rest: seq<Call>)
    requires Ran(Forgetting(c, name, r, listing), calls, true)
    ensures calls == [NodeDropped(true), RecordRead(Some(r)), ListVms(listing, true)] + rest && AllForget(c, name, r, listing, rest)
  {
    var existing, tasks := Existing(r.nodes, listing, c), CleanseTasks(FullName(c, name));
    assert Forgetting(c, name, r, listing) == [RetireNode] + ([Fetch(r)] + ([Survey(listing)] + Each(existing, tasks)));
    var a, x, _ := RanFirst(RetireNode, [Fetch(r)] + ([Survey(listing)] + Each(existing, tasks)), calls, true);
    var b, y, _ := RanFirst(Fetch(r), [Survey(listing)] + Each(existing, tasks), x, true);
    var d, z, _ := RanFirst(Survey(listing), Each(existing, tasks), y, true);
    rest := z;
    forall n | n in r.nodes && Listed(listing, c, n)
      ensures Call.Ssh(n, ScrubTemplate(FullName(c, name)), true) in rest && Call.Ssh(n, ScrubHost(FullName(c, name)), true) in rest
    {
      EachHas(existing, tasks, n, Cleanse(n, FullName(c, name)));
      TaskDone(Each(existing, tasks), rest, Cleanse(n, FullName(c, name)));
    }
  }

  lemma TaskDone(plan: seq<Task>, calls: seq<Call>, t: Task)
    requires Ran(plan, calls, true) && t in plan && t.Cleanse?
    ensures Call.Ssh(t.node, ScrubTemplate(t.name), true) in calls && Call.Ssh(t.node, ScrubHost(t.name), true) in calls
  {
    var segs :| Split(plan, segs, true) && Flat(segs) == calls;
    var k :| 0 <= k < |plan| && plan[k] == t;
    assert Run(plan[k], segs[k], true);
    assert segs[..|segs|] == segs;
    SegmentBefore(segs, k, |segs|, segs[k][0]);
    SegmentBefore(segs, k, |segs|, segs[k][1]);
  }

  /** A removal that succeeds has dropped the node, read the record and a listing afresh, and made every
      node that this listing shows forget the name, as its last calls. */
  ghost predicate Forgot(c: string, name: string, calls: seq<Call>) {
    exists before, rest, listing, scrubs ::
      calls == before + ([NodeDropped(true), RecordRead(Some(rest)), ListVms(listing, true)] + scrubs)
      && AllForget(c, name, rest, listing, scrubs)
  }

  lemma RemovalForgets(c: string, name: string, calls: seq<Call>, r: Cluster, listing: map<nat, string>)
    requires Removal(c, name, calls, true) && Begins(calls, r, listing)
    ensures Forgot(c, name, calls)
  {
    var a :| Ran(RemovalPlan(c, name, a), calls, true);
    var master, target, rest := RemovalSurveys(c, name, a, calls, true, r, listing);
    var on := if Shows(r, a.first, c, target.vmId) then Detaching(c, master, target) + RemovingIfListed(c, r.nodes, target, a.second) else [];
    var x, y, _ := RanSplit(on, Forgetting(c, name, a.rest, a.third), rest, true);
    var scrubs := ForgettingDone(c, name, a.rest, a.third, y);
    ForgotAfter(c, name, [Noted(Info, "Start deleting node"), RecordRead(Some(r)), ListVms(listing, true)], x, y, a.rest, a.third, scrubs);
  }

  lemma ForgotAfter(c: string, name: string, head: seq<Call>, x: seq<Call>, y: seq<Call>, r: Cluster, listing: map<nat, string>, scrubs: seq<Call>)
    requires y == [NodeDropped(true), RecordRead(Some(r)), ListVms(listing, true)] + scrubs && AllForget(c, name, r, listing, scrubs)
    ensures Forgot(c, name, head + (x + y))
  {
    Assoc(head, x, y);
    assert head + (x + y) == (head + x) + ([NodeDropped(true), RecordRead(Some(r)), ListVms(listing, true)] + scrubs);
  }
}
