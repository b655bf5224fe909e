/** Deleting one node (core/src/dispatcher/usecase/delete_node_from_cluster.rs): drain and detach
    it, delete its VM, take it out of the record, and make the other nodes forget it. */
module DeleteNode {
  import opened Model
  import opened Records
  import opened Machine
  import opened World
  import opened Edits
  import opened Plan
  import opened Common
  import opened DeleteCluster

  // ------------------------------------------------------------ the plan

  function Named(nodes: seq<ClusterNode>, name: string): (r: seq<ClusterNode>)
    ensures forall n :: n in r <==> n in nodes && n.name == name
  {
    if nodes == [] then []
    else
      assert nodes == [nodes[0]] + nodes[1..];
      (if nodes[0].name == name then [nodes[0]] else []) + Named(nodes[1..], name)
  }

  predicate HasId(nodes: seq<ClusterNode>, id: nat) {
    exists e :: e in nodes && e.vmId == id
  }

  /** The master drains the node, the node leaves, the master forgets it. */
  function Detaching(c: string, master: ClusterNode, target: ClusterNode): seq<Task> {
    [Tell(Info, "Drain a node"), Order(master, Drain(FullName(c, target.name))),
     Tell(Info, "Wait 30s to gracefully shutdown pods"), Tell(Info, "Detach a node from the cluster"),
     Order(target, Leave), Order(master, Forget(FullName(c, target.name)))]
  }

  /** The VM is shut down and deleted. */
  function Removing(target: ClusterNode): seq<Task> {
    [Tell(Info, "Removing VM")] + (AskTasks(target) + ([AwaitDown(target, [])] + EraseTasks(target)))
  }

  /** After the detachment: the VM is removed if a second listing, read for the nodes of this name
      only, still shows its id. */
  function RemovingIfListed(c: string, nodes: seq<ClusterNode>, target: ClusterNode, listing: map<nat, string>): seq<Task> {
    [Survey(listing)] + if HasId(Existing(Named(nodes, target.name), listing, c), target.vmId) then Removing(target) else []
  }

  /** All that concerns the VM; nothing at all if the first listing does not show its id. */
  function Clearing(c: string, nodes: seq<ClusterNode>, master: ClusterNode, target: ClusterNode,
                    first: map<nat, string>, second: map<nat, string>): seq<Task> {
    [Survey(first)] +
    if HasId(Existing(nodes, first, c), target.vmId) then Detaching(c, master, target) + RemovingIfListed(c, nodes, target, second)
    else []
  }

  function CleanseTasks(pattern: string): ClusterNode -> seq<Task> {
    (n: ClusterNode) => [Cleanse(n, pattern)]
  }

  /** The node leaves the record, and the listed nodes of the record `rest`, read afresh, forget it. */
  function Forgetting(c: string, name: string, rest: Cluster, listing: map<nat, string>): seq<Task> {
    [RetireNode] + ([Fetch(rest), Survey(listing)] + Each(Existing(rest.nodes, listing, c), CleanseTasks(FullName(c, name))))
  }

  /** What the worker reads on the way. */
  datatype Answers = Answers(record: Cluster, first: map<nat, string>, second: map<nat, string>,
                             rest: Cluster, third: map<nat, string>)

  /** What a removal has to do, from these answers; the only node of a cluster is kept. */
  function RemovalWork(c: string, name: string, a: Answers): seq<Task> {
    var nodes := a.record.nodes;
    if |nodes| == 1 then [Tell(Fault, "Cannot delete last node, delete whole cluster instead")]
    else if FindOtherMaster(nodes, name).None? || FindNode(nodes, name).None? then [Stuck]
    else
      Clearing(c, nodes, FindOtherMaster(nodes, name).value, FindNode(nodes, name).value, a.first, a.second)
      + Forgetting(c, name, a.rest, a.third)
  }

  function RemovalPlan(c: string, name: string, a: Answers): seq<Task> {
    [Tell(Info, "Start deleting node"), Fetch(a.record)] + RemovalWork(c, name, a)
  }

  // ------------------------------------------------------------ the VM

  /** The node is in the record, and another node of it is a master. */
  predicate Deletable(w: Work, target: ClusterNode) {
    && w.event.DeleteNode? && w.snap.Some?
    && FindNode(w.snap.value.nodes, w.event.node) == Some(target)
    && FindOtherMaster(w.snap.value.nodes, w.event.node).Some?
    && !w.tainted && w.made == {}
  }

  /** The trace grew by a run of the plan; the node is ticked off if it was successful. */
  ghost predicate Cleared(before: Work, after: Work, plan: seq<Task>, target: ClusterNode, ok: bool) {
    && Did(before.calls, after.calls, plan, ok) && after.event == before.event && after.removed == before.removed
    && after.unlocked == before.unlocked && (ok ==> Deletable(after, target) && Ident(target) in after.gone)
  }

  method AwaitVmDown(w: World, n: ClusterNode) returns (r: Outcome)
    requires w.InEvent() && w.W().snap.Some? && MayPower(w.W(), n)
    modifies w
    ensures w.InEvent() && w.Since(old(w.steps), old(w.s.dispatched))
    ensures Just(old(w.W()), w.W(), [AwaitDown(n, [])], r.Ok?)
  {
    ghost var seg;
    r, seg := AwaitShutdown(w, n, None);
    JustOne(old(w.W()), AwaitDown(n, []), seg, r.Ok?);
  }

  method AwaitAndErase(w: World, n: ClusterNode) returns (r: Outcome)
    requires w.InEvent() && w.W().event.DeleteNode? && w.W().snap.Some? && n in w.W().snap.value.nodes && Ident(n) in w.W().seen
    modifies w
    ensures w.InEvent() && w.Since(old(w.steps), old(w.s.dispatched))
    ensures Did(old(w.W()).calls, w.W().calls, [AwaitDown(n, [])] + EraseTasks(n), r.Ok?)
    ensures w.W() == old(w.W()).(calls := w.W().calls, gone := if r.Ok? then old(w.W()).gone + {Ident(n)} else old(w.W()).gone)
  {
    ghost var w0 := w.W();
    r := AwaitVmDown(w, n);
    if r.Err? { DidBroken(w0.calls, w.W().calls, [AwaitDown(n, [])], EraseTasks(n)); return; }
    ghost var w1 := w.W();
    r := EraseOne(w, n);
    DidThen(w0.calls, w1.calls, w.W().calls, [AwaitDown(n, [])], EraseTasks(n), r.Ok?);
  }

  method AskAndErase(w: World, n: ClusterNode) returns (r: Outcome)
    requires w.InEvent() && w.W().event.DeleteNode? && w.W().snap.Some? && n in w.W().snap.value.nodes && Ident(n) in w.W().seen
    modifies w
    ensures w.InEvent() && w.Since(old(w.steps), old(w.s.dispatched))
    ensures Did(old(w.W()).calls, w.W().calls, AskTasks(n) + ([AwaitDown(n, [])] + EraseTasks(n)), r.Ok?)
    ensures w.W() == old(w.W()).(calls := w.W().calls, gone := if r.Ok? then old(w.W()).gone + {Ident(n)} else old(w.W()).gone)
  {
    ghost var w0, rest := w.W(), [AwaitDown(n, [])] + EraseTasks(n);
    r := AskOne(w, n);
    if r.Err? { DidBroken(w0.calls, w.W().calls, AskTasks(n), rest); return; }
    ghost var w1 := w.W();
    r := AwaitAndErase(w, n);
    DidThen(w0.calls, w1.calls, w.W().calls, AskTasks(n), rest, r.Ok?);
  }

  method RemoveVm(w: World, n: ClusterNode) returns (r: Outcome)
    requires w.InEvent() && w.W().event.DeleteNode? && w.W().snap.Some? && n in w.W().snap.value.nodes && Ident(n) in w.W().seen
    modifies w
    ensures w.InEvent() && w.Since(old(w.steps), old(w.s.dispatched))
    ensures Did(old(w.W()).calls, w.W().calls, Removing(n), r.Ok?)
    ensures w.W() == old(w.W()).(calls := w.W().calls, gone := if r.Ok? then old(w.W()).gone + {Ident(n)} else old(w.W()).gone)
  {
    ghost var w0, rest := w.W(), AskTasks(n) + ([AwaitDown(n, [])] + EraseTasks(n));
    LogOnly(w, "Removing VM");
    ghost var w1 := w.W();
    r := AskAndErase(w, n);
    DidThen(w0.calls, w1.calls, w.W().calls, [Tell(Info, "Removing VM")], rest, r.Ok?);
  }

  /** Whether a listing shows the target's id under the name of one of the nodes. */
  method LooksListed(w: World, nodes: seq<ClusterNode>, target: ClusterNode) returns (r: Result<bool, string>, listing: map<nat, string>)
    requires w.InEvent() && w.W().snap.Some? && target in nodes && target in w.W().snap.value.nodes
    modifies w
    ensures w.InEvent() && w.Since(old(w.steps), old(w.s.dispatched))
    ensures Did(old(w.W()).calls, w.W().calls, [Survey(listing)], r.Ok?)
    ensures w.W() == old(w.W()).(calls := w.W().calls, listed := w.W().listed, seen := w.W().seen, gone := w.W().gone)
    ensures r.Ok? ==> r.value == HasId(Existing(nodes, listing, w.W().event.cluster), target.vmId)
    ensures r == Ok(false) ==> Ident(target) in w.W().gone
    ensures r == Ok(true) && (forall n :: n in nodes ==> n.name == target.name) ==> Ident(target) in w.W().seen
  {
    assert Ident(target) in Idents(w.W().snap.value.nodes);
    var existing;
    existing, listing := GetExistingVms(w, nodes);
    if existing.Err? { return Err(existing.error), listing; }
    r := Ok(HasId(existing.value, target.vmId));
    if r == Ok(false) { assert target !in existing.value; }
  }

  method RemoveVmIfListed(w: World, nodes: seq<ClusterNode>, target: ClusterNode) returns (r: Outcome, ghost listing: map<nat, string>)
    requires w.InEvent() && Deletable(w.W(), target) && w.W().snap.value.nodes == nodes
    modifies w
    ensures w.InEvent() && w.Since(old(w.steps), old(w.s.dispatched))
    ensures Cleared(old(w.W()), w.W(), RemovingIfListed(w.W().event.cluster, nodes, target, listing), target, r.Ok?)
  {
    ghost var w0 := w.W();
    var listed;
    listed, listing := LooksListed(w, Named(nodes, target.name), target);
    ghost var rest := RemovingIfListed(w0.event.cluster, nodes, target, listing)[1..];
    assert RemovingIfListed(w0.event.cluster, nodes, target, listing) == [Survey(listing)] + rest;
    if listed.Err? {
      r := Err(listed.error);
      DidBroken(w0.calls, w.W().calls, [Survey(listing)], rest);
      return;
    }
    ghost var w1 := w.W();
    if listed.value {
      r := RemoveVm(w, target);
    } else {
      DidNothing(w1.calls);
      r := Ok(());
    }
    DidThen(w0.calls, w1.calls, w.W().calls, [Survey(listing)], rest, r.Ok?);
  }

  method LeaveCluster(w: World, master: ClusterNode, target: ClusterNode) returns (r: Outcome)
    requires w.InEvent() && w.W().snap.Some?
    modifies w
    ensures w.InEvent() && w.Since(old(w.steps), old(w.s.dispatched))
    ensures Just(old(w.W()), w.W(), Announced("Detach a node from the cluster", target, Leave)
                                    + [Order(master, Forget(FullName(w.W().event.cluster, target.name)))], r.Ok?)
  {
    ghost var w0, leave := w.W(), Announced("Detach a node from the cluster", target, Leave);
    ghost var forget := [Order(master, Forget(FullName(w0.event.cluster, target.name)))];
    r := LogAndSsh(w, target, Leave, "Detach a node from the cluster");
    if r.Err? { JustBroken(w0, w.W(), leave, forget); return; }
    ghost var w1 := w.W();
    r := RunCommand(w, master, Forget(FullName(w.s.mode.work.event.cluster, target.name)));
    JustThen(w0, w1, w.W(), leave, forget, r.Ok?);
  }

  method WaitAndLeave(w: World, master: ClusterNode, target: ClusterNode) returns (r: Outcome)
    requires w.InEvent() && w.W().snap.Some?
    modifies w
    ensures w.InEvent() && w.Since(old(w.steps), old(w.s.dispatched))
    ensures Just(old(w.W()), w.W(), Detaching(w.W().event.cluster, master, target)[2..], r.Ok?)
  {
    ghost var w0, tell := w.W(), [Tell(Info, "Wait 30s to gracefully shutdown pods")];
    LogOnly(w, "Wait 30s to gracefully shutdown pods");
    ghost var w1 := w.W();
    r := LeaveCluster(w, master, target);
    ghost var rest := Announced("Detach a node from the cluster", target, Leave)
                      + [Order(master, Forget(FullName(w0.event.cluster, target.name)))];
    JustThen(w0, w1, w.W(), tell, rest, r.Ok?);
    assert tell + rest == Detaching(w0.event.cluster, master, target)[2..];
  }

  /** Drains and detaches the node. */
  method Detach(w: World, master: ClusterNode, target: ClusterNode) returns (r: Outcome)
    requires w.InEvent() && w.W().snap.Some?
    modifies w
    ensures w.InEvent() && w.Since(old(w.steps), old(w.s.dispatched))
    ensures Just(old(w.W()), w.W(), Detaching(w.W().event.cluster, master, target), r.Ok?)
  {
    ghost var w0, plan := w.W(), Detaching(w.W().event.cluster, master, target);
    ghost var drain := Announced("Drain a node", master, Drain(FullName(w0.event.cluster, target.name)));
    assert plan == drain + plan[2..];
    r := LogAndSsh(w, master, Drain(FullName(w.s.mode.work.event.cluster, target.name)), "Drain a node");
    if r.Err? { JustBroken(w0, w.W(), drain, plan[2..]); return; }
    ghost var w1 := w.W();
    r := WaitAndLeave(w, master, target);
    JustThen(w0, w1, w.W(), drain, plan[2..], r.Ok?);
  }

  method DetachAndRemove(w: World, nodes: seq<ClusterNode>, master: ClusterNode, target: ClusterNode)
      returns (r: Outcome, ghost listing: map<nat, string>)
    requires w.InEvent() && Deletable(w.W(), target) && w.W().snap.value.nodes == nodes
    modifies w
    ensures w.InEvent() && w.Since(old(w.steps), old(w.s.dispatched))
    ensures Cleared(old(w.W()), w.W(), Detaching(w.W().event.cluster, master, target)
                                       + RemovingIfListed(w.W().event.cluster, nodes, target, listing), target, r.Ok?)
  {
    ghost var w0, detaching := w.W(), Detaching(w.W().event.cluster, master, target);
    listing := map[];
    r := Detach(w, master, target);
    if r.Err? {
      DidBroken(w0.calls, w.W().calls, detaching, RemovingIfListed(w0.event.cluster, nodes, target, listing));
      return;
    }
    ghost var w1 := w.W();
    r, listing := RemoveVmIfListed(w, nodes, target);
    DidThen(w0.calls, w1.calls, w.W().calls, detaching, RemovingIfListed(w0.event.cluster, nodes, target, listing), r.Ok?);
  }

  /** Sees to it that the VM is gone: at once if the first listing does not show it. */
  method ClearVm(w: World, nodes: seq<ClusterNode>, master: ClusterNode, target: ClusterNode)
      returns (r: Outcome, ghost first: map<nat, string>, ghost second: map<nat, string>)
    requires w.InEvent() && Deletable(w.W(), target) && w.W().snap.value.nodes == nodes
    modifies w
    ensures w.InEvent() && w.Since(old(w.steps), old(w.s.dispatched))
    ensures Cleared(old(w.W()), w.W(), Clearing(w.W().event.cluster, nodes, master, target, first, second), target, r.Ok?)
  {
    ghost var w0 := w.W();
    second := map[];
    var listed;
    listed, first := LooksListed(w, nodes, target);
    ghost var c := w0.event.cluster;
    if listed.Err? {
      r := Err(listed.error);
      DidBroken(w0.calls, w.W().calls, [Survey(first)], Clearing(c, nodes, master, target, first, second)[1..]);
      assert Clearing(c, nodes, master, target, first, second) == [Survey(first)] + Clearing(c, nodes, master, target, first, second)[1..];
      return;
    }
    ghost var w1 := w.W();
    r, second := ClearIfListed(w, nodes, master, target, listed.value);
    ghost var rest := if listed.value then Detaching(c, master, target) + RemovingIfListed(c, nodes, target, second) else [];
    DidThen(w0.calls, w1.calls, w.W().calls, [Survey(first)], rest, r.Ok?);
  }

  method ClearIfListed(w: World, nodes: seq<ClusterNode>, master: ClusterNode, target: ClusterNode, listed: bool)
      returns (r: Outcome, ghost second: map<nat, string>)
    requires w.InEvent() && Deletable(w.W(), target) && w.W().snap.value.nodes == nodes
    requires !listed ==> Ident(target) in w.W().gone
    modifies w
    ensures w.InEvent() && w.Since(old(w.steps), old(w.s.dispatched))
    ensures Cleared(old(w.W()), w.W(),
      if listed then Detaching(w.W().event.cluster, master, target) + RemovingIfListed(w.W().event.cluster, nodes, target, second) else [],
      target, r.Ok?)
  {
    second := map[];
    if listed {
      r, second := DetachAndRemove(w, nodes, master, target);
    } else {
      DidNothing(w.W().calls);
      r := Ok(());
    }
  }

  // ------------------------------------------------------------ the record and the other nodes

  /** The first `i` nodes have forgotten the departed one. */
  ghost predicate Cleansing(before: Work, now: Work, nodes: seq<ClusterNode>, pattern: string, i: nat) {
    && i <= |nodes|
    && Did(before.calls, now.calls, Each(nodes[..i], CleanseTasks(pattern)), true)
    && now == before.(calls := now.calls, scrubbed := now.scrubbed)
    && forall n :: n in nodes[..i] ==> Ident(n) in now.scrubbed
  }

  ghost predicate CleanseFailed(before: Work, after: Work, nodes: seq<ClusterNode>, pattern: string) {
    && Did(before.calls, after.calls, Each(nodes, CleanseTasks(pattern)), false)
    && after == before.(calls := after.calls, scrubbed := after.scrubbed, tainted := after.tainted)
  }

  lemma CleansedOne(before: Work, now: Work, after: Work, nodes: seq<ClusterNode>, pattern: string, i: nat, ok: bool)
    requires Cleansing(before, now, nodes, pattern, i) && i < |nodes|
    requires Did(now.calls, after.calls, CleanseTasks(pattern)(nodes[i]), ok)
    requires if ok then after == now.(calls := after.calls, scrubbed := now.scrubbed + {Ident(nodes[i])})
             else after == now.(calls := after.calls, tainted := after.tainted)
    ensures if ok then Cleansing(before, after, nodes, pattern, i + 1) else CleanseFailed(before, after, nodes, pattern)
  {
    EachStep(before.calls, now.calls, after.calls, nodes, i, CleanseTasks(pattern), ok);
    assert nodes[..i + 1] == nodes[..i] + [nodes[i]];
  }

  /** The removed node's name on the hypervisor. */
  function Pattern(w: Work): string {
    if NamesNode(w.event) then FullName(w.event.cluster, w.event.node) else ""
  }

  /** Both files of one node. */
  method ScrubNode(w: World, n: ClusterNode) returns (r: Outcome)
    requires w.InEvent() && w.W().snap.Some? && n in w.W().snap.value.nodes && Ident(n) in w.W().seen
    requires w.W().event.DeleteNode? && w.W().removed
    modifies w
    ensures w.InEvent() && w.Since(old(w.steps), old(w.s.dispatched))
    ensures Did(old(w.W()).calls, w.W().calls, [Cleanse(n, Pattern(w.W()))], r.Ok?)
    ensures if r.Ok? then w.W() == old(w.W()).(calls := w.W().calls, scrubbed := old(w.W()).scrubbed + {Ident(n)})
            else w.W() == old(w.W()).(calls := w.W().calls, tainted := w.W().tainted)
  {
    ghost var w0, pattern := w.W(), Pattern(w.W());
    r := w.Ssh(n, ScrubTemplate(FullName(w.s.mode.work.event.cluster, w.s.mode.work.event.node)));
    ghost var seg := [Call.Ssh(n, ScrubTemplate(pattern), r.Ok?)];
    if r.Ok? {
      r := w.ScrubHostLine(n);
      seg := seg + [Call.Ssh(n, ScrubHost(pattern), r.Ok?)];
      Assoc(w0.calls, [Call.Ssh(n, ScrubTemplate(pattern), true)], [Call.Ssh(n, ScrubHost(pattern), r.Ok?)]);
    }
    DidOne(w0.calls, Cleanse(n, pattern), seg, r.Ok?);
  }

  ghost predicate MayScrub(w: Work, nodes: seq<ClusterNode>) {
    && w.event.DeleteNode? && w.removed && w.snap.Some?
    && forall n :: n in nodes ==> n in w.snap.value.nodes && Ident(n) in w.seen
  }

  method ScrubNext(w: World, nodes: seq<ClusterNode>, i: nat, ghost before: Work) returns (r: Outcome)
    requires w.InEvent() && MayScrub(before, nodes) && Cleansing(before, w.W(), nodes, Pattern(before), i) && i < |nodes|
    modifies w
    ensures w.InEvent() && w.Since(old(w.steps), old(w.s.dispatched))
    ensures if r.Ok? then Cleansing(before, w.W(), nodes, Pattern(before), i + 1) else CleanseFailed(before, w.W(), nodes, Pattern(before))
  {
    r := ScrubNode(w, nodes[i]);
    CleansedOne(before, old(w.W()), w.W(), nodes, Pattern(before), i, r.Ok?);
  }

  method ScrubAll(w: World, nodes: seq<ClusterNode>) returns (r: Outcome)
    requires w.InEvent() && MayScrub(w.W(), nodes)
    modifies w
    ensures w.InEvent() && w.Since(old(w.steps), old(w.s.dispatched))
    ensures if r.Ok? then Cleansing(old(w.W()), w.W(), nodes, Pattern(w.W()), |nodes|)
            else CleanseFailed(old(w.W()), w.W(), nodes, Pattern(w.W()))
  {
    ghost var w0 := w.W();
    DidNothing(w0.calls);
    for i := 0 to |nodes|
      invariant w.InEvent() && w.Since(old(w.steps), old(w.s.dispatched)) && Cleansing(w0, w.W(), nodes, Pattern(w0), i)
    {
      r := ScrubNext(w, nodes, i, w0);
      if r.Err? { return; }
    }
    r := Ok(());
  }

  /** The evidence is about exactly the nodes the listing showed. */
  lemma EvidenceFromScrubs(listed: Work, after: Work, nodes: seq<ClusterNode>, listing: map<nat, string>, existing: seq<ClusterNode>)
    requires listed.snap.Some? && listed.snap.value.nodes == nodes && listed.listed && listed.removed
    requires listed.seen == set i | i in Idents(nodes) && Listed(listing, listed.event.cluster, i)
    requires existing == Existing(nodes, listing, listed.event.cluster)
    requires Cleansing(listed, after, existing, Pattern(listed), |existing|)
    ensures DeleteEvidence(after)
    ensures Did(listed.calls, after.calls, Each(existing, CleanseTasks(Pattern(listed))), true)
  {
    assert existing[..|existing|] == existing;
    forall n | n in nodes && Ident(n) in after.seen ensures Ident(n) in after.scrubbed {
      assert n in existing;
    }
  }

  method ListAndScrub(w: World, cluster: Cluster) returns (r: Outcome, ghost listing: map<nat, string>)
    requires w.InEvent() && w.W().event.DeleteNode? && w.W().removed && !w.W().tainted
    requires w.W().snap == Some(cluster) && w.W().seen == {}
    modifies w
    ensures w.InEvent() && w.Since(old(w.steps), old(w.s.dispatched))
    ensures Did(old(w.W()).calls, w.W().calls,
                [Survey(listing)] + Each(Existing(cluster.nodes, listing, w.W().event.cluster), CleanseTasks(Pattern(w.W()))), r.Ok?)
    ensures w.W().event == old(w.W()).event && w.W().removed && w.W().unlocked == old(w.W()).unlocked
    ensures r.Ok? ==> !w.W().tainted && DeleteEvidence(w.W())
  {
    ghost var w0 := w.W();
    var existing;
    existing, listing := GetExistingVms(w, cluster.nodes);
    ghost var scrubs := Each(Existing(cluster.nodes, listing, w0.event.cluster), CleanseTasks(Pattern(w0)));
    if existing.Err? {
      r := Err(existing.error);
      DidBroken(w0.calls, w.W().calls, [Survey(listing)], scrubs);
      return;
    }
    ghost var w1 := w.W();
    SeenExisting(cluster.nodes, listing, w1.event.cluster, existing.value);
    r := ScrubAll(w, existing.value);
    if r.Ok? { EvidenceFromScrubs(w1, w.W(), cluster.nodes, listing, existing.value); }
    DidThen(w0.calls, w1.calls, w.W().calls, [Survey(listing)], scrubs, r.Ok?);
  }

  /** `remove_hosts_from_rest_of_nodes` */
  method RemoveHostsFromRestOfNodes(w: World) returns (r: Outcome, ghost rest: Cluster, ghost listing: map<nat, string>)
    requires w.InEvent() && w.W().event.DeleteNode? && w.W().removed && !w.W().tainted && w.W().made == {}
    modifies w
    ensures w.InEvent() && w.Since(old(w.steps), old(w.s.dispatched))
    ensures Did(old(w.W()).calls, w.W().calls, [Fetch(rest), Survey(listing)]
                + Each(Existing(rest.nodes, listing, w.W().event.cluster), CleanseTasks(Pattern(w.W()))), r.Ok?)
    ensures w.W().event == old(w.W()).event && w.W().removed && w.W().unlocked == old(w.W()).unlocked
    ensures r.Ok? ==> !w.W().tainted && DeleteEvidence(w.W())
  {
    ghost var w0 := w.W();
    var cluster;
    cluster, rest := FetchRecord(w);
    listing := map[];
    ghost var c, p := w0.event.cluster, Pattern(w0);
    if cluster.None? {
      r := Err("Cannot find cluster");
      ghost var scrubs := [Survey(listing)] + Each(Existing(rest.nodes, listing, c), CleanseTasks(p));
      DidBroken(w0.calls, w.W().calls, [Fetch(rest)], scrubs);
      SurveyAndScrub(rest, listing, c, p);
      return;
    }
    ghost var w1 := w.W();
    r, listing := ListAndScrub(w, cluster.value);
    ghost var scrubs := [Survey(listing)] + Each(Existing(rest.nodes, listing, c), CleanseTasks(p));
    DidThen(w0.calls, w1.calls, w.W().calls, [Fetch(rest)], scrubs, r.Ok?);
    SurveyAndScrub(rest, listing, c, p);
  }

  lemma SurveyAndScrub(rest: Cluster, listing: map<nat, string>, c: string, p: string)
    ensures var scrubs := Each(Existing(rest.nodes, listing, c), CleanseTasks(p));
      [Fetch(rest)] + ([Survey(listing)] + scrubs) == [Fetch(rest), Survey(listing)] + scrubs
  {
    Assoc([Fetch(rest)], [Survey(listing)], Each(Existing(rest.nodes, listing, c), CleanseTasks(p)));
    assert [Fetch(rest)] + [Survey(listing)] == [Fetch(rest), Survey(listing)];
  }

  /** `remove_node_from_project`: everything else in the stored record stays. */
  method RetireFromRecord(w: World) returns (r: Outcome, ghost before: Sys)
    requires w.InEvent() && ActEnabled(w.s, w.W(), Machine.DropNode)
    modifies w
    ensures w.InEvent() && w.Since(old(w.steps), old(w.s.dispatched))
    ensures Did(old(w.W()).calls, w.W().calls, [RetireNode], r.Ok?)
    ensures w.W() == (if r.Ok? then WithSnap(old(w.W()), None).(removed := true, unlocked := true) else old(w.W())).(calls := w.W().calls)
    ensures |w.steps| > 0 && At(w.steps, |w.steps| - 1, Do(Machine.DropNode), before)
    ensures (r.Ok? <==> w.W().event.cluster in before.clusters)
    ensures r.Ok? ==> OnlyRecord(before.clusters, w.s.clusters, w.W().event.cluster)
                      && NamedRemoved(before.clusters[w.W().event.cluster], w.s.clusters[w.W().event.cluster], w.W().event.node)
  {
    r, before := w.DropNode();
    DidOne(old(w.W()).calls, RetireNode, [NodeDropped(r.Ok?)], r.Ok?);
  }

  /** The node leaves the record, then the others forget it. */
  method DropAndForget(w: World) returns (r: Outcome, ghost rest: Cluster, ghost listing: map<nat, string>)
    requires w.InEvent() && ActEnabled(w.s, w.W(), Machine.DropNode) && !w.W().tainted && w.W().made == {}
    modifies w
    ensures w.InEvent() && w.Since(old(w.steps), old(w.s.dispatched)) && w.W().event == old(w.W()).event
    ensures Did(old(w.W()).calls, w.W().calls, Forgetting(w.W().event.cluster, w.W().event.node, rest, listing), r.Ok?)
    ensures r.Ok? ==> Evidence(w.W()) && w.W().removed && w.W().unlocked
  {
    ghost var w0 := w.W();
    ghost var before;
    rest, listing := *, map[];
    r, before := RetireFromRecord(w);
    if r.Err? {
      DidBroken(w0.calls, w.W().calls, [RetireNode], Forgetting(w0.event.cluster, w0.event.node, rest, listing)[1..]);
      assert Forgetting(w0.event.cluster, w0.event.node, rest, listing)
          == [RetireNode] + Forgetting(w0.event.cluster, w0.event.node, rest, listing)[1..];
      return;
    }
    ghost var w1 := w.W();
    r, rest, listing := RemoveHostsFromRestOfNodes(w);
    ghost var scrubs := Each(Existing(rest.nodes, listing, w0.event.cluster), CleanseTasks(Pattern(w0)));
    DidThen(w0.calls, w1.calls, w.W().calls, [RetireNode], [Fetch(rest), Survey(listing)] + scrubs, r.Ok?);
  }

  // ------------------------------------------------------------ the whole of it

  method RemoveNode(w: World, cluster: Cluster, master: ClusterNode, target: ClusterNode) returns (r: Outcome, ghost a: Answers)
    requires w.InEvent() && Deletable(w.W(), target) && w.W().snap == Some(cluster)
    modifies w
    ensures w.InEvent() && w.Since(old(w.steps), old(w.s.dispatched)) && w.W().event == old(w.W()).event
    ensures a.record == cluster
    ensures Did(old(w.W()).calls, w.W().calls, Clearing(w.W().event.cluster, cluster.nodes, master, target, a.first, a.second)
                + Forgetting(w.W().event.cluster, w.W().event.node, a.rest, a.third), r.Ok?)
    ensures r.Ok? ==> Evidence(w.W()) && w.W().removed && w.W().unlocked
  {
    ghost var w0, rest, third := w.W(), cluster, map[];
    ghost var first, second;
    r, first, second := ClearVm(w, cluster.nodes, master, target);
    ghost var clearing := Clearing(w0.event.cluster, cluster.nodes, master, target, first, second);
    if r.Err? {
      a := Answers(cluster, first, second, rest, third);
      DidBroken(w0.calls, w.W().calls, clearing, Forgetting(w0.event.cluster, w0.event.node, rest, third));
      return;
    }
    ghost var w1 := w.W();
    r, rest, third := DropAndForget(w);
    a := Answers(cluster, first, second, rest, third);
    DidThen(w0.calls, w1.calls, w.W().calls, clearing, Forgetting(w0.event.cluster, w0.event.node, rest, third), r.Ok?);
  }

  method KeepLast(w: World)
    requires w.InEvent()
    modifies w
    ensures w.InEvent() && w.Since(old(w.steps), old(w.s.dispatched))
    ensures Just(old(w.W()), w.W(), [Tell(Fault, "Cannot delete last node, delete whole cluster instead")], true)
  {
    w.Log(Fault, "Cannot delete last node, delete whole cluster instead");
    JustOne(old(w.W()), Tell(Fault, "Cannot delete last node, delete whole cluster instead"),
            [Noted(Fault, "Cannot delete last node, delete whole cluster instead")], true);
  }

  /** From the record on. */
  method WorkOn(w: World, cluster: Cluster) returns (r: Outcome, ghost a: Answers)
    requires w.InEvent() && w.W().event.DeleteNode? && w.W().snap == Some(cluster)
    requires !w.W().tainted && w.W().made == {} && !w.W().removed && !w.W().unlocked
    modifies w
    ensures w.InEvent() && w.Since(old(w.steps), old(w.s.dispatched)) && w.W().event == old(w.W()).event
    ensures a.record == cluster && Did(old(w.W()).calls, w.W().calls, RemovalWork(w.W().event.cluster, w.W().event.node, a), r.Ok?)
    ensures r.Ok? ==> Evidence(w.W()) && w.W().removed == w.W().unlocked && (!w.W().removed ==> Refused(w.W()))
  {
    a := Answers(cluster, map[], map[], cluster, map[]);
    var nodes := cluster.nodes;
    if |nodes| == 1 {
      KeepLast(w);
      return Ok(()), a;
    }
    var master := FindOtherMaster(nodes, w.s.mode.work.event.node);
    var target := FindNode(nodes, w.s.mode.work.event.node);
    if master.None? || target.None? {
      NoOneToAsk(w.W());
      return Err(if master.None? then "Cannot find any master node" else "Cannot find node to delete"), a;
    }
    r, a := RemoveNode(w, cluster, master.value, target.value);
  }

  /** Some removal of a node of this name from a record of this name, with what was read on the way. */
  ghost predicate Removal(c: string, name: string, calls: seq<Call>, ok: bool) {
    exists a :: Ran(RemovalPlan(c, name, a), calls, ok)
  }

  /** `delete_node_from_cluster::execute`. The only node of a cluster is kept, with `Ok`. */
  method Execute(w: World) returns (r: Outcome, ghost seg: seq<Call>)
    requires w.InEvent() && w.W().event.DeleteNode? && w.W() == StartWork(w.W().event)
    modifies w
    ensures w.InEvent() && w.W().event == old(w.W()).event && w.Since(old(w.steps), old(w.s.dispatched))
    ensures w.W().calls == old(w.W()).calls + seg && Removal(w.W().event.cluster, w.W().event.node, seg, r.Ok?)
    ensures r.Ok? ==> Evidence(w.W()) && w.W().removed == w.W().unlocked && (!w.W().removed ==> Refused(w.W()))
  {
    ghost var w0 := w.W();
    var cluster;
    ghost var record;
    cluster, record := LogAndFetch(w, "Start deleting node");
    ghost var a := Answers(record, map[], map[], record, map[]);
    ghost var head := [Tell(Info, "Start deleting node"), Fetch(record)];
    if cluster.None? {
      r := Err("Cannot find cluster");
      DidBroken(w0.calls, w.W().calls, head, RemovalWork(w0.event.cluster, w0.event.node, a));
    } else {
      ghost var w1 := w.W();
      r, a := WorkOn(w, cluster.value);
      DidThen(w0.calls, w1.calls, w.W().calls, head, RemovalWork(w0.event.cluster, w0.event.node, a), r.Ok?);
    }
    seg := w.W().calls[|w0.calls|..];
    assert Ran(RemovalPlan(w0.event.cluster, w0.event.node, a), seg, r.Ok?);
  }
}
