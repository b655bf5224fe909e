/** Deleting a cluster (core/src/dispatcher/usecase/delete_cluster.rs): all shutdown requests, then
    all waits, then all deletions, then the record. */
module DeleteCluster {
  import opened Model
  import opened Records
  import opened Machine
  import opened World
  import opened Plan
  import opened Common

  // ------------------------------------------------------------ the plan

  const WARNING := Noted(Info, "VM cannot be shut down gracefully, stop VM immediately")

  const AskTasks: ClusterNode -> seq<Task> := (n: ClusterNode) => [AskDown(n), Tell(Info, "Requested VM to shutdown")]
  const AwaitDownTasks: ClusterNode -> seq<Task> := (n: ClusterNode) => [Tell(Info, "Wait for VM shutdown"), AwaitDown(n, [WARNING])]
  const EraseTasks: ClusterNode -> seq<Task> := (n: ClusterNode) => [Erase(n), Tell(Info, "VM has been deleted")]

  function Stopping(nodes: seq<ClusterNode>): seq<Task> {
    Each(nodes, AskTasks) + Each(nodes, AwaitDownTasks)
  }

  /** What a deletion has to do if the record is `r` and a listing shows these VMs. */
  function DeletionPlan(c: string, r: Cluster, listing: map<nat, string>): seq<Task> {
    var existing := Existing(r.nodes, listing, c);
    [Fetch(r), Survey(listing)] + (Stopping(existing) + (Each(existing, EraseTasks) + [RetireCluster]))
  }

  // ------------------------------------------------------------ stopping

  /** These nodes of the record were listed, so that a deletion may touch their VMs. */
  ghost predicate MayDelete(w: Work, nodes: seq<ClusterNode>) {
    && w.event.DeleteCluster? && w.snap.Some?
    && forall n :: n in nodes ==> n in w.snap.value.nodes && Ident(n) in w.seen
  }

  method AskOne(w: World, n: ClusterNode) returns (r: Outcome)
    requires w.InEvent() && w.W().snap.Some? && MayPower(w.W(), n)
    modifies w
    ensures w.InEvent() && w.Since(old(w.steps), old(w.s.dispatched))
    ensures Just(old(w.W()), w.W(), AskTasks(n), r.Ok?)
  {
    r := w.Shutdown(n);
    JustOne(old(w.W()), AskDown(n), [Call.Shutdown(n, r.Ok?)], r.Ok?);
    ghost var w1, tell := w.W(), [Tell(Info, "Requested VM to shutdown")];
    assert [AskDown(n)] + tell == AskTasks(n);
    if r.Err? {
      JustBroken(old(w.W()), w1, [AskDown(n)], tell);
    } else {
      LogOnly(w, "Requested VM to shutdown");
      JustThen(old(w.W()), w1, w.W(), [AskDown(n)], tell, true);
    }
  }

  method RequestShutdowns(w: World, nodes: seq<ClusterNode>) returns (r: Outcome)
    requires w.InEvent() && MayDelete(w.W(), nodes)
    modifies w
    ensures w.InEvent() && w.Since(old(w.steps), old(w.s.dispatched))
    ensures Just(old(w.W()), w.W(), Each(nodes, AskTasks), r.Ok?)
  {
    ghost var w0 := w.W();
    JustNone(w0, nodes, AskTasks);
    for i := 0 to |nodes|
      invariant w.InEvent() && w.Since(old(w.steps), old(w.s.dispatched)) && JustEach(w0, w.W(), nodes, AskTasks, i)
    {
      ghost var w1 := w.W();
      assert MayPower(w0, nodes[i]);
      r := AskOne(w, nodes[i]);
      JustNext(w0, w1, w.W(), nodes, AskTasks, i, r.Ok?);
      if r.Err? { return; }
    }
    JustAll(w0, w.W(), nodes, AskTasks);
    r := Ok(());
  }

  /** Waits for one VM; if it is still running after 31 polls, stops it hard and polls again,
      content with whatever the second round sees. */
  method AwaitShutdown(w: World, n: ClusterNode, warning: Option<string>) returns (r: Outcome, ghost seg: seq<Call>)
    requires w.InEvent() && w.W().snap.Some? && MayPower(w.W(), n)
    modifies w
    ensures w.InEvent() && w.Since(old(w.steps), old(w.s.dispatched))
    ensures w.W() == old(w.W()).(calls := old(w.W()).calls + seg)
    ensures DownRun(n, seg, Warned(warning), true, r.Ok?)
  {
    var isShutdown, polls := WaitForShutdown(w, n);
    seg := polls;
    if isShutdown == Ok(false) {
      ghost var warned, hard;
      r, warned, hard := WarnAndStop(w, n, warning);
      Assoc(old(w.W()).calls, polls, warned);
      seg := polls + warned;
      assert ShutdownRun(n, polls, Ok(false)) && HardRun(n, hard, true, r.Ok?) && seg == polls + (Warned(warning) + hard);
    } else {
      r := if isShutdown.Ok? then Ok(()) else Err(isShutdown.error);
    }
  }

  function Warned(warning: Option<string>): seq<Call> {
    if warning.Some? then [Noted(Info, warning.value)] else []
  }

  method WarnAndStop(w: World, n: ClusterNode, warning: Option<string>) returns (r: Outcome, ghost seg: seq<Call>, ghost hard: seq<Call>)
    requires w.InEvent() && w.W().snap.Some? && MayPower(w.W(), n)
    modifies w
    ensures w.InEvent() && w.Since(old(w.steps), old(w.s.dispatched))
    ensures w.W() == old(w.W()).(calls := old(w.W()).calls + seg)
    ensures seg == Warned(warning) + hard && HardRun(n, hard, true, r.Ok?)
  {
    if warning.Some? { w.Log(Info, warning.value); }
    assert w.W().calls == old(w.W()).calls + Warned(warning);
    r, hard := StopHard(w, n, true);
    Assoc(old(w.W()).calls, Warned(warning), hard);
    seg := Warned(warning) + hard;
  }

  method AwaitOneDown(w: World, n: ClusterNode) returns (r: Outcome)
    requires w.InEvent() && w.W().snap.Some? && MayPower(w.W(), n)
    modifies w
    ensures w.InEvent() && w.Since(old(w.steps), old(w.s.dispatched))
    ensures Just(old(w.W()), w.W(), AwaitDownTasks(n), r.Ok?)
  {
    ghost var tell, wait := [Tell(Info, "Wait for VM shutdown")], AwaitDown(n, [WARNING]);
    LogOnly(w, "Wait for VM shutdown");
    ghost var w1, seg := w.W(), [];
    r, seg := AwaitShutdown(w, n, Some("VM cannot be shut down gracefully, stop VM immediately"));
    JustOne(w1, wait, seg, r.Ok?);
    JustThen(old(w.W()), w1, w.W(), tell, [wait], r.Ok?);
    assert tell + [wait] == AwaitDownTasks(n);
  }

  method AwaitShutdowns(w: World, nodes: seq<ClusterNode>) returns (r: Outcome)
    requires w.InEvent() && MayDelete(w.W(), nodes)
    modifies w
    ensures w.InEvent() && w.Since(old(w.steps), old(w.s.dispatched))
    ensures Just(old(w.W()), w.W(), Each(nodes, AwaitDownTasks), r.Ok?)
  {
    ghost var w0 := w.W();
    JustNone(w0, nodes, AwaitDownTasks);
    for i := 0 to |nodes|
      invariant w.InEvent() && w.Since(old(w.steps), old(w.s.dispatched)) && JustEach(w0, w.W(), nodes, AwaitDownTasks, i)
    {
      ghost var w1 := w.W();
      assert MayPower(w0, nodes[i]);
      r := AwaitOneDown(w, nodes[i]);
      JustNext(w0, w1, w.W(), nodes, AwaitDownTasks, i, r.Ok?);
      if r.Err? { return; }
    }
    JustAll(w0, w.W(), nodes, AwaitDownTasks);
    r := Ok(());
  }

  method StopVms(w: World, nodes: seq<ClusterNode>) returns (r: Outcome)
    requires w.InEvent() && MayDelete(w.W(), nodes)
    modifies w
    ensures w.InEvent() && w.Since(old(w.steps), old(w.s.dispatched))
    ensures Just(old(w.W()), w.W(), Stopping(nodes), r.Ok?)
  {
    ghost var w0 := w.W();
    r := RequestShutdowns(w, nodes);
    if r.Err? { JustBroken(w0, w.W(), Each(nodes, AskTasks), Each(nodes, AwaitDownTasks)); return; }
    ghost var w1 := w.W();
    r := AwaitShutdowns(w, nodes);
    JustThen(w0, w1, w.W(), Each(nodes, AskTasks), Each(nodes, AwaitDownTasks), r.Ok?);
  }

  // ------------------------------------------------------------ the deletions

  /** The first `i` VMs are deleted. */
  ghost predicate Erasing(before: Work, now: Work, nodes: seq<ClusterNode>, i: nat) {
    && i <= |nodes|
    && Did(before.calls, now.calls, Each(nodes[..i], EraseTasks), true)
    && now == before.(calls := now.calls, gone := now.gone) && before.gone <= now.gone
    && forall n :: n in nodes[..i] ==> Ident(n) in now.gone
  }

  lemma ErasedOne(before: Work, now: Work, after: Work, nodes: seq<ClusterNode>, i: nat, ok: bool)
    requires Erasing(before, now, nodes, i) && i < |nodes| && Did(now.calls, after.calls, EraseTasks(nodes[i]), ok)
    requires after == now.(calls := after.calls, gone := if ok then now.gone + {Ident(nodes[i])} else now.gone)
    ensures if ok then Erasing(before, after, nodes, i + 1) else Did(before.calls, after.calls, Each(nodes, EraseTasks), false)
    ensures after == before.(calls := after.calls, gone := after.gone)
  {
    EachStep(before.calls, now.calls, after.calls, nodes, i, EraseTasks, ok);
    if ok { TickedOff(now.gone, after.gone, nodes, i); }
  }

  lemma TickedOff(gone: set<ClusterNode>, gone': set<ClusterNode>, nodes: seq<ClusterNode>, i: nat)
    requires i < |nodes| && gone' == gone + {Ident(nodes[i])} && forall n :: n in nodes[..i] ==> Ident(n) in gone
    ensures forall n :: n in nodes[..i + 1] ==> Ident(n) in gone'
  {
    assert nodes[..i + 1] == nodes[..i] + [nodes[i]];
  }

  method EraseOne(w: World, n: ClusterNode) returns (r: Outcome)
    requires w.InEvent() && w.W().snap.Some? && n in w.W().snap.value.nodes && Ident(n) in w.W().seen
    requires w.W().event.DeleteCluster? || w.W().event.DeleteNode?
    modifies w
    ensures w.InEvent() && w.Since(old(w.steps), old(w.s.dispatched))
    ensures Did(old(w.W()).calls, w.W().calls, EraseTasks(n), r.Ok?)
    ensures w.W() == old(w.W()).(calls := w.W().calls, gone := if r.Ok? then old(w.W()).gone + {Ident(n)} else old(w.W()).gone)
  {
    r := w.Delete(n);
    DidOne(old(w.W()).calls, Erase(n), [Call.Delete(n, r.Ok?)], r.Ok?);
    ghost var c1, tell := w.W().calls, [Tell(Info, "VM has been deleted")];
    assert [Erase(n)] + tell == EraseTasks(n);
    if r.Err? {
      DidBroken(old(w.W()).calls, c1, [Erase(n)], tell);
    } else {
      LogOnly(w, "VM has been deleted");
      DidThen(old(w.W()).calls, c1, w.W().calls, [Erase(n)], tell, true);
    }
  }

  method EraseNext(w: World, nodes: seq<ClusterNode>, i: nat, ghost before: Work) returns (r: Outcome)
    requires w.InEvent() && MayDelete(before, nodes) && Erasing(before, w.W(), nodes, i) && i < |nodes|
    modifies w
    ensures w.InEvent() && w.Since(old(w.steps), old(w.s.dispatched))
    ensures if r.Ok? then Erasing(before, w.W(), nodes, i + 1) else Did(before.calls, w.W().calls, Each(nodes, EraseTasks), false)
    ensures w.W() == before.(calls := w.W().calls, gone := w.W().gone)
  {
    r := EraseOne(w, nodes[i]);
    ErasedOne(before, old(w.W()), w.W(), nodes, i, r.Ok?);
  }

  method DeleteVms(w: World, nodes: seq<ClusterNode>) returns (r: Outcome)
    requires w.InEvent() && MayDelete(w.W(), nodes)
    modifies w
    ensures w.InEvent() && w.Since(old(w.steps), old(w.s.dispatched))
    ensures w.W() == old(w.W()).(calls := w.W().calls, gone := w.W().gone)
    ensures Did(old(w.W()).calls, w.W().calls, Each(nodes, EraseTasks), r.Ok?)
    ensures r.Ok? ==> Erasing(old(w.W()), w.W(), nodes, |nodes|)
  {
    ghost var w0 := w.W();
    DidNothing(w0.calls);
    for i := 0 to |nodes|
      invariant w.InEvent() && w.Since(old(w.steps), old(w.s.dispatched)) && Erasing(w0, w.W(), nodes, i)
    {
      r := EraseNext(w, nodes, i, w0);
      if r.Err? { return; }
    }
    assert nodes[..|nodes|] == nodes;
    r := Ok(());
  }

  // ------------------------------------------------------------ the whole of it

  /** The record may go: every node of it is ticked off. */
  ghost predicate AllGone(w: Work, nodes: seq<ClusterNode>) {
    forall n :: n in nodes ==> Ident(n) in w.gone
  }

  /** What the listing did not show was ticked off by it. */
  lemma NotListedGone(w: Work, nodes: seq<ClusterNode>, listing: map<nat, string>)
    requires Idents(nodes) - (set i | i in Idents(nodes) && Listed(listing, w.event.cluster, i)) <= w.gone
    ensures forall n :: n in nodes ==> n in Existing(nodes, listing, w.event.cluster) || Ident(n) in w.gone
  {
    forall n | n in nodes ensures n in Existing(nodes, listing, w.event.cluster) || Ident(n) in w.gone {
      assert Ident(n) in Idents(nodes);
    }
  }

  method DeleteAndRetire(w: World, nodes: seq<ClusterNode>, existing: seq<ClusterNode>) returns (r: Outcome)
    requires w.InEvent() && MayDelete(w.W(), existing) && w.W().snap.value.nodes == nodes && !w.W().tainted
    requires forall n :: n in nodes ==> n in existing || Ident(n) in w.W().gone
    modifies w
    ensures w.InEvent() && w.Since(old(w.steps), old(w.s.dispatched)) && w.W().event == old(w.W()).event
    ensures Did(old(w.W()).calls, w.W().calls, Each(existing, EraseTasks) + [RetireCluster], r.Ok?)
    ensures r.Ok? ==> Evidence(w.W()) && w.W().event.cluster !in w.s.clusters
    ensures r.Err? ==> !w.W().removed || old(w.W()).removed
  {
    ghost var w0 := w.W();
    r := DeleteVms(w, existing);
    if r.Err? { DidBroken(w0.calls, w.W().calls, Each(existing, EraseTasks), [RetireCluster]); return; }
    ghost var w1 := w.W();
    assert existing[..|existing|] == existing && AllGone(w1, nodes);
    w.DropCluster();
    DidOne(w1.calls, RetireCluster, [ClusterDropped], true);
    DidThen(w0.calls, w1.calls, w.W().calls, Each(existing, EraseTasks), [RetireCluster], true);
  }

  method StopAndDelete(w: World, nodes: seq<ClusterNode>, existing: seq<ClusterNode>) returns (r: Outcome)
    requires w.InEvent() && MayDelete(w.W(), existing) && w.W().snap.value.nodes == nodes && !w.W().tainted
    requires forall n :: n in nodes ==> n in existing || Ident(n) in w.W().gone
    modifies w
    ensures w.InEvent() && w.Since(old(w.steps), old(w.s.dispatched)) && w.W().event == old(w.W()).event
    ensures Did(old(w.W()).calls, w.W().calls, Stopping(existing) + (Each(existing, EraseTasks) + [RetireCluster]), r.Ok?)
    ensures r.Ok? ==> Evidence(w.W()) && w.W().event.cluster !in w.s.clusters
    ensures r.Err? ==> !w.W().removed || old(w.W()).removed
  {
    ghost var w0, rest := w.W(), Each(existing, EraseTasks) + [RetireCluster];
    r := StopVms(w, existing);
    if r.Err? { DidBroken(w0.calls, w.W().calls, Stopping(existing), rest); return; }
    ghost var w1 := w.W();
    r := DeleteAndRetire(w, nodes, existing);
    DidThen(w0.calls, w1.calls, w.W().calls, Stopping(existing), rest, r.Ok?);
  }

  method ListAndDelete(w: World, cluster: Cluster) returns (r: Outcome, ghost listing: map<nat, string>)
    requires w.InEvent() && w.W().event.DeleteCluster? && w.W().snap == Some(cluster) && w.W().seen == {} && !w.W().tainted
    modifies w
    ensures w.InEvent() && w.Since(old(w.steps), old(w.s.dispatched)) && w.W().event == old(w.W()).event
    ensures Did(old(w.W()).calls, w.W().calls, DeletionPlan(w.W().event.cluster, cluster, listing)[1..], r.Ok?)
    ensures r.Ok? ==> Evidence(w.W()) && w.W().event.cluster !in w.s.clusters
    ensures r.Err? ==> !w.W().removed || old(w.W()).removed
  {
    ghost var w0 := w.W();
    var existing;
    existing, listing := GetExistingVms(w, cluster.nodes);
    ghost var found := Existing(cluster.nodes, listing, w0.event.cluster);
    ghost var rest := Stopping(found) + (Each(found, EraseTasks) + [RetireCluster]);
    assert DeletionPlan(w0.event.cluster, cluster, listing)[1..] == [Survey(listing)] + rest;
    if existing.Err? {
      r := Err(existing.error);
      DidBroken(w0.calls, w.W().calls, [Survey(listing)], rest);
      return;
    }
    ghost var w1 := w.W();
    SeenExisting(cluster.nodes, listing, w0.event.cluster, existing.value);
    NotListedGone(w1, cluster.nodes, listing);
    r := StopAndDelete(w, cluster.nodes, existing.value);
    DidThen(w0.calls, w1.calls, w.W().calls, [Survey(listing)], rest, r.Ok?);
  }

  /** Some deletion of a record of this name, with what its listing showed. */
  ghost predicate Deletion(c: string, calls: seq<Call>, ok: bool) {
    exists record, listing :: Ran(DeletionPlan(c, record, listing), calls, ok)
  }

  /** `delete_cluster::execute`. The record goes only after every VM found has been deleted. */
  method Execute(w: World) returns (r: Outcome, ghost seg: seq<Call>)
    requires w.InEvent() && w.W().event.DeleteCluster? && w.W() == StartWork(w.W().event)
    modifies w
    ensures w.InEvent() && w.W().event == old(w.W()).event && w.Since(old(w.steps), old(w.s.dispatched))
    ensures w.W().calls == old(w.W()).calls + seg && Deletion(w.W().event.cluster, seg, r.Ok?)
    ensures r.Ok? ==> Evidence(w.W()) && w.W().event.cluster !in w.s.clusters
    ensures r.Err? ==> !w.W().removed
  {
    ghost var w0 := w.W();
    var cluster;
    ghost var record;
    cluster, record := FetchRecord(w);
    ghost var listing := map[];
    if cluster.None? {
      r := Err("Cannot find cluster");
      Broken(w0.event.cluster, w0.calls, w.W().calls, record);
    } else {
      ghost var w1 := w.W();
      r, listing := ListAndDelete(w, cluster.value);
      Carried(w0.event.cluster, w0.calls, w1.calls, w.W().calls, record, listing, r.Ok?);
    }
    seg := w.W().calls[|w0.calls|..];
    assert Ran(DeletionPlan(w0.event.cluster, record, listing), seg, r.Ok?);
  }

  lemma Broken(c: string, c0: seq<Call>, c1: seq<Call>, r: Cluster)
    requires Did(c0, c1, [Fetch(r)], false)
    ensures Did(c0, c1, DeletionPlan(c, r, map[]), false)
  {
    var plan := DeletionPlan(c, r, map[]);
    DidBroken(c0, c1, [Fetch(r)], plan[1..]);
    assert plan == [Fetch(r)] + plan[1..];
  }

  lemma Carried(c: string, c0: seq<Call>, c1: seq<Call>, c2: seq<Call>, r: Cluster, listing: map<nat, string>, ok: bool)
    requires Did(c0, c1, [Fetch(r)], true) && Did(c1, c2, DeletionPlan(c, r, listing)[1..], ok)
    ensures Did(c0, c2, DeletionPlan(c, r, listing), ok)
  {
    var plan := DeletionPlan(c, r, listing);
    DidThen(c0, c1, c2, [Fetch(r)], plan[1..], ok);
    assert plan == [Fetch(r)] + plan[1..];
  }
}
