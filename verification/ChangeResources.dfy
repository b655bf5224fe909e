/** Changing the resources of a node (core/src/dispatcher/usecase/change_resources.rs): configure,
    stop, start, and only then record the new numbers. */
module ChangeResources {
  import opened Model
  import opened Machine
  import opened World
  import opened Edits
  import opened Plan
  import opened Common

  function Changing(n: ClusterNode, cores: nat, memory: nat): seq<Task> {
    [Reconfigure(n, cores, memory), Halt(n), PowerOn(n), StoreResources]
  }

  /** What a change has to do if the record is `r`: it is about the first node of the name. */
  function ChangePlan(name: string, cores: nat, memory: nat, r: Cluster): seq<Task> {
    [Tell(Info, "Start creating cluster"), Fetch(r)] +
    match FindNode(r.nodes, name) { case None => [Stuck] case Some(n) => Changing(n, cores, memory) }
  }

  method StopNode(w: World, n: ClusterNode) returns (r: Outcome)
    requires w.InEvent() && w.W().snap.Some? && MayPower(w.W(), n)
    modifies w
    ensures w.InEvent() && w.Since(old(w.steps), old(w.s.dispatched)) && Just(old(w.W()), w.W(), [Halt(n)], r.Ok?)
  {
    ghost var seg;
    r, seg := StopVm(w, n);
    JustOne(old(w.W()), Halt(n), seg, r.Ok?);
  }

  method StartNode(w: World, n: ClusterNode) returns (r: Outcome)
    requires w.InEvent() && w.W().snap.Some? && MayPower(w.W(), n)
    modifies w
    ensures w.InEvent() && w.Since(old(w.steps), old(w.s.dispatched)) && Just(old(w.W()), w.W(), [PowerOn(n)], r.Ok?)
  {
    r := w.Start(n);
    JustOne(old(w.W()), PowerOn(n), [Call.Start(n, r.Ok?)], r.Ok?);
  }

  /** On success, the store was changed in the last step: the record has the new numbers in every node
      of the name, and is otherwise what it was. */
  ghost predicate ResourcesStored(w: World, before: Sys)
    reads w
  {
    w.s.mode.Busy? && w.W().event.ChangeResources? && |w.steps| > 0 &&
    var e := w.W().event;
    && At(w.steps, |w.steps| - 1, Do(Machine.SaveResources), before)
    && OnlyRecord(before.clusters, w.s.clusters, e.cluster)
    && AllResized(before.clusters[e.cluster], w.s.clusters[e.cluster], e.node, e.cores, e.memory)
  }

  method Store(w: World) returns (r: Outcome, ghost before: Sys)
    requires w.InEvent() && w.W().event.ChangeResources?
    modifies w
    ensures w.InEvent() && w.Since(old(w.steps), old(w.s.dispatched)) && Just(old(w.W()), w.W(), [StoreResources], r.Ok?)
    ensures if r.Ok? then ResourcesStored(w, before) else w.W().event.cluster !in w.s.clusters
  {
    r, before := w.SaveResources();
    JustOne(old(w.W()), StoreResources, [ResourcesSaved(r.Ok?)], r.Ok?);
  }

  method StartAndStore(w: World, n: ClusterNode) returns (r: Outcome, ghost before: Sys)
    requires w.InEvent() && w.W().snap.Some? && w.W().event.ChangeResources? && MayPower(w.W(), n)
    modifies w
    ensures w.InEvent() && w.Since(old(w.steps), old(w.s.dispatched))
    ensures Just(old(w.W()), w.W(), [PowerOn(n)] + [StoreResources], r.Ok?) && (r.Ok? ==> ResourcesStored(w, before))
  {
    ghost var w0 := w.W();
    before := *;
    r := StartNode(w, n);
    if r.Err? { JustBroken(w0, w.W(), [PowerOn(n)], [StoreResources]); return; }
    ghost var w1 := w.W();
    r, before := Store(w);
    JustThen(w0, w1, w.W(), [PowerOn(n)], [StoreResources], r.Ok?);
  }

  method Restart(w: World, n: ClusterNode) returns (r: Outcome, ghost before: Sys)
    requires w.InEvent() && w.W().snap.Some? && w.W().event.ChangeResources? && MayPower(w.W(), n)
    modifies w
    ensures w.InEvent() && w.Since(old(w.steps), old(w.s.dispatched))
    ensures Just(old(w.W()), w.W(), [Halt(n)] + ([PowerOn(n)] + [StoreResources]), r.Ok?) && (r.Ok? ==> ResourcesStored(w, before))
  {
    ghost var w0 := w.W();
    before := *;
    r := StopNode(w, n);
    if r.Err? { JustBroken(w0, w.W(), [Halt(n)], [PowerOn(n)] + [StoreResources]); return; }
    ghost var w1 := w.W();
    r, before := StartAndStore(w, n);
    JustThen(w0, w1, w.W(), [Halt(n)], [PowerOn(n)] + [StoreResources], r.Ok?);
  }

  method ConfigureAndRestart(w: World, n: ClusterNode) returns (r: Outcome, ghost before: Sys)
    requires w.InEvent() && w.W().snap.Some? && w.W().event.ChangeResources?
    requires FindNode(w.W().snap.value.nodes, w.W().event.node) == Some(n)
    modifies w
    ensures w.InEvent() && w.Since(old(w.steps), old(w.s.dispatched))
    ensures w.W().event == old(w.W()).event
    ensures Just(old(w.W()), w.W(), Changing(n, w.W().event.cores, w.W().event.memory), r.Ok?) && (r.Ok? ==> ResourcesStored(w, before))
  {
    ghost var w0 := w.W();
    ghost var configure, rest := Reconfigure(n, w0.event.cores, w0.event.memory), [Halt(n)] + ([PowerOn(n)] + [StoreResources]);
    assert [configure] + rest == Changing(n, w0.event.cores, w0.event.memory);
    before := *;
    r := w.Configure(n, w.s.mode.work.event.cores, w.s.mode.work.event.memory);
    JustOne(w0, configure, [Call.Configure(n, w0.event.cores, w0.event.memory, r.Ok?)], r.Ok?);
    ghost var w1 := w.W();
    if r.Err? { JustBroken(w0, w1, [configure], rest); return; }
    r, before := Restart(w, n);
    JustThen(w0, w1, w.W(), [configure], rest, r.Ok?);
  }

  /** Some change of a node of this name in a record of any. */
  ghost predicate Change(name: string, cores: nat, memory: nat, calls: seq<Call>, ok: bool) {
    exists record :: Ran(ChangePlan(name, cores, memory, record), calls, ok)
  }

  method ChangeIn(w: World, cluster: Cluster) returns (r: Outcome, ghost before: Sys)
    requires w.InEvent() && w.W().event.ChangeResources? && w.W().snap == Some(cluster)
    modifies w
    ensures w.InEvent() && w.Since(old(w.steps), old(w.s.dispatched))
    ensures w.W().event == old(w.W()).event
    ensures Just(old(w.W()), w.W(), ChangePlan(w.W().event.node, w.W().event.cores, w.W().event.memory, cluster)[2..], r.Ok?)
    ensures r.Ok? ==> ResourcesStored(w, before)
  {
    before := *;
    var target := FindNode(cluster.nodes, w.s.mode.work.event.node);
    if target.None? {
      NoOneToAsk(w.W());
      return Err("Cannot find node to create"), before;
    }
    r, before := ConfigureAndRestart(w, target.value);
  }

  /** `change_resources::execute`. The calls are about the first node of the name in the record
      that was read. */
  method Execute(w: World) returns (r: Outcome, ghost seg: seq<Call>, ghost before: Sys)
    requires w.InEvent() && w.W().event.ChangeResources? && w.W() == StartWork(w.W().event)
    modifies w
    ensures w.InEvent() && w.W().event == old(w.W()).event && w.Since(old(w.steps), old(w.s.dispatched))
    ensures w.W().calls == old(w.W()).calls + seg
    ensures Change(w.W().event.node, w.W().event.cores, w.W().event.memory, seg, r.Ok?)
    ensures r.Ok? ==> Evidence(w.W()) && ResourcesStored(w, before)
  {
    ghost var w0 := w.W();
    before := *;
    var cluster;
    ghost var record;
    cluster, record := LogAndFetch(w, "Start creating cluster");
    ghost var head, plan := [Tell(Info, "Start creating cluster"), Fetch(record)], ChangePlan(w0.event.node, w0.event.cores, w0.event.memory, record);
    assert plan == head + plan[2..];
    if cluster.None? {
      r := Err("Cannot find cluster");
      DidBroken(w0.calls, w.W().calls, head, plan[2..]);
    } else {
      ghost var w1 := w.W();
      r, before := ChangeIn(w, cluster.value);
      DidThen(w0.calls, w1.calls, w.W().calls, head, plan[2..], r.Ok?);
    }
    seg := w.W().calls[|w0.calls|..];
    assert Ran(plan, seg, r.Ok?);
  }
}
