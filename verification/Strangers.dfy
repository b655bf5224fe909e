/** The other half of `Ownership`: a request that takes an id under which somebody else's VM exists
    can always be followed up so that a resource change reaches that VM
    (core/src/operator.rs:85-136, 170-202; core/src/dispatcher/usecase/change_resources.rs:39-44). */
module Strangers {
  import opened Model
  import opened Records
  import opened Machine
  import opened Frames
  import opened Isolation
  import opened Orphans
  import opened Ownership
  import opened TidyStore
  import QueueSafety

  /** The run `base` can go on to end in `s`. */
  ghost predicate From(base: seq<Step>, s: Sys) {
    exists more :: Legal(base + more) && Exec(base + more) == s
  }

  lemma Go(base: seq<Step>, s: Sys, st: Step)
    requires From(base, s) && Enabled(s, st)
    ensures From(base, Next(s, st))
  {
    var more :| Legal(base + more) && Exec(base + more) == s;
    Extend(base + more, st);
    assert base + more + [st] == base + (more + [st]);
  }

  /** The same VMs, and the same clusters with the same nodes. */
  ghost predicate SameNodes(s: Sys, t: Sys) {
    && t.vms == s.vms && t.shutdown == s.shutdown && t.clusters.Keys == s.clusters.Keys
    && forall c :: c in s.clusters ==> t.clusters[c].node == s.clusters[c].node && t.clusters[c].nodes == s.clusters[c].nodes
  }

  // ------------------------------------------------------------ letting everything pending fail

  /** Nobody else's work has moved. */
  ghost predicate SamePending(s: Sys, t: Sys) {
    t.queue == s.queue && t.inflight == s.inflight
  }

  lemma Status(base: seq<Step>, s: Sys, w: Work, st: Model.Status) returns (t: Sys)
    requires From(base, s) && s.mode == Busy(w) && ActEnabled(s, w, SetStatus(st))
    ensures From(base, t) && SameNodes(s, t) && SamePending(s, t)
    ensures t.mode == Busy(Say(AfterStatus(w, w.event.cluster in s.clusters), StatusSet(st, w.event.cluster in s.clusters)))
  {
    Go(base, s, Do(SetStatus(st)));
    t := Next(s, Do(SetStatus(st)));
    assert t == SetStatusApply(s, w, st);
  }

  /** `execute` gives up. */
  lemma GiveUp(base: seq<Step>, s: Sys, w: Work) returns (t: Sys)
    requires From(base, s) && s.mode == Busy(w) && w.phase.Working?
    ensures From(base, t) && t == s.(mode := Busy(w.(phase := Concluded(false))))
  {
    Go(base, s, Do(Conclude(false)));
    t := Next(s, Do(Conclude(false)));
  }

  lemma GiveIn(base: seq<Step>, s: Sys, w: Work) returns (t: Sys)
    requires From(base, s) && s.mode == Busy(w) && ActEnabled(s, w, Finish(false))
    ensures From(base, t) && SameNodes(s, t) && SamePending(s, t) && t.mode == Probing
  {
    Go(base, s, Do(Finish(false)));
    t := Next(s, Do(Finish(false)));
  }

  lemma DeletedHasLeft(base: seq<Step>, s: Sys, w: Work)
    requires From(base, s) && s.mode == Busy(w) && w.phase == Concluded(true) && w.event.DeleteCluster?
    ensures w.removed
  {
    var more :| Legal(base + more) && Exec(base + more) == s;
    EvidenceAlways(base + more);
  }

  lemma CloseWithStatus(base: seq<Step>, s: Sys, w: Work) returns (t: Sys)
    requires From(base, s) && s.mode == Busy(w) && w.phase.Concluded? && !(w.event.DeleteCluster? && w.phase.ok)
    ensures From(base, t) && SameNodes(s, t) && SamePending(s, t) && t.mode == Probing
  {
    var s1 := Status(base, s, w, if w.phase.ok then Sync else Model.Status.Error);
    MayGiveIn(s1, s1.mode.work);
    t := GiveIn(base, s1, s1.mode.work);
  }

  lemma MayGiveIn(s: Sys, w: Work)
    requires w.phase.Concluded? && w.statusDone
    ensures ActEnabled(s, w, Finish(false))
  {
  }

  lemma CloseConcluded(base: seq<Step>, s: Sys, w: Work) returns (t: Sys)
    requires From(base, s) && s.mode == Busy(w) && w.phase.Concluded?
    ensures From(base, t) && SameNodes(s, t) && SamePending(s, t) && t.mode == Probing
  {
    if w.statusDone {
      t := GiveIn(base, s, w);
    } else if w.event.DeleteCluster? && w.phase.ok {
      DeletedHasLeft(base, s, w);
      t := GiveIn(base, s, w);
    } else {
      t := CloseWithStatus(base, s, w);
    }
  }

  lemma CloseWorking(base: seq<Step>, s: Sys, w: Work) returns (t: Sys)
    requires From(base, s) && s.mode == Busy(w) && w.phase.Working?
    ensures From(base, t) && SameNodes(s, t) && SamePending(s, t) && t.mode == Probing
  {
    var s1 := GiveUp(base, s, w);
    t := CloseConcluded(base, s1, s1.mode.work);
  }

  /** The event in hand ends in an error. */
  lemma Close(base: seq<Step>, s: Sys, w: Work) returns (t: Sys)
    requires From(base, s) && s.mode == Busy(w)
    ensures From(base, t) && SameNodes(s, t) && SamePending(s, t) && t.mode == Probing
  {
    match w.phase
    case Working => t := CloseWorking(base, s, w);
    case Concluded(_) => t := CloseConcluded(base, s, w);
    case Fresh =>
      FreshIsCreation(base, s, w);
      var s1 := Status(base, s, w, Creating);
      if s1.mode.work.phase.Working? {
        t := CloseWorking(base, s1, s1.mode.work);
      } else {
        t := CloseConcluded(base, s1, s1.mode.work);
      }
  }

  lemma FreshIsCreation(base: seq<Step>, s: Sys, w: Work)
    requires From(base, s) && s.mode == Busy(w) && w.phase.Fresh?
    ensures w.event.CreateCluster?
  {
    var more :| Legal(base + more) && Exec(base + more) == s;
    OnlyCreationsAreFresh(base + more);
  }

  ghost predicate FreshMeansCreation(m: Mode) {
    m.Busy? && m.work.phase.Fresh? ==> m.work.event.CreateCluster?
  }

  lemma {:induction false} OnlyCreationsAreFresh(steps: seq<Step>)
    requires Legal(steps)
    ensures FreshMeansCreation(Exec(steps).mode)
  {
    if steps != [] {
      var s, st := Exec(steps[..|steps| - 1]), steps[|steps| - 1];
      OnlyCreationsAreFresh(steps[..|steps| - 1]);
      match st
      case Env(e) => EnvExtends(s, e);
      case Loop(_) =>
      case Do(a) => StaysFresh(s, s.mode.work, a);
    }
  }

  lemma StaysFresh(s: Sys, w: Work, a: Act)
    requires s.mode == Busy(w) && ActEnabled(s, w, a) && FreshMeansCreation(s.mode)
    ensures FreshMeansCreation(ActApply(s, w, a).mode)
  {
    if OnRecord(a) { RecordHandled(s, w, a); } else { OtherStaysFresh(s, w, a); }
  }

  lemma OtherStaysFresh(s: Sys, w: Work, a: Act)
    requires s.mode == Busy(w) && ActEnabled(s, w, a) && FreshMeansCreation(s.mode) && !OnRecord(a)
    ensures FreshMeansCreation(ActApply(s, w, a).mode)
  {
    match a
    case Remote(call, effect) => RemoteConclusion(s, w, call, effect);
    case SetStatus(st) => SetStatusConclusion(s, w, st);
    case Unlock => UnlockConclusion(s, w);
    case DropNode => DropNodeConclusion(s, w);
    case _ =>
  }

  lemma SameNodesTrans(s: Sys, t: Sys, u: Sys)
    requires SameNodes(s, t) && SameNodes(t, u)
    ensures SameNodes(s, u)
  {
  }

  /** The worker gets back to probing. */
  lemma Settle(base: seq<Step>, s: Sys) returns (t: Sys)
    requires From(base, s) && !s.shutdown
    ensures From(base, t) && SameNodes(s, t) && SamePending(s, t) && t.mode == Probing
  {
    match s.mode
    case Probing => t := s;
    case Busy(w) => t := Close(base, s, w);
    case Napping =>
      Go(base, s, Loop(Wake));
      t := Next(s, Loop(Wake));
    case Exited =>
      var more :| Legal(base + more) && Exec(base + more) == s;
      QueueSafety.QueueIsSafe(base + more);
      assert false;
  }

  lemma Taken(base: seq<Step>, s: Sys) returns (t: Sys)
    requires From(base, s) && s.mode == Probing && s.queue != []
    ensures From(base, t) && t == s.(mode := Busy(StartWork(s.queue[0])), queue := s.queue[1..])
  {
    Go(base, s, Loop(Take));
    t := Next(s, Loop(Take));
  }

  /** All queued events end in errors. */
  lemma {:induction false} EmptyQueue(base: seq<Step>, s: Sys) returns (t: Sys)
    requires From(base, s) && s.mode == Probing
    ensures From(base, t) && SameNodes(s, t) && t.inflight == s.inflight && t.mode == Probing && t.queue == []
    decreases |s.queue|
  {
    if s.queue == [] {
      t := s;
    } else {
      var s1 := Taken(base, s);
      var s2 := Close(base, s1, s1.mode.work);
      t := EmptyQueue(base, s2);
      SameNodesTrans(s1, s2, t);
    }
  }

  lemma Sent(base: seq<Step>, s: Sys, e: Event) returns (t: Sys)
    requires From(base, s) && e in s.inflight && |s.queue| < CAPACITY
    ensures From(base, t) && t == s.(inflight := s.inflight - multiset{e}, queue := s.queue + [e], sent := s.sent + [e])
  {
    Go(base, s, Env(Send(e)));
    t := Next(s, Env(Send(e)));
  }

  /** Everything that callers have recorded is sent and ends in errors. */
  lemma {:induction false} Drain(base: seq<Step>, s: Sys) returns (t: Sys)
    requires From(base, s) && s.mode == Probing
    ensures From(base, t) && SameNodes(s, t) && t.mode == Probing && t.queue == [] && t.inflight == multiset{}
    decreases |s.inflight|
  {
    var s1 := EmptyQueue(base, s);
    if s1.inflight == multiset{} {
      t := s1;
    } else {
      var e :| e in s1.inflight;
      var s2 := Sent(base, s1, e);
      t := Drain(base, s2);
      SameNodesTrans(s1, s2, t);
      SameNodesTrans(s, s1, t);
    }
  }

  // ------------------------------------------------------------ the follow-up

  lemma ChangeRequested(base: seq<Step>, s: Sys, c: string, name: string, cores: nat, memory: nat) returns (t: Sys)
    requires From(base, s) && s.mode == Probing && s.queue == [] && s.inflight == multiset{} && !s.shutdown && c in s.clusters
    ensures From(base, t) && t.mode == Busy(StartWork(ChangeResources(c, name, cores, memory))) && t.vms == s.vms
    ensures c in t.clusters && t.clusters[c] == s.clusters[c].(nodes := LockAll(s.clusters[c].nodes, name, ChangeLock))
  {
    var op, e := OpChange(c, name, cores, memory), ChangeResources(c, name, cores, memory);
    Go(base, s, Env(op));
    var s1 := Next(s, Env(op));
    assert s1.inflight == multiset{e} && s1.queue == [];
    var s2 := Sent(base, s1, e);
    assert s2.queue == [e];
    t := Taken(base, s2);
  }

  lemma RecordRead(base: seq<Step>, s: Sys, e: Event) returns (t: Sys)
    requires From(base, s) && s.mode == Busy(StartWork(e)) && !e.CreateCluster? && e.cluster in s.clusters
    ensures From(base, t) && t.vms == s.vms
    ensures t.mode.Busy? && t.mode.work == WithSnap(StartWork(e), Some(s.clusters[e.cluster])).(calls := t.mode.work.calls)
  {
    Go(base, s, Do(ReadRecord));
    t := Next(s, Do(ReadRecord));
  }

  lemma {:induction false} LockedIsFound(nodes: seq<ClusterNode>, name: string, lock: Lock)
    requires FindNode(nodes, name).Some?
    ensures FindNode(LockAll(nodes, name, lock), name) == Some(FindNode(nodes, name).value.(lock := Some(lock)))
  {
    if nodes[0].name != name {
      LockedIsFound(nodes[1..], name, lock);
      assert LockAll(nodes, name, lock)[1..] == LockAll(nodes[1..], name, lock);
    }
  }

  /** The new configuration would reach the VM under the node's id, whoever it belongs to. */
  ghost predicate AboutToHit(s: Sys, e: Event, k: VmKey, a: Act) {
    && s.mode.Busy? && s.mode.work.event == e && e.ChangeResources?
    && Enabled(s, Do(a)) && !SameVm(s.vms, Next(s, Do(a)).vms, k)
  }

  lemma ConfigureHits(s: Sys, w: Work, n: ClusterNode, k: VmKey) returns (a: Act)
    requires s.mode == Busy(w) && w.phase.Working? && w.event.ChangeResources? && w.snap.Some?
    requires FindNode(w.snap.value.nodes, w.event.node) == Some(n) && k == VmKey(w.snap.value.node, n.vmId)
    requires k in s.vms && s.vms[k].cores != w.event.cores
    ensures AboutToHit(s, w.event, k, a)
  {
    a := Remote(Call.Configure(n, w.event.cores, w.event.memory, true), true);
    assert Next(s, Do(a)).vms[k].cores == w.event.cores;
  }

  /** From any state of any run: if the record names a node under whose id a VM exists, the run can go
      on to a point at which a resource change is about to change that VM. */
  lemma ChangeCanHit(base: seq<Step>, s: Sys, c: string, name: string, k: VmKey) returns (t: Sys, e: Event, a: Act)
    requires From(base, s) && !s.shutdown && c in s.clusters && FindNode(s.clusters[c].nodes, name).Some?
    requires k == VmKey(s.clusters[c].node, FindNode(s.clusters[c].nodes, name).value.vmId) && k in s.vms
    ensures From(base, t) && t.vms == s.vms && e.cluster == c && e.ChangeResources? && e.node == name && AboutToHit(t, e, k, a)
  {
    var s1 := Settle(base, s);
    var s2 := Drain(base, s1);
    SameNodesTrans(s, s1, s2);
    e := ChangeResources(c, name, s.vms[k].cores + 1, 0);
    var s3 := ChangeRequested(base, s2, c, name, e.cores, e.memory);
    t := RecordRead(base, s3, e);
    LockedIsFound(s.clusters[c].nodes, name, ChangeLock);
    a := ConfigureHits(t, t.mode.work, FindNode(t.mode.work.snap.value.nodes, name).value, k);
  }

  // ------------------------------------------------------------ two nodes with one id

  lemma {:induction false} FoundStill(nodes: seq<ClusterNode>, x: ClusterNode, name: string)
    requires FindNode(nodes, name).Some?
    ensures FindNode(nodes + [x], name) == FindNode(nodes, name)
  {
    assert (nodes + [x])[1..] == nodes[1..] + [x];
    if nodes[0].name != name { FoundStill(nodes[1..], x, name); }
  }

  /** A node is requested once more, and the worker takes the event up. */
  lemma AdditionRequested(base: seq<Step>, s: Sys, d: string, x: ClusterNode) returns (t: Sys)
    requires From(base, s) && s.mode == Probing && s.queue == [] && s.inflight == multiset{} && !s.shutdown && d in s.clusters
    ensures From(base, t) && t.mode == Busy(StartWork(AddNode(d, x.name))) && t.vms == s.vms && !t.shutdown
    ensures t.clusters == s.clusters[d := s.clusters[d].(nodes := s.clusters[d].nodes + [x.(lock := Some(CreateLock))])]
  {
    var op, e := OpAddNode(d, x), AddNode(d, x.name);
    Go(base, s, Env(op));
    var s1 := Next(s, Env(op));
    assert s1.inflight == multiset{e} && s1.queue == [];
    var s2 := Sent(base, s1, e);
    assert s2.queue == [e];
    t := Taken(base, s2);
  }

  lemma RecordReadKeeps(base: seq<Step>, s: Sys, e: Event) returns (t: Sys)
    requires From(base, s) && s.mode == Busy(StartWork(e)) && !e.CreateCluster? && e.cluster in s.clusters
    ensures From(base, t) && t == s.(mode := t.mode) && t.mode.Busy?
    ensures t.mode.work == WithSnap(StartWork(e), Some(s.clusters[e.cluster])).(calls := t.mode.work.calls)
  {
    Go(base, s, Do(ReadRecord));
    t := Next(s, Do(ReadRecord));
  }

  lemma Made(base: seq<Step>, s: Sys, w: Work, n: ClusterNode) returns (t: Sys)
    requires From(base, s) && s.mode == Busy(w) && w.event.AddNode? && w.phase.Working? && w.snap.Some? && w.wrote == {}
    requires n in w.snap.value.nodes && VmKey(w.snap.value.node, n.vmId) !in s.vms
    ensures From(base, t) && t.clusters == s.clusters && t.shutdown == s.shutdown
    ensures var k := VmKey(w.snap.value.node, n.vmId); k in t.vms && t.vms[k].name == FullName(w.event.cluster, n.name)
  {
    var a := Remote(Call.Create(n, true), true);
    Go(base, s, Do(a));
    t := Next(s, Do(a));
  }

  /** The VM of a recorded node can come into being later, if its id is free: an addition under the
      node's name goes to the first node of that name. */
  lemma VmCanAppear(base: seq<Step>, s: Sys, d: string, name: string, k: VmKey) returns (t: Sys)
    requires From(base, s) && !s.shutdown && d in s.clusters && FindNode(s.clusters[d].nodes, name).Some?
    requires k == VmKey(s.clusters[d].node, FindNode(s.clusters[d].nodes, name).value.vmId) && k !in s.vms
    ensures From(base, t) && !t.shutdown && k in t.vms && t.vms[k].name == FullName(d, name)
    ensures t.clusters.Keys == s.clusters.Keys
    ensures forall c, nm :: c in s.clusters && FindNode(s.clusters[c].nodes, nm).Some? ==>
      t.clusters[c].node == s.clusters[c].node && FindNode(t.clusters[c].nodes, nm) == FindNode(s.clusters[c].nodes, nm)
  {
    var m := FindNode(s.clusters[d].nodes, name).value;
    var s1 := Settle(base, s);
    var s2 := Drain(base, s1);
    SameNodesTrans(s, s1, s2);
    var s3 := AdditionRequested(base, s2, d, m);
    var s4 := RecordReadKeeps(base, s3, AddNode(d, name));
    t := Made(base, s4, s4.mode.work, m);
    forall c, nm | c in s.clusters && FindNode(s.clusters[c].nodes, nm).Some?
      ensures t.clusters[c].node == s.clusters[c].node && FindNode(t.clusters[c].nodes, nm) == FindNode(s.clusters[c].nodes, nm)
    {
      if c == d { FoundStill(s.clusters[d].nodes, m.(lock := Some(CreateLock)), nm); }
    }
  }

  // ------------------------------------------------------------ asking freely is needed

  /** A resource change is about to alter a VM that does not carry the changed node's name. */
  ghost predicate HitsAnother(t: Sys, e: Event, k: VmKey, a: Act) {
    AboutToHit(t, e, k, a) && k in t.vms && t.vms[k].name != FullName(e.cluster, e.node)
  }

  lemma ClaimIsFound(clusters: map<string, Cluster>, c: string, n: ClusterNode, k: VmKey)
    requires Claims(clusters, c, n, k) && UniqueNamed(clusters[c].nodes)
    ensures FindNode(clusters[c].nodes, n.name).Some? && Ident(FindNode(clusters[c].nodes, n.name).value) == n
  {
    var x :| x in clusters[c].nodes && Ident(x) == n;
    var y := FindNode(clusters[c].nodes, n.name).value;
    UniqueIdent(clusters[c].nodes, Ident(x), Ident(y));
  }

  /** A node claims a VM of another name. */
  lemma MisnamedCanBeHit(base: seq<Step>, s: Sys, c: string, n: ClusterNode, k: VmKey) returns (t: Sys, event: Event, a: Act)
    requires From(base, s) && !s.shutdown && Claims(s.clusters, c, n, k) && UniqueNamed(s.clusters[c].nodes)
    requires k in s.vms && s.vms[k].name != FullName(c, n.name)
    ensures From(base, t) && HitsAnother(t, event, k, a)
  {
    ClaimIsFound(s.clusters, c, n, k);
    t, event, a := ChangeCanHit(base, s, c, n.name, k);
  }

  /** Two nodes claim one id under which there is no VM yet. */
  lemma UnbuiltCanBeHit(base: seq<Step>, s: Sys, c: string, n: ClusterNode, d: string, m: ClusterNode, k: VmKey)
      returns (t: Sys, event: Event, a: Act)
    requires From(base, s) && !s.shutdown && k !in s.vms
    requires Claims(s.clusters, c, n, k) && UniqueNamed(s.clusters[c].nodes)
    requires Claims(s.clusters, d, m, k) && UniqueNamed(s.clusters[d].nodes)
    requires FullName(c, n.name) != FullName(d, m.name)
    ensures From(base, t) && HitsAnother(t, event, k, a)
  {
    ClaimIsFound(s.clusters, c, n, k);
    ClaimIsFound(s.clusters, d, m, k);
    var s1 := VmCanAppear(base, s, d, m.name, k);
    t, event, a := ChangeCanHit(base, s1, c, n.name, k);
  }

  /** Two nodes claim one id. */
  lemma TwoClaimsCanBeHit(base: seq<Step>, s: Sys, c: string, n: ClusterNode, d: string, m: ClusterNode, k: VmKey)
      returns (t: Sys, event: Event, a: Act)
    requires From(base, s) && !s.shutdown && FullName(c, n.name) != FullName(d, m.name)
    requires Claims(s.clusters, c, n, k) && UniqueNamed(s.clusters[c].nodes)
    requires Claims(s.clusters, d, m, k) && UniqueNamed(s.clusters[d].nodes)
    ensures From(base, t) && HitsAnother(t, event, k, a)
  {
    if k !in s.vms {
      t, event, a := UnbuiltCanBeHit(base, s, c, n, d, m, k);
    } else if s.vms[k].name != FullName(c, n.name) {
      t, event, a := MisnamedCanBeHit(base, s, c, n, k);
    } else {
      t, event, a := MisnamedCanBeHit(base, s, d, m, k);
    }
  }

  lemma NotOwnedCanBeHit(base: seq<Step>, s: Sys) returns (t: Sys, event: Event, k: VmKey, a: Act)
    requires From(base, s) && !s.shutdown && !Owned(s.clusters, s.vms)
    requires Apart(s.clusters) && forall c :: c in s.clusters ==> UniqueNamed(s.clusters[c].nodes)
    ensures From(base, t) && HitsAnother(t, event, k, a)
  {
    if c, n, d, m, j :| Claims(s.clusters, c, n, j) && Claims(s.clusters, d, m, j) && !(c == d && n == m) {
      k := j;
      if FullName(c, n.name) == FullName(d, m.name) {
        assert Accounts(s.clusters, c, n, k, FullName(c, n.name)) && Accounts(s.clusters, d, m, k, FullName(c, n.name));
        assert false;
      }
      t, event, a := TwoClaimsCanBeHit(base, s, c, n, d, m, k);
    } else {
      var c, n, j :| Claims(s.clusters, c, n, j) && j in s.vms && s.vms[j].name != FullName(c, n.name);
      k := j;
      t, event, a := MisnamedCanBeHit(base, s, c, n, k);
    }
  }

  /** In any run in which every VM is its owner's so far: right after a request that does not ask
      freely, the run has a continuation in which a resource change alters a VM that does not carry its
      node's name. With `Ownership.EnvOwnedIff` and `Ownership.ChangesHitOwnVm`, asking freely is both
      needed and enough. (Nodes are told apart by names within a cluster and by id and full name across
      clusters, before and after.) */
  lemma AskingFreelyIsNeeded(steps: seq<Step>, e: EnvStep) returns (t: Sys, event: Event, k: VmKey, a: Act)
    requires Legal(steps) && Enabled(Exec(steps), Env(e)) && Owned(Exec(steps).clusters, Exec(steps).vms)
    requires var after := Next(Exec(steps), Env(e)).clusters;
      Apart(after) && forall c :: c in after ==> UniqueNamed(after[c].nodes)
    requires !AsksFreely(Exec(steps), e)
    ensures From(steps + [Env(e)], t) && HitsAnother(t, event, k, a)
  {
    var s := Exec(steps);
    Extend(steps, Env(e));
    EnvOwnedIff(s, e);
    var s1 := Next(s, Env(e));
    var base := steps + [Env(e)];
    assert base + [] == base;
    assert From(base, s1);
    t, event, k, a := NotOwnedCanBeHit(base, s1);
  }

  /** The request records a node, as the first of its name, under an id whose VM has another name. */
  ghost predicate TakesForeignId(s: Sys, e: EnvStep, c: string, n: ClusterNode, k: VmKey) {
    && k in s.vms && s.vms[k].name != FullName(c, n.name)
    && match e
       case OpCreate(r) => c == r.clusterName && FindNode(r.nodes, n.name) == Some(n) && k == VmKey(r.node, n.vmId)
       case OpAddNode(d, x) =>
         c == d && x == n && d in s.clusters && FindNode(s.clusters[d].nodes, n.name).None? && k == VmKey(s.clusters[d].node, n.vmId)
       case _ => false
  }

  lemma {:induction false} FoundLast(nodes: seq<ClusterNode>, x: ClusterNode)
    requires FindNode(nodes, x.name).None?
    ensures FindNode(nodes + [x], x.name) == Some(x)
  {
    if nodes == [] {
      assert nodes + [x] == [x];
    } else {
      assert nodes[0] in nodes;
      assert forall n :: n in nodes[1..] ==> n in nodes;
      FoundLast(nodes[1..], x);
      assert (nodes + [x])[1..] == nodes[1..] + [x];
    }
  }

  /** In any run, right after any such request: the run has a continuation in which a resource change
      alters the foreign VM. This needs no assumption about the rest of the store. */
  lemma ForeignIdCanBeHit(steps: seq<Step>, e: EnvStep, c: string, n: ClusterNode, k: VmKey) returns (t: Sys, event: Event, a: Act)
    requires Legal(steps) && Enabled(Exec(steps), Env(e)) && TakesForeignId(Exec(steps), e, c, n, k)
    ensures From(steps + [Env(e)], t) && AboutToHit(t, event, k, a)
    ensures event.cluster == c && event.node == n.name && k in t.vms && t.vms[k].name != FullName(c, n.name)
  {
    var s := Exec(steps);
    Extend(steps, Env(e));
    var s1 := Next(s, Env(e));
    var base := steps + [Env(e)];
    assert base + [] == base;
    assert From(base, s1);
    if e.OpAddNode? { FoundLast(s.clusters[c].nodes, n.(lock := Some(CreateLock))); }
    t, event, a := ChangeCanHit(base, s1, c, n.name, k);
  }
}
