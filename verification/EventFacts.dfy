/** What is known of every event that has ended, whatever its outcome, from the worker's trace of it
    (core/src/dispatcher/dispatcher.rs:24-236 and the use cases). */
module EventFacts {
  import opened Model
  import opened HostFile
  import opened Machine
  import opened Plan
  import opened Trace
  import opened Causes
  import opened Outcomes
  import opened CreationFacts
  import opened AdditionFacts
  import opened DeletionFacts
  import opened RemovalFacts
  import opened Dispatcher
  import opened Common
  import Records
  import CreateCluster
  import DeleteCluster
  import AddNode
  import DeleteNode
  import ChangeResources

  /** The event ended with this course: the calls of its use case, and the closing calls. */
  ghost predicate EndedBy(steps: seq<Machine.Step>, k: nat, w: Work, ok: bool, h: Course) {
    Ended(steps, k, w, ok) && Went(w.event, w.calls, ok, h) && w.phase == Concluded(h.done)
  }

  predicate NeverBegan(w: Work) {
    w.event.CreateCluster? && w.calls == [StatusSet(Creating, false)]
  }

  /** Every event that ended did so by such a course, but for creations whose record was missing at their
      first status update. */
  lemma EveryEventHasCourse(steps: seq<Machine.Step>, k: nat, w: Work, ok: bool) returns (h: Course)
    requires Ended(steps, k, w, ok)
    ensures if NeverBegan(w) then !ok else EndedBy(steps, k, w, ok, h) && (ok ==> h.done)
  {
    if g :| Went(w.event, w.calls, ok, g) && w.phase == Concluded(g.done) {
      h := g;
      assert Opening(w.event) != [StatusSet(Creating, false)];
      if NeverBegan(w) { assert w.calls[0] == (Opening(w.event) + h.body + h.close)[0]; }
    } else {
      h := Course([], false, "", [], false);
    }
  }

  // ------------------------------------------------------------ creations

  /** A creation that stored its record with new keys went by this record. */
  lemma CreationOf(steps: seq<Machine.Step>, k: nat, w: Work, ok: bool, h: Course, r: Cluster) returns (listing: map<nat, string>, ids: set<nat>)
    requires EndedBy(steps, k, w, ok, h) && w.event.CreateCluster? && KeyedOn(h.body, r)
    ensures Ran(CreateCluster.CreationPlan(w.event.cluster, r, listing, ids), h.body, h.done)
  {
    assert UseCase(w.event, h.body, h.done);
    var q;
    q, listing, ids :| Ran(CreateCluster.CreationPlan(w.event.cluster, q, listing, ids), h.body, h.done);
    CreationGoesBy(w.event.cluster, q, listing, ids, h.body, h.done);
  }

  /** A creation that has not stored its keys has called on no node. */
  lemma NoKeysNoCalls(steps: seq<Machine.Step>, k: nat, w: Work, ok: bool, h: Course)
    requires EndedBy(steps, k, w, ok, h) && w.event.CreateCluster? && forall r :: !KeyedOn(h.body, r)
    ensures !h.done && forall call :: call in h.body ==> !OnNode(call)
  {
    assert UseCase(w.event, h.body, h.done);
    var r, listing, ids :| Ran(CreateCluster.CreationPlan(w.event.cluster, r, listing, ids), h.body, h.done);
    CreationGoesBy(w.event.cluster, r, listing, ids, h.body, h.done);
    assert !KeyedOn(h.body, r);
    if h.done { DoneIsLong(w.event.cluster, r, listing, ids, h.body); }
  }

  lemma DoneIsLong(c: string, r: Cluster, listing: map<nat, string>, ids: set<nat>, calls: seq<Call>)
    requires Ran(CreateCluster.CreationPlan(c, r, listing, ids), calls, true)
    ensures |calls| > 2
  {
    SucceedsWithMaster(c, r, listing, ids, calls);
    var j := FurnishedInOrder(c, r, listing, ids, calls, true);
    FilterAtMost(calls, Furnishes);
    var m := FindMaster(r.nodes).value;
    assert Furniture(r)[2] == Call.Ssh(m, Connect, true);
  }

  /** In the calls of every creation: every node of the record goes through each stage before any node
      enters a later one, and gets all hosts on the way. */
  lemma CreationsAreStaged(steps: seq<Machine.Step>, k: nat, w: Work, ok: bool, h: Course, r: Cluster, n: ClusterNode, j: nat)
    requires EndedBy(steps, k, w, ok, h) && w.event.CreateCluster? && KeyedOn(h.body, r) && n in r.nodes && j < |h.body|
    ensures NodeFirst(h.body, j, n, Entries(HostMap(w.event.cluster, r.nodes)))
  {
    var listing, ids := CreationOf(steps, k, w, ok, h, r);
    EveryNodeFirst(w.event.cluster, r, listing, ids, h.body, h.done, n, j);
  }

  /** Every creation of a VM that it asked for was of the next node: the first `created` nodes of the
      record in order, all granted, and then at most one more, of the node after them, which was refused
      but may have taken effect. No other node can have a VM through this event, not even in part; and
      none was asked for under an id that the VMs or the containers of the host already had. */
  lemma CreationsGoInOrder(steps: seq<Machine.Step>, k: nat, w: Work, ok: bool, h: Course, r: Cluster) returns (created: nat)
    requires EndedBy(steps, k, w, ok, h) && w.event.CreateCluster? && KeyedOn(h.body, r)
    ensures UpTo(Filter(h.body, Creates), Creations(r.nodes), created) && (h.done ==> Filter(h.body, Creates) == Creations(r.nodes))
    ensures forall call :: call in h.body && call.Create? ==> FreeOf(h.body, call.node.vmId)
  {
    var listing, ids := CreationOf(steps, k, w, ok, h, r);
    created := CreationsInOrder(w.event.cluster, r, listing, ids, h.body, h.done);
    forall call | call in h.body && call.Create? ensures FreeOf(h.body, call.node.vmId) {
      CreatesOnlyFree(w.event.cluster, r, listing, ids, h.body, h.done, call);
    }
  }

  /** The two listings that the creation read do not show the id. */
  predicate FreeOf(body: seq<Call>, id: nat) {
    |body| > 3 && body[2].ListVms? && id !in body[2].listing && body[3].ListContainers? && id !in body[3].ids
  }

  /** Joins were asked for in the order of the record: of every node with another id than the first
      master's, in its own role, up to the first refusal; each with a token from the first master. */
  lemma JoinsAreMeant(steps: seq<Machine.Step>, k: nat, w: Work, ok: bool, h: Course, r: Cluster) returns (joined: nat)
    requires EndedBy(steps, k, w, ok, h) && w.event.CreateCluster? && KeyedOn(h.body, r)
    ensures UpTo(Filter(h.body, Joins), JoinsOf(r.nodes), joined) && (h.done ==> Filter(h.body, Joins) == JoinsOf(r.nodes))
    ensures forall call :: call in h.body && Tokens(call) ==> FindMaster(r.nodes) == Some(call.node)
  {
    var listing, ids := CreationOf(steps, k, w, ok, h, r);
    joined := JoinsInOrder(w.event.cluster, r, listing, ids, h.body, h.done);
    forall call | call in h.body && Tokens(call) ensures FindMaster(r.nodes) == Some(call.node) {
      TokensFromMaster(w.event.cluster, r, listing, ids, h.body, h.done, call);
    }
  }

  /** And if it succeeded, with distinct ids: every node of the record but the first master joined
      exactly once, as what it is, and the first master not at all. */
  lemma CreationsJoinOnce(steps: seq<Machine.Step>, k: nat, w: Work, h: Course, r: Cluster, n: ClusterNode)
    requires EndedBy(steps, k, w, true, h) && w.event.CreateCluster? && KeyedOn(h.body, r) && n in r.nodes
    requires forall i, j :: 0 <= i < j < |r.nodes| ==> r.nodes[i].vmId != r.nodes[j].vmId
    ensures FindMaster(r.nodes).Some?
    ensures multiset(Filter(h.body, Joins))[JoinOf(n)] == if n == FindMaster(r.nodes).value then 0 else 1
  {
    var listing, ids := CreationOf(steps, k, w, true, h, r);
    EveryNodeJoinsOnce(w.event.cluster, r, listing, ids, h.body, n);
  }

  /** Addons, Helm apps and cluster resources were asked for on the first master, each once, in the order
      of the record, up to the first refusal; if the creation succeeded, all of them were, and granted.
      Before the first of them the master with the least id gave the configuration, which was stored. */
  lemma CreationsFurnish(steps: seq<Machine.Step>, k: nat, w: Work, ok: bool, h: Course, r: Cluster) returns (j: nat)
    requires EndedBy(steps, k, w, ok, h) && w.event.CreateCluster? && KeyedOn(h.body, r)
    ensures UpTo(Filter(h.body, Furnishes), Furniture(r), j)
    ensures h.done ==> FindMaster(r.nodes).Some? && Filter(h.body, Furnishes) == Furniture(r)
    ensures forall i :: 0 <= i < |h.body| && Stage(h.body[i]) >= 8 ==> Configured(h.body, i, r)
  {
    var listing, ids := CreationOf(steps, k, w, ok, h, r);
    j := FurnishedInOrder(w.event.cluster, r, listing, ids, h.body, h.done);
    if h.done { SucceedsWithMaster(w.event.cluster, r, listing, ids, h.body); }
    forall i | 0 <= i < |h.body| && Stage(h.body[i]) >= 8 ensures Configured(h.body, i, r) {
      var m, config := ConfigFirst(w.event.cluster, r, listing, ids, h.body, h.done, i);
    }
  }

  ghost predicate Configured(body: seq<Call>, i: nat, r: Cluster)
    requires i <= |body|
  {
    exists m, config :: CreateCluster.LeastMaster(r.nodes) == Some(m)
      && Call.Ssh(m, Kubeconfig(config), true) in body[..i] && ConfigSaved(config, true) in body[..i]
  }

  // ------------------------------------------------------------ additions and changes

  /** The new node, if the record and a master of another name are found, is the only one that is created
      and joined; it goes through the stages of a creation in their order, and it and all other listed
      nodes get all hosts before it is installed. */
  lemma AdditionsGoInOrder(steps: seq<Machine.Step>, k: nat, w: Work, ok: bool, h: Course, r: Cluster, listing: map<nat, string>, n: ClusterNode)
      returns (i: nat, l: nat)
    requires EndedBy(steps, k, w, ok, h) && w.event.AddNode? && Begins(h.body, r, listing) && FindNode(r.nodes, w.event.node) == Some(n)
    ensures UpTo(Filter(h.body, Creates), [Call.Create(n, true)], i) && (h.done ==> Filter(h.body, Creates) == [Call.Create(n, true)])
    ensures UpTo(Filter(h.body, Joins), [JoinOf(n)], l) && (h.done ==> Filter(h.body, Joins) == [JoinOf(n)])
    ensures forall j :: 0 <= j < |h.body| ==> NodeFirst(h.body, j, n, Entries(HostMap(w.event.cluster, r.nodes)))
    ensures forall j :: 0 <= j < |h.body| && Stage(h.body[j]) >= 4 ==> Introduced(h.body, j, w.event.cluster, r, listing, n.name)
  {
    assert UseCase(w.event, h.body, h.done);
    var c, name := w.event.cluster, w.event.node;
    var q, x :| Ran(AddNode.AdditionPlan(c, name, q, x), h.body, h.done);
    AdditionGoesBy(c, name, q, x, h.body, h.done, r, listing);
    var m := FindOtherMaster(r.nodes, name).value;
    var others := Records.Without(Existing(r.nodes, listing, c), name);
    i, l := OnlyNewNode(c, name, r, listing, m, n, others, h.body, h.done);
    forall j | 0 <= j < |h.body|
      ensures NodeFirst(h.body, j, n, Entries(HostMap(c, r.nodes)))
      ensures Stage(h.body[j]) >= 4 ==> Introduced(h.body, j, c, r, listing, n.name)
    {
      NewNodeInOrder(c, name, r, listing, m, n, others, h.body, h.done, j);
    }
  }

  /** Every other node that the listing shows has got every host of the record. */
  ghost predicate Introduced(body: seq<Call>, j: nat, c: string, r: Cluster, listing: map<nat, string>, name: string)
    requires j <= |body|
  {
    forall o, e :: o in r.nodes && Listed(listing, c, o) && o.name != name && e in Entries(HostMap(c, r.nodes)) ==>
      Call.Ssh(o, AddHost(e), true) in body[..j]
  }

  /** Only the VM of the first node of the name is touched: configured with the numbers asked for, then
      shut down and seen stopped, then started, and only then are the numbers stored. */
  lemma ChangesGoInOrder(steps: seq<Machine.Step>, k: nat, w: Work, ok: bool, h: Course, r: Cluster, j: nat)
    requires EndedBy(steps, k, w, ok, h) && w.event.ChangeResources? && Reads(h.body, r) && 1 < j < |h.body|
    ensures FindNode(r.nodes, w.event.node).Some?
    ensures Changes(h.body, j, FindNode(r.nodes, w.event.node).value, w.event.cores, w.event.memory)
  {
    assert UseCase(w.event, h.body, h.done);
    var e := w.event;
    var q :| Ran(ChangeResources.ChangePlan(e.node, e.cores, e.memory, q), h.body, h.done);
    ChangeGoesBy(e.node, e.cores, e.memory, q, h.body, h.done, r);
    ChangesInOrder(e.node, e.cores, e.memory, r, h.body, h.done, FindNode(r.nodes, e.node).value, j);
  }

  ghost predicate Changes(body: seq<Call>, j: nat, n: ClusterNode, cores: nat, memory: nat)
    requires j < |body|
  {
    && (OnNode(body[j]) ==> body[j].node == n)
    && (body[j].Configure? ==> body[j].cores == cores && body[j].memory == memory)
    && (ChangeStep(body[j]) >= 2 ==> Call.Configure(n, cores, memory, true) in body[..j])
    && (ChangeStep(body[j]) >= 3 ==> Call.Poll(n, SawStopped) in body[..j])
    && (ChangeStep(body[j]) >= 4 ==> Call.Start(n, true) in body[..j])
  }

  // ------------------------------------------------------------ deletions and removals

  /** In the calls of every deletion: requests precede waits and waits precede deletions; a VM is deleted
      only if the listing showed it as a node of the record, and only after a granted shutdown request and
      then a poll that saw it stopped or a hard stop; the record goes only after every VM shown has been
      deleted; and no node is polled more than 62 times for each time the record lists it. */
  lemma DeletionsAreDisciplined(steps: seq<Machine.Step>, k: nat, w: Work, ok: bool, h: Course, r: Cluster, listing: map<nat, string>)
    requires EndedBy(steps, k, w, ok, h) && w.event.DeleteCluster? && Shown(h.body, r, listing)
    ensures InSteps(h.body)
    ensures forall j :: 0 <= j < |h.body| && h.body[j].Delete? ==>
      h.body[j].node in r.nodes && Listed(listing, w.event.cluster, h.body[j].node) && Prepared(h.body, j)
    ensures forall j, n :: 0 <= j < |h.body| && h.body[j].ClusterDropped? && n in r.nodes && Listed(listing, w.event.cluster, n) ==>
      Call.Delete(n, true) in h.body[..j]
    ensures forall n :: |Filter(h.body, IsPoll(n))| <= 62 * multiset(r.nodes)[n]
  {
    assert UseCase(w.event, h.body, h.done);
    var c := w.event.cluster;
    var q, x :| Ran(DeleteCluster.DeletionPlan(c, q, x), h.body, h.done);
    DeletionGoesBy(c, q, x, h.body, h.done);
    forall j | 0 <= j < |h.body|
      ensures h.body[j].Delete? ==> h.body[j].node in Existing(r.nodes, listing, c) && Prepared(h.body, j)
      ensures h.body[j].ClusterDropped? ==> forall n :: n in Existing(r.nodes, listing, c) ==> Call.Delete(n, true) in h.body[..j]
    {
      DeletionIsDisciplined(c, r, listing, h.body, h.done, j);
    }
    DeletionIsDisciplined(c, r, listing, h.body, h.done, 0);
    forall n ensures |Filter(h.body, IsPoll(n))| <= 62 * multiset(r.nodes)[n] { PollsAreBounded(c, r, listing, h.body, h.done, n); }
  }

  /** The first listing decides a removal: if it does not show the node's id under the name of a node of
      the record, nothing is asked of any VM but to forget the name, and the node leaves the record at
      once; if it does, the next call after a note drains the node on the first other master, and all that
      follows keeps to the order of the steps and to this node's VM. */
  lemma RemovalsAreDecided(steps: seq<Machine.Step>, k: nat, w: Work, ok: bool, h: Course, r: Cluster, listing: map<nat, string>)
      returns (master: ClusterNode, target: ClusterNode)
    requires EndedBy(steps, k, w, ok, h) && w.event.DeleteNode? && Begins(h.body, r, listing)
    ensures Chosen(r, w.event.node, master, target)
    ensures !Shows(r, listing, w.event.cluster, target.vmId) ==>
      |h.body| > 3 && h.body[3].NodeDropped? && forall call :: call in h.body && OnNode(call) ==> Scrubs(call, FullName(w.event.cluster, w.event.node))
    ensures Shows(r, listing, w.event.cluster, target.vmId) ==>
      |h.body| > 4 && Drains(h.body[4], master, FullName(w.event.cluster, w.event.node))
      && RemovalFacts.Disciplined(w.event.cluster, master, target, h.body[3..])
    ensures h.done ==> Forgot(w.event.cluster, w.event.node, h.body)
  {
    assert UseCase(w.event, h.body, h.done);
    var c, name := w.event.cluster, w.event.node;
    var a :| Ran(DeleteNode.RemovalPlan(c, name, a), h.body, h.done);
    var rest;
    master, target, rest := RemovalSurveys(c, name, a, h.body, h.done, r, listing);
    if Shows(r, listing, c, target.vmId) {
      var m, t := ShownIsDrained(c, name, h.body, h.done, r, listing);
      m, t := RemovalIsDisciplined(c, name, h.body, h.done, r, listing);
    } else {
      NotShownIsLeftAlone(c, name, h.body, h.done, r, listing);
    }
    if h.done { RemovalForgets(c, name, h.body, r, listing); }
  }

  predicate Drains(call: Call, master: ClusterNode, name: string) {
    call.Ssh? && call.node == master && call.command == Drain(name)
  }

  // ------------------------------------------------------------ failures

  /** The plan is what the event's use case has to do, for some record and some answers. */
  ghost predicate IsPlanOf(e: Event, plan: seq<Task>) {
    match e
    case CreateCluster(c) => exists r, l, ids :: plan == CreateCluster.CreationPlan(c, r, l, ids)
    case DeleteCluster(c) => exists r, l :: plan == DeleteCluster.DeletionPlan(c, r, l)
    case AddNode(c, name) => exists r, l :: plan == AddNode.AdditionPlan(c, name, r, l)
    case DeleteNode(c, name) => exists a :: plan == DeleteNode.RemovalPlan(c, name, a)
    case ChangeResources(_, name, cores, memory) => exists r :: plan == ChangeResources.ChangePlan(name, cores, memory, r)
  }

  lemma HasPlan(e: Event, body: seq<Call>, ok: bool) returns (plan: seq<Task>)
    requires UseCase(e, body, ok)
    ensures IsPlanOf(e, plan) && Ran(plan, body, ok)
  {
    match e
    case CreateCluster(c) =>
      var r, l, ids :| Ran(CreateCluster.CreationPlan(c, r, l, ids), body, ok);
      plan := CreateCluster.CreationPlan(c, r, l, ids);
    case DeleteCluster(c) =>
      var r, l :| Ran(DeleteCluster.DeletionPlan(c, r, l), body, ok);
      plan := DeleteCluster.DeletionPlan(c, r, l);
    case AddNode(c, name) =>
      var r, l :| Ran(AddNode.AdditionPlan(c, name, r, l), body, ok);
      plan := AddNode.AdditionPlan(c, name, r, l);
    case DeleteNode(c, name) =>
      var a :| Ran(DeleteNode.RemovalPlan(c, name, a), body, ok);
      plan := DeleteNode.RemovalPlan(c, name, a);
    case ChangeResources(_, name, cores, memory) =>
      var r :| Ran(ChangeResources.ChangePlan(name, cores, memory, r), body, ok);
      plan := ChangeResources.ChangePlan(name, cores, memory, r);
  }

  /** Every failed event has its cause: the last call of its use case was refused, found nothing or waited
      in vain; or all tasks of its plan were done up to one that can fail unasked, because there is no node
      to turn to, an id is taken or the image has no file name; or, if the use case succeeded, the last of
      the closing calls found nothing. */
  lemma FailuresHaveCauses(steps: seq<Machine.Step>, k: nat, w: Work, h: Course) returns (plan: seq<Task>, i: nat)
    requires EndedBy(steps, k, w, false, h)
    ensures if h.done then Cause(h.close)
            else IsPlanOf(w.event, plan) && i < |plan| && (Cause(h.body) || (FailsUnasked(plan[i]) && Ran(plan[..i], h.body, true)))
  {
    plan := [];
    if h.done {
      ClosingFails(w.event, h.why, h.close);
      i := 0;
    } else {
      assert UseCase(w.event, h.body, h.done);
      plan := HasPlan(w.event, h.body, false);
      i := FailureHasCause(plan, h.body);
    }
  }

  lemma ClosingFails(e: Event, why: string, close: seq<Call>)
    requires Ran(Closing(e, true, why), close, false)
    ensures Cause(close)
  {
    var plan := Closing(e, true, why);
    var i := FailureHasCause(plan, close);
    assert plan[i] in plan;
  }

  /** What the worker leaves as the cluster's status: after a failed use case it has set it to Error,
      after a successful one (but for the deletion of a cluster) to Sync, while it was at this event; the
      trace has that call, and whether it found the record. */
  lemma OutcomesAreVisible(steps: seq<Machine.Step>, k: nat, w: Work, ok: bool, h: Course) returns (i: nat, found: bool)
    requires Legal(steps) && EndedBy(steps, k, w, ok, h) && (!h.done || (ok && !w.event.DeleteCluster?))
    ensures SameEvent(steps, i, k) && SetAt(steps, i, Verdict(h.done), w.event.cluster, found)
    ensures StatusSet(Verdict(h.done), found) in w.calls
  {
    var st;
    i, st, found := OutcomesAreShown(steps, k, ok, w);
    if st == Creating { CreatingFound(w, ok, h, found); }
  }

  /** Once a creation has begun, its first status update has found the record. */
  lemma CreatingFound(w: Work, ok: bool, h: Course, found: bool)
    requires w.event.CreateCluster? && Went(w.event, w.calls, ok, h) && StatusSet(Creating, found) in w.calls
    ensures found
  {
    assert UseCase(w.event, h.body, h.done);
    if StatusSet(Creating, found) in h.body { CreationsSetNoStatus(w.event.cluster, h.body, h.done, StatusSet(Creating, found)); }
    if StatusSet(Creating, found) in h.close { ClosingSetsVerdict(w.event, h.done, h.why, h.close, h.closed, StatusSet(Creating, found)); }
  }

  lemma CreationsSetNoStatus(c: string, body: seq<Call>, ok: bool, call: Call)
    requires CreateCluster.Creation(c, body, ok) && call in body
    ensures !call.StatusSet?
  {
    var r, l, ids :| Ran(CreateCluster.CreationPlan(c, r, l, ids), body, ok);
    var t, seg, done := CallHasTask(CreateCluster.CreationPlan(c, r, l, ids), body, ok, call);
    AllCreative(c, r, l, ids);
    CallKinds(t, seg, done, call);
  }

  lemma ClosingSetsVerdict(e: Event, done: bool, why: string, close: seq<Call>, closed: bool, call: Call)
    requires Ran(Closing(e, done, why), close, closed) && call in close && call.StatusSet?
    ensures call.status == Verdict(done)
  {
    var t, seg, granted := CallHasTask(Closing(e, done, why), close, closed, call);
  }
}
