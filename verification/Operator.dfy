/** The requests of the operator (core/src/operator.rs): check the store, write the new intent into
    it, and only then send the event to the worker. While a request is under way everyone else,
    the worker included, goes on. */
module Operator {
  import opened Model
  import opened Machine
  import opened World
  import opened Edits
  import Frames

  datatype Problem = ResourceAlreadyExists | ResourceNotFound | Generic(message: string)

  /** `Waiting` is a call that is still blocked because the channel is full. */
  datatype Reply<+T> = Accepted(value: T) | Refused(why: Problem) | Waiting

  /** A step of somebody else: it neither drops the operator under our feet nor sends our events. */
  predicate Elsewhere(s: Sys, st: Machine.Step, mine: multiset<Event>) {
    match st
    case Env(RequestShutdown) => false
    case Env(Send(e)) => mine <= s.inflight - multiset{e}
    case _ => true
  }

  lemma ElsewhereKeeps(s: Sys, st: Machine.Step, mine: multiset<Event>)
    requires Enabled(s, st) && Elsewhere(s, st, mine) && !s.shutdown && mine <= s.inflight
    ensures !Next(s, st).shutdown && mine <= Next(s, st).inflight
  {
    match st
    case Do(a) => Frames.ActKeepsEvent(s, s.mode.work, a);
    case Loop(_) =>
    case Env(_) =>
  }

  method Meanwhile(w: World, mine: multiset<Event>)
    requires w.Valid() && !w.s.shutdown && mine <= w.s.inflight
    modifies w
    ensures w.Valid() && !w.s.shutdown && mine <= w.s.inflight && old(w.steps) <= w.steps
  {
    var n: nat :| true;
    for i := 0 to n
      invariant w.Valid() && !w.s.shutdown && mine <= w.s.inflight && old(w.steps) <= w.steps
    {
      var st: Machine.Step := *;
      if Enabled(w.s, st) && Elsewhere(w.s, st, mine) {
        ElsewhereKeeps(w.s, st, mine);
        w.Step(st);
      }
    }
  }

  /** Step number `i` of the run was the request `op`, made in state `s`, and the store has since what
      was asked for. */
  ghost predicate MetAt(steps: seq<Machine.Step>, i: nat, op: EnvStep, s: Sys) {
    At(steps, i, Env(op), s) && exists s' :: Reaches(steps, i + 1, s') && Requested(op, s.clusters, s'.clusters)
  }

  /** The run grew, and somewhere in the new part the request was made, in state `s`. */
  ghost predicate Met(before: seq<Machine.Step>, after: seq<Machine.Step>, op: EnvStep, s: Sys) {
    before <= after && exists i: nat :: |before| <= i && MetAt(after, i, op, s)
  }

  /** The intent is in the store before its event is in the channel. */
  ghost predicate WrittenThenSent(before: seq<Machine.Step>, after: seq<Machine.Step>, op: EnvStep, s: Sys, event: Event) {
    before <= after && exists i: nat, j: nat :: |before| <= i < j < |after| && MetAt(after, i, op, s) && after[j] == Env(EnvStep.Send(event))
  }

  lemma MetAtLater(a: seq<Machine.Step>, b: seq<Machine.Step>, i: nat, op: EnvStep, s: Sys)
    requires a <= b && MetAt(a, i, op, s)
    ensures MetAt(b, i, op, s)
  {
    AtLater(a, b, i, Env(op), s);
    var s' :| Reaches(a, i + 1, s') && Requested(op, s.clusters, s'.clusters);
    ReachesLater(a, b, i + 1, s');
  }

  lemma MetLater(before: seq<Machine.Step>, now: seq<Machine.Step>, after: seq<Machine.Step>, op: EnvStep, s: Sys)
    requires Met(before, now, op, s) && now <= after
    ensures Met(before, after, op, s)
  {
    var i: nat :| |before| <= i && MetAt(now, i, op, s);
    MetAtLater(now, after, i, op, s);
  }

  /** One enabled request step, and its event waits to be sent. */
  method Write(w: World, op: EnvStep, event: Event)
    requires w.Valid() && !w.s.shutdown && EnvEnabled(w.s, op)
    requires EnvApply(w.s, op).inflight == w.s.inflight + multiset{event} && !EnvApply(w.s, op).shutdown
    modifies w
    ensures w.Valid() && !w.s.shutdown && multiset{event} <= w.s.inflight
    ensures Met(old(w.steps), w.steps, op, old(w.s))
  {
    RequestsAreMet(w.s, op);
    w.Step(Env(op));
    assert MetAt(w.steps, |old(w.steps)|, op, old(w.s));
  }

  method SaveLog(w: World, cluster: string, message: string, mine: multiset<Event>)
    requires w.Valid() && !w.s.shutdown && mine <= w.s.inflight
    modifies w
    ensures w.Valid() && !w.s.shutdown && mine <= w.s.inflight && old(w.steps) <= w.steps
  {
    var date: int := *;
    w.Step(Env(OpLog(LogEntry(date, cluster, message, Info))));
    Meanwhile(w, mine);
  }

  /** `tx.send`: blocks while the channel is full, here for at most `patience` looks. */
  method Send(w: World, event: Event, patience: nat) returns (sent: bool)
    requires w.Valid() && !w.s.shutdown && multiset{event} <= w.s.inflight
    modifies w
    ensures w.Valid() && !w.s.shutdown && old(w.steps) <= w.steps
    ensures if sent then |w.steps| > |old(w.steps)| && w.steps[|w.steps| - 1] == Env(EnvStep.Send(event)) else multiset{event} <= w.s.inflight
    ensures sent ==> w.s.queue != [] && w.s.queue[|w.s.queue| - 1] == event && |w.s.queue| <= CAPACITY
  {
    for i := 0 to patience
      invariant w.Valid() && !w.s.shutdown && multiset{event} <= w.s.inflight && old(w.steps) <= w.steps
    {
      Meanwhile(w, multiset{event});
      if |w.s.queue| < CAPACITY {
        w.Step(Env(EnvStep.Send(event)));
        return true;
      }
    }
    sent := false;
  }

  lemma ThenSent(s0: seq<Machine.Step>, s1: seq<Machine.Step>, s2: seq<Machine.Step>, op: EnvStep, s: Sys, event: Event)
    requires Met(s0, s1, op, s) && s1 <= s2 && |s2| > |s1| && s2[|s2| - 1] == Env(EnvStep.Send(event))
    ensures WrittenThenSent(s0, s2, op, s, event)
  {
    var i: nat :| |s0| <= i && MetAt(s1, i, op, s);
    MetAtLater(s1, s2, i, op, s);
  }

  /** Writes the intent, and perhaps logs it. */
  method WriteAndLog(w: World, op: EnvStep, event: Event, message: Option<string>)
    requires w.Valid() && !w.s.shutdown && EnvEnabled(w.s, op)
    requires EnvApply(w.s, op).inflight == w.s.inflight + multiset{event} && !EnvApply(w.s, op).shutdown
    modifies w
    ensures w.Valid() && !w.s.shutdown && multiset{event} <= w.s.inflight
    ensures Met(old(w.steps), w.steps, op, old(w.s))
  {
    ghost var s0, s := w.steps, w.s;
    Write(w, op, event);
    ghost var s1 := w.steps;
    Meanwhile(w, multiset{event});
    if message.Some? { SaveLog(w, event.cluster, message.value, multiset{event}); }
    MetLater(s0, s1, w.steps, op, s);
  }

  /** Writes the intent and sends the event. */
  method WriteAndSend(w: World, op: EnvStep, event: Event, message: Option<string>, patience: nat) returns (sent: bool)
    requires w.Valid() && !w.s.shutdown && EnvEnabled(w.s, op)
    requires EnvApply(w.s, op).inflight == w.s.inflight + multiset{event} && !EnvApply(w.s, op).shutdown
    modifies w
    ensures w.Valid() && !w.s.shutdown
    ensures if sent then WrittenThenSent(old(w.steps), w.steps, op, old(w.s), event) else Met(old(w.steps), w.steps, op, old(w.s))
  {
    ghost var s0, s := w.steps, w.s;
    WriteAndLog(w, op, event, message);
    ghost var s1 := w.steps;
    sent := Send(w, event, patience);
    if sent { ThenSent(s0, s1, w.steps, op, s, event); } else { MetLater(s0, s1, w.steps, op, s); }
  }

  /** What a request that was not refused has done: in state `at` it was written into the store, and then
      its event was sent, or still waits to be. */
  ghost predicate Answered<T>(before: seq<Machine.Step>, after: seq<Machine.Step>, op: EnvStep, at: Sys, event: Event, r: Reply<T>) {
    && (r.Accepted? ==> WrittenThenSent(before, after, op, at, event))
    && (r.Waiting? ==> Met(before, after, op, at))
  }

  lemma Earlier(s0: seq<Machine.Step>, s1: seq<Machine.Step>, s2: seq<Machine.Step>, op: EnvStep, s: Sys, event: Event)
    requires s0 <= s1
    ensures Met(s1, s2, op, s) ==> Met(s0, s2, op, s)
    ensures WrittenThenSent(s1, s2, op, s, event) ==> WrittenThenSent(s0, s2, op, s, event)
  {
  }

  // ------------------------------------------------------------ the requests

  function WithIds(apps: seq<HelmApp>, ids: nat -> string): seq<HelmApp> {
    seq(|apps|, i requires 0 <= i < |apps| => apps[i].(id := ids(i)))
  }

  function WithResourceIds(resources: seq<ClusterResource>, ids: nat -> string): seq<ClusterResource> {
    seq(|resources|, i requires 0 <= i < |resources| => resources[i].(id := ids(i)))
  }

  /** The record a creation request turns into; the nodes are stored as they come. */
  function NewRecord(request: Cluster, appIds: nat -> string, resourceIds: nat -> string): Cluster {
    request.(clusterConfig := "", status := Pending,
             helmApps := WithIds(request.helmApps, appIds),
             clusterResources := WithResourceIds(request.clusterResources, resourceIds))
  }

  lemma NewRecordIsMade(request: Cluster, appIds: nat -> string, resourceIds: nat -> string)
    ensures MadeFrom(request, NewRecord(request, appIds, resourceIds))
  {
  }

  /** The record has all that was asked for, the nodes as they come; it is pending and has no
      configuration yet, and its apps and resources differ from those of the request in their ids only. */
  ghost predicate MadeFrom(request: Cluster, record: Cluster) {
    && record.clusterName == request.clusterName && record.node == request.node && record.nodes == request.nodes
    && record.sshKey == request.sshKey && record.status == Pending && record.clusterConfig == ""
    && record == request.(clusterConfig := "", status := Pending, helmApps := record.helmApps, clusterResources := record.clusterResources)
    && |record.helmApps| == |request.helmApps|
    && (forall i :: 0 <= i < |request.helmApps| ==> record.helmApps[i] == request.helmApps[i].(id := record.helmApps[i].id))
    && |record.clusterResources| == |request.clusterResources|
    && (forall i :: 0 <= i < |request.clusterResources| ==>
          record.clusterResources[i] == request.clusterResources[i].(id := record.clusterResources[i].id))
  }

  method CreateCluster(w: World, request: Cluster, patience: nat) returns (r: Reply<()>, ghost record: Cluster, ghost at: Sys)
    requires w.Valid() && !w.s.shutdown
    modifies w
    ensures w.Valid() && !w.s.shutdown && old(w.steps) <= w.steps
    ensures MadeFrom(request, record)
    ensures Answered(old(w.steps), w.steps, OpCreate(record), at, Event.CreateCluster(request.clusterName), r)
    ensures r.Refused? ==> r.why == ResourceAlreadyExists && request.clusterName in w.s.clusters
  {
    var appIds: nat -> string := *;
    var resourceIds: nat -> string := *;
    var cluster := NewRecord(request, appIds, resourceIds);
    NewRecordIsMade(request, appIds, resourceIds);
    record := cluster;
    Meanwhile(w, multiset{});
    at := w.s;
    if request.clusterName in w.s.clusters { r := Refused(ResourceAlreadyExists); return; }
    ghost var s1 := w.steps;
    var sent := WriteAndSend(w, OpCreate(cluster), Event.CreateCluster(request.clusterName), None, patience);
    Earlier(old(w.steps), s1, w.steps, OpCreate(cluster), at, Event.CreateCluster(request.clusterName));
    r := if sent then Accepted(()) else Waiting;
  }

  method ChangeNodeResources(w: World, cluster: string, node: string, cores: nat, memory: nat, patience: nat) returns (r: Reply<()>, ghost at: Sys)
    requires w.Valid() && !w.s.shutdown
    modifies w
    ensures w.Valid() && !w.s.shutdown && old(w.steps) <= w.steps
    ensures Answered(old(w.steps), w.steps, OpChange(cluster, node, cores, memory), at, Event.ChangeResources(cluster, node, cores, memory), r)
    ensures r.Refused? ==> r.why.Generic? && cluster !in w.s.clusters
  {
    Meanwhile(w, multiset{});
    at := w.s;
    if cluster !in w.s.clusters { return Refused(Generic("Cannot get cluster")), at; }
    ghost var s1 := w.steps;
    var op, event := OpChange(cluster, node, cores, memory), Event.ChangeResources(cluster, node, cores, memory);
    var sent := WriteAndSend(w, op, event, None, patience);
    Earlier(old(w.steps), s1, w.steps, op, at, event);
    r := if sent then Accepted(()) else Waiting;
  }

  /** The node is appended unseen: neither its name nor its id is compared with the others. */
  method AddNodeCluster(w: World, cluster: string, request: ClusterNode, patience: nat) returns (r: Reply<ClusterNode>, ghost at: Sys)
    requires w.Valid() && !w.s.shutdown
    modifies w
    ensures w.Valid() && !w.s.shutdown && old(w.steps) <= w.steps
    ensures Answered(old(w.steps), w.steps, OpAddNode(cluster, request), at, Event.AddNode(cluster, request.name), r)
    ensures r.Accepted? ==> r.value == request.(lock := Some(CreateLock))
    ensures r.Refused? ==> r.why.Generic? && cluster !in w.s.clusters
  {
    Meanwhile(w, multiset{});
    at := w.s;
    if cluster !in w.s.clusters { return Refused(Generic("Cannot get cluster")), at; }
    ghost var s1 := w.steps;
    var op, event := OpAddNode(cluster, request), Event.AddNode(cluster, request.name);
    var sent := WriteAndSend(w, op, event, Some("Adding node to cluster has been started"), patience);
    Earlier(old(w.steps), s1, w.steps, op, at, event);
    r := if sent then Accepted(request.(lock := Some(CreateLock))) else Waiting;
  }

  method DeleteCluster(w: World, cluster: string, patience: nat) returns (r: Reply<()>, ghost at: Sys)
    requires w.Valid() && !w.s.shutdown
    modifies w
    ensures w.Valid() && !w.s.shutdown && old(w.steps) <= w.steps
    ensures Answered(old(w.steps), w.steps, OpDeleteCluster(cluster), at, Event.DeleteCluster(cluster), r)
    ensures r.Refused? ==> r.why.Generic? && cluster !in w.s.clusters
  {
    Meanwhile(w, multiset{});
    at := w.s;
    if cluster !in w.s.clusters { return Refused(Generic("Cannot get cluster")), at; }
    ghost var s1 := w.steps;
    var op, event := OpDeleteCluster(cluster), Event.DeleteCluster(cluster);
    var sent := WriteAndSend(w, op, event, Some("Cluster deletion started"), patience);
    Earlier(old(w.steps), s1, w.steps, op, at, event);
    r := if sent then Accepted(()) else Waiting;
  }

  predicate IsMissing(clusters: map<string, Cluster>, cluster: string, node: string) {
    cluster !in clusters || FindNode(clusters[cluster].nodes, node).None?
  }

  /** The log entry is written even if there is nothing to delete. The answer is the first node of the
      name in the stored record, with its lock. */
  method DeleteNodeFromCluster(w: World, cluster: string, node: string, patience: nat) returns (r: Reply<ClusterNode>, ghost at: Sys)
    requires w.Valid() && !w.s.shutdown
    modifies w
    ensures w.Valid() && !w.s.shutdown && old(w.steps) <= w.steps
    ensures Answered(old(w.steps), w.steps, OpDeleteNode(cluster, node), at, Event.DeleteNode(cluster, node), r)
    ensures r.Accepted? ==> cluster in at.clusters && FindNode(at.clusters[cluster].nodes, node).Some?
                            && r.value == FindNode(at.clusters[cluster].nodes, node).value.(lock := Some(DeleteLock))
    ensures r.Refused? ==> r.why == ResourceNotFound && IsMissing(w.s.clusters, cluster, node)
  {
    SaveLog(w, cluster, "Deleting node from cluster has been started", multiset{});
    at := w.s;
    if cluster !in w.s.clusters { return Refused(ResourceNotFound), at; }
    var target := FindNode(w.s.clusters[cluster].nodes, node);
    if target.None? { return Refused(ResourceNotFound), at; }
    ghost var s1 := w.steps;
    var op, event := OpDeleteNode(cluster, node), Event.DeleteNode(cluster, node);
    var sent := WriteAndSend(w, op, event, None, patience);
    Earlier(old(w.steps), s1, w.steps, op, at, event);
    r := if sent then Accepted(target.value.(lock := Some(DeleteLock))) else Waiting;
  }

  /** Steps of the worker and of the outside world. */
  method LetRun(w: World)
    requires w.Valid() && w.s.shutdown
    modifies w
    ensures w.Valid() && w.s.shutdown && old(w.steps) <= w.steps
  {
    var n: nat :| true;
    for i := 0 to n
      invariant w.Valid() && w.s.shutdown && old(w.steps) <= w.steps
    {
      var st: Machine.Step := *;
      if Enabled(w.s, st) {
        ShutdownStays(w.s, st);
        w.Step(st);
      }
    }
  }

  lemma ShutdownStays(s: Sys, st: Machine.Step)
    requires Enabled(s, st) && s.shutdown
    ensures Next(s, st).shutdown
  {
    match st
    case Do(a) => Frames.ActKeepsEvent(s, s.mode.work, a);
    case Loop(_) =>
    case Env(_) =>
  }

  /** Dropping the operator takes away the last reference to it, so no request is under way. Raises
      the flag, then joins the worker's thread, here for at most `patience` looks. */
  method Drop(w: World, patience: nat) returns (joined: bool)
    requires w.Valid() && w.s.inflight == multiset{}
    modifies w
    ensures w.Valid() && w.s.shutdown && (joined ==> w.s.mode.Exited?)
    ensures old(w.steps) + [Env(RequestShutdown)] <= w.steps
  {
    w.Step(Env(RequestShutdown));
    for i := 0 to patience
      invariant w.Valid() && w.s.shutdown && old(w.steps) + [Env(RequestShutdown)] <= w.steps
    {
      if w.s.mode.Exited? { return true; }
      LetRun(w);
    }
    joined := false;
  }
}
