/** A transitional status always has work in flight behind it
    (core/src/dispatcher/dispatcher.rs:24-247, core/src/operator.rs:126-133, 210-220). */
module StatusInFlight {
  import opened Model
  import opened Machine
  import opened Frames

  predicate Waiting(s: Sys, e: Event) {
    e in s.inflight || e in s.queue
  }

  ghost predicate StatusExplained(s: Sys, c: string) {
    c in s.clusters ==>
      match s.clusters[c].status
      case Pending =>
        || Waiting(s, CreateCluster(c))
        || (s.mode.Busy? && s.mode.work.event == CreateCluster(c) && s.mode.work.phase.Fresh?)
      case Creating =>
        && s.mode.Busy? && s.mode.work.event == CreateCluster(c)
        && !s.mode.work.phase.Fresh? && !s.mode.work.statusDone
      case Destroying =>
        || Waiting(s, DeleteCluster(c))
        || (s.mode.Busy? && s.mode.work.event == DeleteCluster(c) && !s.mode.work.removed && !s.mode.work.statusDone)
      case OutOfSync => false
      case Sync => true
      case Error => true
  }

  ghost predicate AllExplained(s: Sys) {
    && (forall c :: StatusExplained(s, c))
    && ClosesLate(s)
  }

  /** The closing status update comes after `execute` has returned. */
  ghost predicate ClosesLate(s: Sys) {
    s.mode.Busy? && s.mode.work.statusDone ==> s.mode.work.phase.Concluded?
  }

  /** A caller's step changes a status only together with the event that explains it. */
  lemma EnvStatusMoves(s: Sys, e: EnvStep, c: string)
    requires EnvEnabled(s, e) && c in EnvApply(s, e).clusters
    ensures var s' := EnvApply(s, e);
      || (c in s.clusters && s'.clusters[c].status == s.clusters[c].status)
      || (s'.clusters[c].status == Pending && Waiting(s', CreateCluster(c)))
      || (s'.clusters[c].status == Destroying && Waiting(s', DeleteCluster(c)))
  {
    match e
    case OpCreate(r) => assert CreateCluster(r.clusterName) in EnvApply(s, e).inflight;
    case OpDeleteCluster(d) => assert DeleteCluster(d) in EnvApply(s, e).inflight;
    case _ => EnvKeepsStatus(s, e, c);
  }

  lemma EnvKeepsStatus(s: Sys, e: EnvStep, c: string)
    requires EnvEnabled(s, e) && !e.OpCreate? && !e.OpDeleteCluster? && c in EnvApply(s, e).clusters
    ensures c in s.clusters && EnvApply(s, e).clusters[c].status == s.clusters[c].status
  {
  }

  /** What waits goes on waiting: only the worker takes events away. */
  lemma WaitingGrows(s: Sys, e: EnvStep, x: Event)
    requires EnvEnabled(s, e) && Waiting(s, x)
    ensures Waiting(EnvApply(s, e), x)
  {
    match e
    case Send(ev) =>
      if x in s.inflight && x == ev { assert (s.queue + [ev])[|s.queue|] == x; }
    case _ =>
  }

  lemma EnvExplained(s: Sys, e: EnvStep)
    requires AllExplained(s) && EnvEnabled(s, e)
    ensures AllExplained(EnvApply(s, e))
  {
    EnvExtends(s, e);
    forall c ensures StatusExplained(EnvApply(s, e), c) {
      if c in EnvApply(s, e).clusters { EnvStatusMoves(s, e, c); }
      assert StatusExplained(s, c);
      if Waiting(s, CreateCluster(c)) { WaitingGrows(s, e, CreateCluster(c)); }
      if Waiting(s, DeleteCluster(c)) { WaitingGrows(s, e, DeleteCluster(c)); }
    }
  }

  lemma LoopExplained(s: Sys, l: LoopStep)
    requires AllExplained(s) && LoopEnabled(s, l)
    ensures AllExplained(LoopApply(s, l))
  {
    forall c ensures StatusExplained(LoopApply(s, l), c) {
      assert StatusExplained(s, c);
      if l.Take? { assert s.queue == [s.queue[0]] + s.queue[1..]; }
    }
  }

  ghost predicate StatusesKept(before: map<string, Cluster>, after: map<string, Cluster>) {
    forall c :: c in after ==> c in before && after[c].status == before[c].status
  }

  lemma EditKeepsStatuses(before: map<string, Cluster>, c: string, r: Cluster)
    requires c in before && r.status == before[c].status
    ensures StatusesKept(before, before[c := r])
  {
  }

  /** Everything about a worker step that matters here: the statuses and four flags. */
  ghost predicate Moved(s: Sys, w: Work, a: Act, s': Sys) {
    && s'.inflight == s.inflight && s'.queue == s.queue
    && s'.mode.Busy? && s'.mode.work.event == w.event && s'.mode.work.statusDone == w.statusDone
    && (s'.mode.work.phase == w.phase || (!w.phase.Fresh? && s'.mode.work.phase.Concluded?))
    && (s'.mode.work.removed != w.removed ==> !a.DropCluster? ==> w.event.DeleteNode?)
    && StatusesKept(s.clusters, s'.clusters)
    && (a.DropCluster? ==> w.event.cluster !in s'.clusters)
  }

  lemma RemoteMoves(s: Sys, w: Work, call: Call, effect: bool)
    requires s.mode == Busy(w) && ActEnabled(s, w, Remote(call, effect))
    ensures Moved(s, w, Remote(call, effect), ActApply(s, w, Remote(call, effect)))
  {
    LearnKeeps(w, s.vms, call);
  }

  lemma DropNodeMoves(s: Sys, w: Work)
    requires s.mode == Busy(w) && w.event.DeleteNode?
    ensures Moved(s, w, DropNode, DropNodeApply(s, w))
  {
    var c := w.event.cluster;
    if c in s.clusters {
      DropFound(s, w);
      EditKeepsStatuses(s.clusters, c, DropNodeApply(s, w).clusters[c]);
    }
  }

  lemma UnlockMoves(s: Sys, w: Work)
    requires s.mode == Busy(w) && NamesNode(w.event)
    ensures Moved(s, w, Unlock, UnlockApply(s, w))
  {
    var c := w.event.cluster;
    if c in s.clusters && FindNode(s.clusters[c].nodes, w.event.node).Some? {
      UnlockFound(s, w);
      EditKeepsStatuses(s.clusters, c, UnlockApply(s, w).clusters[c]);
    } else {
      UnlockMissed(s, w);
    }
  }

  lemma ReadMoves(s: Sys, w: Work)
    requires s.mode == Busy(w)
    ensures Moved(s, w, ReadRecord, ReadApply(s, w))
  {
  }

  lemma SaveKeyMoves(s: Sys, w: Work, key: string)
    requires s.mode == Busy(w)
    ensures Moved(s, w, SaveKey(key), SaveKeyApply(s, w, key))
  {
    var c := w.event.cluster;
    if c in s.clusters { EditKeepsStatuses(s.clusters, c, s.clusters[c].(sshKey := key)); }
  }

  lemma SaveConfigMoves(s: Sys, w: Work, config: string)
    requires s.mode == Busy(w)
    ensures Moved(s, w, SaveConfig(config), SaveConfigApply(s, w, config))
  {
  }

  lemma SaveResourcesMoves(s: Sys, w: Work)
    requires s.mode == Busy(w) && w.event.ChangeResources?
    ensures Moved(s, w, SaveResources, SaveResourcesApply(s, w))
  {
  }

  lemma DropClusterMoves(s: Sys, w: Work)
    requires s.mode == Busy(w) && ActEnabled(s, w, DropCluster)
    ensures Moved(s, w, DropCluster, ActApply(s, w, DropCluster))
  {
  }

  lemma StatusMoves(s: Sys, w: Work, a: Act)
    requires s.mode == Busy(w) && ActEnabled(s, w, a) && !a.SetStatus? && !a.Finish?
    ensures Moved(s, w, a, ActApply(s, w, a))
  {
    match a
    case ReadRecord => ReadMoves(s, w);
    case SaveKey(key) => SaveKeyMoves(s, w, key);
    case SaveConfig(config) => SaveConfigMoves(s, w, config);
    case SaveResources => SaveResourcesMoves(s, w);
    case DropCluster => DropClusterMoves(s, w);
    case Remote(call, effect) => RemoteMoves(s, w, call, effect);
    case DropNode => DropNodeMoves(s, w);
    case Unlock => UnlockMoves(s, w);
    case _ =>
  }

  lemma SetStatusExplained(s: Sys, w: Work, st: Status, c: string)
    requires StatusExplained(s, c) && ClosesLate(s) && s.mode == Busy(w) && ActEnabled(s, w, SetStatus(st))
    ensures StatusExplained(ActApply(s, w, SetStatus(st)), c)
  {
    assert ActApply(s, w, SetStatus(st)) == SetStatusApply(s, w, st);
  }

  lemma FinishExplained(s: Sys, w: Work, ok: bool, c: string)
    requires StatusExplained(s, c) && s.mode == Busy(w) && ActEnabled(s, w, Finish(ok))
    ensures StatusExplained(ActApply(s, w, Finish(ok)), c)
  {
    var s' := ActApply(s, w, Finish(ok));
    assert s'.clusters == s.clusters && s'.queue == s.queue && s'.inflight == s.inflight && s'.mode == Probing;
  }

  lemma ActExplained(s: Sys, w: Work, a: Act)
    requires AllExplained(s) && s.mode == Busy(w) && ActEnabled(s, w, a)
    ensures AllExplained(ActApply(s, w, a))
  {
    var s' := ActApply(s, w, a);
    if !a.SetStatus? && !a.Finish? { StatusMoves(s, w, a); }
    forall c ensures StatusExplained(s', c) {
      assert StatusExplained(s, c);
      match a
      case SetStatus(st) => SetStatusExplained(s, w, st, c);
      case Finish(ok) => FinishExplained(s, w, ok, c);
      case _ => QuietExplained(s, s', w, c);
    }
  }

  lemma QuietExplained(s: Sys, s': Sys, w: Work, c: string)
    requires StatusExplained(s, c) && s.mode == Busy(w)
    requires s'.inflight == s.inflight && s'.queue == s.queue
    requires s'.mode.Busy? && s'.mode.work.event == w.event && s'.mode.work.statusDone == w.statusDone
    requires s'.mode.work.phase == w.phase || (!w.phase.Fresh? && s'.mode.work.phase.Concluded?)
    requires s'.mode.work.removed == w.removed || w.event.DeleteNode? || w.event.cluster !in s'.clusters
    requires c in s'.clusters ==> c in s.clusters && s'.clusters[c].status == s.clusters[c].status
    ensures StatusExplained(s', c)
  {
  }

  lemma {:induction false} StatusAlwaysExplained(steps: seq<Step>)
    requires Legal(steps)
    ensures AllExplained(Exec(steps))
  {
    if steps != [] {
      var s, st := Exec(steps[..|steps| - 1]), steps[|steps| - 1];
      StatusAlwaysExplained(steps[..|steps| - 1]);
      match st
      case Env(e) => EnvExplained(s, e);
      case Loop(l) => LoopExplained(s, l);
      case Do(a) => ActExplained(s, s.mode.work, a);
    }
  }

  predicate Drained(s: Sys) {
    !s.mode.Busy? && s.queue == [] && s.inflight == multiset{}
  }

  /** In every reachable state: a pending cluster has its creation ahead, a creating cluster is the
      one in hand, a cluster being destroyed has its deletion ahead or in hand. So once the worker
      is idle with nothing queued and no caller half-way, every cluster is `Sync` or `Error`. */
  lemma StatusMatchesWork(steps: seq<Step>, c: string)
    requires Legal(steps) && c in Exec(steps).clusters
    ensures var s := Exec(steps);
      && (s.clusters[c].status == Pending ==>
            Waiting(s, CreateCluster(c)) || (s.mode.Busy? && s.mode.work.event == CreateCluster(c)))
      && (s.clusters[c].status == Creating ==> s.mode.Busy? && s.mode.work.event == CreateCluster(c))
      && (s.clusters[c].status == Destroying ==>
            Waiting(s, DeleteCluster(c)) || (s.mode.Busy? && s.mode.work.event == DeleteCluster(c)))
      && (Drained(s) ==> s.clusters[c].status == Sync || s.clusters[c].status == Error)
  {
    StatusAlwaysExplained(steps);
    assert StatusExplained(Exec(steps), c);
  }
}
