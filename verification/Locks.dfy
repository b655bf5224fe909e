/** A locked node always has a reason to be locked: an event that names it is still to come or in
    hand, or the last such event failed or was refused
    (core/src/dispatcher/dispatcher.rs:100-121, 146-161, 190-221; core/src/operator.rs:152-166,
    182-199, 244-259). */
module Locks {
  import opened Model
  import opened Records
  import opened Machine
  import opened Frames
  import opened Requests
  import opened StatusInFlight

  predicate Names(e: Event, c: string, name: string) {
    NamesNode(e) && e.cluster == c && e.node == name
  }

  ghost predicate Reason(s: Sys, c: string, name: string) {
    || (exists e :: Names(e, c, name) && Waiting(s, e))
    || (s.mode.Busy? && Names(s.mode.work.event, c, name) && !s.mode.work.unlocked)
    || (c, name) in s.excused
  }

  ghost predicate LocksExplained(s: Sys) {
    forall c, n :: c in s.clusters && n in s.clusters[c].nodes && n.lock.Some? ==> Reason(s, c, n.name)
  }

  /** Creation requests carry no locks. */
  ghost predicate AsksUnlocked(st: Step) {
    st.Env? && st.e.OpCreate? ==> forall n :: n in st.e.record.nodes ==> n.lock.None?
  }

  ghost predicate AllAskUnlocked(steps: seq<Step>) {
    forall k :: 0 <= k < |steps| ==> AsksUnlocked(steps[k])
  }

  // ---- callers

  lemma EnvReason(s: Sys, e: EnvStep, c: string, name: string)
    requires EnvEnabled(s, e) && Reason(s, c, name)
    ensures Reason(EnvApply(s, e), c, name)
  {
    EnvExtends(s, e);
    if x :| Names(x, c, name) && Waiting(s, x) {
      WaitingGrows(s, e, x);
    }
  }

  /** A caller locks a node only while recording an event that names it. */
  lemma EnvLocks(s: Sys, e: EnvStep, c: string, n: ClusterNode)
    requires EnvEnabled(s, e) && AsksUnlocked(Env(e))
    requires c in EnvApply(s, e).clusters && n in EnvApply(s, e).clusters[c].nodes && n.lock.Some?
    ensures (c in s.clusters && n in s.clusters[c].nodes) || Reason(EnvApply(s, e), c, n.name)
  {
    var s' := EnvApply(s, e);
    match e
    case OpAddNode(d, m) =>
      assert AddNode(d, m.name) in s'.inflight && Names(AddNode(d, m.name), d, m.name);
    case OpDeleteNode(d, name) =>
      assert DeleteNode(d, name) in s'.inflight && Names(DeleteNode(d, name), d, name);
    case OpChange(d, name, cores, memory) =>
      var ev := ChangeResources(d, name, cores, memory);
      assert ev in s'.inflight && Names(ev, d, name);
    case _ =>
  }

  lemma EnvExplainsLocks(s: Sys, e: EnvStep)
    requires EnvEnabled(s, e) && AsksUnlocked(Env(e)) && LocksExplained(s)
    ensures LocksExplained(EnvApply(s, e))
  {
    var s' := EnvApply(s, e);
    forall c, n | c in s'.clusters && n in s'.clusters[c].nodes && n.lock.Some?
      ensures Reason(s', c, n.name)
    {
      EnvLocks(s, e, c, n);
      if c in s.clusters && n in s.clusters[c].nodes { EnvReason(s, e, c, n.name); }
    }
  }

  lemma TakeReason(s: Sys, c: string, name: string)
    requires LoopEnabled(s, Take) && Reason(s, c, name)
    ensures Reason(LoopApply(s, Take), c, name)
  {
    var s' := LoopApply(s, Take);
    assert s.queue == [s.queue[0]] + s'.queue;
    if x :| Names(x, c, name) && Waiting(s, x) {
      if x != s.queue[0] { assert Waiting(s', x); }
    }
  }

  // ---- the worker

  lemma SetStatusReason(s: Sys, w: Work, st: Status, s': Sys)
    requires s.mode == Busy(w) && s' == SetStatusApply(s, w, st)
    ensures s'.mode.Busy? && s'.mode.work.event == w.event && s'.mode.work.unlocked == w.unlocked
    ensures s'.queue == s.queue && s'.inflight == s.inflight && s'.excused == s.excused
  {
  }

  lemma RemoteReason(s: Sys, w: Work, call: Call, effect: bool, s': Sys)
    requires s.mode == Busy(w) && ActEnabled(s, w, Remote(call, effect)) && s' == ActApply(s, w, Remote(call, effect))
    ensures s'.mode.Busy? && s'.mode.work.event == w.event && s'.mode.work.unlocked == w.unlocked
    ensures s'.queue == s.queue && s'.inflight == s.inflight && s'.excused == s.excused
  {
    LearnKeeps(w, s.vms, call);
  }

  /** A step that neither unlocks nor ends the event locks nothing and spends no reason. */
  lemma PlainReason(s: Sys, w: Work, a: Act, s': Sys)
    requires s.mode == Busy(w) && ActEnabled(s, w, a) && s' == ActApply(s, w, a)
    requires !Shrinks(a) && !a.Unlock? && !a.Finish?
    ensures s'.mode.Busy? && s'.mode.work.event == w.event && s'.mode.work.unlocked == w.unlocked
    ensures s'.queue == s.queue && s'.inflight == s.inflight && s'.excused == s.excused
  {
    if OnRecord(a) { RecordReason(s, w, a, s'); } else { OtherStepReason(s, w, a, s'); }
  }

  lemma RecordReason(s: Sys, w: Work, a: Act, s': Sys)
    requires s.mode == Busy(w) && ActEnabled(s, w, a) && s' == ActApply(s, w, a) && OnRecord(a)
    ensures s'.mode.Busy? && s'.mode.work.event == w.event && s'.mode.work.unlocked == w.unlocked
    ensures s'.queue == s.queue && s'.inflight == s.inflight && s'.excused == s.excused
  {
    RecordHandled(s, w, a);
  }

  lemma OtherStepReason(s: Sys, w: Work, a: Act, s': Sys)
    requires s.mode == Busy(w) && ActEnabled(s, w, a) && s' == ActApply(s, w, a)
    requires !Shrinks(a) && !a.Unlock? && !a.Finish? && !OnRecord(a)
    ensures s'.mode.Busy? && s'.mode.work.event == w.event && s'.mode.work.unlocked == w.unlocked
    ensures s'.queue == s.queue && s'.inflight == s.inflight && s'.excused == s.excused
  {
    match a
    case Remote(call, effect) => RemoteReason(s, w, call, effect, s');
    case SetStatus(st) => SetStatusReason(s, w, st, s');
    case _ =>
  }

  lemma PlainLocks(s: Sys, w: Work, a: Act, s': Sys, c: string, n: ClusterNode)
    requires s.mode == Busy(w) && ActEnabled(s, w, a) && s' == ActApply(s, w, a)
    requires !Shrinks(a) && !a.Unlock? && !a.Finish?
    requires c in s'.clusters && n in s'.clusters[c].nodes && n.lock.Some?
    ensures c in s.clusters && exists m :: m in s.clusters[c].nodes && m.lock.Some? && m.name == n.name
  {
    if a.SaveResources? && c == w.event.cluster {
      var i :| 0 <= i < |s'.clusters[c].nodes| && s'.clusters[c].nodes[i] == n;
      assert s.clusters[c].nodes[i] in s.clusters[c].nodes;
    } else {
      SameNodes(s, w, a, s', c);
    }
  }

  lemma SameNodes(s: Sys, w: Work, a: Act, s': Sys, c: string)
    requires s.mode == Busy(w) && ActEnabled(s, w, a) && s' == ActApply(s, w, a)
    requires !Shrinks(a) && !a.Unlock? && (a.SaveResources? ==> c != w.event.cluster)
    requires c in s'.clusters
    ensures c in s.clusters && s'.clusters[c].nodes == s.clusters[c].nodes
  {
  }

  lemma PlainExplainsLocks(s: Sys, w: Work, a: Act)
    requires s.mode == Busy(w) && ActEnabled(s, w, a) && LocksExplained(s)
    requires !Shrinks(a) && !a.Unlock? && !a.Finish?
    ensures LocksExplained(ActApply(s, w, a))
  {
    var s' := ActApply(s, w, a);
    PlainReason(s, w, a, s');
    forall c, n | c in s'.clusters && n in s'.clusters[c].nodes && n.lock.Some?
      ensures Reason(s', c, n.name)
    {
      PlainLocks(s, w, a, s', c, n);
      var m :| m in s.clusters[c].nodes && m.lock.Some? && m.name == n.name;
      assert Reason(s, c, m.name);
      if x :| Names(x, c, n.name) && Waiting(s, x) { assert Waiting(s', x); }
    }
  }

  /** Reasons of other nodes survive when the event in hand settles its own node. */
  lemma OtherReason(s: Sys, s': Sys, w: Work, c: string, name: string)
    requires s.mode == Busy(w) && Reason(s, c, name) && !Names(w.event, c, name)
    requires s'.queue == s.queue && s'.inflight == s.inflight
    requires (c, name) in s.excused ==> (c, name) in s'.excused
    ensures Reason(s', c, name)
  {
    if x :| Names(x, c, name) && Waiting(s, x) { assert Waiting(s', x); }
  }

  /** One more entry in the trace is nothing to the locks. */
  lemma SameLocks(s: Sys, s': Sys)
    requires LocksExplained(s) && s.mode.Busy? && s'.mode.Busy?
    requires s' == s.(mode := Busy(s.mode.work.(calls := s'.mode.work.calls)))
    ensures LocksExplained(s')
  {
    forall c, n | c in s'.clusters && n in s'.clusters[c].nodes && n.lock.Some? ensures Reason(s', c, n.name) {
      assert Reason(s, c, n.name);
      if x :| Names(x, c, n.name) && Waiting(s, x) { assert Waiting(s', x); }
    }
  }

  lemma UnlockExplainsLocks(s: Sys, w: Work)
    requires s.mode == Busy(w) && NamesNode(w.event) && LocksExplained(s) && UniqueNames(s)
    ensures LocksExplained(UnlockApply(s, w))
  {
    var s', c, name := UnlockApply(s, w), w.event.cluster, w.event.node;
    if !(c in s.clusters && FindNode(s.clusters[c].nodes, name).Some?) {
      UnlockMissed(s, w);
      SameLocks(s, s');
    } else {
      UnlockFound(s, w);
      LockFirstUnique(s.clusters[c].nodes, name, None);
      forall d, n | d in s'.clusters && n in s'.clusters[d].nodes && n.lock.Some?
        ensures Reason(s', d, n.name)
      {
        assert n in s.clusters[d].nodes;
        OtherReason(s, s', w, d, n.name);
      }
    }
  }

  lemma DropNodeExplainsLocks(s: Sys, w: Work)
    requires s.mode == Busy(w) && w.event.DeleteNode? && LocksExplained(s)
    ensures LocksExplained(DropNodeApply(s, w))
  {
    var s', c, name := DropNodeApply(s, w), w.event.cluster, w.event.node;
    if c !in s.clusters {
      SameLocks(s, s');
    } else {
      DropFound(s, w);
      forall d, n | d in s'.clusters && n in s'.clusters[d].nodes && n.lock.Some?
        ensures Reason(s', d, n.name)
      {
        assert n in s.clusters[d].nodes;
        OtherReason(s, s', w, d, n.name);
      }
    }
  }

  lemma DropClusterExplainsLocks(s: Sys, w: Work)
    requires s.mode == Busy(w) && ActEnabled(s, w, DropCluster) && LocksExplained(s)
    ensures LocksExplained(ActApply(s, w, DropCluster))
  {
    var s', c := ActApply(s, w, DropCluster), w.event.cluster;
    forall d, n | d in s'.clusters && n in s'.clusters[d].nodes && n.lock.Some?
      ensures Reason(s', d, n.name)
    {
      OtherReason(s, s', w, d, n.name);
    }
  }

  lemma FinishExplainsLocks(s: Sys, w: Work, ok: bool)
    requires s.mode == Busy(w) && ActEnabled(s, w, Finish(ok)) && LocksExplained(s)
    ensures LocksExplained(ActApply(s, w, Finish(ok)))
  {
    var s' := ActApply(s, w, Finish(ok));
    assert s'.clusters == s.clusters;
    forall d, n | d in s'.clusters && n in s'.clusters[d].nodes && n.lock.Some?
      ensures Reason(s', d, n.name)
    {
      assert Reason(s, d, n.name);
      if x :| Names(x, d, n.name) && Waiting(s, x) { assert Waiting(s', x); }
    }
  }

  lemma ActExplainsLocks(s: Sys, w: Work, a: Act)
    requires s.mode == Busy(w) && ActEnabled(s, w, a) && LocksExplained(s) && UniqueNames(s)
    ensures LocksExplained(ActApply(s, w, a))
  {
    match a
    case Unlock => UnlockExplainsLocks(s, w);
    case DropNode => DropNodeExplainsLocks(s, w);
    case DropCluster => DropClusterExplainsLocks(s, w);
    case Finish(ok) => FinishExplainsLocks(s, w, ok);
    case _ => PlainExplainsLocks(s, w, a);
  }

  lemma {:induction false} LocksAlwaysExplained(steps: seq<Step>)
    requires Legal(steps) && AllAskUniquely(steps) && AllAskUnlocked(steps)
    ensures LocksExplained(Exec(steps))
  {
    if steps != [] {
      var before, st := steps[..|steps| - 1], steps[|steps| - 1];
      var s := Exec(before);
      assert forall k :: 0 <= k < |before| ==> before[k] == steps[k];
      LocksAlwaysExplained(before);
      NamesStayUnique(before);
      match st
      case Env(e) => EnvExplainsLocks(s, e);
      case Loop(l) =>
        if l.Take? {
          forall c, name | Reason(s, c, name) ensures Reason(LoopApply(s, l), c, name) { TakeReason(s, c, name); }
        } else {
          forall c, name | Reason(s, c, name) ensures Reason(LoopApply(s, l), c, name) {
            if x :| Names(x, c, name) && Waiting(s, x) { assert Waiting(LoopApply(s, l), x); }
          }
        }
      case Do(a) => ActExplainsLocks(s, s.mode.work, a);
    }
  }

  /** In every reachable state a locked node is named by an event that waits or is in hand, or its
      last event failed or was refused. */
  lemma EveryLockHasReason(steps: seq<Step>, c: string, n: ClusterNode)
    requires Legal(steps) && AllAskUniquely(steps) && AllAskUnlocked(steps)
    requires c in Exec(steps).clusters && n in Exec(steps).clusters[c].nodes && n.lock.Some?
    ensures var s := Exec(steps);
      || (exists e :: Names(e, c, n.name) && Waiting(s, e))
      || (s.mode.Busy? && Names(s.mode.work.event, c, n.name))
      || (c, n.name) in s.excused
    ensures Drained(Exec(steps)) ==> (c, n.name) in Exec(steps).excused
  {
    LocksAlwaysExplained(steps);
    assert Reason(Exec(steps), c, n.name);
  }

  /** A node gets on the list of excuses only when an event that names it ends without having
      cleared its lock: by an error, or by the refusal to delete an only node. */
  lemma ExcusesAreFailures(steps: seq<Step>, st: Step, c: string, name: string)
    requires Legal(steps) && Enabled(Exec(steps), st)
    requires (c, name) in Next(Exec(steps), st).excused && (c, name) !in Exec(steps).excused
    ensures st.Do? && st.a.Finish? && Names(Exec(steps).mode.work.event, c, name)
    ensures !st.a.ok || Refused(Exec(steps).mode.work)
  {
    var s := Exec(steps);
    match st
    case Env(e) => EnvExtends(s, e);
    case Loop(_) =>
    case Do(a) =>
      if a.Finish? {
        EvidenceAlways(steps);
      } else {
        OthersExcuseNothing(s, s.mode.work, a);
      }
  }

  lemma OthersExcuseNothing(s: Sys, w: Work, a: Act)
    requires s.mode == Busy(w) && ActEnabled(s, w, a) && !a.Finish?
    ensures ActApply(s, w, a).excused <= s.excused
  {
    if a.Unlock? {
      UnlockExcuses(s, w);
    } else if a.DropNode? {
      DropNodeExcuses(s, w);
    } else if a.Remote? {
      LearnKeeps(w, s.vms, a.call);
    } else if a.SetStatus? {
      SetStatusReason(s, w, a.status, ActApply(s, w, a));
    }
  }

  lemma UnlockExcuses(s: Sys, w: Work)
    requires NamesNode(w.event)
    ensures UnlockApply(s, w).excused <= s.excused
  {
  }

  lemma DropNodeExcuses(s: Sys, w: Work)
    requires w.event.DeleteNode?
    ensures DropNodeApply(s, w).excused <= s.excused
  {
  }

  /** No deletion of an only node was turned down. */
  ghost predicate NoneRefused(steps: seq<Step>)
    requires Legal(steps)
    decreases |steps|
  {
    steps == [] ||
    var before, st := steps[..|steps| - 1], steps[|steps| - 1];
    NoneRefused(before) && (st.Do? && st.a.Finish? ==> !Refused(Exec(before).mode.work))
  }

  lemma CleanBefore(s: Sys, st: Step)
    requires Enabled(s, st) && Next(s, st).clean
    ensures s.clean && (st.Do? && st.a.Finish? ==> st.a.ok)
  {
    match st
    case Env(e) => EnvExtends(s, e);
    case Loop(_) =>
    case Do(a) => if !a.Finish? { QuietClean(s, s.mode.work, a); }
  }

  lemma {:induction false} NothingToExcuse(steps: seq<Step>)
    requires Legal(steps) && Exec(steps).clean && NoneRefused(steps)
    ensures Exec(steps).excused == {}
  {
    if steps != [] {
      var before, st := steps[..|steps| - 1], steps[|steps| - 1];
      CleanBefore(Exec(before), st);
      NothingToExcuse(before);
      if x :| x in Exec(steps).excused {
        ExcusesAreFailures(before, st, x.0, x.1);
      }
    }
  }

  /** A run in which no event failed and no deletion was refused drains to no locks at all. */
  lemma CleanRunsLeaveNoLocks(steps: seq<Step>, c: string, n: ClusterNode)
    requires Legal(steps) && AllAskUniquely(steps) && AllAskUnlocked(steps)
    requires Exec(steps).clean && NoneRefused(steps) && Drained(Exec(steps))
    requires c in Exec(steps).clusters && n in Exec(steps).clusters[c].nodes
    ensures n.lock.None?
  {
    NothingToExcuse(steps);
    if n.lock.Some? { EveryLockHasReason(steps, c, n); }
  }
}
