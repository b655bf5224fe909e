/** What callers may be asked to respect, stated about the requests themselves: each condition can
    be checked before the call. The code checks none of them (core/src/operator.rs:182-186). */
module Requests {
  import opened Model
  import opened Records
  import opened Machine
  import opened Frames

  ghost predicate UniqueNames(s: Sys) {
    forall c :: c in s.clusters ==> UniqueNamed(s.clusters[c].nodes)
  }

  /** A creation lists no node name twice, and a node is added under a name its cluster lacks. */
  ghost predicate AsksUniquely(s: Sys, st: Step) {
    && (st.Env? && st.e.OpCreate? ==> UniqueNamed(st.e.record.nodes))
    && (st.Env? && st.e.OpAddNode? && st.e.cluster in s.clusters ==>
          FindNode(s.clusters[st.e.cluster].nodes, st.e.node.name).None?)
  }

  ghost predicate AllAskUniquely(steps: seq<Step>)
    requires Legal(steps)
    decreases |steps|
  {
    steps == [] ||
    (AllAskUniquely(steps[..|steps| - 1]) && AsksUniquely(Exec(steps[..|steps| - 1]), steps[|steps| - 1]))
  }

  lemma AddUniqueIff(nodes: seq<ClusterNode>, x: ClusterNode)
    requires UniqueNamed(nodes)
    ensures UniqueNamed(nodes + [x]) <==> FindNode(nodes, x.name).None?
  {
    var all := nodes + [x];
    assert all[|nodes|] == x && forall i :: 0 <= i < |nodes| ==> all[i] == nodes[i];
    if FindNode(nodes, x.name).Some? {
      var i :| 0 <= i < |nodes| && nodes[i] == FindNode(nodes, x.name).value;
      assert all[i].name == all[|nodes|].name;
    }
  }

  lemma EnvUnique(s: Sys, e: EnvStep)
    requires EnvEnabled(s, e) && UniqueNames(s)
    ensures UniqueNames(EnvApply(s, e)) <==> AsksUniquely(s, Env(e))
  {
    var s' := EnvApply(s, e);
    match e
    case OpCreate(r) =>
      assert s'.clusters[r.clusterName] == r;
    case OpAddNode(c, n) =>
      AddUniqueIff(s.clusters[c].nodes, n.(lock := Some(CreateLock)));
      assert s'.clusters[c].nodes == s.clusters[c].nodes + [n.(lock := Some(CreateLock))];
    case OpDeleteNode(c, name) =>
      EditsKeepIdents(s.clusters[c].nodes, name, DeleteLock, Some(DeleteLock), 0, 0);
      SameIdentsUnique(s'.clusters[c].nodes, s.clusters[c].nodes);
    case OpChange(c, name, _, _) =>
      EditsKeepIdents(s.clusters[c].nodes, name, ChangeLock, None, 0, 0);
      SameIdentsUnique(s'.clusters[c].nodes, s.clusters[c].nodes);
    case _ =>
  }

  lemma ActUnique(s: Sys, w: Work, a: Act)
    requires s.mode == Busy(w) && ActEnabled(s, w, a) && UniqueNames(s)
    ensures UniqueNames(ActApply(s, w, a))
  {
    var s', c := ActApply(s, w, a), w.event.cluster;
    if a.DropNode? {
      if c in s.clusters { WithoutUnique(s.clusters[c].nodes, w.event.node); }
    } else if !Shrinks(a) {
      ActRewrites(s, w, a);
      if s'.clusters != s.clusters { SameIdentsUnique(s'.clusters[c].nodes, s.clusters[c].nodes); }
    }
  }

  /** Node names stay unique per cluster over every run in which callers ask uniquely. */
  lemma {:induction false} NamesStayUnique(steps: seq<Step>)
    requires Legal(steps) && AllAskUniquely(steps)
    ensures UniqueNames(Exec(steps))
  {
    if steps != [] {
      var s, st := Exec(steps[..|steps| - 1]), steps[|steps| - 1];
      NamesStayUnique(steps[..|steps| - 1]);
      match st
      case Env(e) => EnvUnique(s, e);
      case Loop(_) =>
      case Do(a) => ActUnique(s, s.mode.work, a);
    }
  }
}
