/** A cluster that has a master never loses its last one, although the check and the removal read
    the record at different times with callers in between
    (core/src/dispatcher/usecase/delete_node_from_cluster.rs:24-40, 143-154). */
module Masters {
  import opened Model
  import opened Records
  import opened Machine
  import opened Frames

  ghost predicate HasMaster(r: Cluster) {
    exists n :: n in Idents(r.nodes) && n.nodeType == Master
  }

  lemma HasMasterMeans(r: Cluster)
    ensures HasMaster(r) <==> FindMaster(r.nodes).Some?
    ensures HasMaster(r) ==> r.nodes != []
  {
    if HasMaster(r) {
      var i :| i in Idents(r.nodes) && i.nodeType == Master;
      var n :| n in r.nodes && Ident(n) == i;
      assert n.nodeType == Master;
    }
    if FindMaster(r.nodes).Some? {
      assert Ident(FindMaster(r.nodes).value) in Idents(r.nodes);
    }
  }

  lemma DropNodeKeepsMaster(s: Sys, w: Work)
    requires SnapKept(s)
    requires s.mode == Busy(w) && ActEnabled(s, w, DropNode)
    ensures var s' := ActApply(s, w, DropNode); forall c :: c in s'.clusters && c in s.clusters && HasMaster(s.clusters[c]) ==> HasMaster(s'.clusters[c])
  {
    var c, s' := w.event.cluster, ActApply(s, w, DropNode);
    DropNodeEffect(s, w);
    var other := FindOtherMaster(w.snap.value.nodes, w.event.node).value;
    assert Ident(other) in Idents(w.snap.value.nodes);
    assert Ident(other) in Idents(s'.clusters[c].nodes);
  }

  /** No step takes the last master from a record that stays in the store. */
  lemma LastMasterStays(s: Sys, st: Step)
    requires SnapKept(s) && Enabled(s, st)
    ensures forall c :: c in s.clusters && c in Next(s, st).clusters && HasMaster(s.clusters[c]) ==> HasMaster(Next(s, st).clusters[c])
  {
    match st
    case Env(e) => EnvExtends(s, e);
    case Loop(_) =>
    case Do(a) =>
      var w := s.mode.work;
      if a.DropNode? {
        DropNodeKeepsMaster(s, w);
      } else if a.DropCluster? {
      } else {
        ActRewrites(s, w, a);
        RewrittenExtends(s.clusters, ActApply(s, w, a).clusters, w.event.cluster);
      }
  }

  ghost predicate RequestsHaveMasters(steps: seq<Step>) {
    forall k :: 0 <= k < |steps| && steps[k].Env? && steps[k].e.OpCreate? ==> HasMaster(steps[k].e.record)
  }

  lemma NewRecordsAreRequests(s: Sys, st: Step, c: string)
    requires Enabled(s, st) && c !in s.clusters && c in Next(s, st).clusters
    ensures st.Env? && st.e.OpCreate? && Next(s, st).clusters[c] == st.e.record
  {
    match st
    case Env(e) => match e { case OpCreate(_) => case _ => }
    case Loop(_) =>
    case Do(a) => ActAddsNoRecord(s, s.mode.work, a);
  }

  lemma ActAddsNoRecord(s: Sys, w: Work, a: Act)
    requires s.mode == Busy(w) && ActEnabled(s, w, a)
    ensures ActApply(s, w, a).clusters.Keys <= s.clusters.Keys
  {
    if a.DropNode? {
      if w.event.cluster in s.clusters { DropNodeEffect(s, w); }
    } else if !a.DropCluster? {
      ActRewrites(s, w, a);
      RewrittenExtends(s.clusters, ActApply(s, w, a).clusters, w.event.cluster);
    }
  }

  /** Over every run: if every creation request had a master, then every stored cluster has one. */
  lemma {:induction false} EveryClusterHasMaster(steps: seq<Step>)
    requires Legal(steps) && RequestsHaveMasters(steps)
    ensures forall c :: c in Exec(steps).clusters ==> HasMaster(Exec(steps).clusters[c]) && Exec(steps).clusters[c].nodes != []
  {
    if steps != [] {
      var before, st := steps[..|steps| - 1], steps[|steps| - 1];
      EveryClusterHasMaster(before);
      SnapKeptAlways(before);
      LastMasterStays(Exec(before), st);
      forall c | c in Exec(steps).clusters
        ensures HasMaster(Exec(steps).clusters[c]) && Exec(steps).clusters[c].nodes != []
      {
        if c !in Exec(before).clusters { NewRecordsAreRequests(Exec(before), st, c); }
        HasMasterMeans(Exec(steps).clusters[c]);
      }
    }
  }
}
