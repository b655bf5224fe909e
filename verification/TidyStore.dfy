/** When the nodes in the store can be told apart by what makoon identifies them by. */
module TidyStore {
  import opened Model
  import opened Records
  import opened HostFile
  import opened Machine
  import opened Frames
  import opened Requests
  import opened Orphans

  /** No two recorded nodes share host, VM id and full name. */
  ghost predicate Apart(clusters: map<string, Cluster>) {
    forall c, n, d, m, k, name ::
      Accounts(clusters, c, n, k, name) && Accounts(clusters, d, m, k, name) ==> c == d && n == m
  }

  ghost predicate AllSedSafe(clusters: map<string, Cluster>) {
    forall c :: c in clusters ==> SedSafe(c, Idents(clusters[c].nodes))
  }

  /** Unique node names per cluster, no two nodes for one VM, no full name inside another's line. */
  ghost predicate Tidy(clusters: map<string, Cluster>) {
    && (forall c :: c in clusters ==> UniqueNamed(clusters[c].nodes))
    && Apart(clusters)
    && AllSedSafe(clusters)
  }

  /** The VM of this id and full name is not recorded for any other node. */
  ghost predicate Unrecorded(clusters: map<string, Cluster>, c: string, host: string, n: ClusterNode) {
    forall d, m :: Accounts(clusters, d, m, VmKey(host, n.vmId), FullName(c, n.name)) ==> d == c && m == n
  }

  /** Neither node's hosts line contains the other's full name. */
  ghost predicate LinesApart(c: string, a: ClusterNode, b: ClusterNode) {
    !Contains(Line(PairOf(c, b)), FullName(c, a.name)) && !Contains(Line(PairOf(c, a)), FullName(c, b.name))
  }

  /** What a caller can check before recording new nodes: their names are new in the cluster, their
      VMs are not recorded elsewhere, and no full name lies inside another node's hosts line. */
  ghost predicate AsksTidily(s: Sys, e: EnvStep) {
    match e
    case OpCreate(r) =>
      && UniqueNamed(r.nodes)
      && (forall n :: n in Idents(r.nodes) ==> Unrecorded(s.clusters, r.clusterName, r.node, n))
      && (forall n, m :: n in Idents(r.nodes) && m in Idents(r.nodes) && n.name != m.name ==> LinesApart(r.clusterName, n, m))
    case OpAddNode(c, x) =>
      && c in s.clusters && FindNode(s.clusters[c].nodes, x.name).None?
      && Unrecorded(s.clusters, c, s.clusters[c].node, Ident(x))
      && (forall m :: m in Idents(s.clusters[c].nodes) ==> LinesApart(c, Ident(x), m))
    case _ => true
  }

  ghost predicate AllAskTidily(steps: seq<Step>)
    requires Legal(steps)
    decreases |steps|
  {
    steps == [] ||
    (AllAskTidily(steps[..|steps| - 1])
     && (steps[|steps| - 1].Env? ==> AsksTidily(Exec(steps[..|steps| - 1]), steps[|steps| - 1].e)))
  }

  /** Fewer nodes, or the same, cannot make a tidy store untidy. */
  lemma FewerStayApart(before: map<string, Cluster>, after: map<string, Cluster>)
    requires Apart(before) && AllSedSafe(before)
    requires forall c :: c in after ==> c in before && after[c].node == before[c].node && Idents(after[c].nodes) <= Idents(before[c].nodes)
    ensures Apart(after) && AllSedSafe(after)
  {
    forall c, n, d, m, k, name | Accounts(after, c, n, k, name) && Accounts(after, d, m, k, name)
      ensures c == d && n == m
    {
      assert Accounts(before, c, n, k, name) && Accounts(before, d, m, k, name);
    }
  }

  // ------------------------------------------------------------ creations

  lemma CreateAccounts(s: Sys, r: Cluster, c: string, n: ClusterNode, k: VmKey, name: string)
    requires EnvEnabled(s, OpCreate(r))
    ensures Accounts(EnvApply(s, OpCreate(r)).clusters, c, n, k, name)
      <==> Accounts(s.clusters, c, n, k, name)
           || (c == r.clusterName && n in Idents(r.nodes) && k == VmKey(r.node, n.vmId) && name == FullName(c, n.name))
  {
  }

  lemma CreateApartIff(s: Sys, r: Cluster)
    requires Apart(s.clusters) && EnvEnabled(s, OpCreate(r)) && UniqueNamed(r.nodes)
    ensures Apart(EnvApply(s, OpCreate(r)).clusters)
       <==> forall n :: n in Idents(r.nodes) ==> Unrecorded(s.clusters, r.clusterName, r.node, n)
  {
    var after, c := EnvApply(s, OpCreate(r)).clusters, r.clusterName;
    if Apart(after) {
      forall n | n in Idents(r.nodes) ensures Unrecorded(s.clusters, c, r.node, n) {
        var k, name := VmKey(r.node, n.vmId), FullName(c, n.name);
        CreateAccounts(s, r, c, n, k, name);
        forall d, m | Accounts(s.clusters, d, m, k, name) ensures d == c && m == n { CreateAccounts(s, r, d, m, k, name); }
      }
    }
    if forall n :: n in Idents(r.nodes) ==> Unrecorded(s.clusters, c, r.node, n) {
      forall a, n, d, m, k, name | Accounts(after, a, n, k, name) && Accounts(after, d, m, k, name)
        ensures a == d && n == m
      {
        CreateAccounts(s, r, a, n, k, name);
        CreateAccounts(s, r, d, m, k, name);
        if a == c && d == c && n in Idents(r.nodes) && m in Idents(r.nodes) { SameNode(r.nodes, c, n, m); }
      }
    }
  }

  lemma SameNode(nodes: seq<ClusterNode>, c: string, n: ClusterNode, m: ClusterNode)
    requires UniqueNamed(nodes) && n in Idents(nodes) && m in Idents(nodes) && FullName(c, n.name) == FullName(c, m.name)
    ensures n == m
  {
    FullNameInjective(c, n.name, m.name);
    UniqueIdent(nodes, n, m);
  }

  /** When only the record of `d` was written, only it can be untidy. */
  lemma TidyAfter(before: map<string, Cluster>, after: map<string, Cluster>, d: string)
    requires Tidy(before) && d in after && after == before[d := after[d]]
    ensures Tidy(after) <==> UniqueNamed(after[d].nodes) && Apart(after) && SedSafe(d, Idents(after[d].nodes))
  {
  }

  lemma CreateTidyIff(s: Sys, r: Cluster)
    requires Tidy(s.clusters) && EnvEnabled(s, OpCreate(r))
    ensures Tidy(EnvApply(s, OpCreate(r)).clusters) <==> AsksTidily(s, OpCreate(r))
  {
    var after, c := EnvApply(s, OpCreate(r)).clusters, r.clusterName;
    assert after == s.clusters[c := r];
    TidyAfter(s.clusters, after, c);
    if UniqueNamed(r.nodes) { CreateApartIff(s, r); }
    SafeIffApart(c, Idents(r.nodes));
  }

  lemma SafeIffApart(c: string, nodes: set<ClusterNode>)
    ensures SedSafe(c, nodes) <==> forall n, m :: n in nodes && m in nodes && n.name != m.name ==> LinesApart(c, n, m)
  {
  }

  // ------------------------------------------------------------ additions

  lemma AddAccounts(s: Sys, d: string, x: ClusterNode, c: string, n: ClusterNode, k: VmKey, name: string)
    requires EnvEnabled(s, OpAddNode(d, x))
    ensures Accounts(EnvApply(s, OpAddNode(d, x)).clusters, c, n, k, name)
      <==> Accounts(s.clusters, c, n, k, name)
           || (c == d && n == Ident(x) && k == VmKey(s.clusters[d].node, n.vmId) && name == FullName(c, n.name))
  {
    IdentsAppend(s.clusters[d].nodes, x.(lock := Some(CreateLock)));
  }

  lemma AddApartIff(s: Sys, d: string, x: ClusterNode)
    requires Apart(s.clusters) && EnvEnabled(s, OpAddNode(d, x))
    ensures Apart(EnvApply(s, OpAddNode(d, x)).clusters) <==> Unrecorded(s.clusters, d, s.clusters[d].node, Ident(x))
  {
    var after, i := EnvApply(s, OpAddNode(d, x)).clusters, Ident(x);
    var k, name := VmKey(s.clusters[d].node, i.vmId), FullName(d, i.name);
    AddAccounts(s, d, x, d, i, k, name);
    if Apart(after) {
      forall c, n | Accounts(s.clusters, c, n, k, name) ensures c == d && n == i { AddAccounts(s, d, x, c, n, k, name); }
    }
    if Unrecorded(s.clusters, d, s.clusters[d].node, i) {
      forall a, n, c, m, j, nm | Accounts(after, a, n, j, nm) && Accounts(after, c, m, j, nm) ensures a == c && n == m {
        AddAccounts(s, d, x, a, n, j, nm);
        AddAccounts(s, d, x, c, m, j, nm);
      }
    }
  }

  lemma AddSafeIff(c: string, nodes: set<ClusterNode>, i: ClusterNode)
    requires SedSafe(c, nodes) && forall m :: m in nodes ==> m.name != i.name
    ensures SedSafe(c, nodes + {i}) <==> forall m :: m in nodes ==> LinesApart(c, i, m)
  {
    SafeIffApart(c, nodes + {i});
    SafeIffApart(c, nodes);
    if SedSafe(c, nodes + {i}) {
      forall m | m in nodes ensures LinesApart(c, i, m) { assert m in nodes + {i} && i in nodes + {i}; }
    }
  }

  lemma AddTidyIff(s: Sys, d: string, x: ClusterNode)
    requires Tidy(s.clusters) && EnvEnabled(s, OpAddNode(d, x))
    ensures Tidy(EnvApply(s, OpAddNode(d, x)).clusters) <==> AsksTidily(s, OpAddNode(d, x))
  {
    var after, nodes, y := EnvApply(s, OpAddNode(d, x)).clusters, s.clusters[d].nodes, x.(lock := Some(CreateLock));
    assert after == s.clusters[d := s.clusters[d].(nodes := nodes + [y])];
    AddUniqueIff(nodes, y);
    AddApartIff(s, d, x);
    IdentsAppend(nodes, y);
    if FindNode(nodes, x.name).None? {
      forall m | m in Idents(nodes) ensures m.name != x.name {
        var n :| n in nodes && Ident(n) == m;
      }
      AddSafeIff(d, Idents(nodes), Ident(x));
    }
    TidyAfter(s.clusters, after, d);
  }

  /** A request keeps a tidy store tidy exactly if it asks tidily; no other step of callers or
      outsiders can make it untidy. */
  lemma EnvTidyIff(s: Sys, e: EnvStep)
    requires EnvEnabled(s, e) && Tidy(s.clusters)
    ensures Tidy(EnvApply(s, e).clusters) <==> AsksTidily(s, e)
  {
    match e
    case OpCreate(r) => CreateTidyIff(s, r);
    case OpAddNode(d, x) => AddTidyIff(s, d, x);
    case _ =>
      EnvKeepsIdents(s, e);
      FewerStayApart(s.clusters, EnvApply(s, e).clusters);
      EnvUnique(s, e);
  }

  ghost predicate IdentsKept(before: map<string, Cluster>, after: map<string, Cluster>) {
    forall c :: c in after ==> c in before && after[c].node == before[c].node && Idents(after[c].nodes) == Idents(before[c].nodes)
  }

  lemma PutKeepsIdents(s: Sys, c: string, r: Cluster)
    requires c in s.clusters && r.node == s.clusters[c].node && Idents(r.nodes) == Idents(s.clusters[c].nodes)
    ensures IdentsKept(s.clusters, Put(s, c, r).clusters)
  {
  }

  lemma EnvKeepsIdents(s: Sys, e: EnvStep)
    requires EnvEnabled(s, e) && !e.OpCreate? && !e.OpAddNode?
    ensures IdentsKept(s.clusters, EnvApply(s, e).clusters)
  {
    match e
    case OpDeleteNode(c, name) =>
      EditsKeepIdents(s.clusters[c].nodes, name, DeleteLock, Some(DeleteLock), 0, 0);
      PutKeepsIdents(s, c, EnvApply(s, e).clusters[c]);
    case OpChange(c, name, _, _) =>
      EditsKeepIdents(s.clusters[c].nodes, name, ChangeLock, None, 0, 0);
      PutKeepsIdents(s, c, EnvApply(s, e).clusters[c]);
    case OpDeleteCluster(c) => PutKeepsIdents(s, c, EnvApply(s, e).clusters[c]);
    case OpEditApps(c, _, _) => PutKeepsIdents(s, c, EnvApply(s, e).clusters[c]);
    case _ =>
  }

  lemma ActTidy(s: Sys, w: Work, a: Act)
    requires s.mode == Busy(w) && ActEnabled(s, w, a) && Tidy(s.clusters)
    ensures Tidy(ActApply(s, w, a).clusters)
  {
    var after, c := ActApply(s, w, a).clusters, w.event.cluster;
    ActUnique(s, w, a);
    if a.DropNode? {
      if c in s.clusters { DropNodeEffect(s, w); }
    } else if !a.DropCluster? {
      ActRewrites(s, w, a);
      RewrittenExtends(s.clusters, after, c);
    }
    FewerStayApart(s.clusters, after);
  }

  /** The store stays tidy over every run in which callers ask tidily. */
  lemma {:induction false} StaysTidy(steps: seq<Step>)
    requires Legal(steps) && AllAskTidily(steps)
    ensures Tidy(Exec(steps).clusters) && AllAskUniquely(steps)
  {
    if steps != [] {
      var s, st := Exec(steps[..|steps| - 1]), steps[|steps| - 1];
      StaysTidy(steps[..|steps| - 1]);
      match st
      case Env(e) =>
        EnvTidyIff(s, e);
        EnvUnique(s, e);
      case Loop(_) =>
      case Do(a) => ActTidy(s, s.mode.work, a);
    }
  }
}
