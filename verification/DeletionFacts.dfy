/** What the deletion of a cluster looks like from outside
    (core/src/dispatcher/usecase/delete_cluster.rs:10-82). */
module DeletionFacts {
  import opened Model
  import opened Machine
  import opened Plan
  import opened Trace
  import opened Common
  import opened DeleteCluster

  // ------------------------------------------------------------ steps

  /** The steps towards a deletion, in their intended order; 0 for calls that belong to none. */
  function DownStep(call: Call): nat {
    match call
    case Ssh(_, command, _) =>
      if command.Drain? then 1 else if command.Leave? then 2 else if command.Forget? then 3
      else if command.ScrubTemplate? || command.ScrubHost? then 8 else 0
    case Shutdown(_, _) => 4
    case Poll(_, _) => 5
    case HardStop(_, _) => 5
    case Delete(_, _) => 6
    case NodeDropped(_) => 7
    case ClusterDropped => 7
    case _ => 0
  }

  const StepOf: Call -> nat := (c: Call) => DownStep(c)

  const DownRank: Task -> nat := (t: Task) =>
    if t.Order? then DownStep(Call.Ssh(t.node, t.command, true))
    else if t.AskDown? then 4 else if t.AwaitDown? then 5 else if t.Erase? then 6
    else if t.RetireNode? || t.RetireCluster? then 7 else if t.Cleanse? then 8 else 0

  /** Tasks of deletions and removals. */
  predicate Destructive(t: Task) {
    || t.Tell? || t.Fetch? || t.Stuck? || t.Survey? || t.Order? || t.AskDown? || t.Erase? || t.RetireNode? || t.RetireCluster?
    || t.Cleanse? || (t.AwaitDown? && (t.warning == [] || t.warning == [WARNING]))
  }

  lemma DownCalls(n: ClusterNode, seg: seq<Call>, warning: seq<Call>, ok: bool, c: Call)
    requires DownRun(n, seg, warning, true, ok) && c in seg && (warning == [] || warning == [WARNING])
    ensures c == WARNING || ((c.Poll? || c.HardStop?) && c.node == n)
  {
    if seen :| ShutdownRun(n, seg, seen) && seen != Ok(false) && (ok <==> seen.Ok?) {
    } else {
      var polls, hard :| ShutdownRun(n, polls, Ok(false)) && HardRun(n, hard, true, ok) && seg == polls + (warning + hard);
    }
  }

  /** A call has the step of its task, or none. */
  lemma CallOfStep(t: Task, seg: seq<Call>, ok: bool, c: Call)
    requires Destructive(t) && Run(t, seg, ok) && c in seg
    ensures DownStep(c) == 0 || DownStep(c) == DownRank(t)
    ensures c.Poll? || c.HardStop? ==> t.AwaitDown? && c.node == t.node
    ensures c.Shutdown? ==> t == AskDown(c.node)
    ensures c.Delete? ==> t == Erase(c.node)
    ensures c.Ssh? && 0 < DownStep(c) < 4 ==> t == Order(c.node, c.command)
  {
    if t.AwaitDown? { DownCalls(t.node, seg, t.warning, ok, c); }
  }

  lemma StepsKeepRank(plan: seq<Task>)
    requires AllDestructive(plan)
    ensures Bounded(plan, DownRank, StepOf)
  {
    forall t, seg, ok, c | t in plan && Run(t, seg, ok) && c in seg ensures StepOf(c) <= DownRank(t) { CallOfStep(t, seg, ok, c); }
  }

  /** A wait that succeeds has seen the VM stopped or stopped it hard. */
  lemma DownSeen(n: ClusterNode, seg: seq<Call>, warning: seq<Call>)
    requires DownRun(n, seg, warning, true, true)
    ensures Call.Poll(n, SawStopped) in seg || Call.HardStop(n, true) in seg
  {
    if seen :| ShutdownRun(n, seg, seen) && seen != Ok(false) && seen.Ok? {
      assert seen.value || seen == Ok(false);
      assert seg[|seg| - 1] == Call.Poll(n, SawStopped);
    } else {
      var polls, hard :| ShutdownRun(n, polls, Ok(false)) && HardRun(n, hard, true, true) && seg == polls + (warning + hard);
      assert hard[0] == Call.HardStop(n, true);
      assert Call.HardStop(n, true) in hard;
    }
  }

  /** Before the deletion at `j`, its VM was asked to shut down and then seen stopped or stopped hard. */
  ghost predicate Prepared(calls: seq<Call>, j: nat)
    requires j < |calls| && calls[j].Delete?
  {
    exists k: nat :: k < j && Down(calls, k, calls[j].node) && Call.Shutdown(calls[j].node, true) in calls[..k]
  }

  ghost predicate Down(calls: seq<Call>, k: nat, n: ClusterNode) {
    k < |calls| && (calls[k] == Call.Poll(n, SawStopped) || calls[k] == Call.HardStop(n, true))
  }

  /** Ranks order the plan and bound its calls. */
  ghost predicate Stepped(plan: seq<Task>, calls: seq<Call>, ok: bool) {
    Ran(plan, calls, ok) && Ordered(plan, DownRank) && Bounded(plan, DownRank, StepOf) && AllDestructive(plan)
  }

  lemma ErasureIsPrepared(plan: seq<Task>, calls: seq<Call>, ok: bool, n: ClusterNode, warning: seq<Call>, j: nat)
    requires Stepped(plan, calls, ok) && j < |calls| && calls[j].Delete? && calls[j].node == n
    requires AskDown(n) in plan && AwaitDown(n, warning) in plan
    ensures Prepared(calls, j)
  {
    var k := DownBefore(plan, calls, ok, n, warning, j);
    var ask := DoneBefore(plan, calls, ok, DownRank, StepOf, k, AskDown(n));
  }

  lemma DownBefore(plan: seq<Task>, calls: seq<Call>, ok: bool, n: ClusterNode, warning: seq<Call>, j: nat) returns (k: nat)
    requires Stepped(plan, calls, ok) && j < |calls| && DownStep(calls[j]) >= 6 && AwaitDown(n, warning) in plan
    ensures k < j && Down(calls, k, n)
  {
    var wait := DoneBefore(plan, calls, ok, DownRank, StepOf, j, AwaitDown(n, warning));
    DownSeen(n, wait, warning);
    var c: Call :| c in wait && (c == Call.Poll(n, SawStopped) || c == Call.HardStop(n, true));
    k :| k < j && calls[..j][k] == c;
  }

  /** A call of positive step lies in a task of that rank. */
  lemma TaskOfStep(plan: seq<Task>, segs: seq<seq<Call>>, ok: bool, i: nat) returns (a: nat, x: nat)
    requires Split(plan, segs, ok) && AllDestructive(plan) && i < |Flat(segs)| && DownStep(Flat(segs)[i]) > 0
    ensures a < |segs| && x < |segs[a]| && i == |Flat(segs[..a])| + x && DownRank(plan[a]) == DownStep(Flat(segs)[i])
  {
    a, x := CallOfTask(plan, segs, ok, i);
    InItsTask(plan, segs, ok, a, segs[a][x]);
  }

  lemma InItsTask(plan: seq<Task>, segs: seq<seq<Call>>, ok: bool, a: nat, c: Call)
    requires Split(plan, segs, ok) && AllDestructive(plan) && a < |segs| && c in segs[a] && DownStep(c) > 0
    ensures DownRank(plan[a]) == DownStep(c)
  {
    assert plan[a] in plan && Run(plan[a], segs[a], ok || a < |segs| - 1);
    CallOfStep(plan[a], segs[a], ok || a < |segs| - 1, c);
  }

  /** No earlier step comes after a later one. */
  lemma StepsInOrder(plan: seq<Task>, calls: seq<Call>, ok: bool, i: nat, j: nat)
    requires Stepped(plan, calls, ok) && i < j < |calls| && DownStep(calls[i]) > 0 && DownStep(calls[j]) > 0
    ensures DownStep(calls[i]) <= DownStep(calls[j])
  {
    var segs :| Split(plan, segs, ok) && Flat(segs) == calls;
    var a, x := TaskOfStep(plan, segs, ok, i);
    var b, y := TaskOfStep(plan, segs, ok, j);
    if a > b { SegmentsInOrder(segs, b, a); }
  }

  lemma {:induction false} SegmentsInOrder(segs: seq<seq<Call>>, b: nat, a: nat)
    requires b < a <= |segs|
    ensures |Flat(segs[..b])| + |segs[b]| <= |Flat(segs[..a])|
  {
    assert segs[..a] == segs[..b] + ([segs[b]] + segs[b + 1..a]);
    FlatAppend(segs[..b], [segs[b]] + segs[b + 1..a]);
    FlatAppend([segs[b]], segs[b + 1..a]);
    assert Flat([segs[b]]) == segs[b] + Flat([segs[b]][1..]);
  }

  // ------------------------------------------------------------ a whole cluster

  lemma EachDestructive(nodes: seq<ClusterNode>, body: ClusterNode -> seq<Task>, k: nat)
    requires forall n, t :: n in nodes && t in body(n) ==> Destructive(t) && (DownRank(t) == 0 || DownRank(t) == k)
    ensures Piece(Each(nodes, body), k)
  {
    forall t | t in Each(nodes, body) ensures Destructive(t) && (DownRank(t) == 0 || DownRank(t) == k) {
      var n := EachIsOf(nodes, body, t);
    }
    OneRank(Each(nodes, body), DownRank, k);
  }

  lemma AsksInOrder(nodes: seq<ClusterNode>)
    ensures Piece(Each(nodes, AskTasks), 4)
  {
    EachDestructive(nodes, AskTasks, 4);
  }

  lemma AwaitsInOrder(nodes: seq<ClusterNode>)
    ensures Piece(Each(nodes, AwaitDownTasks), 5)
  {
    EachDestructive(nodes, AwaitDownTasks, 5);
  }

  lemma ErasuresInOrder(nodes: seq<ClusterNode>)
    ensures Piece(Each(nodes, EraseTasks), 6)
  {
    EachDestructive(nodes, EraseTasks, 6);
  }

  ghost predicate AllDestructive(plan: seq<Task>) {
    forall t :: t in plan ==> Destructive(t)
  }

  /** All of a plan has this rank, or none. */
  ghost predicate Piece(plan: seq<Task>, k: nat) {
    Ranged(plan, k, k)
  }

  /** The steps of a plan come in their order, from `low` to `high`. */
  ghost predicate Ranged(plan: seq<Task>, low: nat, high: nat) {
    Ordered(plan, DownRank) && Within(plan, DownRank, low, high) && AllDestructive(plan)
  }

  lemma RangedThen(p: seq<Task>, q: seq<Task>, low: nat, mid: nat, mid': nat, high: nat)
    requires Ranged(p, low, mid) && Ranged(q, mid', high) && low <= mid <= mid' <= high
    ensures Ranged(p + q, low, high)
  {
    OrderedThen(p, q, DownRank, low, mid, mid', high);
  }

  /** The pieces of a deletion, as they lie in its plan. */
  lemma PiecesInOrder(head: seq<Task>, asks: seq<Task>, waits: seq<Task>, erasures: seq<Task>, last: seq<Task>)
    requires Piece(head, 4) && Piece(asks, 4) && Piece(waits, 5) && Piece(erasures, 6) && Piece(last, 7)
    ensures Ordered(head + ((asks + waits) + (erasures + last)), DownRank)
    ensures AllDestructive(head + ((asks + waits) + (erasures + last)))
  {
    OrderedThen(asks, waits, DownRank, 4, 4, 5, 5);
    OrderedThen(erasures, last, DownRank, 6, 6, 7, 7);
    OrderedThen(asks + waits, erasures + last, DownRank, 4, 5, 6, 7);
    OrderedThen(head, (asks + waits) + (erasures + last), DownRank, 4, 4, 4, 7);
  }

  lemma EndPieces(r: Cluster, listing: map<nat, string>)
    ensures Piece([Fetch(r), Survey(listing)], 4) && Piece([RetireCluster], 7)
  {
    OneRank([Fetch(r), Survey(listing)], DownRank, 4);
    OneRank([RetireCluster], DownRank, 7);
  }

  lemma DeletionInOrder(r: Cluster, listing: map<nat, string>, existing: seq<ClusterNode>)
    ensures var plan := [Fetch(r), Survey(listing)] + (Stopping(existing) + (Each(existing, EraseTasks) + [RetireCluster]));
      Ordered(plan, DownRank) && AllDestructive(plan)
  {
    EndPieces(r, listing);
    AsksInOrder(existing);
    AwaitsInOrder(existing);
    ErasuresInOrder(existing);
    PiecesInOrder([Fetch(r), Survey(listing)], Each(existing, AskTasks), Each(existing, AwaitDownTasks), Each(existing, EraseTasks), [RetireCluster]);
  }

  lemma DeletionStepped(c: string, r: Cluster, listing: map<nat, string>, calls: seq<Call>, ok: bool)
    requires Ran(DeletionPlan(c, r, listing), calls, ok)
    ensures Stepped(DeletionPlan(c, r, listing), calls, ok)
  {
    DeletionInOrder(r, listing, Existing(r.nodes, listing, c));
    StepsKeepRank(DeletionPlan(c, r, listing));
  }

  lemma DeletionTasks(c: string, r: Cluster, listing: map<nat, string>, n: ClusterNode)
    requires n in Existing(r.nodes, listing, c)
    ensures var plan := DeletionPlan(c, r, listing);
      AskDown(n) in plan && AwaitDown(n, [WARNING]) in plan && Erase(n) in plan
  {
    var existing := Existing(r.nodes, listing, c);
    EachHas(existing, AskTasks, n, AskDown(n));
    EachHas(existing, AwaitDownTasks, n, AwaitDown(n, [WARNING]));
    EachHas(existing, EraseTasks, n, Erase(n));
  }

  lemma ErasedIsExisting(c: string, r: Cluster, listing: map<nat, string>, t: Task)
    requires t in DeletionPlan(c, r, listing) && t.Erase?
    ensures t.node in Existing(r.nodes, listing, c)
  {
    var existing := Existing(r.nodes, listing, c);
    if t in Each(existing, AskTasks) { var n := EachIsOf(existing, AskTasks, t); }
    if t in Each(existing, AwaitDownTasks) { var n := EachIsOf(existing, AwaitDownTasks, t); }
    if t in Each(existing, EraseTasks) { var n := EachIsOf(existing, EraseTasks, t); }
  }

  ghost predicate InSteps(calls: seq<Call>) {
    forall i, j :: 0 <= i < j < |calls| && DownStep(calls[i]) > 0 && DownStep(calls[j]) > 0 ==> DownStep(calls[i]) <= DownStep(calls[j])
  }

  lemma SteppedInSteps(plan: seq<Task>, calls: seq<Call>, ok: bool)
    requires Stepped(plan, calls, ok)
    ensures InSteps(calls)
  {
    forall i, j | 0 <= i < j < |calls| && DownStep(calls[i]) > 0 && DownStep(calls[j]) > 0 ensures DownStep(calls[i]) <= DownStep(calls[j]) {
      StepsInOrder(plan, calls, ok, i, j);
    }
  }

  /** In every run of a cluster's deletion: requests precede waits and waits precede deletions; a VM is
      deleted only if the listing showed it as a node of the record, and only after a granted shutdown
      request and then a poll that saw it stopped or a hard stop; and the record goes only after every VM
      shown has been deleted. */
  lemma DeletionIsDisciplined(c: string, r: Cluster, listing: map<nat, string>, calls: seq<Call>, ok: bool, j: nat)
    requires Ran(DeletionPlan(c, r, listing), calls, ok) && j < |calls|
    ensures InSteps(calls)
    ensures calls[j].Delete? ==> calls[j].node in Existing(r.nodes, listing, c) && Prepared(calls, j)
    ensures calls[j].ClusterDropped? ==> forall n :: n in Existing(r.nodes, listing, c) ==> Call.Delete(n, true) in calls[..j]
  {
    DeletionStepped(c, r, listing, calls, ok);
    SteppedInSteps(DeletionPlan(c, r, listing), calls, ok);
    if calls[j].Delete? { DeletionPrepared(c, r, listing, calls, ok, j); }
    if calls[j].ClusterDropped? {
      forall n | n in Existing(r.nodes, listing, c) ensures Erase(n) in DeletionPlan(c, r, listing) { DeletionTasks(c, r, listing, n); }
      DroppedAfterAll(DeletionPlan(c, r, listing), Existing(r.nodes, listing, c), calls, ok, j);
    }
  }

  lemma DroppedAfterAll(plan: seq<Task>, existing: seq<ClusterNode>, calls: seq<Call>, ok: bool, j: nat)
    requires Stepped(plan, calls, ok) && j < |calls| && calls[j].ClusterDropped?
    requires forall n :: n in existing ==> Erase(n) in plan
    ensures forall n :: n in existing ==> Call.Delete(n, true) in calls[..j]
  {
    forall n | n in existing ensures Call.Delete(n, true) in calls[..j] { ErasedBefore(plan, calls, ok, n, j); }
  }

  lemma ErasedBefore(plan: seq<Task>, calls: seq<Call>, ok: bool, n: ClusterNode, j: nat)
    requires Stepped(plan, calls, ok) && j < |calls| && DownStep(calls[j]) == 7 && Erase(n) in plan
    ensures Call.Delete(n, true) in calls[..j]
  {
    var seg := DoneBefore(plan, calls, ok, DownRank, StepOf, j, Erase(n));
  }

  lemma DeletionPrepared(c: string, r: Cluster, listing: map<nat, string>, calls: seq<Call>, ok: bool, j: nat)
    requires Stepped(DeletionPlan(c, r, listing), calls, ok) && j < |calls| && calls[j].Delete?
    ensures calls[j].node in Existing(r.nodes, listing, c) && Prepared(calls, j)
  {
    var plan, n := DeletionPlan(c, r, listing), calls[j].node;
    var t, seg, done := CallHasTask(plan, calls, ok, calls[j]);
    CallOfStep(t, seg, done, calls[j]);
    ErasedIsExisting(c, r, listing, t);
    DeletionTasks(c, r, listing, n);
    ErasureIsPrepared(plan, calls, ok, n, [WARNING], j);
  }

  // ------------------------------------------------------------ how often is polled

  function IsPoll(n: ClusterNode): Call -> bool {
    (c: Call) => c.Poll? && c.node == n
  }

  function PollBound(n: ClusterNode): Task -> nat {
    (t: Task) => if t.AwaitDown? && t.node == n then 62 else 0
  }

  function Total(plan: seq<Task>, bound: Task -> nat): nat {
    if plan == [] then 0 else bound(plan[0]) + Total(plan[1..], bound)
  }

  lemma {:induction false} TotalAppend(a: seq<Task>, b: seq<Task>, bound: Task -> nat)
    ensures Total(a + b, bound) == Total(a, bound) + Total(b, bound)
  {
    if a == [] {
      assert a + b == b;
    } else {
      TotalAppend(a[1..], b, bound);
      assert (a + b)[0] == a[0] && (a + b)[1..] == a[1..] + b;
    }
  }

  lemma {:induction false} FilterAtMost(calls: seq<Call>, keep: Call -> bool)
    ensures |Filter(calls, keep)| <= |calls|
  {
    if calls != [] { FilterAtMost(calls[1..], keep); }
  }

  lemma WaitPolls(n: ClusterNode, seg: seq<Call>, warning: seq<Call>, ok: bool)
    requires DownRun(n, seg, warning, true, ok) && (warning == [] || warning == [WARNING])
    ensures |Filter(seg, IsPoll(n))| <= 62
  {
    if seen :| ShutdownRun(n, seg, seen) && seen != Ok(false) && (ok <==> seen.Ok?) {
      FilterAtMost(seg, IsPoll(n));
    } else {
      var polls, hard :| ShutdownRun(n, polls, Ok(false)) && HardRun(n, hard, true, ok) && seg == polls + (warning + hard);
      FilterAppend(polls, warning + hard, IsPoll(n));
      FilterAppend(warning, hard, IsPoll(n));
      FilterAtMost(polls, IsPoll(n));
      FilterNone(warning, IsPoll(n));
      HardPolls(n, hard, ok);
    }
  }

  lemma HardPolls(n: ClusterNode, hard: seq<Call>, ok: bool)
    requires HardRun(n, hard, true, ok)
    ensures |Filter(hard, IsPoll(n))| <= 31
  {
    if hard == [Call.HardStop(n, false)] {
      FilterNone(hard, IsPoll(n));
    } else {
      var again, seen :| ShutdownRun(n, again, seen) && hard == [Call.HardStop(n, true)] + again;
      FilterAppend([Call.HardStop(n, true)], again, IsPoll(n));
      FilterNone([Call.HardStop(n, true)], IsPoll(n));
      FilterAtMost(again, IsPoll(n));
    }
  }

  lemma TaskPolls(t: Task, seg: seq<Call>, ok: bool, n: ClusterNode)
    requires Destructive(t) && Run(t, seg, ok)
    ensures |Filter(seg, IsPoll(n))| <= PollBound(n)(t)
  {
    if t.AwaitDown? && t.node == n {
      WaitPolls(n, seg, t.warning, ok);
    } else {
      forall c | c in seg ensures !IsPoll(n)(c) { CallOfStep(t, seg, ok, c); }
      FilterNone(seg, IsPoll(n));
    }
  }

  lemma {:induction false} PlanPolls(plan: seq<Task>, segs: seq<seq<Call>>, ok: bool, n: ClusterNode)
    requires Split(plan, segs, ok) && forall t :: t in plan ==> Destructive(t)
    ensures |Filter(Flat(segs), IsPoll(n))| <= Total(plan, PollBound(n))
    decreases |segs|
  {
    if segs != [] {
      assert plan[0] in plan && Run(plan[0], segs[0], ok || |segs| > 1);
      TaskPolls(plan[0], segs[0], ok || |segs| > 1, n);
      FilterAppend(segs[0], Flat(segs[1..]), IsPoll(n));
      if |segs| > 1 || ok {
        SplitRest(plan, segs, ok);
        forall t | t in plan[1..] ensures Destructive(t) { assert t in plan; }
        PlanPolls(plan[1..], segs[1..], ok, n);
      } else {
        assert segs[1..] == [];
      }
    }
  }

  lemma TwoTotal(x: Task, y: Task, bound: Task -> nat)
    ensures Total([x, y], bound) == bound(x) + bound(y)
  {
    assert [x, y][1..] == [y] && [y][1..] == [];
    assert Total([y], bound) == bound(y) + Total([], bound);
  }

  lemma {:induction false} NoTotal<T>(items: seq<T>, body: T -> seq<Task>, bound: Task -> nat)
    requires forall x :: x in items ==> Total(body(x), bound) == 0
    ensures Total(Each(items, body), bound) == 0
  {
    if items != [] {
      assert items == [items[0]] + items[1..];
      NoTotal(items[1..], body, bound);
      TotalAppend(body(items[0]), Each(items[1..], body), bound);
    }
  }

  lemma {:induction false} WaitsTotal(nodes: seq<ClusterNode>, n: ClusterNode)
    ensures Total(Each(nodes, AwaitDownTasks), PollBound(n)) == 62 * multiset(nodes)[n]
  {
    if nodes != [] {
      var m, rest := nodes[0], nodes[1..];
      assert nodes == [m] + rest;
      WaitsTotal(rest, n);
      TotalAppend(AwaitDownTasks(m), Each(rest, AwaitDownTasks), PollBound(n));
      TwoTotal(Tell(Info, "Wait for VM shutdown"), AwaitDown(m, [WARNING]), PollBound(n));
      assert multiset(nodes) == multiset([m]) + multiset(rest);
    }
  }

  lemma OthersTotal(nodes: seq<ClusterNode>, n: ClusterNode)
    ensures Total(Each(nodes, AskTasks), PollBound(n)) == 0 && Total(Each(nodes, EraseTasks), PollBound(n)) == 0
  {
    forall m | m in nodes ensures Total(AskTasks(m), PollBound(n)) == 0 {
      TwoTotal(AskDown(m), Tell(Info, "Requested VM to shutdown"), PollBound(n));
    }
    forall m | m in nodes ensures Total(EraseTasks(m), PollBound(n)) == 0 {
      TwoTotal(Erase(m), Tell(Info, "VM has been deleted"), PollBound(n));
    }
    NoTotal(nodes, AskTasks, PollBound(n));
    NoTotal(nodes, EraseTasks, PollBound(n));
  }

  lemma DeletionTotal(c: string, r: Cluster, listing: map<nat, string>, n: ClusterNode)
    ensures Total(DeletionPlan(c, r, listing), PollBound(n)) == 62 * multiset(Existing(r.nodes, listing, c))[n]
  {
    var existing, bound := Existing(r.nodes, listing, c), PollBound(n);
    WaitsTotal(existing, n);
    OthersTotal(existing, n);
    TwoTotal(Fetch(r), Survey(listing), bound);
    assert [RetireCluster][1..] == [] && Total([RetireCluster], bound) == bound(RetireCluster) + Total([], bound);
    TotalAppend(Each(existing, EraseTasks), [RetireCluster], bound);
    TotalAppend(Each(existing, AskTasks), Each(existing, AwaitDownTasks), bound);
    TotalAppend(Stopping(existing), Each(existing, EraseTasks) + [RetireCluster], bound);
    TotalAppend([Fetch(r), Survey(listing)], Stopping(existing) + (Each(existing, EraseTasks) + [RetireCluster]), bound);
  }

  lemma {:induction false} ExistingAtMost(nodes: seq<ClusterNode>, listing: map<nat, string>, c: string, n: ClusterNode)
    ensures multiset(Existing(nodes, listing, c))[n] <= multiset(nodes)[n]
  {
    if nodes != [] {
      ExistingAtMost(nodes[1..], listing, c, n);
      assert nodes == [nodes[0]] + nodes[1..];
      var head := if Listed(listing, c, nodes[0]) then [nodes[0]] else [];
      assert multiset(head + Existing(nodes[1..], listing, c)) == multiset(head) + multiset(Existing(nodes[1..], listing, c));
    }
  }

  /** A node is polled at most 62 times for each time the record lists it, however many nodes there are
      and however the deletion ends. */
  lemma PollsAreBounded(c: string, r: Cluster, listing: map<nat, string>, calls: seq<Call>, ok: bool, n: ClusterNode)
    requires Ran(DeletionPlan(c, r, listing), calls, ok)
    ensures |Filter(calls, IsPoll(n))| <= 62 * multiset(r.nodes)[n]
  {
    var plan := DeletionPlan(c, r, listing);
    DeletionStepped(c, r, listing, calls, ok);
    var segs :| Split(plan, segs, ok) && Flat(segs) == calls;
    PlanPolls(plan, segs, ok, n);
    DeletionTotal(c, r, listing, n);
    ExistingAtMost(r.nodes, listing, c, n);
  }

  // ------------------------------------------------------------ what it goes by

  /** A trace whose first two calls read this record and this listing. */
  predicate Shown(calls: seq<Call>, r: Cluster, listing: map<nat, string>) {
    |calls| > 1 && calls[0] == RecordRead(Some(r)) && calls[1] == ListVms(listing, true)
  }

  lemma DeletionGoesBy(c: string, r: Cluster, listing: map<nat, string>, calls: seq<Call>, ok: bool)
    requires Ran(DeletionPlan(c, r, listing), calls, ok)
    ensures forall q, l :: Shown(calls, q, l) ==> q == r && l == listing
    ensures |calls| > 2 ==> Shown(calls, r, listing)
  {
    var existing := Existing(r.nodes, listing, c);
    HeadShown([Fetch(r), Survey(listing)], Stopping(existing) + (Each(existing, EraseTasks) + [RetireCluster]), r, listing, calls, ok);
  }

  lemma HeadShown(head: seq<Task>, rest: seq<Task>, r: Cluster, listing: map<nat, string>, calls: seq<Call>, ok: bool)
    requires head == [Fetch(r), Survey(listing)] && Ran(head + rest, calls, ok)
    ensures forall q, l :: Shown(calls, q, l) ==> q == r && l == listing
    ensures |calls| > 2 ==> Shown(calls, r, listing)
  {
    if |calls| > 1 {
      var t, x, done := LeadingCall(head, rest, calls, ok, 0);
      assert Run(t, [x], done) && [x][0] == x;
      t, x, done := LeadingCall(head, rest, calls, ok, 1);
      assert Run(t, [x], done) && [x][0] == x;
    }
  }
}
