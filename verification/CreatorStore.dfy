/** The list of nodes on the creator page (web/src-web/src/store/cluster-creator-store.ts), and
    where its ids end up when nodes are only added. */
module CreatorStore {
  import opened Model
  import opened Decimal
  import opened Nodes
  import opened Picks
  import Allocator

  /** The nodes of one type, in the order they were added. */
  function OfType(nodes: seq<Draft>, t: NodeType): seq<Draft> {
    if nodes == [] then []
    else
      var last := nodes[|nodes| - 1];
      OfType(nodes[..|nodes| - 1], t) + if last.nodeType == t then [last] else []
  }

  lemma {:induction false} OfTypeHas(nodes: seq<Draft>, t: NodeType, i: nat)
    requires i < |OfType(nodes, t)|
    ensures OfType(nodes, t)[i] in nodes && OfType(nodes, t)[i].nodeType == t
  {
    if i < |OfType(nodes[..|nodes| - 1], t)| { OfTypeHas(nodes[..|nodes| - 1], t, i); }
  }

  function WithoutId(nodes: seq<Draft>, id: int): (r: seq<Draft>)
    ensures forall n :: n in r <==> n in nodes && n.vmId != id
  {
    if nodes == [] then []
    else
      assert nodes == [nodes[0]] + nodes[1..];
      (if nodes[0].vmId != id then [nodes[0]] else []) + WithoutId(nodes[1..], id)
  }

  function OtherId(id: int): Draft -> bool {
    (n: Draft) => n.vmId != id
  }

  lemma {:induction false} WithoutIdPicks(nodes: seq<Draft>, id: int) returns (at: seq<nat>)
    ensures Picked(nodes, WithoutId(nodes, id), OtherId(id), at)
  {
    if nodes == [] { return []; }
    var rest := WithoutIdPicks(nodes[1..], id);
    at := PickNext(nodes, WithoutId(nodes[1..], id), OtherId(id), rest);
  }

  lemma {:induction false} OfTypePicks(nodes: seq<Draft>, t: NodeType) returns (at: seq<nat>)
    ensures Picked(nodes, OfType(nodes, t), Typed(t), at)
  {
    if nodes == [] { return []; }
    var front, last := nodes[..|nodes| - 1], nodes[|nodes| - 1];
    assert nodes == front + [last];
    var earlier := OfTypePicks(front, t);
    at := PickLast(front, OfType(front, t), Typed(t), earlier, last);
  }

  /** The nodes of the type, by ascending id; nodes of the same id in the order of the list. */
  ghost predicate SortedOfType(nodes: seq<Draft>, t: NodeType, r: seq<Draft>) {
    exists typed, at :: Picked(nodes, typed, Typed(t), at) && IsStableSort(typed, r)
  }

  ghost predicate IsStableSort(typed: seq<Draft>, r: seq<Draft>) {
    && StableSort.Ordered(r, Ascending) && multiset(r) == multiset(typed)
    && forall k :: StableSort.WithKey(r, Ascending, k) == StableSort.WithKey(typed, Ascending, k)
  }

  /** `findIndex`; the length when there is none. */
  function IndexOfId(nodes: seq<Draft>, id: int): (i: nat)
    ensures i <= |nodes| && (i < |nodes| ==> nodes[i].vmId == id)
    ensures forall j :: 0 <= j < i ==> nodes[j].vmId != id
  {
    if nodes == [] || nodes[0].vmId == id then 0 else 1 + IndexOfId(nodes[1..], id)
  }

  class ClusterCreatorStore {
    var nodes: seq<Draft>
    var defaultMasterNode: Draft

    constructor (defaultMasterNode: Draft)
      ensures nodes == [] && this.defaultMasterNode == defaultMasterNode
    {
      nodes := [];
      this.defaultMasterNode := defaultMasterNode;
    }

    /** The new node goes last; the others keep their places. */
    method AddNode(t: NodeType)
      modifies this`nodes
      ensures nodes == old(nodes) + [Generated(old(nodes), t, defaultMasterNode)]
    {
      var node := GenerateNode(nodes, t, defaultMasterNode);
      nodes := nodes + [node];
    }

    /** Replaces the first node with the id; an unknown id changes no node. */
    method UpdateNode(id: int, newNode: Draft)
      modifies this`nodes
      ensures |nodes| == |old(nodes)|
      ensures forall i :: 0 <= i < |nodes| ==> nodes[i] == if i == IndexOfId(old(nodes), id) then newNode else old(nodes)[i]
    {
      var idx := IndexOfId(nodes, id);
      if idx < |nodes| { nodes := nodes[idx := newNode]; }
    }

    /** Drops every node with the id; the others keep their order. */
    method DeleteNode(id: int)
      modifies this`nodes
      ensures exists at :: Picked(old(nodes), nodes, OtherId(id), at)
    {
      ghost var at := WithoutIdPicks(nodes, id);
      nodes := WithoutId(nodes, id);
    }

    /** The nodes of one type by ascending id; `masterNodes` and `workerNodes`. */
    method NodesOfType(t: NodeType) returns (r: seq<Draft>)
      ensures SortedOfType(nodes, t, r)
    {
      ghost var at := OfTypePicks(nodes, t);
      r := StableSort.SortBy(OfType(nodes, t), Ascending);
      StableSort.SortByIsStable(OfType(nodes, t), Ascending);
    }

    /** Adds one node after the other. */
    method AddNodes(types: seq<NodeType>)
      modifies this`nodes
      ensures nodes == AddAll(old(nodes), types, defaultMasterNode)
    {
      for i := 0 to |types|
        invariant nodes == AddAll(old(nodes), types[..i], defaultMasterNode)
      {
        AddNode(types[i]);
        assert types[..i + 1][..i] == types[..i];
      }
      assert types[..|types|] == types;
    }
  }

  // ------------------------------------------------------------ runs of additions

  /** Additions by some rule for the next node. */
  function AddBy(gen: (seq<Draft>, NodeType) -> Draft, nodes: seq<Draft>, types: seq<NodeType>): seq<Draft>
    decreases |types|
  {
    if types == [] then nodes
    else
      var before := AddBy(gen, nodes, types[..|types| - 1]);
      before + [gen(before, types[|types| - 1])]
  }

  function Rule(d: Draft): (seq<Draft>, NodeType) -> Draft {
    (nodes: seq<Draft>, t: NodeType) => Generated(nodes, t, d)
  }

  function AddAll(nodes: seq<Draft>, types: seq<NodeType>, defaultMasterNode: Draft): seq<Draft> {
    AddBy(Rule(defaultMasterNode), nodes, types)
  }

  /** `master-1`, `master-2`, …, `worker-1`, `worker-2`, … */
  const Numeral: (NodeType, nat) -> string := (t: NodeType, i: nat) => Label(t) + "-" + Print(i + 1)

  /** The nodes of the type have ids `base`, `base + 1`, … and the given names, in order. */
  ghost predicate Numbered(nodes: seq<Draft>, t: NodeType, base: int, name: (NodeType, nat) -> string) {
    var typed := OfType(nodes, t);
    forall i :: 0 <= i < |typed| ==> typed[i].vmId == base + i && typed[i].name == name(t, i)
  }

  lemma OfTypeSnoc(nodes: seq<Draft>, n: Draft, t: NodeType)
    ensures OfType(nodes + [n], t) == OfType(nodes, t) + if n.nodeType == t then [n] else []
  {
    assert (nodes + [n])[..|nodes|] == nodes;
  }

  lemma {:induction false} BestSnoc<T>(s: seq<T>, x: T, want: T -> bool, key: T -> int)
    ensures Best(s + [x], want, key)
         == if want(x) && (Best(s, want, key).None? || key(x) < key(Best(s, want, key).value)) then Some(x)
            else Best(s, want, key)
  {
    if s == [] {
      assert [x][1..] == [];
    } else {
      assert (s + [x])[1..] == s[1..] + [x];
      BestSnoc(s[1..], x, want, key);
    }
  }

  ghost predicate IdsFrom(nodes: seq<Draft>, t: NodeType, base: int) {
    var typed := OfType(nodes, t);
    forall i :: 0 <= i < |typed| ==> typed[i].vmId == base + i
  }

  lemma IdsFromPrefix(rest: seq<Draft>, last: Draft, t: NodeType, base: int)
    requires IdsFrom(rest + [last], t, base)
    ensures IdsFrom(rest, t, base)
    ensures last.nodeType == t ==> last.vmId == base + |OfType(rest, t)|
  {
    OfTypeSnoc(rest, last, t);
    var all, typed := OfType(rest + [last], t), OfType(rest, t);
    assert forall i :: 0 <= i < |typed| ==> typed[i] == all[i];
    if last.nodeType == t { assert all[|typed|] == last; }
  }

  /** The latest node of a numbered type is the one added last. */
  lemma {:induction false} LatestIsLast(nodes: seq<Draft>, t: NodeType, base: int)
    requires IdsFrom(nodes, t, base)
    ensures var typed := OfType(nodes, t);
      Best(nodes, Typed(t), Descending) == if typed == [] then None else Some(typed[|typed| - 1])
  {
    if nodes != [] {
      var rest, last := nodes[..|nodes| - 1], nodes[|nodes| - 1];
      assert nodes == rest + [last];
      IdsFromPrefix(rest, last, t, base);
      LatestIsLast(rest, t, base);
      BestSnoc(rest, last, Typed(t), Descending);
      OfTypeSnoc(rest, last, t);
    }
  }

  /** With masters only, the lowest is the first. */
  lemma {:induction false} LowestIsFirst(nodes: seq<Draft>, x: int)
    requires IdsFrom(nodes, Master, x) && OfType(nodes, Worker) == [] && nodes != []
    ensures OfType(nodes, Master) == nodes && Best(nodes, Anything, Ascending) == Some(nodes[0])
  {
    var rest, last := nodes[..|nodes| - 1], nodes[|nodes| - 1];
    assert nodes == rest + [last];
    IdsFromPrefix(rest, last, Master, x);
    BestSnoc(rest, last, Anything, Ascending);
    OfTypeSnoc(rest, last, Master);
    OfTypeSnoc(rest, last, Worker);
    if rest != [] { LowestIsFirst(rest, x); }
  }

  /** Masters from `x` on, workers from `w` on. */
  ghost predicate Layout(nodes: seq<Draft>, x: int, w: int, name: (NodeType, nat) -> string) {
    && Numbered(nodes, Master, x, name) && Numbered(nodes, Worker, w, name)
    && OfType(nodes, Master) != []
    && |OfType(nodes, Master)| + |OfType(nodes, Worker)| == |nodes|
  }

  lemma NumberedSnoc(nodes: seq<Draft>, n: Draft, t: NodeType, base: int, name: (NodeType, nat) -> string)
    requires Numbered(nodes, t, base, name)
    requires n.nodeType == t ==> n.vmId == base + |OfType(nodes, t)| && n.name == name(t, |OfType(nodes, t)|)
    ensures Numbered(nodes + [n], t, base, name)
  {
    OfTypeSnoc(nodes, n, t);
    var typed, all := OfType(nodes, t), OfType(nodes + [n], t);
    forall i | 0 <= i < |all| ensures all[i].vmId == base + i && all[i].name == name(t, i) {
      if i < |typed| { assert all[i] == typed[i]; } else { assert all[i] == n; }
    }
  }

  /** Which node comes next: number `i` of its type, on the next id of the type, or for the first
      worker, five or more above the first master. */
  ghost predicate Continues(nodes: seq<Draft>, t: NodeType, x: int, w: int, n: Draft, name: (NodeType, nat) -> string) {
    var typed := OfType(nodes, t);
    && n.nodeType == t && n.name == name(t, |typed|)
    && n.vmId == if t == Master then x + |typed| else if typed != [] then w + |typed| else x + Max(5, |nodes|)
  }

  lemma SuccessorOfLast(nodes: seq<Draft>, t: NodeType, last: Draft, d: Draft, i: nat)
    requires Best(nodes, Typed(t), Descending) == Some(last) && last.nodeType == t
    requires i >= 1 && last.name == Numeral(t, i - 1)
    ensures Rule(d)(nodes, t).vmId == last.vmId + 1 && Rule(d)(nodes, t).nodeType == t
    ensures Rule(d)(nodes, t).name == Numeral(t, i)
  {
    NextName(last, Label(t), i, 1);
  }

  lemma FirstWorker(nodes: seq<Draft>, lowest: Draft, d: Draft)
    requires Best(nodes, Typed(Worker), Descending) == None && Best(nodes, Anything, Ascending) == Some(lowest)
    ensures Generated(nodes, Worker, d).vmId == lowest.vmId + Max(|nodes|, 5)
    ensures Generated(nodes, Worker, d).nodeType == Worker && Generated(nodes, Worker, d).name == "worker-1"
  {
    FirstOfKind(nodes, lowest, Worker, d);
    FirstWorkerName();
  }

  lemma FirstOfKind(nodes: seq<Draft>, lowest: Draft, t: NodeType, d: Draft)
    requires Best(nodes, Typed(t), Descending) == None && Best(nodes, Anything, Ascending) == Some(lowest)
    ensures var step := if t == Worker then Max(|nodes|, 5) else -5;
      Generated(nodes, t, d) == Next(lowest, step).(name := Label(t) + "-1", nodeType := t)
    ensures Generated(nodes, t, d).vmId == lowest.vmId + if t == Worker then Max(|nodes|, 5) else -5
  {
    NextId(lowest, if t == Worker then Max(|nodes|, 5) else -5);
  }

  lemma FirstWorkerName()
    ensures Label(Worker) + "-1" == "worker-1"
  {
  }

  /** The last node of a numbered type. */
  lemma LastOfType(nodes: seq<Draft>, t: NodeType, base: int, name: (NodeType, nat) -> string) returns (last: Draft)
    requires Numbered(nodes, t, base, name) && OfType(nodes, t) != []
    ensures Best(nodes, Typed(t), Descending) == Some(last) && last.nodeType == t
    ensures last.name == name(t, |OfType(nodes, t)| - 1) && last.vmId == base + |OfType(nodes, t)| - 1
  {
    var typed := OfType(nodes, t);
    assert IdsFrom(nodes, t, base);
    LatestIsLast(nodes, t, base);
    OfTypeHas(nodes, t, |typed| - 1);
    last := typed[|typed| - 1];
  }

  lemma LastInLayout(nodes: seq<Draft>, t: NodeType, x: int, w: int, name: (NodeType, nat) -> string) returns (last: Draft)
    requires Layout(nodes, x, w, name) && OfType(nodes, t) != []
    ensures Best(nodes, Typed(t), Descending) == Some(last) && last.nodeType == t
    ensures last.name == name(t, |OfType(nodes, t)| - 1)
    ensures last.vmId == (if t == Master then x else w) + |OfType(nodes, t)| - 1
  {
    last := LastOfType(nodes, t, if t == Master then x else w, name);
  }

  lemma ContinuesType(nodes: seq<Draft>, t: NodeType, x: int, w: int, last: Draft, n: Draft, name: (NodeType, nat) -> string)
    requires OfType(nodes, t) != [] && last.vmId == (if t == Master then x else w) + |OfType(nodes, t)| - 1
    requires n.vmId == last.vmId + 1 && n.nodeType == t && n.name == name(t, |OfType(nodes, t)|)
    ensures Continues(nodes, t, x, w, n, name)
  {
  }

  lemma RuleContinuesType(nodes: seq<Draft>, t: NodeType, x: int, w: int, d: Draft)
    requires Layout(nodes, x, w, Numeral) && OfType(nodes, t) != []
    ensures Continues(nodes, t, x, w, Rule(d)(nodes, t), Numeral)
  {
    var last := LastInLayout(nodes, t, x, w, Numeral);
    SuccessorOfLast(nodes, t, last, d, |OfType(nodes, t)|);
    ContinuesType(nodes, t, x, w, last, Rule(d)(nodes, t), Numeral);
  }

  lemma OnlyMasters(nodes: seq<Draft>, x: int, w: int, name: (NodeType, nat) -> string)
    requires Layout(nodes, x, w, name) && OfType(nodes, Worker) == []
    ensures nodes != [] && nodes[0].vmId == x
    ensures Best(nodes, Typed(Worker), Descending) == None && Best(nodes, Anything, Ascending) == Some(nodes[0])
  {
    assert IdsFrom(nodes, Worker, w) && IdsFrom(nodes, Master, x);
    LatestIsLast(nodes, Worker, w);
    LowestIsFirst(nodes, x);
  }

  lemma RuleFirstWorker(nodes: seq<Draft>, x: int, w: int, d: Draft)
    requires Layout(nodes, x, w, Numeral) && OfType(nodes, Worker) == []
    ensures Continues(nodes, Worker, x, w, Rule(d)(nodes, Worker), Numeral)
  {
    OnlyMasters(nodes, x, w, Numeral);
    FirstWorker(nodes, nodes[0], d);
    FirstNumeral();
  }

  lemma RuleContinues(nodes: seq<Draft>, t: NodeType, x: int, w: int, d: Draft)
    requires Layout(nodes, x, w, Numeral)
    ensures Continues(nodes, t, x, w, Rule(d)(nodes, t), Numeral)
  {
    if OfType(nodes, t) != [] {
      RuleContinuesType(nodes, t, x, w, d);
    } else {
      RuleFirstWorker(nodes, x, w, d);
    }
  }

  lemma FirstNumeral()
    ensures Numeral(Master, 0) == "master-1" && Numeral(Worker, 0) == "worker-1"
  {
    assert Print(1) == "1";
  }

  /** How many additions come before the first worker. */
  function BeforeFirstWorker(types: seq<NodeType>): nat {
    if types == [] || types[0] == Worker then 0 else 1 + BeforeFirstWorker(types[1..])
  }

  function CountOf(types: seq<NodeType>, t: NodeType): nat {
    multiset(types)[t]
  }

  /** Where the workers begin: five above the first master, or above all the masters that were
      there when the first worker was added. */
  function WorkerBase(x: int, types: seq<NodeType>): int {
    x + Max(5, 1 + BeforeFirstWorker(types))
  }

  lemma {:induction false} BeforeSnoc(types: seq<NodeType>, t: NodeType)
    ensures BeforeFirstWorker(types + [t])
         == if Worker in types then BeforeFirstWorker(types) else |types| + if t == Worker then 0 else 1
    ensures Worker !in types ==> BeforeFirstWorker(types) == |types|
  {
    if types == [] {
      assert [t][1..] == [];
    } else {
      assert (types + [t])[1..] == types[1..] + [t];
      assert types == [types[0]] + types[1..];
      BeforeSnoc(types[1..], t);
    }
  }

  /** The base of the workers is fixed by the first worker. */
  lemma BaseStays(before: seq<Draft>, rest: seq<NodeType>, t: NodeType, x: int, name: (NodeType, nat) -> string)
    requires Layout(before, x, WorkerBase(x, rest), name)
    requires |OfType(before, Worker)| == CountOf(rest, Worker) && |before| == 1 + |rest|
    ensures Layout(before, x, WorkerBase(x, rest + [t]), name)
    ensures t == Worker && OfType(before, Worker) == [] ==> WorkerBase(x, rest + [t]) == x + Max(5, |before|)
    ensures OfType(before, Worker) != [] ==> WorkerBase(x, rest + [t]) == WorkerBase(x, rest)
  {
    BeforeSnoc(rest, t);
    if Worker !in rest { assert OfType(before, Worker) == []; }
  }

  lemma LayoutSnoc(before: seq<Draft>, n: Draft, t: NodeType, x: int, w: int, name: (NodeType, nat) -> string)
    requires Layout(before, x, w, name) && Continues(before, t, x, w, n, name)
    requires t == Worker && OfType(before, Worker) == [] ==> w == x + Max(5, |before|)
    ensures Layout(before + [n], x, w, name)
    ensures |OfType(before + [n], t)| == |OfType(before, t)| + 1
    ensures forall u :: u != t ==> OfType(before + [n], u) == OfType(before, u)
  {
    NumberedSnoc(before, n, Master, x, name);
    NumberedSnoc(before, n, Worker, w, name);
    OfTypeSnoc(before, n, Master);
    OfTypeSnoc(before, n, Worker);
    forall u | u != t ensures OfType(before + [n], u) == OfType(before, u) { OfTypeSnoc(before, n, u); }
  }

  /** What a run of additions from `first` has led to. */
  ghost predicate AddedUp(nodes: seq<Draft>, first: Draft, types: seq<NodeType>, name: (NodeType, nat) -> string) {
    && Layout(nodes, first.vmId, WorkerBase(first.vmId, types), name)
    && |OfType(nodes, Master)| == 1 + CountOf(types, Master)
    && |OfType(nodes, Worker)| == CountOf(types, Worker)
    && |nodes| == 1 + |types|
  }

  lemma AddedStep(before: seq<Draft>, first: Draft, rest: seq<NodeType>, t: NodeType, n: Draft, name: (NodeType, nat) -> string)
    requires AddedUp(before, first, rest, name)
    requires Continues(before, t, first.vmId, WorkerBase(first.vmId, rest), n, name)
    ensures AddedUp(before + [n], first, rest + [t], name)
  {
    BaseStays(before, rest, t, first.vmId, name);
    LayoutSnoc(before, n, t, first.vmId, WorkerBase(first.vmId, rest + [t]), name);
  }

  lemma OneMaster(first: Draft, name: (NodeType, nat) -> string)
    requires first.nodeType == Master && first.name == name(Master, 0)
    ensures AddedUp([first], first, [], name)
  {
    OfTypeSnoc([], first, Master);
    OfTypeSnoc([], first, Worker);
    assert [] + [first] == [first];
    assert OfType([first], Master) == [first] && OfType([first], Worker) == [];
  }

  lemma {:induction false} AddByLayout(gen: (seq<Draft>, NodeType) -> Draft, first: Draft, types: seq<NodeType>, name: (NodeType, nat) -> string)
    requires first.nodeType == Master && first.name == name(Master, 0)
    requires forall nodes, t, x, w :: Layout(nodes, x, w, name) ==> Continues(nodes, t, x, w, gen(nodes, t), name)
    ensures AddedUp(AddBy(gen, [first], types), first, types, name)
    decreases |types|
  {
    if types == [] {
      OneMaster(first, name);
    } else {
      var rest, t := types[..|types| - 1], types[|types| - 1];
      assert types == rest + [t];
      AddByLayout(gen, first, rest, name);
      var before := AddBy(gen, [first], rest);
      AddedStep(before, first, rest, t, gen(before, t), name);
    }
  }

  /** From one master at `x`, any sequence of additions leaves the masters exactly on
      x, x+1, … and the workers exactly on w, w+1, …, with names numbered from 1. */
  lemma AddOnlyLayout(first: Draft, types: seq<NodeType>, d: Draft)
    requires first.nodeType == Master && first.name == "master-1"
    ensures AddedUp(AddAll([first], types, d), first, types, Numeral)
  {
    FirstNumeral();
    forall nodes, t, x, w | Layout(nodes, x, w, Numeral) ensures Continues(nodes, t, x, w, Rule(d)(nodes, t), Numeral) {
      RuleContinues(nodes, t, x, w, d);
    }
    AddByLayout(Rule(d), first, types, Numeral);
  }

  // ------------------------------------------------------------ distinct ids and names

  ghost predicate DistinctIds(nodes: seq<Draft>) {
    forall i, j :: 0 <= i < j < |nodes| ==> nodes[i].vmId != nodes[j].vmId
  }

  ghost predicate DistinctNames(nodes: seq<Draft>) {
    forall i, j :: 0 <= i < j < |nodes| ==> nodes[i].name != nodes[j].name
  }

  /** The place of a node among those of its type. */
  function Rank(nodes: seq<Draft>, i: nat): nat
    requires i < |nodes|
  {
    |OfType(nodes[..i], nodes[i].nodeType)|
  }

  lemma {:induction false} OfTypePrefix(nodes: seq<Draft>, i: nat, t: NodeType)
    requires i <= |nodes|
    ensures OfType(nodes[..i], t) <= OfType(nodes, t)
  {
    if i < |nodes| {
      var rest := nodes[..|nodes| - 1];
      OfTypePrefix(rest, i, t);
      assert rest[..i] == nodes[..i];
    } else {
      assert nodes[..i] == nodes;
    }
  }

  lemma RankFinds(nodes: seq<Draft>, i: nat)
    requires i < |nodes|
    ensures var typed := OfType(nodes, nodes[i].nodeType); Rank(nodes, i) < |typed| && typed[Rank(nodes, i)] == nodes[i]
  {
    var t := nodes[i].nodeType;
    assert nodes[..i + 1] == nodes[..i] + [nodes[i]];
    OfTypeSnoc(nodes[..i], nodes[i], t);
    OfTypePrefix(nodes, i + 1, t);
  }

  lemma RankGrows(nodes: seq<Draft>, i: nat, j: nat)
    requires i < j < |nodes| && nodes[i].nodeType == nodes[j].nodeType
    ensures Rank(nodes, i) < Rank(nodes, j)
  {
    var t := nodes[i].nodeType;
    assert nodes[..i + 1] == nodes[..i] + [nodes[i]];
    OfTypeSnoc(nodes[..i], nodes[i], t);
    OfTypePrefix(nodes[..j], i + 1, t);
    assert nodes[..j][..i + 1] == nodes[..i + 1];
  }

  lemma NumberOf(nodes: seq<Draft>, x: int, w: int, i: nat, name: (NodeType, nat) -> string)
    requires Layout(nodes, x, w, name) && i < |nodes|
    ensures nodes[i].vmId == (if nodes[i].nodeType == Master then x else w) + Rank(nodes, i)
    ensures nodes[i].name == name(nodes[i].nodeType, Rank(nodes, i))
    ensures Rank(nodes, i) < |OfType(nodes, nodes[i].nodeType)|
  {
    RankFinds(nodes, i);
  }

  /** A collision: as many masters as there is room below the workers, and one worker. */
  lemma MasterMeetsWorker(nodes: seq<Draft>, x: int, w: int, name: (NodeType, nat) -> string)
    requires Layout(nodes, x, w, name) && OfType(nodes, Worker) != []
    requires x <= w < x + |OfType(nodes, Master)|
    ensures !DistinctIds(nodes)
  {
    var master, worker := OfType(nodes, Master)[w - x], OfType(nodes, Worker)[0];
    OfTypeHas(nodes, Master, w - x);
    OfTypeHas(nodes, Worker, 0);
    var i :| 0 <= i < |nodes| && nodes[i] == master;
    var j :| 0 <= j < |nodes| && nodes[j] == worker;
    assert nodes[i].vmId == nodes[j].vmId && i != j;
    assert i < j || j < i;
  }

  /** Ids are distinct exactly as long as the masters fit below the first worker. */
  lemma DistinctIff(nodes: seq<Draft>, x: int, w: int, name: (NodeType, nat) -> string)
    requires Layout(nodes, x, w, name) && x <= w
    ensures DistinctIds(nodes) <==> OfType(nodes, Worker) == [] || |OfType(nodes, Master)| <= w - x
  {
    if OfType(nodes, Worker) == [] || |OfType(nodes, Master)| <= w - x {
      forall i, j | 0 <= i < j < |nodes| ensures nodes[i].vmId != nodes[j].vmId {
        NumberOf(nodes, x, w, i, name);
        NumberOf(nodes, x, w, j, name);
        if nodes[i].nodeType == nodes[j].nodeType { RankGrows(nodes, i, j); }
      }
    } else {
      MasterMeetsWorker(nodes, x, w, name);
    }
  }

  /** In a run of additions of any length from one master at `x`, all ids are distinct if and only
      if there is no worker, or there are no more masters than five, or than were there when the
      first worker was added. */
  lemma AddOnlyDistinctIff(first: Draft, types: seq<NodeType>, d: Draft)
    requires first.nodeType == Master && first.name == "master-1"
    ensures DistinctIds(AddAll([first], types, d))
       <==> CountOf(types, Worker) == 0 || 1 + CountOf(types, Master) <= Max(5, 1 + BeforeFirstWorker(types))
  {
    AddOnlyLayout(first, types, d);
    AddedDistinctIff(AddAll([first], types, d), first, types, Numeral);
  }

  lemma AddedDistinctIff(nodes: seq<Draft>, first: Draft, types: seq<NodeType>, name: (NodeType, nat) -> string)
    requires AddedUp(nodes, first, types, name)
    ensures DistinctIds(nodes)
       <==> CountOf(types, Worker) == 0 || 1 + CountOf(types, Master) <= Max(5, 1 + BeforeFirstWorker(types))
  {
    DistinctIff(nodes, first.vmId, WorkerBase(first.vmId, types), name);
  }

  lemma NumeralsDiffer(t: NodeType, i: nat, u: NodeType, j: nat)
    requires t != u || i != j
    ensures Numeral(t, i) != Numeral(u, j)
  {
    if t == u {
      if Numeral(t, i) == Numeral(u, j) { NumberedDiffer(Label(t) + "-", i + 1, j + 1); }
    } else {
      assert Numeral(t, i)[0] == Label(t)[0] && Numeral(u, j)[0] == Label(u)[0];
    }
  }

  /** Names stay distinct in every such run, whether the ids do or not. */
  lemma AddOnlyNamesDistinct(first: Draft, types: seq<NodeType>, d: Draft)
    requires first.nodeType == Master && first.name == "master-1"
    ensures DistinctNames(AddAll([first], types, d))
  {
    AddOnlyLayout(first, types, d);
    var nodes, x, w := AddAll([first], types, d), first.vmId, WorkerBase(first.vmId, types);
    forall i, j | 0 <= i < j < |nodes| ensures nodes[i].name != nodes[j].name {
      NumberOf(nodes, x, w, i, Numeral);
      NumberOf(nodes, x, w, j, Numeral);
      if nodes[i].nodeType == nodes[j].nodeType { RankGrows(nodes, i, j); }
      NumeralsDiffer(nodes[i].nodeType, Rank(nodes, i), nodes[j].nodeType, Rank(nodes, j));
    }
  }

  /** Allocator and generator together: if the first id is the allocator's answer for the used ids,
      then up to five masters and six workers get distinct ids within ten of it, none of them used. */
  lemma AllocatedIdsAreFree(used: seq<nat>, first: Draft, types: seq<NodeType>, d: Draft)
    requires first.nodeType == Master && first.name == "master-1"
    requires first.vmId >= 0 && Allocator.IsAnswer(used, Ok(first.vmId))
    requires 1 + CountOf(types, Master) <= 5 && CountOf(types, Worker) <= 6
    ensures var nodes := AddAll([first], types, d);
      && DistinctIds(nodes)
      && (forall n :: n in nodes ==> first.vmId <= n.vmId <= first.vmId + 10)
      && (forall n :: n in nodes ==> n.vmId !in used)
  {
    AddOnlyLayout(first, types, d);
    AddOnlyDistinctIff(first, types, d);
    FewMasters(types);
    var nodes, x, w := AddAll([first], types, d), first.vmId, WorkerBase(first.vmId, types);
    forall n | n in nodes ensures x <= n.vmId <= x + 10 && n.vmId !in used {
      var i :| 0 <= i < |nodes| && nodes[i] == n;
      NumberOf(nodes, x, w, i, Numeral);
      assert !Allocator.Blocked(used, x);
    }
  }

  lemma {:induction false} FewMasters(types: seq<NodeType>)
    ensures Worker in types ==> BeforeFirstWorker(types) <= CountOf(types, Master)
  {
    if types != [] {
      assert types == [types[0]] + types[1..];
      FewMasters(types[1..]);
    }
  }
}
