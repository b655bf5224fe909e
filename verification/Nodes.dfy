/** The next node of a cluster under construction (web/src-web/src/utils/nodes.ts). */
module Nodes {
  import opened Model
  import opened Decimal
  import StableSort

  /** A node as the creator page holds it; ids are JavaScript numbers. */
  datatype Draft = Draft(
    vmId: int,
    name: string,
    cores: nat,
    memory: nat,
    ipAddress: string,
    storagePool: string,
    nodeType: NodeType)

  function Stepped(number: string, step: int): string {
    PrintNumber(match Read(number) case Some(i) => Some(i + step) case None => None)
  }

  /** `createNextNodeDefinition` */
  function Next(node: Draft, step: int): Draft {
    var dash, dot := LastIndexOf(node.name, '-'), LastIndexOf(node.ipAddress, '.');
    var namePrefix := if dash < 0 then "" else node.name[..dash];
    node.(
      vmId := node.vmId + step,
      name := namePrefix + "-" + Stepped(node.name[dash + 1..], step),
      ipAddress := node.ipAddress[..dot + 1] + Stepped(node.ipAddress[dot + 1..], step))
  }

  lemma NextId(node: Draft, step: int)
    ensures Next(node, step).vmId == node.vmId + step
  {
  }

  function Iterate<T>(f: T -> T, x: T, k: nat): T {
    if k == 0 then x else f(Iterate(f, x, k - 1))
  }

  /** What one application advances, k applications advance k times. */
  lemma {:induction false} IterateAdvances<T(!new)>(f: T -> T, x: T, k: nat, at: (T, nat) -> bool)
    requires at(x, 0) && forall y, i: nat :: at(y, i) ==> at(f(y), i + 1)
    ensures at(Iterate(f, x, k), k)
  {
    if k > 0 { IterateAdvances(f, x, k - 1, at); }
  }

  const Successor: Draft -> Draft := (node: Draft) => Next(node, 1)

  lemma NextName(node: Draft, prefix: string, n: nat, step: int)
    requires node.name == prefix + "-" + Print(n)
    ensures Next(node, step).name == prefix + "-" + Print(n + step)
  {
    DigitsOnly(n, '-');
    SplitAtLast(prefix, '-', Print(n));
    assert node.name[..|prefix|] == prefix && node.name[|prefix| + 1..] == Print(n);
    ReadPrint(n);
  }

  lemma NextAddress(node: Draft, net: string, d: int, step: int)
    requires node.ipAddress == net + "." + Print(d)
    ensures Next(node, step).ipAddress == net + "." + Print(d + step)
  {
    DigitsOnly(if d < 0 then -d else d, '.');
    SplitAtLast(net, '.', Print(d));
    assert node.ipAddress[..|net| + 1] == net + "." && node.ipAddress[|net| + 1..] == Print(d);
    ReadPrint(d);
  }

  /** The node k steps further on. */
  function Ahead(node: Draft, prefix: string, n: nat, net: string, d: int, k: nat): Draft {
    node.(vmId := node.vmId + k, name := prefix + "-" + Print(n + k), ipAddress := net + "." + Print(d + k))
  }

  lemma OneAhead(node: Draft, prefix: string, n: nat, net: string, d: int, k: nat)
    ensures Successor(Ahead(node, prefix, n, net, d, k)) == Ahead(node, prefix, n, net, d, k + 1)
  {
    var y := Ahead(node, prefix, n, net, d, k);
    NextName(y, prefix, n + k, 1);
    NextAddress(y, net, d + k, 1);
  }

  /** k steps from `p-n` at `a.b.c.d` lead to `p-(n+k)` at `a.b.c.(d+k)`, with the id raised by k and
      the rest unchanged. */
  lemma StepsAddUp(node: Draft, prefix: string, n: nat, net: string, d: int, k: nat)
    requires node.name == prefix + "-" + Print(n) && node.ipAddress == net + "." + Print(d)
    ensures Iterate(Successor, node, k) == Ahead(node, prefix, n, net, d, k)
  {
    var at := (y: Draft, i: nat) => y == Ahead(node, prefix, n, net, d, i);
    forall y, i: nat | at(y, i) ensures at(Successor(y), i + 1) { OneAhead(node, prefix, n, net, d, i); }
    IterateAdvances(Successor, node, k, at);
  }

  lemma NumberedDiffer(prefix: string, i: int, j: int)
    requires prefix + Print(i) == prefix + Print(j)
    ensures i == j
  {
    assert (prefix + Print(i))[|prefix|..] == Print(i);
    assert (prefix + Print(j))[|prefix|..] == Print(j);
    PrintInjective(i, j);
  }

  /** No two of the stepped nodes share a name or an address. */
  lemma StepsAreDistinct(node: Draft, prefix: string, n: nat, net: string, d: int, j: nat, k: nat)
    requires node.name == prefix + "-" + Print(n) && node.ipAddress == net + "." + Print(d) && j != k
    ensures Iterate(Successor, node, j).name != Iterate(Successor, node, k).name
    ensures Iterate(Successor, node, j).ipAddress != Iterate(Successor, node, k).ipAddress
  {
    StepsAddUp(node, prefix, n, net, d, j);
    StepsAddUp(node, prefix, n, net, d, k);
    AheadDiffers(node, prefix, n, net, d, j, k);
  }

  lemma AheadDiffers(node: Draft, prefix: string, n: nat, net: string, d: int, j: nat, k: nat)
    requires j != k
    ensures Ahead(node, prefix, n, net, d, j).name != Ahead(node, prefix, n, net, d, k).name
    ensures Ahead(node, prefix, n, net, d, j).ipAddress != Ahead(node, prefix, n, net, d, k).ipAddress
  {
    if Ahead(node, prefix, n, net, d, j).name == Ahead(node, prefix, n, net, d, k).name {
      NumberedDiffer(prefix + "-", n + j, n + k);
    }
    if Ahead(node, prefix, n, net, d, j).ipAddress == Ahead(node, prefix, n, net, d, k).ipAddress {
      NumberedDiffer(net + ".", d + j, d + k);
    }
  }

  // ------------------------------------------------------------ generateNode

  function First<T>(s: seq<T>, want: T -> bool): (r: Option<T>)
    ensures r.Some? ==> r.value in s && want(r.value)
  {
    if s == [] then None else if want(s[0]) then Some(s[0]) else First(s[1..], want)
  }

  /** The first of the wanted elements with the least key. */
  function Best<T>(s: seq<T>, want: T -> bool, key: T -> int): Option<T> {
    if s == [] then None
    else
      var rest := Best(s[1..], want, key);
      if want(s[0]) && (rest.None? || key(s[0]) <= key(rest.value)) then Some(s[0]) else rest
  }

  lemma {:induction false} FirstOfInsert<T>(x: T, sorted: seq<T>, want: T -> bool, key: T -> int)
    requires StableSort.Ordered(sorted, key)
    ensures First(StableSort.Insert(x, sorted, key), want)
         == if want(x) && (First(sorted, want).None? || key(x) <= key(First(sorted, want).value)) then Some(x)
            else First(sorted, want)
  {
    if sorted == [] || key(x) <= key(sorted[0]) {
      assert ([x] + sorted)[1..] == sorted;
    } else {
      var rest := sorted[1..];
      assert forall i :: 0 <= i < |rest| ==> rest[i] == sorted[i + 1];
      FirstOfInsert(x, rest, want, key);
      assert StableSort.Insert(x, sorted, key)[1..] == StableSort.Insert(x, rest, key);
    }
  }

  /** Sorting and then taking the first wanted element finds the best one. */
  lemma {:induction false} FirstOfSorted<T>(s: seq<T>, want: T -> bool, key: T -> int)
    ensures First(StableSort.SortBy(s, key), want) == Best(s, want, key)
  {
    if s != [] {
      FirstOfSorted(s[1..], want, key);
      StableSort.SortByIsStable(s[1..], key);
      FirstOfInsert(s[0], StableSort.SortBy(s[1..], key), want, key);
    }
  }

  const Descending: Draft -> int := (n: Draft) => -n.vmId
  const Ascending: Draft -> int := (n: Draft) => n.vmId
  const Anything: Draft -> bool := (n: Draft) => true

  function Typed(t: NodeType): Draft -> bool {
    (n: Draft) => n.nodeType == t
  }

  lemma {:induction false} SameKeys(s: seq<Draft>, k: int)
    ensures StableSort.WithKey(s, Ascending, k) == StableSort.WithKey(s, Descending, -k)
  {
    if s != [] { SameKeys(s[1..], k); }
  }

  /** Sorting twice in place: the second sort makes the first one unobservable. */
  lemma SortedTwice(s: seq<Draft>)
    ensures StableSort.SortBy(StableSort.SortBy(s, Descending), Ascending) == StableSort.SortBy(s, Ascending)
  {
    var down := StableSort.SortBy(s, Descending);
    StableSort.SortByIsStable(s, Descending);
    StableSort.SortByIsStable(s, Ascending);
    StableSort.SortByIsStable(down, Ascending);
    forall k ensures StableSort.WithKey(down, Ascending, k) == StableSort.WithKey(s, Ascending, k) {
      SameKeys(down, k);
      SameKeys(s, k);
    }
    StableSort.StableSortIsUnique(StableSort.SortBy(down, Ascending), StableSort.SortBy(s, Ascending), Ascending);
  }

  function Label(t: NodeType): string {
    match t
    case Master => "master"
    case Worker => "worker"
  }

  function Max(a: int, b: int): int {
    if a > b then a else b
  }

  /** The node after the one of its type with the highest id; failing that, five ids below or five
      or more above the lowest node of the other type; failing that, the default. */
  function Generated(nodes: seq<Draft>, t: NodeType, defaultMasterNode: Draft): Draft {
    var latest := Best(nodes, Typed(t), Descending);
    if latest.Some? then Next(latest.value, 1)
    else
      var any := Best(nodes, Anything, Ascending);
      if any.None? then defaultMasterNode
      else
        Next(any.value, if t == Worker then Max(|nodes|, 5) else -5).(name := Label(t) + "-1", nodeType := t)
  }

  method GenerateNode(iNodes: seq<Draft>, t: NodeType, defaultMasterNode: Draft) returns (r: Draft)
    ensures r == Generated(iNodes, t, defaultMasterNode)
  {
    var nodes := iNodes;
    nodes := StableSort.SortBy(nodes, Descending);
    var latest := First(nodes, Typed(t));
    FirstOfSorted(iNodes, Typed(t), Descending);
    if latest.None? {
      FirstOfSorted(iNodes, Anything, Ascending);
      SortedTwice(iNodes);
      if |nodes| > 0 {
        nodes := StableSort.SortBy(nodes, Ascending);
        var base := nodes[0];
        r := Next(base, if t == Worker then (if |nodes| > 5 then |nodes| else 5) else -5);
        r := r.(name := Label(t) + "-1");
        r := r.(nodeType := t);
      } else {
        r := defaultMasterNode;
      }
    } else {
      r := Next(latest.value, 1);
    }
  }
}
