/** Edits of a stored cluster's node list, and what every edit leaves alone: the identity of a
    node is the part of it that no operation of makoon ever rewrites. */
module Records {
  import opened Model

  /** A node without the attributes that requests may change. */
  function Ident(n: ClusterNode): ClusterNode {
    n.(cores := 0, memory := 0, lock := None)
  }

  function Idents(nodes: seq<ClusterNode>): set<ClusterNode> {
    set n | n in nodes :: Ident(n)
  }

  /** Where the first node with the name stands; the length when there is none. */
  function FirstIndex(nodes: seq<ClusterNode>, name: string): (r: nat)
    ensures r <= |nodes|
    ensures r < |nodes| ==> nodes[r].name == name
    ensures forall j :: 0 <= j < r ==> nodes[j].name != name
  {
    if nodes == [] || nodes[0].name == name then 0 else 1 + FirstIndex(nodes[1..], name)
  }

  /** Relocks the first node with the name (`iter_mut().find`). */
  function LockFirst(nodes: seq<ClusterNode>, name: string, lock: Option<Lock>): seq<ClusterNode> {
    var i := FirstIndex(nodes, name);
    if i < |nodes| then nodes[i := nodes[i].(lock := lock)] else nodes
  }

  /** Locks every node with the name (`for node in iter_mut()`). */
  function LockAll(nodes: seq<ClusterNode>, name: string, lock: Lock): (r: seq<ClusterNode>)
    ensures |r| == |nodes|
  {
    seq(|nodes|, i requires 0 <= i < |nodes| =>
      if nodes[i].name == name then nodes[i].(lock := Some(lock)) else nodes[i])
  }

  function Resize(nodes: seq<ClusterNode>, name: string, cores: nat, memory: nat): (r: seq<ClusterNode>)
    ensures |r| == |nodes|
  {
    seq(|nodes|, i requires 0 <= i < |nodes| =>
      if nodes[i].name == name then nodes[i].(cores := cores, memory := memory) else nodes[i])
  }

  /** Drops every node with the name (`retain_mut`). */
  function Without(nodes: seq<ClusterNode>, name: string): (r: seq<ClusterNode>)
    ensures forall n :: n in r <==> n in nodes && n.name != name
  {
    if nodes == [] then []
    else
      assert nodes == [nodes[0]] + nodes[1..];
      if nodes[0].name == name then Without(nodes[1..], name)
      else [nodes[0]] + Without(nodes[1..], name)
  }

  // ------------------------------------------------------------ what `find` finds

  /** The first element that is wanted. */
  ghost predicate FirstWith(nodes: seq<ClusterNode>, want: ClusterNode -> bool, r: Option<ClusterNode>) {
    match r
    case None => forall n :: n in nodes ==> !want(n)
    case Some(n) => exists i :: 0 <= i < |nodes| && nodes[i] == n && want(n) && forall j :: 0 <= j < i ==> !want(nodes[j])
  }

  lemma FirstHere(nodes: seq<ClusterNode>, want: ClusterNode -> bool)
    requires nodes != [] && want(nodes[0])
    ensures FirstWith(nodes, want, Some(nodes[0]))
  {
  }

  lemma FirstLater(nodes: seq<ClusterNode>, want: ClusterNode -> bool, r: Option<ClusterNode>)
    requires nodes != [] && !want(nodes[0]) && FirstWith(nodes[1..], want, r)
    ensures FirstWith(nodes, want, r)
  {
    assert nodes == [nodes[0]] + nodes[1..];
    if r.Some? {
      var i :| 0 <= i < |nodes| - 1 && nodes[1..][i] == r.value && forall j :: 0 <= j < i ==> !want(nodes[1..][j]);
      forall j | 0 <= j < i + 1 ensures !want(nodes[j]) { if j > 0 { assert nodes[j] == nodes[1..][j - 1]; } }
      assert nodes[i + 1] == r.value;
    }
  }

  function NameIs(name: string): ClusterNode -> bool {
    (n: ClusterNode) => n.name == name
  }

  function IsOtherMaster(name: string): ClusterNode -> bool {
    (n: ClusterNode) => n.nodeType == Master && n.name != name
  }

  const IsMaster: ClusterNode -> bool := (n: ClusterNode) => n.nodeType == Master

  lemma {:induction false} FindNodeFindsFirst(nodes: seq<ClusterNode>, name: string)
    ensures FirstWith(nodes, NameIs(name), FindNode(nodes, name))
  {
    if nodes != [] {
      if nodes[0].name == name {
        FirstHere(nodes, NameIs(name));
      } else {
        FindNodeFindsFirst(nodes[1..], name);
        FirstLater(nodes, NameIs(name), FindNode(nodes[1..], name));
      }
    }
  }

  lemma {:induction false} FindOtherMasterFindsFirst(nodes: seq<ClusterNode>, name: string)
    ensures FirstWith(nodes, IsOtherMaster(name), FindOtherMaster(nodes, name))
  {
    if nodes != [] {
      if nodes[0].nodeType == Master && nodes[0].name != name {
        FirstHere(nodes, IsOtherMaster(name));
      } else {
        FindOtherMasterFindsFirst(nodes[1..], name);
        FirstLater(nodes, IsOtherMaster(name), FindOtherMaster(nodes[1..], name));
      }
    }
  }

  lemma {:induction false} FindMasterFindsFirst(nodes: seq<ClusterNode>)
    ensures FirstWith(nodes, IsMaster, FindMaster(nodes))
  {
    if nodes != [] {
      if nodes[0].nodeType == Master {
        FirstHere(nodes, IsMaster);
      } else {
        FindMasterFindsFirst(nodes[1..]);
        FirstLater(nodes, IsMaster, FindMaster(nodes[1..]));
      }
    }
  }

  ghost predicate UniqueNamed(nodes: seq<ClusterNode>) {
    forall i, j :: 0 <= i < j < |nodes| ==> nodes[i].name != nodes[j].name
  }

  ghost predicate SameIdents(a: seq<ClusterNode>, b: seq<ClusterNode>) {
    |a| == |b| && forall i :: 0 <= i < |a| ==> Ident(a[i]) == Ident(b[i])
  }

  lemma SameIdentsSets(a: seq<ClusterNode>, b: seq<ClusterNode>)
    requires SameIdents(a, b)
    ensures Idents(a) == Idents(b)
  {
    forall n | n in a ensures Ident(n) in Idents(b) {
      var i :| 0 <= i < |a| && a[i] == n;
      assert b[i] in b;
    }
    forall n | n in b ensures Ident(n) in Idents(a) {
      var i :| 0 <= i < |b| && b[i] == n;
      assert a[i] in a;
    }
  }

  /** With unique names, no node called `name` holds another lock than the one just written. */
  lemma LockFirstUnique(nodes: seq<ClusterNode>, name: string, lock: Option<Lock>)
    requires UniqueNamed(nodes)
    ensures forall n :: n in LockFirst(nodes, name, lock) && n.name == name ==> n.lock == lock
    ensures forall n :: n in LockFirst(nodes, name, lock) && n.name != name ==> n in nodes
  {
    forall n | n in LockFirst(nodes, name, lock)
      ensures if n.name == name then n.lock == lock else n in nodes
    {
      var r := LockFirst(nodes, name, lock);
      var i :| 0 <= i < |r| && r[i] == n;
      assert nodes[i] in nodes;
    }
  }

  /** The relocked node is found where the old one was. */
  lemma {:induction false} LockFirstFinds(nodes: seq<ClusterNode>, name: string, lock: Option<Lock>)
    requires FindNode(nodes, name).Some?
    ensures FindNode(LockFirst(nodes, name, lock), name) == Some(FindNode(nodes, name).value.(lock := lock))
  {
    if nodes[0].name != name {
      LockFirstFinds(nodes[1..], name, lock);
      assert LockFirst(nodes, name, lock)[1..] == LockFirst(nodes[1..], name, lock);
    }
  }

  lemma EditsKeepIdents(nodes: seq<ClusterNode>, name: string, lock: Lock, opt: Option<Lock>, cores: nat, memory: nat)
    ensures SameIdents(LockAll(nodes, name, lock), nodes) && SameIdents(LockFirst(nodes, name, opt), nodes)
    ensures SameIdents(Resize(nodes, name, cores, memory), nodes)
    ensures Idents(LockAll(nodes, name, lock)) == Idents(nodes)
    ensures Idents(LockFirst(nodes, name, opt)) == Idents(nodes)
    ensures Idents(Resize(nodes, name, cores, memory)) == Idents(nodes)
  {
    SameIdentsSets(LockAll(nodes, name, lock), nodes);
    SameIdentsSets(LockFirst(nodes, name, opt), nodes);
    SameIdentsSets(Resize(nodes, name, cores, memory), nodes);
  }

  lemma IdentsAppend(nodes: seq<ClusterNode>, n: ClusterNode)
    ensures Idents(nodes + [n]) == Idents(nodes) + {Ident(n)}
  {
    assert forall x :: x in nodes + [n] <==> x in nodes || x == n;
  }

  /** Removing by name removes exactly the identities with that name. */
  lemma IdentsWithout(nodes: seq<ClusterNode>, name: string)
    ensures Idents(Without(nodes, name)) == set n | n in Idents(nodes) && n.name != name
  {
    forall n | n in nodes && n.name != name ensures Ident(n) in Idents(Without(nodes, name)) {
      assert n in Without(nodes, name);
    }
  }

  /** With unique names an identity is determined by its name. */
  lemma UniqueIdent(nodes: seq<ClusterNode>, a: ClusterNode, b: ClusterNode)
    requires UniqueNamed(nodes)
    requires a in Idents(nodes) && b in Idents(nodes) && a.name == b.name
    ensures a == b
  {
    var x :| x in nodes && Ident(x) == a;
    var y :| y in nodes && Ident(y) == b;
    var i :| 0 <= i < |nodes| && nodes[i] == x;
    var j :| 0 <= j < |nodes| && nodes[j] == y;
    assert i == j;
  }

  lemma SameIdentsUnique(a: seq<ClusterNode>, b: seq<ClusterNode>)
    requires SameIdents(a, b) && UniqueNamed(b)
    ensures UniqueNamed(a)
  {
    forall i, j | 0 <= i < j < |a| ensures a[i].name != a[j].name {
      assert Ident(a[i]) == Ident(b[i]) && Ident(a[j]) == Ident(b[j]);
    }
  }

  lemma {:induction false} WithoutUnique(nodes: seq<ClusterNode>, name: string)
    requires UniqueNamed(nodes)
    ensures UniqueNamed(Without(nodes, name))
  {
    if nodes != [] {
      var rest := nodes[1..];
      assert forall i :: 0 <= i < |rest| ==> rest[i] == nodes[i + 1];
      WithoutUnique(rest, name);
      var kept := Without(rest, name);
      forall j | 0 <= j < |kept| ensures kept[j].name != nodes[0].name {
        assert kept[j] in kept && kept[j] in rest;
        var i :| 0 <= i < |rest| && rest[i] == kept[j];
      }
    }
  }

  /** `after` still has every cluster of `before`, on the same host and with at least its nodes. */
  ghost predicate Extends(before: map<string, Cluster>, after: map<string, Cluster>) {
    forall c :: c in before ==>
      c in after && after[c].node == before[c].node && Idents(before[c].nodes) <= Idents(after[c].nodes)
  }
}
