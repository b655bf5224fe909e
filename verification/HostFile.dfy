/** The hosts file of a VM, as the commands of the core change it: `echo 'ip host' | tee -a` adds
    a line and `sed -i '/name/d'` deletes every line that has the name anywhere in it
    (core/src/dispatcher/usecase/common.rs, delete_node_from_cluster.rs). */
module HostFile {
  import opened Model
  import opened Records

  datatype Entry = Entry(host: string, ip: string)

  function Line(e: Entry): string {
    e.ip + " " + e.host
  }

  predicate OccursAt(text: string, pattern: string, i: nat) {
    i + |pattern| <= |text| && text[i..i + |pattern|] == pattern
  }

  predicate Contains(text: string, pattern: string) {
    exists i: nat :: i <= |text| && OccursAt(text, pattern, i)
  }

  function Scrub(hosts: set<Entry>, pattern: string): set<Entry> {
    set e | e in hosts && !Contains(Line(e), pattern)
  }

  function PairOf(cluster: string, n: ClusterNode): Entry {
    Entry(FullName(cluster, n.name), n.ipAddress)
  }

  /** The (cluster-node, ip) pairs of a set of nodes. */
  function Pairs(cluster: string, nodes: set<ClusterNode>): set<Entry> {
    set n | n in nodes :: PairOf(cluster, n)
  }

  /** What `collect::<HashMap<String, String>>()` makes of the pairs: a later node with the
      same name replaces the address of an earlier one. */
  function HostMap(cluster: string, nodes: seq<ClusterNode>): map<string, string> {
    if nodes == [] then map[]
    else
      var last := nodes[|nodes| - 1];
      HostMap(cluster, nodes[..|nodes| - 1])[FullName(cluster, last.name) := last.ipAddress]
  }

  function Entries(hosts: map<string, string>): set<Entry> {
    set h | h in hosts :: Entry(h, hosts[h])
  }

  /** Every entry of the hash map is the pair of some node, and no node's name is missing. */
  lemma {:induction false} HostMapSound(cluster: string, nodes: seq<ClusterNode>)
    ensures Entries(HostMap(cluster, nodes)) <= Pairs(cluster, Idents(nodes))
    ensures forall n :: n in nodes ==> FullName(cluster, n.name) in HostMap(cluster, nodes)
    ensures forall h :: h in HostMap(cluster, nodes) ==> exists n :: n in nodes && h == FullName(cluster, n.name)
  {
    if nodes != [] {
      var rest, last := nodes[..|nodes| - 1], nodes[|nodes| - 1];
      HostMapSound(cluster, rest);
      assert nodes == rest + [last];
      IdentsAppend(rest, last);
      assert PairOf(cluster, Ident(last)) in Pairs(cluster, Idents(nodes));
      var m := HostMap(cluster, nodes);
      forall h | h in m ensures Entry(h, m[h]) in Pairs(cluster, Idents(nodes))
        ensures exists n :: n in nodes && h == FullName(cluster, n.name)
      {
        if h == FullName(cluster, last.name) {
          assert last in nodes;
        } else {
          assert Entry(h, m[h]) in Entries(HostMap(cluster, rest));
          var n :| n in rest && h == FullName(cluster, n.name);
          assert n in nodes;
        }
      }
    }
  }

  lemma FullNameInjective(cluster: string, a: string, b: string)
    requires FullName(cluster, a) == FullName(cluster, b)
    ensures a == b
  {
    assert a == FullName(cluster, a)[|cluster| + 1..];
    assert b == FullName(cluster, b)[|cluster| + 1..];
  }

  /** With unique names the hash map holds exactly the pairs of the nodes. */
  lemma {:induction false} HostMapExact(cluster: string, nodes: seq<ClusterNode>)
    requires UniqueNamed(nodes)
    ensures Entries(HostMap(cluster, nodes)) == Pairs(cluster, Idents(nodes))
  {
    HostMapSound(cluster, nodes);
    var m := HostMap(cluster, nodes);
    forall e | e in Pairs(cluster, Idents(nodes)) ensures e in Entries(m) {
      var n :| n in nodes && e == PairOf(cluster, Ident(n));
      assert Entry(e.host, m[e.host]) in Entries(m);
      assert Entry(e.host, m[e.host]) in Pairs(cluster, Idents(nodes));
      var k :| k in Idents(nodes) && PairOf(cluster, k) == Entry(e.host, m[e.host]);
      FullNameInjective(cluster, n.name, k.name);
      UniqueIdent(nodes, Ident(n), k);
    }
  }

  /** Overlaying the map of the other nodes (`hosts.extend`) changes nothing: for a name that is
      not `name`, the last node so called is the same with and without the nodes called `name`. */
  lemma {:induction false} ExtendIsNoop(cluster: string, nodes: seq<ClusterNode>, name: string)
    ensures HostMap(cluster, nodes) + HostMap(cluster, Without(nodes, name)) == HostMap(cluster, nodes)
  {
    HostMapSound(cluster, Without(nodes, name));
    var m, part := HostMap(cluster, nodes), HostMap(cluster, Without(nodes, name));
    forall h | h in part ensures h in m && m[h] == part[h] {
      PartAgrees(cluster, nodes, name, h);
    }
  }

  lemma {:induction false} WithoutAppend(nodes: seq<ClusterNode>, last: ClusterNode, name: string)
    ensures Without(nodes + [last], name) == if last.name == name then Without(nodes, name) else Without(nodes, name) + [last]
  {
    if nodes == [] {
      assert [last][1..] == [];
    } else {
      var all, head := nodes + [last], if nodes[0].name == name then [] else [nodes[0]];
      WithoutAppend(nodes[1..], last, name);
      assert all[0] == nodes[0] && all[1..] == nodes[1..] + [last];
      assert Without(all, name) == head + Without(nodes[1..] + [last], name);
    }
  }

  lemma OtherName(cluster: string, nodes: seq<ClusterNode>, name: string, h: string)
    requires h in HostMap(cluster, Without(nodes, name))
    ensures h != FullName(cluster, name)
  {
    HostMapSound(cluster, Without(nodes, name));
    var n :| n in Without(nodes, name) && h == FullName(cluster, n.name);
    if h == FullName(cluster, name) { FullNameInjective(cluster, n.name, name); }
  }

  lemma {:induction false} PartAgrees(cluster: string, nodes: seq<ClusterNode>, name: string, h: string)
    requires h in HostMap(cluster, Without(nodes, name))
    ensures h in HostMap(cluster, nodes) && HostMap(cluster, nodes)[h] == HostMap(cluster, Without(nodes, name))[h]
  {
    if nodes != [] {
      var rest, last := nodes[..|nodes| - 1], nodes[|nodes| - 1];
      assert nodes == rest + [last];
      WithoutAppend(rest, last, name);
      var part := Without(nodes, name);
      if last.name == name {
        OtherName(cluster, nodes, name, h);
        PartAgrees(cluster, rest, name, h);
      } else {
        assert part[..|part| - 1] == Without(rest, name);
        if h != FullName(cluster, last.name) { PartAgrees(cluster, rest, name, h); }
      }
    }
  }

  /** The line of a node always contains the node's own full name. */
  lemma OwnLineContains(ip: string, host: string)
    ensures Contains(Line(Entry(host, ip)), host)
  {
    assert OccursAt(Line(Entry(host, ip)), host, |ip| + 1);
  }

  /** The lines of two different nodes never contain each other's full names. */
  ghost predicate SedSafe(cluster: string, nodes: set<ClusterNode>) {
    forall a, b :: a in nodes && b in nodes && a.name != b.name
      ==> !Contains(Line(PairOf(cluster, b)), FullName(cluster, a.name))
  }

  /** Deleting by substring removes exactly the departed node's line from a complete file if and
      only if no other node's line contains its full name. */
  lemma ScrubIsExactIff(cluster: string, nodes: set<ClusterNode>, gone: ClusterNode)
    requires gone in nodes
    ensures Scrub(Pairs(cluster, nodes), FullName(cluster, gone.name))
         == Pairs(cluster, set n | n in nodes && n.name != gone.name)
       <==> forall n :: n in nodes && n.name != gone.name
              ==> !Contains(Line(PairOf(cluster, n)), FullName(cluster, gone.name))
  {
    var full := FullName(cluster, gone.name);
    var rest := set n | n in nodes && n.name != gone.name;
    var left := Scrub(Pairs(cluster, nodes), full);
    if left == Pairs(cluster, rest) {
      forall n | n in nodes && n.name != gone.name ensures !Contains(Line(PairOf(cluster, n)), full) {
        assert n in rest && PairOf(cluster, n) in Pairs(cluster, rest);
      }
    }
    if forall n :: n in rest ==> !Contains(Line(PairOf(cluster, n)), full) {
      forall e ensures e in left <==> e in Pairs(cluster, rest) {
        if e in left {
          var n :| n in nodes && PairOf(cluster, n) == e;
          if n.name == gone.name { OwnLineContains(n.ipAddress, full); }
          assert n in rest;
        }
        if e in Pairs(cluster, rest) {
          var n :| n in rest && PairOf(cluster, n) == e;
          assert n in nodes && e in Pairs(cluster, nodes);
        }
      }
    }
  }

  /** The condition fails for names the node generator itself produces: deleting `master-1` from a
      cluster that also has a `master-10` wipes the entry of `master-10` as well. */
  lemma ScrubTakesLongerName(a: ClusterNode, b: ClusterNode)
    requires a.name == "master-1" && b.name == "master-10" && b.ipAddress == "10.0.0.19"
    ensures PairOf("k", b) in Pairs("k", {a, b})
    ensures PairOf("k", b) !in Scrub(Pairs("k", {a, b}), FullName("k", a.name))
  {
    var line := Line(PairOf("k", b));
    assert line == "10.0.0.19 k-master-10";
    assert FullName("k", a.name) == "k-master-1";
    assert OccursAt(line, "k-master-1", 10);
    assert b in {a, b};
  }
}
