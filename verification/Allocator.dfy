/** The choice of the first VM id of a new cluster (core/src/generator.rs): the first multiple of
    ten from 100 on with no used id on it or on the ten ids after it. */
module Allocator {
  import opened Model
  import StableSort

  const FIRST := 100
  const STEP := 10
  const LIMIT := 999_999_999
  /** How many starting points there are: 100, 110, …, 999_999_990. */
  const SLOTS := 99_999_990

  function Slot(k: nat): nat {
    FIRST + STEP * k
  }

  predicate Blocked(used: seq<nat>, x: nat) {
    exists i :: 0 <= i < |used| && x <= used[i] <= x + 10
  }

  /** The least slot that is not blocked, or an error if there is none. */
  ghost predicate IsAnswer(used: seq<nat>, r: Result<nat, string>) {
    match r
    case Ok(x) => exists k :: 0 <= k < SLOTS && x == Slot(k) && !Blocked(used, x) && forall j :: 0 <= j < k ==> Blocked(used, Slot(j))
    case Err(_) => forall j :: 0 <= j < SLOTS ==> Blocked(used, Slot(j))
  }

  method FindEmptySlotForVmIds(used: seq<nat>) returns (r: Result<nat, string>)
    ensures IsAnswer(used, r)
  {
    var x := FIRST;
    ghost var k := 0;
    while x < LIMIT
      invariant x == Slot(k) && k <= SLOTS
      invariant forall j :: 0 <= j < k ==> Blocked(used, Slot(j))
      decreases SLOTS - k
    {
      if !Blocked(used, x) { return Ok(x); }
      x := x + STEP;
      k := k + 1;
    }
    r := Err("Cannot find free slot");
  }

  /** The ids of all VMs and all containers, sorted, as the generator collects them. */
  method GetDefaultStartVmId(vms: Result<seq<nat>, string>, containers: Result<seq<nat>, string>) returns (r: Result<nat, string>)
    ensures r.Ok? ==> vms.Ok? && containers.Ok?
    ensures vms.Ok? && containers.Ok? ==> IsAnswer(vms.value + containers.value, r)
    ensures r.Ok? ==> forall id :: id in vms.value + containers.value ==> !(r.value <= id <= r.value + 10)
    ensures r.Ok? ==> r.value <= 100 + 20 * (|vms.value| + |containers.value|)
    ensures r.Err? && vms.Ok? && containers.Ok? ==> 2 * (|vms.value| + |containers.value|) >= SLOTS
  {
    if vms.Err? { return Err(vms.error); }
    if containers.Err? { return Err(containers.error); }
    var all := vms.value + containers.value;
    var used := StableSort.SortBy(all, (id: nat) => id);
    StableSort.SortByIsStable(all, (id: nat) => id);
    r := FindEmptySlotForVmIds(used);
    SameAnswer(used, all, r);
    forall id | id in all && r.Ok? ensures !(r.value <= id <= r.value + 10) {
      var i :| 0 <= i < |all| && all[i] == id;
      assert !Blocked(all, r.value);
    }
    AnswerBound(all, r);
  }

  /** What is blocked does not depend on the order of the ids. */
  lemma SameBlocked(a: seq<nat>, b: seq<nat>, x: nat)
    requires multiset(a) == multiset(b) && Blocked(a, x)
    ensures Blocked(b, x)
  {
    var i :| 0 <= i < |a| && x <= a[i] <= x + 10;
    assert a[i] in multiset(b);
  }

  lemma SameAnswer(a: seq<nat>, b: seq<nat>, r: Result<nat, string>)
    requires multiset(a) == multiset(b) && IsAnswer(a, r)
    ensures IsAnswer(b, r)
  {
    forall x: nat ensures Blocked(a, x) <==> Blocked(b, x) {
      if Blocked(a, x) { SameBlocked(a, b, x); }
      if Blocked(b, x) { SameBlocked(b, a, x); }
    }
    match r
    case Ok(x) =>
      var k :| 0 <= k < SLOTS && x == Slot(k) && !Blocked(a, x) && forall j :: 0 <= j < k ==> Blocked(a, Slot(j));
      assert !Blocked(b, x);
    case Err(_) =>
  }

  // ------------------------------------------------------------ how far the search can go

  /** The first `count` slots that are blocked, by number. */
  function BlockedSlots(used: seq<nat>, count: nat): set<int> {
    set k: int | 0 <= k < count && Blocked(used, Slot(k))
  }

  /** One id blocks at most two slots. */
  lemma OneBlocksTwo(id: nat, k: nat)
    requires Blocked([id], Slot(k))
    ensures k == (id - FIRST) / STEP || k == (id - FIRST) / STEP - 1
  {
  }

  lemma {:induction false} BlockedSlotsBound(used: seq<nat>, count: nat)
    ensures |BlockedSlots(used, count)| <= 2 * |used|
  {
    if used == [] {
      assert BlockedSlots(used, count) == {};
    } else {
      var rest, id := used[1..], used[0];
      var two := {(id - FIRST) / STEP, (id - FIRST) / STEP - 1};
      BlockedSlotsBound(rest, count);
      forall k | k in BlockedSlots(used, count) ensures k in two + BlockedSlots(rest, count) {
        var i :| 0 <= i < |used| && Slot(k) <= used[i] <= Slot(k) + 10;
        if i == 0 {
          assert [id][0] == id && Blocked([id], Slot(k));
          OneBlocksTwo(id, k);
        } else {
          assert rest[i - 1] == used[i];
        }
      }
      var both, some := two + BlockedSlots(rest, count), BlockedSlots(used, count);
      assert both == some + (both - some);
      assert |some| <= |both| <= |two| + |BlockedSlots(rest, count)|;
    }
  }

  lemma {:induction false} AllBlocked(used: seq<nat>, count: nat)
    requires forall j :: 0 <= j < count ==> Blocked(used, Slot(j))
    ensures |BlockedSlots(used, count)| == count
  {
    if count > 0 {
      AllBlocked(used, count - 1);
      assert BlockedSlots(used, count) == BlockedSlots(used, count - 1) + {count - 1};
    }
  }

  /** A run of blocked slots needs at least half as many used ids. */
  lemma RunOfBlocked(used: seq<nat>, count: nat)
    requires forall j :: 0 <= j < count ==> Blocked(used, Slot(j))
    ensures count <= 2 * |used|
  {
    BlockedSlotsBound(used, count);
    AllBlocked(used, count);
  }

  /** With n used ids the result is at most 100 + 20n, and the search fails only if 2n reaches the
      number of slots. */
  lemma AnswerBound(used: seq<nat>, r: Result<nat, string>)
    requires IsAnswer(used, r)
    ensures if r.Ok? then r.value <= 100 + 20 * |used| else 2 * |used| >= SLOTS
  {
    match r
    case Ok(x) =>
      var k :| 0 <= k < SLOTS && x == Slot(k) && !Blocked(used, x) && forall j :: 0 <= j < k ==> Blocked(used, Slot(j));
      RunOfBlocked(used, k);
    case Err(_) => RunOfBlocked(used, SLOTS);
  }

  /** The ids 110, 130, 150, …: each blocks two slots of its own. */
  function Spread(n: nat): seq<nat> {
    seq(n, i => 110 + 20 * i)
  }

  lemma SpreadBlocks(n: nat, j: nat)
    ensures Blocked(Spread(n), Slot(j)) <==> j < 2 * n
  {
    if j < 2 * n {
      assert Spread(n)[j / 2] == 110 + 20 * (j / 2);
    }
  }

  /** Both bounds are reached, for every n that fits, and for failure. */
  lemma BoundIsTight(n: nat, r: Result<nat, string>)
    requires IsAnswer(Spread(n), r)
    ensures 2 * n < SLOTS ==> r == Ok(100 + 20 * n)
    ensures 2 * n >= SLOTS ==> r.Err?
  {
    match r
    case Ok(x) =>
      var k :| 0 <= k < SLOTS && x == Slot(k) && !Blocked(Spread(n), x) && forall j :: 0 <= j < k ==> Blocked(Spread(n), Slot(j));
      SpreadBlocks(n, k);
      if k > 2 * n {
        assert Blocked(Spread(n), Slot(2 * n));
        SpreadBlocks(n, 2 * n);
      }
    case Err(_) =>
      if 2 * n < SLOTS {
        assert Blocked(Spread(n), Slot(2 * n));
        SpreadBlocks(n, 2 * n);
      }
  }
}
