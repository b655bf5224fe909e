/** Sublists: what is left of a list when elements are dropped from it. */
module Picks {

  ghost predicate Increasing(at: seq<nat>, bound: nat) {
    (forall k :: 0 <= k < |at| ==> at[k] < bound) && forall k, l :: 0 <= k < l < |at| ==> at[k] < at[l]
  }

  /** `after` is `before` at the places `at`, which are those where `keep` holds, in their order. */
  ghost predicate Picked<T>(before: seq<T>, after: seq<T>, keep: T -> bool, at: seq<nat>) {
    && Increasing(at, |before|) && |after| == |at|
    && (forall k :: 0 <= k < |at| ==> after[k] == before[at[k]])
    && forall i :: 0 <= i < |before| ==> (keep(before[i]) <==> i in at)
  }

  /** An element that is not kept, in front of a pick. */
  lemma PickSkip<T>(x: T, before: seq<T>, after: seq<T>, keep: T -> bool, at: seq<nat>)
    requires Picked(before, after, keep, at) && !keep(x)
    ensures Picked([x] + before, after, keep, Shifted(at))
  {
    var all := [x] + before;
    forall i | 0 <= i < |all| ensures keep(all[i]) <==> i in Shifted(at) {
      if i > 0 { ShiftedHas(at, i); assert all[i] == before[i - 1]; }
    }
    forall k | 0 <= k < |at| ensures after[k] == all[Shifted(at)[k]] { assert all[at[k] + 1] == before[at[k]]; }
  }

  /** An element that is kept. */
  lemma PickMore<T>(x: T, before: seq<T>, after: seq<T>, keep: T -> bool, at: seq<nat>)
    requires Picked(before, after, keep, at) && keep(x)
    ensures Picked([x] + before, [x] + after, keep, [0] + Shifted(at))
  {
    var all, at' := [x] + before, [0] + Shifted(at);
    forall i | 0 <= i < |all| ensures keep(all[i]) <==> i in at' {
      if i > 0 { ShiftedHas(at, i); assert all[i] == before[i - 1]; }
    }
    forall k | 0 <= k < |at'| ensures ([x] + after)[k] == all[at'[k]] {
      if k > 0 { assert all[at[k - 1] + 1] == before[at[k - 1]]; }
    }
  }

  lemma PickNext<T>(before: seq<T>, after: seq<T>, keep: T -> bool, at: seq<nat>) returns (at': seq<nat>)
    requires before != [] && Picked(before[1..], after, keep, at)
    ensures Picked(before, (if keep(before[0]) then [before[0]] else []) + after, keep, at')
  {
    assert before == [before[0]] + before[1..];
    if keep(before[0]) {
      PickMore(before[0], before[1..], after, keep, at);
      at' := [0] + Shifted(at);
    } else {
      PickSkip(before[0], before[1..], after, keep, at);
      assert [] + after == after;
      at' := Shifted(at);
    }
  }

  function Shifted(at: seq<nat>): seq<nat> {
    seq(|at|, k requires 0 <= k < |at| => at[k] + 1)
  }

  lemma ShiftedHas(at: seq<nat>, i: nat)
    requires i > 0
    ensures i in Shifted(at) <==> i - 1 in at
  {
    if i - 1 in at {
      var k :| 0 <= k < |at| && at[k] == i - 1;
      assert Shifted(at)[k] == i;
    }
  }

  /** One more element at the end. */
  lemma PickLast<T>(before: seq<T>, after: seq<T>, keep: T -> bool, at: seq<nat>, x: T) returns (at': seq<nat>)
    requires Picked(before, after, keep, at)
    ensures Picked(before + [x], after + if keep(x) then [x] else [], keep, at')
  {
    var all := before + [x];
    at' := at + if keep(x) then [|before|] else [];
    forall i | 0 <= i < |all| ensures keep(all[i]) <==> i in at' {
      if i < |before| { assert all[i] == before[i]; }
    }
  }
}
