/** Reading traces: what a run of a plan has asked for, how often, and what must come before what. */
module Trace {
  import opened Model
  import opened Machine
  import opened Plan

  // ------------------------------------------------------------ what was asked for

  function Filter(calls: seq<Call>, keep: Call -> bool): seq<Call> {
    if calls == [] then []
    else (if keep(calls[0]) then [calls[0]] else []) + Filter(calls[1..], keep)
  }

  lemma {:induction false} FilterAppend(a: seq<Call>, b: seq<Call>, keep: Call -> bool)
    ensures Filter(a + b, keep) == Filter(a, keep) + Filter(b, keep)
  {
    if a == [] {
      assert a + b == b;
    } else {
      var head := if keep(a[0]) then [a[0]] else [];
      FilterAppend(a[1..], b, keep);
      assert (a + b)[0] == a[0] && (a + b)[1..] == a[1..] + b;
      assert Filter(a + b, keep) == head + (Filter(a[1..], keep) + Filter(b, keep));
    }
  }

  lemma {:induction false} FilterNone(calls: seq<Call>, keep: Call -> bool)
    requires forall c :: c in calls ==> !keep(c)
    ensures Filter(calls, keep) == []
  {
    if calls != [] {
      assert calls == [calls[0]] + calls[1..];
      FilterNone(calls[1..], keep);
    }
  }

  lemma {:induction false} FilterHas(calls: seq<Call>, keep: Call -> bool, c: Call)
    ensures c in Filter(calls, keep) <==> c in calls && keep(c)
  {
    if calls != [] {
      assert calls == [calls[0]] + calls[1..];
      FilterHas(calls[1..], keep, c);
    }
  }

  lemma FilterOne(c: Call, keep: Call -> bool)
    ensures Filter([c], keep) == if keep(c) then [c] else []
  {
    assert [c][1..] == [];
  }

  /** The same call, refused. */
  function Refusal(c: Call): Call {
    match c
    case Create(n, _) => Call.Create(n, false)
    case Ssh(n, command, _) => Call.Ssh(n, command, false)
    case Start(n, _) => Call.Start(n, false)
    case Delete(n, _) => Call.Delete(n, false)
    case Shutdown(n, _) => Call.Shutdown(n, false)
    case _ => c
  }

  /** The first `j` of these calls were made, and perhaps the next was refused; no others. */
  ghost predicate UpTo(asked: seq<Call>, granted: seq<Call>, j: nat) {
    && j <= |granted|
    && (asked == granted[..j] || (j < |granted| && asked == granted[..j] + [Refusal(granted[j])]))
  }

  /** A task that succeeds has asked for exactly these calls, of those that count; one that fails, for
      some of them. */
  ghost predicate Asks(t: Task, keep: Call -> bool, granted: seq<Call>) {
    forall seg, ok :: Run(t, seg, ok) ==>
      if ok then Filter(seg, keep) == granted else exists j :: UpTo(Filter(seg, keep), granted, j)
  }

  /** The calls that count, of a plan that succeeds. */
  function Wanted(plan: seq<Task>, ask: Task -> seq<Call>): seq<Call> {
    if plan == [] then [] else ask(plan[0]) + Wanted(plan[1..], ask)
  }

  lemma {:induction false} WantedAppend(a: seq<Task>, b: seq<Task>, ask: Task -> seq<Call>)
    ensures Wanted(a + b, ask) == Wanted(a, ask) + Wanted(b, ask)
  {
    if a == [] {
      assert a + b == b;
    } else {
      WantedAppend(a[1..], b, ask);
      assert (a + b)[0] == a[0] && (a + b)[1..] == a[1..] + b;
      assert Wanted(a + b, ask) == ask(a[0]) + (Wanted(a[1..], ask) + Wanted(b, ask));
    }
  }

  lemma {:induction false} WantedNone(plan: seq<Task>, ask: Task -> seq<Call>)
    requires forall t :: t in plan ==> ask(t) == []
    ensures Wanted(plan, ask) == []
  {
    if plan != [] {
      assert plan == [plan[0]] + plan[1..];
      WantedNone(plan[1..], ask);
    }
  }

  /** If every round wants one call. */
  lemma {:induction false} WantedEach<T>(items: seq<T>, body: T -> seq<Task>, ask: Task -> seq<Call>, one: T -> Call)
    requires forall x :: x in items ==> Wanted(body(x), ask) == [one(x)]
    ensures Wanted(Each(items, body), ask) == seq(|items|, i requires 0 <= i < |items| => one(items[i]))
  {
    if items != [] {
      assert items == [items[0]] + items[1..];
      WantedEach(items[1..], body, ask, one);
      WantedAppend(body(items[0]), Each(items[1..], body), ask);
    }
  }

  /** A run of a plan has asked, in order, for the calls that the plan wants, up to the first refusal;
      for all of them if it succeeded; and for no others. */
  lemma PlanAsks(plan: seq<Task>, calls: seq<Call>, ok: bool, keep: Call -> bool, ask: Task -> seq<Call>) returns (j: nat)
    requires Ran(plan, calls, ok) && forall t :: t in plan ==> Asks(t, keep, ask(t))
    ensures UpTo(Filter(calls, keep), Wanted(plan, ask), j)
    ensures ok ==> Filter(calls, keep) == Wanted(plan, ask)
  {
    var segs :| Split(plan, segs, ok) && Flat(segs) == calls;
    j := SplitAsks(plan, segs, ok, keep, ask);
  }

  lemma {:induction false} SplitAsks(plan: seq<Task>, segs: seq<seq<Call>>, ok: bool, keep: Call -> bool, ask: Task -> seq<Call>) returns (j: nat)
    requires Split(plan, segs, ok) && forall t :: t in plan ==> Asks(t, keep, ask(t))
    ensures UpTo(Filter(Flat(segs), keep), Wanted(plan, ask), j)
    ensures ok ==> Filter(Flat(segs), keep) == Wanted(plan, ask)
    decreases |segs|
  {
    if segs == [] { return 0; }
    var t, rest := plan[0], plan[1..];
    assert t in plan && Asks(t, keep, ask(t)) && Run(t, segs[0], ok || |segs| > 1);
    FilterAppend(segs[0], Flat(segs[1..]), keep);
    if |segs| == 1 && !ok {
      assert segs[1..] == [];
      assert exists x :: UpTo(Filter(segs[0], keep), ask(t), x);
      j :| UpTo(Filter(segs[0], keep), ask(t), j);
      UpToLonger(Filter(segs[0], keep), ask(t), Wanted(rest, ask), j);
    } else {
      SplitRest(plan, segs, ok);
      forall x | x in rest ensures Asks(x, keep, ask(x)) { assert x in plan; }
      var k := SplitAsks(rest, segs[1..], ok, keep, ask);
      j := |ask(t)| + k;
      UpToLater(ask(t), Filter(Flat(segs[1..]), keep), Wanted(rest, ask), k);
    }
  }

  lemma SplitRest(plan: seq<Task>, segs: seq<seq<Call>>, ok: bool)
    requires Split(plan, segs, ok) && segs != [] && (|segs| > 1 || ok)
    ensures Split(plan[1..], segs[1..], ok)
  {
    var p, s := plan[1..], segs[1..];
    forall i | 0 <= i < |s| ensures Run(p[i], s[i], ok || i < |s| - 1) {
      assert Run(plan[i + 1], segs[i + 1], ok || i + 1 < |segs| - 1);
    }
  }

  lemma UpToLonger(asked: seq<Call>, granted: seq<Call>, more: seq<Call>, j: nat)
    requires UpTo(asked, granted, j)
    ensures UpTo(asked, granted + more, j)
  {
    assert (granted + more)[..j] == granted[..j];
  }

  lemma UpToLater(first: seq<Call>, asked: seq<Call>, granted: seq<Call>, k: nat)
    requires UpTo(asked, granted, k)
    ensures UpTo(first + asked, first + granted, |first| + k)
  {
    assert (first + granted)[..|first| + k] == first + granted[..k];
    if k < |granted| { assert first + granted[..k] + [Refusal(granted[k])] == first + (granted[..k] + [Refusal(granted[k])]); }
  }

  /** Every call of a run comes from a task of its plan. */
  lemma CallHasTask(plan: seq<Task>, calls: seq<Call>, ok: bool, c: Call) returns (t: Task, seg: seq<Call>, done: bool)
    requires Ran(plan, calls, ok) && c in calls
    ensures t in plan && Run(t, seg, done) && c in seg
  {
    var segs :| Split(plan, segs, ok) && Flat(segs) == calls;
    var j :| 0 <= j < |calls| && calls[j] == c;
    var i, x := CallOfTask(plan, segs, ok, j);
    t, seg, done := plan[i], segs[i], ok || i < |segs| - 1;
  }

  // ------------------------------------------------------------ what must come first

  /** Tasks of positive rank come in the order of their ranks. */
  ghost predicate Ordered(plan: seq<Task>, rank: Task -> nat) {
    forall i, j :: 0 <= i < j < |plan| && rank(plan[i]) > 0 && rank(plan[j]) > 0 ==> rank(plan[i]) <= rank(plan[j])
  }

  /** The positive ranks of the plan lie within these bounds. */
  ghost predicate Within(plan: seq<Task>, rank: Task -> nat, low: nat, high: nat) {
    forall t :: t in plan && rank(t) > 0 ==> low <= rank(t) <= high
  }

  lemma OneRank(plan: seq<Task>, rank: Task -> nat, k: nat)
    requires Within(plan, rank, k, k)
    ensures Ordered(plan, rank)
  {
  }

  lemma OrderedThen(p: seq<Task>, q: seq<Task>, rank: Task -> nat, low: nat, mid: nat, mid': nat, high: nat)
    requires Ordered(p, rank) && Within(p, rank, low, mid) && Ordered(q, rank) && Within(q, rank, mid', high)
    requires low <= mid <= mid' <= high
    ensures Ordered(p + q, rank) && Within(p + q, rank, low, high)
  {
    var all := p + q;
    forall i, j | 0 <= i < j < |all| && rank(all[i]) > 0 && rank(all[j]) > 0 ensures rank(all[i]) <= rank(all[j]) {
      if i < |p| { assert all[i] in p; } else { assert all[i] == q[i - |p|]; }
      if j < |p| { assert all[j] == p[j]; } else { assert all[j] == q[j - |p|] && all[j] in q; }
    }
  }

  lemma WithinEach<T>(items: seq<T>, body: T -> seq<Task>, rank: Task -> nat, low: nat, high: nat)
    requires forall x :: x in items ==> Within(body(x), rank, low, high)
    ensures Within(Each(items, body), rank, low, high)
  {
    forall t | t in Each(items, body) && rank(t) > 0 ensures low <= rank(t) <= high {
      var x := EachIsOf(items, body, t);
      assert Within(body(x), rank, low, high);
    }
  }

  /** Calls do not exceed the rank of their task. */
  ghost predicate Bounded(plan: seq<Task>, rank: Task -> nat, stage: Call -> nat) {
    forall t, seg, ok, c :: t in plan && Run(t, seg, ok) && c in seg ==> stage(c) <= rank(t)
  }

  /** Whatever ranks lower has been done, and with success, before the call. */
  lemma DoneBefore(plan: seq<Task>, calls: seq<Call>, ok: bool, rank: Task -> nat, stage: Call -> nat, j: nat, t: Task)
      returns (seg: seq<Call>)
    requires Ran(plan, calls, ok) && Ordered(plan, rank) && Bounded(plan, rank, stage)
    requires j < |calls| && t in plan && 0 < rank(t) < stage(calls[j])
    ensures Run(t, seg, true) && forall c :: c in seg ==> c in calls[..j]
  {
    var segs :| Split(plan, segs, ok) && Flat(segs) == calls;
    var i, x := CallOfTask(plan, segs, ok, j);
    OfTask(plan, segs, ok, rank, stage, i, calls[j]);
    var k := PlacedBefore(plan, rank, i, t);
    seg := segs[k];
    LiesBefore(segs, k, i, j, x);
  }

  lemma OfTask(plan: seq<Task>, segs: seq<seq<Call>>, ok: bool, rank: Task -> nat, stage: Call -> nat, i: nat, c: Call)
    requires Split(plan, segs, ok) && Bounded(plan, rank, stage) && i < |segs| && c in segs[i]
    ensures stage(c) <= rank(plan[i])
  {
    assert plan[i] in plan && Run(plan[i], segs[i], ok || i < |segs| - 1);
  }

  lemma PlacedBefore(plan: seq<Task>, rank: Task -> nat, i: nat, t: Task) returns (k: nat)
    requires Ordered(plan, rank) && i < |plan| && t in plan && 0 < rank(t) < rank(plan[i])
    ensures k < i && plan[k] == t
  {
    k :| 0 <= k < |plan| && plan[k] == t;
  }

  lemma LiesBefore(segs: seq<seq<Call>>, k: nat, i: nat, j: nat, x: nat)
    requires k < i < |segs| && x <= |segs[i]| && j == |Flat(segs[..i])| + x && Flat(segs[..i]) + segs[i] <= Flat(segs)
    ensures j <= |Flat(segs)| && forall c :: c in segs[k] ==> c in Flat(segs)[..j]
  {
    forall c | c in segs[k] ensures c in Flat(segs)[..j] {
      SegmentBefore(segs, k, i, c);
      assert Flat(segs[..i]) <= Flat(segs)[..j];
    }
  }

  // ------------------------------------------------------------ how a trace begins

  /** Tasks that make exactly one call, whether they succeed or not. */
  predicate Single(t: Task) {
    || t.Tell? || t.Fetch? || t.FetchWithKeys? || t.Survey? || t.SurveyContainers? || t.PowerOn? || t.AskDown? || t.Erase?
    || t.Reconfigure? || t.Order? || t.RetireNode?
  }

  predicate Singles(plan: seq<Task>) {
    forall t :: t in plan ==> Single(t)
  }

  lemma SingleCall(t: Task, seg: seq<Call>, ok: bool)
    requires Single(t) && Run(t, seg, ok)
    ensures |seg| == 1
  {
  }

  /** A run of a single one. (The bound variable keeps it out of the verifier's sight.) */
  ghost predicate Runs(t: Task, seg: seq<Call>, ok: bool) {
    forall u :: u == t ==> Run(u, seg, ok)
  }

  /** The first task of a plan, if it is single. */
  lemma FirstSingle(p: seq<Task>, q: seq<Task>, calls: seq<Call>, ok: bool) returns (first: bool, c: Call, rest: seq<Task>, tail: seq<Call>)
    requires p != [] && Singles(p) && Ran(p + q, calls, ok)
    ensures calls == [c] + tail && p == [p[0]] + rest && Runs(p[0], [c], first) && Singles(rest)
    ensures if first then Ran(rest + q, tail, ok) else tail == []
  {
    rest := p[1..];
    assert p[0] in p && p + q == [p[0]] + (rest + q);
    var seg;
    seg, tail, first := RanFirst(p[0], rest + q, calls, ok);
    SingleCall(p[0], seg, first);
    c := seg[0];
    assert seg == [c];
    assert forall t :: t in rest ==> t in p;
  }

  lemma {:induction false} UnitsInFront(segs: seq<seq<Call>>, m: nat, i: nat)
    requires (forall k :: 0 <= k < m && k < |segs| ==> |segs[k]| == 1) && i < m && i < |Flat(segs)|
    ensures i < |segs| && segs[i] == [Flat(segs)[i]] && (i == |segs| - 1 ==> |Flat(segs)| == i + 1)
  {
    if i > 0 { UnitsInFront(segs[1..], m - 1, i - 1); }
  }

  lemma LeadingUnits(p: seq<Task>, q: seq<Task>, segs: seq<seq<Call>>, ok: bool)
    requires Singles(p) && Split(p + q, segs, ok)
    ensures forall k :: 0 <= k < |p| && k < |segs| ==> |segs[k]| == 1 && Runs(p[k], segs[k], ok || k < |segs| - 1)
  {
    forall k | 0 <= k < |p| && k < |segs| ensures |segs[k]| == 1 && Runs(p[k], segs[k], ok || k < |segs| - 1) {
      assert (p + q)[k] == p[k] && p[k] in p;
      SingleCall(p[k], segs[k], ok || k < |segs| - 1);
    }
  }

  /** Among the first calls of a run every task has its own. */
  lemma LeadingCall(p: seq<Task>, q: seq<Task>, calls: seq<Call>, ok: bool, i: nat) returns (t: Task, c: Call, done: bool)
    requires Singles(p) && Ran(p + q, calls, ok) && i < |p| && i < |calls|
    ensures t == p[i] && c == calls[i] && Runs(t, [c], done) && (done || |calls| == i + 1)
  {
    var segs :| Split(p + q, segs, ok) && Flat(segs) == calls;
    LeadingUnits(p, q, segs, ok);
    UnitsInFront(segs, |p|, i);
    t, c, done := p[i], calls[i], ok || i < |segs| - 1;
  }

  /** A run that is longer goes on with the rest of its plan. */
  lemma {:induction false} Leading(p: seq<Task>, q: seq<Task>, calls: seq<Call>, ok: bool)
    requires Singles(p) && Ran(p + q, calls, ok) && |calls| > |p|
    ensures Ran(q, calls[|p|..], ok)
    decreases |p|
  {
    if p == [] {
      assert p + q == q;
    } else {
      var first, c, rest, tail := FirstSingle(p, q, calls, ok);
      Leading(rest, q, tail, ok);
      assert tail[|rest|..] == calls[|p|..];
    }
  }

  /** A trace whose second call read this record. */
  predicate Reads(calls: seq<Call>, r: Cluster) {
    |calls| > 1 && calls[1] == RecordRead(Some(r))
  }

  /** And whose third is this listing. */
  predicate Begins(calls: seq<Call>, r: Cluster, listing: map<nat, string>) {
    Reads(calls, r) && |calls| > 2 && calls[2] == ListVms(listing, true)
  }

  lemma HeadReads(message: string, r0: Cluster, work: seq<Task>, calls: seq<Call>, ok: bool, r: Cluster)
    requires Ran([Tell(Info, message), Fetch(r0)] + work, calls, ok) && Reads(calls, r)
    ensures r0 == r && calls[0] == Noted(Info, message)
  {
    var plan := [Tell(Info, message), Fetch(r0)];
    var t, c, done := LeadingCall(plan, work, calls, ok, 0);
    assert Run(t, [c], done) && [c][0] == c;
    t, c, done := LeadingCall(plan, work, calls, ok, 1);
    assert Run(t, [c], done) && [c][0] == c;
  }

  lemma HeadBegins(message: string, r0: Cluster, l0: map<nat, string>, work: seq<Task>, calls: seq<Call>, ok: bool, r: Cluster, listing: map<nat, string>)
    requires Ran([Tell(Info, message), Fetch(r0), Survey(l0)] + work, calls, ok) && Begins(calls, r, listing)
    ensures r0 == r && l0 == listing
  {
    var plan := [Tell(Info, message), Fetch(r0), Survey(l0)];
    var t, c, done := LeadingCall(plan, work, calls, ok, 1);
    assert Run(t, [c], done) && [c][0] == c;
    t, c, done := LeadingCall(plan, work, calls, ok, 2);
    assert Run(t, [c], done) && [c][0] == c;
  }
}
