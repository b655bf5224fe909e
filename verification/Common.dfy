/** The building blocks of the use cases (core/src/dispatcher/usecase/common.rs). Each method says
    which calls it made and how the worker's evidence changed. */
module Common {
  import opened Model
  import opened Records
  import opened HostFile
  import opened Machine
  import opened World
  import opened Picks
  import opened Plan
  import Retry

  /** Only the trace grew, by a run of the plan. */
  ghost predicate Just(before: Work, after: Work, plan: seq<Task>, ok: bool) {
    after == before.(calls := after.calls) && Did(before.calls, after.calls, plan, ok)
  }

  lemma JustOne(w: Work, t: Task, seg: seq<Call>, ok: bool)
    requires Run(t, seg, ok)
    ensures Just(w, w.(calls := w.calls + seg), [t], ok)
  {
    DidOne(w.calls, t, seg, ok);
  }

  lemma JustThen(a: Work, b: Work, c: Work, p: seq<Task>, q: seq<Task>, ok: bool)
    requires Just(a, b, p, true) && Just(b, c, q, ok)
    ensures Just(a, c, p + q, ok)
  {
    DidThen(a.calls, b.calls, c.calls, p, q, ok);
  }

  lemma JustBroken(a: Work, b: Work, p: seq<Task>, q: seq<Task>)
    requires Just(a, b, p, false)
    ensures Just(a, b, p + q, false)
  {
    DidBroken(a.calls, b.calls, p, q);
  }

  lemma NoOneToAsk(w: Work)
    ensures Just(w, w, [Stuck], false)
  {
    JustOne(w, Stuck, [], false);
    assert w.calls + [] == w.calls;
  }

  /** The same for a loop: all tasks of the first `i` items are done. */
  ghost predicate JustEach<T>(before: Work, now: Work, items: seq<T>, body: T -> seq<Task>, i: nat) {
    i <= |items| && Just(before, now, Each(items[..i], body), true)
  }

  lemma JustNone<T>(w: Work, items: seq<T>, body: T -> seq<Task>)
    ensures JustEach(w, w, items, body, 0)
  {
    DidNothing(w.calls);
  }

  lemma JustNext<T>(before: Work, now: Work, after: Work, items: seq<T>, body: T -> seq<Task>, i: nat, ok: bool)
    requires JustEach(before, now, items, body, i) && i < |items| && Just(now, after, body(items[i]), ok)
    ensures if ok then JustEach(before, after, items, body, i + 1) else Just(before, after, Each(items, body), false)
  {
    EachStep(before.calls, now.calls, after.calls, items, i, body, ok);
  }

  lemma JustAll<T>(before: Work, now: Work, items: seq<T>, body: T -> seq<Task>)
    requires JustEach(before, now, items, body, |items|)
    ensures Just(before, now, Each(items, body), true)
  {
    assert items[..|items|] == items;
  }

  // ------------------------------------------------------------ polling

  /** What the closure of `wait_for_shutdown` makes of one status answer. */
  function ShutdownProbe(answer: Answer): Result<(), string> {
    match answer
    case SawRunning => Err("Running")
    case SawStopped => Ok(())
    case NoAnswer(why) => Err("Status VM, error: " + why)
  }

  method WaitForShutdown(w: World, n: ClusterNode) returns (r: Result<bool, string>, ghost polls: seq<Call>)
    requires w.InEvent()
    modifies w
    ensures w.InEvent() && w.Since(old(w.steps), old(w.s.dispatched))
    ensures w.W() == old(w.W()).(calls := old(w.W()).calls + polls)
    ensures ShutdownRun(n, polls, r)
  {
    var answers: nat -> Answer := *;
    var probe := (k: nat) => ShutdownProbe(answers(k));
    var isShutdown, calls, _ := Retry.Retry(probe);
    var observed := seq(calls, (k: nat) => Call.Poll(n, answers(k)));
    polls := observed;
    assert forall k: nat :: k < calls - 1 ==> probe(k) == ShutdownProbe(answers(k));
    assert isShutdown == ShutdownProbe(answers(calls - 1));
    assert polls[calls - 1].answer == answers(calls - 1);
    w.Observe(observed);
    match isShutdown
    case Ok(_) => r := Ok(true);
    case Err(e) =>
      assert answers(calls - 1).NoAnswer? ==> e[0] == 'S' && "Running"[0] == 'R';
      if e == "Running" { r := Ok(false); } else { r := Err(e); }
  }

  /** What the first closure of `wait_for_start` makes of one status answer. */
  function StartProbe(answer: Answer): Result<(), string> {
    match answer
    case SawRunning => Ok(())
    case SawStopped => Err("VM is stopped")
    case NoAnswer(why) => Err("Status VM, error: " + why)
  }

  /** Polls until the VM is seen running. */
  method WaitForRunning(w: World, n: ClusterNode) returns (r: Outcome, ghost polls: seq<Call>)
    requires w.InEvent()
    modifies w
    ensures w.InEvent() && w.Since(old(w.steps), old(w.s.dispatched))
    ensures w.W() == old(w.W()).(calls := old(w.W()).calls + polls)
    ensures RunningRun(n, polls, r.Ok?)
  {
    var answers: nat -> Answer := *;
    var probe := (k: nat) => StartProbe(answers(k));
    var running, calls, _ := Retry.Retry(probe);
    var observed := seq(calls, (k: nat) => Call.Poll(n, answers(k)));
    r, polls := running, observed;
    assert forall k: nat :: k < calls - 1 ==> probe(k) == StartProbe(answers(k));
    assert running == StartProbe(answers(calls - 1));
    assert polls[calls - 1].answer == answers(calls - 1);
    w.Observe(observed);
  }

  /** Logs in until cloud-init has finished. */
  method WaitForCloudInit(w: World, n: ClusterNode) returns (r: Outcome, ghost checks: seq<Call>)
    requires w.InEvent()
    modifies w
    ensures w.InEvent() && w.Since(old(w.steps), old(w.s.dispatched))
    ensures w.W() == old(w.W()).(calls := old(w.W()).calls + checks)
    ensures CloudInitRun(n, checks, r.Ok?)
  {
    var logins: nat -> bool := *;
    var probe := (k: nat) => if logins(k) then Ok(()) else Err("cloud-init");
    var ready, tries, _ := Retry.Retry(probe);
    var done := seq(tries, (k: nat) => Call.Ssh(n, CloudInit, logins(k)));
    forall k: nat | k < tries - 1 ensures !logins(k) { assert probe(k).Err?; }
    w.Observe(done);
    r, checks := ready, done;
  }

  method WaitForStart(w: World, n: ClusterNode) returns (r: Outcome, ghost seg: seq<Call>)
    requires w.InEvent()
    modifies w
    ensures w.InEvent() && w.Since(old(w.steps), old(w.s.dispatched))
    ensures w.W() == old(w.W()).(calls := old(w.W()).calls + seg)
    ensures StartRun(n, seg, r.Ok?)
  {
    r, seg := WaitForRunning(w, n);
    if r.Err? { return; }
    ghost var checks;
    r, checks := WaitForCloudInit(w, n);
    Assoc(old(w.W()).calls, seg, checks);
    seg := seg + checks;
  }

  // ------------------------------------------------------------ listing and stopping

  /** The nodes whose VM is in the listing, by id and full name, in order. */
  function Existing(nodes: seq<ClusterNode>, listing: map<nat, string>, cluster: string): (r: seq<ClusterNode>)
    ensures forall n :: n in r <==> n in nodes && Listed(listing, cluster, n)
  {
    if nodes == [] then []
    else
      assert nodes == [nodes[0]] + nodes[1..];
      (if Listed(listing, cluster, nodes[0]) then [nodes[0]] else []) + Existing(nodes[1..], listing, cluster)
  }

  function IsListed(listing: map<nat, string>, cluster: string): ClusterNode -> bool {
    (n: ClusterNode) => Listed(listing, cluster, n)
  }

  /** In the order of the record, each as often as there. */
  lemma {:induction false} ExistingPicks(nodes: seq<ClusterNode>, listing: map<nat, string>, cluster: string) returns (at: seq<nat>)
    ensures Picked(nodes, Existing(nodes, listing, cluster), IsListed(listing, cluster), at)
  {
    if nodes == [] { return []; }
    var keep, found := IsListed(listing, cluster), Existing(nodes[1..], listing, cluster);
    var rest := ExistingPicks(nodes[1..], listing, cluster);
    at := PickNext(nodes, found, keep, rest);
    assert Existing(nodes, listing, cluster) == (if keep(nodes[0]) then [nodes[0]] else []) + found;
  }

  method GetExistingVms(w: World, nodes: seq<ClusterNode>) returns (r: Result<seq<ClusterNode>, string>, listing: map<nat, string>)
    requires w.InEvent() && w.W().snap.Some?
    modifies w
    ensures w.InEvent() && w.Since(old(w.steps), old(w.s.dispatched))
    ensures r.Ok? ==> w.W() == AfterListing(old(w.W()), listing) && r.value == Existing(nodes, listing, w.W().event.cluster)
    ensures r.Err? ==> w.W() == Say(old(w.W()), Call.ListVms(map[], false))
    ensures Did(old(w.W()).calls, w.W().calls, [Survey(listing)], r.Ok?)
  {
    listing := map[];
    var cluster := w.s.mode.work.event.cluster;
    var vms := w.ListVms();
    match vms
    case Err(e) =>
      r := Err(e);
      DidOne(old(w.W()).calls, Survey(listing), [Call.ListVms(map[], false)], false);
    case Ok(l) =>
      listing := l;
      DidOne(old(w.W()).calls, Survey(l), [Call.ListVms(l, true)], true);
      r := Ok(Existing(nodes, l, cluster));
  }

  lemma SeenExisting(nodes: seq<ClusterNode>, listing: map<nat, string>, cluster: string, existing: seq<ClusterNode>)
    requires existing == Existing(nodes, listing, cluster)
    ensures forall n :: n in existing ==> n in nodes && Ident(n) in set i | i in Idents(nodes) && Listed(listing, cluster, i)
  {
  }

  method StopHard(w: World, n: ClusterNode, lenient: bool) returns (r: Outcome, ghost seg: seq<Call>)
    requires w.InEvent() && w.W().snap.Some? && MayPower(w.W(), n)
    modifies w
    ensures w.InEvent() && w.Since(old(w.steps), old(w.s.dispatched))
    ensures w.W() == old(w.W()).(calls := old(w.W()).calls + seg)
    ensures HardRun(n, seg, lenient, r.Ok?)
  {
    r := w.HardStop(n);
    seg := [Call.HardStop(n, r.Ok?)];
    if r.Err? { return; }
    var seen;
    ghost var polls;
    seen, polls := WaitForShutdown(w, n);
    Assoc(old(w.W()).calls, seg, polls);
    seg := seg + polls;
    r := match seen
         case Ok(stopped) => if stopped || lenient then Ok(()) else Err("Cannot shutdown VM")
         case Err(e) => Err(e);
  }

  method AwaitOrStop(w: World, n: ClusterNode) returns (r: Outcome, ghost seg: seq<Call>)
    requires w.InEvent() && w.W().snap.Some? && MayPower(w.W(), n)
    modifies w
    ensures w.InEvent() && w.Since(old(w.steps), old(w.s.dispatched))
    ensures w.W() == old(w.W()).(calls := old(w.W()).calls + seg)
    ensures DownRun(n, seg, [], false, r.Ok?)
  {
    var isShutdown, polls := WaitForShutdown(w, n);
    seg := polls;
    if isShutdown == Ok(false) {
      ghost var hard;
      r, hard := StopHard(w, n, false);
      Assoc(old(w.W()).calls, polls, hard);
      assert [] + hard == hard;
      seg := polls + hard;
    } else {
      r := if isShutdown.Ok? then Ok(()) else Err(isShutdown.error);
    }
  }

  method StopVm(w: World, n: ClusterNode) returns (r: Outcome, ghost seg: seq<Call>)
    requires w.InEvent() && w.W().snap.Some? && MayPower(w.W(), n)
    modifies w
    ensures w.InEvent() && w.Since(old(w.steps), old(w.s.dispatched))
    ensures w.W() == old(w.W()).(calls := old(w.W()).calls + seg)
    ensures StopRun(n, seg, r.Ok?)
  {
    r := w.Shutdown(n);
    seg := [Call.Shutdown(n, r.Ok?)];
    if r.Err? { return; }
    ghost var down;
    r, down := AwaitOrStop(w, n);
    Assoc(old(w.W()).calls, seg, down);
    seg := seg + down;
  }

  /** A stop succeeds exactly when the VM was seen stopped; it takes at most one hard stop, and only
      after 31 polls none of which saw it stopped; and 62 polls at most. */
  lemma StopFacts(n: ClusterNode, seg: seq<Call>, ok: bool)
    requires StopRun(n, seg, ok)
    ensures ok <==> Call.Poll(n, SawStopped) in seg
    ensures |seg| <= 64 && forall i :: 0 <= i < |seg| && seg[i].HardStop? ==>
      i == 32 && forall j :: 1 <= j < 32 ==> seg[j].Poll? && !seg[j].answer.SawStopped?
    ensures forall i :: 0 <= i < |seg| ==> (seg[i].Shutdown? || seg[i].Poll? || seg[i].HardStop?) && seg[i].node == n
  {
    if seg != [Call.Shutdown(n, false)] {
      var down :| DownRun(n, down, [], false, ok) && seg == [Call.Shutdown(n, true)] + down;
      DownFacts(n, down, ok);
    }
  }

  lemma DownFacts(n: ClusterNode, down: seq<Call>, ok: bool)
    requires DownRun(n, down, [], false, ok)
    ensures ok <==> Call.Poll(n, SawStopped) in down
    ensures |down| <= 63 && forall i :: 0 <= i < |down| && down[i].HardStop? ==>
      i == 31 && forall j :: 0 <= j < 31 ==> down[j].Poll? && !down[j].answer.SawStopped?
    ensures forall i :: 0 <= i < |down| ==> (down[i].Poll? || down[i].HardStop?) && down[i].node == n
  {
    if seen :| ShutdownRun(n, down, seen) && seen != Ok(false) && (ok <==> seen.Ok?) {
      SeenStopped(n, down, seen);
      assert seen.Ok? ==> seen.value || seen == Ok(false);
    } else {
      var polls, hard :| ShutdownRun(n, polls, Ok(false)) && HardRun(n, hard, false, ok) && down == polls + ([] + hard);
      HardStopFacts(n, polls, hard, ok);
      assert down == polls + hard;
    }
  }

  lemma SeenStopped(n: ClusterNode, polls: seq<Call>, seen: Result<bool, string>)
    requires ShutdownRun(n, polls, seen)
    ensures seen == Ok(true) <==> Call.Poll(n, SawStopped) in polls
  {
    if seen == Ok(true) { assert polls[|polls| - 1] == Call.Poll(n, SawStopped); }
  }

  lemma HardStopFacts(n: ClusterNode, polls: seq<Call>, hard: seq<Call>, ok: bool)
    requires ShutdownRun(n, polls, Ok(false)) && HardRun(n, hard, false, ok)
    ensures ok <==> Call.Poll(n, SawStopped) in polls + hard
    ensures |hard| <= 32 && hard[0].HardStop?
    ensures forall i :: 0 <= i < |hard| ==> (if i == 0 then hard[i].HardStop? else hard[i].Poll?) && hard[i].node == n
  {
    SeenStopped(n, polls, Ok(false));
    if hard != [Call.HardStop(n, false)] {
      var again, seen :| ShutdownRun(n, again, seen) && hard == [Call.HardStop(n, true)] + again && (ok <==> seen == Ok(true));
      SeenStopped(n, again, seen);
    }
  }

  // ------------------------------------------------------------ creating a VM

  /** Requests the download and waits for the image to appear. */
  method FetchOsImage(w: World) returns (r: Outcome, ghost seg: seq<Call>)
    requires w.InEvent()
    modifies w
    ensures w.InEvent() && w.Since(old(w.steps), old(w.s.dispatched))
    ensures w.W() == old(w.W()).(calls := old(w.W()).calls + seg) && FetchRun(seg, r.Ok?)
  {
    var requested: bool := *;
    if !requested {
      w.Observe([Image(Download, false)]);
      return Err("Cannot download os image"), [Image(Download, false)];
    }
    w.Observe([Image(Download, true)]);
    ghost var c1, polls := w.W().calls, [];
    r, polls := AwaitOsImage(w);
    Assoc(old(w.W()).calls, [Image(Download, true)], polls);
    seg := [Image(Download, true)] + polls;
    if r.Ok? {
      w.Log(Info, "OS image has been downloaded");
      Assoc(old(w.W()).calls, seg, [DOWNLOADED]);
      seg := seg + [DOWNLOADED];
    } else {
      assert seg == [Image(Download, true)] + polls + [];
    }
  }

  method AwaitOsImage(w: World) returns (r: Outcome, ghost polls: seq<Call>)
    requires w.InEvent()
    modifies w
    ensures w.InEvent() && w.Since(old(w.steps), old(w.s.dispatched))
    ensures w.W() == old(w.W()).(calls := old(w.W()).calls + polls) && ImagePolls(polls, r.Ok?)
  {
    var looks: nat -> (bool, bool) := *;
    var probe := (k: nat) => if looks(k).0 && looks(k).1 then Ok(()) else Err("Cannot download os image");
    var image, calls, _ := Retry.Retry(probe);
    forall k: nat | k < calls - 1 ensures !(looks(k).0 && looks(k).1) { assert probe(k).Err?; }
    var observed := seq(calls, (k: nat) => Image(Look(looks(k).1), looks(k).0));
    w.Observe(observed);
    r, polls := image, observed;
  }

  /** Looks for the image and fetches it if it is missing, then asks for its path. */
  method DownloadOsImage(w: World) returns (r: Outcome, ghost seg: seq<Call>)
    requires w.InEvent()
    modifies w
    ensures w.InEvent() && w.Since(old(w.steps), old(w.s.dispatched))
    ensures w.W() == old(w.W()).(calls := old(w.W()).calls + seg) && ImageRun(seg, r.Ok?)
  {
    var named: bool, checked: bool, present: bool := *, *, *;
    seg := [];
    if !named { r := Err("Cannot extract file name for path"); return; }
    w.Observe([Image(Look(checked && present), checked)]);
    seg := [Image(Look(checked && present), checked)];
    if !checked { r := Err("Cannot check image availability"); return; }
    ghost var fetch := [];
    r := Ok(());
    if !present {
      r, fetch := FetchOsImage(w);
      Assoc(old(w.W()).calls, seg, fetch);
      seg := seg + fetch;
      if r.Err? { return; }
    }
    r := ImagePath(w);
    Assoc(old(w.W()).calls, seg, [Image(Details, r.Ok?)]);
    seg := seg + [Image(Details, r.Ok?)];
  }

  method ImagePath(w: World) returns (r: Outcome)
    requires w.InEvent()
    modifies w
    ensures w.InEvent() && w.Since(old(w.steps), old(w.s.dispatched))
    ensures w.W() == Say(old(w.W()), Image(Details, r.Ok?))
  {
    var detailed: bool := *;
    w.Observe([Image(Details, detailed)]);
    r := if detailed then Ok(()) else Err("Cannot read image details");
  }

  /** Waits until the new VM is unlocked, then resizes its disk. */
  method GrowDisk(w: World, n: ClusterNode) returns (r: Outcome, ghost seg: seq<Call>)
    requires w.InEvent()
    modifies w
    ensures w.InEvent() && w.Since(old(w.steps), old(w.s.dispatched))
    ensures w.W() == old(w.W()).(calls := old(w.W()).calls + seg) && GrowthRun(n, seg, r.Ok?)
  {
    var locks: nat -> bool := *;
    var probe := (k: nat) => if locks(k) then Err("VM is locked") else Ok(());
    var free, calls, _ := Retry.Retry(probe);
    forall k: nat | k < calls - 1 ensures locks(k) { assert probe(k).Err?; }
    var probes := seq(calls, (k: nat) => LockPoll(n, !locks(k)));
    if free.Err? {
      assert probes == Locked(n, 31);
      w.Observe(probes);
      return free, probes;
    }
    var grown: bool := *;
    var all := probes + [Call.GrowDisk(n, grown)];
    assert all == Locked(n, calls - 1) + [LockPoll(n, true), Call.GrowDisk(n, grown)];
    w.Observe(all);
    seg := all;
    r := if grown then Ok(()) else Err("Cannot resize disk");
  }

  /** What `create` leaves behind: on success the node is made and seen; otherwise its VM may still
      be there. */
  ghost predicate Created(before: Work, after: Work, n: ClusterNode, ok: bool) {
    if ok then
      after == before.(calls := after.calls, made := before.made + {Ident(n)}, seen := before.seen + {Ident(n)})
    else
      after == before.(calls := after.calls, made := after.made, seen := after.seen, tainted := after.tainted)
  }

  method CreateVm(w: World, n: ClusterNode) returns (r: Outcome, ghost seg: seq<Call>)
    requires w.InEvent() && w.W().snap.Some? && n in w.W().snap.value.nodes && w.W().wrote == {}
    requires w.W().event.CreateCluster? || w.W().event.AddNode?
    modifies w
    ensures w.InEvent() && w.Since(old(w.steps), old(w.s.dispatched))
    ensures w.W().calls == old(w.W()).calls + seg && BuildRun(n, seg, r.Ok?)
    ensures Created(old(w.W()), w.W(), n, r.Ok?)
  {
    ghost var c0 := w.W().calls;
    r, seg := DownloadOsImage(w);
    if r.Err? { return; }
    ghost var image := seg;
    r := w.Create(n);
    Assoc(c0, image, [Call.Create(n, r.Ok?)]);
    seg := image + [Call.Create(n, r.Ok?)];
    if r.Err? { return; }
    ghost var growth;
    r, growth := GrowDisk(w, n);
    Assoc(c0, seg, growth);
    seg := seg + growth;
  }

  // ------------------------------------------------------------ restarting

  /** The start of a restart, all of it on success. */
  ghost predicate StartPart(n: ClusterNode, seg: seq<Call>, ok: bool) {
    || (!ok && seg == [STARTING, Call.Start(n, false)])
    || (exists start :: StartRun(n, start, ok) && seg == [STARTING, Call.Start(n, true)] + start + if ok then [STARTED] else [])
  }

  method StartAndWait(w: World, n: ClusterNode) returns (r: Outcome, ghost seg: seq<Call>)
    requires w.InEvent() && w.W().snap.Some? && MayPower(w.W(), n)
    modifies w
    ensures w.InEvent() && w.Since(old(w.steps), old(w.s.dispatched))
    ensures w.W() == old(w.W()).(calls := old(w.W()).calls + seg) && StartPart(n, seg, r.Ok?)
  {
    w.Log(Info, "Starting VM");
    r := w.Start(n);
    seg := [STARTING, Call.Start(n, r.Ok?)];
    assert old(w.W()).calls + [STARTING] + [Call.Start(n, r.Ok?)] == old(w.W()).calls + seg;
    if r.Err? { return; }
    ghost var rest, start;
    r, rest, start := AwaitStarted(w, n);
    Assoc(old(w.W()).calls, seg, rest);
    Assoc(seg, start, if r.Ok? then [STARTED] else []);
    seg := seg + rest;
  }

  method AwaitStarted(w: World, n: ClusterNode) returns (r: Outcome, ghost seg: seq<Call>, ghost start: seq<Call>)
    requires w.InEvent()
    modifies w
    ensures w.InEvent() && w.Since(old(w.steps), old(w.s.dispatched))
    ensures w.W() == old(w.W()).(calls := old(w.W()).calls + seg)
    ensures StartRun(n, start, r.Ok?) && seg == start + if r.Ok? then [STARTED] else []
  {
    r, start := WaitForStart(w, n);
    seg := start + if r.Ok? then [STARTED] else [];
    if r.Ok? {
      w.Log(Info, "VM has been started");
      Assoc(old(w.W()).calls, start, [STARTED]);
    }
  }

  method Restart(w: World, n: ClusterNode) returns (r: Outcome, ghost seg: seq<Call>)
    requires w.InEvent() && w.W().snap.Some? && MayPower(w.W(), n)
    modifies w
    ensures w.InEvent() && w.Since(old(w.steps), old(w.s.dispatched))
    ensures w.W() == old(w.W()).(calls := old(w.W()).calls + seg)
    ensures RestartRun(n, seg, r.Ok?)
  {
    ghost var c0 := w.W().calls;
    w.Log(Info, "Reboot is required, shutdown VM");
    ghost var stop;
    r, stop := StopVm(w, n);
    Assoc(c0, [REBOOTING], stop);
    seg := [REBOOTING] + stop;
    if r.Err? { return; }
    ghost var rest;
    r, rest := StartAndWait(w, n);
    Assoc(c0, seg, rest);
    RestartParts(n, stop, rest, r.Ok?);
    seg := seg + rest;
  }

  lemma RestartParts(n: ClusterNode, stop: seq<Call>, rest: seq<Call>, ok: bool)
    requires StopRun(n, stop, true) && StartPart(n, rest, ok)
    ensures RestartRun(n, [REBOOTING] + stop + rest, ok)
  {
    if rest != [STARTING, Call.Start(n, false)] || ok {
      var start :| StartRun(n, start, ok) && rest == [STARTING, Call.Start(n, true)] + start + if ok then [STARTED] else [];
      var last := if ok then [STARTED] else [];
      assert [REBOOTING] + stop + rest == [REBOOTING] + stop + [STARTING, Call.Start(n, true)] + start + last;
    }
  }

  method RestartVmIfNecessary(w: World, n: ClusterNode) returns (r: Outcome, ghost seg: seq<Call>)
    requires w.InEvent() && w.W().snap.Some? && MayPower(w.W(), n)
    modifies w
    ensures w.InEvent() && w.Since(old(w.steps), old(w.s.dispatched))
    ensures w.W() == old(w.W()).(calls := old(w.W()).calls + seg) && RebootRun(n, seg, r.Ok?)
  {
    var connected: bool, required: bool := *, *;
    w.Observe([Call.Ssh(n, RebootCheck(connected && required), connected)]);
    seg := [Call.Ssh(n, RebootCheck(connected && required), connected)];
    if !connected { return Err("SSH"), seg; }
    if !required { return Ok(()), seg; }
    ghost var rest;
    r, rest := Restart(w, n);
    Assoc(old(w.W()).calls, seg, rest);
    seg := seg + rest;
  }

  // ------------------------------------------------------------ hosts files

  /** These hosts of the record may be handed to its node `n`, whose VM was listed or made. */
  ghost predicate MayWrite(w: Work, n: ClusterNode, entries: set<Entry>) {
    && w.snap.Some? && n in w.snap.value.nodes && Ident(n) in w.seen
    && (w.event.CreateCluster? || w.event.AddNode?)
    && entries <= Entries(HostMap(w.event.cluster, w.snap.value.nodes))
  }

  /** `setup_vm` on success: the node was given every host; on failure, some of them perhaps. */
  ghost predicate Equipped(before: Work, after: Work, n: ClusterNode, entries: set<Entry>, ok: bool) {
    if ok then
      && after == before.(calls := after.calls, wrote := after.wrote)
      && before.wrote <= after.wrote && WroteAll(after, Ident(n), entries)
    else
      after == before.(calls := after.calls, wrote := after.wrote, tainted := after.tainted)
  }

  method AddHostEntry(w: World, n: ClusterNode, e: Entry) returns (r: Outcome, ghost written: bool)
    requires w.InEvent() && MayAddHost(w.W(), n, e)
    modifies w
    ensures w.InEvent() && w.Since(old(w.steps), old(w.s.dispatched))
    ensures if r.Ok? then
              w.W() == old(w.W()).(wrote := old(w.W()).wrote + {(Ident(n), e)},
                 calls := old(w.W()).calls + [Call.Ssh(n, AddTemplateHost(e), true), Call.Ssh(n, AddHost(e), true)])
            else
              w.W() == old(w.W()).(calls := old(w.W()).calls + HostRefused(n, e, written), tainted := w.W().tainted)
  {
    r := w.Ssh(n, AddTemplateHost(e));
    written := r.Ok?;
    if r.Err? { return; }
    r := w.AddHostLine(n, e);
  }

  /** The hosts that are not `todo` have been handed over, in this order. */
  ghost predicate Handing(before: Work, now: Work, n: ClusterNode, entries: set<Entry>, todo: set<Entry>, order: seq<Entry>) {
    && todo <= entries && Enumerates(order, entries - todo)
    && now == before.(calls := before.calls + HostCalls(n, order), wrote := now.wrote)
    && before.wrote <= now.wrote && WroteAll(now, Ident(n), entries - todo)
  }

  lemma HandedOne(before: Work, now: Work, after: Work, n: ClusterNode, entries: set<Entry>, todo: set<Entry>, order: seq<Entry>, e: Entry)
    requires Handing(before, now, n, entries, todo, order) && e in todo
    requires after == now.(wrote := now.wrote + {(Ident(n), e)},
                           calls := now.calls + [Call.Ssh(n, AddTemplateHost(e), true), Call.Ssh(n, AddHost(e), true)])
    ensures Handing(before, after, n, entries, todo - {e}, order + [e])
  {
    var done := entries - todo;
    assert entries - (todo - {e}) == done + {e};
    EnumeratesOneMore(order, done, e);
    HostCallsOneMore(n, order, e);
    Assoc(before.calls, HostCalls(n, order), [Call.Ssh(n, AddTemplateHost(e), true), Call.Ssh(n, AddHost(e), true)]);
  }

  lemma EnumeratesOneMore(order: seq<Entry>, done: set<Entry>, e: Entry)
    requires Enumerates(order, done) && e !in done
    ensures Enumerates(order + [e], done + {e})
  {
    assert forall x :: x in order + [e] <==> x in order || x == e;
    assert |done + {e}| == |done| + 1;
  }

  lemma HostCallsOneMore(n: ClusterNode, order: seq<Entry>, e: Entry)
    ensures HostCalls(n, order + [e])
         == HostCalls(n, order) + [Call.Ssh(n, AddTemplateHost(e), true), Call.Ssh(n, AddHost(e), true)]
  {
    assert (order + [e])[..|order|] == order;
  }

  method HandNext(w: World, n: ClusterNode, entries: set<Entry>, ghost todo: set<Entry>, e: Entry, ghost before: Work, ghost order: seq<Entry>)
      returns (r: Outcome, ghost seg: seq<Call>)
    requires w.InEvent() && MayWrite(before, n, entries) && Handing(before, w.W(), n, entries, todo, order) && e in todo
    modifies w
    ensures w.InEvent() && w.Since(old(w.steps), old(w.s.dispatched))
    ensures if r.Ok? then Handing(before, w.W(), n, entries, todo - {e}, order + [e])
            else w.W() == before.(calls := before.calls + seg, wrote := w.W().wrote, tainted := w.W().tainted)
                 && EquipRun(n, entries, [Call.Ssh(n, EnableIscsi, true)] + seg, false)
  {
    ghost var written;
    r, written := AddHostEntry(w, n, e);
    seg := [];
    if r.Ok? {
      HandedOne(before, old(w.W()), w.W(), n, entries, todo, order, e);
    } else {
      seg := HandingFailed(before, old(w.W()), n, entries, todo, order, e, written);
    }
  }

  method HandOver(w: World, n: ClusterNode, entries: set<Entry>) returns (r: Outcome, ghost seg: seq<Call>)
    requires w.InEvent() && MayWrite(w.W(), n, entries)
    modifies w
    ensures w.InEvent() && w.Since(old(w.steps), old(w.s.dispatched))
    ensures w.W().calls == old(w.W()).calls + seg && EquipRun(n, entries, [Call.Ssh(n, EnableIscsi, true)] + seg, r.Ok?)
    ensures Equipped(old(w.W()), w.W(), n, entries, r.Ok?)
  {
    ghost var w0, order := w.W(), [];
    var todo := entries;
    HandingNone(w0, n, entries);
    while todo != {}
      invariant w.InEvent() && w.Since(old(w.steps), old(w.s.dispatched))
      invariant Handing(w0, w.W(), n, entries, todo, order)
      decreases |todo|
    {
      var e :| e in todo;
      r, seg := HandNext(w, n, entries, todo, e, w0, order);
      if r.Err? { return; }
      todo, order := todo - {e}, order + [e];
    }
    r, seg := Ok(()), HostCalls(n, order);
    HandingDone(w0, w.W(), n, entries, order);
  }

  lemma HandingNone(w: Work, n: ClusterNode, entries: set<Entry>)
    ensures Handing(w, w, n, entries, entries, [])
  {
    assert entries - entries == {};
  }

  lemma HandingDone(before: Work, now: Work, n: ClusterNode, entries: set<Entry>, order: seq<Entry>)
    requires Handing(before, now, n, entries, {}, order)
    ensures now.calls == before.calls + HostCalls(n, order) && Equipped(before, now, n, entries, true)
    ensures EquipRun(n, entries, [Call.Ssh(n, EnableIscsi, true)] + HostCalls(n, order), true)
  {
    assert entries - {} == entries;
  }

  lemma HandingFailed(before: Work, now: Work, n: ClusterNode, entries: set<Entry>, todo: set<Entry>, order: seq<Entry>, e: Entry, written: bool)
      returns (seg: seq<Call>)
    requires Handing(before, now, n, entries, todo, order) && e in todo
    ensures now.calls + HostRefused(n, e, written) == before.calls + seg
    ensures EquipRun(n, entries, [Call.Ssh(n, EnableIscsi, true)] + seg, false)
  {
    seg := HostCalls(n, order) + HostRefused(n, e, written);
    Assoc(before.calls, HostCalls(n, order), HostRefused(n, e, written));
    var given, iscsi := entries - todo, [Call.Ssh(n, EnableIscsi, true)];
    assert given < entries && e in entries - given;
    Assoc(iscsi, HostCalls(n, order), HostRefused(n, e, written));
    assert iscsi + seg == iscsi + HostCalls(n, order) + HostRefused(n, e, written);
  }

  method SetupVm(w: World, n: ClusterNode, hosts: map<string, string>) returns (r: Outcome, ghost seg: seq<Call>)
    requires w.InEvent() && MayWrite(w.W(), n, Entries(hosts))
    modifies w
    ensures w.InEvent() && w.Since(old(w.steps), old(w.s.dispatched))
    ensures w.W().calls == old(w.W()).calls + seg && EquipRun(n, Entries(hosts), seg, r.Ok?)
    ensures Equipped(old(w.W()), w.W(), n, Entries(hosts), r.Ok?)
  {
    ghost var c0 := w.W().calls;
    r := w.Ssh(n, EnableIscsi);
    seg := [Call.Ssh(n, EnableIscsi, r.Ok?)];
    if r.Err? { return; }
    ghost var rest;
    r, rest := HandOver(w, n, Entries(hosts));
    Assoc(c0, seg, rest);
    seg := seg + rest;
  }

  /** The setup of one node, with its log entry. */
  function EquipTasks(entries: set<Entry>, message: string): ClusterNode -> seq<Task> {
    (n: ClusterNode) => [Tell(Info, message), Equip(n, entries)]
  }

  method LogAndSetup(w: World, n: ClusterNode, hosts: map<string, string>, message: string) returns (r: Outcome)
    requires w.InEvent() && MayWrite(w.W(), n, Entries(hosts))
    modifies w
    ensures w.InEvent() && w.Since(old(w.steps), old(w.s.dispatched))
    ensures Did(old(w.W()).calls, w.W().calls, EquipTasks(Entries(hosts), message)(n), r.Ok?)
    ensures Equipped(old(w.W()), w.W(), n, Entries(hosts), r.Ok?)
  {
    w.Log(Info, message);
    ghost var seg;
    r, seg := SetupVm(w, n, hosts);
    LoggedSetup(old(w.W()).calls, n, Entries(hosts), message, seg, r.Ok?);
  }

  lemma LoggedSetup(calls: seq<Call>, n: ClusterNode, entries: set<Entry>, message: string, seg: seq<Call>, ok: bool)
    requires EquipRun(n, entries, seg, ok)
    ensures Did(calls, calls + [Noted(Info, message)] + seg, EquipTasks(entries, message)(n), ok)
  {
    var c1 := calls + [Noted(Info, message)];
    DidOne(calls, Tell(Info, message), [Noted(Info, message)], true);
    DidOne(c1, Equip(n, entries), seg, ok);
    DidThen(calls, c1, c1 + seg, [Tell(Info, message)], [Equip(n, entries)], ok);
    assert [Tell(Info, message)] + [Equip(n, entries)] == EquipTasks(entries, message)(n);
  }

  ghost predicate MayWriteAll(w: Work, nodes: seq<ClusterNode>, entries: set<Entry>) {
    forall n :: n in nodes ==> MayWrite(w, n, entries)
  }

  /** The first `i` nodes were given all hosts. */
  ghost predicate Equipping(before: Work, now: Work, nodes: seq<ClusterNode>, entries: set<Entry>, message: string, i: nat) {
    && i <= |nodes|
    && Did(before.calls, now.calls, Each(nodes[..i], EquipTasks(entries, message)), true)
    && now == before.(calls := now.calls, wrote := now.wrote) && before.wrote <= now.wrote
    && forall n :: n in nodes[..i] ==> WroteAll(now, Ident(n), entries)
  }

  lemma EquippingStep(before: Work, now: Work, after: Work, nodes: seq<ClusterNode>, entries: set<Entry>, message: string, i: nat, ok: bool)
    requires Equipping(before, now, nodes, entries, message, i) && i < |nodes|
    requires Did(now.calls, after.calls, EquipTasks(entries, message)(nodes[i]), ok) && Equipped(now, after, nodes[i], entries, ok)
    ensures if ok then Equipping(before, after, nodes, entries, message, i + 1)
            else Did(before.calls, after.calls, Each(nodes, EquipTasks(entries, message)), false)
                 && after == before.(calls := after.calls, wrote := after.wrote, tainted := after.tainted)
  {
    EachStep(before.calls, now.calls, after.calls, nodes, i, EquipTasks(entries, message), ok);
    if ok { WroteOneMore(now, after, nodes, entries, i); }
  }

  lemma WroteOneMore(now: Work, after: Work, nodes: seq<ClusterNode>, entries: set<Entry>, i: nat)
    requires i < |nodes| && now.wrote <= after.wrote && WroteAll(after, Ident(nodes[i]), entries)
    requires forall n :: n in nodes[..i] ==> WroteAll(now, Ident(n), entries)
    ensures forall n :: n in nodes[..i + 1] ==> WroteAll(after, Ident(n), entries)
  {
    assert nodes[..i + 1] == nodes[..i] + [nodes[i]];
    forall n | n in nodes[..i] ensures WroteAll(after, Ident(n), entries) { assert WroteAll(now, Ident(n), entries); }
  }

  method SetupNext(w: World, nodes: seq<ClusterNode>, hosts: map<string, string>, message: string, i: nat, ghost before: Work) returns (r: Outcome)
    requires w.InEvent() && MayWriteAll(before, nodes, Entries(hosts))
    requires Equipping(before, w.W(), nodes, Entries(hosts), message, i) && i < |nodes|
    modifies w
    ensures w.InEvent() && w.Since(old(w.steps), old(w.s.dispatched))
    ensures if r.Ok? then Equipping(before, w.W(), nodes, Entries(hosts), message, i + 1)
            else Did(before.calls, w.W().calls, Each(nodes, EquipTasks(Entries(hosts), message)), false)
                 && w.W() == before.(calls := w.W().calls, wrote := w.W().wrote, tainted := w.W().tainted)
  {
    assert MayWrite(before, nodes[i], Entries(hosts));
    r := LogAndSetup(w, nodes[i], hosts, message);
    EquippingStep(before, old(w.W()), w.W(), nodes, Entries(hosts), message, i, r.Ok?);
  }

  /** Gives the hosts to every node of the list, until the first failure. */
  method SetupEach(w: World, nodes: seq<ClusterNode>, hosts: map<string, string>, message: string) returns (r: Outcome)
    requires w.InEvent() && MayWriteAll(w.W(), nodes, Entries(hosts))
    modifies w
    ensures w.InEvent() && w.Since(old(w.steps), old(w.s.dispatched))
    ensures Did(old(w.W()).calls, w.W().calls, Each(nodes, EquipTasks(Entries(hosts), message)), r.Ok?)
    ensures w.W() == old(w.W()).(calls := w.W().calls, wrote := w.W().wrote, tainted := w.W().tainted)
    ensures r.Ok? ==> Equipping(old(w.W()), w.W(), nodes, Entries(hosts), message, |nodes|)
  {
    ghost var w0 := w.W();
    DidNothing(w0.calls);
    for i := 0 to |nodes|
      invariant w.InEvent() && w.Since(old(w.steps), old(w.s.dispatched))
      invariant Equipping(w0, w.W(), nodes, Entries(hosts), message, i)
    {
      r := SetupNext(w, nodes, hosts, message, i, w0);
      if r.Err? { return; }
    }
    assert nodes[..|nodes|] == nodes;
    r := Ok(());
  }

  /** `get_cluster` */
  method FetchRecord(w: World) returns (r: Option<Cluster>, ghost record: Cluster)
    requires w.InEvent() && w.W().made == {}
    modifies w
    ensures w.InEvent() && w.Since(old(w.steps), old(w.s.dispatched))
    ensures Did(old(w.W()).calls, w.W().calls, [Fetch(record)], r.Some?)
    ensures w.W() == (if r.Some? then WithSnap(old(w.W()), r) else old(w.W())).(calls := w.W().calls)
    ensures r.Some? ==> r.value == record
  {
    record := *;
    r := w.GetCluster();
    if r.Some? { record := r.value; }
    DidOne(old(w.W()).calls, Fetch(record), [RecordRead(r)], r.Some?);
  }

  /** A log entry, then the record. */
  method LogAndFetch(w: World, message: string) returns (r: Option<Cluster>, ghost record: Cluster)
    requires w.InEvent() && w.W().made == {}
    modifies w
    ensures w.InEvent() && w.Since(old(w.steps), old(w.s.dispatched))
    ensures Did(old(w.W()).calls, w.W().calls, [Tell(Info, message), Fetch(record)], r.Some?)
    ensures w.W() == (if r.Some? then WithSnap(old(w.W()), r) else old(w.W())).(calls := w.W().calls)
    ensures r.Some? ==> r.value == record
  {
    LogOnly(w, message);
    ghost var w1 := w.W();
    r, record := FetchRecord(w);
    DidThen(old(w.W()).calls, w1.calls, w.W().calls, [Tell(Info, message)], [Fetch(record)], r.Some?);
    assert [Tell(Info, message)] + [Fetch(record)] == [Tell(Info, message), Fetch(record)];
  }

  // ------------------------------------------------------------ Kubernetes

  method LogOnly(w: World, message: string)
    requires w.InEvent()
    modifies w
    ensures w.InEvent() && w.Since(old(w.steps), old(w.s.dispatched))
    ensures Just(old(w.W()), w.W(), [Tell(Info, message)], true)
  {
    w.Log(Info, message);
    JustOne(old(w.W()), Tell(Info, message), [Noted(Info, message)], true);
  }

  /** A command with its log entry. */
  function Announced(message: string, n: ClusterNode, command: Command): seq<Task> {
    [Tell(Info, message), Order(n, command)]
  }

  method RunCommand(w: World, n: ClusterNode, command: Command) returns (r: Outcome)
    requires w.InEvent() && w.W().snap.Some? && !command.AddHost? && !command.ScrubHost?
    modifies w
    ensures w.InEvent() && w.Since(old(w.steps), old(w.s.dispatched))
    ensures Just(old(w.W()), w.W(), [Order(n, command)], r.Ok?)
  {
    r := w.Ssh(n, command);
    JustOne(old(w.W()), Order(n, command), [Call.Ssh(n, command, r.Ok?)], r.Ok?);
  }

  method LogAndSsh(w: World, n: ClusterNode, command: Command, message: string) returns (r: Outcome)
    requires w.InEvent() && w.W().snap.Some? && !command.AddHost? && !command.ScrubHost?
    modifies w
    ensures w.InEvent() && w.Since(old(w.steps), old(w.s.dispatched))
    ensures Just(old(w.W()), w.W(), Announced(message, n, command), r.Ok?)
  {
    LogOnly(w, message);
    ghost var w1 := w.W();
    r := RunCommand(w, n, command);
    JustThen(old(w.W()), w1, w.W(), [Tell(Info, message)], [Order(n, command)], r.Ok?);
    assert [Tell(Info, message)] + [Order(n, command)] == Announced(message, n, command);
  }

  method InstallKubernetes(w: World, n: ClusterNode) returns (r: Outcome)
    requires w.InEvent() && w.W().snap.Some?
    modifies w
    ensures w.InEvent() && w.Since(old(w.steps), old(w.s.dispatched))
    ensures Just(old(w.W()), w.W(), Announced("Install Kubernetes on VM", n, Install), r.Ok?)
  {
    r := LogAndSsh(w, n, Install, "Install Kubernetes on VM");
  }

  method WaitForReadyKubernetes(w: World, n: ClusterNode) returns (r: Outcome)
    requires w.InEvent() && w.W().snap.Some?
    modifies w
    ensures w.InEvent() && w.Since(old(w.steps), old(w.s.dispatched))
    ensures Just(old(w.W()), w.W(), Announced("Wait for Kubernetes on VM", n, WaitReady), r.Ok?)
  {
    r := LogAndSsh(w, n, WaitReady, "Wait for Kubernetes on VM");
  }

  /** The join token is asked of the master; the node joins as a worker exactly if it is one. */
  method JoinNodeToCluster(w: World, master: ClusterNode, n: ClusterNode) returns (r: Outcome)
    requires w.InEvent() && w.W().snap.Some?
    modifies w
    ensures w.InEvent() && w.Since(old(w.steps), old(w.s.dispatched))
    ensures Just(old(w.W()), w.W(), [Enroll(master, n)], r.Ok?)
  {
    ghost var w0, granted := w.W(), false;
    r, granted := AskToken(w, master);
    if r.Err? {
      NotEnrolled(w0, w.W(), master, n, granted);
      return;
    }
    r := JoinNow(w, n);
    Enrolled(w0, w.W(), master, n, r.Ok?);
  }

  lemma NotEnrolled(before: Work, after: Work, master: ClusterNode, n: ClusterNode, granted: bool)
    requires after == before.(calls := before.calls + [ASKING, Call.Ssh(master, AddNodeToken(false), granted)])
    ensures Just(before, after, [Enroll(master, n)], false)
  {
    JustOne(before, Enroll(master, n), [ASKING, Call.Ssh(master, AddNodeToken(false), granted)], false);
  }

  lemma Enrolled(before: Work, after: Work, master: ClusterNode, n: ClusterNode, ok: bool)
    requires after == before.(calls := before.calls + [ASKING, Call.Ssh(master, AddNodeToken(true), true)]
                                     + [JOINING, Call.Ssh(n, Join(n.nodeType == Worker), ok)])
    ensures Just(before, after, [Enroll(master, n)], ok)
  {
    var seg, rest := [ASKING, Call.Ssh(master, AddNodeToken(true), true)], [JOINING, Call.Ssh(n, Join(n.nodeType == Worker), ok)];
    Assoc(before.calls, seg, rest);
    JustOne(before, Enroll(master, n), seg + rest, ok);
  }

  method AskToken(w: World, master: ClusterNode) returns (r: Outcome, ghost granted: bool)
    requires w.InEvent() && w.W().snap.Some?
    modifies w
    ensures w.InEvent() && w.Since(old(w.steps), old(w.s.dispatched)) && (r.Ok? ==> granted)
    ensures w.W() == old(w.W()).(calls := old(w.W()).calls + [ASKING, Call.Ssh(master, AddNodeToken(r.Ok?), granted)])
  {
    w.Log(Info, "Generate join token on VM");
    r, granted := GetToken(w, master);
    assert [ASKING] + [Call.Ssh(master, AddNodeToken(r.Ok?), granted)] == [ASKING, Call.Ssh(master, AddNodeToken(r.Ok?), granted)];
    Assoc(old(w.W()).calls, [ASKING], [Call.Ssh(master, AddNodeToken(r.Ok?), granted)]);
  }

  /** The answer must hold a url to join by. */
  method GetToken(w: World, master: ClusterNode) returns (r: Outcome, ghost granted: bool)
    requires w.InEvent() && w.W().snap.Some?
    modifies w
    ensures w.InEvent() && w.Since(old(w.steps), old(w.s.dispatched)) && (r.Ok? ==> granted)
    ensures w.W() == Say(old(w.W()), Call.Ssh(master, AddNodeToken(r.Ok?), granted))
  {
    var usable: bool := *;
    r := w.Ask(master, AddNodeToken(false), AddNodeToken(usable));
    granted := r.Ok?;
    if r.Ok? && !usable { r := Err("Join token doesn't have urls to join node"); }
  }

  method JoinNow(w: World, n: ClusterNode) returns (r: Outcome)
    requires w.InEvent() && w.W().snap.Some?
    modifies w
    ensures w.InEvent() && w.Since(old(w.steps), old(w.s.dispatched))
    ensures w.W() == old(w.W()).(calls := old(w.W()).calls + [JOINING, Call.Ssh(n, Join(n.nodeType == Worker), r.Ok?)])
  {
    w.Log(Info, "Join node to cluster");
    r := w.Ssh(n, Join(n.nodeType.Worker?));
  }
}
