/** What a use case has to do, as a list of tasks, and which traces carry it out: all tasks in order,
    all of them successful, or up to the first that fails. */
module Plan {
  import opened Model
  import opened HostFile
  import opened Machine

  datatype Task =
    // the repository
    | Tell(level: Level, message: string)
    | Fetch(record: Cluster)
    | FetchWithKeys(record: Cluster)
    | FetchConfig(master: ClusterNode)
    | StoreResources
    | RetireNode
    | RetireCluster
    | Mark(status: Status)
    | FreeLock
    | Stuck                               // there is no node to turn to
    // the hypervisor
    | Survey(listing: map<nat, string>)
    | SurveyContainers(ids: set<nat>)
    | Build(node: ClusterNode, free: bool)
    | PowerOn(node: ClusterNode)
    | AwaitStart(node: ClusterNode)
    | Reboot(node: ClusterNode)
    | AskDown(node: ClusterNode)
    | AwaitDown(node: ClusterNode, warning: seq<Call>)
    | Erase(node: ClusterNode)
    | Reconfigure(node: ClusterNode, cores: nat, memory: nat)
    | Halt(node: ClusterNode)
    // the nodes
    | Order(node: ClusterNode, command: Command)
    | Equip(node: ClusterNode, entries: set<Entry>)
    | Enroll(master: ClusterNode, node: ClusterNode)
    | Cleanse(node: ClusterNode, name: string)

  // ------------------------------------------------------------ runs of single tasks

  ghost predicate PollsOf(n: ClusterNode, polls: seq<Call>) {
    forall i :: 0 <= i < |polls| ==> polls[i].Poll? && polls[i].node == n
  }

  /** `wait_for_shutdown`: polls until the VM is seen stopped, 31 at most. */
  ghost predicate ShutdownRun(n: ClusterNode, polls: seq<Call>, r: Result<bool, string>) {
    && 1 <= |polls| <= 31 && PollsOf(n, polls)
    && (forall i :: 0 <= i < |polls| - 1 ==> !polls[i].answer.SawStopped?)
    && (r == Ok(true) <==> polls[|polls| - 1].answer.SawStopped?)
    && (r == Ok(false) <==> |polls| == 31 && polls[30].answer.SawRunning?)
    && (r.Err? <==> |polls| == 31 && polls[30].answer.NoAnswer?)
  }

  /** Polls until the VM is seen running, 31 at most. */
  ghost predicate RunningRun(n: ClusterNode, polls: seq<Call>, ok: bool) {
    && 1 <= |polls| <= 31 && PollsOf(n, polls) && (!ok ==> |polls| == 31)
    && (ok <==> polls[|polls| - 1].answer.SawRunning?)
    && forall i :: 0 <= i < |polls| - 1 ==> !polls[i].answer.SawRunning?
  }

  /** Logins until cloud-init has finished, 31 at most. */
  ghost predicate CloudInitRun(n: ClusterNode, checks: seq<Call>, ok: bool) {
    && 1 <= |checks| <= 31 && (!ok ==> |checks| == 31)
    && forall i :: 0 <= i < |checks| ==> checks[i] == Call.Ssh(n, CloudInit, ok && i == |checks| - 1)
  }

  /** `wait_for_start`: seen running, then cloud-init. */
  ghost predicate StartRun(n: ClusterNode, seg: seq<Call>, ok: bool) {
    || (!ok && RunningRun(n, seg, false))
    || (exists polls, checks :: RunningRun(n, polls, true) && CloudInitRun(n, checks, ok) && seg == polls + checks)
  }

  /** A hard stop and the polls after it; a lenient caller is content with a VM still running. */
  ghost predicate HardRun(n: ClusterNode, seg: seq<Call>, lenient: bool, ok: bool) {
    || (!ok && seg == [Call.HardStop(n, false)])
    || (exists polls, seen :: ShutdownRun(n, polls, seen) && seg == [Call.HardStop(n, true)] + polls
         && (ok <==> seen == Ok(true) || (lenient && seen == Ok(false))))
  }

  /** Waiting for a VM that was asked to shut down; if it still runs after 31 polls, it is stopped hard. */
  ghost predicate DownRun(n: ClusterNode, seg: seq<Call>, warning: seq<Call>, lenient: bool, ok: bool) {
    || (exists seen :: ShutdownRun(n, seg, seen) && seen != Ok(false) && (ok <==> seen.Ok?))
    || (exists polls, hard :: ShutdownRun(n, polls, Ok(false)) && HardRun(n, hard, lenient, ok) && seg == polls + (warning + hard))
  }

  /** `stop_vm` */
  ghost predicate StopRun(n: ClusterNode, seg: seq<Call>, ok: bool) {
    || (!ok && seg == [Call.Shutdown(n, false)])
    || (exists down :: DownRun(n, down, [], false, ok) && seg == [Call.Shutdown(n, true)] + down)
  }

  const REBOOTING := Noted(Info, "Reboot is required, shutdown VM")
  const STARTING := Noted(Info, "Starting VM")
  const STARTED := Noted(Info, "VM has been started")

  /** The part of `restart_vm_if_necessary` after the check, if a reboot is required. */
  ghost predicate RestartRun(n: ClusterNode, seg: seq<Call>, ok: bool) {
    || (exists stop :: !ok && StopRun(n, stop, false) && seg == [REBOOTING] + stop)
    || (exists stop :: !ok && StopRun(n, stop, true) && seg == [REBOOTING] + stop + [STARTING, Call.Start(n, false)])
    || (exists stop, start :: StopRun(n, stop, true) && StartRun(n, start, ok)
         && seg == [REBOOTING] + stop + [STARTING, Call.Start(n, true)] + start + if ok then [STARTED] else [])
  }

  /** `restart_vm_if_necessary` */
  ghost predicate RebootRun(n: ClusterNode, seg: seq<Call>, ok: bool) {
    || seg == [Call.Ssh(n, RebootCheck(false), ok)]
    || (exists rest :: RestartRun(n, rest, ok) && seg == [Call.Ssh(n, RebootCheck(true), true)] + rest)
  }

  const DOWNLOADED := Noted(Info, "OS image has been downloaded")

  /** Looks at the storage until the image is there, 31 at most. */
  ghost predicate ImagePolls(polls: seq<Call>, ok: bool) {
    && 1 <= |polls| <= 31 && (!ok ==> |polls| == 31)
    && (forall i :: 0 <= i < |polls| ==> polls[i].Image? && polls[i].step.Look?)
    && (forall i :: 0 <= i < |polls| ==> (polls[i].ok && polls[i].step.found <==> ok && i == |polls| - 1))
  }

  /** The image is missing: it is requested and waited for. */
  ghost predicate FetchRun(seg: seq<Call>, ok: bool) {
    || (!ok && seg == [Image(Download, false)])
    || (exists polls :: ImagePolls(polls, ok) && seg == [Image(Download, true)] + polls + if ok then [DOWNLOADED] else [])
  }

  /** `download_os_image`, from the look at the storage to the path of the image; without a file name
      there is nothing to look for. */
  ghost predicate ImageRun(seg: seq<Call>, ok: bool) {
    || (!ok && seg == [])
    || (!ok && seg == [Image(Look(false), false)])
    || seg == [Image(Look(true), true), Image(Details, ok)]
    || (exists fetch :: !ok && FetchRun(fetch, false) && seg == [Image(Look(false), true)] + fetch)
    || (exists fetch :: FetchRun(fetch, true) && seg == [Image(Look(false), true)] + fetch + [Image(Details, ok)])
  }

  /** Waiting for the new VM's lock to go, 31 looks at most, then growing its disk. */
  ghost predicate GrowthRun(n: ClusterNode, seg: seq<Call>, ok: bool) {
    || (!ok && seg == Locked(n, 31))
    || (exists k: nat :: k <= 30 && seg == Locked(n, k) + [LockPoll(n, true), GrowDisk(n, ok)])
  }

  function Locked(n: ClusterNode, k: nat): seq<Call> {
    seq(k, i => LockPoll(n, false))
  }

  /** `create`, after the look at the used ids */
  ghost predicate BuildRun(n: ClusterNode, seg: seq<Call>, ok: bool) {
    || (!ok && ImageRun(seg, false))
    || (exists image :: !ok && ImageRun(image, true) && seg == image + [Call.Create(n, false)])
    || (exists image, growth :: ImageRun(image, true) && GrowthRun(n, growth, ok) && seg == image + [Call.Create(n, true)] + growth)
  }

  /** Both files of a node get these lines. */
  function HostCalls(n: ClusterNode, order: seq<Entry>): seq<Call> {
    if order == [] then []
    else HostCalls(n, order[..|order| - 1])
         + [Call.Ssh(n, AddTemplateHost(order[|order| - 1]), true), Call.Ssh(n, AddHost(order[|order| - 1]), true)]
  }

  ghost predicate Enumerates(order: seq<Entry>, entries: set<Entry>) {
    |order| == |entries| && entries == set e | e in order
  }

  /** `setup_vm`, in whatever order the map of hosts is iterated. */
  ghost predicate EquipRun(n: ClusterNode, entries: set<Entry>, seg: seq<Call>, ok: bool) {
    || (!ok && seg == [Call.Ssh(n, EnableIscsi, false)])
    || (exists order :: ok && Enumerates(order, entries) && seg == [Call.Ssh(n, EnableIscsi, true)] + HostCalls(n, order))
    || (exists order, given, e, written :: !ok && Enumerates(order, given) && given < entries && e in entries - given
         && seg == [Call.Ssh(n, EnableIscsi, true)] + HostCalls(n, order) + HostRefused(n, e, written))
  }

  /** One of the two lines is refused; the template may have been `written`. */
  function HostRefused(n: ClusterNode, e: Entry, written: bool): seq<Call> {
    if written then [Call.Ssh(n, AddTemplateHost(e), true), Call.Ssh(n, AddHost(e), false)]
    else [Call.Ssh(n, AddTemplateHost(e), false)]
  }

  const ASKING := Noted(Info, "Generate join token on VM")
  const JOINING := Noted(Info, "Join node to cluster")

  /** `join_node_to_cluster` */
  ghost predicate EnrollRun(master: ClusterNode, n: ClusterNode, seg: seq<Call>, ok: bool) {
    || (exists granted :: !ok && seg == [ASKING, Call.Ssh(master, AddNodeToken(false), granted)])
    || seg == [ASKING, Call.Ssh(master, AddNodeToken(true), true), JOINING, Call.Ssh(n, Join(n.nodeType == Worker), ok)]
  }

  /** The calls that a task makes, and whether it succeeds. */
  ghost predicate Run(t: Task, seg: seq<Call>, ok: bool) {
    match t
    case Tell(level, message) => ok && seg == [Noted(level, message)]
    case Fetch(r) => seg == [RecordRead(if ok then Some(r) else None)]
    case FetchWithKeys(r) =>
      if ok then seg == [KeySaved(Some(r))] else seg == [KeySaved(None)] || exists q :: seg == [RecordRead(q)]
    case FetchConfig(m) =>
      || (!ok && seg == [Call.Ssh(m, Kubeconfig(""), false)])
      || (exists config :: seg == [Call.Ssh(m, Kubeconfig(config), true), ConfigSaved(config, ok)])
    case StoreResources => seg == [ResourcesSaved(ok)]
    case RetireNode => seg == [NodeDropped(ok)]
    case RetireCluster => ok && seg == [ClusterDropped]
    case Mark(st) => seg == [StatusSet(st, ok)]
    case FreeLock => seg == [LockCleared(ok)]
    case Stuck => !ok && seg == []
    case Survey(l) => seg == [ListVms(if ok then l else map[], ok)]
    case SurveyContainers(ids) => seg == [ListContainers(if ok then ids else {}, ok)]
    case Build(n, free) => if free then BuildRun(n, seg, ok) else !ok && seg == []
    case PowerOn(n) => seg == [Call.Start(n, ok)]
    case AwaitStart(n) => StartRun(n, seg, ok)
    case Reboot(n) => RebootRun(n, seg, ok)
    case AskDown(n) => seg == [Call.Shutdown(n, ok)]
    case AwaitDown(n, warning) => DownRun(n, seg, warning, true, ok)
    case Erase(n) => seg == [Call.Delete(n, ok)]
    case Reconfigure(n, cores, memory) => seg == [Call.Configure(n, cores, memory, ok)]
    case Halt(n) => StopRun(n, seg, ok)
    case Order(n, command) => seg == [Call.Ssh(n, command, ok)]
    case Equip(n, entries) => EquipRun(n, entries, seg, ok)
    case Enroll(m, n) => EnrollRun(m, n, seg, ok)
    case Cleanse(n, name) =>
      || (!ok && seg == [Call.Ssh(n, ScrubTemplate(name), false)])
      || seg == [Call.Ssh(n, ScrubTemplate(name), true), Call.Ssh(n, ScrubHost(name), ok)]
  }

  // ------------------------------------------------------------ runs of whole plans

  function Flat(segs: seq<seq<Call>>): seq<Call> {
    if segs == [] then [] else segs[0] + Flat(segs[1..])
  }

  /** The segments are runs of its tasks, in order; all succeed if `ok`, else the last one fails. */
  ghost predicate Split(plan: seq<Task>, segs: seq<seq<Call>>, ok: bool) {
    && |segs| <= |plan| && (if ok then |segs| == |plan| else segs != [])
    && forall i :: 0 <= i < |segs| ==> Run(plan[i], segs[i], ok || i < |segs| - 1)
  }

  /** These calls carry out the plan, or if not `ok`, do so up to the first task that fails. */
  ghost predicate Ran(plan: seq<Task>, calls: seq<Call>, ok: bool) {
    exists segs :: Split(plan, segs, ok) && Flat(segs) == calls
  }

  lemma Assoc<T>(a: seq<T>, b: seq<T>, c: seq<T>)
    ensures a + b + c == a + (b + c)
  {
  }

  lemma {:induction false} FlatAppend(a: seq<seq<Call>>, b: seq<seq<Call>>)
    ensures Flat(a + b) == Flat(a) + Flat(b)
  {
    if a == [] {
      assert a + b == b;
    } else {
      FlatAppend(a[1..], b);
      assert (a + b)[0] == a[0] && (a + b)[1..] == a[1..] + b;
      assert Flat(a) == a[0] + Flat(a[1..]) && Flat(a + b) == a[0] + Flat(a[1..] + b);
      Assoc(a[0], Flat(a[1..]), Flat(b));
    }
  }

  lemma RanNothing()
    ensures Ran([], [], true)
  {
    assert Split([], [], true) && Flat([]) == [];
  }

  lemma RanOne(t: Task, seg: seq<Call>, ok: bool)
    requires Run(t, seg, ok)
    ensures Ran([t], seg, ok)
  {
    assert Split([t], [seg], ok);
    assert Flat([seg]) == seg + Flat([]);
  }

  lemma RanThen(p: seq<Task>, a: seq<Call>, q: seq<Task>, b: seq<Call>, ok: bool)
    requires Ran(p, a, true) && Ran(q, b, ok)
    ensures Ran(p + q, a + b, ok)
  {
    var s :| Split(p, s, true) && Flat(s) == a;
    var t :| Split(q, t, ok) && Flat(t) == b;
    FlatAppend(s, t);
    SplitThen(p, s, q, t, ok);
  }

  lemma SplitThen(p: seq<Task>, s: seq<seq<Call>>, q: seq<Task>, t: seq<seq<Call>>, ok: bool)
    requires Split(p, s, true) && Split(q, t, ok)
    ensures Split(p + q, s + t, ok)
  {
    var plan, segs := p + q, s + t;
    forall i | 0 <= i < |segs| ensures Run(plan[i], segs[i], ok || i < |segs| - 1) {
      if i < |s| {
        assert plan[i] == p[i] && segs[i] == s[i] && Run(p[i], s[i], true);
        assert ok || i < |segs| - 1;
      } else {
        assert plan[i] == q[i - |p|] && segs[i] == t[i - |s|];
      }
    }
  }

  lemma RanBroken(p: seq<Task>, a: seq<Call>, q: seq<Task>)
    requires Ran(p, a, false)
    ensures Ran(p + q, a, false)
  {
    var s :| Split(p, s, false) && Flat(s) == a;
    assert Split(p + q, s, false);
  }

  /** A run of two plans in a row breaks off in the first, or is a run of each. */
  lemma RanSplit(p: seq<Task>, q: seq<Task>, calls: seq<Call>, ok: bool) returns (a: seq<Call>, b: seq<Call>, first: bool)
    requires Ran(p + q, calls, ok)
    ensures calls == a + b && Ran(p, a, first)
    ensures if first then Ran(q, b, ok) else !ok && b == []
  {
    var segs :| Split(p + q, segs, ok) && Flat(segs) == calls;
    if |segs| > |p| || ok {
      var s, t := segs[..|p|], segs[|p|..];
      assert segs == s + t;
      FlatAppend(s, t);
      a, b, first := Flat(s), Flat(t), true;
      assert Split(p, s, true);
      assert forall i :: 0 <= i < |t| ==> t[i] == segs[|p| + i] && q[i] == (p + q)[|p| + i];
      assert Split(q, t, ok);
    } else {
      a, b, first := calls, [], false;
      assert Split(p, segs, false);
    }
  }

  /** A run of a single task. */
  lemma RanIsOne(t: Task, calls: seq<Call>, ok: bool)
    requires Ran([t], calls, ok)
    ensures Run(t, calls, ok)
  {
    var segs :| Split([t], segs, ok) && Flat(segs) == calls;
    SplitIsOne(t, segs, ok);
  }

  lemma SplitIsOne(t: Task, segs: seq<seq<Call>>, ok: bool)
    requires Split([t], segs, ok)
    ensures Run(t, Flat(segs), ok)
  {
    var seg := segs[0];
    assert segs == [seg] && segs[1..] == [] && Flat(segs) == seg + Flat([]);
    assert Flat(segs) == seg;
    assert Run([t][0], seg, ok || 0 < |segs| - 1);
  }

  /** A run of a task and then others. */
  lemma RanFirst(t: Task, rest: seq<Task>, calls: seq<Call>, ok: bool) returns (seg: seq<Call>, tail: seq<Call>, first: bool)
    requires Ran([t] + rest, calls, ok)
    ensures calls == seg + tail && Run(t, seg, first)
    ensures if first then Ran(rest, tail, ok) else !ok && tail == []
  {
    seg, tail, first := RanSplit([t], rest, calls, ok);
    RanIsOne(t, seg, first);
  }

  /** Every call of a run belongs to one of its tasks. */
  lemma {:induction false} CallOfTask(plan: seq<Task>, segs: seq<seq<Call>>, ok: bool, j: nat) returns (i: nat, x: nat)
    requires Split(plan, segs, ok) && j < |Flat(segs)|
    ensures i < |segs| && x < |segs[i]| && Flat(segs)[j] == segs[i][x]
    ensures j == |Flat(segs[..i])| + x && Flat(segs[..i]) + segs[i] <= Flat(segs)
  {
    i, x := Locate(segs, j);
  }

  lemma {:induction false} Locate(segs: seq<seq<Call>>, j: nat) returns (i: nat, x: nat)
    requires j < |Flat(segs)|
    ensures i < |segs| && x < |segs[i]| && Flat(segs)[j] == segs[i][x]
    ensures j == |Flat(segs[..i])| + x && Flat(segs[..i]) + segs[i] <= Flat(segs)
  {
    if j < |segs[0]| {
      i, x := 0, j;
      assert segs[..0] == [];
    } else {
      i, x := Locate(segs[1..], j - |segs[0]|);
      i := i + 1;
      assert segs[..i][1..] == segs[1..][..i - 1];
      assert Flat(segs[..i]) == segs[0] + Flat(segs[1..][..i - 1]);
    }
  }

  /** Earlier segments lie before. */
  lemma {:induction false} SegmentBefore(segs: seq<seq<Call>>, i: nat, k: nat, c: Call)
    requires i < k <= |segs| && c in segs[i]
    ensures c in Flat(segs[..k])
  {
    assert segs[..k] == [segs[0]] + segs[1..][..k - 1];
    assert Flat(segs[..k]) == segs[0] + Flat(segs[1..][..k - 1]) by { assert segs[..k][1..] == segs[1..][..k - 1]; }
    if i > 0 { SegmentBefore(segs[1..], i - 1, k - 1, c); }
  }

  // ------------------------------------------------------------ plans for lists

  /** What `body` gives for one item after the other. */
  function Each<T>(items: seq<T>, body: T -> seq<Task>): seq<Task> {
    if items == [] then [] else body(items[0]) + Each(items[1..], body)
  }

  lemma {:induction false} EachAppend<T>(a: seq<T>, b: seq<T>, body: T -> seq<Task>)
    ensures Each(a + b, body) == Each(a, body) + Each(b, body)
  {
    if a == [] {
      assert a + b == b;
    } else {
      EachAppend(a[1..], b, body);
      assert (a + b)[0] == a[0] && (a + b)[1..] == a[1..] + b;
      assert Each(a + b, body) == body(a[0]) + (Each(a[1..], body) + Each(b, body));
    }
  }

  lemma {:induction false} EachHas<T>(items: seq<T>, body: T -> seq<Task>, x: T, t: Task)
    requires x in items && t in body(x)
    ensures t in Each(items, body)
  {
    assert items == [items[0]] + items[1..];
    if x != items[0] { EachHas(items[1..], body, x, t); }
  }

  lemma {:induction false} EachIsOf<T>(items: seq<T>, body: T -> seq<Task>, t: Task) returns (x: T)
    requires t in Each(items, body)
    ensures x in items && t in body(x)
  {
    assert items == [items[0]] + items[1..];
    if t in body(items[0]) { x := items[0]; } else { x := EachIsOf(items[1..], body, t); }
  }

  // ------------------------------------------------------------ traces that grow

  /** Between the two, the plan was carried out, or up to the first task that failed. */
  ghost predicate Did(before: seq<Call>, after: seq<Call>, plan: seq<Task>, ok: bool) {
    before <= after && Ran(plan, after[|before|..], ok)
  }

  lemma DidNothing(a: seq<Call>)
    ensures Did(a, a, [], true)
  {
    RanNothing();
    assert a[|a|..] == [];
  }

  lemma DidOne(a: seq<Call>, t: Task, seg: seq<Call>, ok: bool)
    requires Run(t, seg, ok)
    ensures Did(a, a + seg, [t], ok)
  {
    RanOne(t, seg, ok);
    assert (a + seg)[|a|..] == seg;
  }

  lemma DidThen(a: seq<Call>, b: seq<Call>, c: seq<Call>, p: seq<Task>, q: seq<Task>, ok: bool)
    requires Did(a, b, p, true) && Did(b, c, q, ok)
    ensures Did(a, c, p + q, ok)
  {
    RanThen(p, b[|a|..], q, c[|b|..], ok);
    Tails(a, b, c);
  }

  lemma Tails(a: seq<Call>, b: seq<Call>, c: seq<Call>)
    requires a <= b <= c
    ensures c[|a|..] == b[|a|..] + c[|b|..]
  {
    assert c == a + (b[|a|..] + c[|b|..]);
  }

  lemma DidBroken(a: seq<Call>, b: seq<Call>, p: seq<Task>, q: seq<Task>)
    requires Did(a, b, p, false)
    ensures Did(a, b, p + q, false)
  {
    RanBroken(p, b[|a|..], q);
  }

  /** One more round of a loop. */
  lemma EachStep<T>(a: seq<Call>, b: seq<Call>, c: seq<Call>, items: seq<T>, i: nat, body: T -> seq<Task>, ok: bool)
    requires i < |items| && Did(a, b, Each(items[..i], body), true) && Did(b, c, body(items[i]), ok)
    ensures if ok then Did(a, c, Each(items[..i + 1], body), true) else Did(a, c, Each(items, body), false)
  {
    var p, done, all := Each(items[..i], body), Each(items[..i + 1], body), Each(items, body);
    var rest := EachParts(items, i, body, p, done, all);
    Round(a, b, c, p, body(items[i]), done, rest, all, ok);
  }

  lemma EachParts<T>(items: seq<T>, i: nat, body: T -> seq<Task>, p: seq<Task>, done: seq<Task>, all: seq<Task>)
      returns (rest: seq<Task>)
    requires i < |items| && p == Each(items[..i], body) && done == Each(items[..i + 1], body) && all == Each(items, body)
    ensures done == p + body(items[i]) && all == done + rest
  {
    EachNext(items, i, body);
    EachRest(items, i + 1, body);
    rest := Each(items[i + 1..], body);
  }

  lemma Round(a: seq<Call>, b: seq<Call>, c: seq<Call>, p: seq<Task>, q: seq<Task>,
              done: seq<Task>, rest: seq<Task>, all: seq<Task>, ok: bool)
    requires Did(a, b, p, true) && Did(b, c, q, ok) && done == p + q && all == done + rest
    ensures if ok then Did(a, c, done, true) else Did(a, c, all, false)
  {
    DidThen(a, b, c, p, q, ok);
    if !ok { DidBroken(a, c, done, rest); }
  }

  lemma EachNext<T>(items: seq<T>, i: nat, body: T -> seq<Task>)
    requires i < |items|
    ensures Each(items[..i + 1], body) == Each(items[..i], body) + body(items[i])
  {
    assert items[..i + 1] == items[..i] + [items[i]];
    EachAppend(items[..i], [items[i]], body);
    EachOne(items[i], body);
  }

  lemma EachOne<T>(x: T, body: T -> seq<Task>)
    ensures Each([x], body) == body(x)
  {
    assert [x][1..] == [] && Each([x], body) == body(x) + Each([], body);
  }

  lemma EachRest<T>(items: seq<T>, i: nat, body: T -> seq<Task>)
    requires i <= |items|
    ensures Each(items, body) == Each(items[..i], body) + Each(items[i..], body)
  {
    assert items == items[..i] + items[i..];
    EachAppend(items[..i], items[i..], body);
  }
}
