/** Why a use case fails: the last of its calls was refused, found nothing or waited in vain. */
module Causes {
  import opened Model
  import opened HostFile
  import opened Machine
  import opened Plan

  /** The answer to this call ends a use case. A record that was read ends it if the record is missing,
      or if no key can be generated for it. */
  predicate Denied(c: Call) {
    match c
    case ListVms(_, ok) => !ok
    case ListContainers(_, ok) => !ok
    case Image(step, ok) => !ok || step == Look(false)
    case Create(_, ok) => !ok
    case LockPoll(_, free) => !free
    case GrowDisk(_, ok) => !ok
    case Start(_, ok) => !ok
    case Shutdown(_, ok) => !ok
    case HardStop(_, ok) => !ok
    case Delete(_, ok) => !ok
    case Configure(_, _, _, ok) => !ok
    case Ssh(_, command, ok) => !ok || command == AddNodeToken(false)
    case RecordRead(_) => true
    case KeySaved(record) => record.None?
    case ConfigSaved(_, found) => !found
    case ResourcesSaved(found) => !found
    case StatusSet(_, found) => !found
    case LockCleared(found) => !found
    case NodeDropped(found) => !found
    case ClusterDropped => false
    case Noted(_, _) => false
    case Poll(_, _) => false
  }

  /** The last 31 calls were polls of one VM, and none saw what was awaited. */
  ghost predicate Outwaited(calls: seq<Call>, awaited: Answer) {
    |calls| >= 31 && exists n :: InVain(Last(calls), n, awaited)
  }

  function Last(calls: seq<Call>): seq<Call>
    requires |calls| >= 31
  {
    calls[|calls| - 31..]
  }

  ghost predicate InVain(polls: seq<Call>, n: ClusterNode, awaited: Answer) {
    forall c :: c in polls ==> c.Poll? && c.node == n && c.answer != awaited
  }

  /** What these calls end with is a reason to fail. */
  ghost predicate Cause(calls: seq<Call>) {
    || (calls != [] && Denied(calls[|calls| - 1]))
    || Outwaited(calls, SawRunning)
    || Outwaited(calls, SawStopped)
  }

  lemma OutwaitedLater(done: seq<Call>, calls: seq<Call>, awaited: Answer)
    requires Outwaited(calls, awaited)
    ensures Outwaited(done + calls, awaited)
  {
    assert Last(done + calls) == Last(calls);
  }

  lemma CauseLater(done: seq<Call>, calls: seq<Call>)
    requires Cause(calls)
    ensures Cause(done + calls)
  {
    if Outwaited(calls, SawRunning) { OutwaitedLater(done, calls, SawRunning); }
    if Outwaited(calls, SawStopped) { OutwaitedLater(done, calls, SawStopped); }
  }

  lemma PollsInVain(n: ClusterNode, polls: seq<Call>, seen: Result<bool, string>)
    requires ShutdownRun(n, polls, seen) && seen != Ok(true)
    ensures Cause(polls)
  {
    assert seen.Ok? ==> seen.value || seen == Ok(false);
    assert Last(polls) == polls;
    assert InVain(polls, n, SawStopped);
  }

  lemma StartFails(n: ClusterNode, seg: seq<Call>)
    requires StartRun(n, seg, false)
    ensures Cause(seg)
  {
    if RunningRun(n, seg, false) {
      assert Last(seg) == seg;
      assert InVain(seg, n, SawRunning);
    } else {
      var polls, checks :| RunningRun(n, polls, true) && CloudInitRun(n, checks, false) && seg == polls + checks;
      CauseLater(polls, checks);
    }
  }

  lemma HardFails(n: ClusterNode, seg: seq<Call>, lenient: bool)
    requires HardRun(n, seg, lenient, false)
    ensures Cause(seg)
  {
    if seg != [Call.HardStop(n, false)] {
      var polls, seen :| ShutdownRun(n, polls, seen) && seg == [Call.HardStop(n, true)] + polls && seen != Ok(true);
      PollsInVain(n, polls, seen);
      CauseLater([Call.HardStop(n, true)], polls);
    }
  }

  lemma DownFails(n: ClusterNode, seg: seq<Call>, warning: seq<Call>, lenient: bool)
    requires DownRun(n, seg, warning, lenient, false)
    ensures Cause(seg)
  {
    if seen :| ShutdownRun(n, seg, seen) && seen != Ok(false) && !seen.Ok? {
      PollsInVain(n, seg, seen);
    } else {
      var polls, hard :| ShutdownRun(n, polls, Ok(false)) && HardRun(n, hard, lenient, false) && seg == polls + (warning + hard);
      HardFails(n, hard, lenient);
      CauseLater(warning, hard);
      CauseLater(polls, warning + hard);
    }
  }

  lemma StopFails(n: ClusterNode, seg: seq<Call>)
    requires StopRun(n, seg, false)
    ensures Cause(seg)
  {
    if seg != [Call.Shutdown(n, false)] {
      var down :| DownRun(n, down, [], false, false) && seg == [Call.Shutdown(n, true)] + down;
      DownFails(n, down, [], false);
      CauseLater([Call.Shutdown(n, true)], down);
    }
  }

  lemma RestartFails(n: ClusterNode, seg: seq<Call>)
    requires RestartRun(n, seg, false)
    ensures Cause(seg)
  {
    if stop :| StopRun(n, stop, false) && seg == [REBOOTING] + stop {
      StopFails(n, stop);
      CauseLater([REBOOTING], stop);
    } else if stop :| StopRun(n, stop, true) && seg == [REBOOTING] + stop + [STARTING, Call.Start(n, false)] {
      assert Denied(seg[|seg| - 1]);
    } else {
      var stop, start :| StopRun(n, stop, true) && StartRun(n, start, false)
        && seg == [REBOOTING] + stop + [STARTING, Call.Start(n, true)] + start + if false then [STARTED] else [];
      StartFails(n, start);
      CauseLater([REBOOTING] + stop + [STARTING, Call.Start(n, true)], start);
      assert seg == [REBOOTING] + stop + [STARTING, Call.Start(n, true)] + start;
    }
  }

  lemma RebootFails(n: ClusterNode, seg: seq<Call>)
    requires RebootRun(n, seg, false)
    ensures Cause(seg)
  {
    if seg != [Call.Ssh(n, RebootCheck(false), false)] {
      var rest :| RestartRun(n, rest, false) && seg == [Call.Ssh(n, RebootCheck(true), true)] + rest;
      RestartFails(n, rest);
      CauseLater([Call.Ssh(n, RebootCheck(true), true)], rest);
    }
  }

  lemma FetchFails(seg: seq<Call>)
    requires FetchRun(seg, false)
    ensures Cause(seg)
  {
    if seg != [Image(Download, false)] {
      var polls :| ImagePolls(polls, false) && seg == [Image(Download, true)] + polls + if false then [DOWNLOADED] else [];
      assert Denied(polls[|polls| - 1]);
      CauseLater([Image(Download, true)], polls);
      assert seg == [Image(Download, true)] + polls;
    }
  }

  /** Without a file name there is nothing to ask for. */
  lemma ImageFails(seg: seq<Call>)
    requires ImageRun(seg, false) && seg != []
    ensures Cause(seg)
  {
    if fetch :| FetchRun(fetch, false) && seg == [Image(Look(false), true)] + fetch {
      FetchFails(fetch);
      CauseLater([Image(Look(false), true)], fetch);
    } else if fetch :| FetchRun(fetch, true) && seg == [Image(Look(false), true)] + fetch + [Image(Details, false)] {
      assert Denied(seg[|seg| - 1]);
    } else {
      assert Denied(seg[|seg| - 1]);
    }
  }

  lemma BuildFails(n: ClusterNode, seg: seq<Call>)
    requires BuildRun(n, seg, false) && seg != []
    ensures Cause(seg)
  {
    if ImageRun(seg, false) {
      ImageFails(seg);
    } else if image :| ImageRun(image, true) && seg == image + [Call.Create(n, false)] {
      assert Denied(seg[|seg| - 1]);
    } else {
      var image, growth :| ImageRun(image, true) && GrowthRun(n, growth, false) && seg == image + [Call.Create(n, true)] + growth;
      assert growth != [] && Denied(growth[|growth| - 1]);
      CauseLater(image + [Call.Create(n, true)], growth);
    }
  }

  lemma EquipFails(n: ClusterNode, entries: set<Entry>, seg: seq<Call>)
    requires EquipRun(n, entries, seg, false)
    ensures Cause(seg)
  {
    if seg != [Call.Ssh(n, EnableIscsi, false)] {
      var order, given, e, written :| Enumerates(order, given) && given < entries && e in entries - given
        && seg == [Call.Ssh(n, EnableIscsi, true)] + HostCalls(n, order) + HostRefused(n, e, written);
      assert Denied(HostRefused(n, e, written)[|HostRefused(n, e, written)| - 1]);
      CauseLater([Call.Ssh(n, EnableIscsi, true)] + HostCalls(n, order), HostRefused(n, e, written));
    }
  }

  /** Tasks that can fail without a call: there is no node to turn to, a VM with a node's id
      exists, or the image has no file name. */
  predicate FailsUnasked(t: Task) {
    t.Stuck? || t.Build?
  }

  lemma TaskFails(t: Task, seg: seq<Call>)
    requires Run(t, seg, false)
    ensures (seg == [] && FailsUnasked(t)) || Cause(seg)
  {
    match t
    case Build(n, free) => if free && seg != [] { BuildFails(n, seg); }
    case AwaitStart(n) => StartFails(n, seg);
    case Reboot(n) => RebootFails(n, seg);
    case AwaitDown(n, warning) => DownFails(n, seg, warning, true);
    case Halt(n) => StopFails(n, seg);
    case Equip(n, entries) => EquipFails(n, entries, seg);
    case Enroll(m, n) => EnrollFails(m, n, seg);
    case FetchConfig(_) => ConfigFails(t, seg);
    case FetchWithKeys(_) => KeysFail(t, seg);
    case Cleanse(_, _) =>
    case Stuck =>
    case Tell(_, _) =>
    case RetireCluster =>
    case _ => assert Denied(seg[|seg| - 1]);
  }

  lemma EnrollFails(m: ClusterNode, n: ClusterNode, seg: seq<Call>)
    requires EnrollRun(m, n, seg, false)
    ensures Cause(seg)
  {
    assert Denied(seg[|seg| - 1]);
  }

  lemma ConfigFails(t: Task, seg: seq<Call>)
    requires t.FetchConfig? && Run(t, seg, false)
    ensures Cause(seg)
  {
    assert Denied(seg[|seg| - 1]);
  }

  lemma KeysFail(t: Task, seg: seq<Call>)
    requires t.FetchWithKeys? && Run(t, seg, false)
    ensures Cause(seg)
  {
    assert Denied(seg[|seg| - 1]);
  }

  /** A run that breaks off did all tasks before the one that failed, and ends with the cause of the
      failure, unless that is a task that can fail unasked. */
  lemma {:induction false} FailureHasCause(plan: seq<Task>, calls: seq<Call>) returns (k: nat)
    requires Ran(plan, calls, false)
    ensures k < |plan| && (Cause(calls) || (FailsUnasked(plan[k]) && Ran(plan[..k], calls, true)))
  {
    if plan == [] {
      assert false;
    } else {
      assert plan == [plan[0]] + plan[1..];
      var seg, tail, first := RanFirst(plan[0], plan[1..], calls, false);
      if first {
        var i := FailureHasCause(plan[1..], tail);
        k := i + 1;
        if Cause(tail) {
          CauseLater(seg, tail);
        } else {
          RanOne(plan[0], seg, true);
          RanThen([plan[0]], seg, plan[1..][..i], tail, true);
          assert plan[..k] == [plan[0]] + plan[1..][..i];
        }
      } else {
        k := 0;
        TaskFails(plan[0], seg);
        assert calls == seg && plan[..0] == [];
        if seg == [] { RanNothing(); }
      }
    }
  }
}
