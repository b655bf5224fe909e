/** How events end: the status that the worker leaves, over every run (core/src/dispatcher/dispatcher.rs:24-236). */
module Outcomes {
  import opened Model
  import opened Machine
  import opened World
  import Edits
  import Frames

  // ------------------------------------------------------------ while the use case is at work

  /** Inside `execute` nothing has been closed or, but for a removal, unlocked. */
  ghost predicate Open(m: Mode) {
    m.Busy? && !m.work.phase.Concluded? ==>
      !m.work.statusDone && (m.work.event.AddNode? || m.work.event.ChangeResources? ==> !m.work.unlocked)
  }

  lemma StepKeepsOpen(s: Sys, w: Work, a: Act)
    requires Open(s.mode) && s.mode == Busy(w) && ActEnabled(s, w, a)
    ensures Open(ActApply(s, w, a).mode)
  {
    if Frames.OnRecord(a) { Frames.RecordHandled(s, w, a); } else { OtherKeepsOpen(s, w, a); }
  }

  lemma OtherKeepsOpen(s: Sys, w: Work, a: Act)
    requires Open(s.mode) && s.mode == Busy(w) && ActEnabled(s, w, a) && !Frames.OnRecord(a)
    ensures Open(ActApply(s, w, a).mode)
  {
    match a
    case Remote(call, _) => Frames.LearnKeeps(w, s.vms, call);
    case SetStatus(st) => StatusKeepsOpen(s, w, st);
    case Unlock => UnlockKeepsOpen(s, w);
    case DropNode => DropKeepsOpen(s, w);
    case _ =>
  }

  lemma StatusKeepsOpen(s: Sys, w: Work, st: Status)
    requires Open(s.mode) && s.mode == Busy(w) && !w.phase.Working?
    ensures Open(SetStatusApply(s, w, st).mode)
  {
  }

  lemma UnlockKeepsOpen(s: Sys, w: Work)
    requires s.mode == Busy(w) && w.phase.Concluded? && NamesNode(w.event)
    ensures Open(UnlockApply(s, w).mode)
  {
  }

  lemma DropKeepsOpen(s: Sys, w: Work)
    requires Open(s.mode) && s.mode == Busy(w) && w.event.DeleteNode?
    ensures Open(DropNodeApply(s, w).mode)
  {
  }

  lemma {:induction false} OpenWhileWorking(steps: seq<Machine.Step>)
    requires Legal(steps)
    ensures Open(Exec(steps).mode)
  {
    if steps != [] {
      var s, st := Exec(steps[..|steps| - 1]), steps[|steps| - 1];
      OpenWhileWorking(steps[..|steps| - 1]);
      match st
      case Env(e) => Frames.EnvExtends(s, e);
      case Loop(_) =>
      case Do(a) => StepKeepsOpen(s, s.mode.work, a);
    }
  }

  // ------------------------------------------------------------ the closing status

  /** What a use case's outcome means for its cluster. */
  function Verdict(ok: bool): Status {
    if ok then Status.Sync else Status.Error
  }

  /** The call was made in this state, for the event of `w`, and its status goes with what became of it;
      or a creation found no record to begin with. */
  predicate Marks(s: Sys, st: Status, w: Work) {
    && s.mode.Busy? && s.mode.work.event == w.event
    && StatusSet(st, w.event.cluster in s.clusters) in w.calls
    && w.phase.Concluded?
    && (st == Verdict(w.phase.ok) || (st == Creating && w.event.CreateCluster? && !w.phase.ok && w.event.cluster !in s.clusters))
  }

  ghost predicate NoFinish(steps: seq<Step>, i: nat) {
    forall j :: i <= j < |steps| ==> !(steps[j].Do? && steps[j].a.Finish?)
  }

  /** Step number `i` was that status update, and the event has not ended since. */
  ghost predicate MarkAt(steps: seq<Step>, i: nat, w: Work) {
    NoFinish(steps, i) && exists s, st :: At(steps, i, Do(SetStatus(st)), s) && Marks(s, st, w)
  }

  ghost predicate Marked(steps: seq<Step>, m: Mode) {
    m.Busy? && m.work.phase.Concluded? && m.work.statusDone ==> exists i: nat :: MarkAt(steps, i, m.work)
  }

  lemma MarkLater(a: seq<Step>, b: seq<Step>, i: nat, w: Work, w': Work)
    requires a <= b && MarkAt(a, i, w) && forall j :: |a| <= j < |b| ==> !(b[j].Do? && b[j].a.Finish?)
    requires w'.event == w.event && w'.phase == w.phase && w.calls <= w'.calls
    ensures MarkAt(b, i, w')
  {
    var s, st :| At(a, i, Do(SetStatus(st)), s) && Marks(s, st, w);
    AtLater(a, b, i, Do(SetStatus(st)), s);
    assert Marks(s, st, w');
  }

  lemma IsAt(steps: seq<Step>)
    requires Legal(steps) && steps != []
    ensures At(steps, |steps| - 1, steps[|steps| - 1], Exec(steps[..|steps| - 1]))
  {
    assert EndsIn(steps, |steps| - 1, Exec(steps[..|steps| - 1]));
  }

  /** Other steps neither conclude, nor count as a status update, nor take anything off the trace. */
  ghost predicate Stays(w: Work, m: Mode) {
    m.Busy? && m.work.event == w.event && m.work.statusDone == w.statusDone && m.work.phase == w.phase && w.calls <= m.work.calls
  }

  lemma ReadStays(s: Sys, w: Work)
    ensures Stays(w, ReadApply(s, w).mode)
  {
  }

  lemma SaveKeyStays(s: Sys, w: Work, key: string)
    ensures Stays(w, SaveKeyApply(s, w, key).mode)
  {
  }

  lemma SaveConfigStays(s: Sys, w: Work, config: string)
    ensures Stays(w, SaveConfigApply(s, w, config).mode)
  {
  }

  lemma SaveResourcesStays(s: Sys, w: Work)
    requires w.event.ChangeResources?
    ensures Stays(w, SaveResourcesApply(s, w).mode)
  {
  }

  lemma OtherStays(s: Sys, w: Work, a: Act)
    requires s.mode == Busy(w) && ActEnabled(s, w, a) && !a.SetStatus? && !a.Conclude? && !a.Finish?
    ensures Stays(w, ActApply(s, w, a).mode)
  {
    match a
    case ReadRecord => ReadStays(s, w);
    case SaveKey(key) => SaveKeyStays(s, w, key);
    case SaveConfig(config) => SaveConfigStays(s, w, config);
    case SaveResources => SaveResourcesStays(s, w);
    case _ => SpecialStays(s, w, a);
  }

  lemma SpecialStays(s: Sys, w: Work, a: Act)
    requires s.mode == Busy(w) && ActEnabled(s, w, a) && !a.SetStatus? && !a.Conclude? && !a.Finish? && !Frames.OnRecord(a)
    ensures Stays(w, ActApply(s, w, a).mode)
  {
    match a
    case Remote(call, _) => Frames.LearnKeeps(w, s.vms, call);
    case Unlock => UnlockStays(s, w);
    case DropNode => DropStays(s, w);
    case _ =>
  }

  lemma UnlockStays(s: Sys, w: Work)
    requires s.mode == Busy(w) && NamesNode(w.event)
    ensures Stays(w, UnlockApply(s, w).mode)
  {
  }

  lemma DropStays(s: Sys, w: Work)
    requires s.mode == Busy(w) && w.event.DeleteNode?
    ensures Stays(w, DropNodeApply(s, w).mode)
  {
  }

  lemma StatusMarks(s: Sys, w: Work, st: Status)
    requires s.mode == Busy(w) && ActEnabled(s, w, SetStatus(st))
    ensures var m := SetStatusApply(s, w, st).mode; m.work.phase.Concluded? ==> Marks(s, st, m.work)
  {
    var found := Stored(s, w).Some?;
    assert SetStatusApply(s, w, st).mode.work == Say(AfterStatus(w, found), StatusSet(st, found));
  }

  lemma StatusStepMarks(steps: seq<Step>, s: Sys, w: Work, st: Status, m: Mode)
    requires steps != [] && At(steps, |steps| - 1, Do(SetStatus(st)), s)
    requires m.Busy? && (m.work.phase.Concluded? ==> Marks(s, st, m.work))
    ensures Marked(steps, m)
  {
    if m.work.phase.Concluded? { assert MarkAt(steps, |steps| - 1, m.work); }
  }

  lemma StaysMarked(before: seq<Step>, steps: seq<Step>, w: Work, m: Mode)
    requires Marked(before, Busy(w)) && before <= steps && |steps| == |before| + 1 && Stays(w, m)
    requires !(steps[|before|].Do? && steps[|before|].a.Finish?)
    ensures Marked(steps, m)
  {
    if w.phase.Concluded? && w.statusDone {
      var i: nat :| MarkAt(before, i, w);
      MarkLater(before, steps, i, w, m.work);
    }
  }

  lemma ActMarks(steps: seq<Step>, s: Sys, w: Work, a: Act)
    requires steps != [] && At(steps, |steps| - 1, Do(a), s)
    requires s.mode == Busy(w) && Open(s.mode) && Marked(steps[..|steps| - 1], s.mode) && ActEnabled(s, w, a)
    ensures Marked(steps, ActApply(s, w, a).mode)
  {
    match a
    case SetStatus(st) =>
      StatusMarks(s, w, st);
      StatusStepMarks(steps, s, w, st, SetStatusApply(s, w, st).mode);
    case Conclude(_) =>
    case Finish(_) =>
    case _ =>
      OtherStays(s, w, a);
      StaysMarked(steps[..|steps| - 1], steps, w, ActApply(s, w, a).mode);
  }

  lemma {:induction false} AlwaysMarked(steps: seq<Step>)
    requires Legal(steps)
    ensures Marked(steps, Exec(steps).mode)
  {
    if steps != [] {
      var before, st := steps[..|steps| - 1], steps[|steps| - 1];
      var s := Exec(before);
      AlwaysMarked(before);
      match st
      case Env(e) =>
        Frames.EnvExtends(s, e);
        if s.mode.Busy? { StaysMarked(before, steps, s.mode.work, s.mode); }
      case Loop(_) =>
      case Do(a) =>
        OpenWhileWorking(before);
        IsAt(steps);
        ActMarks(steps, s, s.mode.work, a);
    }
  }

  /** Step number `i` gave the cluster this status if it was stored, and changed nothing else. */
  ghost predicate SetAt(steps: seq<Step>, i: nat, st: Status, c: string, found: bool) {
    exists before, after ::
      && At(steps, i, Do(SetStatus(st)), before) && Reaches(steps, i + 1, after) && (found <==> c in before.clusters)
      && (if found then Edits.OnlyRecord(before.clusters, after.clusters, c) && after.clusters[c] == before.clusters[c].(status := st)
          else after.clusters == before.clusters)
  }

  /** No event ended from step `i` up to step `k`. */
  ghost predicate SameEvent(steps: seq<Step>, i: nat, k: nat) {
    i < k <= |steps| && NoFinish(steps[..k], i)
  }

  /** The state after a step. */
  lemma StepAfter(steps: seq<Step>, i: nat, st: Step, s: Sys)
    requires Legal(steps) && At(steps, i, st, s)
    ensures Enabled(s, st) && Reaches(steps, i + 1, Next(s, st))
  {
    assert EndsIn(steps, i, s);
    PrefixLegal(steps, i + 1);
    assert steps[..i + 1][..i] == steps[..i];
    assert EndsIn(steps, i + 1, Next(s, st));
  }

  lemma {:induction false} PrefixLegal(steps: seq<Step>, k: nat)
    requires Legal(steps) && k <= |steps|
    ensures Legal(steps[..k])
    decreases |steps|
  {
    if k < |steps| {
      PrefixLegal(steps[..|steps| - 1], k);
      assert steps[..|steps| - 1][..k] == steps[..k];
    } else {
      assert steps[..k] == steps;
    }
  }

  lemma StatusIsSet(steps: seq<Step>, i: nat, st: Status, s: Sys, c: string)
    requires Legal(steps) && At(steps, i, Do(SetStatus(st)), s) && s.mode.Busy? && s.mode.work.event.cluster == c
    ensures SetAt(steps, i, st, c, c in s.clusters)
  {
    StepAfter(steps, i, Do(SetStatus(st)), s);
    Edits.StatusIsSet(s, s.mode.work, st);
    var after := SetStatusApply(s, s.mode.work, st);
    assert Reaches(steps, i + 1, after);
  }

  /** In every run: a use case that failed ends only after the worker has set its cluster's status to
      Error, one that succeeded (but for the deletion of a cluster) only after it has set it to Sync;
      whether the record was there is in the trace. Only a creation may also end because its record was
      missing at its very first status update. */
  lemma OutcomesAreShown(steps: seq<Step>, k: nat, ok: bool, w: Work) returns (i: nat, st: Status, found: bool)
    requires Legal(steps) && Took(steps, k, Finish(ok), Busy(w)) && (w.phase == Concluded(false) || (ok && !w.event.DeleteCluster?))
    ensures SameEvent(steps, i, k) && SetAt(steps, i, st, w.event.cluster, found) && StatusSet(st, found) in w.calls
    ensures w.phase.Concluded?
    ensures st == Verdict(w.phase.ok) || (w.event.CreateCluster? && !w.phase.ok && st == Creating && !found)
  {
    var s :| At(steps, k, Do(Finish(ok)), s) && s.mode == Busy(w);
    StepAfter(steps, k, Do(Finish(ok)), s);
    PrefixLegal(steps, k);
    assert EndsIn(steps, k, s);
    AlwaysMarked(steps[..k]);
    i := MarkOf(steps, k, w);
    var before;
    before, st := MarkedState(steps[..k], i, w);
    found := w.event.cluster in before.clusters;
    AtLater(steps[..k], steps, i, Do(SetStatus(st)), before);
    StatusIsSet(steps, i, st, before, w.event.cluster);
  }

  lemma MarkOf(steps: seq<Step>, k: nat, w: Work) returns (i: nat)
    requires k <= |steps| && Marked(steps[..k], Busy(w)) && w.phase.Concluded? && w.statusDone
    ensures MarkAt(steps[..k], i, w)
  {
    i :| MarkAt(steps[..k], i, w);
  }

  lemma MarkedState(steps: seq<Step>, i: nat, w: Work) returns (s: Sys, st: Status)
    requires MarkAt(steps, i, w)
    ensures At(steps, i, Do(SetStatus(st)), s) && Marks(s, st, w)
  {
    s, st :| At(steps, i, Do(SetStatus(st)), s) && Marks(s, st, w);
  }
}
