/** Carrying out one event (core/src/dispatcher/dispatcher.rs). */
module Dispatcher {
  import opened Model
  import opened Machine
  import opened World
  import opened Plan
  import opened Outcomes
  import Frames
  import CreateClusterUseCase = CreateCluster
  import DeleteClusterUseCase = DeleteCluster
  import AddNodeUseCase = AddNode
  import DeleteNodeUseCase = DeleteNode
  import ChangeResourcesUseCase = ChangeResources

  // ------------------------------------------------------------ what handling an event looks like

  /** The calls carry out the event's use case, up to its first failure if not `ok`. */
  ghost predicate UseCase(e: Event, calls: seq<Call>, ok: bool) {
    match e
    case CreateCluster(c) => CreateClusterUseCase.Creation(c, calls, ok)
    case DeleteCluster(c) => DeleteClusterUseCase.Deletion(c, calls, ok)
    case AddNode(c, name) => AddNodeUseCase.Addition(c, name, calls, ok)
    case DeleteNode(c, name) => DeleteNodeUseCase.Removal(c, name, calls, ok)
    case ChangeResources(_, name, cores, memory) => ChangeResourcesUseCase.Change(name, cores, memory, calls, ok)
  }

  /** The same, with the use cases kept out of the verifier's sight. */
  ghost predicate Follows(e: Event, calls: seq<Call>, ok: bool) {
    forall x :: x == e ==> UseCase(x, calls, ok)
  }

  /** What the dispatcher does once the use case is over: a failure, for the reason `why`, puts the
      cluster into status Error and logs the reason; a success puts it into Sync. */
  function Closing(e: Event, done: bool, why: string): seq<Task> {
    if !done then [Mark(Status.Error), Tell(Fault, why)]
    else
      match e
      case CreateCluster(_) => [Mark(Status.Sync), Tell(Info, "Cluster has been created")]
      case DeleteCluster(_) => []
      case AddNode(_, _) => [Tell(Info, "Node has been created"), FreeLock, Mark(Status.Sync)]
      case DeleteNode(_, _) => [Tell(Info, "Node has been deleted"), Mark(Status.Sync)]
      case ChangeResources(_, _, _, _) => [Tell(Info, "Resource for node has been changed"), Mark(Status.Sync), FreeLock]
  }

  /** How one event went: the calls of its use case, whether they were all that was to be done, the
      reason if not, and the closing calls. */
  datatype Course = Course(body: seq<Call>, done: bool, why: string, close: seq<Call>, closed: bool)

  function Opening(e: Event): seq<Call> {
    if e.CreateCluster? then [StatusSet(Creating, true)] else []
  }

  ghost predicate Went(e: Event, calls: seq<Call>, ok: bool, h: Course) {
    && calls == Opening(e) + h.body + h.close
    && Follows(e, h.body, h.done)
    && Ran(Closing(e, h.done, h.why), h.close, h.closed)
    && (ok <==> h.done && h.closed)
  }

  /** All that was done for the event, when it ends with this outcome. A creation whose record is gone
      is over at its first status update. */
  ghost predicate Handling(w: Work, ok: bool) {
    || (w.event.CreateCluster? && !ok && w.calls == [StatusSet(Creating, false)] && w.phase == Concluded(false))
    || (exists h :: Went(w.event, w.calls, ok, h) && w.phase == Concluded(h.done))
  }

  /** Step number `k` of the run ended an event with this outcome, in the worker's state `w`, which has
      on record all that was done for the event; success is reported only with the evidence for it. */
  ghost predicate Ended(steps: seq<Machine.Step>, k: nat, w: Work, ok: bool) {
    && k < |steps| && Took(steps, k, Machine.Finish(ok), Busy(w)) && Handling(w, ok)
    && (ok ==> w.phase == Concluded(true) && Evidence(w))
  }

  /** How every event ends: its `Finish` is the last step so far. */
  ghost predicate Done(event: Event, done: Work, steps: seq<Machine.Step>, ok: bool) {
    done.event == event && |steps| > 0 && Ended(steps, |steps| - 1, done, ok)
  }

  // ------------------------------------------------------------ closing

  /** `execute` has returned. */
  ghost predicate Returned(w: World, ok: bool)
    reads w
  {
    && w.Valid() && w.s.mode.Busy? && w.W().phase == Concluded(ok) && (ok ==> Evidence(w.W()))
  }

  /** Nothing changed but the trace and the two flags of the closing steps. */
  ghost predicate Closed(before: Work, after: Work, plan: seq<Task>, ok: bool) {
    && after == before.(calls := after.calls, statusDone := after.statusDone, unlocked := after.unlocked)
    && Did(before.calls, after.calls, plan, ok)
  }

  lemma ClosedThen(a: Work, b: Work, c: Work, p: seq<Task>, q: seq<Task>, ok: bool)
    requires Closed(a, b, p, true) && Closed(b, c, q, ok)
    ensures Closed(a, c, p + q, ok)
  {
    DidThen(a.calls, b.calls, c.calls, p, q, ok);
  }

  lemma ClosedBroken(a: Work, b: Work, p: seq<Task>, q: seq<Task>)
    requires Closed(a, b, p, false)
    ensures Closed(a, b, p + q, false)
  {
    DidBroken(a.calls, b.calls, p, q);
  }

  lemma SameEvidence(w: Work, w': Work)
    requires Evidence(w)
    requires w' == w.(phase := w'.phase, calls := w'.calls, statusDone := w'.statusDone, unlocked := w'.unlocked)
    ensures Evidence(w')
  {
    Frames.EvidenceStays(w, Busy(w'));
  }

  /** The status update number `k` of the run, and whether it found the record. */
  ghost predicate Decided(before: seq<Machine.Step>, after: seq<Machine.Step>, st: Status, c: string, found: bool) {
    exists k: nat :: |before| <= k < |after| && TookStatus(after, k, st, c, found)
  }

  lemma DecidedLater(s0: seq<Machine.Step>, s1: seq<Machine.Step>, s2: seq<Machine.Step>, st: Status, c: string, found: bool)
    requires s1 <= s2 && Decided(s0, s1, st, c, found)
    ensures Decided(s0, s2, st, c, found)
  {
    var k: nat :| |s0| <= k < |s1| && TookStatus(s1, k, st, c, found);
    TookStatusLater(s1, s2, k, st, c, found);
  }

  lemma DecidedEarlier(s0: seq<Machine.Step>, s1: seq<Machine.Step>, s2: seq<Machine.Step>, st: Status, c: string, found: bool)
    requires |s0| <= |s1| && Decided(s1, s2, st, c, found)
    ensures Decided(s0, s2, st, c, found)
  {
  }

  method Announce(w: World, level: Level, message: string, ghost ok: bool)
    requires Returned(w, ok)
    modifies w
    ensures Returned(w, ok) && w.Since(old(w.steps), old(w.s.dispatched))
    ensures Closed(old(w.W()), w.W(), [Tell(level, message)], true) && w.W() == old(w.W()).(calls := w.W().calls)
  {
    w.Log(level, message);
    DidOne(old(w.W()).calls, Tell(level, message), [Noted(level, message)], true);
    if ok { SameEvidence(old(w.W()), w.W()); }
  }

  /** `update_cluster_status` */
  method UpdateStatus(w: World, ok: bool) returns (r: Outcome)
    requires Returned(w, ok) && !(w.W().event.DeleteCluster? && ok)
    modifies w
    ensures Returned(w, ok) && w.Since(old(w.steps), old(w.s.dispatched))
    ensures Closed(old(w.W()), w.W(), [Mark(Verdict(ok))], r.Ok?)
    ensures w.W() == old(w.W()).(calls := w.W().calls, statusDone := true)
    ensures Decided(old(w.steps), w.steps, Verdict(ok), old(w.W()).event.cluster, r.Ok?)
  {
    r := w.SetStatus(Verdict(ok));
    DidOne(old(w.W()).calls, Mark(Verdict(ok)), [StatusSet(Verdict(ok), r.Ok?)], r.Ok?);
    if ok { SameEvidence(old(w.W()), w.W()); }
  }

  /** `get_cluster`, clear the lock, `save_cluster` */
  method ClearLock(w: World) returns (r: Outcome)
    requires Returned(w, true) && (w.W().event.AddNode? || w.W().event.ChangeResources?)
    modifies w
    ensures Returned(w, true) && w.Since(old(w.steps), old(w.s.dispatched))
    ensures Closed(old(w.W()), w.W(), [FreeLock], r.Ok?)
    ensures w.W() == (if r.Ok? then old(w.W()).(unlocked := true) else old(w.W())).(calls := w.W().calls)
  {
    ghost var before;
    r, before := w.Unlock();
    DidOne(old(w.W()).calls, FreeLock, [LockCleared(r.Ok?)], r.Ok?);
    SameEvidence(old(w.W()), w.W());
  }

  /** The event is over. */
  method End(w: World, ok: bool) returns (ghost done: Work)
    requires w.Valid() && w.s.mode.Busy? && ActEnabled(w.s, w.W(), Machine.Finish(ok))
    modifies w
    ensures w.Valid() && w.s.mode == Probing && w.Finished(old(w.steps), old(w.s.dispatched), old(w.W()).event)
    ensures done == old(w.W()) && |w.steps| > 0 && Took(w.steps, |w.steps| - 1, Machine.Finish(ok), Busy(done))
  {
    done := w.W();
    w.Finish(ok);
  }

  /** The failing branch of every arm: the status becomes Error if there is a record, and then, and
      only then, the reason is logged. */
  method Fail(w: World, e: string) returns (r: Outcome, ghost done: Work, ghost found: bool)
    requires Returned(w, false)
    modifies w
    ensures w.Valid() && w.s.mode == Probing && w.Finished(old(w.steps), old(w.s.dispatched), old(w.W()).event)
    ensures r == Err(e) && |w.steps| > 0 && Took(w.steps, |w.steps| - 1, Machine.Finish(false), Busy(done))
    ensures Closed(old(w.W()), done, [Mark(Status.Error), Tell(Fault, e)], found)
    ensures Decided(old(w.steps), w.steps, Status.Error, old(w.W()).event.cluster, found)
  {
    ghost var w0, s0 := w.W(), w.steps;
    r := MarkAndAnnounce(w, false, Fault, e);
    found := r.Ok?;
    assert [Mark(Status.Error)] + [Tell(Fault, e)] == [Mark(Status.Error), Tell(Fault, e)];
    ghost var s1 := w.steps;
    done := End(w, false);
    DecidedLater(s0, s1, w.steps, Status.Error, w0.event.cluster, found);
    r := Err(e);
  }

  /** The status, then, if that found the record, a log entry. */
  method MarkAndAnnounce(w: World, ok: bool, level: Level, message: string) returns (r: Outcome)
    requires Returned(w, ok) && !(w.W().event.DeleteCluster? && ok)
    modifies w
    ensures Returned(w, ok) && w.Since(old(w.steps), old(w.s.dispatched))
    ensures Closed(old(w.W()), w.W(), [Mark(Verdict(ok))] + [Tell(level, message)], r.Ok?)
    ensures w.W() == old(w.W()).(calls := w.W().calls, statusDone := true)
    ensures Decided(old(w.steps), w.steps, Verdict(ok), old(w.W()).event.cluster, r.Ok?)
  {
    ghost var w0, s0 := w.W(), w.steps;
    r := UpdateStatus(w, ok);
    ghost var w1, s1 := w.W(), w.steps;
    if r.Err? { ClosedBroken(w0, w1, [Mark(Verdict(ok))], [Tell(level, message)]); return; }
    Announce(w, level, message, ok);
    ClosedThen(w0, w1, w.W(), [Mark(Verdict(ok))], [Tell(level, message)], true);
    DecidedLater(s0, s1, w.steps, Verdict(ok), w0.event.cluster, true);
  }

  /** The status update of a successful creation, and its log entry: only a missing record can still
      turn the outcome into an error, and it always does. */
  method CloseCreation(w: World) returns (r: Outcome, ghost done: Work)
    requires Returned(w, true) && w.W().event.CreateCluster?
    modifies w
    ensures w.Valid() && w.s.mode == Probing && w.Finished(old(w.steps), old(w.s.dispatched), old(w.W()).event)
    ensures |w.steps| > 0 && Took(w.steps, |w.steps| - 1, Machine.Finish(r.Ok?), Busy(done)) && Evidence(done)
    ensures Closed(old(w.W()), done, [Mark(Status.Sync), Tell(Info, "Cluster has been created")], r.Ok?)
    ensures Decided(old(w.steps), w.steps, Status.Sync, old(w.W()).event.cluster, r.Ok?)
  {
    ghost var w0, s0 := w.W(), w.steps;
    r := MarkAndAnnounce(w, true, Info, "Cluster has been created");
    assert [Mark(Status.Sync)] + [Tell(Info, "Cluster has been created")] == [Mark(Status.Sync), Tell(Info, "Cluster has been created")];
    ghost var s1 := w.steps;
    done := End(w, r.Ok?);
    DecidedLater(s0, s1, w.steps, Status.Sync, w0.event.cluster, r.Ok?);
  }

  /** A log entry, then the status. */
  method AnnounceAndMark(w: World, message: string) returns (r: Outcome)
    requires Returned(w, true) && !w.W().event.DeleteCluster?
    modifies w
    ensures Returned(w, true) && w.Since(old(w.steps), old(w.s.dispatched))
    ensures Closed(old(w.W()), w.W(), [Tell(Info, message)] + [Mark(Status.Sync)], r.Ok?)
    ensures w.W() == old(w.W()).(calls := w.W().calls, statusDone := true)
    ensures Decided(old(w.steps), w.steps, Status.Sync, old(w.W()).event.cluster, r.Ok?)
  {
    ghost var w0, s0 := w.W(), w.steps;
    Announce(w, Info, message, true);
    ghost var w1, s1 := w.W(), w.steps;
    r := UpdateStatus(w, true);
    ClosedThen(w0, w1, w.W(), [Tell(Info, message)], [Mark(Status.Sync)], r.Ok?);
    DecidedEarlier(s0, s1, w.steps, Status.Sync, w0.event.cluster, r.Ok?);
  }

  method CloseRemoval(w: World) returns (r: Outcome, ghost done: Work)
    requires Returned(w, true) && w.W().event.DeleteNode? && w.W().removed == w.W().unlocked
    modifies w
    ensures w.Valid() && w.s.mode == Probing && w.Finished(old(w.steps), old(w.s.dispatched), old(w.W()).event)
    ensures |w.steps| > 0 && Took(w.steps, |w.steps| - 1, Machine.Finish(r.Ok?), Busy(done)) && Evidence(done)
    ensures Closed(old(w.W()), done, [Tell(Info, "Node has been deleted"), Mark(Status.Sync)], r.Ok?)
    ensures Decided(old(w.steps), w.steps, Status.Sync, old(w.W()).event.cluster, r.Ok?)
  {
    ghost var w0, s0 := w.W(), w.steps;
    r := AnnounceAndMark(w, "Node has been deleted");
    assert [Tell(Info, "Node has been deleted")] + [Mark(Status.Sync)] == [Tell(Info, "Node has been deleted"), Mark(Status.Sync)];
    ghost var s1 := w.steps;
    done := End(w, r.Ok?);
    DecidedLater(s0, s1, w.steps, Status.Sync, w0.event.cluster, r.Ok?);
  }

  /** A log entry, then the lock is cleared, then, if that found the node, the status is set. */
  method CloseAddition(w: World) returns (r: Outcome, ghost done: Work)
    requires Returned(w, true) && w.W().event.AddNode? && !w.W().statusDone && !w.W().unlocked
    modifies w
    ensures w.Valid() && w.s.mode == Probing && w.Finished(old(w.steps), old(w.s.dispatched), old(w.W()).event)
    ensures |w.steps| > 0 && Took(w.steps, |w.steps| - 1, Machine.Finish(r.Ok?), Busy(done)) && Evidence(done)
    ensures Closed(old(w.W()), done, [Tell(Info, "Node has been created"), FreeLock, Mark(Status.Sync)], r.Ok?)
    ensures done.statusDone == done.unlocked && (r.Ok? ==> done.unlocked)
  {
    ghost var w0 := w.W();
    r := AnnounceAndUnlock(w);
    assert [Tell(Info, "Node has been created")] + ([FreeLock] + [Mark(Status.Sync)]) == [Tell(Info, "Node has been created"), FreeLock, Mark(Status.Sync)];
    done := End(w, r.Ok?);
  }

  method AnnounceAndUnlock(w: World) returns (r: Outcome)
    requires Returned(w, true) && w.W().event.AddNode? && !w.W().statusDone && !w.W().unlocked
    modifies w
    ensures Returned(w, true) && w.Since(old(w.steps), old(w.s.dispatched))
    ensures Closed(old(w.W()), w.W(), [Tell(Info, "Node has been created")] + ([FreeLock] + [Mark(Status.Sync)]), r.Ok?)
    ensures w.W().statusDone == w.W().unlocked && (r.Ok? ==> w.W().unlocked)
  {
    ghost var w0 := w.W();
    Announce(w, Info, "Node has been created", true);
    ghost var w1 := w.W();
    r := UnlockAndMark(w);
    ClosedThen(w0, w1, w.W(), [Tell(Info, "Node has been created")], [FreeLock] + [Mark(Status.Sync)], r.Ok?);
  }

  method UnlockAndMark(w: World) returns (r: Outcome)
    requires Returned(w, true) && w.W().event.AddNode? && !w.W().statusDone && !w.W().unlocked
    modifies w
    ensures Returned(w, true) && w.Since(old(w.steps), old(w.s.dispatched))
    ensures Closed(old(w.W()), w.W(), [FreeLock] + [Mark(Status.Sync)], r.Ok?)
    ensures w.W().statusDone == w.W().unlocked && (r.Ok? ==> w.W().unlocked)
  {
    ghost var w0 := w.W();
    r := ClearLock(w);
    ghost var w1 := w.W();
    if r.Err? { ClosedBroken(w0, w1, [FreeLock], [Mark(Status.Sync)]); return; }
    r := UpdateStatus(w, true);
    ClosedThen(w0, w1, w.W(), [FreeLock], [Mark(Status.Sync)], r.Ok?);
  }

  /** Sets the status, then, if that found the record, clears the lock. */
  method CloseChange(w: World) returns (r: Outcome, ghost done: Work)
    requires Returned(w, true) && w.W().event.ChangeResources? && !w.W().unlocked
    modifies w
    ensures w.Valid() && w.s.mode == Probing && w.Finished(old(w.steps), old(w.s.dispatched), old(w.W()).event)
    ensures |w.steps| > 0 && Took(w.steps, |w.steps| - 1, Machine.Finish(r.Ok?), Busy(done)) && Evidence(done)
    ensures Closed(old(w.W()), done, [Tell(Info, "Resource for node has been changed"), Mark(Status.Sync), FreeLock], r.Ok?)
    ensures done.statusDone && (r.Ok? <==> done.unlocked)
  {
    ghost var w0, tell, rest := w.W(), [Tell(Info, "Resource for node has been changed")], [Mark(Status.Sync)] + [FreeLock];
    assert tell + rest == [Tell(Info, "Resource for node has been changed"), Mark(Status.Sync), FreeLock];
    Announce(w, Info, "Resource for node has been changed", true);
    ghost var w1 := w.W();
    r := MarkAndUnlock(w);
    ClosedThen(w0, w1, w.W(), tell, rest, r.Ok?);
    done := End(w, r.Ok?);
  }

  method MarkAndUnlock(w: World) returns (r: Outcome)
    requires Returned(w, true) && w.W().event.ChangeResources? && !w.W().unlocked
    modifies w
    ensures Returned(w, true) && w.Since(old(w.steps), old(w.s.dispatched))
    ensures Closed(old(w.W()), w.W(), [Mark(Status.Sync)] + [FreeLock], r.Ok?)
    ensures w.W().statusDone && (r.Ok? <==> w.W().unlocked)
  {
    ghost var w0 := w.W();
    r := UpdateStatus(w, true);
    ghost var w1 := w.W();
    if r.Err? { ClosedBroken(w0, w1, [Mark(Status.Sync)], [FreeLock]); return; }
    r := ClearLock(w);
    ClosedThen(w0, w1, w.W(), [Mark(Status.Sync)], [FreeLock], r.Ok?);
  }

  // ------------------------------------------------------------ the arms

  lemma StillOpen(w: World)
    requires w.InEvent()
    ensures !w.W().statusDone && (w.W().event.AddNode? || w.W().event.ChangeResources? ==> !w.W().unlocked)
  {
    w.RunIsLegal();
    OpenWhileWorking(w.steps);
  }

  /** Returns from `execute`. */
  method Conclude(w: World, ok: bool)
    requires w.InEvent() && (ok ==> Evidence(w.W()))
    modifies w
    ensures Returned(w, ok) && w.Since(old(w.steps), old(w.s.dispatched))
    ensures w.W() == old(w.W()).(phase := Concluded(ok)) && !w.W().statusDone
    ensures w.W().event.AddNode? || w.W().event.ChangeResources? ==> !w.W().unlocked
  {
    StillOpen(w);
    w.Conclude(ok);
    if ok { SameEvidence(old(w.W()), w.W()); }
  }

  /** The use case is over; this is what it did. */
  ghost predicate Fits(w: Work, body: seq<Call>, ok: bool) {
    w.phase == Concluded(ok) && w.calls == Opening(w.event) + body && Follows(w.event, body, ok)
  }

  /** The pieces make up the handling of the event. */
  lemma Put(w0: Work, done: Work, body: seq<Call>, ok: bool, why: string, closed: bool)
    requires Fits(w0, body, ok) && Closed(w0, done, Closing(w0.event, ok, why), closed)
    ensures Handling(done, ok && closed)
  {
    var h := Course(body, ok, why, done.calls[|w0.calls|..], closed);
    assert Went(done.event, done.calls, ok && closed, h);
  }

  /** What the guards of the closing steps ask for. */
  ghost predicate MayClose(w: Work) {
    && !w.statusDone && (w.event.AddNode? || w.event.ChangeResources? ==> !w.unlocked)
    && (w.event.DeleteNode? ==> w.removed == w.unlocked)
  }

  /** The record is gone, and there is nothing left to do. */
  method CloseDeletion(w: World) returns (r: Outcome, ghost done: Work)
    requires Returned(w, true) && MayClose(w.W()) && w.W().event.DeleteCluster?
    modifies w
    ensures w.Valid() && w.s.mode == Probing && w.Finished(old(w.steps), old(w.s.dispatched), old(w.W()).event)
    ensures |w.steps| > 0 && Took(w.steps, |w.steps| - 1, Machine.Finish(r.Ok?), Busy(done)) && Evidence(done)
    ensures Closed(old(w.W()), done, Closing(old(w.W()).event, true, ""), r.Ok?)
  {
    DidNothing(w.W().calls);
    done := End(w, true);
    r := Ok(());
  }

  /** The successful branches of the arms about one node. */
  method CloseNodeEvent(w: World) returns (r: Outcome, ghost done: Work)
    requires Returned(w, true) && MayClose(w.W()) && NamesNode(w.W().event)
    modifies w
    ensures w.Valid() && w.s.mode == Probing && w.Finished(old(w.steps), old(w.s.dispatched), old(w.W()).event)
    ensures |w.steps| > 0 && Took(w.steps, |w.steps| - 1, Machine.Finish(r.Ok?), Busy(done)) && Evidence(done)
    ensures Closed(old(w.W()), done, Closing(old(w.W()).event, true, ""), r.Ok?)
  {
    match w.s.mode.work.event
    case AddNode(_, _) => r, done := CloseAddition(w);
    case DeleteNode(_, _) => r, done := CloseRemoval(w);
    case ChangeResources(_, _, _, _) => r, done := CloseChange(w);
  }

  /** The successful branch of every arm. */
  method CloseSuccess(w: World) returns (r: Outcome, ghost done: Work)
    requires Returned(w, true) && MayClose(w.W())
    modifies w
    ensures w.Valid() && w.s.mode == Probing && w.Finished(old(w.steps), old(w.s.dispatched), old(w.W()).event)
    ensures |w.steps| > 0 && Took(w.steps, |w.steps| - 1, Machine.Finish(r.Ok?), Busy(done)) && Evidence(done)
    ensures Closed(old(w.W()), done, Closing(old(w.W()).event, true, ""), r.Ok?)
  {
    if NamesNode(w.s.mode.work.event) {
      r, done := CloseNodeEvent(w);
    } else if w.s.mode.work.event.CreateCluster? {
      r, done := CloseCreation(w);
    } else {
      r, done := CloseDeletion(w);
    }
  }

  /** The `match` on what `execute` returned. */
  method Settle(w: World, result: Outcome, ghost body: seq<Call>) returns (r: Outcome, ghost done: Work)
    requires Returned(w, result.Ok?) && Fits(w.W(), body, result.Ok?) && (result.Ok? ==> MayClose(w.W()))
    modifies w
    ensures w.Valid() && w.s.mode == Probing && w.Finished(old(w.steps), old(w.s.dispatched), old(w.W()).event)
    ensures Done(old(w.W()).event, done, w.steps, r.Ok?)
  {
    ghost var w0 := w.W();
    match result
    case Ok(_) =>
      r, done := CloseSuccess(w);
      Put(w0, done, body, true, "", r.Ok?);
    case Err(e) =>
      ghost var found;
      r, done, found := Fail(w, e);
      Put(w0, done, body, false, e, found);
  }

  /** The record was gone before the creation could begin. */
  method NeverBegun(w: World) returns (ghost done: Work)
    requires w.Valid() && w.s.mode.Busy? && w.W().event.CreateCluster?
    requires w.W().phase == Concluded(false) && w.W().statusDone && w.W().calls == [StatusSet(Creating, false)]
    modifies w
    ensures w.Valid() && w.s.mode == Probing && w.Finished(old(w.steps), old(w.s.dispatched), old(w.W()).event)
    ensures Done(old(w.W()).event, done, w.steps, false)
  {
    done := End(w, false);
  }

  method DispatchCreateCluster(w: World) returns (r: Outcome, ghost done: Work)
    requires w.Valid() && w.s.mode.Busy? && w.W().event.CreateCluster? && w.W() == StartWork(w.W().event)
    modifies w
    ensures w.Valid() && w.s.mode == Probing && w.Finished(old(w.steps), old(w.s.dispatched), old(w.W()).event)
    ensures Done(old(w.W()).event, done, w.steps, r.Ok?)
  {
    r := w.SetStatus(Creating);
    if r.Err? {
      done := NeverBegun(w);
      return;
    }
    r, done := CreateAndClose(w);
  }

  method CreateAndClose(w: World) returns (r: Outcome, ghost done: Work)
    requires w.InEvent() && w.W().event.CreateCluster? && w.W().made == {} && !w.W().tainted
    requires w.W().calls == [StatusSet(Creating, true)]
    modifies w
    ensures w.Valid() && w.s.mode == Probing && w.Finished(old(w.steps), old(w.s.dispatched), old(w.W()).event)
    ensures Done(old(w.W()).event, done, w.steps, r.Ok?)
  {
    ghost var body;
    r, body := CreateClusterUseCase.Execute(w);
    Conclude(w, r.Ok?);
    Tied(w.W().event, body, r.Ok?);
    r, done := Settle(w, r, body);
  }

  lemma Tied(e: Event, body: seq<Call>, ok: bool)
    requires UseCase(e, body, ok)
    ensures Follows(e, body, ok)
  {
  }

  method DispatchDeleteCluster(w: World) returns (r: Outcome, ghost done: Work)
    requires w.InEvent() && w.W().event.DeleteCluster? && w.W() == StartWork(w.W().event)
    modifies w
    ensures w.Valid() && w.s.mode == Probing && w.Finished(old(w.steps), old(w.s.dispatched), old(w.W()).event)
    ensures Done(old(w.W()).event, done, w.steps, r.Ok?)
  {
    ghost var body;
    r, body := DeleteClusterUseCase.Execute(w);
    Conclude(w, r.Ok?);
    Tied(w.W().event, body, r.Ok?);
    r, done := Settle(w, r, body);
  }

  method DispatchAddNode(w: World) returns (r: Outcome, ghost done: Work)
    requires w.InEvent() && w.W().event.AddNode? && w.W() == StartWork(w.W().event)
    modifies w
    ensures w.Valid() && w.s.mode == Probing && w.Finished(old(w.steps), old(w.s.dispatched), old(w.W()).event)
    ensures Done(old(w.W()).event, done, w.steps, r.Ok?)
  {
    ghost var body;
    r, body := AddNodeUseCase.Execute(w);
    Conclude(w, r.Ok?);
    Tied(w.W().event, body, r.Ok?);
    r, done := Settle(w, r, body);
  }

  method DispatchDeleteNode(w: World) returns (r: Outcome, ghost done: Work)
    requires w.InEvent() && w.W().event.DeleteNode? && w.W() == StartWork(w.W().event)
    modifies w
    ensures w.Valid() && w.s.mode == Probing && w.Finished(old(w.steps), old(w.s.dispatched), old(w.W()).event)
    ensures Done(old(w.W()).event, done, w.steps, r.Ok?)
  {
    ghost var body;
    r, body := DeleteNodeUseCase.Execute(w);
    Conclude(w, r.Ok?);
    Tied(w.W().event, body, r.Ok?);
    r, done := Settle(w, r, body);
  }

  method DispatchChangeResources(w: World) returns (r: Outcome, ghost done: Work)
    requires w.InEvent() && w.W().event.ChangeResources? && w.W() == StartWork(w.W().event)
    modifies w
    ensures w.Valid() && w.s.mode == Probing && w.Finished(old(w.steps), old(w.s.dispatched), old(w.W()).event)
    ensures Done(old(w.W()).event, done, w.steps, r.Ok?)
  {
    ghost var body, before;
    r, body, before := ChangeResourcesUseCase.Execute(w);
    Conclude(w, r.Ok?);
    Tied(w.W().event, body, r.Ok?);
    r, done := Settle(w, r, body);
  }

  /** `Dispatcher::dispatch` */
  method Dispatch(w: World, event: Event) returns (r: Outcome, ghost done: Work)
    requires w.Valid() && w.s.mode == Busy(StartWork(event))
    modifies w
    ensures w.Valid() && w.s.mode == Probing && w.Finished(old(w.steps), old(w.s.dispatched), event)
    ensures Done(event, done, w.steps, r.Ok?)
  {
    match event
    case CreateCluster(_) => r, done := DispatchCreateCluster(w);
    case DeleteCluster(_) => r, done := DispatchDeleteCluster(w);
    case AddNode(_, _) => r, done := DispatchAddNode(w);
    case DeleteNode(_, _) => r, done := DispatchDeleteNode(w);
    case ChangeResources(_, _, _, _) => r, done := DispatchChangeResources(w);
  }
}
