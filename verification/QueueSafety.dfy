/** The event channel loses nothing, reorders nothing and never holds more than its capacity; the
    worker stops only when told to (core/src/operator.rs:44-82 and `Drop`, :34-43). */
module QueueSafety {
  import opened Model
  import opened Machine
  import opened Frames

  function Current(s: Sys): seq<Event> {
    if s.mode.Busy? then [s.mode.work.event] else []
  }

  ghost predicate InOrder(s: Sys) {
    && s.sent == s.dispatched + Current(s) + s.queue
    && |s.queue| <= CAPACITY
    && s.probedAt <= |s.sent|
    && (s.mode.Napping? || s.mode.Exited? ==> s.dispatched == s.sent[..s.probedAt] && s.queue == s.sent[s.probedAt..])
    && (s.mode.Exited? ==> s.shutdown)
  }

  lemma InOrderEnv(s: Sys, e: EnvStep)
    requires InOrder(s) && EnvEnabled(s, e)
    ensures InOrder(EnvApply(s, e))
  {
    match e
    case Send(ev) =>
      assert s.dispatched + Current(s) + (s.queue + [ev]) == (s.dispatched + Current(s) + s.queue) + [ev];
      if s.mode.Napping? || s.mode.Exited? {
        assert (s.sent + [ev])[..s.probedAt] == s.sent[..s.probedAt];
        assert (s.sent + [ev])[s.probedAt..] == s.sent[s.probedAt..] + [ev];
      }
    case _ =>
  }

  lemma InOrderStep(s: Sys, st: Step)
    requires InOrder(s) && Enabled(s, st)
    ensures InOrder(Next(s, st))
  {
    match st
    case Env(e) => InOrderEnv(s, e);
    case Loop(l) =>
      if l.Take? { assert s.queue == [s.queue[0]] + s.queue[1..]; }
    case Do(a) =>
      ActKeepsEvent(s, s.mode.work, a);
      assert s.dispatched + Current(s) == s.dispatched + [s.mode.work.event];
  }

  /** In every reachable state the events sent are those dispatched, then the one in hand, then the
      queue, in this order, with at most ten queued; and a worker that has exited was told to shut
      down, has dispatched everything sent before its last empty probe, and leaves behind exactly
      what was sent after it. */
  lemma {:induction false} QueueIsSafe(steps: seq<Step>)
    requires Legal(steps)
    ensures var s := Exec(steps);
      && s.sent == s.dispatched + Current(s) + s.queue
      && |s.queue| <= CAPACITY
      && s.probedAt <= |s.sent|
      && (s.mode.Exited? ==> s.shutdown && s.dispatched == s.sent[..s.probedAt] && s.queue == s.sent[s.probedAt..])
    ensures InOrder(Exec(steps))
  {
    if steps != [] {
      QueueIsSafe(steps[..|steps| - 1]);
      InOrderStep(Exec(steps[..|steps| - 1]), steps[|steps| - 1]);
    }
  }

  /** The operator is dropped by its last owner, when no request is under way any more and none can
      begin: this exclusive ownership is assumed, as the guards of the steps of callers (`EnvEnabled`).
      Nothing enters the channel once shutdown was requested, so an exited worker strands only
      events sent in the nap between its last empty probe and the flag. */
  ghost predicate Sealed(s: Sys) {
    s.shutdown ==> s.inflight == multiset{}
  }

  lemma {:induction false} NothingSentAfterShutdown(steps: seq<Step>)
    requires Legal(steps)
    ensures Sealed(Exec(steps))
    ensures Exec(steps).shutdown ==> forall e: Event :: !Enabled(Exec(steps), Env(Send(e)))
  {
    if steps != [] {
      var s, st := Exec(steps[..|steps| - 1]), steps[|steps| - 1];
      NothingSentAfterShutdown(steps[..|steps| - 1]);
      if st.Do? { ActKeepsEvent(s, s.mode.work, st.a); }
    }
  }
}
