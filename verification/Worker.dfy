/** The background worker: the loop around the dispatcher (core/src/operator.rs:55-81). */
module Worker {
  import opened Model
  import opened Machine
  import opened World
  import Dispatcher
  import Frames

  predicate IsFinish(st: Machine.Step) {
    st.Do? && st.a.Finish?
  }

  function Finishes(steps: seq<Machine.Step>): nat {
    if steps == [] then 0 else Finishes(steps[..|steps| - 1]) + if IsFinish(steps[|steps| - 1]) then 1 else 0
  }

  lemma {:induction false} FinishesGrow(a: seq<Machine.Step>, b: seq<Machine.Step>)
    requires a <= b
    ensures Finishes(a) <= Finishes(b)
  {
    if a != b {
      assert a <= b[..|b| - 1];
      FinishesGrow(a, b[..|b| - 1]);
    }
  }

  /** Events finished and `Finish` steps taken are the same in number. */
  lemma {:induction false} FinishedEvents(steps: seq<Machine.Step>)
    requires Legal(steps)
    ensures |Exec(steps).dispatched| == Finishes(steps)
  {
    if steps != [] {
      var s, st := Exec(steps[..|steps| - 1]), steps[|steps| - 1];
      FinishedEvents(steps[..|steps| - 1]);
      match st
      case Env(e) => Frames.EnvFinishesNothing(s, e);
      case Loop(_) =>
      case Do(a) => Frames.ActKeepsEvent(s, s.mode.work, a);
    }
  }

  lemma FinishCounts(a: seq<Machine.Step>, b: seq<Machine.Step>, k: nat)
    requires a <= b && |a| <= k < |b| && IsFinish(b[k])
    ensures Finishes(a) + 1 <= Finishes(b[..k + 1]) <= Finishes(b)
  {
    assert a <= b[..k];
    FinishesGrow(a, b[..k]);
    assert b[..k + 1][..k] == b[..k];
    FinishesGrow(b[..k + 1], b);
  }

  /** A stretch of the run with no more finished events has no `Finish` step. */
  lemma NoneFinished(a: seq<Machine.Step>, b: seq<Machine.Step>)
    requires a <= b && Finishes(a) == Finishes(b)
    ensures forall k :: |a| <= k < |b| ==> !IsFinish(b[k])
  {
    forall k | |a| <= k < |b| && IsFinish(b[k]) ensures false { FinishCounts(a, b, k); }
  }

  /** A stretch with one more finished event that ends in a `Finish` step has no other. */
  lemma OneFinished(a: seq<Machine.Step>, b: seq<Machine.Step>)
    requires a <= b && |a| < |b| && Finishes(b) == Finishes(a) + 1 && IsFinish(b[|b| - 1])
    ensures forall k :: |a| <= k < |b| - 1 ==> !IsFinish(b[k])
  {
    assert a <= b[..|b| - 1];
    NoneFinished(a, b[..|b| - 1]);
  }

  /** An event that the worker has handled: the step that ended it, the worker's state then, and
      the outcome. */
  datatype Handled = Handled(at: nat, work: Work, ok: bool)

  function EventsOf(history: seq<Handled>): seq<Event> {
    seq(|history|, i requires 0 <= i < |history| => history[i].work.event)
  }

  /** The event ended at that step. (The bound variable keeps the verifier from replaying the event.) */
  ghost predicate Closes(steps: seq<Machine.Step>, h: Handled) {
    forall x :: x == h ==> x.at < |steps| && IsFinish(steps[x.at]) && Dispatcher.Ended(steps, x.at, x.work, x.ok)
  }

  /** The history accounts for the run since `before`: its entries are the `Finish` steps taken, all
      of them and in order, and every one of them ended an event whose calls followed its use case. */
  ghost predicate Accounts(before: seq<Machine.Step>, steps: seq<Machine.Step>, history: seq<Handled>) {
    && (forall i :: 0 <= i < |history| ==> |before| <= history[i].at < |steps| && Closes(steps, history[i]))
    && (forall i, j :: 0 <= i < j < |history| ==> history[i].at < history[j].at)
    && (forall k :: |before| <= k < |steps| && IsFinish(steps[k]) ==> exists i :: 0 <= i < |history| && history[i].at == k)
  }

  lemma ClosesLater(a: seq<Machine.Step>, b: seq<Machine.Step>, h: Handled)
    requires a <= b && Closes(a, h)
    ensures Closes(b, h)
  {
    assert Dispatcher.Ended(a, h.at, h.work, h.ok);
    TookLater(a, b, h.at, Machine.Finish(h.ok), Busy(h.work));
  }

  lemma AccountsLater(before: seq<Machine.Step>, a: seq<Machine.Step>, b: seq<Machine.Step>, history: seq<Handled>)
    requires before <= a <= b && Accounts(before, a, history) && Finishes(a) == Finishes(b)
    ensures Accounts(before, b, history)
  {
    NoneFinished(a, b);
    EntryLater(before, a, b, history);
    assert forall k :: 0 <= k < |a| ==> b[k] == a[k];
  }

  lemma EntryLater(before: seq<Machine.Step>, a: seq<Machine.Step>, b: seq<Machine.Step>, history: seq<Handled>)
    requires a <= b && Accounts(before, a, history)
    ensures forall i :: 0 <= i < |history| ==> history[i].at < |a| && Closes(b, history[i])
  {
    forall i | 0 <= i < |history| ensures history[i].at < |a| && Closes(b, history[i]) { ClosesLater(a, b, history[i]); }
  }

  lemma AccountsMore(before: seq<Machine.Step>, a: seq<Machine.Step>, b: seq<Machine.Step>, history: seq<Handled>, h: Handled)
    requires before <= a <= b && |a| < |b| && Accounts(before, a, history) && Finishes(b) == Finishes(a) + 1
    requires h.at == |b| - 1 && Closes(b, h)
    ensures Accounts(before, b, history + [h])
  {
    assert IsFinish(b[h.at]);
    OneFinished(a, b);
    EntryLater(before, a, b, history);
    AllAccounted(before, a, b, history, h);
    AllInOrder(|before|, |a|, b, history, h);
  }

  lemma AllInOrder(from: nat, until: nat, b: seq<Machine.Step>, history: seq<Handled>, h: Handled)
    requires forall i :: 0 <= i < |history| ==> from <= history[i].at < until && Closes(b, history[i])
    requires forall i, j :: 0 <= i < j < |history| ==> history[i].at < history[j].at
    requires from <= until <= h.at < |b| && Closes(b, h)
    ensures forall i :: 0 <= i < |history + [h]| ==> from <= (history + [h])[i].at < |b| && Closes(b, (history + [h])[i])
    ensures forall i, j :: 0 <= i < j < |history + [h]| ==> (history + [h])[i].at < (history + [h])[j].at
  {
  }

  lemma AllAccounted(before: seq<Machine.Step>, a: seq<Machine.Step>, b: seq<Machine.Step>, history: seq<Handled>, h: Handled)
    requires a <= b && forall k :: |a| <= k < |b| - 1 ==> !IsFinish(b[k])
    requires forall k :: |before| <= k < |a| && IsFinish(a[k]) ==> exists i :: 0 <= i < |history| && history[i].at == k
    requires h.at == |b| - 1
    ensures forall k :: |before| <= k < |b| && IsFinish(b[k]) ==> exists i :: 0 <= i < |history + [h]| && (history + [h])[i].at == k
  {
    var all := history + [h];
    forall k | |before| <= k < |b| && IsFinish(b[k]) ensures exists i :: 0 <= i < |all| && all[i].at == k {
      if k < |a| {
        assert a[k] == b[k];
        var i :| 0 <= i < |history| && history[i].at == k;
        assert all[i].at == k;
      } else {
        assert all[|history|].at == k;
      }
    }
  }

  /** Carries out the event that was taken from the channel. */
  method Handle(w: World, event: Event, ghost before: seq<Machine.Step>, ghost history: seq<Handled>) returns (ghost next: seq<Handled>)
    requires w.Valid() && w.s.mode == Busy(StartWork(event)) && before <= w.steps && Accounts(before, w.steps, history)
    modifies w
    ensures w.Valid() && w.s.mode.Probing? && old(w.steps) <= w.steps && Accounts(before, w.steps, next)
    ensures |next| == |history| + 1 && next[..|history|] == history
    ensures w.s.dispatched == old(w.s.dispatched) + [next[|history|].work.event]
  {
    ghost var s0 := w.steps;
    Counted(w);
    var r;
    ghost var done;
    r, done := Dispatcher.Dispatch(w, event);
    Counted(w);
    assert s0 != w.steps;
    ghost var h := Handled(|w.steps| - 1, done, r.Ok?);
    assert Closes(w.steps, h);
    next := history + [h];
    AccountsMore(before, s0, w.steps, history, h);
  }

  /** There was nothing to take. */
  method Rest(w: World, ghost before: seq<Machine.Step>, ghost history: seq<Handled>)
    requires w.Valid() && w.s.mode.Napping? && before <= w.steps && Accounts(before, w.steps, history)
    modifies w
    ensures w.Valid() && old(w.steps) <= w.steps && Accounts(before, w.steps, history)
    ensures w.s.dispatched == old(w.s.dispatched) && (if w.s.shutdown then w.s.mode.Exited? else w.s.mode.Probing?)
  {
    ghost var s0 := w.steps;
    Counted(w);
    w.Nap();
    Counted(w);
    AccountsLater(before, s0, w.steps, history);
  }

  /** Looks for an event. */
  method Look(w: World, ghost before: seq<Machine.Step>, ghost history: seq<Handled>) returns (event: Option<Event>)
    requires w.Valid() && w.s.mode.Probing? && before <= w.steps && Accounts(before, w.steps, history)
    modifies w
    ensures w.Valid() && old(w.steps) <= w.steps && Accounts(before, w.steps, history) && w.s.dispatched == old(w.s.dispatched)
    ensures if event.Some? then w.s.mode == Busy(StartWork(event.value)) else w.s.mode.Napping?
  {
    ghost var s0 := w.steps;
    Counted(w);
    ghost var from;
    event, from := w.TryReceive();
    Counted(w);
    AccountsLater(before, s0, w.steps, history);
  }

  /** Takes one event, if there is one, and carries it out; otherwise naps. */
  method Round(w: World, ghost before: seq<Machine.Step>, ghost history: seq<Handled>)
      returns (handled: bool, ghost next: seq<Handled>)
    requires w.Valid() && w.s.mode.Probing? && before <= w.steps && Accounts(before, w.steps, history)
    modifies w
    ensures w.Valid() && old(w.steps) <= w.steps && Accounts(before, w.steps, next)
    ensures if handled then w.s.mode.Probing? && |next| == |history| + 1 && next[..|history|] == history
                         && w.s.dispatched == old(w.s.dispatched) + [next[|history|].work.event]
            else next == history && w.s.dispatched == old(w.s.dispatched) && (if w.s.shutdown then w.s.mode.Exited? else w.s.mode.Probing?)
  {
    var event := Look(w, before, history);
    handled, next := event.Some?, history;
    if event.Some? {
      next := Handle(w, event.value, before, history);
    } else {
      Rest(w, before, history);
    }
  }

  lemma Counted(w: World)
    requires w.Valid()
    ensures |w.s.dispatched| == Finishes(w.steps)
  {
    w.RunIsLegal();
    FinishedEvents(w.steps);
  }

  /** The worker's loop, cut off after `rounds` probes of the channel. Whatever the callers, the
      hypervisor and the outside world do meanwhile, it extends the run by legal steps only; it
      finishes the events of `history`, one after the other, and for each of them the calls that the
      run has on record when it ends keep to that event's use case. It stops early only when told to. */
  method RunWorker(w: World, rounds: nat) returns (ghost history: seq<Handled>, ghost naps: nat)
    requires w.Valid() && w.s.mode.Probing?
    modifies w
    ensures w.Valid() && (w.s.mode.Probing? || w.s.mode.Exited?) && old(w.steps) <= w.steps
    ensures Legal(w.steps) && w.s == Exec(w.steps)
    ensures Accounts(old(w.steps), w.steps, history)
    ensures w.s.dispatched == old(w.s.dispatched) + EventsOf(history)
    ensures if w.s.mode.Exited? then w.s.shutdown && |history| + naps <= rounds else |history| + naps == rounds
  {
    ghost var before, dispatched := w.steps, w.s.dispatched;
    history, naps := [], 0;
    for i := 0 to rounds
      invariant w.Valid() && w.s.mode.Probing?
      invariant Progress(before, dispatched, w.steps, w.s.dispatched, history)
      invariant |history| + naps == i
    {
      var handled;
      ghost var next, now := [], w.s.dispatched;
      handled, next := Round(w, before, history);
      MoreProgress(before, dispatched, now, w.steps, w.s.dispatched, history, next, handled);
      history := next;
      if !handled {
        naps := naps + 1;
        if w.s.mode.Exited? { break; }
      }
    }
    w.RunIsLegal();
  }

  ghost predicate Progress(before: seq<Machine.Step>, dispatched: seq<Event>, steps: seq<Machine.Step>, now: seq<Event>, history: seq<Handled>) {
    before <= steps && Accounts(before, steps, history) && now == dispatched + EventsOf(history)
  }

  lemma MoreProgress(before: seq<Machine.Step>, dispatched: seq<Event>, now: seq<Event>, steps: seq<Machine.Step>, later: seq<Event>,
                     history: seq<Handled>, next: seq<Handled>, handled: bool)
    requires now == dispatched + EventsOf(history) && before <= steps && Accounts(before, steps, next)
    requires if handled then |next| == |history| + 1 && next[..|history|] == history
                          && later == now + [next[|history|].work.event]
             else next == history && later == now
    ensures Progress(before, dispatched, steps, later, next)
  {
    if handled {
      assert next == history + [next[|history|]];
      assert EventsOf(next) == EventsOf(history) + [next[|history|].work.event];
    }
  }
}
