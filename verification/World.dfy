/** What the core's functions share and change: the repository, the channel and the hypervisor, as
    one object whose state is a state of the machine. Every method lets the rest of the world move
    first, then takes one enabled step; `steps` is the run so far, so each method extends a legal
    run by a legal step, whatever the outcome it draws. */
module World {
  import opened Model
  import opened Records
  import opened HostFile
  import opened Machine
  import opened Frames
  import opened Edits

  /** The worker's state after a successful listing. */
  function AfterListing(w: Work, listing: map<nat, string>): Work
    requires w.snap.Some?
  {
    var ids := Idents(w.snap.value.nodes);
    var found := set n | n in ids && Listed(listing, w.event.cluster, n);
    w.(calls := w.calls + [Call.ListVms(listing, true)], listed := true, seen := w.seen + found, gone := w.gone + (ids - found))
  }

  /** The first `k` steps are a legal run, and it ends in `s`. */
  ghost predicate EndsIn(steps: seq<Step>, k: nat, s: Sys) {
    k <= |steps| && Legal(steps[..k]) && s == Exec(steps[..k])
  }

  /** The same. (The bound variable keeps the verifier from replaying the run.) */
  ghost predicate Reaches(steps: seq<Step>, k: nat, s: Sys) {
    forall j: nat :: j == k ==> EndsIn(steps, j, s)
  }

  /** Step number `k` of the run was `st`, taken in state `s`. */
  ghost predicate At(steps: seq<Step>, k: nat, st: Step, s: Sys) {
    k < |steps| && steps[k] == st && Reaches(steps, k, s)
  }

  /** Step number `k` of the run was the worker's `a`, taken in this mode. */
  ghost predicate Took(steps: seq<Step>, k: nat, a: Act, m: Mode) {
    exists s :: At(steps, k, Do(a), s) && s.mode == m
  }

  /** Step number `k` of the run was a status update, and it found the record or not. */
  ghost predicate TookStatus(steps: seq<Step>, k: nat, st: Status, c: string, found: bool) {
    exists s :: At(steps, k, Do(SetStatus(st)), s) && (c in s.clusters <==> found)
  }

  lemma AtLater(a: seq<Step>, b: seq<Step>, k: nat, st: Step, s: Sys)
    requires a <= b && At(a, k, st, s)
    ensures At(b, k, st, s)
  {
    ReachesLater(a, b, k, s);
  }

  lemma ReachesLater(a: seq<Step>, b: seq<Step>, k: nat, s: Sys)
    requires a <= b && Reaches(a, k, s)
    ensures Reaches(b, k, s)
  {
    assert EndsIn(a, k, s);
    assert b[..k] == a[..k];
    assert EndsIn(b, k, s);
  }

  lemma TookLater(a: seq<Step>, b: seq<Step>, k: nat, act: Act, m: Mode)
    requires a <= b && Took(a, k, act, m)
    ensures Took(b, k, act, m)
  {
    var s :| At(a, k, Do(act), s) && s.mode == m;
    AtLater(a, b, k, Do(act), s);
  }

  lemma TookStatusLater(a: seq<Step>, b: seq<Step>, k: nat, st: Status, c: string, found: bool)
    requires a <= b && TookStatus(a, k, st, c, found)
    ensures TookStatus(b, k, st, c, found)
  {
    var s :| At(a, k, Do(SetStatus(st)), s) && (c in s.clusters <==> found);
    AtLater(a, b, k, Do(SetStatus(st)), s);
  }

  /** What a listing records: the answer, or nothing. */
  function ListingCall(s: Sys, w: Work, ok: bool): Call
    requires w.snap.Some?
  {
    Call.ListVms(if ok then Listing(s.vms, w.snap.value.node) else map[], ok)
  }

  lemma ListTaken(s: Sys, w: Work, ok: bool)
    requires s.mode == Busy(w) && w.phase.Working? && w.snap.Some?
    ensures ActEnabled(s, w, Remote(ListingCall(s, w, ok), false))
    ensures ActApply(s, w, Remote(ListingCall(s, w, ok), false)) == s.(mode := Busy(
              if ok then AfterListing(w, Listing(s.vms, w.snap.value.node)) else w.(calls := w.calls + [Call.ListVms(map[], false)])))
  {
    var found := Found(s.vms, w.event.cluster, w.snap.value);
    assert found == set n | n in Idents(w.snap.value.nodes) && Listed(Listing(s.vms, w.snap.value.node), w.event.cluster, n);
  }

  /** The entry of a host of the record may be handed to a node whose VM was listed or made. */
  ghost predicate MayAddHost(w: Work, n: ClusterNode, e: Entry) {
    && (w.event.CreateCluster? || w.event.AddNode?)
    && w.snap.Some? && n in w.snap.value.nodes && Ident(n) in w.seen
    && e in Entries(HostMap(w.event.cluster, w.snap.value.nodes))
  }

  predicate NodeStored(clusters: map<string, Cluster>, c: string, name: string) {
    c in clusters && FindNode(clusters[c].nodes, name).Some?
  }

  class World {
    var s: Sys
    ghost var steps: seq<Step>

    /** The steps so far are a legal run that ends in the present state. */
    ghost predicate Valid()
      reads this
    {
      Reaches(steps, |steps|, s)
    }

    lemma RunIsLegal()
      requires Valid()
      ensures Legal(steps) && s == Exec(steps)
    {
      assert EndsIn(steps, |steps|, s);
      assert steps[..|steps|] == steps;
    }

    /** The worker is inside `execute` for some event. */
    ghost predicate InEvent()
      reads this
    {
      Valid() && s.mode.Busy? && s.mode.work.phase.Working?
    }

    /** The run has gone on, and no event has been finished. */
    ghost predicate Since(before: seq<Machine.Step>, dispatched: seq<Event>)
      reads this
    {
      before <= steps && s.dispatched == dispatched
    }

    /** The run has gone on, and exactly this event has been finished. */
    ghost predicate Finished(before: seq<Machine.Step>, dispatched: seq<Event>, event: Event)
      reads this
    {
      before <= steps && s.dispatched == dispatched + [event]
    }

    ghost function W(): Work
      reads this
      requires s.mode.Busy?
    {
      s.mode.work
    }

    constructor ()
      ensures Valid() && steps == []
    {
      s := Init();
      steps := [];
      new;
      assert steps[..0] == [];
    }

    method Step(st: Machine.Step)
      requires Valid() && Enabled(s, st)
      modifies this
      ensures Valid() && s == Next(old(s), st) && steps == old(steps) + [st]
      ensures At(steps, |old(steps)|, st, old(s))
    {
      RunIsLegal();
      Extend(steps, st);
      s := Next(s, st);
      steps := steps + [st];
      assert steps[..|steps|] == steps && steps[..|old(steps)|] == old(steps);
      assert EndsIn(steps, |old(steps)|, old(s));
    }

    method Act(a: Act)
      requires Valid() && s.mode.Busy? && ActEnabled(s, s.mode.work, a)
      modifies this
      ensures Valid() && s == ActApply(old(s), old(W()), a) && old(steps) <= steps
    {
      Step(Do(a));
    }

    /** Callers of the operator and people at the hypervisor do any number of things. */
    method Interfere()
      requires Valid()
      modifies this
      ensures Valid() && s.mode == old(s.mode) && Since(old(steps), old(s.dispatched))
    {
      var n: nat :| true;
      for i := 0 to n
        invariant Valid() && s.mode == old(s.mode) && Since(old(steps), old(s.dispatched))
      {
        var e: EnvStep := *;
        if EnvEnabled(s, e) {
          EnvExtends(s, e);
          EnvFinishesNothing(s, e);
          Step(Env(e));
        }
      }
    }

    // ---- the repository

    method Log(level: Level, message: string)
      requires Valid() && s.mode.Busy?
      modifies this
      ensures Valid() && s.mode == Busy(Say(old(W()), Noted(level, message))) && Since(old(steps), old(s.dispatched))
    {
      Interfere();
      var date: int := *;
      Act(SaveLog(LogEntry(date, s.mode.work.event.cluster, message, level)));
    }

    /** `get_cluster` */
    method GetCluster() returns (r: Option<Cluster>)
      requires InEvent() && W().made == {}
      modifies this
      ensures InEvent() && Since(old(steps), old(s.dispatched))
      ensures W() == Say(if r.Some? then WithSnap(old(W()), r) else old(W()), RecordRead(r))
    {
      Interfere();
      var c := s.mode.work.event.cluster;
      r := if c in s.clusters then Some(s.clusters[c]) else None;
      Act(ReadRecord);
    }

    /** `get_cluster`, set the key pair, `save_cluster` */
    method SaveKey(key: string) returns (r: Option<Cluster>)
      requires InEvent() && W().event.CreateCluster? && W().made == {}
      modifies this
      ensures InEvent() && Since(old(steps), old(s.dispatched))
      ensures W() == Say(if r.Some? then WithSnap(old(W()), r) else old(W()), KeySaved(r))
    {
      Interfere();
      var c := s.mode.work.event.cluster;
      r := if c in s.clusters then Some(s.clusters[c].(sshKey := key)) else None;
      Act(Machine.SaveKey(key));
    }

    /** `get_cluster`, set the Kubernetes configuration, `save_cluster` */
    method SaveConfig(config: string) returns (r: Outcome)
      requires InEvent() && W().event.CreateCluster?
      modifies this
      ensures InEvent() && Since(old(steps), old(s.dispatched))
      ensures W() == Say(old(W()), ConfigSaved(config, r.Ok?))
      ensures r.Ok? <==> W().event.cluster in s.clusters
      ensures r.Ok? ==> s.clusters[W().event.cluster].clusterConfig == config
    {
      Interfere();
      r := if s.mode.work.event.cluster in s.clusters then Ok(()) else Err("Cannot read cluster from repository");
      Act(Machine.SaveConfig(config));
    }

    /** `get_cluster`, set cores and memory of the node, `save_cluster` */
    method SaveResources() returns (r: Outcome, ghost before: Sys)
      requires InEvent() && W().event.ChangeResources?
      modifies this
      ensures InEvent() && Since(old(steps), old(s.dispatched))
      ensures W() == Say(old(W()), ResourcesSaved(r.Ok?))
      ensures r.Ok? <==> W().event.cluster in s.clusters
      ensures |steps| > |old(steps)| && At(steps, |steps| - 1, Do(Machine.SaveResources), before)
      ensures Worked(old(W()), Machine.SaveResources, before.clusters, s.clusters)
    {
      Interfere();
      before := s;
      r := if s.mode.work.event.cluster in s.clusters then Ok(()) else Err("Cannot find cluster");
      WorkIsDone(s, s.mode.work, Machine.SaveResources);
      Step(Do(Machine.SaveResources));
    }

    /** `get_cluster`, drop the node, `save_cluster` */
    method DropNode() returns (r: Outcome, ghost before: Sys)
      requires InEvent() && ActEnabled(s, W(), Machine.DropNode)
      modifies this
      ensures InEvent() && Since(old(steps), old(s.dispatched))
      ensures W() == Say(if r.Ok? then WithSnap(old(W()), None).(removed := true, unlocked := true) else old(W()), NodeDropped(r.Ok?))
      ensures r.Ok? <==> W().event.cluster in s.clusters
      ensures |steps| > |old(steps)| && At(steps, |steps| - 1, Do(Machine.DropNode), before)
      ensures Worked(old(W()), Machine.DropNode, before.clusters, s.clusters)
    {
      Interfere();
      before := s;
      r := if s.mode.work.event.cluster in s.clusters then Ok(()) else Err("Cannot find cluster");
      WorkIsDone(s, s.mode.work, Machine.DropNode);
      Step(Do(Machine.DropNode));
    }

    /** `delete_cluster` */
    method DropCluster()
      requires InEvent() && ActEnabled(s, W(), Machine.DropCluster)
      modifies this
      ensures InEvent() && Since(old(steps), old(s.dispatched))
      ensures W() == Say(WithSnap(old(W()), None).(removed := true), ClusterDropped)
      ensures W().event.cluster !in s.clusters
    {
      Interfere();
      Step(Do(Machine.DropCluster));
    }

    /** `update_cluster_status` */
    method SetStatus(status: Status) returns (r: Outcome)
      requires Valid() && s.mode.Busy? && ActEnabled(s, W(), Machine.SetStatus(status))
      modifies this
      ensures Valid() && s.mode == Busy(Say(AfterStatus(old(W()), r.Ok?), StatusSet(status, r.Ok?)))
      ensures Since(old(steps), old(s.dispatched))
      ensures r.Ok? <==> old(W()).event.cluster in s.clusters
      ensures |steps| > |old(steps)| && TookStatus(steps, |steps| - 1, status, old(W()).event.cluster, r.Ok?)
      ensures r.Ok? ==> s.clusters[old(W()).event.cluster].status == status
    {
      Interfere();
      r := if s.mode.work.event.cluster in s.clusters then Ok(()) else Err("Cannot find cluster");
      Step(Do(Machine.SetStatus(status)));
    }

    /** `get_cluster`, clear the node's lock, `save_cluster` */
    method Unlock() returns (r: Outcome, ghost before: Sys)
      requires Valid() && s.mode.Busy? && ActEnabled(s, W(), Machine.Unlock)
      modifies this
      ensures Valid() && Since(old(steps), old(s.dispatched))
      ensures s.mode == Busy(Say(if r.Ok? then old(W()).(unlocked := true) else old(W()), LockCleared(r.Ok?)))
      ensures r.Ok? <==> NodeStored(s.clusters, old(W()).event.cluster, old(W()).event.node)
      ensures |steps| > |old(steps)| && At(steps, |steps| - 1, Do(Machine.Unlock), before)
      ensures Worked(old(W()), Machine.Unlock, before.clusters, s.clusters)
    {
      Interfere();
      before := s;
      WorkIsDone(s, s.mode.work, Machine.Unlock);
      var c, name := s.mode.work.event.cluster, s.mode.work.event.node;
      r := if c !in s.clusters then Err("Cannot find cluster")
           else if FindNode(s.clusters[c].nodes, name).None? then Err("Cannot find node")
           else Ok(());
      if r.Ok? { LockFirstFinds(s.clusters[c].nodes, name, None); }
      Step(Do(Machine.Unlock));
    }

    // ---- the hypervisor and SSH: a successful call has taken effect, a failed one may have

    /** One call, and what is learnt from it. */
    method Request(call: Call, effect: bool)
      requires InEvent() && RemoteEnabled(s, W(), call, effect)
      modifies this
      ensures InEvent() && Since(old(steps), old(s.dispatched))
      ensures W() == Learn(old(W()), old(s.vms), call)
    {
      LearnKeeps(s.mode.work, s.vms, call);
      Act(Remote(call, effect));
    }

    method ListVms() returns (r: Result<map<nat, string>, string>)
      requires InEvent() && W().snap.Some?
      modifies this
      ensures InEvent() && Since(old(steps), old(s.dispatched))
      ensures W() == if r.Ok? then AfterListing(old(W()), r.value)
                     else old(W()).(calls := old(W()).calls + [Call.ListVms(map[], false)])
    {
      Interfere();
      var ok: bool := *;
      var listing := Listing(s.vms, s.mode.work.snap.value.node);
      ListTaken(s, s.mode.work, ok);
      Act(Remote(ListingCall(s, s.mode.work, ok), false));
      if ok { r := Ok(listing); } else { r := Err("Cannot list VMs"); }
    }

    method ListContainers() returns (r: Result<set<nat>, string>)
      requires InEvent()
      modifies this
      ensures InEvent() && Since(old(steps), old(s.dispatched))
      ensures W() == Say(old(W()), Call.ListContainers(if r.Ok? then r.value else {}, r.Ok?))
    {
      var ok: bool := *;
      var ids: set<nat> := *;
      Observe([Call.ListContainers(if ok then ids else {}, ok)]);
      if ok { r := Ok(ids); } else { r := Err("Cannot list containers"); }
    }

    /** Calls that only look. */
    method Observe(probes: seq<Call>)
      requires InEvent() && forall k :: 0 <= k < |probes| ==> ReadOnly(probes[k])
      modifies this
      ensures InEvent() && Since(old(steps), old(s.dispatched))
      ensures W() == old(W()).(calls := old(W()).calls + probes)
    {
      Interfere();
      Act(Machine.Observe(probes));
    }

    method Create(n: ClusterNode) returns (r: Outcome)
      requires InEvent() && W().snap.Some? && n in W().snap.value.nodes && W().wrote == {}
      requires W().event.CreateCluster? || W().event.AddNode?
      modifies this
      ensures InEvent() && Since(old(steps), old(s.dispatched))
      ensures var w, call := old(W()), Call.Create(n, r.Ok?);
        W() == if r.Ok? then w.(calls := w.calls + [call], made := w.made + {Ident(n)}, seen := w.seen + {Ident(n)})
               else w.(calls := w.calls + [call], tainted := true)
    {
      Interfere();
      var ok: bool, effect: bool := *, *;
      if VmKey(s.mode.work.snap.value.node, n.vmId) in s.vms {
        ok, effect := false, false;
      } else if ok {
        effect := true;
      }
      Request(Call.Create(n, ok), effect);
      if ok { r := Ok(()); } else { r := Err("Cannot create VM"); }
    }

    method Start(n: ClusterNode) returns (r: Outcome)
      requires InEvent() && W().snap.Some? && MayPower(W(), n)
      modifies this
      ensures InEvent() && Since(old(steps), old(s.dispatched))
      ensures W() == Say(old(W()), Call.Start(n, r.Ok?))
    {
      Interfere();
      var ok: bool, effect: bool := *, *;
      Request(Call.Start(n, ok), ok || effect);
      if ok { r := Ok(()); } else { r := Err("Cannot start VM"); }
    }

    method Shutdown(n: ClusterNode) returns (r: Outcome)
      requires InEvent() && W().snap.Some? && MayPower(W(), n)
      modifies this
      ensures InEvent() && Since(old(steps), old(s.dispatched))
      ensures W() == Say(old(W()), Call.Shutdown(n, r.Ok?))
    {
      Interfere();
      var ok: bool, effect: bool := *, *;
      Request(Call.Shutdown(n, ok), effect);
      if ok { r := Ok(()); } else { r := Err("Shutdown VM"); }
    }

    method HardStop(n: ClusterNode) returns (r: Outcome)
      requires InEvent() && W().snap.Some? && MayPower(W(), n)
      modifies this
      ensures InEvent() && Since(old(steps), old(s.dispatched))
      ensures W() == Say(old(W()), Call.HardStop(n, r.Ok?))
    {
      Interfere();
      var ok: bool, effect: bool := *, *;
      Request(Call.HardStop(n, ok), ok || effect);
      if ok { r := Ok(()); } else { r := Err("Stop VM"); }
    }

    method Delete(n: ClusterNode) returns (r: Outcome)
      requires InEvent() && W().snap.Some? && n in W().snap.value.nodes && Ident(n) in W().seen
      requires W().event.DeleteCluster? || W().event.DeleteNode?
      modifies this
      ensures InEvent() && Since(old(steps), old(s.dispatched))
      ensures var w := old(W());
        W() == w.(calls := w.calls + [Call.Delete(n, r.Ok?)], gone := if r.Ok? then w.gone + {Ident(n)} else w.gone)
    {
      Interfere();
      var ok: bool, effect: bool := *, *;
      Request(Call.Delete(n, ok), ok || effect);
      if ok { r := Ok(()); } else { r := Err("Delete VM"); }
    }

    method Configure(n: ClusterNode, cores: nat, memory: nat) returns (r: Outcome)
      requires InEvent() && W().snap.Some? && W().event.ChangeResources?
      requires FindNode(W().snap.value.nodes, W().event.node) == Some(n)
      modifies this
      ensures InEvent() && Since(old(steps), old(s.dispatched))
      ensures W() == Say(old(W()), Call.Configure(n, cores, memory, r.Ok?))
    {
      Interfere();
      var ok: bool, effect: bool := *, *;
      Request(Call.Configure(n, cores, memory, ok), ok || effect);
      if ok { r := Ok(()); } else { r := Err("Change VM config"); }
    }

    /** A command over SSH that edits no hosts file. */
    method Ssh(n: ClusterNode, command: Command) returns (r: Outcome)
      requires InEvent() && W().snap.Some? && !command.AddHost? && !command.ScrubHost?
      modifies this
      ensures InEvent() && Since(old(steps), old(s.dispatched))
      ensures W() == Say(old(W()), Call.Ssh(n, command, r.Ok?))
    {
      Interfere();
      var ok: bool := *;
      Request(Call.Ssh(n, command, ok), ok);
      if ok { r := Ok(()); } else { r := Err("SSH"); }
    }

    /** A command whose answer is used. */
    method Ask(n: ClusterNode, refused: Command, answered: Command) returns (r: Outcome)
      requires InEvent() && W().snap.Some? && !refused.AddHost? && !refused.ScrubHost? && !answered.AddHost? && !answered.ScrubHost?
      modifies this
      ensures InEvent() && Since(old(steps), old(s.dispatched))
      ensures W() == Say(old(W()), Call.Ssh(n, if r.Ok? then answered else refused, r.Ok?))
    {
      Interfere();
      var ok: bool := *;
      Request(Call.Ssh(n, if ok then answered else refused, ok), ok);
      if ok { r := Ok(()); } else { r := Err("SSH"); }
    }

    /** `echo 'ip host' | sudo tee -a` on the node's VM */
    method AddHostLine(n: ClusterNode, e: Entry) returns (r: Outcome)
      requires InEvent() && MayAddHost(W(), n, e)
      modifies this
      ensures InEvent() && Since(old(steps), old(s.dispatched))
      ensures var w, call := old(W()), Call.Ssh(n, AddHost(e), r.Ok?);
        W() == if r.Ok? then w.(calls := w.calls + [call], wrote := w.wrote + {(Ident(n), e)})
               else w.(calls := w.calls + [call], tainted := true)
    {
      Interfere();
      var ok: bool := *;
      if VmKey(s.mode.work.snap.value.node, n.vmId) !in s.vms { ok := false; }
      if ok { LineWritten(n, e); r := Ok(()); } else { LineRefused(n, e); r := Err("SSH"); }
    }

    method LineWritten(n: ClusterNode, e: Entry)
      requires InEvent() && MayAddHost(W(), n, e) && VmKey(W().snap.value.node, n.vmId) in s.vms
      modifies this
      ensures InEvent() && Since(old(steps), old(s.dispatched))
      ensures var w := old(W()); W() == w.(calls := w.calls + [Call.Ssh(n, AddHost(e), true)], wrote := w.wrote + {(Ident(n), e)})
    {
      Request(Call.Ssh(n, AddHost(e), true), true);
    }

    /** The line may have been written all the same. */
    method LineRefused(n: ClusterNode, e: Entry)
      requires InEvent() && MayAddHost(W(), n, e)
      modifies this
      ensures InEvent() && Since(old(steps), old(s.dispatched))
      ensures var w := old(W()); W() == w.(calls := w.calls + [Call.Ssh(n, AddHost(e), false)], tainted := true)
    {
      var effect: bool := *;
      Request(Call.Ssh(n, AddHost(e), false), effect);
    }

    /** `sudo sed -i '/cluster-node/d'` on the node's VM */
    method ScrubHostLine(n: ClusterNode) returns (r: Outcome)
      requires InEvent() && W().snap.Some? && n in W().snap.value.nodes && Ident(n) in W().seen
      requires W().event.DeleteNode? && W().removed
      modifies this
      ensures InEvent() && Since(old(steps), old(s.dispatched))
      ensures var w, call := old(W()), Call.Ssh(n, ScrubHost(FullName(old(W()).event.cluster, old(W()).event.node)), r.Ok?);
        W() == if r.Ok? then w.(calls := w.calls + [call], scrubbed := w.scrubbed + {Ident(n)})
               else w.(calls := w.calls + [call], tainted := true)
    {
      Interfere();
      var ok: bool, effect: bool := *, *;
      if VmKey(s.mode.work.snap.value.node, n.vmId) !in s.vms { ok := false; }
      var pattern := FullName(s.mode.work.event.cluster, s.mode.work.event.node);
      Request(Call.Ssh(n, ScrubHost(pattern), ok), ok || effect);
      if ok { r := Ok(()); } else { r := Err("SSH"); }
    }

    // ---- the event loop

    method Conclude(ok: bool)
      requires InEvent() && (ok ==> Evidence(W()))
      modifies this
      ensures Valid() && s.mode == Busy(old(W()).(phase := Concluded(ok))) && Since(old(steps), old(s.dispatched))
    {
      Interfere();
      Act(Machine.Conclude(ok));
    }

    method Finish(ok: bool)
      requires Valid() && s.mode.Busy? && ActEnabled(s, W(), Machine.Finish(ok))
      modifies this
      ensures Valid() && s.mode == Probing && Finished(old(steps), old(s.dispatched), old(W()).event)
      ensures |steps| > |old(steps)| && Took(steps, |steps| - 1, Machine.Finish(ok), old(s.mode))
    {
      Interfere();
      Step(Do(Machine.Finish(ok)));
    }

    /** `try_recv`: takes the first of the queued events, or finds the queue empty. */
    method TryReceive() returns (r: Option<Event>, ghost before: Sys)
      requires Valid() && s.mode.Probing?
      modifies this
      ensures Valid() && Since(old(steps), old(s.dispatched))
      ensures s.mode == if r.Some? then Busy(StartWork(r.value)) else Napping
      ensures |steps| > |old(steps)| && At(steps, |steps| - 1, Loop(if r.Some? then Take else ProbeEmpty), before)
      ensures before.queue == if r.Some? then [r.value] + s.queue else []
    {
      Interfere();
      before := s;
      if s.queue != [] {
        r := Some(s.queue[0]);
        Step(Loop(Take));
      } else {
        r := None;
        Step(Loop(ProbeEmpty));
      }
    }

    /** The nap after an empty probe, and the look at the shutdown flag. */
    method Nap()
      requires Valid() && s.mode.Napping?
      modifies this
      ensures Valid() && (s.mode.Probing? || s.mode.Exited?) && Since(old(steps), old(s.dispatched))
      ensures s.mode.Exited? <==> s.shutdown
    {
      Interfere();
      Step(Loop(Wake));
    }
  }
}
