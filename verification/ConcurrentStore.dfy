/** The JSON repository used by many threads (core/src/repository_json.rs). The mutex covers one
    load or one save, not the two together, so the loads and saves of different operations
    interleave freely: an operation may save an edit of a file that is no longer there. */
module ConcurrentStore {
  import opened Model
  import opened Store

  /** What a thread holds between its load and its save: the file it read, the operation it is
      performing, and for the history, which operations that file reflects and how many saves had
      been completed. */
  datatype Held = Held(data: DbData, op: Op, lineage: seq<Op>, seen: nat)

  /** `done` lists all completed saves, `lineage` those that the file reflects. */
  datatype Shared = Shared(file: DbData, held: map<nat, Held>, done: seq<Op>, lineage: seq<Op>)

  datatype Access = Load(thread: nat, op: Op) | Save(thread: nat)

  function Start(db: DbData): Shared {
    Shared(db, map[], [], [])
  }

  predicate Allowed(s: Shared, a: Access) {
    match a
    case Load(t, _) => t !in s.held
    case Save(t) => t in s.held
  }

  function Do(s: Shared, a: Access): Shared
    requires Allowed(s, a)
  {
    match a
    case Load(t, op) => s.(held := s.held[t := Held(s.file, op, s.lineage, |s.done|)])
    case Save(t) =>
      var h := s.held[t];
      Shared(After(h.data, h.op), s.held - {t}, s.done + [h.op], h.lineage + [h.op])
  }

  /** Where these loads and saves lead from the stored file; nowhere if a thread saves without
      having loaded, or loads twice. */
  function Replay(db: DbData, accesses: seq<Access>): Option<Shared>
    decreases |accesses|
  {
    if accesses == [] then Some(Start(db))
    else
      var p, a := Replay(db, accesses[..|accesses| - 1]), accesses[|accesses| - 1];
      if p.Some? && Allowed(p.value, a) then Some(Do(p.value, a)) else None
  }

  // ------------------------------------------------------------ names

  ghost predicate AllDistinct(s: Shared) {
    DistinctNames(s.file.clusters) && forall t :: t in s.held ==> DistinctNames(s.held[t].data.clusters)
  }

  /** However loads and saves interleave, the names in the file and in every copy that a thread
      holds stay distinct: an update may be lost, but no cluster is ever doubled. */
  lemma {:induction false} NamesSurvive(db: DbData, accesses: seq<Access>, s: Shared)
    requires DistinctNames(db.clusters) && Replay(db, accesses) == Some(s)
    ensures AllDistinct(s)
    decreases |accesses|
  {
    if accesses != [] {
      var rest, a := accesses[..|accesses| - 1], accesses[|accesses| - 1];
      var p := Replay(db, rest).value;
      NamesSurvive(db, rest, p);
      if a.Save? { StepRefines(p.held[a.thread].data, p.held[a.thread].op); }
    }
  }

  // ------------------------------------------------------------ which updates survive

  /** `a` is `b` with some elements left out. */
  predicate Within<T(==)>(a: seq<T>, b: seq<T>) {
    if a == [] then true
    else if b == [] then false
    else (a[|a| - 1] == b[|b| - 1] && Within(a[..|a| - 1], b[..|b| - 1])) || Within(a, b[..|b| - 1])
  }

  lemma {:induction false} WithinLonger<T>(a: seq<T>, b: seq<T>, c: seq<T>)
    requires Within(a, b)
    ensures Within(a, b + c)
  {
    if c == [] {
      assert b + c == b;
    } else if a != [] {
      assert (b + c)[..|b + c| - 1] == b + c[..|c| - 1];
      WithinLonger(a, b, c[..|c| - 1]);
    }
  }

  lemma WithinSnoc<T>(a: seq<T>, b: seq<T>, x: T)
    requires Within(a, b)
    ensures Within(a + [x], b + [x])
  {
    assert (a + [x])[..|a|] == a && (b + [x])[..|b|] == b;
  }

  lemma {:induction false} WithinShorter<T>(a: seq<T>, b: seq<T>)
    requires Within(a, b)
    ensures |a| <= |b|
  {
    if a != [] {
      if a[|a| - 1] == b[|b| - 1] && Within(a[..|a| - 1], b[..|b| - 1]) {
        WithinShorter(a[..|a| - 1], b[..|b| - 1]);
      } else {
        WithinShorter(a, b[..|b| - 1]);
      }
    }
  }

  lemma {:induction false} RunSnoc(db: DbData, ops: seq<Op>, op: Op)
    ensures Run(db, ops + [op]) == After(Run(db, ops), op)
    decreases |ops|
  {
    if ops == [] {
      assert [op][1..] == [];
    } else {
      assert (ops + [op])[1..] == ops[1..] + [op];
      RunSnoc(After(db, ops[0]), ops[1..], op);
    }
  }

  /** The thread has loaded, and nobody has saved since. */
  predicate FreshLoad(accesses: seq<Access>, t: nat)
    decreases |accesses|
  {
    accesses != [] &&
    match accesses[|accesses| - 1]
    case Load(u, _) => u == t || FreshLoad(accesses[..|accesses| - 1], t)
    case Save(_) => false
  }

  /** No thread ever saved between the load and the save of another. */
  predicate Undisturbed(accesses: seq<Access>)
    decreases |accesses|
  {
    accesses == [] ||
    var rest, a := accesses[..|accesses| - 1], accesses[|accesses| - 1];
    Undisturbed(rest) && (a.Save? ==> FreshLoad(rest, a.thread))
  }

  /** The file is what the operations of its lineage, one after the other, make of the first file;
      the lineage is complete exactly if no save was disturbed. */
  ghost predicate Explained(db: DbData, accesses: seq<Access>, s: Shared) {
    && s.file == Run(db, s.lineage)
    && Within(s.lineage, s.done)
    && (s.lineage == s.done <==> Undisturbed(accesses))
  }

  ghost predicate HeldExplained(db: DbData, accesses: seq<Access>, s: Shared, t: nat)
    requires t in s.held
  {
    var h := s.held[t];
    && h.seen <= |s.done|
    && h.data == Run(db, h.lineage)
    && Within(h.lineage, s.done[..h.seen])
    && (h.seen == |s.done| ==> h.lineage == s.lineage)
    && (h.seen == |s.done| <==> FreshLoad(accesses, t))
  }

  ghost predicate AllExplained(db: DbData, accesses: seq<Access>, s: Shared) {
    Explained(db, accesses, s) && forall t :: t in s.held ==> HeldExplained(db, accesses, s, t)
  }

  lemma SaveExplained(db: DbData, rest: seq<Access>, s: Shared, t: nat)
    requires t in s.held && AllExplained(db, rest, s)
    ensures Explained(db, rest + [Save(t)], Do(s, Save(t)))
  {
    var h, s', accesses := s.held[t], Do(s, Save(t)), rest + [Save(t)];
    assert HeldExplained(db, rest, s, t) && accesses[..|rest|] == rest;
    RunSnoc(db, h.lineage, h.op);
    assert s.done == s.done[..h.seen] + s.done[h.seen..];
    WithinLonger(h.lineage, s.done[..h.seen], s.done[h.seen..]);
    WithinSnoc(h.lineage, s.done, h.op);
    WithinShorter(h.lineage, s.done[..h.seen]);
    assert s'.done[..|s.done|] == s.done && s'.lineage[..|h.lineage|] == h.lineage;
  }

  lemma OthersExplained(db: DbData, rest: seq<Access>, s: Shared, t: nat, u: nat)
    requires t in s.held && u in s.held && u != t && HeldExplained(db, rest, s, u)
    ensures HeldExplained(db, rest + [Save(t)], Do(s, Save(t)), u)
  {
    assert Do(s, Save(t)).done[..s.held[u].seen] == s.done[..s.held[u].seen];
  }

  lemma LoadExplained(db: DbData, rest: seq<Access>, s: Shared, t: nat, op: Op, u: nat)
    requires t !in s.held && AllExplained(db, rest, s) && u in Do(s, Load(t, op)).held
    ensures HeldExplained(db, rest + [Load(t, op)], Do(s, Load(t, op)), u)
  {
    assert (rest + [Load(t, op)])[..|rest|] == rest;
    assert s.done[..|s.done|] == s.done;
    if u != t { assert HeldExplained(db, rest, s, u); }
  }

  lemma {:induction false} EverythingExplained(db: DbData, accesses: seq<Access>, s: Shared)
    requires Replay(db, accesses) == Some(s)
    ensures AllExplained(db, accesses, s)
    decreases |accesses|
  {
    if accesses != [] {
      var rest, a := accesses[..|accesses| - 1], accesses[|accesses| - 1];
      var p := Replay(db, rest).value;
      assert accesses == rest + [a];
      EverythingExplained(db, rest, p);
      match a
      case Load(t, op) =>
        forall u | u in s.held ensures HeldExplained(db, accesses, s, u) { LoadExplained(db, rest, p, t, op, u); }
      case Save(t) =>
        SaveExplained(db, rest, p, t);
        forall u | u in s.held ensures HeldExplained(db, accesses, s, u) { OthersExplained(db, rest, p, t, u); }
    }
  }

  /** Every file that any interleaving produces is the result of running some of the completed
      operations, in the order of their saves, one after the other: each operation either takes
      effect as a whole or is lost as a whole. */
  lemma SomeOperationsInOrder(db: DbData, accesses: seq<Access>, s: Shared)
    requires Replay(db, accesses) == Some(s)
    ensures Within(s.lineage, s.done) && s.file == Run(db, s.lineage)
  {
    EverythingExplained(db, accesses, s);
  }

  /** None is lost if and only if no thread saved between another's load and save; then the file is
      the result of all operations in the order of their saves. */
  lemma NothingLostIffUndisturbed(db: DbData, accesses: seq<Access>, s: Shared)
    requires Replay(db, accesses) == Some(s)
    ensures s.lineage == s.done <==> Undisturbed(accesses)
    ensures Undisturbed(accesses) ==> s.file == Run(db, s.done)
  {
    EverythingExplained(db, accesses, s);
  }

  /** The mutex alone does not prevent losses: of two clusters saved at the same time by two
      threads, the store may end up with the second only. */
  lemma AnUpdateCanBeLost(a: Cluster, b: Cluster)
    requires a.clusterName != b.clusterName
    ensures var accesses := [Load(0, SaveCluster(a)), Load(1, SaveCluster(b)), Save(0), Save(1)];
      && !Undisturbed(accesses)
      && Replay(DbData([], []), accesses).Some?
      && Replay(DbData([], []), accesses).value.file == DbData([b], [])
  {
    var l0, l1 := Load(0, SaveCluster(a)), Load(1, SaveCluster(b));
    var s1 := Do(Start(DbData([], [])), l0);
    var s2 := Do(s1, l1);
    var s3 := Do(s2, Save(0));
    assert [l0][..0] == [] && [l0, l1][..1] == [l0] && [l0, l1, Save(0)][..2] == [l0, l1];
    assert [l0, l1, Save(0), Save(1)][..3] == [l0, l1, Save(0)];
    assert Replay(DbData([], []), [l0]) == Some(s1);
    assert Replay(DbData([], []), [l0, l1]) == Some(s2);
    assert Replay(DbData([], []), [l0, l1, Save(0)]) == Some(s3);
    assert [] + [b] == [b];
  }
}
