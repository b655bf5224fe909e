/** The JSON repository (core/src/repository_json.rs), used by one thread: lists in a file, which
    every operation loads, edits and saves as a whole. */
module Store {
  import opened Model
  import Machine
  import StableSort

  datatype DbData = DbData(clusters: seq<Cluster>, actionLog: seq<LogEntry>)

  /** `iter().find` by name. */
  function Find(clusters: seq<Cluster>, name: string): (r: Option<Cluster>)
    ensures r.Some? ==> r.value in clusters && r.value.clusterName == name
    ensures r.None? <==> forall c :: c in clusters ==> c.clusterName != name
  {
    if clusters == [] then None
    else if clusters[0].clusterName == name then Some(clusters[0])
    else
      assert clusters == [clusters[0]] + clusters[1..];
      Find(clusters[1..], name)
  }

  /** The cluster at `i` is the first one of the name. */
  ghost predicate IsFirst(clusters: seq<Cluster>, name: string, i: nat) {
    && i < |clusters| && clusters[i].clusterName == name
    && forall j :: 0 <= j < i ==> clusters[j].clusterName != name
  }

  lemma {:induction false} FindIsFirst(clusters: seq<Cluster>, name: string)
    requires Find(clusters, name).Some?
    ensures exists i :: 0 <= i < |clusters| && Find(clusters, name).value == clusters[i] && IsFirst(clusters, name, i)
  {
    if clusters[0].clusterName == name {
      assert IsFirst(clusters, name, 0);
    } else {
      var rest := clusters[1..];
      FindIsFirst(rest, name);
      var i :| 0 <= i < |rest| && Find(rest, name).value == rest[i] && IsFirst(rest, name, i);
      forall j | 0 <= j < i + 1 ensures clusters[j].clusterName != name {
        if j > 0 { assert clusters[j] == rest[j - 1]; }
      }
      assert clusters[i + 1] == rest[i] && IsFirst(clusters, name, i + 1);
    }
  }

  function Retain<T>(s: seq<T>, keep: T -> bool): seq<T> {
    if s == [] then [] else (if keep(s[0]) then [s[0]] else []) + Retain(s[1..], keep)
  }

  lemma {:induction false} RetainHas<T>(s: seq<T>, keep: T -> bool, x: T)
    ensures x in Retain(s, keep) <==> x in s && keep(x)
  {
    if s != [] {
      RetainHas(s[1..], keep, x);
      assert s == [s[0]] + s[1..];
    }
  }

  function NotNamed(name: string): Cluster -> bool {
    (c: Cluster) => c.clusterName != name
  }

  function NotFor(name: string): LogEntry -> bool {
    (e: LogEntry) => e.clusterName != name
  }

  function EntryFor(name: string): LogEntry -> bool {
    (e: LogEntry) => e.clusterName == name
  }

  function Other(name: string): string -> bool {
    n => n != name
  }

  function Replaced(clusters: seq<Cluster>, c: Cluster): seq<Cluster> {
    seq(|clusters|, i requires 0 <= i < |clusters| => if clusters[i].clusterName == c.clusterName then c else clusters[i])
  }

  /** `save_cluster`: replaces the cluster of the same name where it stands, or appends. */
  function Saved(clusters: seq<Cluster>, c: Cluster): seq<Cluster> {
    if Find(clusters, c.clusterName).Some? then Replaced(clusters, c) else clusters + [c]
  }

  // ------------------------------------------------------------ operations

  datatype Op = SaveCluster(record: Cluster) | DeleteCluster(name: string) | SaveLog(entry: LogEntry) | DeleteLogs(name: string)

  function After(db: DbData, op: Op): DbData {
    match op
    case SaveCluster(c) => db.(clusters := Saved(db.clusters, c))
    case DeleteCluster(name) =>
      DbData(Retain(db.clusters, NotNamed(name)), Retain(db.actionLog, NotFor(name)))
    case SaveLog(entry) => db.(actionLog := db.actionLog + [entry])
    case DeleteLogs(name) => db.(actionLog := Retain(db.actionLog, NotFor(name)))
  }

  function LogsOf(db: DbData, name: string): seq<LogEntry> {
    Retain(db.actionLog, EntryFor(name))
  }

  const NewestFirst: LogEntry -> int := (e: LogEntry) => -e.date

  class JsonRepository {
    var file: DbData

    constructor ()
      ensures file == DbData([], [])
    {
      file := DbData([], []);
    }

    method Load() returns (data: DbData)
      ensures data == file
    {
      data := file;
    }

    method Save(data: DbData)
      modifies this
      ensures file == data
    {
      file := data;
    }

    method GetCluster(name: string) returns (r: Option<Cluster>)
      ensures r.Some? ==> exists i :: 0 <= i < |file.clusters| && r.value == file.clusters[i] && IsFirst(file.clusters, name, i)
      ensures r.None? <==> forall c :: c in file.clusters ==> c.clusterName != name
    {
      var data := Load();
      r := Find(data.clusters, name);
      if r.Some? { FindIsFirst(data.clusters, name); }
    }

    method DeleteCluster(name: string)
      modifies this
      ensures file == After(old(file), Op.DeleteCluster(name))
    {
      var data := Load();
      data := data.(clusters := Retain(data.clusters, NotNamed(name)));
      data := data.(actionLog := Retain(data.actionLog, NotFor(name)));
      Save(data);
    }

    method SaveCluster(c: Cluster)
      modifies this
      ensures file == After(old(file), Op.SaveCluster(c))
    {
      var data := Load();
      var toUpdate := exists i :: 0 <= i < |data.clusters| && data.clusters[i].clusterName == c.clusterName;
      if toUpdate {
        var clusters := [];
        for i := 0 to |data.clusters|
          invariant |clusters| == i
          invariant forall j :: 0 <= j < i ==>
            clusters[j] == if data.clusters[j].clusterName == c.clusterName then c else data.clusters[j]
        {
          clusters := clusters + [if data.clusters[i].clusterName == c.clusterName then c else data.clusters[i]];
        }
        assert clusters == Saved(data.clusters, c);
        data := data.(clusters := clusters);
      } else {
        data := data.(clusters := data.clusters + [c]);
      }
      Save(data);
    }

    /** The cluster's entries, newest first; entries of the same time stay in the order they came. */
    method Logs(name: string) returns (r: seq<LogEntry>)
      ensures StableSort.Ordered(r, NewestFirst)
      ensures multiset(r) == multiset(LogsOf(file, name))
      ensures forall k :: StableSort.WithKey(r, NewestFirst, k) == StableSort.WithKey(LogsOf(file, name), NewestFirst, k)
    {
      var data := Load();
      var result := Retain(data.actionLog, EntryFor(name));
      r := StableSort.SortBy(result, NewestFirst);
      StableSort.SortByIsStable(result, NewestFirst);
    }

    method SaveLog(entry: LogEntry)
      modifies this
      ensures file == After(old(file), Op.SaveLog(entry))
    {
      var data := Load();
      data := data.(actionLog := data.actionLog + [entry]);
      Save(data);
    }

    method DeleteLogs(name: string)
      modifies this
      ensures file == After(old(file), Op.DeleteLogs(name))
    {
      var data := Load();
      data := data.(actionLog := Retain(data.actionLog, NotFor(name)));
      Save(data);
    }
  }

  // ------------------------------------------------------------ what the lists stand for

  ghost predicate DistinctNames(clusters: seq<Cluster>) {
    forall i, j :: 0 <= i < j < |clusters| ==> clusters[i].clusterName != clusters[j].clusterName
  }

  function Names(clusters: seq<Cluster>): seq<string> {
    seq(|clusters|, i requires 0 <= i < |clusters| => clusters[i].clusterName)
  }

  function AsMap(clusters: seq<Cluster>): map<string, Cluster> {
    var names := set c | c in clusters :: c.clusterName;
    map n | n in names && Find(clusters, n).Some? :: Find(clusters, n).value
  }

  lemma AsMapFinds(clusters: seq<Cluster>, n: string)
    ensures n in AsMap(clusters) <==> Find(clusters, n).Some?
    ensures n in AsMap(clusters) ==> AsMap(clusters)[n] == Find(clusters, n).value
  {
  }

  lemma AsMapAt(clusters: seq<Cluster>, i: nat)
    requires DistinctNames(clusters) && i < |clusters|
    ensures clusters[i].clusterName in AsMap(clusters) && AsMap(clusters)[clusters[i].clusterName] == clusters[i]
  {
    AsMapFinds(clusters, clusters[i].clusterName);
    assert clusters[i] in clusters;
    var c := Find(clusters, clusters[i].clusterName).value;
    var j :| 0 <= j < |clusters| && clusters[j] == c;
  }

  /** Names and map together determine the list: two stores with distinct names that stand for the
      same ordered map are equal. */
  lemma NothingLost(a: seq<Cluster>, b: seq<Cluster>)
    requires DistinctNames(a) && DistinctNames(b)
    ensures Names(a) == Names(b) && AsMap(a) == AsMap(b) <==> a == b
  {
    if Names(a) == Names(b) && AsMap(a) == AsMap(b) {
      assert |Names(a)| == |a| && |Names(b)| == |b|;
      forall i | 0 <= i < |a| ensures a[i] == b[i] {
        assert Names(a)[i] == Names(b)[i];
        AsMapAt(a, i);
        AsMapAt(b, i);
      }
    }
  }

  /** Two lists whose lookups differ by an update stand for maps that do. */
  lemma MapUpdated(before: seq<Cluster>, after: seq<Cluster>, c: Cluster)
    requires forall n :: Find(after, n) == if n == c.clusterName then Some(c) else Find(before, n)
    ensures AsMap(after) == AsMap(before)[c.clusterName := c]
  {
    forall n ensures n in AsMap(after) <==> n in AsMap(before)[c.clusterName := c]
      ensures n in AsMap(after) ==> AsMap(after)[n] == AsMap(before)[c.clusterName := c][n]
    {
      AsMapFinds(after, n);
      AsMapFinds(before, n);
    }
  }

  lemma MapReduced(before: seq<Cluster>, after: seq<Cluster>, name: string)
    requires forall n :: Find(after, n) == if n == name then None else Find(before, n)
    ensures AsMap(after) == AsMap(before) - {name}
  {
    forall n ensures n in AsMap(after) <==> n in AsMap(before) && n != name
      ensures n in AsMap(after) ==> AsMap(after)[n] == AsMap(before)[n]
    {
      AsMapFinds(after, n);
      AsMapFinds(before, n);
    }
  }

  lemma SavedNames(clusters: seq<Cluster>, c: Cluster)
    requires DistinctNames(clusters)
    ensures DistinctNames(Saved(clusters, c))
    ensures Names(Saved(clusters, c)) ==
      if Find(clusters, c.clusterName).Some? then Names(clusters) else Names(clusters) + [c.clusterName]
  {
    var after := Saved(clusters, c);
    forall i | 0 <= i < |clusters| ensures after[i].clusterName == clusters[i].clusterName {}
    if Find(clusters, c.clusterName).None? {
      assert forall i :: 0 <= i < |clusters| ==> clusters[i] in clusters;
    }
  }

  /** Saving is an update of the map; an updated cluster keeps its place, a new one goes last. */
  lemma SavedIsUpdate(clusters: seq<Cluster>, c: Cluster)
    requires DistinctNames(clusters)
    ensures DistinctNames(Saved(clusters, c))
    ensures AsMap(Saved(clusters, c)) == AsMap(clusters)[c.clusterName := c]
    ensures Names(Saved(clusters, c)) == if c.clusterName in AsMap(clusters) then Names(clusters) else Names(clusters) + [c.clusterName]
  {
    forall n ensures Find(Saved(clusters, c), n) == if n == c.clusterName then Some(c) else Find(clusters, n) {
      SavedFinds(clusters, c, n);
    }
    MapUpdated(clusters, Saved(clusters, c), c);
    SavedNames(clusters, c);
    AsMapFinds(clusters, c.clusterName);
  }

  lemma {:induction false} SavedFinds(clusters: seq<Cluster>, c: Cluster, n: string)
    ensures Find(Saved(clusters, c), n) == if n == c.clusterName then Some(c) else Find(clusters, n)
  {
    var name := c.clusterName;
    if Find(clusters, name).Some? {
      ReplacedFinds(clusters, c, n);
    } else {
      AppendedFinds(clusters, c, n);
    }
  }

  lemma {:induction false} ReplacedFinds(clusters: seq<Cluster>, c: Cluster, n: string)
    ensures Find(Replaced(clusters, c), n)
         == if n == c.clusterName && Find(clusters, n).Some? then Some(c) else Find(clusters, n)
  {
    if clusters != [] {
      assert Replaced(clusters, c)[1..] == Replaced(clusters[1..], c);
      ReplacedFinds(clusters[1..], c, n);
    }
  }

  lemma {:induction false} AppendedFinds(clusters: seq<Cluster>, c: Cluster, n: string)
    ensures Find(clusters + [c], n) == if Find(clusters, n).Some? then Find(clusters, n)
                                       else if n == c.clusterName then Some(c) else None
  {
    if clusters != [] {
      assert (clusters + [c])[1..] == clusters[1..] + [c];
      AppendedFinds(clusters[1..], c, n);
    }
  }

  lemma {:induction false} RetainedFinds(clusters: seq<Cluster>, name: string, n: string)
    ensures Find(Retain(clusters, NotNamed(name)), n) == if n == name then None else Find(clusters, n)
  {
    if clusters != [] {
      var rest := Retain(clusters[1..], NotNamed(name));
      RetainedFinds(clusters[1..], name, n);
      if clusters[0].clusterName == name {
        assert Retain(clusters, NotNamed(name)) == [] + rest == rest;
      } else {
        assert Retain(clusters, NotNamed(name)) == [clusters[0]] + rest;
        assert ([clusters[0]] + rest)[1..] == rest;
      }
    }
  }

  lemma {:induction false} RetainLength(clusters: seq<Cluster>, name: string)
    requires DistinctNames(clusters)
    ensures var rest := Retain(clusters, NotNamed(name));
      DistinctNames(rest) && |rest| == |clusters| - if Find(clusters, name).Some? then 1 else 0
  {
    if clusters != [] {
      var tail := clusters[1..];
      assert clusters == [clusters[0]] + tail;
      assert forall i :: 0 <= i < |tail| ==> tail[i] == clusters[i + 1];
      RetainLength(tail, name);
      var kept := Retain(tail, NotNamed(name));
      forall j | 0 <= j < |kept| ensures kept[j].clusterName != clusters[0].clusterName {
        RetainHas(tail, NotNamed(name), kept[j]);
        var i :| 0 <= i < |tail| && tail[i] == kept[j];
      }
      if clusters[0].clusterName == name {
        assert forall c :: c in tail ==> c.clusterName != name;
      }
    }
  }

  lemma {:induction false} RetainNames(clusters: seq<Cluster>, name: string)
    ensures Names(Retain(clusters, NotNamed(name))) == Retain(Names(clusters), Other(name))
  {
    if clusters != [] {
      RetainNames(clusters[1..], name);
      assert Names(clusters)[1..] == Names(clusters[1..]);
    }
  }

  lemma {:induction false} RetainLogs(logs: seq<LogEntry>, name: string)
    ensures Retain(logs, NotFor(name)) == Machine.LogsWithout(logs, name)
  {
    if logs != [] { RetainLogs(logs[1..], name); }
  }

  lemma {:induction false} LogsOfRest(logs: seq<LogEntry>, name: string, n: string)
    ensures Retain(Machine.LogsWithout(logs, name), EntryFor(n))
         == if n == name then [] else Retain(logs, EntryFor(n))
  {
    if logs != [] { LogsOfRest(logs[1..], name, n); }
  }

  /** Deleting removes one entry of the map, if it is there, and exactly that cluster's log. */
  lemma DeleteIsRemoval(db: DbData, name: string)
    requires DistinctNames(db.clusters)
    ensures var after := After(db, Op.DeleteCluster(name));
      && DistinctNames(after.clusters)
      && AsMap(after.clusters) == AsMap(db.clusters) - {name}
      && Names(after.clusters) == Retain(Names(db.clusters), Other(name))
      && |after.clusters| == |db.clusters| - (if name in AsMap(db.clusters) then 1 else 0)
      && after.actionLog == Machine.LogsWithout(db.actionLog, name)
  {
    RetainLength(db.clusters, name);
    RetainNames(db.clusters, name);
    RetainLogs(db.actionLog, name);
    AsMapFinds(db.clusters, name);
    forall n ensures Find(Retain(db.clusters, NotNamed(name)), n) == if n == name then None else Find(db.clusters, n) {
      RetainedFinds(db.clusters, name, n);
    }
    MapReduced(db.clusters, Retain(db.clusters, NotNamed(name)), name);
  }

  /** No other cluster loses a log entry. */
  lemma OtherLogsStay(db: DbData, name: string, n: string)
    ensures LogsOf(After(db, Op.DeleteCluster(name)), n) == if n == name then [] else LogsOf(db, n)
    ensures LogsOf(After(db, Op.DeleteLogs(name)), n) == if n == name then [] else LogsOf(db, n)
  {
    RetainLogs(db.actionLog, name);
    LogsOfRest(db.actionLog, name, n);
  }

  // ------------------------------------------------------------ refinement

  /** The store as the machine sees it, and the order of insertion. */
  datatype Abstract = Abstract(order: seq<string>, clusters: map<string, Cluster>, logs: seq<LogEntry>)

  function Abstraction(db: DbData): Abstract {
    Abstract(Names(db.clusters), AsMap(db.clusters), db.actionLog)
  }

  function AbstractAfter(a: Abstract, op: Op): Abstract {
    match op
    case SaveCluster(c) =>
      a.(order := if c.clusterName in a.clusters then a.order else a.order + [c.clusterName],
         clusters := a.clusters[c.clusterName := c])
    case DeleteCluster(name) =>
      Abstract(Retain(a.order, Other(name)), a.clusters - {name}, Machine.LogsWithout(a.logs, name))
    case SaveLog(entry) => a.(logs := a.logs + [entry])
    case DeleteLogs(name) => a.(logs := Machine.LogsWithout(a.logs, name))
  }

  function Run(db: DbData, ops: seq<Op>): DbData
    decreases |ops|
  {
    if ops == [] then db else Run(After(db, ops[0]), ops[1..])
  }

  function AbstractRun(a: Abstract, ops: seq<Op>): Abstract
    decreases |ops|
  {
    if ops == [] then a else AbstractRun(AbstractAfter(a, ops[0]), ops[1..])
  }

  lemma StepRefines(db: DbData, op: Op)
    requires DistinctNames(db.clusters)
    ensures DistinctNames(After(db, op).clusters)
    ensures Abstraction(After(db, op)) == AbstractAfter(Abstraction(db), op)
  {
    match op
    case SaveCluster(c) => SavedIsUpdate(db.clusters, c);
    case DeleteCluster(name) => DeleteIsRemoval(db, name);
    case SaveLog(_) =>
    case DeleteLogs(name) => RetainLogs(db.actionLog, name);
  }

  /** From distinct names on, any sequence of operations on the lists is the same sequence of
      operations on a map that remembers the order of insertion, and names stay distinct. */
  lemma {:induction false} StoreRefinesMap(db: DbData, ops: seq<Op>)
    requires DistinctNames(db.clusters)
    ensures DistinctNames(Run(db, ops).clusters)
    ensures Abstraction(Run(db, ops)) == AbstractRun(Abstraction(db), ops)
    decreases |ops|
  {
    if ops != [] {
      StepRefines(db, ops[0]);
      StoreRefinesMap(After(db, ops[0]), ops[1..]);
    }
  }
}
