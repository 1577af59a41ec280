/** Collecting the logs of a pod's containers into the store. */
module LogCollection {
  import opened Api
  import opened Naming
  import opened Origins
  import opened Sorting
  import opened DiskStore

  /** Each container's log stream, if it could be opened, and what the disk does to its write. */
  datatype Logs = Logs(streams: map<string, Stream>, faults: map<string, Fault>)

  function FaultOf(logs: Logs, c: string): Fault {
    if c in logs.faults then logs.faults[c] else NoFault
  }

  /** What one collection works from: the pod, its logs, the stamp of the files and the clock. */
  datatype Collection = Collection(pod: Pod, logs: Logs, stamp: string, now: Time)
  {
    function Containers(): seq<string> {
      pod.initContainers + pod.containers
    }

    /** Where the container's log goes. */
    function At(c: string): Path {
      [pod.namespace, pod.name, c, stamp + ".log"]
    }

    function PathOf(c: string): string {
      LogPath(pod.namespace, pod.name, c, stamp)
    }
  }

  /** What is on the disk. */
  datatype Disk = Disk(files: map<Path, File>, dirs: set<Path>)

  ghost function DiskOf(storage: DiskStorage): Disk reads storage {
    Disk(storage.files, storage.dirs)
  }

  /** The container's log is collected when its stream opens and ends properly and the disk takes it. */
  predicate Collects(d: Disk, coll: Collection, c: string) {
    c in coll.logs.streams && coll.logs.streams[c].complete && FaultOf(coll.logs, c).NoFault?
    && Writable(d.files, d.dirs, coll.At(c))
  }

  /** The log paths, in order, of those of the first `n` containers whose logs are collected. */
  function Collectable(d: Disk, coll: Collection, n: nat): seq<string>
    requires n <= |coll.Containers()|
  {
    if n == 0 then []
    else
      var c := coll.Containers()[n - 1];
      Collectable(d, coll, n - 1) + (if Collects(d, coll, c) then [coll.PathOf(c)] else [])
  }

  method AllContainerNames(pod: Pod) returns (names: seq<string>)
    ensures names == pod.initContainers + pod.containers
  {
    names := [];
    for i := 0 to |pod.initContainers|
      invariant names == pod.initContainers[..i]
    {
      names := names + [pod.initContainers[i]];
    }
    for i := 0 to |pod.containers|
      invariant names == pod.initContainers + pod.containers[..i]
    {
      names := names + [pod.containers[i]];
    }
  }

  /** Directories and files of this pod's collection do not stand in each other's way. */
  ghost predicate OnlyLogsAdded(d: Disk, d': Disk, pod: Pod) {
    && (forall p :: p in d.files ==> p in d'.files)
    && (forall p :: p in d'.files && !(p in d.files && d'.files[p] == d.files[p]) ==>
          |p| == 4 && p[0] == pod.namespace && p[1] == pod.name)
    && d.dirs <= d'.dirs
    && (forall p :: p in d'.dirs && p !in d.dirs ==> |p| < 4)
  }

  lemma WritabilityUnaffected(d: Disk, d': Disk, pod: Pod, p: Path)
    requires OnlyLogsAdded(d, d', pod)
    requires |p| == 4
    ensures Writable(d'.files, d'.dirs, p) == Writable(d.files, d.dirs, p)
  {
    forall n | 0 <= n < |p| ensures p[..n] in d'.files <==> p[..n] in d.files {
    }
  }

  lemma AddedTwice(d0: Disk, d1: Disk, d2: Disk, pod: Pod)
    requires OnlyLogsAdded(d0, d1, pod) && OnlyLogsAdded(d1, d2, pod)
    ensures OnlyLogsAdded(d0, d2, pod)
  {
  }

  /** The file of the container's log holds what its stream delivered. */
  ghost predicate Holds(d: Disk, coll: Collection, c: string) {
    && coll.At(c) in d.files && c in coll.logs.streams
    && d.files[coll.At(c)] == File(coll.logs.streams[c].delivered, coll.now)
  }

  /** The effect of collecting one container's log. */
  ghost predicate Collected(d: Disk, d': Disk, coll: Collection, c: string, ok: bool) {
    && OnlyLogsAdded(d, d', coll.pod)
    && ok == Collects(d, coll, c)
    && (ok ==> Holds(d', coll, c))
    && (forall p :: p in d.files && p != coll.At(c) ==> d'.files[p] == d.files[p])
    && LogOf(coll.PathOf(c), coll.pod.namespace, coll.pod.name)
  }

  /** The first `n` containers are dealt with. */
  ghost predicate CollectedSoFar(d: Disk, d': Disk, coll: Collection, n: nat, paths: seq<string>) {
    var cs := coll.Containers();
    && n <= |cs|
    && OnlyLogsAdded(d, d', coll.pod)
    && paths == Collectable(d, coll, n)
    && PathsOfPod(paths, coll.pod)
    && (forall j :: 0 <= j < n && Collects(d, coll, cs[j]) ==> Holds(d', coll, cs[j]))
    && (forall p :: p in d.files && (forall j :: 0 <= j < n ==> p != coll.At(cs[j])) ==> d'.files[p] == d.files[p])
  }

  lemma CollectedOneMore(d0: Disk, d1: Disk, d2: Disk, coll: Collection, i: nat, paths: seq<string>, ok: bool)
    requires i < |coll.Containers()| && Distinct(coll.Containers())
    requires CollectedSoFar(d0, d1, coll, i, paths)
    requires Collected(d1, d2, coll, coll.Containers()[i], ok)
    ensures CollectedSoFar(d0, d2, coll, i + 1, if ok then paths + [coll.PathOf(coll.Containers()[i])] else paths)
  {
    AddedTwice(d0, d1, d2, coll.pod);
    WritabilityUnaffected(d0, d1, coll.pod, coll.At(coll.Containers()[i]));
    HoldsOneMore(d0, d1, d2, coll, i, ok);
    OthersUnchanged(d0, d1, d2, coll, i);
  }

  lemma HoldsOneMore(d0: Disk, d1: Disk, d2: Disk, coll: Collection, i: nat, ok: bool)
    requires var cs := coll.Containers();
      && i < |cs| && Distinct(cs)
      && (forall j :: 0 <= j < i && Collects(d0, coll, cs[j]) ==> Holds(d1, coll, cs[j]))
      && Collected(d1, d2, coll, cs[i], ok) && ok == Collects(d0, coll, cs[i])
    ensures var cs := coll.Containers();
      forall j :: 0 <= j <= i && Collects(d0, coll, cs[j]) ==> Holds(d2, coll, cs[j])
  {
    var cs := coll.Containers();
    forall j | 0 <= j < i ensures coll.At(cs[j]) != coll.At(cs[i]) {
      assert coll.At(cs[j])[2] != coll.At(cs[i])[2];
    }
  }

  lemma OthersUnchanged(d0: Disk, d1: Disk, d2: Disk, coll: Collection, i: nat)
    requires i < |coll.Containers()|
    requires forall p :: p in d0.files ==> p in d1.files
    requires forall p :: p in d1.files ==> p in d2.files
    requires var cs := coll.Containers();
      forall p :: p in d0.files && (forall j :: 0 <= j < i ==> p != coll.At(cs[j])) ==> d1.files[p] == d0.files[p]
    requires forall p :: p in d1.files && p != coll.At(coll.Containers()[i]) ==> d2.files[p] == d1.files[p]
    ensures var cs := coll.Containers();
      forall p :: p in d0.files && (forall j :: 0 <= j < i + 1 ==> p != coll.At(cs[j])) ==> d2.files[p] == d0.files[p]
  {
  }

  /** What a write of the container's log does to the disk is what collecting it may do. */
  lemma WriteCollects(d: Disk, d': Disk, coll: Collection, c: string, ok: bool)
    requires c in coll.logs.streams && LogOf(coll.PathOf(c), coll.pod.namespace, coll.pod.name)
    requires var p := coll.At(c);
      var reached := FaultOf(coll.logs, c).NoFault? && Writable(d.files, d.dirs, p);
      && d'.files == (if reached then d.files[p := File(coll.logs.streams[c].delivered, coll.now)] else d.files)
      && ok == (reached && coll.logs.streams[c].complete)
      && d.dirs <= d'.dirs <= d.dirs + Parents(p)
    ensures Collected(d, d', coll, c, ok)
  {
  }

  /** Collects one container's log; the write does not touch what other containers' writes need. */
  method CollectOne(storage: DiskStorage, coll: Collection, c: string) returns (ok: bool)
    requires storage.Valid()
    requires Plain(coll.pod.namespace) && Plain(coll.pod.name) && Plain(c) && '/' !in coll.stamp
    modifies storage
    ensures storage.Valid()
    ensures Collected(old(DiskOf(storage)), DiskOf(storage), coll, c, ok)
  {
    LogPathComponents(coll.pod.namespace, coll.pod.name, c, coll.stamp);
    if c !in coll.logs.streams {
      return false;
    }
    ghost var before := DiskOf(storage);
    ok := storage.Write(coll.PathOf(c), coll.logs.streams[c], coll.now, FaultOf(coll.logs, c));
    WriteCollects(before, DiskOf(storage), coll, c, ok);
  }

  /** The names Kubernetes admits: no "/" anywhere, container names unique within the pod. */
  ghost predicate ProperNames(coll: Collection) {
    && Plain(coll.pod.namespace) && Plain(coll.pod.name) && '/' !in coll.stamp
    && (forall c :: c in coll.Containers() ==> Plain(c))
    && Distinct(coll.Containers())
  }

  /** Collects every container's log, skipping those that fail. The returned paths are exactly
      those of the containers whose log was written completely, in container order; each holds
      its container's log; no other file changes, but that a log whose stream broke may be left
      in part; and there is an error only if nothing at all was collected from a pod that has
      containers. */
  method CollectLogs(storage: DiskStorage, coll: Collection) returns (paths: seq<string>, ok: bool)
    requires storage.Valid() && ProperNames(coll)
    modifies storage
    ensures storage.Valid()
    ensures CollectedSoFar(old(DiskOf(storage)), DiskOf(storage), coll, |coll.Containers()|, paths)
    ensures ok == !(paths == [] && coll.Containers() != [])
  {
    paths := [];
    var containers := AllContainerNames(coll.pod);
    ghost var before := DiskOf(storage);
    var i := 0;
    while i < |containers|
      invariant i <= |containers| && storage.Valid()
      invariant CollectedSoFar(before, DiskOf(storage), coll, i, paths)
    {
      ghost var mid, done := DiskOf(storage), paths;
      var written := CollectOne(storage, coll, containers[i]);
      if written {
        paths := paths + [coll.PathOf(containers[i])];
      }
      CollectedOneMore(before, mid, DiskOf(storage), coll, i, done, written);
      i := i + 1;
    }
    ok := !(paths == [] && containers != []);
  }

  /** A collection returns only paths of the pod and leaves the files of all others alone. */
  lemma CollectionStaysInside(d: Disk, d': Disk, coll: Collection, paths: seq<string>)
    requires CollectedSoFar(d, d', coll, |coll.Containers()|, paths)
    ensures PathsOfPod(paths, coll.pod)
    ensures forall p :: !([coll.pod.namespace, coll.pod.name] <= p) ==>
      (p in d'.files <==> p in d.files) && (p in d'.files ==> d'.files[p] == d.files[p])
  {
    forall p | !([coll.pod.namespace, coll.pod.name] <= p)
      ensures (p in d'.files <==> p in d.files) && (p in d'.files ==> d'.files[p] == d.files[p])
    {
      assert |p| < 2 || p[0] != coll.pod.namespace || p[1] != coll.pod.name;
    }
  }

  // ---------- what a collection returns, in the fields of its inputs ----------

  /** The container's stream opens and ends properly, the disk does not fail, and neither a
      directory nor, in the place of one of its directories, a file stands in the way. */
  ghost predicate LogArrives(d: Disk, coll: Collection, c: string) {
    && c in coll.logs.streams && coll.logs.streams[c].complete
    && (c in coll.logs.faults ==> coll.logs.faults[c].NoFault?)
    && [coll.pod.namespace, coll.pod.name, c, coll.stamp + ".log"] !in d.dirs
    && [coll.pod.namespace, coll.pod.name, c] !in d.files && [coll.pod.namespace, coll.pod.name] !in d.files
    && [coll.pod.namespace] !in d.files && [] !in d.files
  }

  lemma ArrivesExactlyWhenCollected(d: Disk, coll: Collection, c: string)
    ensures Collects(d, coll, c) <==> LogArrives(d, coll, c)
  {
    var p := coll.At(c);
    assert p[..0] == [] && p[..1] == [coll.pod.namespace] && p[..2] == [coll.pod.namespace, coll.pod.name];
    assert p[..3] == [coll.pod.namespace, coll.pod.name, c];
  }

  /** The returned paths are those of the containers whose log arrives, one each, in order. */
  lemma {:induction false} CollectableInOrder(d: Disk, coll: Collection, n: nat)
    requires n <= |coll.Containers()|
    ensures var r, cs := Collectable(d, coll, n), coll.Containers();
      && (forall s :: s in r ==> exists a :: 0 <= a < n && LogArrives(d, coll, cs[a]) && s == coll.PathOf(cs[a]))
      && (forall a :: 0 <= a < n && LogArrives(d, coll, cs[a]) ==> coll.PathOf(cs[a]) in r)
      && (forall a, b :: 0 <= a < b < n && LogArrives(d, coll, cs[a]) && LogArrives(d, coll, cs[b]) ==>
            exists i, j :: 0 <= i < j < |r| && r[i] == coll.PathOf(cs[a]) && r[j] == coll.PathOf(cs[b]))
  {
    if n > 0 {
      CollectableInOrder(d, coll, n - 1);
      var cs, before, r := coll.Containers(), Collectable(d, coll, n - 1), Collectable(d, coll, n);
      ArrivesExactlyWhenCollected(d, coll, cs[n - 1]);
      assert before <= r;
      forall a, b | 0 <= a < b < n && LogArrives(d, coll, cs[a]) && LogArrives(d, coll, cs[b])
        ensures exists i, j :: 0 <= i < j < |r| && r[i] == coll.PathOf(cs[a]) && r[j] == coll.PathOf(cs[b])
      {
        if b == n - 1 {
          assert coll.PathOf(cs[a]) in before;
          var i :| 0 <= i < |before| && before[i] == coll.PathOf(cs[a]);
          assert r[i] == coll.PathOf(cs[a]) && r[|r| - 1] == coll.PathOf(cs[b]);
        } else {
          var i, j :| 0 <= i < j < |before| && before[i] == coll.PathOf(cs[a]) && before[j] == coll.PathOf(cs[b]);
          assert r[i] == before[i] && r[j] == before[j];
        }
      }
    }
  }

  /** For each container its path is returned if and only if its log arrives, and then its file
      holds what its stream delivered; nothing else is returned. */
  lemma CollectsWhatArrives(d: Disk, d': Disk, coll: Collection, paths: seq<string>)
    requires ProperNames(coll) && CollectedSoFar(d, d', coll, |coll.Containers()|, paths)
    ensures forall c :: c in coll.Containers() ==>
      var path := coll.pod.namespace + "/" + coll.pod.name + "/" + c + "/" + coll.stamp + ".log";
      path in paths <==> LogArrives(d, coll, c)
    ensures forall c :: c in coll.Containers() && LogArrives(d, coll, c) ==>
      var p := [coll.pod.namespace, coll.pod.name, c, coll.stamp + ".log"];
      p in d'.files && d'.files[p] == File(coll.logs.streams[c].delivered, coll.now)
    ensures forall s :: s in paths ==> exists c :: c in coll.Containers() && s == coll.PathOf(c)
  {
    var cs := coll.Containers();
    CollectableInOrder(d, coll, |cs|);
    forall c | c in cs
      ensures coll.PathOf(c) in paths <==> LogArrives(d, coll, c)
      ensures LogArrives(d, coll, c) ==> Holds(d', coll, c)
    {
      var b :| 0 <= b < |cs| && cs[b] == c;
      ArrivesExactlyWhenCollected(d, coll, c);
      if coll.PathOf(c) in paths {
        var a :| 0 <= a < |cs| && LogArrives(d, coll, cs[a]) && coll.PathOf(c) == coll.PathOf(cs[a]);
        LogPathComponents(coll.pod.namespace, coll.pod.name, c, coll.stamp);
        LogPathComponents(coll.pod.namespace, coll.pod.name, cs[a], coll.stamp);
        assert coll.At(c)[2] == coll.At(cs[a])[2];
      }
    }
  }

  // ---------- collections and the rest of the store ----------

  /** Only logs of containers are stored: files at the fourth level, directories above it. */
  ghost predicate OnlyLogs(d: Disk) {
    && (forall p :: p in d.files ==> |p| == 4)
    && (forall p :: p in d.dirs ==> |p| < 4)
  }

  /** Collections never stand in each other's way: in a store that only they have filled, a log
      arrives if and only if its stream does and the disk does not fail, and the store stays so. */
  lemma CollectionsDoNotBlock(d: Disk, d': Disk, coll: Collection, paths: seq<string>)
    requires OnlyLogs(d) && CollectedSoFar(d, d', coll, |coll.Containers()|, paths)
    ensures OnlyLogs(d')
    ensures forall c :: LogArrives(d, coll, c) <==>
      && c in coll.logs.streams && coll.logs.streams[c].complete
      && (c in coll.logs.faults ==> coll.logs.faults[c].NoFault?)
  {
  }

  /** Every oldest-first listing shows every log a collection has written, so pruning sees it. */
  lemma CollectedLogsAreListed(d: Disk, d': Disk, coll: Collection, paths: seq<string>, order: seq<Path>)
    requires ProperNames(coll) && CollectedSoFar(d, d', coll, |coll.Containers()|, paths)
    requires OldestFirst(d'.files, order)
    ensures forall c :: c in coll.Containers() && LogArrives(d, coll, c) ==>
      [coll.pod.namespace, coll.pod.name, c, coll.stamp + ".log"] in order
  {
    CollectsWhatArrives(d, d', coll, paths);
    forall c | c in coll.Containers() && LogArrives(d, coll, c) ensures coll.At(c) in order {
      StoredLogIsLog(coll, c);
    }
  }

  lemma StoredLogIsLog(coll: Collection, c: string)
    requires ProperNames(coll) && c in coll.Containers()
    ensures IsLog(coll.At(c))
  {
    var p, name := coll.At(c), coll.stamp + ".log";
    assert name[|name| - 4..] == ".log";
    assert name[|name| - 1] == 'g';
    assert '/' !in ".log";
    assert PlainPath(p);
    LogByLastComponent(p);
  }
}
