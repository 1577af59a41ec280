/** Pruning: by retention period, then by storage limit. */
module Cleanups {
  import opened Api
  import opened Naming
  import opened Counting
  import opened DiskStore

  // ---------- the storage limit ----------

  /** The first `n` files of the listing whose removal succeeds. */
  ghost function Pruned(order: seq<Path>, n: nat, failing: set<Path>): set<Path>
    requires n <= |order|
  {
    set i | 0 <= i < n && order[i] !in failing :: order[i]
  }

  /** `after` is what pruning may leave of `before`: some oldest-first listing was worked off
      up to the first point at which the usage fits the limit, or to its end. */
  ghost predicate PrunedToLimit(before: map<Path, File>, limit: int, failing: set<Path>, after: map<Path, File>,
                                order: seq<Path>, n: nat) {
    Reached(before, limit, failing, after, order, n) && (Usage(after) <= limit || n == |order|)
  }

  lemma PrunedOneMore(files: map<Path, File>, order: seq<Path>, n: nat, failing: set<Path>)
    requires n < |order|
    ensures files - Pruned(order, n + 1, failing) ==
      if order[n] in failing then files - Pruned(order, n, failing)
      else files - Pruned(order, n, failing) - {order[n]}
  {
    assert Pruned(order, n + 1, failing) ==
      Pruned(order, n, failing) + (if order[n] in failing then {} else {order[n]});
  }

  /** The next file of the listing is still there when its turn comes. */
  lemma NextIsThere(files: map<Path, File>, order: seq<Path>, n: nat, failing: set<Path>)
    requires OldestFirst(files, order) && n < |order|
    ensures order[n] in files - Pruned(order, n, failing)
  {
    assert order[n] in order;
  }

  method DeleteFile(storage: DiskStorage, path: string, fails: bool) returns (ok: bool)
    requires storage.Valid() && Components(path) in storage.files
    modifies storage
    ensures storage.Valid()
    ensures ok == !fails
    ensures storage.files == if ok then old(storage.files) - {Components(path)} else old(storage.files)
  {
    FilesHaveNothingBelow(storage.files, storage.dirs, Components(path));
    ok := storage.Delete(path, fails);
  }

  /** Pruning has reached entry `n`, having had a reason to go on at every entry before. */
  ghost predicate Reached(before: map<Path, File>, limit: int, failing: set<Path>, files: map<Path, File>,
                          order: seq<Path>, n: nat) {
    && OldestFirst(before, order) && n <= |order|
    && files == before - Pruned(order, n, failing)
    && forall m: nat :: m < n ==> Usage(before - Pruned(order, m, failing)) > limit
  }

  lemma ReachesNext(before: map<Path, File>, limit: int, failing: set<Path>, files: map<Path, File>,
                    order: seq<Path>, n: nat, next: map<Path, File>)
    requires Reached(before, limit, failing, files, order, n) && n < |order| && Usage(files) > limit
    requires next == if order[n] in failing then files else files - {order[n]}
    ensures Reached(before, limit, failing, next, order, n + 1)
  {
    PrunedOneMore(before, order, n, failing);
    forall m: nat | m < n + 1 ensures Usage(before - Pruned(order, m, failing)) > limit {
    }
  }

  /** The configured maximum in bytes, if there is a positive one. */
  function LimitBytes(maxSizeMB: Option<int>): Option<nat> {
    if maxSizeMB.None? || maxSizeMB.value <= 0 then None else Some(maxSizeMB.value * 1024 * 1024)
  }

  /** Deals with the next entry of the listing and measures the usage again if it went. */
  method PruneNext(storage: DiskStorage, file: string, usage: nat, failing: set<Path>,
                   ghost before: map<Path, File>, ghost limit: int, ghost order: seq<Path>, ghost n: nat)
    returns (left: nat)
    requires storage.Valid() && usage == Usage(storage.files) && usage > limit
    requires Reached(before, limit, failing, storage.files, order, n) && n < |order| && order[n] == Components(file)
    modifies storage
    ensures storage.Valid() && left == Usage(storage.files)
    ensures Reached(before, limit, failing, storage.files, order, n + 1)
  {
    ghost var files := storage.files;
    NextIsThere(before, order, n, failing);
    var ok := DeleteFile(storage, file, Components(file) in failing);
    ReachesNext(before, limit, failing, files, order, n, storage.files);
    left := usage;
    if ok {
      left := storage.UsageBytes();
    }
  }

  /** Works off an oldest-first listing until the usage fits. */
  method PruneToLimit(storage: DiskStorage, maxBytes: nat, failing: set<Path>)
    requires storage.Valid()
    modifies storage
    ensures storage.Valid()
    ensures exists order, n :: PrunedToLimit(old(storage.files), maxBytes, failing, storage.files, order, n)
    ensures PrunedAsNeeded(old(storage.files), maxBytes, failing, storage.files)
  {
    ghost var before := storage.files;
    var usage := storage.UsageBytes();
    var oldest := storage.OldestFiles();
    ghost var n := WorkOff(storage, oldest, usage, maxBytes, failing);
    PrunesAsNeeded(before, maxBytes, failing, storage.files, Map(Components, oldest), n);
  }

  method WorkOff(storage: DiskStorage, oldest: seq<string>, usage: nat, maxBytes: nat, failing: set<Path>)
    returns (ghost n: nat)
    requires storage.Valid() && usage == Usage(storage.files)
    requires OldestFirst(storage.files, Map(Components, oldest))
    modifies storage
    ensures storage.Valid()
    ensures PrunedToLimit(old(storage.files), maxBytes, failing, storage.files, Map(Components, oldest), n)
  {
    ghost var before, order := storage.files, Map(Components, oldest);
    assert before - Pruned(order, 0, failing) == before;
    var left, i := usage, 0;
    while i < |oldest| && left > maxBytes
      invariant i <= |oldest| && storage.Valid()
      invariant Reached(before, maxBytes, failing, storage.files, order, i) && left == Usage(storage.files)
    {
      left := PruneNext(storage, oldest[i], left, failing, before, maxBytes, order, i);
      i := i + 1;
    }
    n := i;
  }

  /** Only files ending in ".log" go, and none whose removal fails; none of a later second goes
      while an earlier one stays, unless its removal fails. Without failures the usage fits
      afterwards or no such file is left. No more goes than needed: nothing if the usage fitted,
      and with some removed file back in place it would not fit. */
  ghost predicate PrunedAsNeeded(before: map<Path, File>, limit: int, failing: set<Path>, after: map<Path, File>) {
    && OnlyOldLogsWent(before, failing, after)
    && (failing == {} ==>
          Usage(after) <= limit || forall p :: p in after ==> p == [] || !EndsInLog(p[|p| - 1]))
    && (Usage(before) <= limit ==> after == before)
    && (after != before ==> exists x :: x in before && x !in after && Usage(after[x := before[x]]) > limit)
  }

  ghost predicate OnlyOldLogsWent(before: map<Path, File>, failing: set<Path>, after: map<Path, File>) {
    && (forall p :: p in after ==> p in before && after[p] == before[p])
    && (forall p :: p in before && p !in after ==> p !in failing && p != [] && EndsInLog(p[|p| - 1]))
    && (forall p, q :: p in before && p !in after && q in after && q !in failing && q != [] && EndsInLog(q[|q| - 1]) ==>
          before[p].modTime / 1_000_000_000 <= before[q].modTime / 1_000_000_000)
  }

  lemma PrunesAsNeeded(before: map<Path, File>, limit: int, failing: set<Path>, after: map<Path, File>,
                       order: seq<Path>, n: nat)
    requires PrunedToLimit(before, limit, failing, after, order, n)
    requires forall p :: p in before ==> PlainPath(p)
    ensures PrunedAsNeeded(before, limit, failing, after)
  {
    assert before - Pruned(order, 0, failing) == before;
    OnlyOldLogsGo(before, failing, after, order, n);
    if failing == {} && n == |order| {
      assert forall p :: p in order ==> p in Pruned(order, n, {});
      forall p | p in after ensures p == [] || !EndsInLog(p[|p| - 1]) {
        LogByLastComponent(p);
        assert p !in order;
      }
    }
    if after != before {
      LastRemovalWasNeeded(before, limit, failing, after, order, n);
    }
  }

  lemma LastRemovalWasNeeded(before: map<Path, File>, limit: int, failing: set<Path>, after: map<Path, File>,
                             order: seq<Path>, n: nat)
    requires Reached(before, limit, failing, after, order, n) && Pruned(order, n, failing) != {}
    ensures exists x :: x in before && x !in after && Usage(after[x := before[x]]) > limit
  {
    var m := LastRemoved(order, n, failing);
    var x := order[m];
    assert x in order && x in before && x !in after;
    assert x !in Pruned(order, m, failing);
    assert after[x := before[x]] == before - Pruned(order, m, failing);
  }

  lemma OnlyOldLogsGo(before: map<Path, File>, failing: set<Path>, after: map<Path, File>, order: seq<Path>, n: nat)
    requires OldestFirst(before, order) && n <= |order| && after == before - Pruned(order, n, failing)
    requires forall p :: p in before ==> PlainPath(p)
    ensures OnlyOldLogsWent(before, failing, after)
  {
    forall p | p in before ensures IsLog(p) <==> p != [] && EndsInLog(p[|p| - 1]) {
      LogByLastComponent(p);
    }
    forall p | p in before && p !in after ensures p !in failing && IsLog(p) {
      var i :| 0 <= i < n && order[i] == p && p !in failing;
      assert order[i] in order;
    }
    forall p, q | p in before && p !in after && q in after && q !in failing && IsLog(q)
      ensures Age(before[p]) <= Age(before[q])
    {
      var i :| 0 <= i < n && order[i] == p;
      assert q in order;
      var j :| 0 <= j < |order| && order[j] == q;
      assert q !in Pruned(order, n, failing);
    }
  }

  /** The last of the first `n` files whose removal succeeds. */
  lemma {:induction false} LastRemoved(order: seq<Path>, n: nat, failing: set<Path>) returns (m: nat)
    requires n <= |order| && Pruned(order, n, failing) != {}
    ensures m < n && order[m] !in failing
    ensures Pruned(order, n, failing) == Pruned(order, m, failing) + {order[m]}
  {
    if order[n - 1] !in failing {
      m := n - 1;
    } else {
      assert Pruned(order, n, failing) == Pruned(order, n - 1, failing);
      m := LastRemoved(order, n - 1, failing);
    }
  }

  method EnforceStorageLimit(storage: DiskStorage, maxSizeMB: Option<int>, failing: set<Path>)
    requires storage.Valid()
    modifies storage
    ensures storage.Valid()
    ensures maxSizeMB.None? || maxSizeMB.value <= 0 ==> storage.files == old(storage.files)
    ensures maxSizeMB.Some? && maxSizeMB.value > 0 ==>
      PrunedAsNeeded(old(storage.files), maxSizeMB.value * 1_048_576, failing, storage.files)
    ensures LimitBytes(maxSizeMB).Some? ==> exists order, n ::
      PrunedToLimit(old(storage.files), LimitBytes(maxSizeMB).value, failing, storage.files, order, n)
  {
    if maxSizeMB.None? || maxSizeMB.value <= 0 {
      return;
    }
    PruneToLimit(storage, maxSizeMB.value * 1024 * 1024, failing);
  }

  /** When every removal succeeds: no file of a newer second goes while one of an older
      second stays, files that are not logs stay, and the usage fits unless no log is left. */
  lemma OldestGoFirst(before: map<Path, File>, limit: int, after: map<Path, File>, order: seq<Path>, n: nat)
    requires PrunedToLimit(before, limit, {}, after, order, n)
    ensures forall p, q :: p in before && p !in after && q in after && IsLog(q) ==> Age(before[p]) <= Age(before[q])
    ensures forall p :: p in before && p !in after ==> IsLog(p)
    ensures Usage(after) <= limit || forall p :: p in after ==> !IsLog(p)
  {
    assert forall i :: 0 <= i < n ==> order[i] in Pruned(order, n, {});
    forall p, q | p in before && p !in after && q in after && IsLog(q) ensures Age(before[p]) <= Age(before[q]) {
      var i :| 0 <= i < n && order[i] == p;
      assert q in order;
      var j :| 0 <= j < |order| && order[j] == q;
      assert q !in Pruned(order, n, {});
      assert n <= j;
    }
    forall p | p in before && p !in after ensures IsLog(p) {
      var i :| 0 <= i < n && order[i] == p;
      assert p in order;
    }
    if n == |order| {
      assert forall p :: p in order ==> p in Pruned(order, n, {});
    }
  }

  // ---------- the retention period ----------

  /** A listed Investigation. */
  datatype Listed = Listed(key: Key, created: Time, logPaths: seq<string>)

  predicate Expired(l: Listed, now: Time, retention: Duration) {
    now - l.created > retention
  }

  /** The Investigations as the API server has them. */
  class InvestigationApi {
    var live: set<Key>

    constructor (live: set<Key>)
      ensures this.live == live
    {
      this.live := live;
    }

    method Delete(key: Key, fails: bool) returns (ok: bool)
      modifies this
      ensures ok == (key in old(live) && !fails)
      ensures live == if ok then old(live) - {key} else old(live)
    {
      ok := key in live && !fails;
      if ok {
        live := live - {key};
      }
    }
  }

  /** One of the first `n` paths whose removal succeeds is the file, or a directory above it. */
  ghost predicate Covered(paths: seq<string>, n: nat, failing: set<string>, p: Path)
    requires n <= |paths|
  {
    exists j :: 0 <= j < n && paths[j] !in failing && Components(paths[j]) <= p
  }

  ghost function Uncovered(files: map<Path, File>, paths: seq<string>, n: nat, failing: set<string>): map<Path, File>
    requires n <= |paths|
  {
    map p | p in files && !Covered(paths, n, failing, p) :: files[p]
  }

  lemma UncoveredOneMore(files: map<Path, File>, paths: seq<string>, n: nat, failing: set<string>)
    requires n < |paths|
    ensures Uncovered(files, paths, n + 1, failing) ==
      if paths[n] in failing then Uncovered(files, paths, n, failing)
      else Without(Uncovered(files, paths, n, failing), Components(paths[n]))
  {
    forall p ensures Covered(paths, n + 1, failing, p) <==>
      Covered(paths, n, failing, p) || (paths[n] !in failing && Components(paths[n]) <= p)
    {
    }
  }

  /** The file is covered by the log paths of an expired listed Investigation. */
  ghost predicate PathExpired(p: Path, listed: seq<Listed>, now: Time, retention: Duration, failing: set<string>) {
    exists i :: 0 <= i < |listed| && Expired(listed[i], now, retention)
      && Covered(listed[i].logPaths, |listed[i].logPaths|, failing, p)
  }

  ghost function FilesKept(files: map<Path, File>, listed: seq<Listed>, now: Time, retention: Duration,
                           failing: set<string>): map<Path, File> {
    map p | p in files && !PathExpired(p, listed, now, retention, failing) :: files[p]
  }

  /** Listed keys that are expired, still there, and whose deletion succeeds. */
  ghost function KeysPruned(live: set<Key>, listed: seq<Listed>, now: Time, retention: Duration,
                            failing: set<Key>): set<Key> {
    set i | 0 <= i < |listed| && Expired(listed[i], now, retention)
            && listed[i].key in live && listed[i].key !in failing :: listed[i].key
  }

  ghost function CountAfter(count: int, pruned: nat): int {
    if pruned == 0 then count else Lowered(count, pruned)
  }

  // ---------- what a pass leaves ----------

  /** Deletions that fail: of logs by path, of Investigations by key. */
  datatype Outage = Outage(logs: set<string>, keys: set<Key>)

  /** What a cleanup works on: the files, the Investigations and the count. */
  datatype Holdings = Holdings(files: map<Path, File>, live: set<Key>, count: int)

  /** What pruning one expired Investigation leaves. */
  ghost predicate OneLeaves(before: Holdings, l: Listed, o: Outage, after: Holdings) {
    var deleted := l.key in before.live && l.key !in o.keys;
    && after.files == Uncovered(before.files, l.logPaths, |l.logPaths|, o.logs)
    && after.live == (if deleted then before.live - {l.key} else before.live)
    && after.count == (if deleted then Lowered(before.count, 1) else before.count)
  }

  /** What a retention pass leaves: every file but those of expired listed Investigations,
      every Investigation but the expired listed ones, and a count lower by as many as were
      actually deleted. */
  ghost predicate PassLeaves(before: Holdings, listed: seq<Listed>, now: Time, retention: Duration, o: Outage,
                             after: Holdings) {
    var pruned := KeysPruned(before.live, listed, now, retention, o.keys);
    && after.files == FilesKept(before.files, listed, now, retention, o.logs)
    && after.live == before.live - pruned
    && after.count == CountAfter(before.count, |pruned|)
  }

  lemma LeavesOneMore(before: Holdings, listed: seq<Listed>, i: nat, now: Time, retention: Duration, o: Outage,
                      mid: Holdings, after: Holdings)
    requires i < |listed|
    requires PassLeaves(before, listed[..i], now, retention, o, mid)
    requires if Expired(listed[i], now, retention) then OneLeaves(mid, listed[i], o, after) else after == mid
    ensures PassLeaves(before, listed[..i + 1], now, retention, o, after)
  {
    assert listed[..i + 1] == listed[..i] + [listed[i]];
    KeptOneMore(before.files, listed[..i], listed[i], now, retention, o.logs);
    PrunedKeysOneMore(before.live, listed[..i], listed[i], now, retention, o.keys);
  }

  /** A listed path that is removed covers the file: its Investigation is too old, its removal
      succeeds, and the file is that path or lies below it. */
  ghost predicate RemovedWith(p: Path, listed: seq<Listed>, i: int, j: int, now: Time, retention: Duration, o: Outage) {
    && 0 <= i < |listed| && now - listed[i].created > retention
    && 0 <= j < |listed[i].logPaths| && listed[i].logPaths[j] !in o.logs
    && Components(listed[i].logPaths[j]) <= p
  }

  /** The outcome of a retention pass for each file and each Investigation, and the count. */
  lemma PassInFields(before: Holdings, listed: seq<Listed>, now: Time, retention: Duration, o: Outage, after: Holdings)
    requires PassLeaves(before, listed, now, retention, o, after)
    ensures forall p :: p in after.files <==>
      p in before.files && !exists i, j :: RemovedWith(p, listed, i, j, now, retention, o)
    ensures forall p :: p in after.files ==> after.files[p] == before.files[p]
    ensures forall k :: k in after.live <==>
      && k in before.live
      && !exists i :: 0 <= i < |listed| && listed[i].key == k && now - listed[i].created > retention && k !in o.keys
    ensures before.count >= 0 ==>
      after.count == if before.count < |before.live - after.live| then 0 else before.count - |before.live - after.live|
  {
    forall p ensures PathExpired(p, listed, now, retention, o.logs) <==>
      exists i, j :: RemovedWith(p, listed, i, j, now, retention, o)
    {
      if i, j :| RemovedWith(p, listed, i, j, now, retention, o) {
        assert Covered(listed[i].logPaths, |listed[i].logPaths|, o.logs, p);
      }
      if i :| (0 <= i < |listed| && Expired(listed[i], now, retention)
               && Covered(listed[i].logPaths, |listed[i].logPaths|, o.logs, p))
      {
        var paths := listed[i].logPaths;
        var j :| 0 <= j < |paths| && paths[j] !in o.logs && Components(paths[j]) <= p;
        assert RemovedWith(p, listed, i, j, now, retention, o);
      }
    }
    assert before.live - after.live == KeysPruned(before.live, listed, now, retention, o.keys);
  }

  lemma NothingListedNothingPruned(before: Holdings, now: Time, retention: Duration, o: Outage)
    ensures PassLeaves(before, [], now, retention, o, before)
  {
    assert FilesKept(before.files, [], now, retention, o.logs) == before.files;
    assert KeysPruned(before.live, [], now, retention, o.keys) == {};
  }

  lemma KeptOneMore(files: map<Path, File>, before: seq<Listed>, l: Listed, now: Time, retention: Duration,
                    failing: set<string>)
    ensures FilesKept(files, before + [l], now, retention, failing) ==
      if !Expired(l, now, retention) then FilesKept(files, before, now, retention, failing)
      else Uncovered(FilesKept(files, before, now, retention, failing), l.logPaths, |l.logPaths|, failing)
  {
    var all := before + [l];
    forall p ensures PathExpired(p, all, now, retention, failing) <==>
      PathExpired(p, before, now, retention, failing)
      || (Expired(l, now, retention) && Covered(l.logPaths, |l.logPaths|, failing, p))
    {
      if PathExpired(p, before, now, retention, failing) {
        var i :| 0 <= i < |before| && Expired(before[i], now, retention)
          && Covered(before[i].logPaths, |before[i].logPaths|, failing, p);
        assert all[i] == before[i];
      }
      assert all[|before|] == l;
    }
  }

  lemma PrunedKeysOneMore(live: set<Key>, before: seq<Listed>, l: Listed, now: Time, retention: Duration,
                          failing: set<Key>)
    ensures var k := KeysPruned(live, before, now, retention, failing);
      var k' := KeysPruned(live, before + [l], now, retention, failing);
      var deleted := Expired(l, now, retention) && l.key in live && l.key !in failing;
      && k' == (if deleted then k + {l.key} else k)
      && |k'| == (if deleted && l.key !in k then |k| + 1 else |k|)
  {
    var all := before + [l];
    var k, k' := KeysPruned(live, before, now, retention, failing), KeysPruned(live, all, now, retention, failing);
    forall x | x in k ensures x in k' {
      var i :| 0 <= i < |before| && before[i].key == x && Expired(before[i], now, retention);
      assert all[i] == before[i];
    }
    assert all[|before|] == l;
  }

  class Cleanup {
    const api: InvestigationApi
    const storage: DiskStorage
    const counter: InvestigationCounter

    constructor (api: InvestigationApi, storage: DiskStorage, counter: InvestigationCounter)
      ensures this.api == api && this.storage == storage && this.counter == counter
    {
      this.api := api;
      this.storage := storage;
      this.counter := counter;
    }

    ghost function Holds(): Holdings reads api, storage, counter {
      Holdings(storage.files, api.live, counter.count)
    }

    method DeleteLogs(paths: seq<string>, failing: set<string>)
      requires storage.Valid()
      modifies storage
      ensures storage.Valid()
      ensures storage.files == Uncovered(old(storage.files), paths, |paths|, failing)
    {
      ghost var files := storage.files;
      assert Uncovered(files, paths, 0, failing) == files;
      var i := 0;
      while i < |paths|
        invariant i <= |paths| && storage.Valid()
        invariant storage.files == Uncovered(files, paths, i, failing)
      {
        UncoveredOneMore(files, paths, i, failing);
        var ok := storage.Delete(paths[i], paths[i] in failing);
        i := i + 1;
      }
    }

    method PruneOne(inv: Listed, o: Outage)
      requires storage.Valid()
      modifies api, storage, counter
      ensures storage.Valid()
      ensures OneLeaves(old(Holds()), inv, o, Holds())
    {
      DeleteLogs(inv.logPaths, o.logs);
      var ok := api.Delete(inv.key, inv.key in o.keys);
      if ok {
        counter.Decrement(1);
      }
    }

    /** Deals with entry `i` of the listing. */
    method PruneListed(listed: seq<Listed>, i: nat, now: Time, retention: Duration, o: Outage, ghost before: Holdings)
      requires storage.Valid() && i < |listed|
      requires PassLeaves(before, listed[..i], now, retention, o, Holds())
      modifies api, storage, counter
      ensures storage.Valid()
      ensures PassLeaves(before, listed[..i + 1], now, retention, o, Holds())
    {
      ghost var mid := Holds();
      if now - listed[i].created > retention {
        PruneOne(listed[i], o);
      }
      LeavesOneMore(before, listed, i, now, retention, o, mid, Holds());
    }

    /** The retention part of a cleanup run over a possibly stale listing. */
    method PruneExpired(listed: seq<Listed>, now: Time, retention: Duration, o: Outage)
      requires storage.Valid()
      modifies api, storage, counter
      ensures storage.Valid()
      ensures PassLeaves(old(Holds()), listed, now, retention, o, Holds())
    {
      ghost var before := Holds();
      NothingListedNothingPruned(before, now, retention, o);
      var i := 0;
      while i < |listed|
        invariant i <= |listed| && storage.Valid()
        invariant PassLeaves(before, listed[..i], now, retention, o, Holds())
      {
        PruneListed(listed, i, now, retention, o, before);
        i := i + 1;
      }
      assert listed[..i] == listed;
    }
  }

  // ---------- a whole cleanup run ----------

  const DEFAULT_RETENTION: Duration := 7 * 24 * 3600 * SECOND

  datatype Config = Config(retention: Option<Duration>, maxSizeMB: Option<int>)

  /** The retention of the first DetectiveConfig; the default if the listing fails, is empty or sets none. */
  function RetentionPeriod(configs: Option<seq<Config>>): Duration {
    if configs.None? || configs.value == [] || configs.value[0].retention.None? then DEFAULT_RETENTION
    else configs.value[0].retention.value
  }

  function MaxSizeMB(configs: Option<seq<Config>>): Option<int> {
    if configs.None? || configs.value == [] then None else configs.value[0].maxSizeMB
  }

  /** One cleanup run: nothing at all if the Investigations cannot be listed, else the
      retention pass and then, with the configuration listed anew, the storage limit. */
  method RunCleanup(c: Cleanup, listed: Option<seq<Listed>>, configs: Option<seq<Config>>,
                    configsAgain: Option<seq<Config>>, now: Time, o: Outage, failing: set<Path>)
    requires c.storage.Valid()
    modifies c.api, c.storage, c.counter
    ensures c.storage.Valid()
    ensures listed.None? ==> c.Holds() == old(c.Holds())
    ensures listed.Some? ==> exists mid, period ::
      RunLeaves(old(c.Holds()), listed.value, configs, configsAgain, now, o, failing, mid, period, c.Holds())
  {
    if listed.None? {
      return;
    }
    c.PruneExpired(listed.value, now, RetentionPeriod(configs), o);
    ghost var mid := c.Holds();
    EnforceStorageLimit(c.storage, MaxSizeMB(configsAgain), failing);
    assert c.Holds() == mid.(files := c.storage.files);
    ghost var period := RetentionPeriod(configs);
    assert RunLeaves(old(c.Holds()), listed.value, configs, configsAgain, now, o, failing, mid, period, c.Holds());
  }

  /** A run has passed over the listing for the configured period, which left `mid`, and then
      kept the files to the configured size. */
  ghost predicate RunLeaves(before: Holdings, listed: seq<Listed>, configs: Option<seq<Config>>,
                            configsAgain: Option<seq<Config>>, now: Time, o: Outage, failing: set<Path>,
                            mid: Holdings, period: Duration, after: Holdings) {
    && PeriodOf(configs, period)
    && PassLeaves(before, listed, now, period, o, mid)
    && LimitLeaves(mid.files, MaxSizeMB(configsAgain), failing, after.files)
    && KeptToSize(mid.files, configsAgain, failing, after.files)
    && after.live == mid.live && after.count == mid.count
  }

  /** The size limit of the first configuration, in units of 1 MiB, is kept if it is positive. */
  ghost predicate KeptToSize(before: map<Path, File>, configs: Option<seq<Config>>, failing: set<Path>,
                             after: map<Path, File>) {
    if configs.Some? && configs.value != [] && configs.value[0].maxSizeMB.Some? && configs.value[0].maxSizeMB.value > 0
    then PrunedAsNeeded(before, configs.value[0].maxSizeMB.value * 1_048_576, failing, after)
    else after == before
  }

  /** The period an Investigation is kept: what the first configuration says, else seven days. */
  ghost predicate PeriodOf(configs: Option<seq<Config>>, period: Duration) {
    if configs.Some? && configs.value != [] && configs.value[0].retention.Some?
    then configs.value[0].retention == Some(period)
    else period == 604_800_000_000_000
  }

  /** What enforcing the storage limit leaves. */
  ghost predicate LimitLeaves(before: map<Path, File>, maxSizeMB: Option<int>, failing: set<Path>,
                              after: map<Path, File>) {
    match LimitBytes(maxSizeMB)
    case None => after == before
    case Some(limit) => exists order, n :: PrunedToLimit(before, limit, failing, after, order, n)
  }

  // ---------- retention and ownership together ----------

  /** The path is a log of the pod an Investigation key stands for. */
  predicate OwnedBy(k: Key, path: string) {
    |k.name| >= 4 && k.name[..4] == "pod-" && LogOf(path, k.namespace, k.name[4..])
  }

  /** Every Investigation lists only logs of its own pod, each Investigation once. */
  predicate Owned(listed: seq<Listed>) {
    && (forall i, j :: 0 <= i < j < |listed| ==> listed[i].key != listed[j].key)
    && (forall i, j :: 0 <= i < |listed| && 0 <= j < |listed[i].logPaths| ==>
          OwnedBy(listed[i].key, listed[i].logPaths[j]))
  }

  /** A retention pass over a fresh listing in which every deletion succeeds: the Investigations
      left are exactly those within the period, every log of the pruned ones is gone, every
      log of the kept ones stays, and the count falls by the number pruned. */
  lemma RetentionPass(files: map<Path, File>, listed: seq<Listed>, now: Time, retention: Duration, count: nat)
    requires Owned(listed)
    requires count >= |listed|
    ensures var live := set i | 0 <= i < |listed| :: listed[i].key;
      var pruned := KeysPruned(live, listed, now, retention, {});
      && live - pruned == (set i | 0 <= i < |listed| && now - listed[i].created <= retention :: listed[i].key)
      && CountAfter(count, |pruned|) == count - |pruned|
    ensures var kept := FilesKept(files, listed, now, retention, {});
      forall i, j :: 0 <= i < |listed| && 0 <= j < |listed[i].logPaths| ==>
        var p := Components(listed[i].logPaths[j]);
        if Expired(listed[i], now, retention) then p !in kept
        else p in files ==> p in kept && kept[p] == files[p]
  {
    var live := set i | 0 <= i < |listed| :: listed[i].key;
    var pruned := KeysPruned(live, listed, now, retention, {});
    var left := set i | 0 <= i < |listed| && now - listed[i].created <= retention :: listed[i].key;
    forall x | x in left ensures x in live && x !in pruned {
      var i :| 0 <= i < |listed| && now - listed[i].created <= retention && listed[i].key == x;
    }
    PrunedAtMostListed(live, listed, now, retention);
    forall i, j | 0 <= i < |listed| && 0 <= j < |listed[i].logPaths| && !Expired(listed[i], now, retention)
      ensures !PathExpired(Components(listed[i].logPaths[j]), listed, now, retention, {})
    {
      KeptPathIsNotExpired(listed, now, retention, i, j);
    }
  }

  lemma {:induction false} PrunedAtMostListed(live: set<Key>, listed: seq<Listed>, now: Time, retention: Duration)
    ensures |KeysPruned(live, listed, now, retention, {})| <= |listed|
  {
    if listed != [] {
      var n := |listed| - 1;
      PrunedAtMostListed(live, listed[..n], now, retention);
      PrunedKeysOneMore(live, listed[..n], listed[n], now, retention, {});
      assert listed[..n] + [listed[n]] == listed;
    }
  }

  /** No removed path covers a log of an Investigation that is kept. */
  lemma KeptPathIsNotExpired(listed: seq<Listed>, now: Time, retention: Duration, i: nat, j: nat)
    requires Owned(listed) && i < |listed| && j < |listed[i].logPaths| && !Expired(listed[i], now, retention)
    ensures !PathExpired(Components(listed[i].logPaths[j]), listed, now, retention, {})
  {
    var p := Components(listed[i].logPaths[j]);
    forall k, l | 0 <= k < |listed| && Expired(listed[k], now, retention) && 0 <= l < |listed[k].logPaths|
      ensures !(Components(listed[k].logPaths[l]) <= p)
    {
      var q := Components(listed[k].logPaths[l]);
      assert OwnedBy(listed[k].key, listed[k].logPaths[l]) && OwnedBy(listed[i].key, listed[i].logPaths[j]);
      assert listed[k].key != listed[i].key;
      var a, b := listed[k].key, listed[i].key;
      assert a.name == a.name[..4] + a.name[4..] && b.name == b.name[..4] + b.name[4..];
      assert q[0] != p[0] || q[1] != p[1];
    }
  }
}
