/** Which of two logs goes first when the store is pruned to a limit: whole seconds of the
    modification time decide, and within a second the order is open. */
module PruneOrder {
  import opened Api
  import opened Naming
  import opened DiskStore
  import opened Cleanups

  // ---------- sums of sizes ----------

  /** Fewer files take no more space. */
  lemma {:induction false} FewerFilesUseLess(files: map<Path, File>, gone: set<Path>, more: set<Path>)
    requires gone <= more
    ensures Usage(files - more) <= Usage(files - gone)
    decreases |(files - gone).Keys|
  {
    if p :| p in files && p in more && p !in gone {
      UsageWithout(files - gone, p);
      assert files - gone - {p} == files - (gone + {p});
      assert (files - (gone + {p})).Keys == (files - gone).Keys - {p};
      FewerFilesUseLess(files, gone + {p}, more);
    } else {
      NothingMore(files, gone, more);
    }
  }

  lemma NothingMore(files: map<Path, File>, gone: set<Path>, more: set<Path>)
    requires gone <= more && forall p :: p in files && p in more ==> p in gone
    ensures files - more == files - gone
  {
  }

  /** Removing one file of some size takes less space. */
  lemma RemovalFrees(files: map<Path, File>, gone: set<Path>, more: set<Path>, x: Path)
    requires gone <= more && x in files && x in more && x !in gone && files[x].content != []
    ensures Usage(files - more) < Usage(files - gone)
  {
    UsageWithout(files - gone, x);
    assert files - gone - {x} == files - (gone + {x});
    FewerFilesUseLess(files, gone + {x}, more);
  }

  /** If less space is taken, a file of some size is gone. */
  lemma {:induction false} FreedMeansRemoved(files: map<Path, File>, gone: set<Path>, more: set<Path>) returns (x: Path)
    requires gone <= more && Usage(files - more) < Usage(files - gone)
    ensures x in files && x in more && x !in gone && files[x].content != []
    decreases |(files - gone).Keys|
  {
    if forall p :: p in files && p in more ==> p in gone {
      NothingMore(files, gone, more);
    }
    var p :| p in files && p in more && p !in gone;
    UsageWithout(files - gone, p);
    assert files - gone - {p} == files - (gone + {p});
    if files[p].content != [] {
      x := p;
    } else {
      assert (files - (gone + {p})).Keys == (files - gone).Keys - {p};
      x := FreedMeansRemoved(files, gone + {p}, more);
    }
  }

  // ---------- listings ----------

  /** There is an oldest-first listing of any files. */
  lemma {:induction false} SomeListing(files: map<Path, File>) returns (order: seq<Path>)
    ensures OldestFirst(files, order)
    decreases |files|
  {
    if files == map[] {
      order := [];
    } else {
      var p :| p in files;
      var rest := files - {p};
      order := SomeListing(rest);
      forall i | 0 <= i < |order| ensures order[i] in rest {
        assert order[i] in order;
      }
      if IsLog(p) {
        order := InsertByAge(files, order, p);
      }
    }
  }

  /** The same files, with `p` and `q` moved to either end of their second. */
  ghost function Spread(files: map<Path, File>, p: Path, q: Path): map<Path, File> {
    map x | x in files ::
      File(files[x].content, (3 * Age(files[x]) + (if x == p then -1 else if x == q then 1 else 0)) * SECOND)
  }

  /** There is an oldest-first listing in which `p` comes first and `q` last of their second. */
  lemma ListingWithEnds(files: map<Path, File>, p: Path, q: Path) returns (order: seq<Path>)
    requires p in files && q in files && p != q && IsLog(p) && IsLog(q) && Age(files[p]) == Age(files[q])
    ensures OldestFirst(files, order)
    ensures forall i, j :: 0 <= i < j < |order| && order[j] == p ==> Age(files[order[i]]) < Age(files[p])
    ensures forall i, j :: 0 <= i < j < |order| && order[i] == q ==> Age(files[order[j]]) > Age(files[q])
  {
    var spread := Spread(files, p, q);
    order := SomeListing(spread);
    forall i | 0 <= i < |order| ensures order[i] in files {
      assert order[i] in order;
    }
    forall i, j | 0 <= i < j < |order|
      ensures 3 * Age(files[order[i]]) + Nudge(order[i], p, q) <= 3 * Age(files[order[j]]) + Nudge(order[j], p, q)
      ensures order[i] != order[j]
    {
      assert Age(spread[order[i]]) <= Age(spread[order[j]]);
      AgeOfWholeSeconds(spread[order[i]].content, 3 * Age(files[order[i]]) + Nudge(order[i], p, q));
      AgeOfWholeSeconds(spread[order[j]].content, 3 * Age(files[order[j]]) + Nudge(order[j], p, q));
    }
  }

  function Nudge(x: Path, p: Path, q: Path): int {
    if x == p then -1 else if x == q then 1 else 0
  }

  lemma AgeOfWholeSeconds(content: Content, n: int)
    ensures Age(File(content, n * SECOND)) == n
  {
  }

  // ---------- where pruning stops ----------

  /** Pruning that has gone on up to entry `m` stops somewhere from there on. */
  lemma {:induction false} StopsSomewhere(before: map<Path, File>, limit: int, order: seq<Path>, m: nat)
    returns (n: nat)
    requires m <= |order| && Reached(before, limit, {}, before - Pruned(order, m, {}), order, m)
    ensures m <= n <= |order| && PrunedToLimit(before, limit, {}, before - Pruned(order, n, {}), order, n)
    decreases |order| - m
  {
    var files := before - Pruned(order, m, {});
    if Usage(files) <= limit || m == |order| {
      n := m;
    } else {
      PrunedOneMore(before, order, m, {});
      ReachesNext(before, limit, {}, files, order, m, files - {order[m]});
      n := StopsSomewhere(before, limit, order, m + 1);
    }
  }

  /** The logs of seconds before that of `q`. */
  ghost function Older(files: map<Path, File>, q: Path): set<Path>
    requires q in files
  {
    set x | x in files && IsLog(x) && Age(files[x]) < Age(files[q])
  }

  /** The logs of seconds up to that of `q`, but `q`. */
  ghost function UpTo(files: map<Path, File>, q: Path): set<Path>
    requires q in files
  {
    set x | x in files && IsLog(x) && Age(files[x]) <= Age(files[q]) && x != q
  }

  /** Under some oldest-first listing, pruning removes `p` and keeps `q`. */
  ghost predicate MayGoBefore(before: map<Path, File>, limit: int, p: Path, q: Path) {
    exists after, order, n ::
      PrunedToLimit(before, limit, {}, after, order, n) && p in before && p !in after && q in after
  }

  /** The usage fits the limit only after the logs of earlier seconds are gone, and at the
      latest when `q` is the only log left of its second and those before. */
  ghost predicate LimitFallsWithin(before: map<Path, File>, limit: int, q: Path)
    requires q in before
  {
    Usage(before - UpTo(before, q)) <= limit < Usage(before - Older(before, q))
  }

  /** The newer of two logs may be pruned and the older one kept exactly if both are of one
      second and the limit is reached within that second. */
  lemma NewerGoesExactlyWhen(before: map<Path, File>, limit: int, p: Path, q: Path)
    requires p in before && q in before && IsLog(p) && IsLog(q) && before[q].modTime < before[p].modTime
    ensures MayGoBefore(before, limit, p, q) <==>
      Age(before[p]) == Age(before[q]) && LimitFallsWithin(before, limit, q)
  {
    if MayGoBefore(before, limit, p, q) {
      var after, order, n :|
        PrunedToLimit(before, limit, {}, after, order, n) && p in before && p !in after && q in after;
      OnlyWithinTheSecond(before, limit, p, q, after, order, n);
    }
    if Age(before[p]) == Age(before[q]) && LimitFallsWithin(before, limit, q) {
      GoesWithinTheSecond(before, limit, p, q);
    }
  }

  lemma GoesWithinTheSecond(before: map<Path, File>, limit: int, p: Path, q: Path)
    requires p in before && q in before && p != q && IsLog(p) && IsLog(q)
    requires Age(before[p]) == Age(before[q]) && LimitFallsWithin(before, limit, q)
    ensures MayGoBefore(before, limit, p, q)
  {
    var order := ListingWithEnds(before, p, q);
    assert p in order && q in order;
    var i :| 0 <= i < |order| && order[i] == p;
    var j :| 0 <= j < |order| && order[j] == q;
    PrefixBefore(before, order, i, p, q);
    PrefixUpTo(before, order, j, q);
    forall m: nat | m < i + 1 ensures Usage(before - Pruned(order, m, {})) > limit {
      assert Pruned(order, m, {}) <= Pruned(order, i, {});
      FewerFilesUseLess(before, Pruned(order, m, {}), Pruned(order, i, {}));
    }
    var n := StopsSomewhere(before, limit, order, i + 1);
    assert Usage(before - Pruned(order, j, {})) <= limit;
    assert n <= j;
    assert order[i] in Pruned(order, n, {});
    assert q !in Pruned(order, n, {});
  }

  /** What precedes `p`, the first of its second, are the logs of earlier seconds. */
  lemma PrefixBefore(files: map<Path, File>, order: seq<Path>, i: nat, p: Path, q: Path)
    requires OldestFirst(files, order) && i < |order| && order[i] == p && p in files && q in files
    requires Age(files[p]) == Age(files[q])
    requires forall h :: 0 <= h < i ==> Age(files[order[h]]) < Age(files[p])
    ensures Pruned(order, i, {}) == Older(files, q)
  {
    forall h | 0 <= h < i ensures order[h] in Older(files, q) {
      assert order[h] in order;
    }
    forall x | x in Older(files, q) ensures x in Pruned(order, i, {}) {
      assert x in order;
      var h :| 0 <= h < |order| && order[h] == x;
      assert h < i;
    }
  }

  /** What precedes `q`, the last of its second, are all other logs up to that second. */
  lemma PrefixUpTo(files: map<Path, File>, order: seq<Path>, j: nat, q: Path)
    requires OldestFirst(files, order) && j < |order| && order[j] == q && q in files
    requires forall h :: j < h < |order| ==> Age(files[order[h]]) > Age(files[q])
    ensures Pruned(order, j, {}) == UpTo(files, q)
  {
    forall h | 0 <= h < j ensures order[h] in UpTo(files, q) {
      assert order[h] in order;
    }
    forall x | x in UpTo(files, q) ensures x in Pruned(order, j, {}) {
      assert x in order;
      var h :| 0 <= h < |order| && order[h] == x;
      assert h < j;
    }
  }

  lemma OnlyWithinTheSecond(before: map<Path, File>, limit: int, p: Path, q: Path,
                            after: map<Path, File>, order: seq<Path>, n: nat)
    requires p in before && q in before && IsLog(p) && IsLog(q) && before[q].modTime < before[p].modTime
    requires PrunedToLimit(before, limit, {}, after, order, n) && p !in after && q in after
    ensures Age(before[p]) == Age(before[q]) && LimitFallsWithin(before, limit, q)
  {
    OldestGoFirst(before, limit, after, order, n);
    assert Age(before[p]) == Age(before[q]);
    assert p in order && q in order;
    var i :| 0 <= i < n && order[i] == p;
    var j :| 0 <= j < |order| && order[j] == q;
    assert q !in Pruned(order, n, {});
    assert n <= j;
    forall h | 0 <= h < n ensures order[h] in UpTo(before, q) {
      assert order[h] in order;
    }
    FewerFilesUseLess(before, Pruned(order, n, {}), UpTo(before, q));
    forall x | x in Older(before, q) ensures x in Pruned(order, i, {}) {
      assert x in order;
      var h :| 0 <= h < |order| && order[h] == x;
      assert h < i;
    }
    FewerFilesUseLess(before, Older(before, q), Pruned(order, i, {}));
  }

  /** Some limit lets the newer of two logs of one second go before the older exactly if a log
      of that second other than the older one has any content. */
  lemma SomeLimitReordersExactlyWhen(before: map<Path, File>, p: Path, q: Path)
    requires p in before && q in before && IsLog(p) && IsLog(q) && before[q].modTime < before[p].modTime
    ensures (exists limit: nat :: MayGoBefore(before, limit, p, q)) <==>
      && Age(before[p]) == Age(before[q])
      && exists x :: x in before && IsLog(x) && x != q && Age(before[x]) == Age(before[q]) && before[x].content != []
  {
    var older, upTo := Older(before, q), UpTo(before, q);
    if limit: nat :| MayGoBefore(before, limit, p, q) {
      NewerGoesExactlyWhen(before, limit, p, q);
      var x := FreedMeansRemoved(before, older, upTo);
      assert Age(before[x]) == Age(before[q]);
    }
    if x :| (x in before && IsLog(x) && x != q && Age(before[p]) == Age(before[q])
             && Age(before[x]) == Age(before[q]) && before[x].content != [])
    {
      RemovalFrees(before, older, upTo, x);
      NewerGoesExactlyWhen(before, Usage(before - upTo), p, q);
      assert MayGoBefore(before, Usage(before - upTo), p, q);
    }
  }

  /** Two logs of 1 MiB, written within one second, under a limit of 1 MB: the newer may go. */
  lemma WithinASecondTheNewerMayGo() returns (before: map<Path, File>, older: Path, newer: Path)
    ensures older in before && newer in before && before[older].modTime < before[newer].modTime
    ensures LimitBytes(Some(1)).Some? && MayGoBefore(before, LimitBytes(Some(1)).value, newer, older)
  {
    older, newer := ["a.log"], ["b.log"];
    assert IsLog(older) && IsLog(newer) by {
      assert Join(older) == "a.log" && Join(newer) == "b.log";
      assert "a.log"[1..] == ".log" && "b.log"[1..] == ".log";
    }
    assert older[0][0] != newer[0][0];
    var full := seq(1024 * 1024, _ => 0 as bv8);
    before := map[older := File(full, 1), newer := File(full, 2)];
    assert Older(before, older) == {} && UpTo(before, older) == {newer};
    assert before - {} == before;
    UsageWithout(before, newer);
    UsageWithout(before - {newer}, older);
    assert before - {newer} - {older} == map[];
    NewerGoesExactlyWhen(before, 1024 * 1024, newer, older);
  }
}
