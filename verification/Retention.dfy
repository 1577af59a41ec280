/** The retention pass in any reachable state of the lifecycle protocol. */
module Retention {
  import opened Api
  import opened Naming
  import opened DiskStore
  import opened Cleanups
  import opened Lifecycle
  import opened LifecycleSteps
  import opened LifecycleTheorems

  /** The listing shows every stored Investigation once, with its log paths. */
  ghost predicate ListingOf(s: State, listed: seq<Listed>) {
    && (forall i, j :: 0 <= i < j < |listed| ==> listed[i].key != listed[j].key)
    && (forall i :: 0 <= i < |listed| ==>
          listed[i].key in s.store && listed[i].logPaths == s.store[listed[i].key].spec.logPaths)
    && (forall k :: k in s.store ==> exists i :: 0 <= i < |listed| && listed[i].key == k)
  }

  lemma ReachableListingsAreOwned(tr: seq<State>, i: nat, listed: seq<Listed>)
    requires Run(tr) && i < |tr| && ListingOf(tr[i], listed)
    ensures Owned(listed)
  {
    forall a, b | 0 <= a < |listed| && 0 <= b < |listed[a].logPaths|
      ensures OwnedBy(listed[a].key, listed[a].logPaths[b])
    {
      var k, p := listed[a].key, listed[a].logPaths[b];
      InvAlongRun(tr, i);
      assert p in tr[i].store[k].spec.logPaths;
      LogPathsAreOwned(tr, i, k, k, p, p);
      var src := tr[i].store[k].src;
      assert k == KeyOf(src);
      assert k.name == "pod-" + src.name;
      assert k.name[4..] == src.name;
    }
  }

  lemma {:induction false} ListingHasEveryKey(listed: seq<Listed>, keys: set<Key>)
    requires forall i, j :: 0 <= i < j < |listed| ==> listed[i].key != listed[j].key
    requires keys == set i | 0 <= i < |listed| :: listed[i].key
    ensures |keys| == |listed|
  {
    if listed != [] {
      var n := |listed| - 1;
      var rest := listed[..n];
      var fewer := set i | 0 <= i < n :: rest[i].key;
      ListingHasEveryKey(rest, fewer);
      assert forall i :: 0 <= i < n ==> rest[i] == listed[i];
      assert keys == fewer + {listed[n].key};
      assert listed[n].key !in fewer;
    }
  }

  /** The outcome of a retention pass that owns what it prunes. */
  ghost predicate PrunesExactly(before: Holdings, listed: seq<Listed>, now: Time, retention: Duration,
                                after: Holdings) {
    && (forall a :: 0 <= a < |listed| ==> (listed[a].key in after.live <==> now - listed[a].created <= retention))
    && after.live <= before.live
    && after.count == before.count - |before.live - after.live|
    && (forall a, b :: 0 <= a < |listed| && 0 <= b < |listed[a].logPaths| ==>
          LogSettled(Components(listed[a].logPaths[b]), now - listed[a].created > retention,
                     before.files, after.files))
  }

  /** A log is gone, or kept as it was. */
  predicate LogSettled(p: Path, pruned: bool, files: map<Path, File>, filesAfter: map<Path, File>) {
    if pruned then p !in filesAfter else p in files ==> p in filesAfter && filesAfter[p] == files[p]
  }

  lemma OwnedPassPrunesExactly(before: Holdings, listed: seq<Listed>, now: Time, retention: Duration, after: Holdings)
    requires Owned(listed) && before.count >= |listed|
    requires before.live == set a | 0 <= a < |listed| :: listed[a].key
    requires PassLeaves(before, listed, now, retention, Outage({}, {}), after)
    ensures PrunesExactly(before, listed, now, retention, after)
  {
    RetentionPass(before.files, listed, now, retention, before.count);
    LeftMeansYoung(listed, now, retention);
    var pruned := KeysPruned(before.live, listed, now, retention, {});
    assert after.live == before.live - pruned;
    assert before.live - after.live == pruned;
    LogsSettle(before, listed, now, retention, after);
  }

  lemma LogsSettle(before: Holdings, listed: seq<Listed>, now: Time, retention: Duration, after: Holdings)
    requires Owned(listed) && before.count >= |listed|
    requires after.files == FilesKept(before.files, listed, now, retention, {})
    ensures forall a, b :: 0 <= a < |listed| && 0 <= b < |listed[a].logPaths| ==>
      LogSettled(Components(listed[a].logPaths[b]), now - listed[a].created > retention, before.files, after.files)
  {
    RetentionPass(before.files, listed, now, retention, before.count);
  }

  lemma LeftMeansYoung(listed: seq<Listed>, now: Time, retention: Duration)
    requires forall i, j :: 0 <= i < j < |listed| ==> listed[i].key != listed[j].key
    ensures var left := set b | 0 <= b < |listed| && now - listed[b].created <= retention :: listed[b].key;
      forall a :: 0 <= a < |listed| ==> (listed[a].key in left <==> now - listed[a].created <= retention)
  {
  }

  /** In every reachable state, a retention pass over a fresh listing in which all deletions
      succeed leaves exactly the Investigations within the period, removes every log of the
      pruned ones, keeps every log of the kept ones, and lowers the count by exactly the
      number of Investigations pruned. */
  lemma RetentionInEveryReachableState(
    tr: seq<State>, i: nat, listed: seq<Listed>, before: Holdings, now: Time, retention: Duration, after: Holdings)
    requires Run(tr) && i < |tr| && ListingOf(tr[i], listed)
    requires before.live == tr[i].store.Keys && before.count == tr[i].count
    requires PassLeaves(before, listed, now, retention, Outage({}, {}), after)
    ensures PrunesExactly(before, listed, now, retention, after)
  {
    ReachableListingsAreOwned(tr, i, listed);
    var live := ListedKeys(tr[i], listed);
    CountAccountsForEverything(tr, i, 0);
    OwnedPassPrunesExactly(before, listed, now, retention, after);
  }

  lemma ListedKeys(s: State, listed: seq<Listed>) returns (live: set<Key>)
    requires ListingOf(s, listed)
    ensures live == set a | 0 <= a < |listed| :: listed[a].key
    ensures live == s.store.Keys && |live| == |listed| == |s.store|
  {
    live := set a | 0 <= a < |listed| :: listed[a].key;
    assert live == s.store.Keys;
    ListingHasEveryKey(listed, live);
  }
}
