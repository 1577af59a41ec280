/** Log persistence below a root directory. */
module DiskStore {
  import opened Api
  import opened Naming
  import opened Sorting

  type Content = seq<bv8>

  datatype File = File(content: Content, modTime: Time)

  /** What a writer delivers: some bytes, then the end of the stream or an error. */
  datatype Stream = Stream(delivered: Content, complete: bool)

  /** A failure of the disk during a write. */
  datatype Fault = NoFault | DirectoryFails | OpenFails

  // ---------- the tree ----------

  ghost function Parents(p: Path): set<Path> {
    set n | 0 <= n < |p| :: p[..n]
  }

  /** Files and directories form a tree of clean paths. */
  ghost predicate Tree(files: map<Path, File>, dirs: set<Path>) {
    && files.Keys !! dirs
    && (forall p :: p in files || p in dirs ==> PlainPath(p) && Parents(p) <= dirs)
  }

  /** No file stands where a directory of the path is needed. */
  predicate Open(files: map<Path, File>, p: Path) {
    forall n :: 0 <= n < |p| ==> p[..n] !in files
  }

  /** A write to the path can succeed. */
  predicate Writable(files: map<Path, File>, dirs: set<Path>, p: Path) {
    Open(files, p) && p !in dirs
  }

  /** The files left after removing a path with everything below it. */
  ghost function Without(files: map<Path, File>, p: Path): map<Path, File> {
    map q | q in files && !(p <= q) :: files[q]
  }

  lemma PrefixIsParent(p: Path, q: Path)
    requires p <= q
    ensures p == q || p in Parents(q)
  {
    assert q[..|p|] == p;
    assert |p| == |q| ==> q[..|p|] == q;
  }

  lemma FilesHaveNothingBelow(files: map<Path, File>, dirs: set<Path>, p: Path)
    requires Tree(files, dirs) && p in files
    ensures Without(files, p) == files - {p}
  {
    forall q | q in files && p <= q ensures q == p {
      PrefixIsParent(p, q);
    }
  }

  lemma ParentsBelow(p: Path, q: Path)
    requires p <= q
    ensures Parents(p) <= Parents(q)
  {
    forall n | 0 <= n < |p| ensures p[..n] in Parents(q) {
      assert q[..n] == p[..n];
    }
  }

  lemma NothingBelowFiles(files: map<Path, File>, dirs: set<Path>, p: Path)
    requires Tree(files, dirs) && !Open(files, p)
    ensures Without(files, p) == files
  {
    var n :| 0 <= n < |p| && p[..n] in files;
    assert p[..n] in Parents(p);
    forall q | q in files ensures !(p <= q) {
      if p <= q {
        ParentsBelow(p, q);
      }
    }
  }

  // ---------- usage ----------

  ghost function Usage(files: map<Path, File>): nat
    decreases |files|
  {
    if files == map[] then 0
    else
      var p :| p in files;
      |files[p].content| + Usage(files - {p})
  }

  /** The sum of sizes does not depend on the order in which files are visited. */
  lemma {:induction false} UsageWithout(files: map<Path, File>, p: Path)
    requires p in files
    ensures Usage(files) == |files[p].content| + Usage(files - {p})
    decreases |files|
  {
    var q :| q in files && Usage(files) == |files[q].content| + Usage(files - {q});
    if q != p {
      UsageWithout(files - {q}, p);
      UsageWithout(files - {p}, q);
      assert files - {q} - {p} == files - {p} - {q};
    }
  }

  // ---------- the store ----------

  predicate IsLog(p: Path) {
    var name := Join(p);
    |name| >= 4 && name[|name| - 4..] == ".log"
  }

  /** A component with the suffix of logs. */
  predicate EndsInLog(c: string) {
    |c| >= 4 && c[|c| - 4..] == ".log"
  }

  /** Of a clean path the last component decides. */
  lemma {:induction false} LogByLastComponent(p: Path)
    requires PlainPath(p)
    ensures IsLog(p) <==> p != [] && EndsInLog(p[|p| - 1])
  {
    if |p| > 1 {
      assert PlainPath(p[1..]);
      LogByLastComponent(p[1..]);
      SuffixBelow(p[0], Join(p[1..]));
    }
  }

  /** A directory in front does not change whether a path ends in ".log". */
  lemma SuffixBelow(dir: string, rest: string)
    ensures EndsInLog(dir + "/" + rest) <==> EndsInLog(rest)
  {
    var s := dir + "/" + rest;
    if |rest| >= 4 {
      assert s[|s| - 4..] == rest[|rest| - 4..];
    } else if |s| >= 4 {
      var end := s[|s| - 4..];
      assert end[3 - |rest|] == '/';
      assert ".log"[3 - |rest|] != '/';
    }
  }

  const SECOND: Duration := 1_000_000_000

  /** Whole seconds of the modification time: what decides which file is older. */
  function Age(f: File): int {
    f.modTime / SECOND
  }

  /** An oldest-first listing of exactly the .log files. */
  ghost predicate OldestFirst(files: map<Path, File>, order: seq<Path>) {
    && Distinct(order)
    && (forall p :: p in order <==> p in files && IsLog(p))
    && (forall i, j :: 0 <= i < j < |order| ==>
          order[i] in files && order[j] in files && Age(files[order[i]]) <= Age(files[order[j]]))
  }

  // ---------- histories of the store ----------

  /** What one call did to the files: wrote one (whole or, if the stream broke, in part),
      removed a subtree, or nothing. */
  datatype Op = Wrote(p: Path, f: File) | Removed(p: Path) | Refused

  ghost function Done(files: map<Path, File>, op: Op): map<Path, File> {
    match op
    case Wrote(p, f) => files[p := f]
    case Removed(p) => Without(files, p)
    case Refused => files
  }

  ghost function FilesAfter(ops: seq<Op>): map<Path, File> {
    if ops == [] then map[] else Done(FilesAfter(ops[..|ops| - 1]), ops[|ops| - 1])
  }

  lemma FilesAfterOneMore(ops: seq<Op>, op: Op)
    ensures FilesAfter(ops + [op]) == Done(FilesAfter(ops), op)
  {
    assert (ops + [op])[..|ops|] == ops;
  }

  /** The last write to the path that no later removal of it or of a directory above it undid. */
  function LastWrite(ops: seq<Op>, p: Path): Option<File> {
    if ops == [] then None
    else
      match ops[|ops| - 1]
      case Wrote(q, f) => if q == p then Some(f) else LastWrite(ops[..|ops| - 1], p)
      case Removed(q) => if q <= p then None else LastWrite(ops[..|ops| - 1], p)
      case Refused => LastWrite(ops[..|ops| - 1], p)
  }

  /** After any sequence of calls a path holds exactly its last surviving write. */
  lemma {:induction false} ReadsTheLastWrite(ops: seq<Op>, p: Path)
    ensures p in FilesAfter(ops) <==> LastWrite(ops, p).Some?
    ensures p in FilesAfter(ops) ==> FilesAfter(ops)[p] == LastWrite(ops, p).value
  {
    if ops != [] {
      ReadsTheLastWrite(ops[..|ops| - 1], p);
    }
  }

  class DiskStorage {
    var files: map<Path, File>
    var dirs: set<Path>
    ghost var history: seq<Op>

    ghost predicate Valid() reads this {
      Tree(files, dirs) && files == FilesAfter(history)
    }

    constructor ()
      ensures Valid() && files == map[] && dirs == {[]} && history == []
    {
      files := map[];
      dirs := {[]};
      history := [];
    }

    method Write(path: string, data: Stream, now: Time, fault: Fault) returns (ok: bool)
      requires Valid()
      modifies this
      ensures Valid()
      ensures var p := Components(path);
        var reached := fault.NoFault? && Writable(old(files), old(dirs), p);
        && files == (if reached then old(files)[p := File(data.delivered, now)] else old(files))
        && ok == (reached && data.complete)
        && history == old(history) + [if reached then Wrote(p, File(data.delivered, now)) else Refused]
        && old(dirs) <= dirs <= old(dirs) + Parents(p)
    {
      var p := Components(path);
      ComponentsArePlain(path);
      ghost var before := history;
      history := before + [Refused];
      FilesAfterOneMore(before, Refused);
      if fault.DirectoryFails? || !Open(files, p) {
        return false;
      }
      ParentsOfParents(p);
      dirs := dirs + set n | 0 <= n < |p| :: p[..n];
      if p in dirs {
        NotItsOwnParent(p);
        return false;
      }
      if fault.OpenFails? {
        return false;
      }
      files := files[p := File(data.delivered, now)];
      history := before + [Wrote(p, File(data.delivered, now))];
      FilesAfterOneMore(before, Wrote(p, File(data.delivered, now)));
      return data.complete;
    }

    /** What the last write to the path left, unless a deletion undid it. */
    method Read(path: string) returns (r: Option<Content>)
      requires Valid()
      ensures r == if Components(path) in files then Some(files[Components(path)].content) else None
      ensures var last := LastWrite(history, Components(path));
        r == if last.Some? then Some(last.value.content) else None
    {
      var p := Components(path);
      ReadsTheLastWrite(history, p);
      if p in files {
        return Some(files[p].content);
      }
      return None;
    }

    /** Removes the path and everything below it; succeeds when there is nothing to remove, but
        not when a file stands where a directory of the path is needed. */
    method Delete(path: string, fails: bool) returns (ok: bool)
      requires Valid()
      modifies this
      ensures Valid()
      ensures ok == (!fails && Open(old(files), Components(path)))
      ensures files == (if fails then old(files) else Without(old(files), Components(path)))
      ensures forall q :: q in files <==> q in old(files) && (ok ==> !(Components(path) <= q))
      ensures history == old(history) + [if ok then Removed(Components(path)) else Refused]
    {
      var p := Components(path);
      if fails || !Open(files, p) {
        FilesAfterOneMore(history, Refused);
        history := history + [Refused];
        if !Open(files, p) {
          NothingBelowFiles(files, dirs, p);
        }
        return false;
      }
      FilesAfterOneMore(history, Removed(p));
      history := history + [Removed(p)];
      files := map q | q in files && !(p <= q) :: files[q];
      dirs := set d | d in dirs && !(p <= d);
      forall q | q in files || q in dirs ensures Parents(q) <= dirs {
        assert forall d :: d in Parents(q) && p <= d ==> p <= q;
      }
      return true;
    }

    /** The files at or below the prefix, by whole components, in ascending order. */
    method ListPrefix(prefix: string) returns (r: seq<string>)
      requires Valid()
      ensures Ascending(r)
      ensures forall s :: s in r <==> exists p :: p in files && Components(prefix) <= p && s == Join(p)
    {
      var under := Components(prefix);
      var names: seq<string> := [];
      var todo := files.Keys;
      while todo != {}
        invariant todo <= files.Keys
        invariant forall s :: s in names <==> exists p :: p in files && p !in todo && under <= p && s == Join(p)
        invariant Distinct(names)
        decreases todo
      {
        var p :| p in todo;
        todo := todo - {p};
        if under <= p {
          if Join(p) in names {
            var q :| q in files && q !in todo + {p} && under <= q && Join(p) == Join(q);
            JoinIsInjective(p, q);
            assert false;
          }
          names := names + [Join(p)];
        }
      }
      r := SortStrings(names);
    }

    method UsageBytes() returns (total: nat)
      ensures total == Usage(files)
      ensures files == map[] ==> total == 0
    {
      total := 0;
      var rest := files;
      while rest != map[]
        invariant total + Usage(rest) == Usage(files)
        decreases |rest|
      {
        var p :| p in rest;
        UsageWithout(rest, p);
        total := total + |rest[p].content|;
        rest := rest - {p};
      }
    }

    method OldestFiles() returns (r: seq<string>)
      requires Valid()
      ensures OldestFirst(files, Map(Components, r))
      ensures forall s :: s in r <==>
        exists p :: p in files && p != [] && EndsInLog(p[|p| - 1]) && s == Join(p)
      ensures forall i, j :: 0 <= i < j < |r| ==>
        && r[i] != r[j] && Components(r[i]) in files && Components(r[j]) in files
        && files[Components(r[i])].modTime / 1_000_000_000 <= files[Components(r[j])].modTime / 1_000_000_000
    {
      var order: seq<Path> := [];
      var todo := files.Keys;
      while todo != {}
        invariant todo <= files.Keys
        invariant Distinct(order)
        invariant forall p :: p in order <==> p in files && p !in todo && IsLog(p)
        invariant forall i, j :: 0 <= i < j < |order| ==>
          order[i] in files && order[j] in files && Age(files[order[i]]) <= Age(files[order[j]])
        decreases todo
      {
        var p :| p in todo;
        todo := todo - {p};
        if IsLog(p) {
          order := InsertByAge(files, order, p);
        }
      }
      r := Map(Join, order);
      forall i | 0 <= i < |order| ensures Map(Components, r)[i] == order[i] {
        assert order[i] in order;
        ComponentsOfJoin(order[i]);
      }
      assert Map(Components, r) == order;
      ListsTheLogs(files, dirs, order, r);
    }
  }

  lemma ListsTheLogs(files: map<Path, File>, dirs: set<Path>, order: seq<Path>, r: seq<string>)
    requires Tree(files, dirs) && OldestFirst(files, order) && r == Map(Join, order)
    ensures forall s :: s in r <==>
      exists p :: p in files && p != [] && EndsInLog(p[|p| - 1]) && s == Join(p)
    ensures forall i, j :: 0 <= i < j < |r| ==> r[i] != r[j]
  {
    forall p | p in files ensures IsLog(p) <==> p != [] && EndsInLog(p[|p| - 1]) {
      LogByLastComponent(p);
    }
    forall p | p in files && p != [] && EndsInLog(p[|p| - 1]) ensures Join(p) in r {
      assert p in order;
      var i :| 0 <= i < |order| && order[i] == p;
      assert r[i] == Join(p);
    }
    forall s | s in r ensures exists p :: p in files && p != [] && EndsInLog(p[|p| - 1]) && s == Join(p) {
      var i :| 0 <= i < |r| && r[i] == s;
      assert order[i] in order;
    }
    forall i, j | 0 <= i < j < |r| ensures r[i] != r[j] {
      assert order[i] in order && order[j] in order;
      if r[i] == r[j] {
        JoinIsInjective(order[i], order[j]);
      }
    }
  }

  lemma ParentsOfParents(p: Path)
    requires PlainPath(p)
    ensures forall d :: d in Parents(p) ==> PlainPath(d) && Parents(d) <= Parents(p)
  {
    forall d | d in Parents(p) ensures PlainPath(d) && Parents(d) <= Parents(p) {
      var n :| 0 <= n < |p| && d == p[..n];
      forall e | e in Parents(d) ensures e in Parents(p) {
        var m :| 0 <= m < |d| && e == d[..m];
        assert e == p[..m];
      }
    }
  }

  lemma NotItsOwnParent(p: Path)
    ensures p !in Parents(p)
  {
  }

  /** Insertion into a listing ordered by age, as an unstable sort may place it. */
  function InsertByAge(files: map<Path, File>, order: seq<Path>, p: Path): (r: seq<Path>)
    requires p in files && p !in order && Distinct(order)
    requires forall i :: 0 <= i < |order| ==> order[i] in files
    requires forall i, j :: 0 <= i < j < |order| ==> Age(files[order[i]]) <= Age(files[order[j]])
    ensures Distinct(r) && |r| == |order| + 1
    ensures forall q :: q in r <==> q in order || q == p
    ensures forall i :: 0 <= i < |r| ==> r[i] in files
    ensures forall i, j :: 0 <= i < j < |r| ==> Age(files[r[i]]) <= Age(files[r[j]])
  {
    if order == [] then [p]
    else if Age(files[p]) < Age(files[order[0]]) then [p] + order
    else
      var rest := InsertByAge(files, order[1..], p);
      assert forall q :: q in rest ==> q in order[1..] || q == p;
      assert forall i :: 0 <= i < |rest| ==> rest[i] in rest;
      [order[0]] + rest
  }
}
