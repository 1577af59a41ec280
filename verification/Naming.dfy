/** Names and paths: which Investigation belongs to which source, and which log path to which pod. */
module Naming {
  import opened Api

  // ---------- decimal rendering of job IDs ----------

  function Digit(d: nat): (c: char)
    requires d < 10
    ensures '0' <= c <= '9' && c as int - '0' as int == d
  {
    ('0' as int + d) as char
  }

  function DecimalNat(n: nat): (s: string)
    ensures s != "" && forall i :: 0 <= i < |s| ==> '0' <= s[i] <= '9'
  {
    if n < 10 then [Digit(n)] else DecimalNat(n / 10) + [Digit(n % 10)]
  }

  function Decimal(n: int): string {
    if n < 0 then "-" + DecimalNat(-n) else DecimalNat(n)
  }

  function ParseNat(s: string): int {
    if s == "" then 0 else 10 * ParseNat(s[..|s| - 1]) + (s[|s| - 1] as int - '0' as int)
  }

  function ParseDecimal(s: string): int {
    if s != "" && s[0] == '-' then -ParseNat(s[1..]) else ParseNat(s)
  }

  lemma {:induction false} ParseRendersNat(n: nat)
    ensures ParseNat(DecimalNat(n)) == n
  {
    if n < 10 {
      assert ParseNat(DecimalNat(n)[..0]) == 0;
    } else {
      ParseRendersNat(n / 10);
      var s := DecimalNat(n);
      assert s[..|s| - 1] == DecimalNat(n / 10);
    }
  }

  /** Decimal rendering of any job ID, negative ones included, can be read back. */
  lemma ParseRendersDecimal(n: int)
    ensures ParseDecimal(Decimal(n)) == n
  {
    if n < 0 {
      ParseRendersNat(-n);
      assert Decimal(n)[1..] == DecimalNat(-n);
    } else {
      ParseRendersNat(n);
    }
  }

  // ---------- the Investigation of a source ----------

  /** What an Investigation is about. A job counts once per namespace of the
      DetectiveConfig that lists its repository. */
  datatype Source =
    | PodSource(namespace: string, name: string)
    | RunnerSource(namespace: string, name: string)
    | JobSource(namespace: string, id: int)

  function KeyOf(src: Source): Key {
    match src
    case PodSource(ns, name) => Key(ns, "pod-" + name)
    case RunnerSource(ns, name) => Key(ns, "er-" + name)
    case JobSource(ns, id) => Key(ns, "gh-" + Decimal(id))
  }

  /** No two sources, of the same kind or of different kinds, share an Investigation key. */
  lemma KeysIdentifySources(a: Source, b: Source)
    requires KeyOf(a) == KeyOf(b)
    ensures a == b
  {
    var x, y := KeyOf(a).name, KeyOf(b).name;
    assert x[0] == y[0];
    match a
    case PodSource(_, n) => assert n == x[4..]; assert y[4..] == b.name;
    case RunnerSource(_, n) => assert n == x[3..]; assert y[3..] == b.name;
    case JobSource(_, id) =>
      assert Decimal(id) == x[3..];
      assert y[3..] == Decimal(b.id);
      ParseRendersDecimal(id);
      ParseRendersDecimal(b.id);
  }

  function SourceText(src: Source, repo: Repo): string {
    match src
    case PodSource(ns, name) => ns + "/" + name
    case RunnerSource(ns, name) => ns + "/" + name
    case JobSource(_, id) => "github/" + repo.owner + "/" + repo.name + "/jobs/" + Decimal(id)
  }

  /** One job listed by DetectiveConfigs of two namespaces, or a pod and a runner of one
      name, give the same trigger source text but different Investigations. */
  lemma SourceTextDoesNotIdentify(repo: Repo, id: int, ns: string, other: string, name: string)
    requires ns != other
    ensures SourceText(JobSource(ns, id), repo) == SourceText(JobSource(other, id), repo)
    ensures KeyOf(JobSource(ns, id)) != KeyOf(JobSource(other, id))
    ensures SourceText(PodSource(ns, name), repo) == SourceText(RunnerSource(ns, name), repo)
    ensures KeyOf(PodSource(ns, name)) != KeyOf(RunnerSource(ns, name))
  {
    if KeyOf(PodSource(ns, name)) == KeyOf(RunnerSource(ns, name)) {
      KeysIdentifySources(PodSource(ns, name), RunnerSource(ns, name));
    }
  }

  /** Texts are split alike at their first "/". */
  lemma SlashSeparates(a: string, x: string, b: string, y: string)
    requires '/' !in a && '/' !in b
    requires a + "/" + x == b + "/" + y
    ensures a == b && x == y
  {
    var s, t := a + "/" + x, b + "/" + y;
    assert s[|a|] == '/' && t[|b|] == '/';
    assert forall i :: 0 <= i < |a| ==> s[i] == a[i] && a[i] in a;
    assert forall i :: 0 <= i < |b| ==> t[i] == b[i] && b[i] in b;
    assert |a| == |b|;
    assert a == s[..|a|] && b == t[..|b|];
    assert x == s[|a| + 1..] && y == t[|b| + 1..];
  }

  /** Texts that end alike end alike after their last "/". */
  lemma LastSlashSeparates(a: string, x: string, b: string, y: string)
    requires '/' !in x && '/' !in y
    requires a + "/" + x == b + "/" + y
    ensures x == y
  {
    var s, t := a + "/" + x, b + "/" + y;
    assert s[|a|] == '/' && t[|b|] == '/';
    assert forall i :: 0 <= i < |x| ==> s[|a| + 1 + i] == x[i] && x[i] in x;
    assert forall i :: 0 <= i < |y| ==> t[|b| + 1 + i] == y[i] && y[i] in y;
    assert |a| == |b|;
    assert x == s[|a| + 1..] && y == t[|b| + 1..];
  }

  /** Equal source texts stand for one Investigation exactly if they are of one kind and, for
      jobs, within one namespace. */
  lemma SourceTextDecidesWithinKind(a: Source, r: Repo, b: Source, q: Repo)
    requires '/' !in a.namespace && '/' !in b.namespace
    requires SourceText(a, r) == SourceText(b, q)
    ensures a == b <==>
      || (a.PodSource? && b.PodSource?)
      || (a.RunnerSource? && b.RunnerSource?)
      || (a.JobSource? && b.JobSource? && a.namespace == b.namespace)
  {
    if a.JobSource? && b.JobSource? {
      DecimalHasNoSlash(a.id);
      DecimalHasNoSlash(b.id);
      var x, y := "github/" + r.owner + "/" + r.name + "/jobs", "github/" + q.owner + "/" + q.name + "/jobs";
      assert SourceText(a, r) == x + "/" + Decimal(a.id) && SourceText(b, q) == y + "/" + Decimal(b.id);
      LastSlashSeparates(x, Decimal(a.id), y, Decimal(b.id));
      ParseRendersDecimal(a.id);
      ParseRendersDecimal(b.id);
    } else if !a.JobSource? && !b.JobSource? {
      SlashSeparates(a.namespace, a.name, b.namespace, b.name);
    }
  }

  lemma DecimalHasNoSlash(n: int)
    ensures '/' !in Decimal(n)
  {
  }

  // ---------- paths ----------

  /** A file's position below the storage root, one entry per directory level. */
  type Path = seq<string>

  /** A path component as cleaning leaves it: not empty, not ".", and without "/". */
  predicate Plain(c: string) {
    c != "" && c != "." && '/' !in c
  }

  predicate PlainPath(p: Path) {
    forall i :: 0 <= i < |p| ==> Plain(p[i])
  }

  function Split(s: string): seq<string>
    decreases |s|
  {
    var i := FirstIndex(s, c => c == '/');
    if i == |s| then [s] else [s[..i]] + Split(s[i + 1..])
  }

  function DropIdle(cs: seq<string>): seq<string> {
    if cs == [] then []
    else (if cs[0] == "" || cs[0] == "." then [] else [cs[0]]) + DropIdle(cs[1..])
  }

  /** The components of a cleaned relative path (".." is treated as a plain name). */
  function Components(s: string): Path {
    DropIdle(Split(s))
  }

  /** A relative path spelt with "/" between the components; "." for the root itself. */
  function Join(p: Path): string {
    if p == [] then "." else if |p| == 1 then p[0] else p[0] + "/" + Join(p[1..])
  }

  lemma {:induction false} SplitAtSlash(a: string, s: string)
    requires '/' !in a
    ensures Split(a + "/" + s) == [a] + Split(s)
  {
    var t := a + "/" + s;
    var i := FirstIndex(t, c => c == '/');
    assert t[|a|] == '/';
    assert forall k :: 0 <= k < |a| ==> t[k] == a[k] && a[k] in a;
    assert t[..i] == a && t[i + 1..] == s;
  }

  lemma {:induction false} SplitWithoutSlash(a: string)
    requires '/' !in a
    ensures Split(a) == [a]
  {
    assert forall k :: 0 <= k < |a| ==> a[k] in a;
    assert FirstIndex(a, c => c == '/') == |a|;
  }

  lemma {:induction false} SplitJoin(p: Path)
    requires p != [] && PlainPath(p)
    ensures Split(Join(p)) == p
  {
    assert Plain(p[0]);
    if |p| == 1 {
      SplitWithoutSlash(p[0]);
    } else {
      assert PlainPath(p[1..]);
      SplitJoin(p[1..]);
      SplitAtSlash(p[0], Join(p[1..]));
    }
  }

  lemma {:induction false} DropIdleKeepsPlain(p: Path)
    requires PlainPath(p)
    ensures DropIdle(p) == p
  {
    if p != [] {
      assert Plain(p[0]);
      assert PlainPath(p[1..]);
      DropIdleKeepsPlain(p[1..]);
    }
  }

  /** Spelling a plain path and taking it apart again gives the same path. */
  lemma ComponentsOfJoin(p: Path)
    requires PlainPath(p)
    ensures Components(Join(p)) == p
  {
    if p == [] {
      SplitWithoutSlash(".");
      assert DropIdle(["."][1..]) == [];
    } else {
      SplitJoin(p);
      DropIdleKeepsPlain(p);
    }
  }

  lemma {:induction false} SplitHasNoSlash(s: string)
    ensures forall i :: 0 <= i < |Split(s)| ==> '/' !in Split(s)[i]
    decreases |s|
  {
    var i := FirstIndex(s, c => c == '/');
    if i < |s| {
      SplitHasNoSlash(s[i + 1..]);
    }
  }

  lemma {:induction false} DropIdleIsPlain(cs: seq<string>)
    requires forall i :: 0 <= i < |cs| ==> '/' !in cs[i]
    ensures PlainPath(DropIdle(cs))
  {
    if cs != [] {
      DropIdleIsPlain(cs[1..]);
    }
  }

  lemma ComponentsArePlain(s: string)
    ensures PlainPath(Components(s))
  {
    SplitHasNoSlash(s);
    DropIdleIsPlain(Split(s));
  }

  /** Different plain paths are spelt differently. */
  lemma JoinIsInjective(p: Path, q: Path)
    requires PlainPath(p) && PlainPath(q) && Join(p) == Join(q)
    ensures p == q
  {
    ComponentsOfJoin(p);
    ComponentsOfJoin(q);
  }

  function LogPath(namespace: string, pod: string, container: string, stamp: string): string {
    namespace + "/" + pod + "/" + container + "/" + stamp + ".log"
  }

  /** The path names a file of the pod: a log below <namespace>/<pod>. */
  predicate LogOf(path: string, namespace: string, pod: string) {
    var p := Components(path);
    |p| == 4 && p[0] == namespace && p[1] == pod
  }

  lemma LogPathComponents(namespace: string, pod: string, container: string, stamp: string)
    requires Plain(namespace) && Plain(pod) && Plain(container) && '/' !in stamp
    ensures Components(LogPath(namespace, pod, container, stamp)) == [namespace, pod, container, stamp + ".log"]
    ensures LogOf(LogPath(namespace, pod, container, stamp), namespace, pod)
  {
    var file := stamp + ".log";
    assert '/' !in ".log";
    assert file[|file| - 1] == 'g';
    var p := [namespace, pod, container, file];
    var p1, p2 := [pod, container, file], [container, file];
    assert p[1..] == p1 && p1[1..] == p2 && p2[1..] == [file];
    assert Join(p2) == container + "/" + file;
    assert Join(p1) == pod + "/" + Join(p2);
    assert Join(p) == LogPath(namespace, pod, container, stamp);
    assert PlainPath(p);
    ComponentsOfJoin(p);
  }
}
