/** Library sorts, known to their callers only by what they promise: an ordered permutation,
    with ties in any order. */
module Sorting {
  import opened Api

  ghost predicate ByTime(t: seq<TimelineEvent>) {
    forall i, j :: 0 <= i < j < |t| ==> t[i].timestamp <= t[j].timestamp
  }

  lemma InsertionIsOrdered(a: seq<TimelineEvent>, e: TimelineEvent, b: seq<TimelineEvent>)
    requires ByTime(a) && ByTime(b)
    requires a != [] ==> a[|a| - 1].timestamp <= e.timestamp
    requires b != [] ==> e.timestamp < b[0].timestamp
    ensures ByTime(a + [e] + b)
  {
    SortedConcat(a, [e]);
    SortedConcat(a + [e], b);
  }

  lemma InsertionKeepsAll<T>(t: seq<T>, e: T, i: nat)
    requires i <= |t|
    ensures multiset(t[..i] + [e] + t[i..]) == multiset(t) + multiset{e}
  {
    assert t == t[..i] + t[i..];
  }

  lemma SortedConcat(a: seq<TimelineEvent>, b: seq<TimelineEvent>)
    requires ByTime(a) && ByTime(b)
    requires a != [] && b != [] ==> a[|a| - 1].timestamp <= b[0].timestamp
    ensures ByTime(a + b)
  {
    forall j, k | 0 <= j < k < |a + b| ensures (a + b)[j].timestamp <= (a + b)[k].timestamp {
      if j < |a| <= k {
        assert a[j].timestamp <= a[|a| - 1].timestamp <= b[0].timestamp <= b[k - |a|].timestamp;
      }
    }
  }

  /** Inserts an event before the first later one. */
  function InsertByTime(t: seq<TimelineEvent>, e: TimelineEvent): (r: seq<TimelineEvent>)
    requires ByTime(t)
    ensures ByTime(r) && multiset(r) == multiset(t) + multiset{e}
  {
    var i := FirstIndex(t, (x: TimelineEvent) => e.timestamp < x.timestamp);
    InsertionIsOrdered(t[..i], e, t[i..]);
    InsertionKeepsAll(t, e, i);
    t[..i] + [e] + t[i..]
  }

  method SortByTime(t: seq<TimelineEvent>) returns (r: seq<TimelineEvent>)
    ensures ByTime(r) && multiset(r) == multiset(t)
  {
    r := [];
    for i := 0 to |t|
      invariant ByTime(r) && multiset(r) == multiset(t[..i])
    {
      assert t[..i + 1] == t[..i] + [t[i]];
      r := InsertByTime(r, t[i]);
    }
    assert t[..|t|] == t;
  }

  // ---------- strings ----------

  predicate StringLess(a: string, b: string) {
    b != [] && (a == [] || a[0] < b[0] || (a[0] == b[0] && StringLess(a[1..], b[1..])))
  }

  lemma {:induction false} StringOrder(a: string, b: string)
    ensures StringLess(a, b) || StringLess(b, a) || a == b
    ensures !(StringLess(a, b) && StringLess(b, a))
  {
    if a != [] && b != [] {
      StringOrder(a[1..], b[1..]);
      assert a == [a[0]] + a[1..] && b == [b[0]] + b[1..];
    }
  }

  lemma {:induction false} StringLessTransitive(a: string, b: string, c: string)
    requires StringLess(a, b) && StringLess(b, c)
    ensures StringLess(a, c)
  {
    if a != [] && a[0] == b[0] && b[0] == c[0] {
      StringLessTransitive(a[1..], b[1..], c[1..]);
    }
  }

  ghost predicate Ascending(t: seq<string>) {
    forall i, j :: 0 <= i < j < |t| ==> StringLess(t[i], t[j])
  }

  predicate Distinct<T(==)>(s: seq<T>) {
    forall i, j :: 0 <= i < j < |s| ==> s[i] != s[j]
  }

  function InsertString(t: seq<string>, e: string): (r: seq<string>)
    requires Ascending(t) && e !in t
    ensures Ascending(r) && |r| == |t| + 1
    ensures forall x :: x in r <==> x in t || x == e
  {
    if t == [] then [e]
    else
      StringOrder(e, t[0]);
      if StringLess(e, t[0]) then
        assert forall j :: 0 < j < |t| ==> StringLess(t[0], t[j]);
        InsertFirst(t, e);
        [e] + t
      else
        var rest := InsertString(t[1..], e);
        assert forall x :: x in rest ==> StringLess(t[0], x);
        InsertFirst(rest, t[0]);
        [t[0]] + rest
  }

  lemma InsertFirst(t: seq<string>, e: string)
    requires Ascending(t)
    requires (forall x :: x in t ==> StringLess(e, x)) || (t != [] && StringLess(e, t[0]))
    ensures Ascending([e] + t)
  {
    forall j | 0 <= j < |t| ensures StringLess(e, t[j]) {
      if StringLess(e, t[0]) && j > 0 {
        StringLessTransitive(e, t[0], t[j]);
      } else {
        assert t[j] in t;
      }
    }
  }

  /** Sorts distinct strings. */
  method SortStrings(t: seq<string>) returns (r: seq<string>)
    requires Distinct(t)
    ensures Ascending(r) && |r| == |t|
    ensures forall x :: x in r <==> x in t
  {
    r := [];
    for i := 0 to |t|
      invariant Ascending(r) && |r| == i
      invariant forall x :: x in r <==> x in t[..i]
    {
      assert t[i] !in t[..i];
      r := InsertString(r, t[i]);
      assert t[..i + 1] == t[..i] + [t[i]];
    }
    assert t[..|t|] == t;
  }
}
