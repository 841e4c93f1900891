/** The parts of JavaScript's `Array.prototype` (and `Set`) that the application
    relies on: `find`, `filter`, `slice`, de-duplication through a `Set`, and the
    default `sort` of strings. */
module JsArray {
  import opened Wrappers

  /** The index of the first element at or after `from` that satisfies `p`. */
  function FirstIndexFrom<T>(s: seq<T>, p: T -> bool, from: nat): (r: Option<nat>)
    requires from <= |s|
    ensures r.Some? ==> from <= r.value < |s| && p(s[r.value])
    ensures r.Some? ==> forall j :: from <= j < r.value ==> !p(s[j])
    ensures r.None? ==> forall j :: from <= j < |s| ==> !p(s[j])
    decreases |s| - from
  {
    if from == |s| then None
    else if p(s[from]) then Some(from)
    else FirstIndexFrom(s, p, from + 1)
  }

  /** `s.findIndex(p)`, with `None` for -1. */
  function FirstIndex<T>(s: seq<T>, p: T -> bool): (r: Option<nat>)
    ensures r.Some? ==> r.value < |s| && p(s[r.value]) && forall j :: 0 <= j < r.value ==> !p(s[j])
    ensures r.None? ==> forall j :: 0 <= j < |s| ==> !p(s[j])
  {
    FirstIndexFrom(s, p, 0)
  }

  /** `s.find(p)`: the first element satisfying `p`, or `None` (`undefined`). */
  function Find<T>(s: seq<T>, p: T -> bool): (r: Option<T>)
    ensures r.None? <==> forall j :: 0 <= j < |s| ==> !p(s[j])
    ensures r.Some? ==> p(r.value)
    ensures r.Some? ==> exists i :: 0 <= i < |s| && s[i] == r.value && forall j :: 0 <= j < i ==> !p(s[j])
  {
    match FirstIndex(s, p)
    case Some(i) => Some(s[i])
    case None => None
  }

  /** `find` returns the element at the first position that satisfies `p`. */
  lemma FindIsFirst<T>(s: seq<T>, p: T -> bool, i: nat)
    requires i < |s| && p(s[i])
    requires forall j :: 0 <= j < i ==> !p(s[j])
    ensures Find(s, p) == Some(s[i])
  {
    var k := FirstIndex(s, p);
    assert k.Some?;
    assert !(k.value < i) && !(i < k.value);
  }

  /** `s.filter(p)`. */
  function Filter<T>(s: seq<T>, p: T -> bool): (r: seq<T>)
    ensures |r| <= |s|
  {
    if s == [] then [] else (if p(s[0]) then [s[0]] else []) + Filter(s[1..], p)
  }

  /** `r` is `s` with some elements left out: `idx` says where each element of
      `r` sits in `s`, and the positions strictly increase. */
  ghost predicate SubsequenceVia<T>(r: seq<T>, s: seq<T>, idx: seq<int>) {
    && |idx| == |r|
    && (forall k :: 0 <= k < |idx| ==> 0 <= idx[k] < |s| && r[k] == s[idx[k]])
    && (forall k, l :: 0 <= k < l < |idx| ==> idx[k] < idx[l])
  }

  ghost predicate IsSubsequence<T>(r: seq<T>, s: seq<T>) {
    exists idx :: SubsequenceVia(r, s, idx)
  }

  /** `filter` keeps the order of what it keeps. */
  lemma {:induction false} FilterIsSubsequence<T>(s: seq<T>, p: T -> bool)
    ensures IsSubsequence(Filter(s, p), s)
  {
    if s == [] {
      assert SubsequenceVia<T>([], s, []);
    } else {
      FilterIsSubsequence(s[1..], p);
      var rest := Filter(s[1..], p);
      var idx :| SubsequenceVia(rest, s[1..], idx);
      if p(s[0]) {
        SubsequenceKeepHead(rest, s, idx);
        assert Filter(s, p) == [s[0]] + rest;
      } else {
        SubsequenceDropHead(rest, s, idx);
        assert Filter(s, p) == rest;
      }
    }
  }

  /** Every position moved one place on. */
  function Shift(idx: seq<int>): (r: seq<int>)
    ensures |r| == |idx| && forall k :: 0 <= k < |r| ==> r[k] == idx[k] + 1
  {
    seq(|idx|, k requires 0 <= k < |idx| => idx[k] + 1)
  }

  /** A subsequence of the tail is a subsequence of the whole, one place on. */
  lemma SubsequenceDropHead<T>(r: seq<T>, s: seq<T>, idx: seq<int>)
    requires s != [] && SubsequenceVia(r, s[1..], idx)
    ensures SubsequenceVia(r, s, Shift(idx))
  {
  }

  /** A subsequence of the tail, preceded by the head, is a subsequence of the whole. */
  lemma SubsequenceKeepHead<T>(r: seq<T>, s: seq<T>, idx: seq<int>)
    requires s != [] && SubsequenceVia(r, s[1..], idx)
    ensures SubsequenceVia([s[0]] + r, s, [0] + Shift(idx))
  {
    SubsequenceDropHead(r, s, idx);
    var j := [0] + Shift(idx);
    forall k | 0 < k < |j| ensures j[k] == Shift(idx)[k - 1] && ([s[0]] + r)[k] == r[k - 1] {
    }
  }

  /** `filter` keeps exactly the elements satisfying `p`, each as often as it occurs. */
  lemma {:induction false} FilterCount<T>(s: seq<T>, p: T -> bool, x: T)
    ensures multiset(Filter(s, p))[x] == if p(x) then multiset(s)[x] else 0
  {
    if s != [] {
      FilterCount(s[1..], p, x);
      assert s == [s[0]] + s[1..];
    }
  }

  /** An element is kept exactly when it occurs and satisfies `p`. */
  lemma FilterMembership<T>(s: seq<T>, p: T -> bool, x: T)
    ensures x in Filter(s, p) <==> x in s && p(x)
  {
    FilterCount(s, p, x);
  }

  /** Filtering by `p` then `q` is filtering by both at once, so the order in
      which conditions are applied does not matter. */
  lemma {:induction false} FilterFilter<T>(s: seq<T>, p: T -> bool, q: T -> bool)
    ensures Filter(Filter(s, p), q) == Filter(s, x => p(x) && q(x))
  {
    if s != [] {
      FilterFilter(s[1..], p, q);
      var head := if p(s[0]) then [s[0]] else [];
      assert Filter(s, p) == head + Filter(s[1..], p);
      FilterAppend(head, Filter(s[1..], p), q);
    }
  }

  /** Filtering depends only on which elements the predicate accepts. */
  lemma {:induction false} FilterExtensional<T>(s: seq<T>, p: T -> bool, q: T -> bool)
    requires forall x :: p(x) == q(x)
    ensures Filter(s, p) == Filter(s, q)
  {
    if s != [] {
      FilterExtensional(s[1..], p, q);
    }
  }

  /** Filtering by a conjunction of three conditions is filtering by each in turn. */
  lemma FilterThree<T>(s: seq<T>, m: T -> bool, p: T -> bool, q: T -> bool, r: T -> bool)
    requires forall x :: m(x) == (p(x) && q(x) && r(x))
    ensures Filter(s, m) == Filter(Filter(Filter(s, p), q), r)
  {
    FilterFilter(s, p, q);
    var pq := x => p(x) && q(x);
    FilterFilter(s, pq, r);
    FilterExtensional(s, x => pq(x) && r(x), m);
  }

  lemma {:induction false} FilterAppend<T>(a: seq<T>, b: seq<T>, p: T -> bool)
    ensures Filter(a + b, p) == Filter(a, p) + Filter(b, p)
  {
    if a != [] {
      assert (a + b)[1..] == a[1..] + b;
      FilterAppend(a[1..], b, p);
    } else {
      assert a + b == b;
    }
  }

  /** Clamps a `slice` bound as JavaScript does: a negative bound counts from the end. */
  function ClampIndex(i: int, len: nat): (r: nat)
    ensures r <= len
    ensures 0 <= i <= len ==> r == i
    ensures i > len ==> r == len
  {
    if i < 0 then (if len + i < 0 then 0 else len + i)
    else if i > len then len
    else i
  }

  /** `s.slice(start, end)`. */
  function Slice<T>(s: seq<T>, start: int, end: int): (r: seq<T>)
    ensures 0 <= start <= end <= |s| ==> r == s[start..end]
  {
    var from := ClampIndex(start, |s|);
    var to := ClampIndex(end, |s|);
    if from < to then s[from..to] else []
  }

  ghost predicate NoDuplicates<T>(s: seq<T>) {
    forall i, j :: 0 <= i < j < |s| ==> s[i] != s[j]
  }

  /** The position of the first occurrence of `x` in `s`. */
  function FirstPosition<T(==)>(s: seq<T>, x: T): (n: nat)
    requires x in s
    ensures n < |s| && s[n] == x && x !in s[..n]
  {
    if s[0] == x then 0
    else
      var n := 1 + FirstPosition(s[1..], x);
      assert s[..n] == [s[0]] + s[1..][..n - 1];
      n
  }

  /** A position holding `x` with no `x` before it is the first position of `x`. */
  lemma FirstPositionIs<T>(s: seq<T>, x: T, k: nat)
    requires k < |s| && s[k] == x && x !in s[..k]
    ensures FirstPosition(s, x) == k
  {
  }

  /** Appending an element moves no first position, and a new element is
      first seen at the end. */
  lemma FirstPositionSnoc<T>(p: seq<T>, y: T)
    ensures forall x :: x in p ==> FirstPosition(p + [y], x) == FirstPosition(p, x)
    ensures y !in p ==> FirstPosition(p + [y], y) == |p|
  {
    forall x | x in p
      ensures FirstPosition(p + [y], x) == FirstPosition(p, x)
    {
      var k := FirstPosition(p, x);
      assert (p + [y])[..k] == p[..k];
      FirstPositionIs(p + [y], x, k);
    }
    if y !in p {
      assert (p + [y])[..|p|] == p;
      FirstPositionIs(p + [y], y, |p|);
    }
  }

  /** `Array.from(new Set(s))`: each value once, in order of first occurrence. */
  function Distinct<T(==,!new)>(s: seq<T>): (r: seq<T>)
    ensures NoDuplicates(r)
    ensures forall x :: x in r <==> x in s
    ensures forall i, j :: 0 <= i < j < |r| ==> FirstPosition(s, r[i]) < FirstPosition(s, r[j])
  {
    if s == [] then []
    else
      var p := s[..|s| - 1];
      var d := Distinct(p);
      var last := s[|s| - 1];
      assert s == p + [last];
      FirstPositionSnoc(p, last);
      if last in d then d else d + [last]
  }

  /** JavaScript's `<` on strings: lexicographic order of the characters, where
      a proper prefix comes first. */
  predicate StrLt(a: string, b: string) {
    if a == [] then b != []
    else if b == [] then false
    else if a[0] != b[0] then a[0] < b[0]
    else StrLt(a[1..], b[1..])
  }

  predicate StrLe(a: string, b: string) {
    a == b || StrLt(a, b)
  }

  lemma {:induction false} StrLtIrreflexive(a: string)
    ensures !StrLt(a, a)
  {
    if a != [] {
      StrLtIrreflexive(a[1..]);
    }
  }

  lemma {:induction false} StrLtTransitive(a: string, b: string, c: string)
    requires StrLt(a, b) && StrLt(b, c)
    ensures StrLt(a, c)
  {
    if a != [] && b != [] && c != [] && a[0] == b[0] && b[0] == c[0] {
      StrLtTransitive(a[1..], b[1..], c[1..]);
    }
  }

  lemma {:induction false} StrLtTotal(a: string, b: string)
    ensures a == b || StrLt(a, b) || StrLt(b, a)
  {
    if a != [] && b != [] && a[0] == b[0] {
      StrLtTotal(a[1..], b[1..]);
      if a[1..] == b[1..] {
        assert a == [a[0]] + a[1..] && b == [b[0]] + b[1..];
      }
    }
  }

  lemma StrLtAsymmetric(a: string, b: string)
    requires StrLt(a, b)
    ensures !StrLt(b, a)
  {
    if StrLt(b, a) {
      StrLtTransitive(a, b, a);
      StrLtIrreflexive(a);
    }
  }

  lemma StrLeTransitive(a: string, b: string, c: string)
    requires StrLe(a, b) && StrLe(b, c)
    ensures StrLe(a, c)
  {
    if a != b && b != c {
      StrLtTransitive(a, b, c);
    }
  }

  ghost predicate Sorted(s: seq<string>) {
    forall i, j :: 0 <= i < j < |s| ==> StrLe(s[i], s[j])
  }

  ghost predicate StrictlySorted(s: seq<string>) {
    forall i, j :: 0 <= i < j < |s| ==> StrLt(s[i], s[j])
  }

  /** Puts `x` into its place in a sorted sequence. */
  function Insert(x: string, s: seq<string>): (r: seq<string>)
    ensures multiset(r) == multiset(s) + multiset{x}
  {
    if s == [] then [x]
    else if StrLe(x, s[0]) then [x] + s
    else
      assert s == [s[0]] + s[1..];
      [s[0]] + Insert(x, s[1..])
  }

  lemma {:induction false} InsertSorted(x: string, s: seq<string>)
    requires Sorted(s)
    ensures Sorted(Insert(x, s))
  {
    if s != [] {
      if StrLe(x, s[0]) {
        forall j | 0 < j < |s| ensures StrLe(x, s[j]) {
          StrLeTransitive(x, s[0], s[j]);
        }
      } else {
        InsertSorted(x, s[1..]);
        StrLtTotal(x, s[0]);
        var t := Insert(x, s[1..]);
        InsertKeepsLowerBound(s[0], x, s[1..]);
        ConsSorted(s[0], t);
        assert Insert(x, s) == [s[0]] + t;
      }
    }
  }

  /** Inserting a value no smaller than `b` into values no smaller than `b`
      keeps every value no smaller than `b`. */
  lemma InsertKeepsLowerBound(b: string, x: string, s: seq<string>)
    requires StrLe(b, x) && forall j :: 0 <= j < |s| ==> StrLe(b, s[j])
    ensures forall j :: 0 <= j < |Insert(x, s)| ==> StrLe(b, Insert(x, s)[j])
  {
    var t := Insert(x, s);
    forall j | 0 <= j < |t| ensures StrLe(b, t[j]) {
      assert t[j] in multiset(t);
      if t[j] != x {
        assert t[j] in multiset(s);
        var k :| 0 <= k < |s| && s[k] == t[j];
      }
    }
  }

  /** A sorted list preceded by a lower bound of it is sorted. */
  lemma ConsSorted(b: string, t: seq<string>)
    requires Sorted(t) && forall j :: 0 <= j < |t| ==> StrLe(b, t[j])
    ensures Sorted([b] + t)
  {
    var r := [b] + t;
    forall i, j | 0 <= i < j < |r| ensures StrLe(r[i], r[j]) {
      if i == 0 {
        assert r[j] == t[j - 1];
      } else {
        assert r[i] == t[i - 1] && r[j] == t[j - 1];
      }
    }
  }

  /** The default `sort()` of an array of strings (an insertion sort here; any
      correct sort gives the same result for distinct values). */
  function SortStrings(s: seq<string>): (r: seq<string>)
    ensures multiset(r) == multiset(s)
  {
    if s == [] then []
    else
      assert s == [s[0]] + s[1..];
      Insert(s[0], SortStrings(s[1..]))
  }

  lemma {:induction false} SortStringsSorted(s: seq<string>)
    ensures Sorted(SortStrings(s))
  {
    if s != [] {
      SortStringsSorted(s[1..]);
      InsertSorted(s[0], SortStrings(s[1..]));
    }
  }

  /** A sorted sequence without duplicates is strictly increasing. */
  lemma SortedDistinctIsStrict(s: seq<string>)
    requires Sorted(s) && NoDuplicates(s)
    ensures StrictlySorted(s)
  {
  }

  /** Sorting a sequence without duplicates gives a strictly increasing sequence
      with the same elements. */
  lemma SortDistinct(s: seq<string>)
    requires NoDuplicates(s)
    ensures StrictlySorted(SortStrings(s))
    ensures forall x :: x in SortStrings(s) <==> x in s
  {
    var r := SortStrings(s);
    SortStringsSorted(s);
    assert forall x :: x in r <==> x in multiset(s);
    forall x ensures multiset(r)[x] <= 1 {
      MultisetAtMostOnce(s, x);
    }
    AtMostOnceNoDuplicates(r);
  }

  lemma {:induction false} MultisetAtMostOnce<T>(s: seq<T>, x: T)
    requires NoDuplicates(s)
    ensures multiset(s)[x] <= 1
  {
    if s != [] {
      assert s == [s[0]] + s[1..];
      MultisetAtMostOnce(s[1..], x);
      if s[0] == x {
        assert x !in s[1..];
      }
    }
  }

  lemma {:induction false} AtMostOnceNoDuplicates<T>(s: seq<T>)
    requires forall x :: multiset(s)[x] <= 1
    ensures NoDuplicates(s)
  {
    if s != [] {
      assert s == [s[0]] + s[1..];
      assert multiset(s) == multiset{s[0]} + multiset(s[1..]);
      assert multiset(s)[s[0]] <= 1;
      assert multiset(s[1..])[s[0]] == 0;
      forall x ensures multiset(s[1..])[x] <= 1 {
        assert multiset(s)[x] <= 1;
      }
      AtMostOnceNoDuplicates(s[1..]);
      forall i, j | 0 <= i < j < |s| ensures s[i] != s[j] {
        if i > 0 {
          assert s[i] == s[1..][i - 1] && s[j] == s[1..][j - 1];
        } else {
          assert s[j] in s[1..];
        }
      }
    }
  }
}
