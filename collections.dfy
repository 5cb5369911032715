/**
 * The two query shapes every listing route uses: a `find` filter and a
 * `sort`. Sorting in the document store orders by the requested key and
 * promises nothing about documents with equal keys, so a sort is specified
 * here as "a permutation of the input, ordered by the key".
 */
module Collections {

  /** Keeps the elements that satisfy `keep`, in their original order. */
  function Filter<T(==,!new)>(s: seq<T>, keep: T -> bool): (r: seq<T>)
    ensures |r| <= |s|
    ensures forall x :: multiset(r)[x] == if keep(x) then multiset(s)[x] else 0
    ensures forall x :: x in r <==> x in s && keep(x)
  {
    if s == [] then []
    else
      var rest := Filter(s[1..], keep);
      assert s == [s[0]] + s[1..];
      assert multiset(s) == multiset{s[0]} + multiset(s[1..]);
      if keep(s[0]) then [s[0]] + rest else rest
  }

  /** `before` is reflexive-total and transitive: a key order with ties allowed. */
  ghost predicate IsTotalPreorder<T(!new)>(before: (T, T) -> bool)
  {
    && (forall a, b :: before(a, b) || before(b, a))
    && (forall a, b, c :: before(a, b) && before(b, c) ==> before(a, c))
  }

  ghost predicate SortedBy<T>(s: seq<T>, before: (T, T) -> bool)
  {
    forall i, j :: 0 <= i < j < |s| ==> before(s[i], s[j])
  }

  function InsertBy<T(==,!new)>(x: T, s: seq<T>, before: (T, T) -> bool): (r: seq<T>)
    requires IsTotalPreorder(before)
    requires SortedBy(s, before)
    ensures multiset(r) == multiset(s) + multiset{x}
    ensures SortedBy(r, before)
  {
    if s == [] || before(x, s[0]) then
      assert forall j :: 0 < j < |s| ==> before(s[0], s[j]);
      [x] + s
    else
      var rest := InsertBy(x, s[1..], before);
      assert s == [s[0]] + s[1..];
      assert before(s[0], x);
      forall k | 0 <= k < |rest|
        ensures before(s[0], rest[k])
      {
        assert rest[k] in multiset(rest);
        if rest[k] != x {
          assert rest[k] in multiset(s[1..]);
          var m :| 0 <= m < |s[1..]| && s[1..][m] == rest[k];
          assert s[m + 1] == rest[k];
        }
      }
      [s[0]] + rest
  }

  /** Insertion sort: a permutation of `s` ordered by `before`. */
  function SortBy<T(==,!new)>(s: seq<T>, before: (T, T) -> bool): (r: seq<T>)
    requires IsTotalPreorder(before)
    ensures multiset(r) == multiset(s)
    ensures |r| == |s|
    ensures SortedBy(r, before)
  {
    if s == [] then []
    else
      assert s == [s[0]] + s[1..];
      var r := InsertBy(s[0], SortBy(s[1..], before), before);
      assert |r| == |multiset(r)| == |multiset(s)| == |s|;
      r
  }

  /** Sorting descending on a timestamp (`sort({ createdAt: -1 })`). */
  function NewestFirst<T(==,!new)>(s: seq<T>, stamp: T -> nat): (r: seq<T>)
    ensures multiset(r) == multiset(s)
    ensures forall i, j :: 0 <= i < j < |r| ==> stamp(r[i]) >= stamp(r[j])
  {
    var before := (a: T, b: T) => stamp(a) >= stamp(b);
    assert IsTotalPreorder(before);
    SortBy(s, before)
  }
}
