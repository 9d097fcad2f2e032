/** The array built-ins the pages and forms use to edit their lists:
    `filter`, `findIndex`, `find`, `splice(i, 1)`, `map` with a
    replacement, and index assignment. */
module Seqs {
  import opened Wrappers

  /** `a` is `b` with some elements left out, order kept. */
  predicate IsSubsequence<T(==)>(a: seq<T>, b: seq<T>)
    decreases |b|
  {
    if a == [] then true
    else if b == [] then false
    else (a[0] == b[0] && IsSubsequence(a[1..], b[1..])) || IsSubsequence(a, b[1..])
  }

  /** `s.filter(p)`: exactly the elements satisfying `p`, each as often as
      in `s`, in their original order. */
  function Filter<T(==,!new)>(s: seq<T>, p: T -> bool): (r: seq<T>)
    ensures forall x :: multiset(r)[x] == if p(x) then multiset(s)[x] else 0
    ensures IsSubsequence(r, s)
  {
    if s == [] then []
    else
      var rest := Filter(s[1..], p);
      assert s == [s[0]] + s[1..];
      if p(s[0]) then
        assert ([s[0]] + rest)[1..] == rest;
        [s[0]] + rest
      else rest
  }

  /** The filter keeps an element exactly when it satisfies `p`. */
  lemma FilterMembership<T(!new)>(s: seq<T>, p: T -> bool, x: T)
    ensures x in Filter(s, p) <==> x in s && p(x)
  {
    var r := Filter(s, p);
    assert x in r <==> multiset(r)[x] > 0;
    assert x in s <==> multiset(s)[x] > 0;
  }

  /** A filter whose predicate holds everywhere changes nothing. */
  lemma {:induction false} FilterAll<T(!new)>(s: seq<T>, p: T -> bool)
    requires forall k :: 0 <= k < |s| ==> p(s[k])
    ensures Filter(s, p) == s
  {
    if s != [] {
      FilterAll(s[1..], p);
    }
  }

  /** `s.map(f)`: one result per element, in order. */
  function Map<A, B>(s: seq<A>, f: A -> B): (r: seq<B>)
    ensures |r| == |s| && forall k :: 0 <= k < |s| ==> r[k] == f(s[k])
  {
    seq(|s|, k requires 0 <= k < |s| => f(s[k]))
  }

  /** `s.some(p)` */
  predicate Any<T>(s: seq<T>, p: T -> bool) {
    exists k :: 0 <= k < |s| && p(s[k])
  }

  /** Filtering a list with one more element at the end. */
  lemma {:induction false} FilterAppend<T(!new)>(s: seq<T>, x: T, p: T -> bool)
    ensures Filter(s + [x], p) == Filter(s, p) + if p(x) then [x] else []
  {
    if s == [] {
      assert s + [x] == [x];
    } else {
      assert (s + [x])[1..] == s[1..] + [x];
      FilterAppend(s[1..], x, p);
    }
  }

  /** `s.findIndex(p)`: the first position satisfying `p`, or -1. */
  function FindIndex<T>(s: seq<T>, p: T -> bool): (r: int)
    ensures -1 <= r < |s|
    ensures r == -1 <==> forall k :: 0 <= k < |s| ==> !p(s[k])
    ensures r >= 0 ==> p(s[r]) && forall k :: 0 <= k < r ==> !p(s[k])
  {
    if s == [] then -1
    else if p(s[0]) then 0
    else
      var k := FindIndex(s[1..], p);
      if k == -1 then -1 else k + 1
  }

  /** `s.find(p)`: the first element satisfying `p`, if any. */
  function Find<T>(s: seq<T>, p: T -> bool): (r: Option<T>)
    ensures r.None? <==> forall k :: 0 <= k < |s| ==> !p(s[k])
    ensures r.Some? ==> exists i :: 0 <= i < |s| && s[i] == r.value && p(s[i])
                                    && forall k :: 0 <= k < i ==> !p(s[k])
  {
    var i := FindIndex(s, p);
    if i == -1 then None else Some(s[i])
  }

  /** `s.filter((_, j) => j !== i)`: when `i` is a position of `s` exactly
      that element goes, the others keep their order; otherwise nothing
      changes. The same as `s.splice(i, 1)` on a copy. */
  function DropIndex<T>(s: seq<T>, i: int): (r: seq<T>)
    ensures 0 <= i < |s| ==> r == s[..i] + s[i + 1..]
    ensures !(0 <= i < |s|) ==> r == s
  {
    if s == [] then []
    else
      var rest := DropIndex(s[1..], i - 1);
      if i == 0 then rest
      else
        assert 0 < i < |s| ==> s[1..][..i - 1] + s[1..][i..] == s[1..i] + s[i + 1..];
        assert s == [s[0]] + s[1..];
        [s[0]] + rest
  }

  /** `s.map(e => p(e) ? x : e)`: every element satisfying `p` becomes `x`,
      the rest stay where they are. */
  function ReplaceWhere<T>(s: seq<T>, p: T -> bool, x: T): (r: seq<T>)
    ensures |r| == |s|
    ensures forall k :: 0 <= k < |s| ==> r[k] == if p(s[k]) then x else s[k]
  {
    if s == [] then []
    else [if p(s[0]) then x else s[0]] + ReplaceWhere(s[1..], p, x)
  }

  /** `i = s.findIndex(p); if (i !== -1) s[i] = x`. */
  function ReplaceFirst<T>(s: seq<T>, p: T -> bool, x: T): (r: seq<T>)
    ensures |r| == |s|
  {
    var i := FindIndex(s, p);
    if i == -1 then s else s[i := x]
  }

  /** `i = s.findIndex(p); if (i !== -1) s.splice(i, 1)`. */
  function RemoveFirst<T>(s: seq<T>, p: T -> bool): (r: seq<T>)
  {
    DropIndex(s, FindIndex(s, p))
  }

  /** `s[i] = x` on a copy: only position `i` changes. */
  lemma SetAt<T>(s: seq<T>, i: nat, x: T)
    requires i < |s|
    ensures |s[i := x]| == |s| && s[i := x][i] == x
    ensures forall k :: 0 <= k < |s| && k != i ==> s[i := x][k] == s[k]
  {
  }

  /** No two positions satisfy `p`, as for records keyed by a unique id. */
  predicate AtMostOne<T>(s: seq<T>, p: T -> bool) {
    forall i, j :: 0 <= i < |s| && 0 <= j < |s| && p(s[i]) && p(s[j]) ==> i == j
  }

  /** `ReplaceFirst` changes the first match and nothing else; when there is
      no match the list is unchanged. */
  lemma ReplaceFirstSpec<T>(s: seq<T>, p: T -> bool, x: T)
    ensures var i := FindIndex(s, p);
            (i == -1 ==> ReplaceFirst(s, p, x) == s) &&
            (i >= 0 ==> ReplaceFirst(s, p, x)[i] == x &&
                        forall k :: 0 <= k < |s| && k != i ==> ReplaceFirst(s, p, x)[k] == s[k])
  {
  }

  /** With at most one match, replacing the first match (what the mock list
      does) and replacing every match (what the page's `map` does) agree. */
  lemma ReplaceFirstIsReplaceWhere<T>(s: seq<T>, p: T -> bool, x: T)
    requires AtMostOne(s, p)
    ensures ReplaceFirst(s, p, x) == ReplaceWhere(s, p, x)
  {
    var i := FindIndex(s, p);
    var a, b := ReplaceFirst(s, p, x), ReplaceWhere(s, p, x);
    forall k | 0 <= k < |s| ensures a[k] == b[k] {
      if i >= 0 {
        assert p(s[i]);
      }
    }
  }

  /** With at most one match, splicing out the first match (what the mock
      list does) and filtering out every match (what the page's `filter`
      does) agree; `q` is the negation of `p`. */
  lemma {:induction false} RemoveFirstIsFilter<T(!new)>(s: seq<T>, p: T -> bool, q: T -> bool)
    requires AtMostOne(s, p)
    requires forall e :: q(e) == !p(e)
    ensures RemoveFirst(s, p) == Filter(s, q)
  {
    if s != [] {
      AtMostOneTail(s, p);
      if p(s[0]) {
        forall k | 0 <= k < |s| - 1 ensures q(s[1..][k]) {
          assert s[1..][k] == s[k + 1];
        }
        FilterAll(s[1..], q);
      } else {
        RemoveFirstIsFilter(s[1..], p, q);
        RemoveFirstPastMismatch(s, p);
      }
    }
  }

  /** Dropping the head keeps at most one match. */
  lemma AtMostOneTail<T>(s: seq<T>, p: T -> bool)
    requires s != [] && AtMostOne(s, p)
    ensures AtMostOne(s[1..], p)
    ensures p(s[0]) ==> forall k :: 1 <= k < |s| ==> !p(s[k])
  {
    forall i, j | 0 <= i < |s| - 1 && 0 <= j < |s| - 1 && p(s[1..][i]) && p(s[1..][j])
      ensures i == j
    {
      assert s[1..][i] == s[i + 1] && s[1..][j] == s[j + 1];
    }
  }

  /** A head that does not match stays in front. */
  lemma RemoveFirstPastMismatch<T>(s: seq<T>, p: T -> bool)
    requires s != [] && !p(s[0])
    ensures RemoveFirst(s, p) == [s[0]] + RemoveFirst(s[1..], p)
  {
    var k := FindIndex(s[1..], p);
    if k == -1 {
      assert FindIndex(s, p) == -1;
      assert s == [s[0]] + s[1..];
    } else {
      assert FindIndex(s, p) == k + 1;
    }
  }
}
