/** Sequence operations shared by the views: `Array.prototype.filter`,
    `reduce` with `+`, a stable sort (what `Array.prototype.sort` and an SQL
    `ORDER BY` are modelled by) and `LIMIT n`.
 */
module Seqs {

  /** `s.filter(p)`: the elements satisfying `p`, in their original order. */
  function Filter<T>(s: seq<T>, p: T -> bool): (r: seq<T>)
    ensures |r| <= |s|
    ensures forall x :: x in r ==> x in s && p(x)
    ensures forall x :: x in s && p(x) ==> x in r
    ensures forall x :: x in s ==> multiset(r)[x] == if p(x) then multiset(s)[x] else 0
  {
    if s == [] then []
    else
      assert s == [s[0]] + s[1..];
      if p(s[0]) then [s[0]] + Filter(s[1..], p) else Filter(s[1..], p)
  }

  /** A filter every element passes returns its input unchanged. */
  lemma {:induction false} FilterKeepsAll<T>(s: seq<T>, p: T -> bool)
    requires forall x :: x in s ==> p(x)
    ensures Filter(s, p) == s
  {
    if s != [] {
      FilterKeepsAll(s[1..], p);
      assert s == [s[0]] + s[1..];
    }
  }

  /** A filter that rejects some element of its input returns fewer elements. */
  lemma {:induction false} FilterDrops<T>(s: seq<T>, p: T -> bool, x: T)
    requires x in s && !p(x)
    ensures |Filter(s, p)| < |s|
  {
    if s[0] != x {
      FilterDrops(s[1..], p, x);
    }
  }

  /** `a` is `b` with some elements left out, the rest in their order. */
  predicate IsSubsequence<T(==)>(a: seq<T>, b: seq<T>)
  {
    if a == [] then true
    else if b == [] then false
    else if a[0] == b[0] then IsSubsequence(a[1..], b[1..])
    else IsSubsequence(a, b[1..])
  }

  /** A filter keeps the order of what it keeps. */
  lemma {:induction false} FilterIsSubsequence<T>(s: seq<T>, p: T -> bool)
    ensures IsSubsequence(Filter(s, p), s)
  {
    if s != [] {
      FilterIsSubsequence(s[1..], p);
      var rest := Filter(s[1..], p);
      if !p(s[0]) && rest != [] {
        assert rest[0] in rest;
      }
    }
  }

  /** `s.reduce((acc, x) => acc + f(x), 0)`. */
  function Sum<T>(s: seq<T>, f: T -> real): real
  {
    if s == [] then 0.0 else f(s[0]) + Sum(s[1..], f)
  }

  /** `s.slice(0, n)` for n >= 0, the effect of SQL `LIMIT n`. */
  function Take<T>(s: seq<T>, n: nat): (r: seq<T>)
    ensures |r| == if n < |s| then n else |s|
    ensures r <= s
  {
    if n < |s| then s[..n] else s
  }

  /** `le(a, b)`: the comparator puts (or may put) `a` before `b`. */
  ghost predicate SortedBy<T>(s: seq<T>, le: (T, T) -> bool)
  {
    forall i, j :: 0 <= i < j < |s| ==> le(s[i], s[j])
  }

  /** `le` is total and transitive on the elements of `d`: a consistent comparator there. */
  ghost predicate PreorderOn<T>(le: (T, T) -> bool, d: seq<T>)
  {
    && (forall x, y :: x in d && y in d ==> le(x, y) || le(y, x))
    && (forall x, y, z :: x in d && y in d && z in d && le(x, y) && le(y, z) ==> le(x, z))
  }

  /** Insert `x` before the first element it may precede. */
  function Insert<T>(x: T, s: seq<T>, le: (T, T) -> bool): (r: seq<T>)
    ensures |r| == |s| + 1
    ensures multiset(r) == multiset(s) + multiset{x}
  {
    if s == [] then [x]
    else if le(x, s[0]) then [x] + s
    else
      assert s == [s[0]] + s[1..];
      [s[0]] + Insert(x, s[1..], le)
  }

  /** Stable insertion sort: equal elements keep their relative order. */
  function SortBy<T>(s: seq<T>, le: (T, T) -> bool): (r: seq<T>)
    ensures |r| == |s|
    ensures multiset(r) == multiset(s)
  {
    if s == [] then []
    else
      assert s == [s[0]] + s[1..];
      Insert(s[0], SortBy(s[1..], le), le)
  }

  /** Whatever the result of inserting holds is `x` or an element of `s`. */
  lemma {:induction false} InsertElement<T>(x: T, s: seq<T>, le: (T, T) -> bool, e: T)
    requires e in Insert(x, s, le)
    ensures e == x || e in s
  {
    if s != [] && !le(x, s[0]) && e != s[0] {
      InsertElement(x, s[1..], le, e);
    }
  }

  lemma SortedTail<T>(s: seq<T>, le: (T, T) -> bool)
    requires s != [] && SortedBy(s, le)
    ensures SortedBy(s[1..], le)
  {
    forall i, j | 0 <= i < j < |s[1..]|
      ensures le(s[1..][i], s[1..][j])
    {
      assert s[1..][i] == s[i + 1] && s[1..][j] == s[j + 1];
    }
  }

  lemma HeadBelowTail<T>(s: seq<T>, le: (T, T) -> bool, e: T)
    requires s != [] && SortedBy(s, le) && e in s[1..]
    ensures le(s[0], e)
  {
    var j :| 0 <= j < |s[1..]| && s[1..][j] == e;
    assert s[j + 1] == e;
  }

  lemma SortedCons<T>(h: T, t: seq<T>, le: (T, T) -> bool)
    requires SortedBy(t, le) && forall k :: 0 <= k < |t| ==> le(h, t[k])
    ensures SortedBy([h] + t, le)
  {
    var r := [h] + t;
    forall i, j | 0 <= i < j < |r|
      ensures le(r[i], r[j])
    {
      if i == 0 {
        assert r[j] == t[j - 1];
      } else {
        assert r[i] == t[i - 1] && r[j] == t[j - 1];
      }
    }
  }

  lemma {:induction false} InsertSorted<T>(x: T, s: seq<T>, le: (T, T) -> bool, d: seq<T>)
    requires PreorderOn(le, d)
    requires x in d && forall e :: e in s ==> e in d
    requires SortedBy(s, le)
    ensures SortedBy(Insert(x, s, le), le)
  {
    if s != [] && !le(x, s[0]) {
      var head, tail := s[0], s[1..];
      assert head in d;
      assert le(head, x);
      SortedTail(s, le);
      assert forall e :: e in tail ==> e in s;
      InsertSorted(x, tail, le, d);
      var rest := Insert(x, tail, le);
      forall k | 0 <= k < |rest|
        ensures le(head, rest[k])
      {
        var e := rest[k];
        InsertElement(x, tail, le, e);
        if e != x {
          HeadBelowTail(s, le, e);
        }
      }
      SortedCons(head, rest, le);
    } else if s != [] {
      forall j | 0 <= j < |s|
        ensures le(x, s[j])
      {
        if j > 0 {
          assert le(s[0], s[j]);
          assert s[j] in d;
        }
      }
      SortedCons(x, s, le);
    }
  }

  /** SortBy with a consistent comparator returns a sorted permutation. */
  lemma {:induction false} SortBySorted<T>(s: seq<T>, le: (T, T) -> bool, d: seq<T>)
    requires PreorderOn(le, d)
    requires forall e :: e in s ==> e in d
    ensures SortedBy(SortBy(s, le), le)
  {
    if s != [] {
      SortBySorted(s[1..], le, d);
      var rest := SortBy(s[1..], le);
      forall e | e in rest
        ensures e in d
      {
        assert e in multiset(s[1..]);
      }
      InsertSorted(s[0], rest, le, d);
    }
  }

  /** A comparator that never separates two elements leaves the order alone (stability). */
  lemma {:induction false} SortByAllTies<T>(s: seq<T>, le: (T, T) -> bool)
    requires forall x, y :: x in s && y in s ==> le(x, y)
    ensures SortBy(s, le) == s
  {
    if s != [] {
      var rest := s[1..];
      forall x, y | x in rest && y in rest
        ensures le(x, y)
      {
        assert x in s && y in s;
      }
      SortByAllTies(rest, le);
      assert SortBy(s, le) == Insert(s[0], rest, le);
      if rest != [] {
        assert rest[0] in s;
        assert le(s[0], rest[0]);
      }
      assert s == [s[0]] + rest;
    }
  }

  /** The first `n` elements of a sorted sequence come before every element left out. */
  lemma TakeOfSortedIsTop<T>(s: seq<T>, le: (T, T) -> bool, n: nat)
    requires SortedBy(s, le)
    ensures forall x, y :: x in Take(s, n) && y in s && y !in Take(s, n) ==> le(x, y)
  {
    forall x, y | x in Take(s, n) && y in s && y !in Take(s, n)
      ensures le(x, y)
    {
      var t := Take(s, n);
      var i :| 0 <= i < |t| && t[i] == x;
      var j :| 0 <= j < |s| && s[j] == y;
      assert s[i] == x;
    }
  }
}
