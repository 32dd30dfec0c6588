/** `Array.prototype.sort` as the app uses it. ECMAScript requires the sort to
    be stable, and a comparator `(a, b) => ka - kb` orders by a numeric key, so
    every call is a stable sort by a total preorder `leq`, written here as an
    insertion sort. The default comparator (no argument) orders strings by
    their UTF-16 code units; `StrLeq` orders them by code points, which
    agrees on strings without characters outside the Basic Multilingual
    Plane. */
module Sorting {
  import opened Common

  ghost predicate TotalPreorder<T(!new)>(leq: (T, T) -> bool)
  {
    (forall a, b :: leq(a, b) || leq(b, a)) &&
    (forall a, b, c :: leq(a, b) && leq(b, c) ==> leq(a, c))
  }

  predicate Sorted<T>(s: seq<T>, leq: (T, T) -> bool)
  {
    forall i, j :: 0 <= i < j < |s| ==> leq(s[i], s[j])
  }

  /** Inserts `x` before the first element it does not follow. */
  function Insert<T>(x: T, t: seq<T>, leq: (T, T) -> bool): seq<T>
  {
    if t == [] then [x]
    else if leq(x, t[0]) then [x] + t
    else [t[0]] + Insert(x, t[1..], leq)
  }

  function Sort<T>(s: seq<T>, leq: (T, T) -> bool): seq<T>
  {
    if s == [] then [] else Insert(s[0], Sort(s[1..], leq), leq)
  }

  lemma {:induction false} InsertPermutes<T>(x: T, t: seq<T>, leq: (T, T) -> bool)
    ensures multiset(Insert(x, t, leq)) == multiset(t) + multiset{x}
    decreases |t|
  {
    if t != [] && !leq(x, t[0]) {
      InsertPermutes(x, t[1..], leq);
      assert t == [t[0]] + t[1..];
    }
  }

  /** The sort only reorders: the result is a permutation of the input. */
  lemma {:induction false} SortPermutes<T>(s: seq<T>, leq: (T, T) -> bool)
    ensures multiset(Sort(s, leq)) == multiset(s)
    decreases |s|
  {
    if s != [] {
      SortPermutes(s[1..], leq);
      InsertPermutes(s[0], Sort(s[1..], leq), leq);
      assert s == [s[0]] + s[1..];
    }
  }

  lemma {:induction false} InsertSorted<T(!new)>(x: T, t: seq<T>, leq: (T, T) -> bool)
    requires TotalPreorder(leq)
    requires Sorted(t, leq)
    ensures Sorted(Insert(x, t, leq), leq)
    decreases |t|
  {
    if t != [] && !leq(x, t[0]) {
      InsertSorted(x, t[1..], leq);
      var rest := Insert(x, t[1..], leq);
      InsertPermutes(x, t[1..], leq);
      forall k | 0 <= k < |rest| ensures leq(t[0], rest[k]) {
        assert rest[k] in multiset(rest);
        if rest[k] != x {
          assert rest[k] in multiset(t[1..]);
          var m :| 0 <= m < |t[1..]| && t[1..][m] == rest[k];
          assert t[m + 1] == rest[k];
        }
      }
    }
  }

  /** The sort orders its result by `leq`. */
  lemma {:induction false} SortSorted<T(!new)>(s: seq<T>, leq: (T, T) -> bool)
    requires TotalPreorder(leq)
    ensures Sorted(Sort(s, leq), leq)
    decreases |s|
  {
    if s != [] {
      SortSorted(s[1..], leq);
      InsertSorted(s[0], Sort(s[1..], leq), leq);
    }
  }

  lemma SwapFiltered<T(!new)>(a: T, b: T, rest: seq<T>, p: T -> bool)
    requires !(p(a) && p(b))
    ensures Filter([a], p) + (Filter([b], p) + rest) == Filter([b], p) + (Filter([a], p) + rest)
  {
  }

  lemma {:induction false} InsertStable<T(!new)>(x: T, t: seq<T>, leq: (T, T) -> bool, p: T -> bool)
    requires forall a, b :: p(a) && p(b) ==> leq(a, b)
    ensures Filter(Insert(x, t, leq), p) == Filter([x], p) + Filter(t, p)
    decreases |t|
  {
    if t != [] && !leq(x, t[0]) {
      var rest := Insert(x, t[1..], leq);
      assert Insert(x, t, leq) == [t[0]] + rest;
      InsertStable(x, t[1..], leq, p);
      FilterConcat([t[0]], rest, p);
      FilterConcat([t[0]], t[1..], p);
      assert t == [t[0]] + t[1..];
      SwapFiltered(t[0], x, Filter(t[1..], p), p);
    } else {
      FilterConcat([x], t, p);
    }
  }

  /** Stability: the elements of any class of mutually `leq`-equal elements
      keep their original relative order. */
  lemma {:induction false} SortStable<T(!new)>(s: seq<T>, leq: (T, T) -> bool, p: T -> bool)
    requires forall a, b :: p(a) && p(b) ==> leq(a, b)
    ensures Filter(Sort(s, leq), p) == Filter(s, p)
    decreases |s|
  {
    if s != [] {
      SortStable(s[1..], leq, p);
      InsertStable(s[0], Sort(s[1..], leq), leq, p);
      FilterConcat([s[0]], s[1..], p);
      assert s == [s[0]] + s[1..];
    }
  }

  /** A comparator that treats every pair as equal leaves the order alone. */
  lemma SortTrivial<T(!new)>(s: seq<T>, leq: (T, T) -> bool)
    requires forall a, b :: leq(a, b)
    ensures Sort(s, leq) == s
  {
    var all := (x: T) => true;
    SortStable(s, leq, all);
    FilterAll(s, all);
    SortPermutes(s, leq);
    FilterAll(Sort(s, leq), all);
  }

  /** A sorted sequence stays sorted when elements are dropped. */
  lemma {:induction false} FilterSorted<T(!new)>(s: seq<T>, leq: (T, T) -> bool, p: T -> bool)
    requires Sorted(s, leq)
    ensures Sorted(Filter(s, p), leq)
    decreases |s|
  {
    if s != [] {
      FilterSorted(s[1..], leq, p);
      var rest := Filter(s[1..], p);
      forall k | 0 <= k < |rest| ensures leq(s[0], rest[k]) {
        assert rest[k] in s[1..];
        var m :| 0 <= m < |s[1..]| && s[1..][m] == rest[k];
        assert s[m + 1] == rest[k];
      }
    }
  }

  // ---------------------------------------------------------------------
  // Strings in code-point order, and the `[...new Set(xs)].sort()` idiom

  /** Lexicographic order on code points, standing for the code-unit order
      of `sort()`. */
  predicate StrLeq(a: string, b: string)
    decreases |a|
  {
    a == [] || (b != [] && (a[0] < b[0] || (a[0] == b[0] && StrLeq(a[1..], b[1..]))))
  }

  lemma {:induction false} StrLeqTotal(a: string, b: string)
    ensures StrLeq(a, b) || StrLeq(b, a)
    decreases |a|
  {
    if a != [] && b != [] && a[0] == b[0] {
      StrLeqTotal(a[1..], b[1..]);
    }
  }

  lemma {:induction false} StrLeqTransitive(a: string, b: string, c: string)
    requires StrLeq(a, b) && StrLeq(b, c)
    ensures StrLeq(a, c)
    decreases |a|
  {
    if a != [] && a[0] == b[0] && b[0] == c[0] {
      StrLeqTransitive(a[1..], b[1..], c[1..]);
    }
  }

  lemma {:induction false} StrLeqAntisymmetric(a: string, b: string)
    requires StrLeq(a, b) && StrLeq(b, a)
    ensures a == b
    decreases |a|
  {
    if a != [] {
      StrLeqAntisymmetric(a[1..], b[1..]);
      assert a == [a[0]] + a[1..] && b == [b[0]] + b[1..];
    }
  }

  lemma StrOrderIsTotalPreorder()
    ensures TotalPreorder(StrLeq)
  {
    forall a, b ensures StrLeq(a, b) || StrLeq(b, a) { StrLeqTotal(a, b); }
    forall a, b, c | StrLeq(a, b) && StrLeq(b, c) ensures StrLeq(a, c) {
      StrLeqTransitive(a, b, c);
    }
  }

  predicate Distinct<T(==)>(s: seq<T>)
  {
    forall i, j :: 0 <= i < j < |s| ==> s[i] != s[j]
  }

  /** `[...new Set(s)]`: first occurrences, in order. */
  function Dedup<T(==,!new)>(s: seq<T>): (r: seq<T>)
    ensures Distinct(r)
    ensures forall x :: x in r <==> x in s
  {
    if s == [] then []
    else
      var d := Dedup(s[..|s| - 1]);
      assert forall x :: x in s <==> x in s[..|s| - 1] || x == s[|s| - 1];
      if s[|s| - 1] in d then d else d + [s[|s| - 1]]
  }

  lemma {:induction false} InsertKeepsDistinct<T>(x: T, t: seq<T>, leq: (T, T) -> bool)
    requires Distinct(t) && x !in t
    ensures Distinct(Insert(x, t, leq))
    decreases |t|
  {
    if t != [] && !leq(x, t[0]) {
      InsertKeepsDistinct(x, t[1..], leq);
      InsertPermutes(x, t[1..], leq);
      var rest := Insert(x, t[1..], leq);
      assert t[0] !in multiset(rest);
    }
  }

  lemma {:induction false} SortKeepsDistinct<T>(s: seq<T>, leq: (T, T) -> bool)
    requires Distinct(s)
    ensures Distinct(Sort(s, leq))
    decreases |s|
  {
    if s != [] {
      SortKeepsDistinct(s[1..], leq);
      SortPermutes(s[1..], leq);
      assert s[0] !in multiset(s[1..]);
      InsertKeepsDistinct(s[0], Sort(s[1..], leq), leq);
    }
  }

  /** `[...new Set(s)].sort()`: every value of `s` exactly once, in ascending
      code-point order (`StrLeq`), standing for the code-unit order of
      `sort()`. */
  function UniqueSorted(s: seq<string>): (r: seq<string>)
    ensures Sorted(r, StrLeq) && Distinct(r)
    ensures forall x :: x in r <==> x in s
  {
    var d := Dedup(s);
    StrOrderIsTotalPreorder();
    SortSorted(d, StrLeq);
    SortKeepsDistinct(d, StrLeq);
    SortPermutes(d, StrLeq);
    assert forall x :: x in Sort(d, StrLeq) <==> x in multiset(d);
    Sort(d, StrLeq)
  }

  /** The numeric comparator `(a, b) => a - b`. */
  predicate IntLeq(a: int, b: int) { a <= b }

  lemma IntOrderIsTotalPreorder()
    ensures TotalPreorder(IntLeq)
  {
  }
}
