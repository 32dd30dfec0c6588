/** Values and string/list operations shared by the whole model.

    JavaScript strings are sequences of UTF-16 code units; here a string is a
    `seq<char>`, a sequence of code points. The two agree on characters in
    the Basic Multilingual Plane; lengths and order differ for characters
    beyond it, such as emoji. */
module Common {

  datatype Option<T> = None | Some(value: T)

  datatype Result<T> = Ok(value: T) | Err(message: string)

  /** A field value of one of the app's plain JavaScript records. */
  datatype Value = Text(s: string) | Flag(b: bool) | TextList(items: seq<string>) | Null

  /** A record built with object spreads: field name to value. */
  type Record = map<string, Value>

  /** JavaScript truthiness of a field that may be absent (`undefined`). */
  predicate Truthy(v: Option<Value>)
  {
    match v
    case None => false
    case Some(Text(s)) => s != ""
    case Some(Flag(b)) => b
    case Some(TextList(_)) => true
    case Some(Null) => false
  }

  function Get(r: Record, key: string): Option<Value>
  {
    if key in r then Some(r[key]) else None
  }

  function Min(a: int, b: int): int { if a <= b then a else b }

  // ---------------------------------------------------------------------
  // Rounded percentages

  lemma DivBounds(x: int, d: int)
    requires 0 <= x && 0 < d
    ensures d * (x / d) <= x < d * (x / d + 1)
  {
  }

  lemma MulCancel(c: int, x: int, y: int)
    requires 0 < c && c * x < c * y
    ensures x < y
  {
  }

  /** `Math.round(a / b)` for a non-negative ratio, computed exactly: the
      nearest integer to a / b, halves rounded up. */
  function RoundedQuotient(a: nat, b: nat): (q: nat)
    requires 0 < b
    ensures 2 * b * q <= 2 * a + b < 2 * b * (q + 1)
  {
    DivBounds(2 * a + b, 2 * b);
    (2 * a + b) / (2 * b)
  }

  /** A rounded quotient stays within any bounds the exact one has. */
  lemma RoundedQuotientBetween(a: nat, b: nat, lo: int, hi: int)
    requires 0 < b && b * lo <= a <= b * hi
    ensures lo <= RoundedQuotient(a, b) <= hi
  {
    var q := RoundedQuotient(a, b);
    MulCancel(2 * b, q, hi + 1);
    MulCancel(2 * b, lo - 1, q);
  }

  /** `Math.round(a / b * 100)`. */
  function RoundedPercent(a: nat, b: nat): (p: nat)
    requires 0 < b
    ensures 2 * b * p <= 200 * a + b < 2 * b * (p + 1)
  {
    RoundedQuotient(100 * a, b)
  }

  lemma RoundedPercentMonotone(a: nat, a': nat, b: nat)
    requires a <= a' && 0 < b
    ensures RoundedPercent(a, b) <= RoundedPercent(a', b)
  {
    MulCancel(2 * b, RoundedPercent(a, b), RoundedPercent(a', b) + 1);
  }

  /** The whole is 100%, and no part exceeds it. */
  lemma RoundedPercentBounds(a: nat, b: nat)
    requires a <= b && 0 < b
    ensures RoundedPercent(a, b) <= 100
    ensures a == b ==> RoundedPercent(a, b) == 100
  {
    MulCancel(2 * b, RoundedPercent(a, b), 101);
    if a == b {
      MulCancel(2 * b, 99, RoundedPercent(a, b));
    }
  }

  /** With fewer than 200 parts a proper part never rounds up to 100%. */
  lemma RoundedPercentBelowWhole(a: nat, b: nat)
    requires a < b < 200
    ensures RoundedPercent(a, b) < 100
  {
    MulCancel(2 * b, RoundedPercent(a, b), 100);
  }

  // ---------------------------------------------------------------------
  // Numeric lists

  function Sum(s: seq<int>): int
  {
    if s == [] then 0 else Sum(s[..|s| - 1]) + s[|s| - 1]
  }

  /** `Math.min(...s)` of a non-empty list. */
  function SeqMin(s: seq<int>): (m: int)
    requires s != []
    ensures m in s && forall x :: x in s ==> m <= x
  {
    if |s| == 1 then s[0]
    else
      var m := SeqMin(s[..|s| - 1]);
      assert forall x :: x in s ==> x in s[..|s| - 1] || x == s[|s| - 1];
      if s[|s| - 1] < m then s[|s| - 1] else m
  }

  /** `Math.max(...s)` of a non-empty list. */
  function SeqMax(s: seq<int>): (m: int)
    requires s != []
    ensures m in s && forall x :: x in s ==> x <= m
  {
    if |s| == 1 then s[0]
    else
      var m := SeqMax(s[..|s| - 1]);
      assert forall x :: x in s ==> x in s[..|s| - 1] || x == s[|s| - 1];
      if s[|s| - 1] > m then s[|s| - 1] else m
  }

  lemma {:induction false} SumBounds(s: seq<int>, lo: int, hi: int)
    requires forall x :: x in s ==> lo <= x <= hi
    ensures |s| * lo <= Sum(s) <= |s| * hi
    decreases |s|
  {
    if s != [] {
      var t := s[..|s| - 1];
      assert forall x :: x in t ==> x in s;
      SumBounds(t, lo, hi);
      assert s[|s| - 1] in s && Sum(s) == Sum(t) + s[|s| - 1];
      assert |s| * lo == |t| * lo + lo && |s| * hi == |t| * hi + hi;
    }
  }

  lemma {:induction false} SumConcat(s: seq<int>, t: seq<int>)
    ensures Sum(s + t) == Sum(s) + Sum(t)
    decreases |t|
  {
    if t == [] {
      assert s + t == s;
    } else {
      var u := t[..|t| - 1];
      assert (s + t)[..|s + t| - 1] == s + u;
      SumConcat(s, u);
    }
  }

  /** Removing entry `i` removes one copy of it from the multiset. */
  lemma MultisetRemove(t: seq<int>, i: nat)
    requires i < |t|
    ensures multiset(t[..i] + t[i + 1..]) == multiset(t) - multiset{t[i]}
  {
    assert t == t[..i] + [t[i]] + t[i + 1..];
  }

  lemma SumRemove(t: seq<int>, i: nat)
    requires i < |t|
    ensures Sum(t) == Sum(t[..i] + t[i + 1..]) + t[i]
  {
    var p, b := t[..i + 1], t[i + 1..];
    assert t == p + b;
    assert p[..|p| - 1] == t[..i];
    SumConcat(p, b);
    SumConcat(t[..i], b);
  }

  /** A sum does not depend on the order of its terms. */
  lemma {:induction false} SumPermutation(s: seq<int>, t: seq<int>)
    requires multiset(s) == multiset(t)
    ensures Sum(s) == Sum(t)
    decreases |s|
  {
    if s == [] {
      assert |t| == |multiset(t)| == 0;
    } else {
      var n := |s| - 1;
      assert s[n] in multiset(t);
      var i :| 0 <= i < |t| && t[i] == s[n];
      MultisetRemove(s, n);
      MultisetRemove(t, i);
      assert s[..n] + s[n + 1..] == s[..n];
      SumPermutation(s[..n], t[..i] + t[i + 1..]);
      SumRemove(t, i);
    }
  }

  /** `q` is `Math.round` of the mean of `s`: the nearest integer to
      Sum(s) / |s|, halves rounded up. */
  predicate RoundsMean(q: int, s: seq<int>)
  {
    s != [] && 2 * |s| * q <= 2 * Sum(s) + |s| < 2 * |s| * (q + 1)
  }

  lemma RoundedMean(s: seq<int>)
    requires s != [] && Sum(s) >= 0
    ensures RoundsMean(RoundedQuotient(Sum(s), |s|), s)
  {
  }

  /** The rounded mean of a non-empty list of non-negative numbers lies
      between its minimum and its maximum. */
  lemma MeanBetween(s: seq<int>)
    requires s != [] && forall x :: x in s ==> x >= 0
    ensures Sum(s) >= 0
    ensures SeqMin(s) <= RoundedQuotient(Sum(s), |s|) <= SeqMax(s)
  {
    SumBounds(s, SeqMin(s), SeqMax(s));
    SumBounds(s, 0, SeqMax(s));
    RoundedQuotientBetween(Sum(s), |s|, SeqMin(s), SeqMax(s));
  }

  // ---------------------------------------------------------------------
  // Characters

  /** The characters `String.prototype.trim` removes and `\s` matches:
      ECMAScript WhiteSpace and LineTerminator. */
  predicate IsSpace(c: char)
  {
    c == '\t' || c == '\n' || c == '\U{000B}' || c == '\U{000C}' || c == '\r' || c == ' ' ||
    c == '\U{00A0}' || c == '\U{1680}' || ('\U{2000}' <= c <= '\U{200A}') ||
    c == '\U{2028}' || c == '\U{2029}' || c == '\U{202F}' || c == '\U{205F}' ||
    c == '\U{3000}' || c == '\U{FEFF}'
  }

  /** What the regular-expression class `\d` matches. */
  predicate IsDigit(c: char) { '0' <= c <= '9' }

  function LowerChar(c: char): char
  {
    if 'A' <= c <= 'Z' then (c as int + 32) as char else c
  }

  /** `toLowerCase`, restricted to ASCII letters. */
  function Lower(s: string): (r: string)
    ensures |r| == |s|
  {
    seq(|s|, i requires 0 <= i < |s| => LowerChar(s[i]))
  }

  lemma LowerIdempotent(s: string)
    ensures Lower(Lower(s)) == Lower(s)
  {
  }

  // ---------------------------------------------------------------------
  // Trimming

  predicate Blank(s: string) { forall i :: 0 <= i < |s| ==> IsSpace(s[i]) }

  /** Number of white-space characters at the start of `s`. */
  function LeadingSpaces(s: string): (n: nat)
    ensures n <= |s|
  {
    if s != [] && IsSpace(s[0]) then 1 + LeadingSpaces(s[1..]) else 0
  }

  /** Number of white-space characters at the end of `s`. */
  function TrailingSpaces(s: string): (n: nat)
    ensures n <= |s|
  {
    if s != [] && IsSpace(s[|s| - 1]) then 1 + TrailingSpaces(s[..|s| - 1]) else 0
  }

  lemma {:induction false} LeadingSpacesFacts(s: string)
    ensures Blank(s[..LeadingSpaces(s)])
    ensures LeadingSpaces(s) == |s| || !IsSpace(s[LeadingSpaces(s)])
    decreases |s|
  {
    if s != [] && IsSpace(s[0]) {
      LeadingSpacesFacts(s[1..]);
      var n := LeadingSpaces(s[1..]);
      var blank, rest := s[..n + 1], s[1..][..n];
      forall i | 0 <= i < |blank| ensures IsSpace(blank[i]) {
        if i > 0 {
          assert blank[i] == rest[i - 1];
        }
      }
    }
  }

  lemma {:induction false} TrailingSpacesFacts(s: string)
    ensures Blank(s[|s| - TrailingSpaces(s)..])
    ensures TrailingSpaces(s) == |s| || !IsSpace(s[|s| - TrailingSpaces(s) - 1])
    decreases |s|
  {
    if s != [] && IsSpace(s[|s| - 1]) {
      var p := s[..|s| - 1];
      TrailingSpacesFacts(p);
      var n := TrailingSpaces(p);
      var blank, rest := s[|s| - (n + 1)..], p[|p| - n..];
      forall i | 0 <= i < |blank| ensures IsSpace(blank[i]) {
        if i < n {
          assert blank[i] == rest[i];
        }
      }
    }
  }

  function TrimStart(s: string): string { s[LeadingSpaces(s)..] }

  function TrimEnd(s: string): string { s[..|s| - TrailingSpaces(s)] }

  /** `String.prototype.trim`. */
  function Trim(s: string): string { TrimEnd(TrimStart(s)) }

  /** `!s.trim()`: a string is empty after trimming exactly when it is blank. */
  lemma TrimEmptyIffBlank(s: string)
    ensures Trim(s) == "" <==> Blank(s)
  {
    var a := LeadingSpaces(s);
    var t := TrimStart(s);
    LeadingSpacesFacts(s);
    TrailingSpacesFacts(t);
    if a < |s| {
      assert !IsSpace(s[a]);
    }
    if Trim(s) == "" {
      assert t[|t| - TrailingSpaces(t)..] == t;
      assert s == s[..a] + t;
    }
  }

  /** A trimmed string has no white space at either end. */
  predicate Trimmed(s: string) { s == [] || (!IsSpace(s[0]) && !IsSpace(s[|s| - 1])) }

  lemma TrimIsTrimmed(s: string)
    ensures Trimmed(Trim(s))
  {
    var a := LeadingSpaces(s);
    var t := TrimStart(s);
    var r := TrimEnd(t);
    LeadingSpacesFacts(s);
    TrailingSpacesFacts(t);
    if r != [] {
      assert r[0] == t[0] == s[a];
      assert r[|r| - 1] == t[|t| - TrailingSpaces(t) - 1];
    }
  }

  // ---------------------------------------------------------------------
  // Substrings

  /** `s.includes(sub)`. */
  predicate Contains(s: string, sub: string)
    decreases |s|
  {
    sub <= s || (|s| > 0 && Contains(s[1..], sub))
  }

  /** An occurrence at any position is found. */
  lemma {:induction false} ContainsAt(s: string, sub: string, i: nat)
    requires i <= |s| && sub <= s[i..]
    ensures Contains(s, sub)
    decreases i
  {
    if i > 0 {
      assert s[1..][i - 1..] == s[i..];
      ContainsAt(s[1..], sub, i - 1);
    }
  }

  /** What is found occurs at some position. */
  lemma {:induction false} ContainsOccurs(s: string, sub: string)
    requires Contains(s, sub)
    ensures exists i :: 0 <= i <= |s| && sub <= s[i..]
    decreases |s|
  {
    if sub <= s {
      assert s[0..] == s;
    } else {
      ContainsOccurs(s[1..], sub);
      var i :| 0 <= i <= |s[1..]| && sub <= s[1..][i..];
      assert s[1..][i..] == s[i + 1..];
    }
  }

  /** `s.toLowerCase().includes(sub.toLowerCase())`. */
  predicate ContainsIgnoringCase(s: string, sub: string)
  {
    Contains(Lower(s), Lower(sub))
  }

  // ---------------------------------------------------------------------
  // Lists

  function Filter<T(!new)>(s: seq<T>, p: T -> bool): (r: seq<T>)
    ensures |r| <= |s|
    ensures forall x :: x in r <==> x in s && p(x)
  {
    if s == [] then [] else (if p(s[0]) then [s[0]] else []) + Filter(s[1..], p)
  }

  /** `r` keeps some elements of `s` in their original order. */
  predicate IsSubsequence<T(==)>(r: seq<T>, s: seq<T>)
    decreases |s|
  {
    r == [] || (s != [] && ((r[0] == s[0] && IsSubsequence(r[1..], s[1..])) || IsSubsequence(r, s[1..])))
  }

  lemma {:induction false} FilterIsSubsequence<T(!new)>(s: seq<T>, p: T -> bool)
    ensures IsSubsequence(Filter(s, p), s)
    decreases |s|
  {
    if s != [] {
      FilterIsSubsequence(s[1..], p);
      var r := Filter(s, p);
      if p(s[0]) {
        assert r[0] == s[0] && r[1..] == Filter(s[1..], p);
      } else {
        assert r == Filter(s[1..], p);
      }
    }
  }

  lemma {:induction false} FilterConcat<T(!new)>(a: seq<T>, b: seq<T>, p: T -> bool)
    ensures Filter(a + b, p) == Filter(a, p) + Filter(b, p)
    decreases |a|
  {
    if a != [] {
      assert (a + b)[1..] == a[1..] + b;
      FilterConcat(a[1..], b, p);
    } else {
      assert a + b == b;
    }
  }

  lemma {:induction false} FilterAll<T(!new)>(s: seq<T>, p: T -> bool)
    requires forall x :: x in s ==> p(x)
    ensures Filter(s, p) == s
    decreases |s|
  {
    if s != [] {
      FilterAll(s[1..], p);
    }
  }

  lemma {:induction false} FilterNone<T(!new)>(s: seq<T>, p: T -> bool)
    requires forall x :: x in s ==> !p(x)
    ensures Filter(s, p) == []
    decreases |s|
  {
    if s != [] {
      FilterNone(s[1..], p);
    }
  }

  /** Two filters in a row keep what their conjunction keeps. */
  lemma {:induction false} FilterFilter<T(!new)>(s: seq<T>, p: T -> bool, q: T -> bool, pq: T -> bool)
    requires forall x :: pq(x) == (p(x) && q(x))
    ensures Filter(Filter(s, p), q) == Filter(s, pq)
    decreases |s|
  {
    if s != [] {
      FilterFilter(s[1..], p, q, pq);
      FilterConcat(if p(s[0]) then [s[0]] else [], Filter(s[1..], p), q);
    }
  }

  /** Filtering commutes with permutation: it depends only on the multiset. */
  lemma {:induction false} FilterPermutation<T(!new)>(s: seq<T>, t: seq<T>, p: T -> bool)
    requires multiset(s) == multiset(t)
    ensures multiset(Filter(s, p)) == multiset(Filter(t, p))
    decreases |s|
  {
    if s == [] {
      assert t == [];
    } else {
      var x := s[0];
      assert x in multiset(t);
      var j :| 0 <= j < |t| && t[j] == x;
      var t' := t[..j] + t[j + 1..];
      assert t == t[..j] + [x] + t[j + 1..];
      assert multiset(t') == multiset(t) - multiset{x};
      assert s == [x] + s[1..];
      assert multiset(s[1..]) == multiset(t');
      FilterPermutation(s[1..], t', p);
      FilterConcat(t[..j] + [x], t[j + 1..], p);
      FilterConcat(t[..j], [x], p);
      FilterConcat(t[..j], t[j + 1..], p);
      FilterConcat([x], s[1..], p);
    }
  }

  /** The list toggle used for interests and preferences: remove every copy of
      `x` if present, otherwise append it at the end. */
  function Toggle(l: seq<string>, x: string): seq<string>
  {
    if x in l then Filter(l, y => y != x) else l + [x]
  }

  lemma ToggleFlips(l: seq<string>, x: string)
    ensures x in Toggle(l, x) <==> x !in l
    ensures forall y :: y != x ==> (y in Toggle(l, x) <==> y in l)
  {
  }

  /** Toggling an absent entry twice gives back the original list. */
  lemma ToggleTwice(l: seq<string>, x: string)
    requires x !in l
    ensures Toggle(Toggle(l, x), x) == l
  {
    var p := (y: string) => y != x;
    FilterConcat(l, [x], p);
    FilterAll(l, p);
  }

  // ---------------------------------------------------------------------
  // Splitting and joining on a separator character

  /** `parts.join(d)`. */
  function Join(parts: seq<string>, d: char): string
  {
    if parts == [] then ""
    else if |parts| == 1 then parts[0]
    else Join(parts[..|parts| - 1], d) + [d] + parts[|parts| - 1]
  }

  lemma JoinExtendLast(parts: seq<string>, last: string, c: char, d: char)
    ensures Join(parts + [last + [c]], d) == Join(parts + [last], d) + [c]
  {
    var a := parts + [last + [c]];
    var b := parts + [last];
    if parts != [] {
      assert a[..|a| - 1] == parts == b[..|b| - 1];
    }
  }

  lemma JoinNewPart(parts: seq<string>, last: string, d: char)
    ensures Join(parts + [last] + [""], d) == Join(parts + [last], d) + [d]
  {
    var a := parts + [last] + [""];
    assert a[..|a| - 1] == parts + [last];
  }

  /** `s.split(d)`, defined on prefixes: the finished parts and the open one. */
  function SplitRun(s: string, d: char): (seq<string>, string)
  {
    if s == [] then ([], "")
    else
      var (done, cur) := SplitRun(s[..|s| - 1], d);
      if s[|s| - 1] == d then (done + [cur], "") else (done, cur + [s[|s| - 1]])
  }

  function Split(s: string, d: char): (r: seq<string>)
    ensures |r| >= 1
  {
    SplitRun(s, d).0 + [SplitRun(s, d).1]
  }

  lemma {:induction false} SplitRunJoin(s: string, d: char)
    ensures Join(Split(s, d), d) == s
    ensures forall part :: part in Split(s, d) ==> d !in part
    decreases |s|
  {
    if s != [] {
      var p := s[..|s| - 1];
      SplitRunJoin(p, d);
      var (done, cur) := SplitRun(p, d);
      if s[|s| - 1] == d {
        JoinNewPart(done, cur, d);
      } else {
        JoinExtendLast(done, cur, s[|s| - 1], d);
      }
      assert s == p + [s[|s| - 1]];
    }
  }
}
