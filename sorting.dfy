/** A model of JavaScript's `Array.prototype.sort`, which has been stable since
    ECMAScript 2019. A comparator `cmp` is given as the relation
    `le(a, b) == (cmp(a, b) <= 0)`; a consistent comparator makes `le` a total
    preorder, and for a total preorder a stable sort has exactly one outcome,
    which the stable insertion sort `SortBy` computes.

    The bare `array.sort()` on strings compares UTF-16 code units; that order
    is `CodeUnitLe`. */
module Sorting {
  import opened Seqs

  /** `le` is total and transitive (so also reflexive). */
  ghost predicate TotalPreorder<T(!new)>(le: (T, T) -> bool) {
    && (forall x, y :: le(x, y) || le(y, x))
    && (forall x, y, z :: le(x, y) && le(y, z) ==> le(x, z))
  }

  /** Every element is `le` every later one. */
  predicate SortedBy<T>(le: (T, T) -> bool, s: seq<T>) {
    forall i, j :: 0 <= i < j < |s| ==> le(s[i], s[j])
  }

  /** Puts `x` in front of the first element of `s` that it is `le`. */
  function Insert<T>(x: T, s: seq<T>, le: (T, T) -> bool): (r: seq<T>)
    ensures |r| == |s| + 1
    ensures multiset(r) == multiset(s) + multiset{x}
  {
    if |s| == 0 then [x]
    else if le(x, s[0]) then [x] + s
    else
      assert s == [s[0]] + s[1..];
      [s[0]] + Insert(x, s[1..], le)
  }

  /** The stable sort of `s` under `le`. */
  function SortBy<T>(s: seq<T>, le: (T, T) -> bool): (r: seq<T>)
    ensures |r| == |s|
    ensures multiset(r) == multiset(s)
  {
    if |s| == 0 then []
    else
      assert s == [s[0]] + s[1..];
      Insert(s[0], SortBy(s[1..], le), le)
  }

  lemma {:induction false} InsertSorted<T(!new)>(x: T, s: seq<T>, le: (T, T) -> bool)
    requires TotalPreorder(le)
    requires SortedBy(le, s)
    ensures SortedBy(le, Insert(x, s, le))
  {
    if |s| > 0 && !le(x, s[0]) {
      var t := Insert(x, s[1..], le);
      InsertSorted(x, s[1..], le);
      forall y | y in t
        ensures le(s[0], y)
      {
        assert y in multiset(t);
        if y != x {
          assert y in multiset(s[1..]);
          var j :| 0 <= j < |s[1..]| && s[1..][j] == y;
          assert s[j + 1] == y;
        }
      }
      var r := [s[0]] + t;
      assert Insert(x, s, le) == r;
      forall i, j | 0 <= i < j < |r|
        ensures le(r[i], r[j])
      {
        if i > 0 {
          assert r[i] == t[i - 1] && r[j] == t[j - 1];
        } else {
          assert r[j] == t[j - 1] && r[j] in t;
        }
      }
    }
  }

  /** `SortBy` sorts when the comparator is consistent. */
  lemma {:induction false} SortBySorted<T(!new)>(s: seq<T>, le: (T, T) -> bool)
    requires TotalPreorder(le)
    ensures SortedBy(le, SortBy(s, le))
  {
    if |s| > 0 {
      SortBySorted(s[1..], le);
      InsertSorted(s[0], SortBy(s[1..], le), le);
    }
  }

  /** The elements that `le` cannot tell apart from `k`. */
  function EquivalentTo<T>(le: (T, T) -> bool, k: T): T -> bool {
    y => le(k, y) && le(y, k)
  }

  /** Two elements that `le` orders strictly cannot both be equivalent to `k`. */
  lemma NotBothEquivalent<T(!new)>(le: (T, T) -> bool, k: T, x: T, y: T)
    requires TotalPreorder(le)
    requires !le(x, y)
    ensures !(EquivalentTo(le, k)(x) && EquivalentTo(le, k)(y))
  {
  }

  /** Swapping two neighbours that are not both kept leaves a filter unchanged. */
  lemma {:induction false} FilterSwap<T(!new)>(p: T -> bool, a: T, b: T, rest: seq<T>)
    requires !(p(a) && p(b))
    ensures Filter(p, [a] + ([b] + rest)) == Filter(p, [b] + ([a] + rest))
  {
    assert ([a] + ([b] + rest))[1..] == [b] + rest;
    assert ([b] + ([a] + rest))[1..] == [a] + rest;
    assert ([b] + rest)[1..] == rest;
    assert ([a] + rest)[1..] == rest;
  }

  lemma {:induction false} InsertKeepsEquivalentOrder<T(!new)>(x: T, t: seq<T>, le: (T, T) -> bool, k: T)
    requires TotalPreorder(le)
    ensures Filter(EquivalentTo(le, k), Insert(x, t, le)) == Filter(EquivalentTo(le, k), [x] + t)
  {
    var p := EquivalentTo(le, k);
    if |t| > 0 && !le(x, t[0]) {
      var rest := Insert(x, t[1..], le);
      InsertKeepsEquivalentOrder(x, t[1..], le, k);
      NotBothEquivalent(le, k, x, t[0]);
      calc {
        Filter(p, Insert(x, t, le));
        Filter(p, [t[0]] + rest);
        { FilterAppend(p, [t[0]], rest); }
        Filter(p, [t[0]]) + Filter(p, rest);
        Filter(p, [t[0]]) + Filter(p, [x] + t[1..]);
        { FilterAppend(p, [t[0]], [x] + t[1..]); }
        Filter(p, [t[0]] + ([x] + t[1..]));
        { FilterSwap(p, t[0], x, t[1..]); }
        Filter(p, [x] + ([t[0]] + t[1..]));
        { assert [t[0]] + t[1..] == t; }
        Filter(p, [x] + t);
      }
    }
  }

  /** Stability: the elements equivalent to any `k` keep their relative order. */
  lemma {:induction false} SortByStable<T(!new)>(s: seq<T>, le: (T, T) -> bool, k: T)
    requires TotalPreorder(le)
    ensures Filter(EquivalentTo(le, k), SortBy(s, le)) == Filter(EquivalentTo(le, k), s)
  {
    if |s| > 0 {
      var p := EquivalentTo(le, k);
      var sorted := SortBy(s[1..], le);
      calc {
        Filter(p, SortBy(s, le));
        Filter(p, Insert(s[0], sorted, le));
        { InsertKeepsEquivalentOrder(s[0], sorted, le, k); }
        Filter(p, [s[0]] + sorted);
        { FilterAppend(p, [s[0]], sorted); }
        Filter(p, [s[0]]) + Filter(p, sorted);
        { SortByStable(s[1..], le, k); }
        Filter(p, [s[0]]) + Filter(p, s[1..]);
        { FilterAppend(p, [s[0]], s[1..]); }
        Filter(p, [s[0]] + s[1..]);
        { assert [s[0]] + s[1..] == s; }
        Filter(p, s);
      }
    }
  }

  lemma {:induction false} InsertIntoTwoClasses<T(!new)>(x: T, a: seq<T>, b: seq<T>, le: (T, T) -> bool, c: T -> bool)
    requires forall u, v :: le(u, v) <==> c(u) || !c(v)
    requires forall u :: u in a ==> c(u)
    requires forall v :: v in b ==> !c(v)
    ensures Insert(x, a + b, le) == if c(x) then [x] + a + b else a + [x] + b
  {
    if |a| == 0 {
      assert a + b == b;
    } else if !c(x) {
      assert (a + b)[0] == a[0] && (a + b)[1..] == a[1..] + b;
      InsertIntoTwoClasses(x, a[1..], b, le, c);
      assert a == [a[0]] + a[1..];
    }
  }

  lemma PartitionCons<T(!new)>(x: T, t: seq<T>, c: T -> bool, d: T -> bool)
    requires forall u :: d(u) <==> !c(u)
    ensures Filter(c, [x] + t) + Filter(d, [x] + t)
         == if c(x) then [x] + Filter(c, t) + Filter(d, t) else Filter(c, t) + [x] + Filter(d, t)
  {
    var a, b := Filter(c, t), Filter(d, t);
    FilterAppend(c, [x], t);
    FilterAppend(d, [x], t);
    FilterSingleton(c, x);
    FilterSingleton(d, x);
    if c(x) {
      assert Filter(c, [x] + t) == [x] + a;
      assert Filter(d, [x] + t) == [] + b == b;
    } else {
      assert Filter(c, [x] + t) == [] + a == a;
      assert Filter(d, [x] + t) == [x] + b;
      assert a + ([x] + b) == a + [x] + b;
    }
  }

  lemma {:induction false} SortByPartition<T(!new)>(s: seq<T>, le: (T, T) -> bool, c: T -> bool, d: T -> bool)
    requires forall u, v :: le(u, v) <==> c(u) || !c(v)
    requires forall u :: d(u) <==> !c(u)
    ensures SortBy(s, le) == Filter(c, s) + Filter(d, s)
  {
    if |s| > 0 {
      var x, t := s[0], s[1..];
      assert s == [x] + t;
      var a, b := Filter(c, t), Filter(d, t);
      assert SortBy(s, le) == Insert(x, SortBy(t, le), le);
      SortByPartition(t, le, c, d);
      InsertIntoTwoClasses(x, a, b, le, c);
      PartitionCons(x, t, c, d);
    }
  }

  /** A stable sort under "members of `c` first" is the stable partition of
      `s` into the members of `c` followed by the others. */
  lemma SortByTwoClasses<T(!new)>(s: seq<T>, le: (T, T) -> bool, c: T -> bool)
    requires forall u, v :: le(u, v) <==> c(u) || !c(v)
    ensures SortBy(s, le) == Filter(c, s) + Filter(Not(c), s)
  {
    SortByPartition(s, le, c, Not(c));
  }

  /** A subsequence chosen by `Filter` of a sorted sequence is sorted. */
  lemma {:induction false} FilterSorted<T(!new)>(p: T -> bool, s: seq<T>, le: (T, T) -> bool)
    requires SortedBy(le, s)
    ensures SortedBy(le, Filter(p, s))
  {
    if |s| > 0 {
      FilterSorted(p, s[1..], le);
      var t := Filter(p, s[1..]);
      assert forall y :: y in t ==> le(s[0], y) by {
        forall y | y in t ensures le(s[0], y) {
          var j :| 0 <= j < |s[1..]| && s[1..][j] == y;
          assert s[j + 1] == y;
        }
      }
      if p(s[0]) {
        var r := [s[0]] + t;
        forall i, j | 0 <= i < j < |r| ensures le(r[i], r[j]) {
          if i > 0 {
            assert r[i] == t[i - 1] && r[j] == t[j - 1];
          } else {
            assert r[j] in t;
          }
        }
      }
    }
  }

  // ---------------------------------------------------------------------------
  // UTF-16 code-unit order, the default order of `array.sort()` on strings.

  /** The UTF-16 code units that encode one character. */
  function CodeUnits(c: char): (units: seq<int>)
    ensures |units| == 1 || |units| == 2
    ensures forall u :: u in units ==> 0 <= u < 0x1_0000
  {
    var n := c as int;
    if n < 0x1_0000 then [n]
    else [0xD800 + (n - 0x1_0000) / 0x400, 0xDC00 + (n - 0x1_0000) % 0x400]
  }

  /** The UTF-16 encoding of a string. */
  function Utf16(s: string): seq<int> {
    if |s| == 0 then [] else CodeUnits(s[0]) + Utf16(s[1..])
  }

  /** Lexicographic order on code-unit sequences: a proper prefix comes first. */
  predicate LexLe(a: seq<int>, b: seq<int>) {
    |a| == 0 || (|b| > 0 && (a[0] < b[0] || (a[0] == b[0] && LexLe(a[1..], b[1..]))))
  }

  /** `a <= b` for JavaScript strings. */
  predicate CodeUnitLe(a: string, b: string) {
    LexLe(Utf16(a), Utf16(b))
  }

  lemma {:induction false} LexLeTotal(a: seq<int>, b: seq<int>)
    ensures LexLe(a, b) || LexLe(b, a)
  {
    if |a| > 0 && |b| > 0 && a[0] == b[0] {
      LexLeTotal(a[1..], b[1..]);
    }
  }

  lemma {:induction false} LexLeTransitive(a: seq<int>, b: seq<int>, c: seq<int>)
    requires LexLe(a, b) && LexLe(b, c)
    ensures LexLe(a, c)
  {
    if |a| > 0 && a[0] == b[0] && b[0] == c[0] {
      LexLeTransitive(a[1..], b[1..], c[1..]);
    }
  }

  /** The default string order is a total preorder, so `SortBy` sorts under it. */
  lemma CodeUnitOrderIsTotalPreorder()
    ensures TotalPreorder(CodeUnitLe)
  {
    forall x, y
      ensures CodeUnitLe(x, y) || CodeUnitLe(y, x)
    {
      LexLeTotal(Utf16(x), Utf16(y));
    }
    forall x, y, z | CodeUnitLe(x, y) && CodeUnitLe(y, z)
      ensures CodeUnitLe(x, z)
    {
      LexLeTransitive(Utf16(x), Utf16(y), Utf16(z));
    }
  }
}
