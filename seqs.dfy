/** Sequence operations that the application takes from JavaScript's `Array`:
    `filter`, `join`, `includes`, and the first-occurrence de-duplication that
    the shopping-list merge performs with `findIndex`. */
module Seqs {

  /** `s.filter(p)`: the elements of `s` that satisfy `p`, in their order. */
  function Filter<T(!new)>(p: T -> bool, s: seq<T>): (r: seq<T>)
    ensures |r| <= |s|
    ensures forall x :: x in r <==> x in s && p(x)
  {
    if |s| == 0 then []
    else
      assert s == [s[0]] + s[1..];
      (if p(s[0]) then [s[0]] else []) + Filter(p, s[1..])
  }

  /** The complement of a predicate, as a value that can be passed around. */
  function Not<T>(p: T -> bool): T -> bool {
    x => !p(x)
  }

  lemma {:induction false} FilterAppend<T(!new)>(p: T -> bool, a: seq<T>, b: seq<T>)
    ensures Filter(p, a + b) == Filter(p, a) + Filter(p, b)
  {
    if |a| == 0 {
      assert a + b == b;
    } else {
      assert (a + b)[1..] == a[1..] + b;
      FilterAppend(p, a[1..], b);
    }
  }

  lemma FilterSingleton<T(!new)>(p: T -> bool, x: T)
    ensures Filter(p, [x]) == if p(x) then [x] else []
  {
    assert [x][1..] == [];
  }

  lemma FilterSnoc<T(!new)>(p: T -> bool, s: seq<T>, x: T)
    ensures Filter(p, s + [x]) == if p(x) then Filter(p, s) + [x] else Filter(p, s)
  {
    FilterAppend(p, s, [x]);
    FilterSingleton(p, x);
    assert Filter(p, s) + [] == Filter(p, s);
  }

  lemma {:induction false} FilterAll<T(!new)>(p: T -> bool, s: seq<T>)
    requires forall x :: x in s ==> p(x)
    ensures Filter(p, s) == s
  {
    if |s| > 0 {
      FilterAll(p, s[1..]);
    }
  }

  lemma {:induction false} FilterNone<T(!new)>(p: T -> bool, s: seq<T>)
    requires forall x :: x in s ==> !p(x)
    ensures Filter(p, s) == []
  {
    if |s| > 0 {
      FilterNone(p, s[1..]);
    }
  }

  /** In a sequence of class members followed by non-members, every member
      comes before every non-member. */
  lemma ClassFirst<T>(c: T -> bool, a: seq<T>, b: seq<T>)
    requires forall x :: x in a ==> c(x)
    requires forall x :: x in b ==> !c(x)
    ensures forall i, j :: 0 <= i < j < |a + b| && c((a + b)[j]) ==> c((a + b)[i])
  {
    forall j | |a| <= j < |a + b|
      ensures !c((a + b)[j])
    {
      assert (a + b)[j] == b[j - |a|] && b[j - |a|] in b;
    }
    forall i | 0 <= i < |a|
      ensures c((a + b)[i])
    {
      assert (a + b)[i] == a[i] && a[i] in a;
    }
  }

  /** The members of one class followed by those of the other: each class
      filters back out unchanged, and every member of the first class comes
      before every member of the second. */
  lemma ClassesConcat<T(!new)>(c: T -> bool, s: seq<T>)
    ensures var a, b := Filter(c, s), Filter(Not(c), s);
      && Filter(c, a + b) == a
      && Filter(Not(c), a + b) == b
      && forall i, j :: 0 <= i < j < |a + b| && c((a + b)[j]) ==> c((a + b)[i])
  {
    var a, b := Filter(c, s), Filter(Not(c), s);
    FilterAppend(c, a, b);
    FilterAppend(Not(c), a, b);
    FilterAll(c, a);
    FilterNone(c, b);
    assert forall x :: x in a ==> !Not(c)(x);
    FilterNone(Not(c), a);
    assert forall x :: x in b ==> Not(c)(x);
    FilterAll(Not(c), b);
    ClassFirst(c, a, b);
  }

  /** `n` copies of `x`. */
  function Repeat<T(!new)>(x: T, n: nat): (r: seq<T>)
    ensures |r| == n
    ensures forall y :: y in r <==> n > 0 && y == x
  {
    var r := seq(n, _ => x);
    assert n > 0 ==> r[0] == x;
    r
  }

  lemma RepeatSnoc<T(!new)>(x: T, n: nat)
    ensures Repeat(x, n + 1) == Repeat(x, n) + [x]
  {
  }

  /** A prefix one longer is the prefix with the next element appended. */
  lemma TakeSnoc<T>(s: seq<T>, j: nat)
    requires j < |s|
    ensures s[..j + 1] == s[..j] + [s[j]]
  {
  }

  /** Appending to a concatenation appends to its second part. */
  lemma ConcatSnoc<T>(a: seq<T>, b: seq<T>, x: T)
    ensures (a + b) + [x] == a + (b + [x])
  {
  }

  /** Every element of `s` is different from every other one. */
  predicate Distinct<T(==)>(s: seq<T>) {
    forall i, j :: 0 <= i < j < |s| ==> s[i] != s[j]
  }

  /** `a.join(sep)` over strings: the parts with `sep` between neighbours. */
  function Join(parts: seq<string>, sep: string): string {
    if |parts| == 0 then ""
    else if |parts| == 1 then parts[0]
    else parts[0] + sep + Join(parts[1..], sep)
  }

  /** Joining one more part adds the separator and the part. */
  lemma {:induction false} JoinSnoc(parts: seq<string>, last: string, sep: string)
    ensures Join(parts + [last], sep) == if |parts| == 0 then last else Join(parts, sep) + sep + last
  {
    if |parts| == 1 {
      assert (parts + [last])[1..] == [last];
    } else if |parts| > 1 {
      assert (parts + [last])[1..] == parts[1..] + [last];
      JoinSnoc(parts[1..], last, sep);
    }
  }

  /** The index of the first occurrence of `x` in `s` (`s.indexOf(x)`). */
  function FirstIndex<T(==)>(s: seq<T>, x: T): (k: nat)
    requires x in s
    ensures k < |s| && s[k] == x && x !in s[..k]
  {
    if s[0] == x then 0
    else
      var k := FirstIndex(s[1..], x);
      assert s[..k + 1] == [s[0]] + s[1..][..k];
      k + 1
  }

  /** The distinct elements of `s`, each at the place of its first occurrence. */
  function Dedup<T(==,!new)>(s: seq<T>): (r: seq<T>)
    ensures forall x :: x in r <==> x in s
    ensures Distinct(r)
  {
    if |s| == 0 then []
    else
      var init := s[..|s| - 1];
      var d := Dedup(init);
      assert forall x :: x in s <==> x in init || x == s[|s| - 1] by {
        assert s == init + [s[|s| - 1]];
      }
      if s[|s| - 1] in init then d else d + [s[|s| - 1]]
  }

  /** De-duplicating a longer sequence only adds elements after the ones that
      its prefix already produced. */
  lemma {:induction false} DedupPrefix<T(!new)>(a: seq<T>, b: seq<T>)
    ensures |Dedup(a)| <= |Dedup(a + b)|
    ensures Dedup(a + b)[..|Dedup(a)|] == Dedup(a)
    decreases |b|
  {
    if |b| == 0 {
      assert a + b == a;
    } else {
      var c := a + b[..|b| - 1];
      DedupPrefix(a, b[..|b| - 1]);
      assert a + b == c + [b[|b| - 1]];
      assert (a + b)[..|a + b| - 1] == c;
    }
  }

  /** What de-duplication adds for a suffix is only what the suffix brings
      and the prefix lacks. */
  lemma DedupSuffix<T(!new)>(a: seq<T>, b: seq<T>)
    ensures |Dedup(a)| <= |Dedup(a + b)|
    ensures forall k :: |Dedup(a)| <= k < |Dedup(a + b)| ==>
      Dedup(a + b)[k] !in a && Dedup(a + b)[k] in b
  {
    DedupPrefix(a, b);
    var d, n := Dedup(a + b), |Dedup(a)|;
    forall k | n <= k < |d|
      ensures d[k] !in a && d[k] in b
    {
      assert forall i :: 0 <= i < n ==> d[..n][i] != d[k];
      assert d[k] !in Dedup(a);
      assert d[k] in a + b;
    }
  }

  /** The elements of `Dedup(s)` appear in the order of their first occurrence
      in `s`. */
  lemma {:induction false} DedupFirstOccurrenceOrder<T(!new)>(s: seq<T>)
    ensures forall i, j :: 0 <= i < j < |Dedup(s)| ==>
      FirstIndex(s, Dedup(s)[i]) < FirstIndex(s, Dedup(s)[j])
  {
    if |s| > 0 {
      var init := s[..|s| - 1];
      var x := s[|s| - 1];
      DedupFirstOccurrenceOrder(init);
      assert s == init + [x];
      var d := Dedup(s);
      forall y | y in init
        ensures FirstIndex(s, y) == FirstIndex(init, y)
      {
        FirstIndexPrefix(init, [x], y);
      }
      var d0 := Dedup(init);
      if x !in init {
        assert d == d0 + [x];
        assert FirstIndex(s, x) == |s| - 1;
        forall i, j | 0 <= i < j < |d|
          ensures FirstIndex(s, d[i]) < FirstIndex(s, d[j])
        {
          assert d[i] == d0[i] && d0[i] in init;
          if j < |d| - 1 {
            assert d[j] == d0[j] && d0[j] in init;
          }
        }
      } else {
        assert d == d0;
        forall i, j | 0 <= i < j < |d|
          ensures FirstIndex(s, d[i]) < FirstIndex(s, d[j])
        {
          assert d0[i] in init && d0[j] in init;
        }
      }
    }
  }

  lemma {:induction false} FirstIndexPrefix<T>(a: seq<T>, b: seq<T>, x: T)
    requires x in a
    ensures FirstIndex(a + b, x) == FirstIndex(a, x)
  {
    if a[0] != x {
      assert (a + b)[1..] == a[1..] + b;
      FirstIndexPrefix(a[1..], b, x);
    }
  }
}
