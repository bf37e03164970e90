/** Generic list operations behind the source's `filter`, summing `reduce` and `new Set`. */
module Seqs {
  import opened Wrappers

  /** The elements of `s` that satisfy `p`, in their original order (`Array.prototype.filter`). */
  function Filter<T(!new)>(s: seq<T>, p: T -> bool): (r: seq<T>)
    ensures |r| <= |s|
    ensures forall x :: x in r <==> x in s && p(x)
  {
    if s == [] then [] else (if p(s[0]) then [s[0]] else []) + Filter(s[1..], p)
  }

  /** The sum of `f` over the elements of `s`, added left to right (a summing `reduce` starting at 0). */
  function SumBy<T>(s: seq<T>, f: T -> int): int
  {
    if s == [] then 0 else SumBy(s[..|s| - 1], f) + f(s[|s| - 1])
  }

  /** True when no value occurs twice in `s`. */
  predicate Distinct<T(==)>(s: seq<T>)
  {
    forall i, j :: 0 <= i < j < |s| ==> s[i] != s[j]
  }

  /** The values of `s` with later repetitions dropped, in order of first occurrence (`Array.from(new Set(s))`). */
  function Dedup<T(==,!new)>(s: seq<T>): (r: seq<T>)
    ensures Distinct(r)
    ensures |r| <= |s|
    ensures forall x :: x in r <==> x in s
  {
    if s == [] then []
    else
      var d := Dedup(s[..|s| - 1]);
      assert forall x :: x in s <==> x in s[..|s| - 1] || x == s[|s| - 1];
      if s[|s| - 1] in d then d else d + [s[|s| - 1]]
  }

  /** The first element of `s` that satisfies `p`, if any (`Array.prototype.find`). */
  function Find<T>(s: seq<T>, p: T -> bool): (r: Option<T>)
    ensures r.None? <==> forall i :: 0 <= i < |s| ==> !p(s[i])
    ensures r.Some? ==> exists i :: 0 <= i < |s| && s[i] == r.value && p(s[i]) && forall j :: 0 <= j < i ==> !p(s[j])
  {
    if s == [] then None
    else if p(s[0]) then Some(s[0])
    else
      var r := Find(s[1..], p);
      assert forall i :: 1 <= i < |s| ==> s[i] == s[1..][i - 1];
      r
  }

  /** The first element a filter keeps is the first element that passes the test. */
  lemma {:induction false} FilterFirst<T(!new)>(s: seq<T>, p: T -> bool, i: int)
    requires 0 <= i < |s| && p(s[i])
    requires forall j :: 0 <= j < i ==> !p(s[j])
    ensures Filter(s, p) != [] && Filter(s, p)[0] == s[i]
  {
    if i > 0 {
      FilterFirst(s[1..], p, i - 1);
    }
  }

  /** Filtering distributes over concatenation: the relative order of kept elements never changes. */
  lemma {:induction false} FilterAppend<T(!new)>(a: seq<T>, b: seq<T>, p: T -> bool)
    ensures Filter(a + b, p) == Filter(a, p) + Filter(b, p)
  {
    if a == [] {
      assert a + b == b;
    } else {
      assert (a + b)[1..] == a[1..] + b;
      FilterAppend(a[1..], b, p);
    }
  }

  /** A list whose every element passes the test is its own filter. */
  lemma {:induction false} FilterAll<T(!new)>(s: seq<T>, p: T -> bool)
    requires forall x :: x in s ==> p(x)
    ensures Filter(s, p) == s
  {
    if s != [] {
      FilterAll(s[1..], p);
    }
  }

  /** Filtering by a weaker test and then by a stronger one is filtering by the stronger one alone. */
  lemma {:induction false} FilterOfFilter<T(!new)>(s: seq<T>, strong: T -> bool, weak: T -> bool)
    requires forall x :: strong(x) ==> weak(x)
    ensures Filter(Filter(s, weak), strong) == Filter(s, strong)
  {
    if s != [] {
      FilterOfFilter(s[1..], strong, weak);
      var rest := Filter(s[1..], weak);
      if weak(s[0]) {
        assert Filter(s, weak) == [s[0]] + rest;
        FilterAppend([s[0]], rest, strong);
        assert Filter([s[0]], strong) == if strong(s[0]) then [s[0]] else [];
      } else {
        assert Filter(s, weak) == rest;
      }
    }
  }

  /** Sums split over concatenation. */
  lemma {:induction false} SumByAppend<T>(a: seq<T>, b: seq<T>, f: T -> int)
    ensures SumBy(a + b, f) == SumBy(a, f) + SumBy(b, f)
  {
    if b == [] {
      assert a + b == a;
    } else {
      assert (a + b)[..|a + b| - 1] == a + b[..|b| - 1];
      SumByAppend(a, b[..|b| - 1], f);
    }
  }

  /** The sum over a list whose first element is `x`. */
  lemma SumByCons<T>(x: T, s: seq<T>, f: T -> int)
    ensures SumBy([x] + s, f) == f(x) + SumBy(s, f)
  {
    SumByAppend([x], s, f);
  }

  /** Adding one element at the end adds its summand. */
  lemma SumBySnoc<T>(s: seq<T>, x: T, f: T -> int)
    ensures SumBy(s + [x], f) == SumBy(s, f) + f(x)
  {
    assert (s + [x])[..|s + [x]| - 1] == s;
  }

  /** Negating every summand negates the sum. */
  lemma {:induction false} SumByNegate<T>(s: seq<T>, f: T -> int, g: T -> int)
    requires forall x :: x in s ==> g(x) == -f(x)
    ensures SumBy(s, g) == -SumBy(s, f)
  {
    if s != [] {
      SumByNegate(s[..|s| - 1], f, g);
    }
  }

  /** A summand that vanishes on every element gives 0. */
  lemma {:induction false} SumByZero<T>(s: seq<T>, f: T -> int)
    requires forall x :: x in s ==> f(x) == 0
    ensures SumBy(s, f) == 0
  {
    if s != [] {
      SumByZero(s[..|s| - 1], f);
    }
  }

  /** Two summands that agree on every element give the same sum. */
  lemma {:induction false} SumByCongruent<T>(s: seq<T>, f: T -> int, g: T -> int)
    requires forall x :: x in s ==> f(x) == g(x)
    ensures SumBy(s, f) == SumBy(s, g)
  {
    if s != [] {
      SumByCongruent(s[..|s| - 1], f, g);
    }
  }

  /** Summing is linear in the summand. */
  lemma {:induction false} SumByPlus<T>(s: seq<T>, f: T -> int, g: T -> int, h: T -> int)
    requires forall x :: x in s ==> h(x) == f(x) + g(x)
    ensures SumBy(s, h) == SumBy(s, f) + SumBy(s, g)
  {
    if s != [] {
      SumByPlus(s[..|s| - 1], f, g, h);
    }
  }

  /** Summing over a filtered list is summing the test-guarded summand over the whole list. */
  lemma {:induction false} SumByFilter<T(!new)>(s: seq<T>, p: T -> bool, f: T -> int, g: T -> int)
    requires forall x :: g(x) == if p(x) then f(x) else 0
    ensures SumBy(Filter(s, p), f) == SumBy(s, g)
  {
    if s != [] {
      var head := if p(s[0]) then [s[0]] else [];
      SumByFilter(s[1..], p, f, g);
      assert s == [s[0]] + s[1..];
      assert Filter(s, p) == head + Filter(s[1..], p);
      SumByCons(s[0], s[1..], g);
      SumByAppend(head, Filter(s[1..], p), f);
      assert SumBy(head, f) == g(s[0]) by {
        if p(s[0]) {
          assert SumBy(head, f) == SumBy(head[..0], f) + f(s[0]);
        }
      }
    }
  }

  /** Removing the element at `k` removes one occurrence of it from the multiset. */
  lemma RemoveAtMultiset<T>(t: seq<T>, k: int)
    requires 0 <= k < |t|
    ensures multiset(t[..k] + t[k + 1..]) == multiset(t) - multiset{t[k]}
  {
    assert t == t[..k] + [t[k]] + t[k + 1..];
    assert multiset(t) == multiset(t[..k]) + multiset{t[k]} + multiset(t[k + 1..]);
  }

  /** The sum over a list is the sum without the element at `k`, plus that element's value. */
  lemma SumByRemoveAt<T>(t: seq<T>, k: int, f: T -> int)
    requires 0 <= k < |t|
    ensures SumBy(t, f) == SumBy(t[..k] + t[k + 1..], f) + f(t[k])
  {
    var front, back := t[..k], t[k + 1..];
    var head := front + [t[k]];
    assert t == head + back;
    SumByAppend(head, back, f);
    SumBySnoc(front, t[k], f);
    SumByAppend(front, back, f);
  }

  /** A sum does not depend on the order of the elements: a permutation of the list gives the same sum. */
  lemma {:induction false} SumByPermutation<T>(s: seq<T>, t: seq<T>, f: T -> int)
    requires multiset(s) == multiset(t)
    ensures SumBy(s, f) == SumBy(t, f)
  {
    if s == [] {
      assert |t| == |multiset(t)| == 0;
    } else {
      var x := s[0];
      assert x in multiset(t);
      var k :| 0 <= k < |t| && t[k] == x;
      assert s == [x] + s[1..];
      assert multiset(s[1..]) == multiset(s) - multiset{x};
      RemoveAtMultiset(t, k);
      SumByPermutation(s[1..], t[..k] + t[k + 1..], f);
      SumByCons(x, s[1..], f);
      SumByRemoveAt(t, k, f);
    }
  }
}
