/** `Array.prototype.sort` with a comparator that puts larger keys first, done in place. */
module Sorting {
  import opened Seqs

  /** Keys never increase from left to right. */
  predicate SortedDescending<T>(s: seq<T>, key: T -> int)
  {
    forall i, j :: 0 <= i < j < |s| ==> key(s[j]) <= key(s[i])
  }

  /** The test "has key `k`". */
  function KeyIs<T>(key: T -> int, k: int): T -> bool
  {
    (x: T) => key(x) == k
  }

  /** For every key, the elements with that key occur in `s` in the same order as in `t`. A sort with
    * this property is stable: it keeps equal-keyed elements in their input order. */
  ghost predicate SameTies<T(!new)>(s: seq<T>, t: seq<T>, key: T -> int)
  {
    forall k :: Filter(s, KeyIs(key, k)) == Filter(t, KeyIs(key, k))
  }

  lemma SameTiesTransitive<T(!new)>(s: seq<T>, t: seq<T>, u: seq<T>, key: T -> int)
    requires SameTies(s, t, key) && SameTies(t, u, key)
    ensures SameTies(s, u, key)
  {
  }

  /** Exchanging two neighbours never changes a filter that at most one of them passes. */
  lemma FilterSwapPair<T(!new)>(x: T, y: T, p: T -> bool)
    requires !(p(x) && p(y))
    ensures Filter([x, y], p) == Filter([y, x], p)
  {
    assert [x, y][1..] == [y];
    assert [y, x][1..] == [x];
    assert [x][1..] == [] && [y][1..] == [];
  }

  /** Exchanging two neighbours with different keys keeps the order within every key. */
  lemma SwapKeepsTies<T(!new)>(s: seq<T>, j: int, key: T -> int)
    requires 0 < j < |s| && key(s[j - 1]) != key(s[j])
    ensures SameTies(s[j - 1 := s[j]][j := s[j - 1]], s, key)
  {
    var t := s[j - 1 := s[j]][j := s[j - 1]];
    var pre, post := s[..j - 1], s[j + 1..];
    assert s == (pre + [s[j - 1], s[j]]) + post;
    assert t == (pre + [s[j], s[j - 1]]) + post;
    forall k
      ensures Filter(t, KeyIs(key, k)) == Filter(s, KeyIs(key, k))
    {
      var p := KeyIs(key, k);
      FilterAppend(pre + [s[j - 1], s[j]], post, p);
      FilterAppend(pre, [s[j - 1], s[j]], p);
      FilterAppend(pre + [s[j], s[j - 1]], post, p);
      FilterAppend(pre, [s[j], s[j - 1]], p);
      FilterSwapPair(s[j - 1], s[j], p);
    }
  }

  /** The head of a reordering that keeps ties is, in the original, the first element with its key. */
  lemma StableHead<T(!new)>(s: seq<T>, t: seq<T>, key: T -> int)
    requires |s| > 0 && s[0] in t && SameTies(s, t, key)
    ensures exists i :: 0 <= i < |t| && t[i] == s[0] && forall j :: 0 <= j < i ==> key(t[j]) != key(s[0])
  {
    var p := KeyIs(key, key(s[0]));
    assert Filter(s, p) == Filter(t, p);
    var first := Find(t, p);
    assert p(s[0]);
    var i :| 0 <= i < |t| && t[i] == first.value && p(t[i]) && forall j :: 0 <= j < i ==> !p(t[j]);
    FilterFirst(s, p, 0);
    FilterFirst(t, p, i);
  }

  /** Exchanges two neighbours; nothing else moves. Neighbours with different keys keep the ties. */
  method SwapDown<T(!new)>(a: array<T>, j: int, key: T -> int)
    requires 0 < j < a.Length
    modifies a
    ensures a[..] == old(a[..])[j - 1 := old(a[j])][j := old(a[j - 1])]
    ensures multiset(a[..]) == old(multiset(a[..]))
    ensures key(old(a[j - 1])) != key(old(a[j])) ==> SameTies(a[..], old(a[..]), key)
  {
    if key(a[j - 1]) != key(a[j]) {
      SwapKeepsTies(a[..], j, key);
    }
    a[j - 1], a[j] := a[j], a[j - 1];
  }

  /** Moves `a[i]` left past every larger-keyed neighbour, so that `a[..i + 1]` becomes sorted. */
  method InsertAt<T(!new)>(a: array<T>, i: int, key: T -> int)
    requires 0 <= i < a.Length
    requires SortedDescending(a[..i], key)
    modifies a
    ensures SortedDescending(a[..i + 1], key)
    ensures multiset(a[..]) == old(multiset(a[..]))
    ensures SameTies(a[..], old(a[..]), key)
  {
    var j := i;
    while j > 0 && key(a[j - 1]) < key(a[j])
      invariant 0 <= j <= i
      invariant forall p, q :: 0 <= p < q <= i && p != j && q != j ==> key(a[q]) <= key(a[p])
      invariant forall q :: j < q <= i ==> key(a[q]) < key(a[j])
      invariant multiset(a[..]) == old(multiset(a[..]))
      invariant SameTies(a[..], old(a[..]), key)
    {
      ghost var before := a[..];
      SinkStep(a, i, j, key);
      SameTiesTransitive(a[..], before, old(a[..]), key);
      j := j - 1;
    }
  }

  /** One step of `InsertAt`: the element at `j`, larger than its left neighbour, moves one place left;
    * the prefix up to `i` stays sorted apart from that element. */
  method SinkStep<T(!new)>(a: array<T>, i: int, j: int, key: T -> int)
    requires 0 < j <= i < a.Length && key(a[j - 1]) < key(a[j])
    requires forall p, q :: 0 <= p < q <= i && p != j && q != j ==> key(a[q]) <= key(a[p])
    requires forall q :: j < q <= i ==> key(a[q]) < key(a[j])
    modifies a
    ensures forall p, q :: 0 <= p < q <= i && p != j - 1 && q != j - 1 ==> key(a[q]) <= key(a[p])
    ensures forall q :: j - 1 < q <= i ==> key(a[q]) < key(a[j - 1])
    ensures multiset(a[..]) == old(multiset(a[..]))
    ensures SameTies(a[..], old(a[..]), key)
  {
    SwapDown(a, j, key);
  }

  /**
   * Sorts `a` in place so that keys are non-increasing; the result is a permutation of the input, and
   * equal keys keep their input order, as the stable `Array.prototype.sort` does. Insertion by
   * adjacent swaps; only neighbours whose keys are strictly out of order are swapped.
   */
  method SortDescending<T(!new)>(a: array<T>, key: T -> int)
    modifies a
    ensures SortedDescending(a[..], key)
    ensures multiset(a[..]) == old(multiset(a[..]))
    ensures SameTies(a[..], old(a[..]), key)
  {
    for i := 0 to a.Length
      invariant SortedDescending(a[..i], key)
      invariant multiset(a[..]) == old(multiset(a[..]))
      invariant SameTies(a[..], old(a[..]), key)
    {
      InsertAt(a, i, key);
    }
    assert a[..] == a[..a.Length];
  }
}
