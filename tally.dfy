/**
 * The plain objects the source fills inside `reduce` (`acc[k] = (acc[k] || 0) + x`), as lists of
 * entries in insertion order, the order `Object.keys`, `Object.values` and `Object.entries` report
 * for keys that are not integer-like. JavaScript lists integer-like keys ("0", "42") first, in
 * ascending order; the model does not, so for a category or payment method named by such a string
 * its order differs.
 */
module Tally {
  import opened Wrappers
  import opened Seqs

  datatype Entry<V> = Entry(key: string, value: V)

  /** `Object.keys(d)`. */
  function Keys<V>(d: seq<Entry<V>>): (r: seq<string>)
    ensures |r| == |d|
    ensures forall i :: 0 <= i < |d| ==> r[i] == d[i].key
  {
    if d == [] then [] else [d[0].key] + Keys(d[1..])
  }

  /** `d[k] || 0`: the value stored under `k`, or 0 when there is none. */
  function Get(d: seq<Entry<int>>, k: string): int
  {
    if d == [] then 0 else if d[0].key == k then d[0].value else Get(d[1..], k)
  }

  /** `d[k] = (d[k] || 0) + x`: an existing entry is updated where it stands, a new key goes last. */
  function Add(d: seq<Entry<int>>, k: string, x: int): seq<Entry<int>>
  {
    if d == [] then [Entry(k, x)]
    else if d[0].key == k then [Entry(k, d[0].value + x)] + d[1..]
    else [d[0]] + Add(d[1..], k, x)
  }

  /** `Object.values(d).reduce((a, b) => a + b, 0)`. */
  function Total(d: seq<Entry<int>>): int
  {
    if d == [] then 0 else d[0].value + Total(d[1..])
  }

  /** Adding `x` under `k` raises the value of `k` by `x` and leaves every other key's value alone. */
  lemma {:induction false} AddGet(d: seq<Entry<int>>, k: string, x: int, j: string)
    ensures Get(Add(d, k, x), j) == Get(d, j) + (if j == k then x else 0)
  {
    if d != [] && d[0].key != k {
      AddGet(d[1..], k, x, j);
    }
  }

  /** Adding under a present key keeps the key list; adding under a new key appends it. */
  lemma {:induction false} AddKeys(d: seq<Entry<int>>, k: string, x: int)
    ensures Keys(Add(d, k, x)) == if k in Keys(d) then Keys(d) else Keys(d) + [k]
  {
    if d != [] {
      assert Keys(d) == [d[0].key] + Keys(d[1..]);
      if d[0].key != k {
        AddKeys(d[1..], k, x);
        assert Keys(Add(d, k, x)) == [d[0].key] + Keys(Add(d[1..], k, x));
      } else {
        assert Keys(Add(d, k, x)) == [k] + Keys(d[1..]);
      }
    }
  }

  /** Adding `x` raises the total of all values by `x`. */
  lemma {:induction false} AddTotal(d: seq<Entry<int>>, k: string, x: int)
    ensures Total(Add(d, k, x)) == Total(d) + x
  {
    if d != [] && d[0].key != k {
      AddTotal(d[1..], k, x);
    }
  }

  /**
   * The grouped sums a `reduce` builds when it visits `s` left to right and, for every element with
   * a key, adds its amount under that key.
   */
  function GroupSum<T>(s: seq<T>, key: T -> Option<string>, amount: T -> int): seq<Entry<int>>
  {
    if s == [] then []
    else
      var d := GroupSum(s[..|s| - 1], key, amount);
      var x := s[|s| - 1];
      if key(x).Some? then Add(d, key(x).value, amount(x)) else d
  }

  /** The sum of the amounts of the elements of `s` keyed `k`. */
  function SumUnder<T>(s: seq<T>, key: T -> Option<string>, amount: T -> int, k: string): int
  {
    if s == [] then 0
    else SumUnder(s[..|s| - 1], key, amount, k) + (if key(s[|s| - 1]) == Some(k) then amount(s[|s| - 1]) else 0)
  }

  /** The sum of the amounts of the elements of `s` that have a key. */
  function SumKeyed<T>(s: seq<T>, key: T -> Option<string>, amount: T -> int): int
  {
    if s == [] then 0
    else SumKeyed(s[..|s| - 1], key, amount) + (if key(s[|s| - 1]).Some? then amount(s[|s| - 1]) else 0)
  }

  /** The value under `k` is the sum of the amounts of the elements keyed `k`. */
  lemma {:induction false} GroupSumGet<T>(s: seq<T>, key: T -> Option<string>, amount: T -> int, k: string)
    ensures Get(GroupSum(s, key, amount), k) == SumUnder(s, key, amount, k)
  {
    if s != [] {
      var x := s[|s| - 1];
      GroupSumGet(s[..|s| - 1], key, amount, k);
      if key(x).Some? {
        AddGet(GroupSum(s[..|s| - 1], key, amount), key(x).value, amount(x), k);
      }
    }
  }

  /** Every key occurs once, and the keys are exactly the keys of the elements. */
  lemma {:induction false} GroupSumKeys<T(!new)>(s: seq<T>, key: T -> Option<string>, amount: T -> int)
    ensures Distinct(Keys(GroupSum(s, key, amount)))
    ensures forall k :: k in Keys(GroupSum(s, key, amount)) <==> exists x :: x in s && key(x) == Some(k)
  {
    if s != [] {
      var init, x := s[..|s| - 1], s[|s| - 1];
      GroupSumKeys(init, key, amount);
      assert forall y :: y in s <==> y in init || y == x;
      if key(x).Some? {
        AddKeys(GroupSum(init, key, amount), key(x).value, amount(x));
      }
    }
  }

  /** The values add up to the total amount of the keyed elements. */
  lemma {:induction false} GroupSumTotal<T>(s: seq<T>, key: T -> Option<string>, amount: T -> int)
    ensures Total(GroupSum(s, key, amount)) == SumKeyed(s, key, amount)
  {
    if s != [] {
      var x := s[|s| - 1];
      GroupSumTotal(s[..|s| - 1], key, amount);
      if key(x).Some? {
        AddTotal(GroupSum(s[..|s| - 1], key, amount), key(x).value, amount(x));
      }
    }
  }

  /** When every element has a key, the keyed sum is the plain sum. */
  lemma {:induction false} SumKeyedAll<T>(s: seq<T>, key: T -> Option<string>, amount: T -> int)
    requires forall i :: 0 <= i < |s| ==> key(s[i]).Some?
    ensures SumKeyed(s, key, amount) == SumBy(s, amount)
  {
    if s != [] {
      SumKeyedAll(s[..|s| - 1], key, amount);
    }
  }

  /** The keyed sum is a sum over the elements of a function that vanishes on unkeyed elements. */
  lemma {:induction false} SumKeyedAsSumBy<T>(s: seq<T>, key: T -> Option<string>, amount: T -> int, f: T -> int)
    requires forall x :: f(x) == if key(x).Some? then amount(x) else 0
    ensures SumKeyed(s, key, amount) == SumBy(s, f)
  {
    if s != [] {
      SumKeyedAsSumBy(s[..|s| - 1], key, amount, f);
    }
  }

  /** The sum under `k` is a sum over the elements of a function that vanishes off key `k`. */
  lemma {:induction false} SumUnderAsSumBy<T>(s: seq<T>, key: T -> Option<string>, amount: T -> int, k: string, f: T -> int)
    requires forall x :: f(x) == if key(x) == Some(k) then amount(x) else 0
    ensures SumUnder(s, key, amount, k) == SumBy(s, f)
  {
    if s != [] {
      SumUnderAsSumBy(s[..|s| - 1], key, amount, k, f);
    }
  }

  /** `d[k] = v`: an existing entry is overwritten where it stands, a new key goes last. */
  function Put<V>(d: seq<Entry<V>>, k: string, v: V): seq<Entry<V>>
  {
    if d == [] then [Entry(k, v)]
    else if d[0].key == k then [Entry(k, v)] + d[1..]
    else [d[0]] + Put(d[1..], k, v)
  }

  /** `d[k]`: the value stored under `k`, or `None` (`undefined`) when there is none. */
  function Lookup<V>(d: seq<Entry<V>>, k: string): Option<V>
  {
    if d == [] then None else if d[0].key == k then Some(d[0].value) else Lookup(d[1..], k)
  }

  /** After `d[k] = v`, `k` holds `v` and every other key holds what it held before. */
  lemma {:induction false} PutLookup<V>(d: seq<Entry<V>>, k: string, v: V, j: string)
    ensures Lookup(Put(d, k, v), j) == if j == k then Some(v) else Lookup(d, j)
  {
    if d != [] && d[0].key != k {
      PutLookup(d[1..], k, v, j);
    }
  }

  /** Storing under a present key keeps the key list; storing under a new key appends it. */
  lemma {:induction false} PutKeys<V>(d: seq<Entry<V>>, k: string, v: V)
    ensures Keys(Put(d, k, v)) == if k in Keys(d) then Keys(d) else Keys(d) + [k]
  {
    if d != [] {
      assert Keys(d) == [d[0].key] + Keys(d[1..]);
      if d[0].key != k {
        PutKeys(d[1..], k, v);
        assert Keys(Put(d, k, v)) == [d[0].key] + Keys(Put(d[1..], k, v));
      } else {
        assert Keys(Put(d, k, v)) == [k] + Keys(d[1..]);
      }
    }
  }

  /** When every element is keyed `k`, the grouped sums are one entry under `k` holding the plain sum. */
  lemma {:induction false} GroupSumSingleKey<T>(s: seq<T>, key: T -> Option<string>, amount: T -> int, k: string)
    requires forall i :: 0 <= i < |s| ==> key(s[i]) == Some(k)
    ensures GroupSum(s, key, amount) == if s == [] then [] else [Entry(k, SumBy(s, amount))]
  {
    if s != [] {
      GroupSumSingleKey(s[..|s| - 1], key, amount, k);
    }
  }
}
