/** The capped history buffers of the logger and the performance monitor: `push`, then `shift` when over the cap. */
module Bounded {

  /** `buf.push(x); if (buf.length > cap) buf.shift();` as a value. */
  function Push<T>(buf: seq<T>, x: T, cap: nat): seq<T>
  {
    var grown := buf + [x];
    if |grown| > cap then grown[1..] else grown
  }

  /** The last `n` elements of `s`, all of `s` when it is shorter. */
  function LastN<T>(s: seq<T>, n: nat): (r: seq<T>)
    ensures |r| == if |s| <= n then |s| else n
    ensures r == s[|s| - |r|..]
  {
    if |s| <= n then s else s[|s| - n..]
  }

  /**
   * A push onto a buffer within its cap: the new element is last, the cap still holds, and either
   * nothing is dropped or exactly the oldest element is.
   */
  lemma PushWithinCap<T>(buf: seq<T>, x: T, cap: nat)
    requires cap > 0 && |buf| <= cap
    ensures |Push(buf, x, cap)| <= cap
    ensures Push(buf, x, cap)[|Push(buf, x, cap)| - 1] == x
    ensures |buf| < cap ==> Push(buf, x, cap) == buf + [x]
    ensures |buf| == cap ==> Push(buf, x, cap) == buf[1..] + [x]
  {
  }

  /** Pushing onto the last `cap` elements of a history gives the last `cap` elements of the longer history. */
  lemma PushKeepsLast<T>(history: seq<T>, x: T, cap: nat)
    requires cap > 0
    ensures Push(LastN(history, cap), x, cap) == LastN(history + [x], cap)
  {
    var h := history + [x];
    if |history| >= cap {
      assert LastN(history, cap) + [x] == h[|h| - cap - 1..];
      assert h[|h| - cap - 1..][1..] == h[|h| - cap..];
    }
  }
}
