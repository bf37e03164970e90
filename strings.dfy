/** String operations the source uses: prefix and substring tests, `<=` on strings, zero-padded digits. */
module Strings {

  /** `s.startsWith(prefix)`. */
  predicate StartsWith(s: string, prefix: string)
  {
    |prefix| <= |s| && s[..|prefix|] == prefix
  }

  /** `s.includes(part)`: `part` occurs somewhere in `s`. */
  predicate Contains(s: string, part: string)
    decreases |s|
  {
    StartsWith(s, part) || (s != [] && Contains(s[1..], part))
  }

  /** JavaScript's `a <= b` on strings: character-by-character comparison, a prefix is smaller.
    * Characters compare by code point; JavaScript compares UTF-16 code units, which agrees on the
    * Basic Multilingual Plane and so on the ASCII date strings compared here. */
  predicate LexLe(a: string, b: string)
    decreases |a|
  {
    if a == [] then true
    else if b == [] then false
    else if a[0] != b[0] then a[0] < b[0]
    else LexLe(a[1..], b[1..])
  }

  /** Once two equally long heads differ, what follows them does not matter for `<=`. */
  lemma {:induction false} LexLeDifferentHeads(a: string, b: string, x: string, y: string)
    requires |a| == |b| && a != b
    ensures LexLe(a + x, b + y) == LexLe(a, b)
    decreases |a|
  {
    assert a != [] && b != [];
    assert (a + x)[0] == a[0] && (b + y)[0] == b[0];
    if a[0] == b[0] {
      assert (a + x)[1..] == a[1..] + x && (b + y)[1..] == b[1..] + y;
      assert a[1..] != b[1..] by {
        assert a == [a[0]] + a[1..] && b == [b[0]] + b[1..];
      }
      LexLeDifferentHeads(a[1..], b[1..], x, y);
    }
  }

  /** A common head does not matter for `<=`. */
  lemma {:induction false} LexLeCommonHead(a: string, x: string, y: string)
    ensures LexLe(a + x, a + y) == LexLe(x, y)
    decreases |a|
  {
    if a == [] {
      assert a + x == x && a + y == y;
    } else {
      assert (a + x)[1..] == a[1..] + x && (a + y)[1..] == a[1..] + y;
      LexLeCommonHead(a[1..], x, y);
    }
  }

  /** Strings cut into equally long heads are equal, or ordered, head first and then tail. */
  lemma LexLeConcat(a: string, x: string, b: string, y: string)
    requires |a| == |b|
    ensures a + x == b + y <==> a == b && x == y
    ensures LexLe(a + x, b + y) <==> (a != b && LexLe(a, b)) || (a == b && LexLe(x, y))
  {
    assert (a + x)[..|a|] == a && (b + y)[..|b|] == b;
    assert (a + x)[|a|..] == x && (b + y)[|b|..] == y;
    if a == b {
      LexLeCommonHead(a, x, y);
    } else {
      LexLeDifferentHeads(a, b, x, y);
    }
  }

  /** `10^n`. */
  function Pow10(n: nat): (r: nat)
    ensures r >= 1
  {
    if n == 0 then 1 else 10 * Pow10(n - 1)
  }

  /** The decimal digit character of `d`. */
  function DigitChar(d: int): char
    requires 0 <= d < 10
  {
    (48 + d) as char
  }

  /** The last `width` decimal digits of `n`, zero-padded on the left (date-fns' `yyyy`, `MM`, `dd`). */
  function PadDigits(n: nat, width: nat): (r: string)
    ensures |r| == width
  {
    if width == 0 then [] else PadDigits(n / 10, width - 1) + [DigitChar(n % 10)]
  }

  /**
   * On numbers that fit the width, padded digit strings are equal exactly when the numbers are,
   * and string order on them is numeric order.
   */
  lemma {:induction false} PadDigitsOrder(n: nat, m: nat, width: nat)
    requires n < Pow10(width) && m < Pow10(width)
    ensures PadDigits(n, width) == PadDigits(m, width) <==> n == m
    ensures LexLe(PadDigits(n, width), PadDigits(m, width)) <==> n <= m
  {
    if width > 0 {
      var q, r, q', r' := n / 10, n % 10, m / 10, m % 10;
      PadDigitsOrder(q, q', width - 1);
      var hn, hm := PadDigits(q, width - 1), PadDigits(q', width - 1);
      assert PadDigits(n, width) == hn + [DigitChar(r)];
      assert PadDigits(m, width) == hm + [DigitChar(r')];
      if q != q' {
        LexLeDifferentHeads(hn, hm, [DigitChar(r)], [DigitChar(r')]);
        assert PadDigits(n, width) != PadDigits(m, width) by {
          assert PadDigits(n, width)[..width - 1] == hn;
          assert PadDigits(m, width)[..width - 1] == hm;
        }
      } else {
        LexLeCommonHead(hn, [DigitChar(r)], [DigitChar(r')]);
        assert LexLe([DigitChar(r)], [DigitChar(r')]) <==> r <= r' by {
          assert [DigitChar(r)][1..] == [] && [DigitChar(r')][1..] == [];
        }
        assert PadDigits(n, width) == PadDigits(m, width) <==> r == r' by {
          assert PadDigits(n, width)[width - 1] == DigitChar(r);
          assert PadDigits(m, width)[width - 1] == DigitChar(r');
        }
      }
    }
  }
}
