/**
 * Character and string helpers the client relies on implicitly: decimal
 * rendering of numbers (`"0" + n`, `String(n)`), fixed-width zero padding
 * as `Date.prototype.toISOString` produces it, and JavaScript's `<` on
 * strings, which is lexicographic.
 */
module Text {

  predicate IsDigit(c: char) {
    '0' <= c <= '9'
  }

  predicate AllDigits(s: string) {
    forall i :: 0 <= i < |s| ==> IsDigit(s[i])
  }

  function DigitValue(c: char): nat
    requires IsDigit(c)
  {
    c as int - '0' as int
  }

  function DigitChar(d: nat): (c: char)
    requires d < 10
    ensures IsDigit(c) && DigitValue(c) == d
  {
    (d + '0' as int) as char
  }

  function Pow10(w: nat): (p: nat)
    ensures p >= 1
  {
    if w == 0 then 1 else 10 * Pow10(w - 1)
  }

  /** The value of a string of decimal digits (the empty string reads as 0). */
  function ValueOf(s: string): nat
    requires AllDigits(s)
  {
    if s == [] then 0 else ValueOf(s[..|s| - 1]) * 10 + DigitValue(s[|s| - 1])
  }

  /** `n` written with exactly `w` digits, zero-padded on the left. */
  function Fixed(n: nat, w: nat): (s: string)
    requires n < Pow10(w)
    ensures |s| == w && AllDigits(s)
  {
    if w == 0 then "" else Fixed(n / 10, w - 1) + [DigitChar(n % 10)]
  }

  /** `String(n)` for a non-negative integer: its digits without leading zeros. */
  function Decimal(n: nat): (s: string)
    ensures |s| >= 1 && AllDigits(s)
    ensures n < 10 <==> |s| == 1
  {
    if n < 10 then [DigitChar(n)] else Decimal(n / 10) + [DigitChar(n % 10)]
  }

  /** A digit string has a value below ten to the power of its length. */
  lemma {:induction false} ValueOfBound(s: string)
    requires AllDigits(s)
    ensures ValueOf(s) < Pow10(|s|)
  {
    if s != [] {
      ValueOfBound(s[..|s| - 1]);
    }
  }

  /** Reading back a fixed-width rendering gives the number. */
  lemma {:induction false} ValueOfFixed(n: nat, w: nat)
    requires n < Pow10(w)
    ensures ValueOf(Fixed(n, w)) == n
  {
    if w > 0 {
      var s := Fixed(n, w);
      assert s[..|s| - 1] == Fixed(n / 10, w - 1);
      ValueOfFixed(n / 10, w - 1);
    }
  }

  /** Rendering the value of a digit string at its own width gives the string back. */
  lemma {:induction false} FixedOfValue(s: string)
    requires AllDigits(s)
    ensures ValueOf(s) < Pow10(|s|)
    ensures Fixed(ValueOf(s), |s|) == s
  {
    ValueOfBound(s);
    if s != [] {
      var init := s[..|s| - 1];
      FixedOfValue(init);
      var v := ValueOf(s);
      assert v / 10 == ValueOf(init) && v % 10 == DigitValue(s[|s| - 1]);
      assert s == init + [s[|s| - 1]];
    }
  }

  /** Reading back a decimal rendering gives the number. */
  lemma {:induction false} ValueOfDecimal(n: nat)
    ensures ValueOf(Decimal(n)) == n
  {
    if n >= 10 {
      var s := Decimal(n);
      assert s[..|s| - 1] == Decimal(n / 10);
      ValueOfDecimal(n / 10);
    }
  }

  /** JavaScript `a < b` on strings: lexicographic comparison. */
  predicate StrLess(a: string, b: string)
    decreases |a|
  {
    if a == [] then b != []
    else if b == [] then false
    else if a[0] != b[0] then a[0] < b[0]
    else StrLess(a[1..], b[1..])
  }

  /** Comparing equal-length prefixes first decides a lexicographic comparison. */
  lemma {:induction false} StrLessConcat(a1: string, a2: string, b1: string, b2: string)
    requires |a1| == |b1|
    ensures StrLess(a1 + a2, b1 + b2) <==> StrLess(a1, b1) || (a1 == b1 && StrLess(a2, b2))
    decreases |a1|
  {
    if a1 == [] {
      assert a1 + a2 == a2 && b1 + b2 == b2;
    } else {
      assert (a1 + a2)[0] == a1[0] && (b1 + b2)[0] == b1[0];
      assert (a1 + a2)[1..] == a1[1..] + a2 && (b1 + b2)[1..] == b1[1..] + b2;
      StrLessConcat(a1[1..], a2, b1[1..], b2);
      if a1[0] == b1[0] {
        assert a1 == b1 <==> a1[1..] == b1[1..] by {
          if a1[1..] == b1[1..] { assert a1 == [a1[0]] + a1[1..] && b1 == [b1[0]] + b1[1..]; }
        }
      }
    }
  }

  /** Fixed-width renderings compare as strings exactly as the numbers compare. */
  lemma {:induction false} FixedOrder(n: nat, m: nat, w: nat)
    requires n < Pow10(w) && m < Pow10(w)
    ensures StrLess(Fixed(n, w), Fixed(m, w)) <==> n < m
  {
    if w > 0 {
      var hn, hm := Fixed(n / 10, w - 1), Fixed(m / 10, w - 1);
      FixedOrder(n / 10, m / 10, w - 1);
      StrLessConcat(hn, [DigitChar(n % 10)], hm, [DigitChar(m % 10)]);
      ValueOfFixed(n / 10, w - 1);
      ValueOfFixed(m / 10, w - 1);
      assert hn == hm <==> n / 10 == m / 10;
      assert StrLess([DigitChar(n % 10)], [DigitChar(m % 10)]) <==> n % 10 < m % 10;
    }
  }

  /** Two strings glued from first parts of equal length are equal exactly when both parts are. */
  lemma ConcatSplit(a: string, b: string, c: string, d: string)
    requires |a| == |c|
    ensures a + b == c + d <==> a == c && b == d
  {
    if a + b == c + d {
      assert a == (a + b)[..|a|] && c == (c + d)[..|c|];
      assert b == (a + b)[|a|..] && d == (c + d)[|c|..];
    }
  }

  /** Appending leaves every prefix of the first part in place. */
  lemma PrefixKept(a: string, b: string, k: nat)
    requires k <= |a|
    ensures (a + b)[..k] == a[..k]
  {
  }

  /** A common ending can be dropped. */
  lemma SuffixCancel(a: string, b: string, suffix: string)
    ensures a + suffix == b + suffix <==> a == b
  {
    if a + suffix == b + suffix {
      ConcatSplit(a, suffix, b, suffix);
    }
  }

  /** A path built from a fixed head and tail around an id determines the id. */
  lemma AffixInjective(head: string, a: string, b: string, tail: string)
    ensures head + a + tail == head + b + tail <==> a == b
  {
    assert head + a + tail == head + (a + tail) && head + b + tail == head + (b + tail);
    ConcatSplit(head, a + tail, head, b + tail);
    SuffixCancel(a, b, tail);
  }

  /**
   * After a shared head, a fixed-width value, a separator and the rest
   * determine each other: two such strings are equal exactly when both
   * values are.
   */
  lemma FieldsIdentify(head: string, x: string, sep: string, y: string, x': string, y': string)
    requires |x| == |x'|
    ensures head + x + sep + y == head + x' + sep + y' <==> x == x' && y == y'
  {
    assert head + x + sep + y == head + (x + (sep + y));
    assert head + x' + sep + y' == head + (x' + (sep + y'));
    ConcatSplit(head, x + (sep + y), head, x' + (sep + y'));
    ConcatSplit(x, sep + y, x', sep + y');
    ConcatSplit(sep, y, sep, y');
  }
}
