/**
 * The few Python string operations the pipeline uses: slicing `s[:n]`,
 * `str.upper()` on ASCII text, `s.split(sep)[-1]` and the integer formats
 * `{i}` and `{i:04d}`.
 */
module Text {

  function Min(a: int, b: int): int { if a <= b then a else b }

  /** `s[:n]` for a non-negative `n`: the first `n` characters, or all of `s`. */
  function Take(s: string, n: nat): (r: string)
    ensures |r| == Min(n, |s|) && r == s[..|r|]
  {
    if n < |s| then s[..n] else s
  }

  /** ASCII upper-casing of one character: a lower-case letter becomes the capital of the same letter. */
  function UpperChar(c: char): (u: char)
    ensures !('a' <= u <= 'z')
    ensures 'a' <= c <= 'z' ==> 'A' <= u <= 'Z' && u as int - 'A' as int == c as int - 'a' as int
    ensures !('a' <= c <= 'z') ==> u == c
  {
    if 'a' <= c <= 'z' then (c as int - 'a' as int + 'A' as int) as char else c
  }

  /** `s.upper()` restricted to ASCII letters; every other character is kept. */
  function Upper(s: string): (r: string)
    ensures |r| == |s|
    ensures forall k :: 0 <= k < |r| ==> r[k] == UpperChar(s[k])
    ensures forall k :: 0 <= k < |r| ==> !('a' <= r[k] <= 'z')
  {
    seq(|s|, k requires 0 <= k < |s| => UpperChar(s[k]))
  }

  /** Upper-casing twice is upper-casing once. */
  lemma UpperIdempotent(s: string)
    ensures Upper(Upper(s)) == Upper(s)
  {
  }

  predicate IsDigit(c: char) { '0' <= c <= '9' }

  function DigitChar(d: nat): (c: char)
    requires d < 10
    ensures IsDigit(c)
  {
    ('0' as int + d) as char
  }

  /**
   * `f"{n:0{width}d}"` for a natural number: its decimal digits, left-padded
   * with '0' to at least `width` characters (`{n}` is width 1).
   */
  function Digits(n: nat, width: nat): (s: string)
    ensures |s| >= 1 && |s| >= width
    ensures forall k :: 0 <= k < |s| ==> IsDigit(s[k])
    ensures n < 10 && width <= 1 <==> |s| == 1
    decreases n + width
  {
    if n < 10 && width <= 1 then [DigitChar(n)]
    else Digits(n / 10, if width == 0 then 0 else width - 1) + [DigitChar(n % 10)]
  }

  /** The number a string of decimal digits denotes, most significant digit first. */
  function ReadDecimal(s: string): nat
    requires forall k :: 0 <= k < |s| ==> IsDigit(s[k])
  {
    if s == [] then 0
    else
      assert IsDigit(s[|s| - 1]);
      10 * ReadDecimal(s[..|s| - 1]) + (s[|s| - 1] as int - '0' as int)
  }

  /** Reading the printed digits back gives the number: the padding zeros add nothing. */
  lemma {:induction false} DigitsRead(n: nat, width: nat)
    ensures ReadDecimal(Digits(n, width)) == n
    decreases n + width
  {
    var s := Digits(n, width);
    if n < 10 && width <= 1 {
      assert s[..0] == [];
    } else {
      var w' := if width == 0 then 0 else width - 1;
      DigitsRead(n / 10, w');
      assert s[..|s| - 1] == Digits(n / 10, w');
    }
  }

  /** Distinct numbers never print the same under one width. */
  lemma {:induction false} DigitsInjective(a: nat, b: nat, width: nat)
    requires Digits(a, width) == Digits(b, width)
    ensures a == b
    decreases a + width
  {
    var s := Digits(a, width);
    if a < 10 && width <= 1 {
      assert b < 10;
      assert [DigitChar(a)] == [DigitChar(b)];
      assert DigitChar(a) == DigitChar(b);
    } else {
      var w' := if width == 0 then 0 else width - 1;
      assert !(b < 10 && width <= 1);
      var sa := Digits(a / 10, w');
      var sb := Digits(b / 10, w');
      assert s == sa + [DigitChar(a % 10)];
      assert s == sb + [DigitChar(b % 10)];
      assert |sa| == |sb|;
      assert sa == s[..|s| - 1] == sb;
      assert DigitChar(a % 10) == s[|s| - 1] == DigitChar(b % 10);
      DigitsInjective(a / 10, b / 10, w');
    }
  }

  /** With at most `width` digits, the padded form has exactly `width` characters. */
  lemma {:induction false} DigitsWidth(n: nat, width: nat, bound: nat)
    requires width >= 1 && bound >= 1 && n < bound
    requires bound == Pow10(width)
    ensures |Digits(n, width)| == width
    decreases width
  {
    if !(n < 10 && width <= 1) {
      assert width > 1;
      DigitsWidth(n / 10, width - 1, Pow10(width - 1));
    }
  }

  function Pow10(k: nat): (p: nat)
    ensures p >= 1
  {
    if k == 0 then 1 else 10 * Pow10(k - 1)
  }

  /**
   * `s.split(sep)[-1]`: the text after the last `sep`, or all of `s` when
   * it has none.
   */
  function LastSegment(s: string, sep: char): (r: string)
    ensures sep !in r
  {
    if s == [] then []
    else if s[|s| - 1] == sep then []
    else LastSegment(s[..|s| - 1], sep) + [s[|s| - 1]]
  }

  /** The segment is a suffix of `s`, and all of `s` or preceded by `sep`. */
  lemma {:induction false} LastSegmentSuffix(s: string, sep: char)
    ensures var r := LastSegment(s, sep);
      && |r| <= |s| && r == s[|s| - |r|..]
      && (|r| < |s| ==> s[|s| - |r| - 1] == sep)
  {
    if s != [] && s[|s| - 1] != sep {
      var init := s[..|s| - 1];
      LastSegmentSuffix(init, sep);
      var r0 := LastSegment(init, sep);
      assert init[|init| - |r0|..] + [s[|s| - 1]] == s[|s| - |r0| - 1..];
    }
  }
}
