/** Decimal numerals of unsigned integers, the text that `std::to_string`,
    `std::format("{}")` and `printf("%u")` produce: most significant digit
    first, no sign, no leading zeros. */
module Decimal {

  const INT_MAX: int := 0x7fff_ffff

  /** `unsigned` on the platforms the logger is built for. */
  newtype uint32 = x: int | 0 <= x < 0x1_0000_0000

  /** An unsigned integer of at most 64 bits, wide enough for `size_t` on
      every target the logger is built for (32-bit targets included). */
  newtype uint64 = x: int | 0 <= x < 0x1_0000_0000_0000_0000

  predicate IsDigit(c: char) {
    '0' <= c <= '9'
  }

  predicate AllDigits(s: string) {
    forall i :: 0 <= i < |s| ==> IsDigit(s[i])
  }

  /** A numeral the formatting routines can produce: at least one digit, and
      no leading zero unless the numeral is "0" itself. */
  predicate Canonical(s: string) {
    |s| >= 1 && AllDigits(s) && (|s| > 1 ==> s[0] != '0')
  }

  function DigitChar(d: nat): (c: char)
    requires d < 10
    ensures IsDigit(c) && c as int - '0' as int == d
  {
    (d + '0' as int) as char
  }

  function DigitValue(c: char): (d: nat)
    requires IsDigit(c)
    ensures d < 10 && DigitChar(d) == c
  {
    c as int - '0' as int
  }

  function Pow10(k: nat): (p: nat)
    ensures p >= 1
  {
    if k == 0 then 1 else 10 * Pow10(k - 1)
  }

  lemma {:induction false} Pow10Add(a: nat, b: nat)
    ensures Pow10(a + b) == Pow10(a) * Pow10(b)
  {
    if a > 0 {
      Pow10Add(a - 1, b);
    }
  }

  /** The decimal numeral of `n`. */
  function Text(n: nat): (s: string)
    ensures Canonical(s)
    decreases n
  {
    if n < 10 then [DigitChar(n)] else Text(n / 10) + [DigitChar(n % 10)]
  }

  /** The value a numeral denotes: the reference reading of a decimal text. */
  function Parse(s: string): (n: nat)
    requires AllDigits(s)
    decreases |s|
  {
    if s == [] then 0 else Parse(s[..|s| - 1]) * 10 + DigitValue(s[|s| - 1])
  }

  /** Reading the numeral back gives the number it was made from. */
  lemma {:induction false} ParseText(n: nat)
    ensures Parse(Text(n)) == n
  {
    if n >= 10 {
      var s := Text(n);
      assert s[..|s| - 1] == Text(n / 10);
      ParseText(n / 10);
    }
  }

  /** A numeral with no leading zero and more than one digit denotes at least
      ten to the power of its length less one. */
  lemma {:induction false} ParseLowerBound(s: string)
    requires Canonical(s)
    ensures Parse(s) >= Pow10(|s| - 1) || (|s| == 1 && Parse(s) == 0)
    decreases |s|
  {
    if |s| > 1 {
      var init := s[..|s| - 1];
      assert init[0] == s[0];
      ParseLowerBound(init);
    }
  }

  /** Every canonical numeral is the text of the number it denotes, so `Text`
      and `Parse` are inverse bijections between numbers and canonical
      numerals. */
  lemma {:induction false} TextParse(s: string)
    requires Canonical(s)
    ensures Text(Parse(s)) == s
    decreases |s|
  {
    if |s| > 1 {
      var init := s[..|s| - 1];
      assert init[0] == s[0];
      ParseLowerBound(init);
      TextParse(init);
      assert s == init + [s[|s| - 1]];
    }
  }

  /** A number below ten to the power `k` (k >= 1) has at most `k` digits. */
  lemma {:induction false} TextLength(n: nat, k: nat)
    requires k >= 1 && n < Pow10(k)
    ensures |Text(n)| <= k
    decreases n
  {
    if n >= 10 {
      assert k >= 2;
      assert n / 10 < Pow10(k - 1);
      TextLength(n / 10, k - 1);
    }
  }

  /** An `unsigned` line number takes at most ten digits. */
  lemma Uint32TextLength(n: uint32)
    ensures |Text(n as nat)| <= 10
  {
    assert Pow10(10) == 10_000_000_000;
    TextLength(n as nat, 10);
  }
}
