/** The pieces of Go's `strings`, `strconv` and integer arithmetic the
    library relies on. */
module Strings {

  /** `strings.Contains(s, sub)`: `sub` occurs somewhere in `s`. */
  predicate Contains(s: string, sub: string)
    decreases |s|
  {
    |sub| <= |s| && (s[..|sub|] == sub || Contains(s[1..], sub))
  }

  /** Any occurrence of `sub` in `s` brings every character of `sub` along;
      so a pattern with a character `s` lacks does not occur in `s`. */
  lemma {:induction false} ContainsChars(s: string, sub: string, c: char)
    ensures Contains(s, sub) && c in sub ==> c in s
    decreases |s|
  {
    if Contains(s, sub) && c in sub && s[..|sub|] != sub {
      ContainsChars(s[1..], sub, c);
    }
  }

  /** An occurrence at a known position is an occurrence. */
  lemma {:induction false} ContainsAt(s: string, sub: string, i: nat)
    requires i + |sub| <= |s| && s[i..i + |sub|] == sub
    ensures Contains(s, sub)
    decreases i
  {
    if i > 0 {
      assert s[1..][i - 1..i - 1 + |sub|] == s[i..i + |sub|];
      ContainsAt(s[1..], sub, i - 1);
    }
  }

  /** Go's integer division, which truncates toward zero (Dafny's `/` is
      Euclidean and differs on negative dividends). */
  function GoDiv(a: int, b: int): (q: int)
    requires b > 0
    ensures a >= 0 ==> q == a / b
    ensures a < 0 ==> q == -((-a) / b)
  {
    if a >= 0 then a / b else -((-a) / b)
  }

  /** The character of a decimal digit. */
  function DigitChar(d: int): char
    requires 0 <= d < 10
  {
    "0123456789"[d]
  }

  /** The value of a decimal digit character, or -1 for any other character. */
  function DigitValue(c: char): int
  {
    if '0' <= c <= '9' then (c as int) - ('0' as int) else -1
  }

  /** `%d` of a non-negative integer: its decimal digits, no leading zeros. */
  function Decimal(n: nat): (s: string)
    ensures |s| >= 1
    ensures forall i :: 0 <= i < |s| ==> '0' <= s[i] <= '9'
  {
    if n < 10 then [DigitChar(n)] else Decimal(n / 10) + [DigitChar(n % 10)]
  }

  /** Reads a string of decimal digits back as a number. */
  function ParseDecimal(s: string): int
  {
    if |s| == 0 then 0 else ParseDecimal(s[..|s| - 1]) * 10 + DigitValue(s[|s| - 1])
  }

  /** Rendering a number in decimal and reading it back gives the number. */
  lemma {:induction false} DecimalRoundTrip(n: nat)
    ensures ParseDecimal(Decimal(n)) == n
  {
    var s := Decimal(n);
    if n < 10 {
      assert s[..0] == [];
    } else {
      DecimalRoundTrip(n / 10);
      assert s[..|s| - 1] == Decimal(n / 10);
    }
  }

  /** Distinct numbers have distinct decimal renderings. */
  lemma DecimalInjective(a: nat, b: nat)
    ensures Decimal(a) == Decimal(b) ==> a == b
  {
    DecimalRoundTrip(a);
    DecimalRoundTrip(b);
  }

  /** A number has at most `n / 10 + 1` decimal digits. */
  lemma {:induction false} DecimalLengthBound(n: nat)
    ensures |Decimal(n)| <= n / 10 + 1
  {
    if n >= 10 {
      DecimalLengthBound(n / 10);
    }
  }

  /** Three-digit numbers have exactly three decimal digits. */
  lemma DecimalLengthThree(n: nat)
    requires 100 <= n < 1000
    ensures |Decimal(n)| == 3
  {
    assert 10 <= n / 10 < 100;
    assert n / 10 / 10 < 10;
    assert |Decimal(n / 10 / 10)| == 1;
    assert |Decimal(n / 10)| == 2;
  }
}
