/**
 * Rust's `to_string` on machine integers: the canonical decimal rendering
 * (optional '-', no '+', no leading zeros). The webhook's authorisation
 * check and the log entry's source line both go through it.
 */
module Decimal {

  /** Rust's `i64`. */
  type I64 = x: int | -0x8000_0000_0000_0000 <= x < 0x8000_0000_0000_0000

  /** Rust's `u32`. */
  type U32 = x: nat | x < 0x1_0000_0000

  predicate IsDigit(c: char) {
    '0' <= c <= '9'
  }

  predicate AllDigits(s: string) {
    forall i :: 0 <= i < |s| ==> IsDigit(s[i])
  }

  function DigitChar(d: nat): (c: char)
    requires d < 10
    ensures IsDigit(c) && c as int - '0' as int == d
  {
    (d + '0' as int) as char
  }

  function DigitValue(c: char): (d: nat)
    requires IsDigit(c)
    ensures d < 10 && DigitChar(d) == c
  {
    c as int - '0' as int
  }

  /** Decimal digits of `n`, most significant first, with no leading zero. */
  function NatToString(n: nat): (s: string)
    ensures |s| >= 1 && AllDigits(s)
    ensures s[0] == '0' <==> n == 0
    ensures n == 0 ==> s == "0"
    decreases n
  {
    if n < 10 then [DigitChar(n)] else NatToString(n / 10) + [DigitChar(n % 10)]
  }

  /** `to_string` of a signed integer: a '-' in front of the magnitude when negative. */
  function IntToString(n: int): (s: string)
    ensures SignedDigits(s)
    ensures s[0] == '-' <==> n < 0
  {
    if n < 0 then "-" + NatToString(-n) else NatToString(n)
  }

  /** The value a string of decimal digits denotes (leading zeros allowed). */
  function ParseNat(s: string): (n: nat)
    requires AllDigits(s)
    decreases |s|
  {
    if s == [] then 0 else ParseNat(s[..|s| - 1]) * 10 + DigitValue(s[|s| - 1])
  }

  /** A non-empty run of digits, optionally after a '-'. */
  predicate SignedDigits(s: string) {
    s != [] && if s[0] == '-' then AllDigits(s[1..]) else AllDigits(s)
  }

  /** The value of an optionally '-'-signed decimal string. */
  function ParseInt(s: string): (n: int)
    requires SignedDigits(s)
  {
    if s[0] == '-' then -(ParseNat(s[1..]) as int) else ParseNat(s)
  }

  /** Strings that `to_string` can produce: "0", or a non-zero first digit, optionally after '-'. */
  predicate Canonical(s: string) {
    || s == "0"
    || (s != [] && '1' <= s[0] <= '9' && AllDigits(s))
    || (|s| >= 2 && s[0] == '-' && '1' <= s[1] <= '9' && AllDigits(s[1..]))
  }

  lemma {:induction false} ParseNatToString(n: nat)
    ensures ParseNat(NatToString(n)) == n
    decreases n
  {
    var s := NatToString(n);
    if n >= 10 {
      ParseNatToString(n / 10);
      assert s[..|s| - 1] == NatToString(n / 10);
    }
  }

  /** Parsing what `to_string` printed gives the number back. */
  lemma ParseIntToString(n: int)
    ensures ParseInt(IntToString(n)) == n
  {
    if n < 0 {
      assert IntToString(n)[1..] == NatToString(-n);
      ParseNatToString(-n);
    } else {
      ParseNatToString(n);
    }
  }

  /** Distinct integers render as distinct strings. */
  lemma IntToStringInjective(a: int, b: int)
    requires IntToString(a) == IntToString(b)
    ensures a == b
  {
    ParseIntToString(a);
    ParseIntToString(b);
  }

  /** A digit string that does not start with '0' denotes a positive number. */
  lemma {:induction false} ParseNatPositive(s: string)
    requires s != [] && AllDigits(s) && s[0] != '0'
    ensures ParseNat(s) > 0
    decreases |s|
  {
    if |s| > 1 {
      ParseNatPositive(s[..|s| - 1]);
    } else {
      assert DigitValue(s[0]) != 0;
    }
  }

  /** Rendering the value of a digit string without padding zeros gives the string back. */
  lemma {:induction false} NatToStringParse(s: string)
    requires s != [] && AllDigits(s) && (|s| > 1 ==> s[0] != '0')
    ensures NatToString(ParseNat(s)) == s
    decreases |s|
  {
    if |s| > 1 {
      var init := s[..|s| - 1];
      ParseNatPositive(init);
      NatToStringParse(init);
      var n := ParseNat(s);
      assert n / 10 == ParseNat(init) && n % 10 == DigitValue(s[|s| - 1]);
      assert s == init + [s[|s| - 1]];
    }
  }

  /** A string is the rendering of `n` exactly when it is canonical and denotes `n`. */
  lemma RenderingIffCanonical(n: int, s: string)
    ensures IntToString(n) == s <==> Canonical(s) && SignedDigits(s) && ParseInt(s) == n
  {
    if IntToString(n) == s {
      IntToStringCanonical(n);
      ParseIntToString(n);
    }
    if Canonical(s) && SignedDigits(s) && ParseInt(s) == n {
      if s[0] == '-' {
        NatToStringParse(s[1..]);
        ParseNatPositive(s[1..]);
        assert s == "-" + s[1..];
      } else {
        NatToStringParse(s);
      }
    }
  }

  /** Every rendering is canonical: no '+', and no leading zero except in "0". */
  lemma IntToStringCanonical(n: int)
    ensures Canonical(IntToString(n))
  {
  }

  /** A string with a '+' sign or a padding zero is the rendering of no integer. */
  lemma NonCanonicalIsNoRendering(s: string, n: int)
    requires s != [] && (s[0] == '+' || (|s| >= 2 && s[0] == '0'))
    ensures IntToString(n) != s
  {
    IntToStringCanonical(n);
  }
}
