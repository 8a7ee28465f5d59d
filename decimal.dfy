/**
 * Decimal rendering of integers, as `String.valueOf` produces it for the
 * integer fields of a discovery descriptor, and a reference parser that
 * inverts it.
 */
module Decimal {
  import opened Wrappers

  /** The range of Java's 32-bit `int`, which every `Integer` field and parser result lies in. */
  const IntegerMin: int := -0x8000_0000
  const IntegerMax: int := 0x7fff_ffff

  predicate IsJavaInt(n: int)
  {
    IntegerMin <= n <= IntegerMax
  }

  predicate IsDigit(c: char)
  {
    '0' <= c <= '9'
  }

  function DigitChar(d: nat): (c: char)
    requires d < 10
    ensures IsDigit(c)
  {
    ('0' as int + d) as char
  }

  function DigitValue(c: char): nat
    requires IsDigit(c)
  {
    c as int - '0' as int
  }

  /** The decimal digits of `n`, most significant first, without leading zeros. */
  function Digits(n: nat): (s: string)
    ensures |s| >= 1
    ensures forall i :: 0 <= i < |s| ==> IsDigit(s[i])
    ensures s[0] == '0' <==> n == 0
    decreases n
  {
    if n < 10 then [DigitChar(n)] else Digits(n / 10) + [DigitChar(n % 10)]
  }

  /**
   * `String.valueOf(int)`: an optional minus sign followed by at least one
   * digit, with no leading zero unless the number is zero.
   */
  function DecimalString(n: int): (s: string)
    ensures |s| >= 1
    ensures s[0] == '-' <==> n < 0
    ensures n < 0 ==> |s| >= 2
    ensures forall i :: (if n < 0 then 1 else 0) <= i < |s| ==> IsDigit(s[i])
    ensures s[if n < 0 then 1 else 0] == '0' <==> n == 0
  {
    if n < 0 then "-" + Digits(-n) else Digits(n)
  }

  /** Reads a non-empty run of decimal digits; anything else is `None`. */
  function ParseDigits(s: string): Option<nat>
    decreases |s|
  {
    if |s| == 0 || !IsDigit(s[|s| - 1]) then None
    else if |s| == 1 then Some(DigitValue(s[0]))
    else match ParseDigits(s[..|s| - 1])
      case None => None
      case Some(high) => Some(high * 10 + DigitValue(s[|s| - 1]))
  }

  /** A reference best-effort integer parser: an optional minus sign, then digits. */
  function ParseDecimal(s: string): Option<int>
  {
    if |s| > 0 && s[0] == '-' then
      match ParseDigits(s[1..])
      case None => None
      case Some(v) => Some(-(v as int))
    else
      match ParseDigits(s)
      case None => None
      case Some(v) => Some(v as int)
  }

  lemma {:induction false} ParseDigitsInvertsDigits(n: nat)
    ensures ParseDigits(Digits(n)) == Some(n)
    decreases n
  {
    if n >= 10 {
      var s := Digits(n);
      assert s[..|s| - 1] == Digits(n / 10);
      ParseDigitsInvertsDigits(n / 10);
    }
  }

  /** The reference parser reads back exactly what `DecimalString` wrote. */
  lemma ParseDecimalInvertsDecimalString(n: int)
    ensures ParseDecimal(DecimalString(n)) == Some(n)
  {
    var s := DecimalString(n);
    if n < 0 {
      var digits := Digits(-n);
      assert s == "-" + digits;
      assert s[1..] == digits;
      ParseDigitsInvertsDigits(-n);
      assert ParseDigits(s[1..]) == Some(-n);
    } else {
      assert s == Digits(n);
      assert s[0] != '-' by {
        assert IsDigit(s[0]);
      }
      ParseDigitsInvertsDigits(n);
      assert ParseDigits(s) == Some(n);
    }
  }

  /** Distinct integers never render to the same string. */
  lemma DecimalStringInjective(a: int, b: int)
    requires DecimalString(a) == DecimalString(b)
    ensures a == b
  {
    ParseDecimalInvertsDecimalString(a);
    ParseDecimalInvertsDecimalString(b);
  }
}
