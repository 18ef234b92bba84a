/** The integer primitives the authorization engine relies on: the `u32`
    account and resource ids, the `i32` database columns, the `as i32` cast,
    `to_string()` on both widths and `str::parse::<u32>()`. */
module Decimal {
  import opened Wrappers

  type U32 = n: int | 0 <= n < 0x1_0000_0000
  type I32 = i: int | -0x8000_0000 <= i < 0x8000_0000

  /** `u as i32`: keeps the low 32 bits and reads them in two's complement. */
  function AsI32(u: U32): (r: I32)
    ensures (r - u) % 0x1_0000_0000 == 0
    ensures u < 0x8000_0000 ==> r == u
    ensures u >= 0x8000_0000 ==> r < 0
  {
    if u < 0x8000_0000 then u else u - 0x1_0000_0000
  }

  predicate IsDigit(c: char) {
    '0' <= c <= '9'
  }

  predicate AllDigits(s: string) {
    forall i :: 0 <= i < |s| ==> IsDigit(s[i])
  }

  function DigitValue(c: char): (d: nat)
    requires IsDigit(c)
    ensures d < 10
  {
    c as int - '0' as int
  }

  function DigitChar(d: nat): (c: char)
    requires d < 10
    ensures IsDigit(c) && DigitValue(c) == d
  {
    ('0' as int + d) as char
  }

  /** The number a string of decimal digits denotes, most significant digit first. */
  function DecimalValue(s: string): nat
    requires AllDigits(s)
  {
    if |s| == 0 then 0 else 10 * DecimalValue(s[..|s| - 1]) + DigitValue(s[|s| - 1])
  }

  /** `n.to_string()` for a non-negative integer: its shortest decimal
      rendering, without sign and without leading zeros. */
  function NatToDecimal(n: nat): (s: string)
    ensures 0 < |s| && AllDigits(s)
    ensures s[0] == '0' ==> s == "0"
  {
    if n < 10 then [DigitChar(n)] else NatToDecimal(n / 10) + [DigitChar(n % 10)]
  }

  /** `i.to_string()` for an `i32`: a minus sign before the magnitude when negative. */
  function IntToDecimal(i: int): (s: string)
    ensures 0 < |s|
    ensures s[0] == '-' <==> i < 0
  {
    if i < 0 then "-" + NatToDecimal(-i) else NatToDecimal(i)
  }

  /** `s.parse::<u32>()`: an optional leading '+', then at least one ASCII
      digit, and a value below 2^32; anything else is an error. */
  function ParseU32(s: string): (r: Option<U32>)
    ensures r.Some? ==> 0 < |s| && forall i :: 0 <= i < |s| ==> IsDigit(s[i]) || (i == 0 && s[i] == '+')
    ensures var d := if 0 < |s| && s[0] == '+' then s[1..] else s;
      (r.Some? <==> 0 < |d| && AllDigits(d) && DecimalValue(d) < 0x1_0000_0000) &&
      (r.Some? ==> r.value == DecimalValue(d))
  {
    var digits := if 0 < |s| && s[0] == '+' then s[1..] else s;
    if |digits| == 0 || !AllDigits(digits) then None
    else if DecimalValue(digits) < 0x1_0000_0000 then Some(DecimalValue(digits))
    else None
  }

  /** Reading back the rendering of `n` gives `n`. */
  lemma {:induction false} NatToDecimalRoundTrip(n: nat)
    ensures DecimalValue(NatToDecimal(n)) == n
  {
    if n >= 10 {
      var s := NatToDecimal(n / 10);
      NatToDecimalRoundTrip(n / 10);
      assert (s + [DigitChar(n % 10)])[..|s|] == s;
    }
  }

  /** Two integers render to the same string exactly when they are equal:
      comparing renderings, as the owner check does, is comparing numbers. */
  lemma IntToDecimalInjective(i: int, j: int)
    ensures IntToDecimal(i) == IntToDecimal(j) <==> i == j
  {
    if IntToDecimal(i) == IntToDecimal(j) {
      if i < 0 {
        assert IntToDecimal(i)[1..] == NatToDecimal(-i);
        assert IntToDecimal(j)[1..] == NatToDecimal(-j);
        NatToDecimalRoundTrip(-i);
        NatToDecimalRoundTrip(-j);
      } else {
        NatToDecimalRoundTrip(i);
        NatToDecimalRoundTrip(j);
      }
    }
  }

  /** Leading zeros and a leading '+' are accepted; a minus sign and an
      empty string are not. */
  lemma ParseU32Examples()
    ensures ParseU32("17") == Some(17) && ParseU32("017") == Some(17) && ParseU32("+17") == Some(17)
    ensures ParseU32("-17") == None && ParseU32("") == None && ParseU32("+") == None
  {
    assert DecimalValue("0") == 0 by { assert "0"[..0] == ""; }
    assert DecimalValue("01") == 1 by { assert "01"[..1] == "0"; }
    assert DecimalValue("1") == 1 by { assert "1"[..0] == ""; }
    assert DecimalValue("017") == 17 by { assert "017"[..2] == "01"; }
    assert DecimalValue("17") == 17 by { assert "17"[..1] == "1"; }
    assert "+17"[1..] == "17";
  }

  /** A number of 2^32 or more, written in decimal, overflows the parse. */
  lemma ParseU32RejectsOverflow(n: nat)
    requires n >= 0x1_0000_0000
    ensures ParseU32(NatToDecimal(n)) == None
  {
    NatToDecimalRoundTrip(n);
  }

  /** The decimal rendering of a `u32` parses back to it. */
  lemma ParseU32RoundTrip(n: U32)
    ensures ParseU32(NatToDecimal(n)) == Some(n)
  {
    NatToDecimalRoundTrip(n);
  }
}
