/**
 * Exact decimal text for amounts held as integer cents: the model of
 * `Number.prototype.toFixed(2)` (ECMA-262, section 21.1.3.3) applied to a
 * value that is a whole number of cents, and the decimal rendering of
 * integers used where the page prints a number as it is.
 */
module Decimal {
  import opened Wrappers

  predicate IsDigit(c: char) { '0' <= c <= '9' }

  predicate AllDigits(s: string) { forall i :: 0 <= i < |s| ==> IsDigit(s[i]) }

  /** No character of `s` is a minus sign. */
  predicate Unsigned(s: string) { forall i :: 0 <= i < |s| ==> s[i] != '-' }

  lemma {:induction false} UnsignedConcat(a: string, b: string)
    requires Unsigned(a) && Unsigned(b)
    ensures Unsigned(a + b)
  {
    forall i | 0 <= i < |a + b| ensures (a + b)[i] != '-' {
      if i >= |a| { assert (a + b)[i] == b[i - |a|]; }
    }
  }

  function Abs(x: int): nat { if x < 0 then -x else x }

  function DigitChar(d: nat): (c: char)
    requires d < 10
    ensures IsDigit(c) && DigitValue(c) == d
  {
    (('0' as int) + d) as char
  }

  function DigitValue(c: char): (d: nat)
    requires IsDigit(c)
    ensures d < 10
  {
    (c as int) - ('0' as int)
  }

  /** The shortest decimal numeral of `n`: digits only, no leading zero. */
  function NatToDigits(n: nat): (s: string)
    ensures |s| > 0 && AllDigits(s)
    ensures |s| > 1 ==> s[0] != '0'
    ensures n < 10 <==> |s| == 1
    decreases n
  {
    if n < 10 then [DigitChar(n)] else NatToDigits(n / 10) + [DigitChar(n % 10)]
  }

  /** The value of a numeral (the reading direction, used to state round trips). */
  function DigitsToNat(s: string): nat
    requires AllDigits(s)
  {
    if s == [] then 0 else DigitsToNat(s[..|s| - 1]) * 10 + DigitValue(s[|s| - 1])
  }

  lemma {:induction false} DigitsToNatOfNatToDigits(n: nat)
    ensures DigitsToNat(NatToDigits(n)) == n
  {
    var s := NatToDigits(n);
    if n >= 10 {
      assert s[..|s| - 1] == NatToDigits(n / 10);
      DigitsToNatOfNatToDigits(n / 10);
    }
  }

  /**
   * `x.toFixed(2)` for x = cents / 100: an optional minus sign, the whole
   * part without leading zeros, a point and exactly two fraction digits.
   */
  function ToFixed2(cents: int): (s: string)
    ensures |s| >= 4 && s[|s| - 3] == '.' && IsDigit(s[|s| - 2]) && IsDigit(s[|s| - 1])
    ensures (s[0] == '-') <==> cents < 0
    ensures cents >= 0 ==> Unsigned(s)
  {
    if cents < 0 then "-" + UnsignedFixed2(-cents) else UnsignedFixed2(cents)
  }

  /** The digits of `toFixed(2)` for a non-negative amount `m` in cents. */
  function UnsignedFixed2(m: nat): (s: string)
    ensures |s| >= 4 && s[|s| - 3] == '.' && IsDigit(s[|s| - 2]) && IsDigit(s[|s| - 1])
    ensures IsDigit(s[0]) && Unsigned(s)
  {
    NatToDigits(m / 100) + "." + [DigitChar(m % 100 / 10), DigitChar(m % 10)]
  }

  /** Reads back a numeral in the shape `ToFixed2` writes. */
  function ParseFixed2(s: string): Option<int>
  {
    if s != [] && s[0] == '-' then
      match ParseUnsignedFixed2(s[1..])
      case Some(m) => Some(0 - m)
      case None => None
    else ParseUnsignedFixed2(s)
  }

  /** Reads back a numeral of digits, a point and two fraction digits. */
  function ParseUnsignedFixed2(s: string): Option<nat>
  {
    if |s| < 4 || s[|s| - 3] != '.' || !AllDigits(s[..|s| - 3]) || !AllDigits(s[|s| - 2..]) then None
    else Some(DigitsToNat(s[..|s| - 3]) * 100 + DigitsToNat(s[|s| - 2..]))
  }

  /** The two fraction digits of `m` (below 100) read back as `m`. */
  lemma {:induction false} FractionDigits(m: nat)
    requires m < 100
    ensures DigitsToNat([DigitChar(m / 10), DigitChar(m % 10)]) == m
  {
    var frac := [DigitChar(m / 10), DigitChar(m % 10)];
    assert frac[..1] == [frac[0]] && [frac[0]][..0] == [];
    assert DigitsToNat(frac[..1]) == m / 10;
  }

  /** `ParseUnsignedFixed2` on a whole part, a point and two digits. */
  lemma {:induction false} ParseUnsignedShape(whole: string, frac: string)
    requires whole != [] && AllDigits(whole) && |frac| == 2 && AllDigits(frac)
    ensures ParseUnsignedFixed2(whole + "." + frac)
              == Some(DigitsToNat(whole) * 100 + DigitsToNat(frac))
  {
    PointSplit(whole, frac);
    ParseUnsignedSplit(whole + "." + frac);
  }

  /** Where the point sits in a whole part, a point and two digits. */
  lemma {:induction false} PointSplit(whole: string, frac: string)
    requires |frac| == 2
    ensures var s := whole + "." + frac;
      |s| == |whole| + 3 && s[..|s| - 3] == whole && s[|s| - 3] == '.' && s[|s| - 2..] == frac
  {
    var s := whole + "." + frac;
    assert s[..|whole|] == whole;
    assert s[|whole| + 1..] == frac;
  }

  /** `ParseUnsignedFixed2` accepts a numeral whose point and digits are in place. */
  lemma {:induction false} ParseUnsignedSplit(s: string)
    requires |s| >= 4 && s[|s| - 3] == '.'
    requires AllDigits(s[..|s| - 3]) && AllDigits(s[|s| - 2..])
    ensures ParseUnsignedFixed2(s) == Some(DigitsToNat(s[..|s| - 3]) * 100 + DigitsToNat(s[|s| - 2..]))
  {
  }

  /** Two-decimal formatting loses nothing for an amount in whole cents. */
  lemma {:induction false} ParseToFixed2(cents: int)
    ensures ParseFixed2(ToFixed2(cents)) == Some(cents)
  {
    var m := Abs(cents);
    ParseUnsignedFixed2OfUnsigned(m);
    if cents < 0 {
      var u := UnsignedFixed2(m);
      assert ToFixed2(cents) == "-" + u;
      assert ("-" + u)[1..] == u;
    }
  }

  /** The unsigned part of the round trip. */
  lemma {:induction false} ParseUnsignedFixed2OfUnsigned(m: nat)
    ensures ParseUnsignedFixed2(UnsignedFixed2(m)) == Some(m)
  {
    var q, r := m / 100, m % 100;
    assert m == q * 100 + r;
    assert r / 10 == m % 100 / 10 && r % 10 == m % 10;
    var whole := NatToDigits(q);
    var frac := [DigitChar(r / 10), DigitChar(r % 10)];
    assert UnsignedFixed2(m) == whole + "." + frac;
    ParseUnsignedShape(whole, frac);
    DigitsToNatOfNatToDigits(q);
    FractionDigits(r);
  }

  /** Distinct amounts are always printed differently. */
  lemma {:induction false} ToFixed2Injective(a: int, b: int)
    ensures ToFixed2(a) == ToFixed2(b) ==> a == b
  {
    ParseToFixed2(a);
    ParseToFixed2(b);
  }

  /** `String(n)` for an integer: an optional minus sign and the numeral of |n|. */
  function IntToString(n: int): (s: string)
    ensures ParseInt(s) == Some(n)
  {
    var digits := NatToDigits(Abs(n));
    DigitsToNatOfNatToDigits(Abs(n));
    if n < 0 then
      assert ("-" + digits)[1..] == digits;
      "-" + digits
    else
      digits
  }

  /** Reads back an integer numeral. */
  function ParseInt(s: string): Option<int>
  {
    if s == [] then None
    else if s[0] == '-' then
      if |s| > 1 && AllDigits(s[1..]) then Some(0 - DigitsToNat(s[1..])) else None
    else if AllDigits(s) then Some(DigitsToNat(s))
    else None
  }
}
