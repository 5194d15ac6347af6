/** Decimal text of integers, as Go's `%d` verb prints them: an optional
    minus sign followed by the digits of the magnitude, without leading
    zeros. `ToInt` reads such text back and is the inverse of `FromInt`. */
module Decimal {

  predicate IsDigit(c: char) {
    '0' <= c <= '9'
  }

  predicate IsDigits(s: string) {
    forall i :: 0 <= i < |s| ==> IsDigit(s[i])
  }

  /** Text `ToInt` reads: a non-empty run of digits, optionally preceded
      by a single '-'. */
  predicate IsIntText(s: string) {
    if |s| > 0 && s[0] == '-' then |s| > 1 && IsDigits(s[1..]) else |s| > 0 && IsDigits(s)
  }

  function DigitChar(d: nat): (c: char)
    requires d < 10
    ensures IsDigit(c)
  {
    ('0' as int + d) as char
  }

  function DigitValue(c: char): (d: nat)
    requires IsDigit(c)
    ensures d < 10
  {
    c as int - '0' as int
  }

  /** The digits of `n`, most significant first. */
  function FromNat(n: nat): (s: string)
    ensures |s| > 0 && IsDigits(s)
    ensures s[0] == '0' <==> n == 0
    ensures n == 0 ==> s == "0"
  {
    if n < 10 then [DigitChar(n)] else FromNat(n / 10) + [DigitChar(n % 10)]
  }

  /** `%d` of a signed integer. */
  function FromInt(i: int): (s: string)
    ensures IsIntText(s)
    ensures forall k :: 0 <= k < |s| ==> s[k] == '-' || IsDigit(s[k])
    ensures s[0] == '-' <==> i < 0
    ensures s[0] == '-' ==> s[1] != '0'
    ensures s[0] == '0' ==> s == "0"
  {
    if i < 0 then "-" + FromNat(-i) else FromNat(i)
  }

  function ToNat(s: string): nat
    requires IsDigits(s)
  {
    if |s| == 0 then 0 else 10 * ToNat(s[..|s| - 1]) + DigitValue(s[|s| - 1])
  }

  function ToInt(s: string): int
    requires IsIntText(s)
  {
    if s[0] == '-' then -(ToNat(s[1..]) as int) else ToNat(s)
  }

  lemma {:induction false} NatRoundTrip(n: nat)
    ensures ToNat(FromNat(n)) == n
  {
    var s := FromNat(n);
    if n < 10 {
      assert s[..|s| - 1] == [];
    } else {
      NatRoundTrip(n / 10);
      assert s[..|s| - 1] == FromNat(n / 10);
    }
  }

  lemma IntRoundTrip(i: int)
    ensures ToInt(FromInt(i)) == i
  {
    var s := FromInt(i);
    if i < 0 {
      assert s[1..] == FromNat(-i);
      NatRoundTrip(-i);
    } else {
      NatRoundTrip(i);
    }
  }
}
