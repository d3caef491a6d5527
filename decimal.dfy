/** Decimal rendering of integers as `fmt`'s `%d` verb writes them, and the
    parse that inverts it. */
module Decimal {
  import opened Wrappers

  predicate IsDigit(c: char) {
    '0' <= c <= '9'
  }

  predicate AllDigits(s: string) {
    forall i :: 0 <= i < |s| ==> IsDigit(s[i])
  }

  function DigitChar(d: nat): (c: char)
    requires d < 10
    ensures IsDigit(c) && c as int - '0' as int == d
  {
    (d + '0' as int) as char
  }

  function DigitValue(c: char): (d: nat)
    requires IsDigit(c)
    ensures d < 10 && DigitChar(d) == c
  {
    c as int - '0' as int
  }

  /** The digits of `n`, most significant first, without leading zeros. */
  function FromNat(n: nat): (s: string)
    ensures s != [] && AllDigits(s)
    ensures s[0] == '0' ==> n == 0 && s == "0"
    decreases n
  {
    if n < 10 then [DigitChar(n)] else FromNat(n / 10) + [DigitChar(n % 10)]
  }

  /** `fmt.Sprintf("%d", i)`: a minus sign for negative numbers, then the digits. */
  function FromInt(i: int): (s: string)
    ensures s != []
    ensures s[0] == '-' <==> i < 0
  {
    if i < 0 then "-" + FromNat(-i) else FromNat(i)
  }

  /** The number a string of digits denotes. */
  function ValueOf(s: string): nat
    requires AllDigits(s)
  {
    if s == [] then 0 else ValueOf(s[..|s| - 1]) * 10 + DigitValue(s[|s| - 1])
  }

  /** Reads back what FromInt writes: an optional minus sign and at least one digit. */
  function ParseInt(s: string): Option<int> {
    if s != [] && s[0] == '-' then
      if |s| > 1 && AllDigits(s[1..]) then Some(0 - ValueOf(s[1..])) else None
    else
      if s != [] && AllDigits(s) then Some(ValueOf(s)) else None
  }

  lemma {:induction false} NatRoundTrip(n: nat)
    ensures ValueOf(FromNat(n)) == n
    decreases n
  {
    if n >= 10 {
      var s := FromNat(n);
      assert s[..|s| - 1] == FromNat(n / 10);
      NatRoundTrip(n / 10);
    }
  }

  lemma IntRoundTrip(i: int)
    ensures ParseInt(FromInt(i)) == Some(i)
  {
    var s := FromInt(i);
    if i < 0 {
      var digits := FromNat(-i);
      assert s == "-" + digits;
      assert s[1..] == digits;
      NatRoundTrip(-i);
      assert ParseInt(s) == Some(0 - ValueOf(digits));
    } else {
      NatRoundTrip(i);
      assert s[0] != '-';
    }
  }

  /** Different numbers are written differently. */
  lemma FromIntInjective(i: int, j: int)
    requires FromInt(i) == FromInt(j)
    ensures i == j
  {
    IntRoundTrip(i);
    IntRoundTrip(j);
  }
}
