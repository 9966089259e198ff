/** Decimal text of an integer, as Go's `fmt.Sprint` writes an `int32`, and the reading that inverts it. */
module Fmt {
  import opened Wrappers

  predicate IsDigit(c: char) {
    '0' <= c <= '9'
  }

  predicate AllDigits(s: string) {
    forall i :: 0 <= i < |s| ==> IsDigit(s[i])
  }

  function DigitChar(d: nat): (c: char)
    requires d < 10
    ensures IsDigit(c) && c as int - '0' as int == d
  {
    ('0' as int + d) as char
  }

  function DigitValue(c: char): (d: nat)
    requires IsDigit(c)
    ensures d < 10 && DigitChar(d) == c
  {
    c as int - '0' as int
  }

  /** The digits of `n`, most significant first, with no leading zero. */
  function NatDigits(n: nat): (s: string)
    ensures |s| >= 1 && AllDigits(s)
    ensures s[0] == '0' ==> s == "0"
    ensures s == "0" <==> n == 0
    decreases n
  {
    if n < 10 then [DigitChar(n)] else NatDigits(n / 10) + [DigitChar(n % 10)]
  }

  /** The value of a digit string read most significant digit first. */
  function DigitsValue(s: string): (v: nat)
    requires AllDigits(s)
    decreases |s|
  {
    if s == [] then 0 else 10 * DigitsValue(s[..|s| - 1]) + DigitValue(s[|s| - 1])
  }

  /** `fmt.Sprint` of an integer: an optional minus sign, then the digits of the magnitude. */
  function FormatInt(n: int): (s: string)
    ensures |s| >= 1
    ensures s[0] == '-' <==> n < 0
    ensures n >= 0 ==> AllDigits(s)
    ensures var m := if n < 0 then s[1..] else s;
      |m| >= 1 && AllDigits(m) && (m[0] == '0' ==> m == "0")
  {
    if n < 0 then "-" + NatDigits(-n) else NatDigits(n)
  }

  /** Reads an optionally negative decimal numeral; anything else is rejected. */
  function ParseInt(s: string): (r: Option<int>)
    ensures r.Some? ==> |s| >= 1
  {
    if |s| >= 2 && s[0] == '-' && AllDigits(s[1..]) then Some(-(DigitsValue(s[1..]) as int))
    else if |s| >= 1 && AllDigits(s) then Some(DigitsValue(s))
    else None
  }

  lemma {:induction false} NatDigitsValue(n: nat)
    ensures DigitsValue(NatDigits(n)) == n
    decreases n
  {
    var s := NatDigits(n);
    if n >= 10 {
      NatDigitsValue(n / 10);
      assert s[..|s| - 1] == NatDigits(n / 10);
      assert s[|s| - 1] == DigitChar(n % 10);
    } else {
      assert s[..|s| - 1] == [];
    }
  }

  /** Reading back the text written for any integer gives that integer. */
  lemma FormatIntRoundTrip(n: int)
    ensures ParseInt(FormatInt(n)) == Some(n)
  {
    if n < 0 {
      var m := NatDigits(-n);
      assert FormatInt(n) == "-" + m;
      assert ("-" + m)[1..] == m;
      NatDigitsValue(-n);
      assert ParseInt("-" + m) == Some(-(DigitsValue(m) as int));
    } else {
      var m := NatDigits(n);
      assert FormatInt(n) == m && m[0] != '-';
      NatDigitsValue(n);
      assert ParseInt(m) == Some(DigitsValue(m) as int);
    }
  }

  /** Different integers are written differently, so the text determines the integer. */
  lemma FormatIntInjective(a: int, b: int)
    ensures FormatInt(a) == FormatInt(b) <==> a == b
  {
    FormatIntRoundTrip(a);
    FormatIntRoundTrip(b);
  }

  lemma FormatDefaultPort()
    ensures FormatInt(9090) == "9090"
  {
  }
}
