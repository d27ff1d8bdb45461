// Decimal rendering of integers, as Go's strconv.Itoa does it for the ID
// column of the export, together with the reading that undoes it.

module Strconv {

  datatype Option<T> = None | Some(value: T)

  predicate IsDigit(c: char) {
    '0' <= c <= '9'
  }

  predicate AllDigits(s: string) {
    forall i :: 0 <= i < |s| ==> IsDigit(s[i])
  }

  function DigitChar(d: nat): (c: char)
    requires d < 10
    ensures IsDigit(c)
    ensures c as int - '0' as int == d
  {
    ('0' as int + d) as char
  }

  /** The value of a string of decimal digits, most significant first. */
  function DigitsValue(s: string): (v: nat)
    requires AllDigits(s)
  {
    if s == [] then 0
    else DigitsValue(s[..|s| - 1]) * 10 + (s[|s| - 1] as int - '0' as int)
  }

  /** The shortest decimal digit string of n: no leading zero, "0" for zero. */
  function NatDigits(n: nat): (s: string)
    ensures |s| > 0 && AllDigits(s)
    ensures |s| > 1 ==> s[0] != '0'
    ensures s[0] == '0' <==> n == 0
    decreases n
  {
    if n < 10 then [DigitChar(n)]
    else NatDigits(n / 10) + [DigitChar(n % 10)]
  }

  /** strconv.Itoa: an optional minus sign followed by the digits of |n|. */
  function Itoa(n: int): (s: string)
    ensures |s| > 0
    ensures n < 0 <==> s[0] == '-'
    ensures n < 0 ==> |s| > 1 && s[1] != '0'
    ensures n > 0 ==> s[0] != '0'
    ensures n == 0 ==> s == "0"
  {
    if n < 0 then "-" + NatDigits(-n) else NatDigits(n)
  }

  /** Reads an optional minus sign followed by at least one decimal digit. */
  function ParseDecimal(s: string): (r: Option<int>)
    ensures r.Some? ==> |s| > 0
  {
    if |s| > 0 && s[0] == '-' then
      if |s| > 1 && AllDigits(s[1..]) then Some(-(DigitsValue(s[1..]) as int)) else None
    else if |s| > 0 && AllDigits(s) then Some(DigitsValue(s) as int)
    else None
  }

  lemma {:induction false} NatDigitsValue(n: nat)
    ensures DigitsValue(NatDigits(n)) == n
    decreases n
  {
    var s := NatDigits(n);
    if n < 10 {
      assert s == [DigitChar(n)];
      assert s[..0] == [];
    } else {
      var p := NatDigits(n / 10);
      assert s == p + [DigitChar(n % 10)];
      assert s[..|s| - 1] == p;
      NatDigitsValue(n / 10);
    }
  }

  /** Reading back what Itoa wrote gives the same integer. */
  lemma ItoaRoundTrip(n: int)
    ensures ParseDecimal(Itoa(n)) == Some(n)
  {
    if n < 0 {
      var d := NatDigits(-n);
      assert Itoa(n)[1..] == d;
      NatDigitsValue(-n);
    } else {
      NatDigitsValue(n);
    }
  }

  /** Distinct integers are rendered as distinct strings. */
  lemma ItoaInjective(m: int, n: int)
    requires m != n
    ensures Itoa(m) != Itoa(n)
  {
    ItoaRoundTrip(m);
    ItoaRoundTrip(n);
  }
}
