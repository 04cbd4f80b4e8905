/** Decimal rendering of integers, as `strconv.Itoa` produces it for the error
    label of an HTTP status code, together with its inverse. */
module Strconv {
  import opened Common

  predicate IsDigit(c: char) {
    '0' <= c <= '9'
  }

  function DigitChar(d: nat): (c: char)
    requires d < 10
    ensures IsDigit(c) && c as int - '0' as int == d
  {
    "0123456789"[d]
  }

  /** The shortest decimal spelling of `n`: digits only, no leading zero. */
  function NatToDecimal(n: nat): (s: string)
    ensures |s| >= 1
    ensures forall i :: 0 <= i < |s| ==> IsDigit(s[i])
    ensures |s| > 1 ==> s[0] != '0'
    decreases n
  {
    if n < 10 then [DigitChar(n)] else NatToDecimal(n / 10) + [DigitChar(n % 10)]
  }

  /** `strconv.Itoa`: a minus sign before the digits of a negative value. */
  function Itoa(n: int): (s: string)
    ensures |s| >= 1
    ensures n >= 0 <==> s[0] != '-'
  {
    if n < 0 then "-" + NatToDecimal(-n) else NatToDecimal(n)
  }

  /** The value a string of decimal digits denotes, read left to right. */
  function DecimalValue(s: string): (v: int)
    requires forall i :: 0 <= i < |s| ==> IsDigit(s[i])
    ensures v >= 0
  {
    if s == [] then 0
    else
      assert IsDigit(s[|s| - 1]);
      DecimalValue(s[..|s| - 1]) * 10 + (s[|s| - 1] as int - '0' as int)
  }

  /** The inverse of `Itoa`: the integer a decimal spelling stands for. */
  function ParseInt(s: string): Option<int> {
    if |s| > 1 && s[0] == '-' && forall i :: 1 <= i < |s| ==> IsDigit(s[i]) then
      Some(-DecimalValue(s[1..]))
    else if |s| > 0 && forall i :: 0 <= i < |s| ==> IsDigit(s[i]) then
      Some(DecimalValue(s))
    else
      None
  }

  lemma {:induction false} DecimalValueOfNat(n: nat)
    ensures DecimalValue(NatToDecimal(n)) == n
    decreases n
  {
    if n >= 10 {
      DecimalValueOfNat(n / 10);
      var s := NatToDecimal(n);
      assert s[..|s| - 1] == NatToDecimal(n / 10);
    }
  }

  /** Reading back what `Itoa` wrote gives the original integer. */
  lemma ItoaRoundTrip(n: int)
    ensures ParseInt(Itoa(n)) == Some(n)
  {
    var s := Itoa(n);
    if n < 0 {
      var digits := NatToDecimal(-n);
      DecimalValueOfNat(-n);
      assert s[1..] == digits;
      assert forall i :: 1 <= i < |s| ==> IsDigit(s[i]) by {
        forall i | 1 <= i < |s| ensures IsDigit(s[i]) { assert s[i] == digits[i - 1]; }
      }
    } else {
      DecimalValueOfNat(n);
      assert !(|s| > 1 && s[0] == '-');
    }
  }

  /** Distinct integers are spelled differently, so distinct status codes land
      in distinct error series. */
  lemma ItoaInjective(a: int, b: int)
    requires Itoa(a) == Itoa(b)
    ensures a == b
  {
    ItoaRoundTrip(a);
    ItoaRoundTrip(b);
  }

  /** The spellings of the status codes that appear as error labels. */
  lemma ItoaStatusCodes()
    ensures Itoa(400) == "400" && Itoa(500) == "500"
  {
    assert NatToDecimal(4) == "4" && NatToDecimal(5) == "5";
    assert NatToDecimal(40) == "40" && NatToDecimal(50) == "50";
  }
}
