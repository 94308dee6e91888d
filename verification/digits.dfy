/**
  Decimal digit strings: the rendering of non-negative integers in a template
  literal (`${status}`), the launcher's port literal "8080", and the value a
  digit string denotes.
 */
module Digits {

  predicate IsDigit(c: char) {
    '0' <= c <= '9'
  }

  predicate AllDigits(s: string) {
    forall i :: 0 <= i < |s| ==> IsDigit(s[i])
  }

  function DigitValue(c: char): (d: nat)
    requires IsDigit(c)
    ensures d < 10
  {
    c as int - '0' as int
  }

  function DigitChar(d: nat): (c: char)
    requires d < 10
    ensures IsDigit(c) && DigitValue(c) == d
  {
    ('0' as int + d) as char
  }

  /** The number a string of decimal digits denotes, most significant digit first. */
  function ValueOf(s: string): nat
    requires AllDigits(s)
  {
    if s == [] then 0 else ValueOf(s[..|s| - 1]) * 10 + DigitValue(s[|s| - 1])
  }

  /** The shortest decimal rendering of `n`: no sign, no leading zero. */
  function NatToDecimal(n: nat): (s: string)
    ensures s != [] && AllDigits(s)
    ensures ValueOf(s) == n
    ensures s[0] == '0' ==> s == "0"
  {
    if n < 10 then
      [DigitChar(n)]
    else
      var prefix := NatToDecimal(n / 10);
      var s := prefix + [DigitChar(n % 10)];
      assert s[..|s| - 1] == prefix;
      s
  }

  /** The last digit of the rendering is the value's last decimal digit. */
  lemma LastDigit(n: nat)
    ensures var s := NatToDecimal(n); s[|s| - 1] == DigitChar(n % 10)
  {
  }

  /** Zeros in front of a digit string do not change its value. */
  lemma {:induction false} LeadingZerosValue(z: string, t: string)
    requires forall i :: 0 <= i < |z| ==> z[i] == '0'
    requires AllDigits(t)
    ensures AllDigits(z + t) && ValueOf(z + t) == ValueOf(t)
  {
    if t == [] {
      assert z + t == z;
      ZerosValue(z);
    } else {
      LeadingZerosValue(z, t[..|t| - 1]);
      assert (z + t)[..|z + t| - 1] == z + t[..|t| - 1];
    }
  }

  lemma {:induction false} ZerosValue(z: string)
    requires forall i :: 0 <= i < |z| ==> z[i] == '0'
    ensures AllDigits(z) && ValueOf(z) == 0
  {
    if z != [] {
      ZerosValue(z[..|z| - 1]);
    }
  }

  /** The default port of the backend launcher, written out. */
  lemma EightyEighty()
    ensures NatToDecimal(8080) == "8080"
  {
    EightHundredEight();
    assert NatToDecimal(8080) == NatToDecimal(808) + ['0'];
  }

  lemma EightHundredEight()
    ensures NatToDecimal(808) == "808"
  {
    assert NatToDecimal(80) == NatToDecimal(8) + ['0'];
    assert NatToDecimal(808) == NatToDecimal(80) + ['8'];
  }
}
