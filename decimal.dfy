/**
 * Decimal text of integers, as Number.prototype.toString produces it for an
 * integral value, together with the reading back of a digit string.
 */
module Decimal {

  predicate IsDigit(c: char) { '0' <= c <= '9' }

  predicate AllDigits(s: string) { forall i :: 0 <= i < |s| ==> IsDigit(s[i]) }

  function DigitChar(d: nat): (c: char)
    requires d < 10
    ensures IsDigit(c) && DigitValue(c) == d
  {
    "0123456789"[d]
  }

  function DigitValue(c: char): nat
    requires IsDigit(c)
  {
    c as nat - '0' as nat
  }

  /** Shortest decimal text of n: no leading zero unless n is 0. */
  function NatToString(n: nat): (s: string)
    ensures |s| >= 1 && AllDigits(s)
    ensures s[0] == '0' <==> n == 0
    decreases n
  {
    if n < 10 then [DigitChar(n)] else NatToString(n / 10) + [DigitChar(n % 10)]
  }

  /** Template-literal text of an integer: a minus sign, then the digits. */
  function IntToString(i: int): (s: string)
    ensures |s| >= 1
    ensures s[0] == '-' <==> i < 0
  {
    if i < 0 then "-" + NatToString(-i) else NatToString(i)
  }

  /** The value of a string of decimal digits (the empty string reads as 0). */
  function ParseDigits(s: string): nat
    requires AllDigits(s)
    decreases |s|
  {
    if s == [] then 0 else ParseDigits(s[..|s| - 1]) * 10 + DigitValue(s[|s| - 1])
  }

  lemma {:induction false} ParseNatToString(n: nat)
    ensures ParseDigits(NatToString(n)) == n
    decreases n
  {
    var s := NatToString(n);
    if n >= 10 {
      ParseNatToString(n / 10);
      assert s[..|s| - 1] == NatToString(n / 10);
    }
  }

  lemma NatToStringInjective(a: nat, b: nat)
    requires NatToString(a) == NatToString(b)
    ensures a == b
  {
    ParseNatToString(a);
    ParseNatToString(b);
  }

  lemma IntToStringInjective(a: int, b: int)
    requires IntToString(a) == IntToString(b)
    ensures a == b
  {
    var s := IntToString(a);
    if a < 0 {
      assert b < 0 by { assert s[0] == '-'; }
      var na, nb: nat := -a, -b;
      assert s == "-" + NatToString(na) && s == "-" + NatToString(nb);
      assert s[1..] == NatToString(na) && s[1..] == NatToString(nb);
      NatToStringInjective(na, nb);
    } else {
      assert b >= 0 by { assert s[0] != '-'; }
      NatToStringInjective(a, b);
    }
  }

  /** k copies of the character '0'. */
  function Zeros(k: nat): (z: string)
    ensures |z| == k && AllDigits(z)
    ensures forall i :: 0 <= i < k ==> z[i] == '0'
  {
    seq(k, _ => '0')
  }

  lemma {:induction false} ParseZeros(k: nat)
    ensures ParseDigits(Zeros(k)) == 0
  {
    if k > 0 {
      assert Zeros(k)[..k - 1] == Zeros(k - 1);
      ParseZeros(k - 1);
    }
  }

  /** Leading zeros do not change the value of a digit string. */
  lemma {:induction false} ParseLeadingZeros(k: nat, s: string)
    requires AllDigits(s)
    ensures AllDigits(Zeros(k) + s)
    ensures ParseDigits(Zeros(k) + s) == ParseDigits(s)
    decreases |s|
  {
    var t := Zeros(k) + s;
    assert AllDigits(t) by {
      forall i | 0 <= i < |t| ensures IsDigit(t[i]) {
        if i < k { assert t[i] == '0'; } else { assert t[i] == s[i - k]; }
      }
    }
    if s == [] {
      assert t == Zeros(k);
      ParseZeros(k);
    } else {
      assert t[..|t| - 1] == Zeros(k) + s[..|s| - 1];
      ParseLeadingZeros(k, s[..|s| - 1]);
    }
  }

  /** Drop leading '0' characters, always keeping at least one character. */
  function StripLeadingZeros(s: string): string
    decreases |s|
  {
    if |s| > 1 && s[0] == '0' then StripLeadingZeros(s[1..]) else s
  }

  lemma {:induction false} StripZerosOfNatToString(k: nat, n: nat)
    ensures StripLeadingZeros(Zeros(k) + NatToString(n)) == NatToString(n)
    decreases k
  {
    var d := NatToString(n);
    if k > 0 {
      assert (Zeros(k) + d)[1..] == Zeros(k - 1) + d;
      StripZerosOfNatToString(k - 1, n);
    } else {
      assert Zeros(k) + d == d;
    }
  }
}
