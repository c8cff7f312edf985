/**
 * The quiz countdown's `m:ss` rendering (`formatTime`): whole minutes without
 * padding, a colon, then the seconds within the minute padded to two digits.
 */
module TimeFormat {

  predicate IsDigit(c: char)
  {
    '0' <= c <= '9'
  }

  predicate AllDigits(s: string)
  {
    forall i :: 0 <= i < |s| ==> IsDigit(s[i])
  }

  function DigitChar(d: nat): (c: char)
    requires d < 10
    ensures IsDigit(c)
  {
    "0123456789"[d]
  }

  function DigitValue(c: char): (d: nat)
    requires IsDigit(c)
    ensures d < 10
    ensures DigitChar(d) == c
  {
    c as int - '0' as int
  }

  /** JavaScript's `toString()` of a non-negative integer: decimal, no leading zeros. */
  function NatToString(n: nat): (s: string)
    ensures 1 <= |s| && AllDigits(s)
    ensures |s| == 1 <==> n < 10
    ensures s[0] == '0' <==> n == 0
  {
    if n < 10 then [DigitChar(n)] else NatToString(n / 10) + [DigitChar(n % 10)]
  }

  /** Reads a string of decimal digits back as a number; leading zeros are harmless. */
  function ParseNat(s: string): nat
    requires AllDigits(s)
  {
    if s == [] then 0 else ParseNat(s[..|s| - 1]) * 10 + DigitValue(s[|s| - 1])
  }

  /** `toString` and `ParseNat` are inverse: the decimal text of `n` denotes `n`. */
  lemma {:induction false} ParseNatToString(n: nat)
    ensures ParseNat(NatToString(n)) == n
  {
    var s := NatToString(n);
    if n >= 10 {
      ParseNatToString(n / 10);
      assert s[..|s| - 1] == NatToString(n / 10);
      assert DigitValue(s[|s| - 1]) == n % 10;
    } else {
      assert DigitValue(s[0]) == n;
    }
  }

  /** `padStart(2, '0')`: prefixes zeros until the text is two characters long. */
  function PadStart2(s: string): (r: string)
    requires AllDigits(s)
    ensures AllDigits(r)
    ensures |r| == if |s| >= 2 then |s| else 2
    decreases 2 - |s|
  {
    if |s| >= 2 then s else PadStart2(['0'] + s)
  }

  /** Padding only puts zeros in front: the text itself ends the result unchanged. */
  lemma {:induction false} PadStart2Prefixes(s: string)
    requires AllDigits(s)
    ensures |s| <= |PadStart2(s)| && PadStart2(s)[|PadStart2(s)| - |s|..] == s
    ensures forall i :: 0 <= i < |PadStart2(s)| - |s| ==> PadStart2(s)[i] == '0'
    decreases 2 - |s|
  {
    if |s| < 2 {
      var z := ['0'] + s;
      PadStart2Prefixes(z);
      var r := PadStart2(s);
      assert r == PadStart2(z);
      assert r[|r| - |z|..] == z;
      assert r[|r| - |s|..] == z[1..];
    }
  }

  /** Padding with zeros does not change the number the digits denote. */
  lemma {:induction false} ParsePadStart2(s: string)
    requires AllDigits(s)
    ensures ParseNat(PadStart2(s)) == ParseNat(s)
    decreases 2 - |s|
  {
    if |s| < 2 {
      ParseLeadingZero(s);
      ParsePadStart2(['0'] + s);
    }
  }

  lemma {:induction false} ParseLeadingZero(s: string)
    requires AllDigits(s)
    ensures ParseNat(['0'] + s) == ParseNat(s)
  {
    if s != [] {
      var t := ['0'] + s;
      assert t[..|t| - 1] == ['0'] + s[..|s| - 1];
      ParseLeadingZero(s[..|s| - 1]);
    } else {
      assert (['0'] + s)[..0] == [];
    }
  }

  /**
   * `formatTime(seconds)`: `mins:ss` with `mins = seconds div 60` and `ss` the seconds
   * left over, always two digits. The minutes are never padded: a field longer than
   * one digit does not start with 0. Read back, the two fields give the minutes and the
   * seconds below 60 that make up `seconds`.
   */
  function FormatTime(seconds: nat): (t: string)
    ensures |t| >= 4 && t[|t| - 3] == ':'
    ensures |t| > 4 ==> t[0] != '0'
    ensures AllDigits(t[..|t| - 3]) && AllDigits(t[|t| - 2..])
    ensures ParseNat(t[|t| - 2..]) < 60
    ensures ParseNat(t[..|t| - 3]) * 60 + ParseNat(t[|t| - 2..]) == seconds
  {
    var mins := seconds / 60;
    var secs := seconds % 60;
    var m := NatToString(mins);
    var ss := PadStart2(NatToString(secs));
    ParseNatToString(mins);
    ParseNatToString(secs);
    ParsePadStart2(NatToString(secs));
    var t := m + [':'] + ss;
    assert t[..|t| - 3] == m;
    assert t[|t| - 2..] == ss;
    t
  }

  /** No two countdown values share a display. */
  lemma FormatTimeInjective(a: nat, b: nat)
    ensures FormatTime(a) == FormatTime(b) ==> a == b
  {
  }

  /** Under ten minutes the display is exactly four characters, `m:ss`. */
  lemma FormatTimeUnderTenMinutes(seconds: nat)
    requires seconds < 600
    ensures |FormatTime(seconds)| == 4
  {
  }
}
