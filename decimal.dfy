/** Decimal rendering of naturals as JavaScript's `Number.prototype.toString`
    produces it, `String.prototype.padStart`, and a parser used to state
    round trips. */
module Decimal {

  predicate IsDigit(c: char) {
    '0' <= c <= '9'
  }

  predicate AllDigits(s: string) {
    forall i :: 0 <= i < |s| ==> IsDigit(s[i])
  }

  function DigitChar(d: nat): (c: char)
    requires d < 10
    ensures IsDigit(c)
  {
    ['0', '1', '2', '3', '4', '5', '6', '7', '8', '9'][d]
  }

  function DigitValue(c: char): (d: nat)
    requires IsDigit(c)
    ensures d < 10
  {
    (c as int - '0' as int) as nat
  }

  lemma DigitRoundTrip(d: nat)
    requires d < 10
    ensures DigitValue(DigitChar(d)) == d
  {
  }

  /** The shortest decimal numeral for `n`: no leading zero except for 0 itself. */
  function NatToString(n: nat): (s: string)
    ensures |s| >= 1 && AllDigits(s)
    ensures (|s| == 1) == (n < 10)
    ensures n >= 10 ==> s[0] != '0'
    decreases n
  {
    if n < 10 then [DigitChar(n)] else NatToString(n / 10) + [DigitChar(n % 10)]
  }

  /** The value of a string of digits; leading zeros are allowed. */
  function ParseDigits(s: string): nat
    requires AllDigits(s)
  {
    if s == [] then 0 else ParseDigits(s[..|s| - 1]) * 10 + DigitValue(s[|s| - 1])
  }

  lemma {:induction false} ParseNatToString(n: nat)
    ensures ParseDigits(NatToString(n)) == n
    decreases n
  {
    if n < 10 {
      DigitRoundTrip(n);
    } else {
      var s := NatToString(n);
      assert s[..|s| - 1] == NatToString(n / 10);
      ParseNatToString(n / 10);
      DigitRoundTrip(n % 10);
    }
  }

  /** Numerals of two digits are exactly those of 10..99, of three digits those of 100..999. */
  lemma {:induction false} NatToStringLength(n: nat)
    ensures (|NatToString(n)| == 2) == (10 <= n < 100)
    ensures (|NatToString(n)| == 3) == (100 <= n < 1000)
    ensures n < 1000 ==> |NatToString(n)| <= 3
  {
    if n >= 10 {
      NatToStringLength(n / 10);
    }
  }

  /** `s.padStart(width, fill)` for a one-character filler. */
  function PadStart(s: string, width: nat, fill: char): (r: string)
    ensures |r| == if |s| >= width then |s| else width
    ensures r[|r| - |s|..] == s
    ensures forall i :: 0 <= i < |r| - |s| ==> r[i] == fill
  {
    if |s| >= width then s else [fill] + PadStart(s, width - 1, fill)
  }

  /** `n.toString().padStart(2, "0")`. */
  function Pad2(n: nat): (r: string)
  {
    PadStart(NatToString(n), 2, '0')
  }

  lemma {:induction false} ParseLeadingZeros(z: nat, s: string)
    requires AllDigits(s)
    ensures AllDigits(seq(z, _ => '0') + s)
    ensures ParseDigits(seq(z, _ => '0') + s) == ParseDigits(s)
  {
    // Induction on s from its last character: ParseDigits peels off the end.
    var p := seq(z, _ => '0') + s;
    assert AllDigits(p) by {
      forall i | 0 <= i < |p| ensures IsDigit(p[i]) {
        if i >= z { assert p[i] == s[i - z]; }
      }
    }
    if s == [] {
      ZerosParseToZero(z);
      assert p == seq(z, _ => '0');
    } else {
      ParseLeadingZeros(z, s[..|s| - 1]);
      assert p[..|p| - 1] == seq(z, _ => '0') + s[..|s| - 1];
    }
  }

  lemma {:induction false} ZerosParseToZero(z: nat)
    ensures AllDigits(seq(z, _ => '0'))
    ensures ParseDigits(seq(z, _ => '0')) == 0
  {
    if z > 0 {
      ZerosParseToZero(z - 1);
      assert seq(z, _ => '0')[..z - 1] == seq(z - 1, _ => '0');
    }
  }

  /** Zero-padding to two places changes the length only below 10 and never the value. */
  lemma Pad2Properties(n: nat)
    ensures AllDigits(Pad2(n))
    ensures ParseDigits(Pad2(n)) == n
    ensures (|Pad2(n)| == 2) == (n < 100)
    ensures |Pad2(n)| >= 2
  {
    var s := NatToString(n);
    NatToStringLength(n);
    ParseNatToString(n);
    if n < 10 {
      assert Pad2(n) == seq(1, _ => '0') + s;
      ParseLeadingZeros(1, s);
    } else {
      assert Pad2(n) == s;
    }
  }
}
