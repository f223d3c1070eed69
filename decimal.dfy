/**
 * Decimal text of integers, as Ruby's Integer#to_s writes it, and the
 * zero padding used by Date#strftime. The reading-back functions
 * (DigitsToNat, ParseInt) exist to state that the rendering loses nothing.
 */
module Decimal {
  import opened Wrappers

  predicate IsDigit(c: char) {
    '0' <= c <= '9'
  }

  predicate AllDigits(s: string) {
    forall i :: 0 <= i < |s| ==> IsDigit(s[i])
  }

  function DigitChar(d: nat): (c: char)
    requires d < 10
    ensures IsDigit(c) && c as int - '0' as int == d
  {
    ('0' as int + d) as char
  }

  function DigitValue(c: char): (d: nat)
    requires IsDigit(c)
    ensures d < 10 && DigitChar(d) == c
  {
    c as int - '0' as int
  }

  /** Digits of n, most significant first, without leading zeros ("0" for 0). */
  function NatToDigits(n: nat): (s: string)
    ensures |s| >= 1 && AllDigits(s)
    ensures n < 10 <==> |s| == 1
    ensures n < 100 ==> |s| <= 2
    ensures n < 1000 ==> |s| <= 3
    ensures n < 10000 ==> |s| <= 4
    decreases n
  {
    if n < 10 then [DigitChar(n)] else NatToDigits(n / 10) + [DigitChar(n % 10)]
  }

  /** The number a string of digits denotes. */
  function DigitsToNat(s: string): nat
    requires AllDigits(s)
  {
    if s == [] then 0 else DigitsToNat(s[..|s| - 1]) * 10 + DigitValue(s[|s| - 1])
  }

  lemma {:induction false} DigitsRoundTrip(n: nat)
    ensures DigitsToNat(NatToDigits(n)) == n
    decreases n
  {
    var s := NatToDigits(n);
    if n >= 10 {
      DigitsRoundTrip(n / 10);
      assert s[..|s| - 1] == NatToDigits(n / 10);
    }
  }

  function Zeros(k: nat): (s: string)
    ensures |s| == k && forall i :: 0 <= i < k ==> s[i] == '0'
  {
    if k == 0 then [] else Zeros(k - 1) + "0"
  }

  /** s preceded by as many '0' as make it at least `width` characters long. */
  function PadZeros(s: string, width: nat): (r: string)
    ensures |r| == if |s| < width then width else |s|
    ensures AllDigits(s) ==> AllDigits(r)
  {
    (if |s| < width then Zeros(width - |s|) else []) + s
  }

  lemma {:induction false} LeadingZerosIgnored(k: nat, s: string)
    requires AllDigits(s)
    ensures AllDigits(Zeros(k) + s) && DigitsToNat(Zeros(k) + s) == DigitsToNat(s)
    decreases |s|, k
  {
    var t := Zeros(k) + s;
    if s == [] {
      assert t == Zeros(k);
      if k > 0 {
        assert t[..|t| - 1] == Zeros(k - 1) + [];
        LeadingZerosIgnored(k - 1, []);
      }
    } else {
      assert t[..|t| - 1] == Zeros(k) + s[..|s| - 1];
      LeadingZerosIgnored(k, s[..|s| - 1]);
    }
  }

  lemma {:induction false} PaddedDigitsValue(n: nat, width: nat)
    ensures AllDigits(PadZeros(NatToDigits(n), width))
    ensures DigitsToNat(PadZeros(NatToDigits(n), width)) == n
  {
    var s := NatToDigits(n);
    var k := if |s| < width then width - |s| else 0;
    assert PadZeros(s, width) == Zeros(k) + s;
    LeadingZerosIgnored(k, s);
    DigitsRoundTrip(n);
  }

  /** Ruby's Integer#to_s: a minus sign before the digits of a negative number. */
  function IntToS(n: int): (s: string)
    ensures |s| >= 1
    ensures s[0] == '-' <==> n < 0
  {
    if n < 0 then "-" + NatToDigits(-n) else NatToDigits(n)
  }

  /** Reads back an optionally signed decimal number; None unless the text is one. */
  function ParseInt(s: string): (r: Option<int>)
    ensures r.Some? ==> |s| >= 1
  {
    if |s| >= 2 && s[0] == '-' && AllDigits(s[1..]) then
      var magnitude: int := DigitsToNat(s[1..]); Some(-magnitude)
    else if |s| >= 1 && AllDigits(s) then Some(DigitsToNat(s))
    else None
  }

  lemma {:induction false} ParseNegative(t: string, v: int)
    requires |t| >= 1 && AllDigits(t) && DigitsToNat(t) == -v
    ensures ParseInt("-" + t) == Some(v)
  {
    assert ("-" + t)[1..] == t;
  }

  lemma {:induction false} ParseNonNegative(t: string)
    requires |t| >= 1 && AllDigits(t)
    ensures ParseInt(t) == Some(DigitsToNat(t) as int)
  {
    assert t[0] != '-';
  }

  lemma {:induction false} IntToSRoundTrip(n: int)
    ensures ParseInt(IntToS(n)) == Some(n)
  {
    if n < 0 {
      var t := NatToDigits(-n);
      DigitsRoundTrip(-n);
      ParseNegative(t, n);
      assert IntToS(n) == "-" + t;
    } else {
      var t := NatToDigits(n);
      ParseNonNegative(t);
      DigitsRoundTrip(n);
      assert IntToS(n) == t;
    }
  }
}
