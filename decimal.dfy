/**
 * Decimal rendering of non-negative integers, as the harness's string
 * interpolation produces it: "{n}" and the zero-padded "{n:Dw}".
 */
module Decimal {

  predicate IsDigit(c: char)
  {
    '0' <= c <= '9'
  }

  predicate AllDigits(s: string)
  {
    forall i | 0 <= i < |s| :: IsDigit(s[i])
  }

  function DigitChar(d: nat): (c: char)
    requires d < 10
    ensures IsDigit(c) && (c as int) - ('0' as int) == d
  {
    ((('0' as int) + d) as char)
  }

  /** "{n}": the shortest decimal numeral of `n`. */
  function NatToString(n: nat): string
    decreases n
  {
    if n < 10 then [DigitChar(n)] else NatToString(n / 10) + [DigitChar(n % 10)]
  }

  function Zeros(k: nat): (z: string)
    ensures |z| == k && forall i | 0 <= i < k :: z[i] == '0'
  {
    if k == 0 then [] else Zeros(k - 1) + ['0']
  }

  /** "{n:Dw}": the numeral of `n`, left-padded with zeros to at least `width` characters. */
  function ZeroPadded(n: nat, width: nat): string
  {
    var s := NatToString(n);
    if |s| < width then Zeros(width - |s|) + s else s
  }

  /** The number a string of digits denotes. */
  function DecimalValue(s: string): nat
    requires AllDigits(s)
  {
    if s == [] then 0
    else DecimalValue(s[..|s| - 1]) * 10 + ((s[|s| - 1] as int) - ('0' as int))
  }

  /** The numeral of `n` is made of digits, has no leading zero, and denotes `n`. */
  lemma {:induction false} NatToStringRoundTrip(n: nat)
    ensures |NatToString(n)| >= 1 && AllDigits(NatToString(n))
    ensures DecimalValue(NatToString(n)) == n
    ensures |NatToString(n)| > 1 ==> NatToString(n)[0] != '0'
    decreases n
  {
    var s := NatToString(n);
    if n >= 10 {
      var p := NatToString(n / 10);
      NatToStringRoundTrip(n / 10);
      assert s == p + [DigitChar(n % 10)];
      assert s[..|s| - 1] == p;
      assert s[0] == p[0];
      assert n / 10 >= 1;
    }
  }

  lemma {:induction false} LeadingZerosValue(k: nat, s: string)
    requires AllDigits(s)
    ensures AllDigits(Zeros(k) + s)
    ensures DecimalValue(Zeros(k) + s) == DecimalValue(s)
    decreases |s|, k
  {
    var t := Zeros(k) + s;
    if s == [] {
      assert t == Zeros(k);
      if k > 0 {
        assert t[..|t| - 1] == Zeros(k - 1) + [];
        LeadingZerosValue(k - 1, []);
      }
    } else {
      assert t[..|t| - 1] == Zeros(k) + s[..|s| - 1];
      LeadingZerosValue(k, s[..|s| - 1]);
    }
  }

  /** "{n:Dw}" is at least `width` digits long, no longer than needed, and denotes `n`. */
  lemma ZeroPaddedRoundTrip(n: nat, width: nat)
    ensures AllDigits(ZeroPadded(n, width))
    ensures |ZeroPadded(n, width)| == if |NatToString(n)| < width then width else |NatToString(n)|
    ensures DecimalValue(ZeroPadded(n, width)) == n
  {
    NatToStringRoundTrip(n);
    var s := NatToString(n);
    if |s| < width {
      LeadingZerosValue(width - |s|, s);
    }
  }

  /** Different numbers have different numerals. */
  lemma NatToStringInjective(m: nat, n: nat)
    requires m != n
    ensures NatToString(m) != NatToString(n)
  {
    NatToStringRoundTrip(m);
    NatToStringRoundTrip(n);
  }
}
