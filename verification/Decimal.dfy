/** Unsigned decimal numbers as text. */
module Decimal {

  predicate Digit(c: char) {
    '0' <= c <= '9'
  }

  function DigitOf(d: nat): (c: char)
    requires d < 10
  {
    (d as char) + '0'
  }

  function ValueOf(c: char): (d: nat)
    requires Digit(c)
    ensures d < 10
  {
    (c as int) - ('0' as int)
  }

  function Digits(n: nat): (s: string)
    ensures s != ""
  {
    if n < 10 then [DigitOf(n)] else Digits(n / 10) + [DigitOf(n % 10)]
  }

  ghost predicate AllDigits(s: string) {
    forall i :: 0 <= i < |s| ==> Digit(s[i])
  }

  function Number(s: string): nat
    requires forall i :: 0 <= i < |s| ==> Digit(s[i])
  {
    if s == "" then 0 else 10 * Number(s[..|s| - 1]) + ValueOf(s[|s| - 1])
  }

  /** Reading a printed number gives it back. */
  lemma {:induction false} DigitsRoundTrip(n: nat)
    ensures AllDigits(Digits(n)) && Number(Digits(n)) == n
  {
    if n < 10 {
      assert Digits(n)[..0] == "";
    } else {
      DigitsRoundTrip(n / 10);
      assert Digits(n)[..|Digits(n)| - 1] == Digits(n / 10);
    }
  }

  function Power(k: nat): nat {
    if k == 0 then 1 else 10 * Power(k - 1)
  }

  lemma {:induction false} DigitsShort(n: nat, k: nat)
    requires 0 < k && n < Power(k)
    ensures |Digits(n)| <= k
  {
    if n >= 10 {
      DigitsShort(n / 10, k - 1);
    }
  }

  /** No leading zero except in "0" itself, so distinct texts never print alike. */
  lemma {:induction false} DigitsCanonical(n: nat)
    ensures Digits(n)[0] == '0' <==> n == 0
  {
    if n >= 10 {
      DigitsCanonical(n / 10);
    }
  }

  /** The digits are the ten characters '0' to '9' in that order. */
  lemma TenDigits(d: nat)
    requires d < 10
    ensures DigitOf(d) == "0123456789"[d] && ValueOf("0123456789"[d]) == d
  {
  }

  lemma TenTimes(a: nat, p: nat, b: nat)
    ensures 10 * (a * p + b) == a * (10 * p) + 10 * b
  {
  }

  /** The first digits weigh most: a text is worth its front times a power of ten,
      plus its rest. */
  lemma {:induction false} Positional(a: string, b: string)
    requires AllDigits(a) && AllDigits(b)
    ensures AllDigits(a + b) && Number(a + b) == Number(a) * Power(|b|) + Number(b)
  {
    if b == "" {
      assert a + b == a;
    } else {
      var n := |b| - 1;
      assert (a + b)[..|a + b| - 1] == a + b[..n];
      Positional(a, b[..n]);
      TenTimes(Number(a), Power(n), Number(b[..n]));
    }
  }

  /** A text without a superfluous leading zero is the one its number prints as. */
  lemma {:induction false} NumberRoundTrip(s: string)
    requires AllDigits(s) && s != "" && (|s| > 1 ==> s[0] != '0')
    ensures Digits(Number(s)) == s
  {
    var n := |s| - 1;
    if n == 0 {
      assert s[..0] == "";
      assert s == [s[0]];
    } else {
      var front := s[..n];
      NumberRoundTrip(front);
      DigitsCanonical(Number(front));
      assert s == front + [s[n]];
    }
  }
}
