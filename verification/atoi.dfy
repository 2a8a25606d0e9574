/** The C library's `atoi` on a byte string, and its inverse on integers:
    the decimal text a registry file is expected to start with. */
module Atoi {
  import opened Bytes

  const SPACE: byte := 32
  const PLUS: byte := 43
  const MINUS: byte := 45
  const ZERO: byte := 48

  /** `isspace` in the C locale: space, \t, \n, \v, \f, \r. */
  predicate IsSpace(c: byte) {
    c == SPACE || 9 <= c <= 13
  }

  predicate IsDigit(c: byte) {
    ZERO <= c <= ZERO + 9
  }

  predicate AllDigits(s: seq<byte>) {
    forall k :: 0 <= k < |s| ==> IsDigit(s[k])
  }

  /** Length of the longest prefix of `s` made of decimal digits. */
  function DigitSpan(s: seq<byte>): (n: nat)
    ensures n <= |s|
    ensures AllDigits(s[..n])
    ensures n < |s| ==> !IsDigit(s[n])
  {
    if |s| == 0 || !IsDigit(s[0]) then 0
    else
      assert s[..1 + DigitSpan(s[1..])] == [s[0]] + s[1..][..DigitSpan(s[1..])];
      1 + DigitSpan(s[1..])
  }

  /** Length of the longest prefix of `s` made of white space. */
  function SpaceSpan(s: seq<byte>): (n: nat)
    ensures n <= |s|
    ensures forall k :: 0 <= k < n ==> IsSpace(s[k])
    ensures n < |s| ==> !IsSpace(s[n])
  {
    if |s| == 0 || !IsSpace(s[0]) then 0 else 1 + SpaceSpan(s[1..])
  }

  /** Value of a string of decimal digits, most significant first. */
  function DigitsValue(ds: seq<byte>): nat
    requires AllDigits(ds)
  {
    if |ds| == 0 then 0
    else DigitsValue(ds[..|ds| - 1]) * 10 + (ds[|ds| - 1] - ZERO)
  }

  /** Value of the leading digits of `t`, 0 when there are none. */
  function LeadingValue(t: seq<byte>): nat {
    DigitsValue(t[..DigitSpan(t)])
  }

  /** `atoi`: skip white space, take an optional sign, then the longest run of
      digits; a string with no digits there reads as 0. The value is the
      mathematical one: `atoi` has no defined result outside `int`, and the
      only caller narrows it to `uid_t` anyway. */
  function Atoi(s: seq<byte>): (v: int)
    ensures var t := s[SpaceSpan(s)..];
            (|t| == 0 || (!IsDigit(t[0]) && t[0] != PLUS && t[0] != MINUS)) ==> v == 0
  {
    var t := s[SpaceSpan(s)..];
    if |t| > 0 && t[0] == MINUS then -(LeadingValue(t[1..]) as int)
    else if |t| > 0 && t[0] == PLUS then LeadingValue(t[1..])
    else LeadingValue(t)
  }

  /** Canonical decimal text of a natural number: no sign, no leading zero. */
  function Decimal(n: nat): (d: seq<byte>)
    ensures |d| > 0
    ensures AllDigits(d)
    ensures |d| > 1 ==> d[0] != ZERO
    decreases n
  {
    if n < 10 then [ZERO + n] else Decimal(n / 10) + [ZERO + n % 10]
  }

  /** Decimal text of an integer: a leading '-' for negative values. */
  function SignedDecimal(x: int): (d: seq<byte>)
    ensures |d| > 0
    ensures x < 0 <==> d[0] == MINUS
  {
    if x < 0 then [MINUS] + Decimal(-x) else Decimal(x)
  }

  /** Reading back the digits of `Decimal(n)` gives `n`. */
  lemma {:induction false} DigitsValueOfDecimal(n: nat)
    ensures DigitsValue(Decimal(n)) == n
    decreases n
  {
    if n >= 10 {
      var d := Decimal(n);
      assert d[..|d| - 1] == Decimal(n / 10);
      DigitsValueOfDecimal(n / 10);
    }
  }

  /** The leading-digit run of a digit string is all of it. */
  lemma LeadingValueOfDigits(ds: seq<byte>)
    requires AllDigits(ds)
    ensures LeadingValue(ds) == DigitsValue(ds)
  {
    assert DigitSpan(ds) == |ds|;
    assert ds[..|ds|] == ds;
  }

  /** `atoi` inverts `SignedDecimal`: the registry's numeric prefix, written
      canonically, reads back as the number it denotes. */
  lemma AtoiOfSignedDecimal(x: int)
    ensures Atoi(SignedDecimal(x)) == x
  {
    var d := SignedDecimal(x);
    assert !IsSpace(d[0]);
    assert SpaceSpan(d) == 0;
    assert d[0..] == d;
    if x < 0 {
      assert d[1..] == Decimal(-x);
      LeadingValueOfDigits(Decimal(-x));
      DigitsValueOfDecimal(-x);
    } else {
      assert IsDigit(d[0]);
      LeadingValueOfDigits(d);
      DigitsValueOfDecimal(x);
    }
  }

  /** `atoi` ignores leading white space. */
  lemma AtoiSkipsSpace(w: seq<byte>, s: seq<byte>)
    requires forall k :: 0 <= k < |w| ==> IsSpace(w[k])
    requires |s| > 0 && !IsSpace(s[0])
    ensures Atoi(w + s) == Atoi(s)
  {
    SpaceSpanOfPrefix(w, s);
    assert (w + s)[|w|..] == s;
    assert s[0..] == s;
  }

  lemma {:induction false} SpaceSpanOfPrefix(w: seq<byte>, s: seq<byte>)
    requires forall k :: 0 <= k < |w| ==> IsSpace(w[k])
    requires |s| > 0 && !IsSpace(s[0])
    ensures SpaceSpan(w + s) == |w|
  {
    if |w| > 0 {
      assert (w + s)[1..] == w[1..] + s;
      SpaceSpanOfPrefix(w[1..], s);
    } else {
      assert w + s == s;
    }
  }

  /** `atoi` stops at the first byte that is not a digit. */
  lemma AtoiStopsAtNonDigit(n: nat, rest: seq<byte>)
    requires |rest| > 0 && !IsDigit(rest[0])
    ensures Atoi(Decimal(n) + rest) == n
  {
    var d := Decimal(n);
    var s := d + rest;
    assert s[0] == d[0];
    assert SpaceSpan(s) == 0;
    assert s[0..] == s;
    DigitSpanOfPrefix(d, rest);
    assert s[..|d|] == d;
    DigitsValueOfDecimal(n);
  }

  lemma {:induction false} DigitSpanOfPrefix(d: seq<byte>, rest: seq<byte>)
    requires AllDigits(d)
    requires |rest| > 0 && !IsDigit(rest[0])
    ensures DigitSpan(d + rest) == |d|
  {
    if |d| > 0 {
      assert (d + rest)[1..] == d[1..] + rest;
      DigitSpanOfPrefix(d[1..], rest);
    } else {
      assert d + rest == rest;
    }
  }
}
