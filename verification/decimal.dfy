/**
 * Decimal rendering and parsing of integers: the `%v` verb of Go's fmt
 * package applied to an integer, and strconv.ParseInt(text, 10, 64) as used
 * by encoding/json when it stores a JSON number into a Go `int`.
 */
module Decimal {
  import opened Results

  predicate IsDigit(c: char) {
    '0' <= c <= '9'
  }

  predicate AllDigits(s: string) {
    forall i :: 0 <= i < |s| ==> IsDigit(s[i])
  }

  function DigitChar(d: nat): (c: char)
    requires d < 10
    ensures IsDigit(c)
    ensures DigitValue(c) == d
  {
    ('0' as int + d) as char
  }

  function DigitValue(c: char): nat
    requires IsDigit(c)
  {
    c as int - '0' as int
  }

  /** Value of a string of decimal digits, most significant first. */
  function DigitsValue(s: string): nat
    requires AllDigits(s)
  {
    if |s| == 0 then 0 else DigitsValue(s[..|s| - 1]) * 10 + DigitValue(s[|s| - 1])
  }

  /** Shortest decimal rendering of a natural number. */
  function NatToString(n: nat): (s: string)
    ensures |s| >= 1 && AllDigits(s)
    ensures |s| > 1 ==> s[0] != '0'
    ensures s[0] == '0' <==> n == 0
  {
    if n < 10 then [DigitChar(n)] else NatToString(n / 10) + [DigitChar(n % 10)]
  }

  /** Digits with no leading zero, except for "0" itself. */
  predicate NoLeadingZero(s: string) {
    |s| >= 1 && AllDigits(s) && (|s| > 1 ==> s[0] != '0')
  }

  /**
   * Go's `fmt.Sprintf("%v", i)` for an integer `i`: the digits of |i| with
   * no leading zero and no '+', after a '-' exactly when i is negative.
   */
  function IntToString(i: int): (s: string)
    ensures |s| >= 1
    ensures i < 0 <==> s[0] == '-'
    ensures i >= 0 ==> NoLeadingZero(s) && DigitsValue(s) == i
    ensures i < 0 ==> |s| >= 2 && NoLeadingZero(s[1..]) && s[1] != '0' && DigitsValue(s[1..]) == -i
  {
    if i < 0 then
      var s := "-" + NatToString(-i);
      NatToStringRoundTrip(-i);
      assert s[1..] == NatToString(-i);
      s
    else
      NatToStringRoundTrip(i);
      NatToString(i)
  }

  /** A digit is the rendering of its own value. */
  lemma DigitCharValue(c: char)
    requires IsDigit(c)
    ensures DigitChar(DigitValue(c)) == c
  {
  }

  /** Digits that do not start with '0' denote a positive number. */
  lemma {:induction false} LeadingDigitPositive(s: string)
    requires |s| >= 1 && AllDigits(s) && s[0] != '0'
    ensures DigitsValue(s) >= 1
  {
    if |s| > 1 {
      LeadingDigitPositive(s[..|s| - 1]);
    }
  }

  /** The shortest rendering is the only digit string without a leading zero that has the value. */
  lemma {:induction false} NatToStringUnique(s: string, n: nat)
    requires NoLeadingZero(s) && DigitsValue(s) == n
    ensures s == NatToString(n)
  {
    var last := s[|s| - 1];
    if |s| == 1 {
      assert n == DigitValue(last);
      DigitCharValue(last);
    } else {
      var init := s[..|s| - 1];
      assert init[0] == s[0];
      LeadingDigitPositive(init);
      assert n == DigitsValue(init) * 10 + DigitValue(last);
      assert n / 10 == DigitsValue(init) && n % 10 == DigitValue(last);
      NatToStringUnique(init, n / 10);
      DigitCharValue(last);
      assert s == init + [last];
    }
  }

  /**
   * `%v` is the one canonical spelling: any text with the integer's sign,
   * no '+' and no leading zero is exactly IntToString's.
   */
  lemma IntToStringCanonical(s: string, i: int)
    requires i >= 0 ==> NoLeadingZero(s) && DigitsValue(s) == i
    requires i < 0 ==> |s| >= 2 && s[0] == '-' && NoLeadingZero(s[1..]) && DigitsValue(s[1..]) == -i
    ensures s == IntToString(i)
  {
    if i < 0 {
      NatToStringUnique(s[1..], -i);
      assert s == [s[0]] + s[1..];
    } else {
      NatToStringUnique(s, i);
    }
  }

  const MinInt64: int := -0x8000_0000_0000_0000
  const MaxInt64: int := 0x7FFF_FFFF_FFFF_FFFF

  predicate InInt64(i: int) {
    MinInt64 <= i <= MaxInt64
  }

  /**
   * strconv.ParseInt(s, 10, 64): an optional sign, then one or more decimal
   * digits, and a value that fits in 64 bits.
   */
  function ParseInt64(s: string): (r: Option<int>)
    ensures r.Some? ==> InInt64(r.value)
  {
    var neg := |s| > 0 && s[0] == '-';
    var body := if |s| > 0 && (s[0] == '-' || s[0] == '+') then s[1..] else s;
    if |body| == 0 || !AllDigits(body) then None
    else
      var v: int := if neg then 0 - DigitsValue(body) as int else DigitsValue(body);
      if InInt64(v) then Some(v) else None
  }

  lemma {:induction false} NatToStringRoundTrip(n: nat)
    ensures DigitsValue(NatToString(n)) == n
    decreases n
  {
    var s := NatToString(n);
    if n >= 10 {
      NatToStringRoundTrip(n / 10);
      assert s[..|s| - 1] == NatToString(n / 10);
    }
  }

  lemma NatToStringInjective(a: nat, b: nat)
    requires NatToString(a) == NatToString(b)
    ensures a == b
  {
    NatToStringRoundTrip(a);
    NatToStringRoundTrip(b);
  }

  /** Rendering an integer and parsing it back yields the integer. */
  lemma IntToStringRoundTrip(i: int)
    requires InInt64(i)
    ensures ParseInt64(IntToString(i)) == Some(i)
  {
    var s := IntToString(i);
    if i < 0 {
      NatToStringRoundTrip(-i);
      assert s[1..] == NatToString(-i);
    } else {
      NatToStringRoundTrip(i);
      assert s[0] != '-' && s[0] != '+';
    }
  }

  lemma IntToStringInjective(a: int, b: int)
    requires IntToString(a) == IntToString(b)
    ensures a == b
  {
    var s := IntToString(a);
    if a < 0 {
      assert b < 0;
      assert s[1..] == NatToString(-a) == NatToString(-b);
      NatToStringInjective(-a, -b);
    } else {
      assert b >= 0;
      NatToStringInjective(a, b);
    }
  }
}
