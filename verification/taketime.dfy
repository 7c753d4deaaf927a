/**
 * The vendor's fixed timestamp format (takeawayapi.go: takeAwayTimeFormat,
 * the Go layout "2006-01-02 15:04:05", i.e. YYYY-MM-DD HH:MM:SS in UTC):
 * ParseTakeAwayTime, and Go's time.Format for the same layout, which the
 * round-trip test uses.
 */
module TakeAwayTime {
  import opened Results
  import opened Decimal

  /** A UTC date and time at second resolution. */
  datatype DateTime = DateTime(year: int, month: int, day: int, hour: int, minute: int, second: int)

  /** Go's zero time.Time, 0001-01-01 00:00:00 UTC. */
  const ZeroTime := DateTime(1, 1, 1, 0, 0, 0)

  datatype TimeError =
    /** The text does not follow the layout. */
    | BadSyntax
    /** A field is outside its calendar range ("month", "hour", "minute", "second", "day"). */
    | OutOfRange(field: string)
    /** Text remains after the seconds. */
    | ExtraText(rest: string)

  predicate IsLeap(year: int) {
    year % 4 == 0 && (year % 100 != 0 || year % 400 == 0)
  }

  function DaysIn(month: int, year: int): int
    requires 1 <= month <= 12
  {
    if month == 2 then (if IsLeap(year) then 29 else 28)
    else if month == 4 || month == 6 || month == 9 || month == 11 then 30
    else 31
  }

  /** A calendar-valid time whose year has four digits: exactly the values the layout can carry. */
  predicate Representable(t: DateTime) {
    && 0 <= t.year <= 9999
    && 1 <= t.month <= 12
    && 1 <= t.day <= DaysIn(t.month, t.year)
    && 0 <= t.hour < 24
    && 0 <= t.minute < 60
    && 0 <= t.second < 60
  }

  function Zeros(n: int): (s: string)
    ensures |s| == if n > 0 then n else 0
    ensures AllDigits(s)
    decreases n
  {
    if n <= 0 then "" else "0" + Zeros(n - 1)
  }

  /** Go's time.appendInt: a sign for negatives, then the magnitude zero-padded to `width` digits. */
  function AppendInt(x: int, width: nat): string {
    var sign := if x < 0 then "-" else "";
    var u: nat := if x < 0 then -x else x;
    if width == 2 && u < 100 then sign + [DigitChar(u / 10), DigitChar(u % 10)]
    else if width == 4 && u < 10000 then
      sign + [DigitChar(u / 1000), DigitChar(u / 100 % 10), DigitChar(u / 10 % 10), DigitChar(u % 10)]
    else sign + Zeros(width - |NatToString(u)|) + NatToString(u)
  }

  /** time.Time.Format with the layout "2006-01-02 15:04:05". */
  function Format(t: DateTime): string {
    AppendInt(t.year, 4) + "-" + AppendInt(t.month, 2) + "-" + AppendInt(t.day, 2) + " "
    + AppendInt(t.hour, 2) + ":" + AppendInt(t.minute, 2) + ":" + AppendInt(t.second, 2)
  }

  predicate DigitsAt(s: string, i: nat, n: nat) {
    i + n <= |s| && forall k :: i <= k < i + n ==> IsDigit(s[k])
  }

  predicate CharAt(s: string, i: nat, c: char) {
    i < |s| && s[i] == c
  }

  function Num2(s: string, i: nat): (n: int)
    requires DigitsAt(s, i, 2)
    ensures 0 <= n < 100
  {
    10 * DigitValue(s[i]) + DigitValue(s[i + 1])
  }

  function Num4(s: string, i: nat): (n: int)
    requires DigitsAt(s, i, 4)
    ensures 0 <= n < 10000
  {
    1000 * DigitValue(s[i]) + 100 * DigitValue(s[i + 1]) + 10 * DigitValue(s[i + 2]) + DigitValue(s[i + 3])
  }

  /**
   * ParseTakeAwayTime: time.Parse with the layout "2006-01-02 15:04:05" on
   * the canonical form. Fields are read left to right; a month, hour,
   * minute or second out of range is reported as soon as it is read, text
   * after the seconds is reported next, and the day is checked against the
   * month and year last.
   */
  function ParseTime(s: string): (r: Result<DateTime, TimeError>)
    ensures r.Ok? ==> |s| == 19 && Representable(r.value)
  {
    if !DigitsAt(s, 0, 4) || !CharAt(s, 4, '-') || !DigitsAt(s, 5, 2) then Err(BadSyntax)
    else if !(1 <= Num2(s, 5) <= 12) then Err(OutOfRange("month"))
    else if !CharAt(s, 7, '-') || !DigitsAt(s, 8, 2) || !CharAt(s, 10, ' ') || !DigitsAt(s, 11, 2) then Err(BadSyntax)
    else if Num2(s, 11) >= 24 then Err(OutOfRange("hour"))
    else if !CharAt(s, 13, ':') || !DigitsAt(s, 14, 2) then Err(BadSyntax)
    else if Num2(s, 14) >= 60 then Err(OutOfRange("minute"))
    else if !CharAt(s, 16, ':') || !DigitsAt(s, 17, 2) then Err(BadSyntax)
    else if Num2(s, 17) >= 60 then Err(OutOfRange("second"))
    else if |s| > 19 then Err(ExtraText(s[19..]))
    else
      var t := DateTime(Num4(s, 0), Num2(s, 5), Num2(s, 8), Num2(s, 11), Num2(s, 14), Num2(s, 17));
      if t.day < 1 || t.day > DaysIn(t.month, t.year) then Err(OutOfRange("day")) else Ok(t)
  }

  lemma Pad2(x: int)
    requires 0 <= x < 100
    ensures |AppendInt(x, 2)| == 2 && DigitsAt(AppendInt(x, 2), 0, 2) && Num2(AppendInt(x, 2), 0) == x
  {
  }

  lemma Pad4(x: int)
    requires 0 <= x < 10000
    ensures |AppendInt(x, 4)| == 4 && DigitsAt(AppendInt(x, 4), 0, 4) && Num4(AppendInt(x, 4), 0) == x
  {
    var a, b, c, d := x / 1000, x / 100 % 10, x / 10 % 10, x % 10;
    assert x / 100 == 10 * a + b;
    assert x / 10 == 10 * (x / 100) + c;
    assert x == 10 * (x / 10) + d;
  }

  /**
   * With every field in its range but the day, which may be any two-digit
   * number, parsing the formatted text fails only on a day the month lacks.
   */
  lemma FormatThenParseAnyDay(t: DateTime)
    requires 0 <= t.year <= 9999 && 1 <= t.month <= 12 && 0 <= t.day < 100
    requires 0 <= t.hour < 24 && 0 <= t.minute < 60 && 0 <= t.second < 60
    ensures ParseTime(Format(t)) == if 1 <= t.day <= DaysIn(t.month, t.year) then Ok(t) else Err(OutOfRange("day"))
  {
    var y, mo, d := AppendInt(t.year, 4), AppendInt(t.month, 2), AppendInt(t.day, 2);
    var h, mi, se := AppendInt(t.hour, 2), AppendInt(t.minute, 2), AppendInt(t.second, 2);
    Pad4(t.year); Pad2(t.month); Pad2(t.day); Pad2(t.hour); Pad2(t.minute); Pad2(t.second);
    var s := Format(t);
    assert s == y + "-" + mo + "-" + d + " " + h + ":" + mi + ":" + se;
    assert |s| == 19;
    assert s[..4] == y && s[4] == '-' && s[5..7] == mo && s[7] == '-' && s[8..10] == d && s[10] == ' ';
    assert s[11..13] == h && s[13] == ':' && s[14..16] == mi && s[16] == ':' && s[17..19] == se;
    assert Num4(s, 0) == Num4(y, 0);
    assert Num2(s, 5) == Num2(mo, 0) && Num2(s, 8) == Num2(d, 0) && Num2(s, 11) == Num2(h, 0);
    assert Num2(s, 14) == Num2(mi, 0) && Num2(s, 17) == Num2(se, 0);
  }

  /** Formatting any representable time and parsing the text back gives the same time. */
  lemma FormatThenParse(t: DateTime)
    requires Representable(t)
    ensures ParseTime(Format(t)) == Ok(t)
  {
    FormatThenParseAnyDay(t);
  }

  lemma DigitCharOfValue(c: char)
    requires IsDigit(c)
    ensures DigitChar(DigitValue(c)) == c
  {
  }

  lemma Unpad2(s: string, i: nat)
    requires DigitsAt(s, i, 2)
    ensures AppendInt(Num2(s, i), 2) == s[i..i + 2]
  {
    var x := Num2(s, i);
    assert x / 10 == DigitValue(s[i]) && x % 10 == DigitValue(s[i + 1]);
    DigitCharOfValue(s[i]);
    DigitCharOfValue(s[i + 1]);
  }

  lemma Unpad4(s: string, i: nat)
    requires DigitsAt(s, i, 4)
    ensures AppendInt(Num4(s, i), 4) == s[i..i + 4]
  {
    var x := Num4(s, i);
    var a, b, c, d := DigitValue(s[i]), DigitValue(s[i + 1]), DigitValue(s[i + 2]), DigitValue(s[i + 3]);
    assert x / 10 == 100 * a + 10 * b + c && x % 10 == d;
    assert x / 100 == 10 * a + b && x / 100 % 10 == b && x / 10 % 10 == c;
    assert x / 1000 == a;
    DigitCharOfValue(s[i]);
    DigitCharOfValue(s[i + 1]);
    DigitCharOfValue(s[i + 2]);
    DigitCharOfValue(s[i + 3]);
  }

  /** Every accepted text is the formatting of the time it denotes: the format is canonical. */
  lemma ParseThenFormat(s: string)
    requires ParseTime(s).Ok?
    ensures Format(ParseTime(s).value) == s
  {
    Unpad4(s, 0); Unpad2(s, 5); Unpad2(s, 8); Unpad2(s, 11); Unpad2(s, 14); Unpad2(s, 17);
    assert s == s[0..4] + [s[4]] + s[5..7] + [s[7]] + s[8..10] + [s[10]] + s[11..13] + [s[13]] + s[14..16] + [s[16]] + s[17..19];
  }

  lemma {:induction false} LongRendering(n: nat, k: nat)
    requires k <= 4
    requires n >= 10000 / Pow10Cap(k)
    ensures |NatToString(n)| >= 5 - k
    decreases 4 - k
  {
    if k < 4 && n >= 10 {
      LongRendering(n / 10, k + 1);
    }
  }

  function Pow10Cap(k: nat): nat
    requires k <= 4
  {
    if k == 0 then 1 else if k == 1 then 10 else if k == 2 then 100 else if k == 3 then 1000 else 10000
  }

  /**
   * The round trip holds for exactly the four-digit years: a representable
   * time moved to a negative year or a year past 9999 formats to a text the
   * parser refuses.
   */
  lemma OnlyFourDigitYearsRoundTrip(t: DateTime)
    requires t.year < 0 || t.year > 9999
    ensures ParseTime(Format(t)).Err?
  {
    var s := Format(t);
    if t.year < 0 {
      assert s[0] == '-';
    } else {
      var n := NatToString(t.year);
      LongRendering(t.year, 0);
      assert AppendInt(t.year, 4) == n;
      assert s[4] == n[4];
    }
  }

  /** 29 February is accepted exactly in leap years. */
  lemma LeapDay(year: int)
    requires 0 <= year <= 9999
    ensures ParseTime(Format(DateTime(year, 2, 29, 0, 0, 0))).Ok? <==> IsLeap(year)
  {
    FormatThenParseAnyDay(DateTime(year, 2, 29, 0, 0, 0));
  }
}
