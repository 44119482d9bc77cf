/** UTC date-times and the two string forms the mapper produces from them:
    the ISO-8601 timestamp of `Date.prototype.toISOString` and the calendar date
    obtained from it by `split('T')[0]`. */
module Dates {

  /** A JavaScript Date, read through its UTC fields. */
  datatype DateTime = DateTime(year: int, month: int, day: int,
                               hour: int, minute: int, second: int, millisecond: int)

  predicate IsLeapYear(y: int) {
    y % 4 == 0 && (y % 100 != 0 || y % 400 == 0)
  }

  function DaysInMonth(y: int, m: int): (n: int)
    requires 1 <= m <= 12
    ensures 28 <= n <= 31
  {
    if m == 2 then (if IsLeapYear(y) then 29 else 28)
    else if m == 4 || m == 6 || m == 9 || m == 11 then 30
    else 31
  }

  /** A real proleptic-Gregorian UTC instant whose year has four digits. */
  predicate ValidDateTime(d: DateTime) {
    && 0 <= d.year <= 9999
    && 1 <= d.month <= 12
    && 1 <= d.day <= DaysInMonth(d.year, d.month)
    && 0 <= d.hour < 24
    && 0 <= d.minute < 60
    && 0 <= d.second < 60
    && 0 <= d.millisecond < 1000
  }

  type Instant = d: DateTime | ValidDateTime(d) witness DateTime(1970, 1, 1, 0, 0, 0, 0)

  /** Two instants on the same UTC calendar day. */
  predicate SameDay(a: Instant, b: Instant) {
    a.year == b.year && a.month == b.month && a.day == b.day
  }

  // ---------------------------------------------------------------------------
  // Decimal digits

  function Pow10(w: nat): (p: nat)
    ensures p >= 1
  {
    if w == 0 then 1 else 10 * Pow10(w - 1)
  }

  predicate IsDigit(c: char) {
    '0' <= c <= '9'
  }

  predicate AllDigits(s: string) {
    forall i :: 0 <= i < |s| ==> IsDigit(s[i])
  }

  function DigitChar(n: nat): (c: char)
    requires n < 10
    ensures IsDigit(c) && c as int - '0' as int == n
  {
    (n + '0' as int) as char
  }

  /** The number a string of decimal digits denotes. */
  function Value(s: string): nat
    requires AllDigits(s)
  {
    if s == [] then 0 else 10 * Value(s[..|s| - 1]) + (s[|s| - 1] as int - '0' as int)
  }

  /** `n` written in decimal, left-padded with zeros to exactly `width` digits,
      as `toISOString` writes each field. */
  function Pad(n: nat, width: nat): (s: string)
    requires n < Pow10(width)
    ensures |s| == width && AllDigits(s)
    decreases width
  {
    if width == 0 then ""
    else Pad(n / 10, width - 1) + [DigitChar(n % 10)]
  }

  /** Padding loses nothing: the digits read back as the number written. */
  lemma {:induction false} PadValue(n: nat, width: nat)
    requires n < Pow10(width)
    ensures Value(Pad(n, width)) == n
    decreases width
  {
    if width > 0 {
      var s := Pad(n, width);
      assert s[..|s| - 1] == Pad(n / 10, width - 1);
      PadValue(n / 10, width - 1);
    }
  }

  // ---------------------------------------------------------------------------
  // The two string forms

  /** `YYYY-MM-DD`. */
  function CalendarDate(d: Instant): (s: string)
    ensures |s| == 10
  {
    Pad(d.year, 4) + "-" + Pad(d.month, 2) + "-" + Pad(d.day, 2)
  }

  /** `YYYY-MM-DDTHH:mm:ss.sssZ`, the result of `Date.prototype.toISOString`
      for a year between 0 and 9999. */
  function IsoString(d: Instant): (s: string)
    ensures |s| == 24
  {
    CalendarDate(d) + "T" + TimeOfDay(d)
  }

  /** `HH:mm:ss.sssZ`. */
  function TimeOfDay(d: Instant): (s: string)
    ensures |s| == 13
  {
    Pad(d.hour, 2) + ":" + Pad(d.minute, 2) + ":" + Pad(d.second, 2) + "." + Pad(d.millisecond, 3) + "Z"
  }

  /** `s.split(sep)[0]`: the part of `s` before its first `sep`, or all of `s`
      when `sep` does not occur. */
  function Before(s: string, sep: char): (r: string)
    ensures r <= s && sep !in r
    ensures |r| < |s| ==> s[|r|] == sep
  {
    if s == [] || s[0] == sep then [] else [s[0]] + Before(s[1..], sep)
  }

  /** The text before the first separator is exactly `a` when `a` has none. */
  lemma BeforeFirst(a: string, sep: char, b: string)
    requires sep !in a
    ensures Before(a + [sep] + b, sep) == a
  {
    var s := a + [sep] + b;
    var r := Before(s, sep);
    assert forall i :: 0 <= i < |a| ==> s[i] == a[i] != sep;
    assert s[|a|] == sep;
    assert |r| == |a|;
    assert r == s[..|a|] == a;
  }

  /** The shape of the calendar date: four digits, '-', two digits, '-', two
      digits, and no 'T' anywhere. */
  lemma CalendarDateShape(d: Instant)
    ensures var s := CalendarDate(d);
      && |s| == 10
      && s[4] == '-' && s[7] == '-'
      && AllDigits(s[..4]) && AllDigits(s[5..7]) && AllDigits(s[8..])
      && 'T' !in s
  {
    var s := CalendarDate(d);
    assert s[..4] == Pad(d.year, 4);
    assert s[5..7] == Pad(d.month, 2);
    assert s[8..] == Pad(d.day, 2);
    forall i | 0 <= i < |s| ensures s[i] != 'T' {
      if i < 4 { assert s[i] == Pad(d.year, 4)[i]; }
      else if 5 <= i < 7 { assert s[i] == Pad(d.month, 2)[i - 5]; }
      else if 8 <= i { assert s[i] == Pad(d.day, 2)[i - 8]; }
    }
  }

  /** The date part of the ISO timestamp is the calendar date. */
  lemma DatePartOfIsoString(d: Instant)
    ensures Before(IsoString(d), 'T') == CalendarDate(d)
  {
    CalendarDateShape(d);
    BeforeFirst(CalendarDate(d), 'T', TimeOfDay(d));
  }

  /** The calendar date reads back as the year, month and day it was written from. */
  lemma CalendarDateFields(d: Instant)
    ensures var s := CalendarDate(d);
      && AllDigits(s[..4]) && Value(s[..4]) == d.year
      && AllDigits(s[5..7]) && Value(s[5..7]) == d.month
      && AllDigits(s[8..]) && Value(s[8..]) == d.day
  {
    var s := CalendarDate(d);
    assert s[..4] == Pad(d.year, 4);
    assert s[5..7] == Pad(d.month, 2);
    assert s[8..] == Pad(d.day, 2);
    PadValue(d.year, 4);
    PadValue(d.month, 2);
    PadValue(d.day, 2);
  }

  /** Two instants have the same calendar date exactly when they fall on the
      same UTC day, whatever their time of day. */
  lemma CalendarDateIffSameDay(a: Instant, b: Instant)
    ensures CalendarDate(a) == CalendarDate(b) <==> SameDay(a, b)
  {
    if CalendarDate(a) == CalendarDate(b) {
      CalendarDateFields(a);
      CalendarDateFields(b);
    }
  }

  /** 1 January 1990 is written "1990-01-01". */
  lemma CalendarDate1990()
    ensures CalendarDate(DateTime(1990, 1, 1, 0, 0, 0, 0)) == "1990-01-01"
  {
    assert Pad(1, 1) == "1";
    assert Pad(19, 2) == "19";
    assert Pad(199, 3) == "199";
    assert Pad(1990, 4) == "1990";
    assert Pad(0, 1) == "0";
    assert Pad(1, 2) == "01";
  }
}
