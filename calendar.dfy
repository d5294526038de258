/**
 * Calendar dates and clock times as the purchase-date and purchase-time
 * checks read them: `strptime(s, "%Y-%m-%d")` and `strptime(s, "%H:%M")`
 * (src/utils.py:38 and src/utils.py:47, as the comments at src/utils.py:35
 * and src/utils.py:44 describe them).
 *
 * The grammar is the fixed-width one those comments name: four year digits,
 * two month digits, two day digits; two hour digits, two minute digits.
 * A date must exist on the proleptic Gregorian calendar with a year from 1
 * to 9999, the range Python's `datetime` accepts.
 */
module Calendar {
  import opened Wrappers
  import opened Text

  datatype Date = Date(year: nat, month: nat, day: nat)

  datatype Time = Time(hour: nat, minute: nat)

  /** Gregorian leap year: divisible by 4, except centuries not divisible by 400. */
  predicate IsLeapYear(year: nat) {
    year % 4 == 0 && (year % 100 != 0 || year % 400 == 0)
  }

  function DaysInMonth(year: nat, month: nat): (n: nat)
    requires 1 <= month <= 12
    ensures 28 <= n <= 31
    ensures n == 29 <==> month == 2 && IsLeapYear(year)
    ensures n == 28 <==> month == 2 && !IsLeapYear(year)
  {
    if month == 2 then (if IsLeapYear(year) then 29 else 28)
    else if month == 4 || month == 6 || month == 9 || month == 11 then 30
    else 31
  }

  /** A day that exists: year 1..9999, month 1..12, day within the month. */
  predicate IsValidDate(d: Date) {
    && 1 <= d.year <= 9999
    && 1 <= d.month <= 12
    && 1 <= d.day <= DaysInMonth(d.year, d.month)
  }

  /** A minute of the 24-hour clock. */
  predicate IsValidTime(t: Time) {
    t.hour < 24 && t.minute < 60
  }

  /** The four year digits at positions 0..3, the two month digits at 5..6
      and the two day digits at 8..9, with dashes at 4 and 7. */
  predicate IsDateShape(s: string) {
    && |s| == 10 && s[4] == '-' && s[7] == '-'
    && IsDigit(s[0]) && IsDigit(s[1]) && IsDigit(s[2]) && IsDigit(s[3])
    && IsDigit(s[5]) && IsDigit(s[6]) && IsDigit(s[8]) && IsDigit(s[9])
  }

  /** Two hour digits, a colon, two minute digits. */
  predicate IsTimeShape(s: string) {
    |s| == 5 && s[2] == ':' && IsDigit(s[0]) && IsDigit(s[1]) && IsDigit(s[3]) && IsDigit(s[4])
  }

  /** `YYYY-MM-DD` naming a real date. */
  function ParseDate(s: string): (r: Option<Date>)
    ensures r.Some? ==> IsValidDate(r.value)
  {
    if IsDateShape(s) then
      var d := Date(100 * PairValue(s[0], s[1]) + PairValue(s[2], s[3]),
                    PairValue(s[5], s[6]), PairValue(s[8], s[9]));
      if IsValidDate(d) then Some(d) else None
    else None
  }

  /** `HH:MM` on the 24-hour clock. */
  function ParseTime(s: string): (r: Option<Time>)
    ensures r.Some? ==> IsValidTime(r.value)
  {
    if IsTimeShape(s) then
      var t := Time(PairValue(s[0], s[1]), PairValue(s[3], s[4]));
      if IsValidTime(t) then Some(t) else None
    else None
  }

  function FormatDate(d: Date): string
    requires IsValidDate(d)
  {
    Pad2(d.year / 100) + Pad2(d.year % 100) + "-" + Pad2(d.month) + "-" + Pad2(d.day)
  }

  function FormatTime(t: Time): string
    requires IsValidTime(t)
  {
    Pad2(t.hour) + ":" + Pad2(t.minute)
  }

  /** Every real date is accepted, in its zero-padded spelling. */
  lemma DateRoundTrip(d: Date)
    requires IsValidDate(d)
    ensures ParseDate(FormatDate(d)) == Some(d)
  {
    var s := FormatDate(d);
    var c, y, m, dd := Pad2(d.year / 100), Pad2(d.year % 100), Pad2(d.month), Pad2(d.day);
    assert s[0] == c[0] && s[1] == c[1] && s[2] == y[0] && s[3] == y[1];
    assert s[5] == m[0] && s[6] == m[1] && s[8] == dd[0] && s[9] == dd[1];
  }

  /** The parser accepts nothing else: an accepted string is the zero-padded
      spelling of the date it yields. */
  lemma DateParseFormat(s: string)
    requires ParseDate(s).Some?
    ensures FormatDate(ParseDate(s).value) == s
  {
    var d := ParseDate(s).value;
    Pad2OfPairValue(s[0], s[1]);
    Pad2OfPairValue(s[2], s[3]);
    Pad2OfPairValue(s[5], s[6]);
    Pad2OfPairValue(s[8], s[9]);
    assert d.year / 100 == PairValue(s[0], s[1]) && d.year % 100 == PairValue(s[2], s[3]);
    assert s == [s[0], s[1]] + [s[2], s[3]] + "-" + [s[5], s[6]] + "-" + [s[8], s[9]];
  }

  /** Every minute of the day is accepted, in its zero-padded spelling. */
  lemma TimeRoundTrip(t: Time)
    requires IsValidTime(t)
    ensures ParseTime(FormatTime(t)) == Some(t)
  {
    var s := FormatTime(t);
    var h, m := Pad2(t.hour), Pad2(t.minute);
    assert s[0] == h[0] && s[1] == h[1] && s[3] == m[0] && s[4] == m[1];
  }

  /** An accepted time string is the zero-padded spelling of its time. */
  lemma TimeParseFormat(s: string)
    requires ParseTime(s).Some?
    ensures FormatTime(ParseTime(s).value) == s
  {
    Pad2OfPairValue(s[0], s[1]);
    Pad2OfPairValue(s[3], s[4]);
    assert s == [s[0], s[1]] + ":" + [s[3], s[4]];
  }

  /** February 29th exists exactly in leap years. */
  lemma LeapDay(year: nat)
    requires 1 <= year <= 9999
    ensures ParseDate(FormatDate(Date(year, 2, 28))) == Some(Date(year, 2, 28))
    ensures IsLeapYear(year) ==> ParseDate(FormatDate(Date(year, 2, 29))) == Some(Date(year, 2, 29))
    ensures !IsLeapYear(year) ==> !IsValidDate(Date(year, 2, 29))
  {
    DateRoundTrip(Date(year, 2, 28));
    if IsLeapYear(year) {
      DateRoundTrip(Date(year, 2, 29));
    }
  }

  /** The dates the tests accept. */
  lemma DateExamplesAccepted()
    ensures ParseDate("2022-03-20") == Some(Date(2022, 3, 20))
    ensures ParseDate("2022-01-02") == Some(Date(2022, 1, 2))
    ensures ParseDate("2022-01-01") == Some(Date(2022, 1, 1))
    ensures ParseDate("2018-02-10") == Some(Date(2018, 2, 10))
  {
  }

  /** The dates the tests reject: too short, day-month-year order, month 13,
      December 32nd. */
  lemma DateExamplesRejected()
    ensures ParseDate("2014") == None
    ensures ParseDate("02-08-1998") == None
    ensures ParseDate("1090-13-15") == None
    ensures ParseDate("2014-12-32") == None
    ensures ParseDate("2022-13-20") == None
  {
  }

  /** Leap-year cases of the Gregorian rule, and year zero, which Python's
      datetime does not have. */
  lemma DateExamplesLeap()
    ensures ParseDate("2024-02-29").Some? && ParseDate("2023-02-29") == None
    ensures ParseDate("2000-02-29").Some? && ParseDate("1900-02-29") == None
    ensures ParseDate("0000-01-01") == None
  {
  }

  /** The times the tests accept and reject. */
  lemma TimeExamples()
    ensures ParseTime("08:13") == Some(Time(8, 13))
    ensures ParseTime("13:01") == Some(Time(13, 1))
    ensures ParseTime("13:13") == Some(Time(13, 13))
    ensures ParseTime("14:33") == Some(Time(14, 33))
    ensures ParseTime(":") == None
    ensures ParseTime("12") == None
    ensures ParseTime("28:30") == None
    ensures ParseTime("23:61") == None
    ensures ParseTime("234:303") == None
  {
  }
}
