/**
 * Wall-clock timestamps at minute resolution, and the fixed-pattern
 * `DateFormatter`s the application uses (en_US_POSIX locale, current time zone):
 * "yyyy-MM-dd HH:mm", "yyyy-MM-dd", "HH:mm" and "yyyy-MM-dd-HHmm".
 */
module DateTime {
  import opened Wrappers
  import opened Text

  /** A local date and time, to the minute. */
  datatype DateRecord = DateRecord(year: int, month: int, day: int, hour: int, minute: int)

  predicate IsLeapYear(y: int) {
    (y % 4 == 0 && y % 100 != 0) || y % 400 == 0
  }

  function DaysInMonth(y: int, m: int): int
    requires 1 <= m <= 12
  {
    if m == 2 then (if IsLeapYear(y) then 29 else 28)
    else if m == 4 || m == 6 || m == 9 || m == 11 then 30
    else 31
  }

  predicate IsValidDate(d: DateRecord) {
    1 <= d.year <= 9999 && 1 <= d.month <= 12 && 1 <= d.day <= DaysInMonth(d.year, d.month)
    && 0 <= d.hour < 24 && 0 <= d.minute < 60
  }

  /** A calendar-valid timestamp with a four-digit year. */
  type Date = d: DateRecord | IsValidDate(d) witness DateRecord(2000, 1, 1, 0, 0)

  // ---------------------------------------------------------------------------
  // Order
  // ---------------------------------------------------------------------------

  /** `a < b` on timestamps. */
  predicate Before(a: Date, b: Date) {
    a.year < b.year
    || (a.year == b.year && (a.month < b.month
    || (a.month == b.month && (a.day < b.day
    || (a.day == b.day && (a.hour < b.hour
    || (a.hour == b.hour && a.minute < b.minute)))))))
  }

  /** `a <= b` on timestamps. */
  predicate NotAfter(a: Date, b: Date) {
    !Before(b, a)
  }

  lemma BeforeIrreflexive(a: Date)
    ensures !Before(a, a)
  {
  }

  lemma BeforeTransitive(a: Date, b: Date, c: Date)
    requires Before(a, b) && Before(b, c)
    ensures Before(a, c)
  {
  }

  /** Two timestamps are ordered one way or the other unless they are equal. */
  lemma BeforeTrichotomy(a: Date, b: Date)
    ensures Before(a, b) || Before(b, a) || a == b
  {
  }

  predicate SameDay(a: Date, b: Date) {
    a.year == b.year && a.month == b.month && a.day == b.day
  }

  // ---------------------------------------------------------------------------
  // Formatting
  // ---------------------------------------------------------------------------

  function Pad2(n: int): (r: String)
    requires 0 <= n < 100
    ensures |r| == 2 && AllAsciiDigits(r)
  {
    [DigitChar(n / 10), DigitChar(n % 10)]
  }

  function Pad4(n: int): (r: String)
    requires 0 <= n < 10000
    ensures |r| == 4 && AllAsciiDigits(r)
  {
    Pad2(n / 100) + Pad2(n % 100)
  }

  /** "yyyy-MM-dd". */
  function FormatDay(d: Date): (r: String)
    ensures |r| == 10
  {
    Pad4(d.year) + "-" + Pad2(d.month) + "-" + Pad2(d.day)
  }

  /** "HH:mm". */
  function FormatTime(d: Date): (r: String)
    ensures |r| == 5
  {
    Pad2(d.hour) + ":" + Pad2(d.minute)
  }

  /** "yyyy-MM-dd HH:mm": the day and the time separated by one space. */
  function FormatMinute(d: Date): (r: String)
    ensures |r| == 16
  {
    FormatDay(d) + " " + FormatTime(d)
  }

  /** "yyyy-MM-dd-HHmm", the stamp used in file names. */
  function FormatFileStamp(d: Date): (r: String)
    ensures |r| == 15
  {
    FormatDay(d) + "-" + Pad2(d.hour) + Pad2(d.minute)
  }

  // ---------------------------------------------------------------------------
  // Parsing
  // ---------------------------------------------------------------------------

  /** The value of the two digits of `s` at `i`. */
  function Digits2(s: String, i: int): int
    requires 0 <= i && i + 2 <= |s| && IsAsciiDigit(s[i]) && IsAsciiDigit(s[i + 1])
  {
    DigitValue(s[i]) * 10 + DigitValue(s[i + 1])
  }

  predicate DigitsAt(s: String, i: int, n: int)
    requires 0 <= i && 0 <= n && i + n <= |s|
  {
    forall k :: i <= k < i + n ==> IsAsciiDigit(s[k])
  }

  /**
   * A strict reading of "yyyy-MM-dd HH:mm": exactly sixteen characters, ASCII digits
   * and separators in their places, naming a valid date.
   */
  function ParseMinute(s: String): (r: Option<Date>)
    ensures r.Some? ==> FormatMinute(r.value) == s
  {
    if |s| == 16 && s[4] == '-' && s[7] == '-' && s[10] == ' ' && s[13] == ':'
       && DigitsAt(s, 0, 4) && DigitsAt(s, 5, 2) && DigitsAt(s, 8, 2)
       && DigitsAt(s, 11, 2) && DigitsAt(s, 14, 2) then
      var d := DateRecord(Digits2(s, 0) * 100 + Digits2(s, 2), Digits2(s, 5), Digits2(s, 8),
                          Digits2(s, 11), Digits2(s, 14));
      if IsValidDate(d) then
        FormatMinuteOfDigits(s, d);
        Some(d)
      else None
    else None
  }

  lemma Pad2OfDigits(s: String, i: int)
    requires 0 <= i && i + 2 <= |s| && IsAsciiDigit(s[i]) && IsAsciiDigit(s[i + 1])
    ensures Pad2(Digits2(s, i)) == s[i..i + 2]
  {
    var n := Digits2(s, i);
    assert n / 10 == DigitValue(s[i]) && n % 10 == DigitValue(s[i + 1]);
  }

  lemma FormatMinuteOfDigits(s: String, d: Date)
    requires |s| == 16 && s[4] == '-' && s[7] == '-' && s[10] == ' ' && s[13] == ':'
    requires DigitsAt(s, 0, 4) && DigitsAt(s, 5, 2) && DigitsAt(s, 8, 2)
    requires DigitsAt(s, 11, 2) && DigitsAt(s, 14, 2)
    requires d == DateRecord(Digits2(s, 0) * 100 + Digits2(s, 2), Digits2(s, 5), Digits2(s, 8),
                             Digits2(s, 11), Digits2(s, 14))
    ensures FormatMinute(d) == s
  {
    Pad2OfDigits(s, 0);
    Pad2OfDigits(s, 2);
    Pad2OfDigits(s, 5);
    Pad2OfDigits(s, 8);
    Pad2OfDigits(s, 11);
    Pad2OfDigits(s, 14);
    assert d.year / 100 == Digits2(s, 0) && d.year % 100 == Digits2(s, 2);
    assert FormatMinute(d) == s[0..2] + s[2..4] + "-" + s[5..7] + "-" + s[8..10] + " "
                              + s[11..13] + ":" + s[14..16];
  }

  lemma Digits2OfPad2(n: int, s: String, i: int)
    requires 0 <= n < 100 && 0 <= i && i + 2 <= |s| && s[i..i + 2] == Pad2(n)
    ensures IsAsciiDigit(s[i]) && IsAsciiDigit(s[i + 1]) && Digits2(s, i) == n
  {
    assert s[i] == Pad2(n)[0] && s[i + 1] == Pad2(n)[1];
  }

  /** Formatting a date and reading it back gives the same date. */
  lemma ParseFormatMinute(d: Date)
    ensures ParseMinute(FormatMinute(d)) == Some(d)
  {
    var s := FormatMinute(d);
    FormatMinuteFields(d);
    Digits2OfPad2(d.year / 100, s, 0);
    Digits2OfPad2(d.year % 100, s, 2);
    Digits2OfPad2(d.month, s, 5);
    Digits2OfPad2(d.day, s, 8);
    Digits2OfPad2(d.hour, s, 11);
    Digits2OfPad2(d.minute, s, 14);
  }

  /** Where each field and separator sits in "yyyy-MM-dd HH:mm". */
  lemma FormatMinuteFields(d: Date)
    ensures var s := FormatMinute(d);
      && s[4] == '-' && s[7] == '-' && s[10] == ' ' && s[13] == ':'
      && s[0..2] == Pad2(d.year / 100) && s[2..4] == Pad2(d.year % 100)
      && s[5..7] == Pad2(d.month) && s[8..10] == Pad2(d.day)
      && s[11..13] == Pad2(d.hour) && s[14..16] == Pad2(d.minute)
  {
    var s := FormatMinute(d);
    var y1, y2, mo, da, h, mi := Pad2(d.year / 100), Pad2(d.year % 100), Pad2(d.month), Pad2(d.day), Pad2(d.hour), Pad2(d.minute);
    assert s == y1 + y2 + "-" + mo + "-" + da + " " + h + ":" + mi;
    assert s[0] == y1[0] && s[1] == y1[1] && s[2] == y2[0] && s[3] == y2[1];
    assert s[5] == mo[0] && s[6] == mo[1] && s[8] == da[0] && s[9] == da[1];
    assert s[11] == h[0] && s[12] == h[1] && s[14] == mi[0] && s[15] == mi[1];
    assert s[0..2] == y1 && s[2..4] == y2 && s[5..7] == mo;
    assert s[8..10] == da && s[11..13] == h && s[14..16] == mi;
  }

  /** Distinct timestamps format to distinct strings. */
  lemma FormatMinuteInjective(a: Date, b: Date)
    requires FormatMinute(a) == FormatMinute(b)
    ensures a == b
  {
    ParseFormatMinute(a);
    ParseFormatMinute(b);
  }

  /** Distinct timestamps give distinct file-name stamps. */
  lemma FileStampInjective(a: Date, b: Date)
    requires FormatFileStamp(a) == FormatFileStamp(b)
    ensures a == b
  {
    var sa, sb := FormatFileStamp(a), FormatFileStamp(b);
    assert FormatDay(a) == sa[..10] && FormatDay(b) == sb[..10];
    assert Pad2(a.hour) == sa[11..13] && Pad2(b.hour) == sb[11..13];
    assert Pad2(a.minute) == sa[13..15] && Pad2(b.minute) == sb[13..15];
    assert FormatMinute(a) == FormatMinute(b);
    FormatMinuteInjective(a, b);
  }

  /** The date of `day` with the hour and minute of `time`. */
  function AtTimeOf(day: Date, time: Date): (r: Date)
    ensures SameDay(r, day) && FormatTime(r) == FormatTime(time)
  {
    DateRecord(day.year, day.month, day.day, time.hour, time.minute)
  }

  /** A day stamp, a space and the time of a date on that day read back as that date. */
  lemma ParseDayAndTime(day: Date, d: Date)
    requires SameDay(day, d)
    ensures ParseMinute(FormatDay(day) + " " + FormatTime(d)) == Some(d)
  {
    assert FormatDay(day) == FormatDay(d);
    ParseFormatMinute(d);
  }

  lemma DigitsFree(s: String)
    requires AllAsciiDigits(s)
    ensures NoneIn(s, WhitespacesAndNewlines) && NoneIn(s, Newlines) && ' ' !in s && '-' !in s
  {
  }

  /** "yyyy-MM-dd HH:mm" has no line break and starts and ends with a digit. */
  lemma FormatMinuteShape(d: Date)
    ensures var m := FormatMinute(d);
      NoneIn(m, Newlines) && !InSet(m[0], Whitespaces) && !InSet(m[15], Whitespaces)
  {
    var m := FormatMinute(d);
    FormatMinuteFields(d);
    assert m[0] == m[0..2][0] && m[15] == m[14..16][1];
    forall i | 0 <= i < 16 ensures !IsNewline(m[i]) {
      if i < 2 { assert m[i] == m[0..2][i]; }
      else if i < 4 { assert m[i] == m[2..4][i - 2]; }
      else if 5 <= i < 7 { assert m[i] == m[5..7][i - 5]; }
      else if 8 <= i < 10 { assert m[i] == m[8..10][i - 8]; }
      else if 11 <= i < 13 { assert m[i] == m[11..13][i - 11]; }
      else if 14 <= i { assert m[i] == m[14..16][i - 14]; }
    }
  }
}
