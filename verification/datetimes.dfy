/**
 * The `datetime.datetime` values a caller may pass as a scheduled send
 * time, and their rendering with `strftime("%Y-%m-%d %H:%M:%S")`.
 * Only years with four digits are modelled.
 */
module DateTimes {
  import opened Wrappers
  import opened Patterns

  datatype Moment = Moment(year: int, month: int, day: int, hour: int, minute: int, second: int)

  predicate IsLeapYear(y: int) {
    (y % 4 == 0 && y % 100 != 0) || y % 400 == 0
  }

  function DaysInMonth(y: int, m: int): int
    requires 1 <= m <= 12
  {
    if m == 2 then (if IsLeapYear(y) then 29 else 28)
    else if m == 4 || m == 6 || m == 9 || m == 11 then 30
    else 31
  }

  /** The field ranges a `datetime` object guarantees (year narrowed to four digits). */
  predicate IsCalendarMoment(t: Moment) {
    && 1000 <= t.year <= 9999
    && 1 <= t.month <= 12
    && 1 <= t.day <= DaysInMonth(t.year, t.month)
    && 0 <= t.hour < 24
    && 0 <= t.minute < 60
    && 0 <= t.second < 60
  }

  type DateTime = t: Moment | IsCalendarMoment(t) witness Moment(2000, 1, 1, 0, 0, 0)

  function Pow10(n: nat): nat {
    if n == 0 then 1 else 10 * Pow10(n - 1)
  }

  function DigitChar(d: nat): (c: char)
    requires d < 10
    ensures IsDigit(c)
  {
    ('0' as int + d) as char
  }

  function DigitValue(c: char): nat {
    if IsDigit(c) then (c as int - '0' as int) else 0
  }

  /** `n` written in decimal, zero-padded to exactly `w` digits. */
  function Digits(n: nat, w: nat): (r: string)
    requires n < Pow10(w)
    ensures |r| == w
    ensures AllDigits(r)
  {
    if w == 0 then [] else Digits(n / 10, w - 1) + [DigitChar(n % 10)]
  }

  /** The number a string of decimal digits denotes. */
  function NumberOf(s: string): nat {
    if |s| == 0 then 0 else 10 * NumberOf(s[..|s| - 1]) + DigitValue(s[|s| - 1])
  }

  lemma {:induction false} DigitsRoundTrip(n: nat, w: nat)
    requires n < Pow10(w)
    ensures NumberOf(Digits(n, w)) == n
    decreases w
  {
    if w > 0 {
      var r := Digits(n, w);
      assert r[..|r| - 1] == Digits(n / 10, w - 1);
      DigitsRoundTrip(n / 10, w - 1);
    }
  }

  /** The `YYYY-MM-DD HH:MM:SS` layout of six digit groups. */
  function Layout(y: string, mo: string, d: string, h: string, mi: string, se: string): string {
    y + "-" + mo + "-" + d + " " + h + ":" + mi + ":" + se
  }

  /** Each digit group of the layout sits at its fixed position. */
  lemma LayoutSlices(y: string, mo: string, d: string, h: string, mi: string, se: string)
    requires |y| == 4 && |mo| == 2 && |d| == 2 && |h| == 2 && |mi| == 2 && |se| == 2
    ensures var s := Layout(y, mo, d, h, mi, se);
            && |s| == 19
            && s[0..4] == y && s[5..7] == mo && s[8..10] == d
            && s[11..13] == h && s[14..16] == mi && s[17..19] == se
            && s[4] == '-' && s[7] == '-' && s[10] == ' ' && s[13] == ':' && s[16] == ':'
  {
    var date := y + "-" + mo + "-" + d;
    var time := h + ":" + mi + ":" + se;
    assert Layout(y, mo, d, h, mi, se) == date + " " + time;
    assert date[0..4] == y && date[5..7] == mo && date[8..10] == d;
    assert time[0..2] == h && time[3..5] == mi && time[6..8] == se;
  }

  /** The layout of six digit groups is what the timestamp pattern describes. */
  lemma LayoutShape(y: string, mo: string, d: string, h: string, mi: string, se: string)
    requires |y| == 4 && |mo| == 2 && |d| == 2 && |h| == 2 && |mi| == 2 && |se| == 2
    requires AllDigits(y) && AllDigits(mo) && AllDigits(d)
    requires AllDigits(h) && AllDigits(mi) && AllDigits(se)
    ensures var s := Layout(y, mo, d, h, mi, se);
            DateHead(s) && s[10] == ' ' && TimeAt(s, 11)
  {
    var s := Layout(y, mo, d, h, mi, se);
    LayoutSlices(y, mo, d, h, mi, se);
    assert forall i :: 0 <= i < 4 ==> s[i] == s[0..4][i];
    assert forall i :: 5 <= i < 7 ==> s[i] == s[5..7][i - 5];
    assert forall i :: 8 <= i < 10 ==> s[i] == s[8..10][i - 8];
    assert forall i :: 11 <= i < 13 ==> s[i] == s[11..13][i - 11];
    assert forall i :: 14 <= i < 16 ==> s[i] == s[14..16][i - 14];
    assert forall i :: 17 <= i < 19 ==> s[i] == s[17..19][i - 17];
  }

  /** `strftime("%Y-%m-%d %H:%M:%S")`. */
  function Format(t: DateTime): (r: string)
    ensures |r| == 19
  {
    LayoutSlices(Digits(t.year, 4), Digits(t.month, 2), Digits(t.day, 2),
                 Digits(t.hour, 2), Digits(t.minute, 2), Digits(t.second, 2));
    Layout(Digits(t.year, 4), Digits(t.month, 2), Digits(t.day, 2),
           Digits(t.hour, 2), Digits(t.minute, 2), Digits(t.second, 2))
  }

  /** Reads the fields back out of a `YYYY-MM-DD HH:MM:SS` string. */
  function Parse(s: string): (r: Option<Moment>)
    ensures r.Some? ==> |s| == 19 && DateHead(s) && TimeAt(s, 11)
  {
    if |s| == 19 && DateHead(s) && s[10] == ' ' && TimeAt(s, 11) then
      Some(Moment(NumberOf(s[0..4]), NumberOf(s[5..7]), NumberOf(s[8..10]),
                  NumberOf(s[11..13]), NumberOf(s[14..16]), NumberOf(s[17..19])))
    else None
  }

  /** Formatting loses nothing: the fields can be read back exactly. */
  lemma FormatRoundTrip(t: DateTime)
    ensures Parse(Format(t)) == Some(t)
  {
    var y, mo, d := Digits(t.year, 4), Digits(t.month, 2), Digits(t.day, 2);
    var h, mi, se := Digits(t.hour, 2), Digits(t.minute, 2), Digits(t.second, 2);
    LayoutSlices(y, mo, d, h, mi, se);
    LayoutShape(y, mo, d, h, mi, se);
    DigitsRoundTrip(t.year, 4);
    DigitsRoundTrip(t.month, 2);
    DigitsRoundTrip(t.day, 2);
    DigitsRoundTrip(t.hour, 2);
    DigitsRoundTrip(t.minute, 2);
    DigitsRoundTrip(t.second, 2);
  }

  /** Distinct date-times are never rendered alike. */
  lemma FormatInjective(a: DateTime, b: DateTime)
    ensures Format(a) == Format(b) ==> a == b
  {
    FormatRoundTrip(a);
    FormatRoundTrip(b);
  }

  /** A rendered date-time always passes the timestamp check. */
  lemma FormatPassesCheckDate(t: DateTime)
    ensures CheckDate(Format(t)) == Some(Format(t))
  {
    FormatRoundTrip(t);
    var s := Format(t);
    assert s[10] == ' ' && IsDigit(s[11]);
    assert SpaceRun(s, 10) == 1 by {
      SpaceRunIsMaximal(s, 10, 1);
    }
  }
}
