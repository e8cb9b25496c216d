/** Calendar dates as the service handles them: `datetime` values at midnight
    (listing dates, the watermark), the wall-clock reading `datetime.now()`,
    one-day subtraction, and the `%Y-%m-%d` / `%Y/%m/%d` formats. */
module Dates {
  import opened Common
  import opened Digits

  datatype YMD = YMD(year: int, month: int, day: int)

  predicate IsLeapYear(y: int) {
    y % 4 == 0 && (y % 100 != 0 || y % 400 == 0)
  }

  function DaysInMonth(y: int, m: int): int
    requires 1 <= m <= 12
  {
    if m == 2 then (if IsLeapYear(y) then 29 else 28)
    else if m == 4 || m == 6 || m == 9 || m == 11 then 30
    else 31
  }

  /** Proleptic Gregorian dates in Python's range `MINYEAR..MAXYEAR`. */
  predicate IsValid(d: YMD) {
    1 <= d.year <= 9999 && 1 <= d.month <= 12 && 1 <= d.day <= DaysInMonth(d.year, d.month)
  }

  type Date = d: YMD | IsValid(d) witness YMD(1970, 1, 1)

  /** `date.min`: the one date that has no day before it. */
  const FirstDay: Date := YMD(1, 1, 1)

  /** Chronological order: `a < b`. */
  predicate Before(a: Date, b: Date) {
    a.year < b.year
    || (a.year == b.year && (a.month < b.month || (a.month == b.month && a.day < b.day)))
  }

  /** `a <= b`. */
  predicate AtMost(a: Date, b: Date) {
    a == b || Before(a, b)
  }

  /** `d - timedelta(days=1)`: the latest date before `d`. */
  function Yesterday(d: Date): (r: Date)
    requires d != FirstDay
    ensures Before(r, d)
    ensures forall e: Date :: Before(e, d) ==> AtMost(e, r)
  {
    if d.day > 1 then YMD(d.year, d.month, d.day - 1)
    else if d.month > 1 then YMD(d.year, d.month - 1, DaysInMonth(d.year, d.month - 1))
    else YMD(d.year - 1, 12, 31)
  }

  /** A wall-clock reading: a date and the time elapsed since its midnight
      (in any unit; only "zero or not" matters to the model). */
  datatype Moment = Moment(date: Date, sinceMidnight: nat)

  /** `t > datetime(d)`, where `datetime(d)` is midnight at the start of `d`. */
  predicate LaterThan(t: Moment, d: Date) {
    Before(d, t.date) || (t.date == d && t.sinceMidnight > 0)
  }

  /** `strftime` with year, month and day zero-padded to four, two and two
      digits and joined by `sep`. */
  function FormatWith(d: Date, sep: char): (s: string)
    ensures |s| == 10 && s[4] == sep && s[7] == sep
  {
    Padded(d.year, 4) + [sep] + Padded(d.month, 2) + [sep] + Padded(d.day, 2)
  }

  /** `strftime("%Y-%m-%d")` */
  function FormatIso(d: Date): string {
    FormatWith(d, '-')
  }

  /** `strftime("%Y/%m/%d")`, the date part of a document key. */
  function FormatPath(d: Date): string {
    FormatWith(d, '/')
  }

  /** `strptime(s, "%Y-%m-%d")` on canonical input: `None` stands for the `ValueError`. */
  function ParseIso(s: string): Option<Date> {
    if |s| == 10 && s[4] == '-' && s[7] == '-'
       && AllDigits(s[..4]) && AllDigits(s[5..7]) && AllDigits(s[8..])
    then
      var d := YMD(Value(s[..4]), Value(s[5..7]), Value(s[8..]));
      if IsValid(d) then Some(d) else None
    else None
  }

  /** The watermark written with `%Y-%m-%d` is read back unchanged. */
  lemma ParseFormatIso(d: Date)
    ensures ParseIso(FormatIso(d)) == Some(d)
  {
    var s := FormatIso(d);
    assert s[..4] == Padded(d.year, 4);
    assert s[5..7] == Padded(d.month, 2);
    assert s[8..] == Padded(d.day, 2);
    ValueOfPadded(d.year, 4);
    ValueOfPadded(d.month, 2);
    ValueOfPadded(d.day, 2);
  }

  /** Every string the parser accepts is the canonical form of the date it yields. */
  lemma FormatParseIso(s: string)
    requires ParseIso(s).Some?
    ensures FormatIso(ParseIso(s).value) == s
  {
    PaddedOfValue(s[..4]);
    PaddedOfValue(s[5..7]);
    PaddedOfValue(s[8..]);
    assert s == s[..4] + "-" + s[5..7] + "-" + s[8..];
  }

  /** Distinct dates have distinct `%Y/%m/%d` forms. */
  lemma FormatPathInjective(d: Date, e: Date)
    requires FormatPath(d) == FormatPath(e)
    ensures d == e
  {
    var s, t := FormatPath(d), FormatPath(e);
    assert s == Padded(d.year, 4) + ['/'] + Padded(d.month, 2) + ['/'] + Padded(d.day, 2);
    assert t == Padded(e.year, 4) + ['/'] + Padded(e.month, 2) + ['/'] + Padded(e.day, 2);
    assert s[..4] == Padded(d.year, 4) && t[..4] == Padded(e.year, 4);
    assert s[5..7] == Padded(d.month, 2) && t[5..7] == Padded(e.month, 2);
    assert s[8..] == Padded(d.day, 2) && t[8..] == Padded(e.day, 2);
    ValueOfPadded(d.year, 4);
    ValueOfPadded(d.month, 2);
    ValueOfPadded(d.day, 2);
    ValueOfPadded(e.year, 4);
    ValueOfPadded(e.month, 2);
    ValueOfPadded(e.day, 2);
  }
}
