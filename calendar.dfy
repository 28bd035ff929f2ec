/**
 * Gregorian calendar dates, Python `datetime` moments, and the `%Y-%m-%d` parser of
 * `datetime.strptime` that the source uses on request dates and birthdates.
 */
module Calendar {
  import opened Wrappers
  import opened Text
  import opened Errors

  /** `calendar.isleap`: divisible by 4, except centuries not divisible by 400. */
  predicate IsLeapYear(y: int) {
    y % 4 == 0 && (y % 100 != 0 || y % 400 == 0)
  }

  /** `calendar.monthrange(y, m)[1]`: the number of days of month `m` of year `y`. */
  function DaysInMonth(y: int, m: int): (days: int)
    requires 1 <= m <= 12
    ensures 28 <= days <= 31
  {
    if m == 2 then (if IsLeapYear(y) then 29 else 28)
    else if m == 4 || m == 6 || m == 9 || m == 11 then 30
    else 31
  }

  /** The days of months `1..m` of year `y`. */
  function DaysBeforeMonthEnd(y: int, m: int): int
    requires 0 <= m <= 12
  {
    if m == 0 then 0 else DaysBeforeMonthEnd(y, m - 1) + DaysInMonth(y, m)
  }

  /**
   * The month lengths are those of the Gregorian calendar: each is 28 to 31 days, February
   * has 29 exactly in leap years, and the twelve add up to a 365- or 366-day year.
   */
  lemma MonthLengths(y: int, m: int)
    requires 1 <= m <= 12
    ensures 28 <= DaysInMonth(y, m) <= 31
    ensures DaysInMonth(y, m) < 30 <==> m == 2
    ensures m == 2 ==> (DaysInMonth(y, m) == 29 <==> IsLeapYear(y))
    ensures DaysBeforeMonthEnd(y, 12) == if IsLeapYear(y) then 366 else 365
  {
    assert DaysBeforeMonthEnd(y, 1) == 31;
    assert DaysBeforeMonthEnd(y, 2) == 31 + DaysInMonth(y, 2);
    assert DaysBeforeMonthEnd(y, 3) == DaysBeforeMonthEnd(y, 2) + 31;
    assert DaysBeforeMonthEnd(y, 4) == DaysBeforeMonthEnd(y, 2) + 61;
    assert DaysBeforeMonthEnd(y, 5) == DaysBeforeMonthEnd(y, 2) + 92;
    assert DaysBeforeMonthEnd(y, 6) == DaysBeforeMonthEnd(y, 2) + 122;
    assert DaysBeforeMonthEnd(y, 7) == DaysBeforeMonthEnd(y, 2) + 153;
    assert DaysBeforeMonthEnd(y, 8) == DaysBeforeMonthEnd(y, 2) + 184;
    assert DaysBeforeMonthEnd(y, 9) == DaysBeforeMonthEnd(y, 2) + 214;
    assert DaysBeforeMonthEnd(y, 10) == DaysBeforeMonthEnd(y, 2) + 245;
    assert DaysBeforeMonthEnd(y, 11) == DaysBeforeMonthEnd(y, 2) + 275;
  }

  /** A calendar date; `ValidDate` is what `datetime.date` accepts. */
  datatype Date = Date(year: int, month: int, day: int)

  predicate ValidDate(d: Date) {
    1 <= d.year <= 9999 && 1 <= d.month <= 12 && 1 <= d.day <= DaysInMonth(d.year, d.month)
  }

  /** A naive `datetime`: a date and the microseconds elapsed since its midnight. */
  datatype Moment = Moment(date: Date, micros: int)

  const MicrosPerDay: int := 86_400_000_000

  predicate ValidMoment(t: Moment) {
    ValidDate(t.date) && 0 <= t.micros < MicrosPerDay
  }

  function Midnight(d: Date): Moment {
    Moment(d, 0)
  }

  predicate DateBefore(a: Date, b: Date) {
    a.year < b.year
    || (a.year == b.year && a.month < b.month)
    || (a.year == b.year && a.month == b.month && a.day < b.day)
  }

  /** `a < b` on naive datetimes. */
  predicate Before(a: Moment, b: Moment) {
    DateBefore(a.date, b.date) || (a.date == b.date && a.micros < b.micros)
  }

  /** `%m` of strptime: the alternatives `1[0-2]|0[1-9]|[1-9]` tried in order at `p`. */
  function MatchMonth(s: string, p: nat): (r: Option<(int, nat)>)
    ensures r.Some? ==> 1 <= r.value.0 <= 12 && p < r.value.1 <= |s|
  {
    if p + 1 < |s| && s[p] == '1' && '0' <= s[p + 1] <= '2' then Some((10 + DigitValue(s[p + 1]), p + 2))
    else if p + 1 < |s| && s[p] == '0' && '1' <= s[p + 1] <= '9' then Some((DigitValue(s[p + 1]), p + 2))
    else if p < |s| && '1' <= s[p] <= '9' then Some((DigitValue(s[p]), p + 1))
    else None
  }

  /**
   * `%d` of strptime: the alternatives `3[01]|[12]\d|0[1-9]|[1-9]| [1-9]` tried in order at
   * `p`. It ends the pattern, so the first alternative that matches is taken.
   */
  function MatchDay(s: string, p: nat): (r: Option<(int, nat)>)
    ensures r.Some? ==> 1 <= r.value.0 <= 31 && p < r.value.1 <= |s|
  {
    if p + 1 < |s| && s[p] == '3' && (s[p + 1] == '0' || s[p + 1] == '1') then Some((30 + DigitValue(s[p + 1]), p + 2))
    else if p + 1 < |s| && (s[p] == '1' || s[p] == '2') && IsDigit(s[p + 1]) then Some((10 * DigitValue(s[p]) + DigitValue(s[p + 1]), p + 2))
    else if p + 1 < |s| && s[p] == '0' && '1' <= s[p + 1] <= '9' then Some((DigitValue(s[p + 1]), p + 2))
    else if p < |s| && '1' <= s[p] <= '9' then Some((DigitValue(s[p]), p + 1))
    else if p + 1 < |s| && s[p] == ' ' && '1' <= s[p + 1] <= '9' then Some((DigitValue(s[p + 1]), p + 2))
    else None
  }

  function NoMatch(s: string): PyException {
    ValueError("time data '" + s + "' does not match format '%Y-%m-%d'")
  }

  /**
   * `datetime.strptime(s, '%Y-%m-%d')`: the pattern must match at the start, nothing may
   * follow it, and the fields must form a date `datetime` accepts; each failure is a
   * ValueError.
   */
  function ParseIsoDate(s: string): (r: Result<Date, PyException>)
    ensures r.Success? ==> ValidDate(r.value)
    ensures r.Success? ==> 8 <= |s| <= 10 && AllDigits(s[..4]) && s[4] == '-'
    ensures r.Failure? ==> r.error.typeName == "ValueError"
  {
    if |s| < 5 || !AllDigits(s[..4]) || s[4] != '-' then Failure(NoMatch(s))
    else
      match MatchMonth(s, 5)
      case None => Failure(NoMatch(s))
      case Some((month, p)) =>
        if p >= |s| || s[p] != '-' then Failure(NoMatch(s))
        else
          match MatchDay(s, p + 1)
          case None => Failure(NoMatch(s))
          case Some((day, q)) =>
            if q < |s| then Failure(ValueError("unconverted data remains: " + s[q..]))
            else
              var year := DecimalValue(s[..4]);
              assert year < 10000 by { DecimalValueBound(s[..4]); }
              if year < 1 then Failure(ValueError("year 0 is out of range"))
              else if day > DaysInMonth(year, month) then Failure(ValueError("day is out of range for month"))
              else Success(Date(year, month, day))
  }

  /** `d.strftime('%Y-%m-%d')`. */
  function IsoText(d: Date): (s: string)
    requires ValidDate(d)
    ensures |s| == 10
  {
    PadDecimal(d.year, 4) + "-" + PadDecimal(d.month, 2) + "-" + PadDecimal(d.day, 2)
  }

  lemma TwoDigitField(n: nat)
    requires n < 100
    ensures PadDecimal(n, 2) == [DigitChar(n / 10), DigitChar(n % 10)]
  {
    assert n / 100 == 0 && (n / 10) % 10 == n / 10;
    assert PadDecimal(n / 10, 1) == PadDecimal(0, 0) + [DigitChar(n / 10)];
  }

  /** strptime reads back every date that strftime writes. */
  lemma IsoTextRoundTrip(d: Date)
    requires ValidDate(d)
    ensures ParseIsoDate(IsoText(d)) == Success(d)
  {
    var s := IsoText(d);
    assert s[..4] == PadDecimal(d.year, 4);
    PadDecimalRoundTrip(d.year, 4);
    TwoDigitField(d.month);
    TwoDigitField(d.day);
    assert s[5] == DigitChar(d.month / 10) && s[6] == DigitChar(d.month % 10) && s[7] == '-';
    assert s[8] == DigitChar(d.day / 10) && s[9] == DigitChar(d.day % 10);
    assert MatchMonth(s, 5) == Some((d.month, 7));
    assert MatchDay(s, 8) == Some((d.day, 10));
  }

  /** `d.strftime('%y%m%d')`. */
  function Yymmdd(d: Date): (s: string)
    requires ValidDate(d)
    ensures |s| == 6 && AllDigits(s)
  {
    PadDecimal(d.year % 100, 2) + PadDecimal(d.month, 2) + PadDecimal(d.day, 2)
  }
}
