/**
 * Proleptic Gregorian dates as Python's datetime counts them (day 1 is 1 January of year 1,
 * years 1 to 9999), and the decimal year the geomagnetic model is queried with.
 */
module Calendar {
  import opened Wrappers

  const MinYear: int := 1
  const MaxYear: int := 9999

  datatype Date = Date(year: int, month: int, day: int)

  /** A date and a time of day; only the date part matters to the decimal year. */
  datatype DateTime = DateTime(date: Date, hour: int, minute: int, second: int, microsecond: int)

  datatype DateError = YearOutOfRange(year: int)

  predicate IsLeap(y: int) {
    y % 4 == 0 && (y % 100 != 0 || y % 400 == 0)
  }

  function DaysInMonth(y: int, m: int): int
    requires 1 <= m <= 12
  {
    if m == 2 then (if IsLeap(y) then 29 else 28)
    else if m == 4 || m == 6 || m == 9 || m == 11 then 30
    else 31
  }

  /** A date the date library can represent. */
  predicate ValidDate(d: Date) {
    MinYear <= d.year <= MaxYear && 1 <= d.month <= 12 && 1 <= d.day <= DaysInMonth(d.year, d.month)
  }

  /** Days in the years before `y`. */
  function DaysBeforeYear(y: int): int
    requires y >= 1
  {
    var p := y - 1;
    p * 365 + p / 4 - p / 100 + p / 400
  }

  /** Days in the months of year `y` before month `m`. */
  function DaysBeforeMonth(y: int, m: int): int
    requires 1 <= m <= 12
  {
    var base :=
      if m == 1 then 0 else if m == 2 then 31 else if m == 3 then 59 else if m == 4 then 90
      else if m == 5 then 120 else if m == 6 then 151 else if m == 7 then 181
      else if m == 8 then 212 else if m == 9 then 243 else if m == 10 then 273
      else if m == 11 then 304 else 334;
    if m > 2 && IsLeap(y) then base + 1 else base
  }

  /**
   * The proleptic ordinal: 1 January of year 1 is day 1, and the days of a valid date's year
   * are numbered on from the last day of the year before.
   */
  function ToOrdinal(d: Date): (r: int)
    requires d.year >= 1 && 1 <= d.month <= 12
    ensures d.year == 1 && d.month == 1 && d.day == 1 ==> r == 1
    ensures ValidDate(d) ==> DaysBeforeYear(d.year) < r <= DaysBeforeYear(d.year) + YearLength(d.year)
  {
    DaysBeforeYear(d.year) + DaysBeforeMonth(d.year, d.month) + d.day
  }

  /** The number of days in year `y` by the Gregorian leap rule. */
  function YearLength(y: int): int {
    if IsLeap(y) then 366 else 365
  }

  /** Stepping from y - 1 to y, floor division by 4, 100 and 400 grows by one exactly when they divide y. */
  lemma DivisionSteps(y: int)
    requires y >= 1
    ensures y / 4 - (y - 1) / 4 == if y % 4 == 0 then 1 else 0
    ensures y / 100 - (y - 1) / 100 == if y % 100 == 0 then 1 else 0
    ensures y / 400 - (y - 1) / 400 == if y % 400 == 0 then 1 else 0
  {
  }

  /** A multiple of 400 is a multiple of 100, and a multiple of 100 one of 4. */
  lemma DivisorChain(y: int)
    ensures y % 400 == 0 ==> y % 100 == 0
    ensures y % 100 == 0 ==> y % 4 == 0
  {
    if y % 400 == 0 {
      var q := y / 400;
      assert y == 400 * q;
      assert y / 100 == 4 * q;
    }
    if y % 100 == 0 {
      var q := y / 100;
      assert y == 100 * q;
      assert y / 4 == 25 * q;
    }
  }

  /** The ordinals of two consecutive New Year's days differ by the Gregorian year length. */
  lemma YearLengthByOrdinals(y: int)
    requires y >= 1
    ensures ToOrdinal(Date(y + 1, 1, 1)) - ToOrdinal(Date(y, 1, 1)) == YearLength(y)
    ensures YearLength(y) == 365 || YearLength(y) == 366
  {
    DivisionSteps(y);
    DivisorChain(y);
    assert y * 365 == (y - 1) * 365 + 365;
    assert DaysBeforeYear(y + 1) - DaysBeforeYear(y) ==
      365 + (y / 4 - (y - 1) / 4) - (y / 100 - (y - 1) / 100) + (y / 400 - (y - 1) / 400);
  }

  /** Days elapsed since 1 January of the date's own year. */
  function DayOfYear(d: Date): (r: int)
    requires ValidDate(d)
    ensures 0 <= r < YearLength(d.year)
  {
    DaysBeforeMonth(d.year, d.month) + d.day - 1
  }

  /**
   * The decimal year as written: the year plus the fraction of it elapsed, the year's length
   * taken as the ordinal of next New Year's day minus this one's. Building next New Year's
   * day fails in the last representable year.
   */
  function TransformToDecimalYear(d: Date): (r: Result<real, DateError>)
    requires ValidDate(d)
    ensures r.Failure? <==> d.year == MaxYear
  {
    var start := ToOrdinal(Date(d.year, 1, 1));
    if d.year + 1 > MaxYear then Failure(YearOutOfRange(d.year + 1))
    else
      var yearLength := ToOrdinal(Date(d.year + 1, 1, 1)) - start;
      YearLengthByOrdinals(d.year);
      Success(d.year as real + (ToOrdinal(d) - start) as real / yearLength as real)
  }

  /**
   * The decimal year with the year's length taken from the leap rule, defined for every
   * representable date: it lies in [year, year + 1) and is exactly the year on 1 January.
   */
  function DecimalYear(d: Date): (r: real)
    requires ValidDate(d)
    ensures d.year as real <= r < (d.year + 1) as real
    ensures d.month == 1 && d.day == 1 ==> r == d.year as real
  {
    var n := DayOfYear(d);
    var len := YearLength(d.year);
    assert n as real / len as real < 1.0 by {
      assert (n as real / len as real) * len as real == n as real;
    }
    d.year as real + n as real / len as real
  }

  /** Wherever the as-written computation succeeds, it agrees with DecimalYear. */
  lemma TransformAgreesWithDecimalYear(d: Date)
    requires ValidDate(d) && d.year < MaxYear
    ensures TransformToDecimalYear(d) == Success(DecimalYear(d))
  {
    var start := ToOrdinal(Date(d.year, 1, 1));
    YearLengthByOrdinals(d.year);
    assert ToOrdinal(d) - start == DayOfYear(d);
  }

  /** The as-written computation raises on every date of the last year, e.g. 1 June 9999. */
  lemma TransformFailsInLastYear()
    ensures TransformToDecimalYear(Date(9999, 6, 1)).Failure?
  {
  }

  /**
   * The decimal year of a date and time, as written: the as-written computation on its date,
   * the time of day being dropped. It fails in the last representable year; everywhere else
   * it is the decimal year.
   */
  function DecimalYearOfTime(t: DateTime): (r: Result<real, DateError>)
    requires ValidDate(t.date)
    ensures r.Failure? <==> t.date.year == MaxYear
    ensures r.Success? ==> r.value == DecimalYear(t.date)
  {
    if t.date.year < MaxYear then
      TransformAgreesWithDecimalYear(t.date);
      TransformToDecimalYear(t.date)
    else TransformToDecimalYear(t.date)
  }

  /** Two instants on the same day have the same decimal year. */
  lemma DecimalYearIgnoresTimeOfDay(s: DateTime, t: DateTime)
    requires ValidDate(s.date) && s.date == t.date
    ensures DecimalYearOfTime(s) == DecimalYearOfTime(t)
  {
  }
}
