/** The Julian date formula (scripts/astronomy_visibility.py:78-103) over exact rationals,
    against counting days. */
module Calendar {

  const MICROS_PER_DAY := 86_400_000_000

  /** A UTC instant of the proleptic Gregorian calendar, to the microsecond. */
  datatype Instant = Instant(year: int, month: int, day: int, micros: int)

  // ---------------------------------------------------------------- the calendar

  predicate Leap(year: int) {
    year % 4 == 0 && (year % 100 != 0 || year % 400 == 0)
  }

  function MonthLength(year: int, month: int): int {
    if month == 2 then (if Leap(year) then 29 else 28)
    else if month == 4 || month == 6 || month == 9 || month == 11 then 30
    else 31
  }

  function YearLength(year: int): int {
    if Leap(year) then 366 else 365
  }

  predicate Valid(t: Instant) {
    && t.year >= 1 && 1 <= t.month <= 12 && 1 <= t.day <= MonthLength(t.year, t.month)
    && 0 <= t.micros < MICROS_PER_DAY
  }

  /** The same time on the next calendar day. */
  function NextDay(t: Instant): Instant {
    if t.day < MonthLength(t.year, t.month) then t.(day := t.day + 1)
    else if t.month < 12 then t.(month := t.month + 1, day := 1)
    else t.(year := t.year + 1, month := 1, day := 1)
  }

  /** Days in the years before this one, counted from year 1. */
  function DaysBeforeYear(year: int): int
    decreases year
  {
    if year <= 1 then 0 else DaysBeforeYear(year - 1) + YearLength(year - 1)
  }

  /** Days in the months of this year before this one. */
  function DaysBeforeMonth(year: int, month: int): int
    decreases month
  {
    if month <= 1 then 0 else DaysBeforeMonth(year, month - 1) + MonthLength(year, month - 1)
  }

  /** Number of the day, 1 January of year 1 being day 1. */
  function DayNumber(t: Instant): int {
    DaysBeforeYear(t.year) + DaysBeforeMonth(t.year, t.month) + t.day
  }

  /** Microseconds since the day before 1 January of year 1. */
  function Elapsed(t: Instant): int {
    DayNumber(t) * MICROS_PER_DAY + t.micros
  }

  // ---------------------------------------------------------------- the formula

  /** January and February count as months 13 and 14 of the year before. */
  function ShiftedYear(t: Instant): int { if t.month <= 2 then t.year - 1 else t.year }
  function ShiftedMonth(t: Instant): int { if t.month <= 2 then t.month + 12 else t.month }

  /** The integer part of the sum; `floor(365.25 * y)` is `1461 * y / 4` and
      `floor(30.6001 * m)` is `306001 * m / 10000`. */
  function WholeDays(t: Instant): int {
    var a := ShiftedYear(t) / 100;
    var b := 2 - a + a / 4;
    1461 * (ShiftedYear(t) + 4716) / 4 + 306001 * (ShiftedMonth(t) + 1) / 10000 + t.day + b
  }

  function JulianDate(t: Instant): real {
    WholeDays(t) as real + t.micros as real / MICROS_PER_DAY as real - 1524.5
  }

  // ---------------------------------------------------------------- proofs

  lemma DivStep(y: int, d: int)
    requires d == 4 || d == 100 || d == 400
    ensures y / d == (y - 1) / d + if y % d == 0 then 1 else 0
  {
  }

  lemma FourHundreds(y: int)
    requires y % 400 == 0
    ensures y % 100 == 0
  {
    var k := y / 400;
    assert y == 100 * (4 * k);
  }

  lemma Hundreds(y: int)
    requires y % 100 == 0
    ensures y % 4 == 0
  {
    var k := y / 100;
    assert y == 4 * (25 * k);
  }

  lemma LeapCount(year: int)
    ensures year / 4 - year / 100 + year / 400
         == (year - 1) / 4 - (year - 1) / 100 + (year - 1) / 400 + if Leap(year) then 1 else 0
  {
    DivStep(year, 4);
    DivStep(year, 100);
    DivStep(year, 400);
    if year % 400 == 0 {
      FourHundreds(year);
    }
    if year % 100 == 0 {
      Hundreds(year);
    }
  }

  lemma {:induction false} YearsClosed(year: int)
    requires year >= 1
    ensures DaysBeforeYear(year) == 365 * (year - 1) + (year - 1) / 4 - (year - 1) / 100 + (year - 1) / 400
    decreases year
  {
    if year > 1 {
      YearsClosed(year - 1);
      LeapCount(year - 1);
      hide Leap;
    }
  }

  /** Days before each month, without the leap day. */
  function MonthTable(month: int): int {
    match month
    case 1 => 0 case 2 => 31 case 3 => 59 case 4 => 90 case 5 => 120 case 6 => 151
    case 7 => 181 case 8 => 212 case 9 => 243 case 10 => 273 case 11 => 304 case _ => 334
  }

  lemma {:induction false} MonthsClosed(year: int, month: int)
    requires 1 <= month <= 12
    ensures DaysBeforeMonth(year, month) == MonthTable(month) + if month > 2 && Leap(year) then 1 else 0
    decreases month
  {
    if month > 1 {
      MonthsClosed(year, month - 1);
    }
  }

  lemma MonthTerm(month: int)
    requires 1 <= month <= 12
    ensures month > 2 ==> 306001 * (month + 1) / 10000 == MonthTable(month) + 63
    ensures month <= 2 ==> 306001 * (month + 13) / 10000 == MonthTable(month) + 428
  {
  }

  lemma CenturyTerm(y: int)
    requires y >= 0
    ensures y / 100 / 4 == y / 400
  {
  }

  /** The formula counts days exactly: its whole part is the day number, up to a constant. */
  lemma FormulaCountsDays(t: Instant)
    requires Valid(t)
    ensures WholeDays(t) == DayNumber(t) + 1722949
  {
    YearsClosed(t.year);
    MonthsClosed(t.year, t.month);
    MonthTerm(t.month);
    CenturyTerm(ShiftedYear(t));
    LeapCount(t.year);
    hide Leap, DaysBeforeYear, DaysBeforeMonth, MonthTable;
  }

  lemma NextDayCounts(t: Instant)
    requires Valid(t)
    ensures Valid(NextDay(t)) && DayNumber(NextDay(t)) == DayNumber(t) + 1
  {
    if t.month == 12 && t.day == 31 {
      MonthsClosed(t.year, 12);
    }
  }

  /** The next calendar day is exactly one more, across month ends, the shift of January and
      February into the year before, and the 4, 100 and 400 year rules. */
  lemma NextDayAddsOne(t: Instant)
    requires Valid(t)
    ensures Valid(NextDay(t)) && JulianDate(NextDay(t)) == JulianDate(t) + 1.0
  {
    hide WholeDays, DayNumber, NextDay;
    NextDayCounts(t);
    FormulaCountsDays(t);
    FormulaCountsDays(NextDay(t));
    assert NextDay(t).micros == t.micros by {
      NextDayKeepsTime(t);
    }
  }

  lemma NextDayKeepsTime(t: Instant)
    ensures NextDay(t).micros == t.micros
  {
  }

  /** Differences of Julian dates are elapsed time, in days. */
  lemma DifferenceIsElapsedTime(s: Instant, t: Instant)
    requires Valid(s) && Valid(t)
    ensures (JulianDate(t) - JulianDate(s)) * MICROS_PER_DAY as real == (Elapsed(t) - Elapsed(s)) as real
  {
    hide WholeDays, DayNumber;
    FormulaCountsDays(s);
    FormulaCountsDays(t);
    Scaled(DayNumber(s) + 1722949, s.micros, -1524.5);
    Scaled(DayNumber(t) + 1722949, t.micros, -1524.5);
  }

  lemma Scaled(days: int, micros: int, c: real)
    ensures (days as real + micros as real / MICROS_PER_DAY as real + c) * MICROS_PER_DAY as real
         == (days * MICROS_PER_DAY + micros) as real + c * MICROS_PER_DAY as real
  {
  }

  predicate Earlier(s: Instant, t: Instant) {
    || s.year < t.year
    || (s.year == t.year && s.month < t.month)
    || (s.year == t.year && s.month == t.month && s.day < t.day)
    || (s.year == t.year && s.month == t.month && s.day == t.day && s.micros < t.micros)
  }

  lemma {:induction false} YearsGrow(a: int, b: int)
    requires 1 <= a <= b
    ensures DaysBeforeYear(b) >= DaysBeforeYear(a) + if a < b then YearLength(a) else 0
    decreases b - a
  {
    if a < b {
      YearsGrow(a, b - 1);
    }
  }

  lemma {:induction false} MonthsGrow(year: int, a: int, b: int)
    requires 1 <= a <= b <= 13
    ensures DaysBeforeMonth(year, b) >= DaysBeforeMonth(year, a) + if a < b then MonthLength(year, a) else 0
    decreases b - a
  {
    if a < b {
      MonthsGrow(year, a, b - 1);
    }
  }

  lemma EarlierIsLess(s: Instant, t: Instant)
    requires Valid(s) && Valid(t) && Earlier(s, t)
    ensures Elapsed(s) < Elapsed(t)
  {
    YearsGrow(if s.year <= t.year then s.year else 1, if s.year <= t.year then t.year else 1);
    MonthsGrow(s.year, s.month, 13);
    MonthsClosed(s.year, 12);
    MonthsClosed(t.year, t.month);
    if s.year == t.year {
      MonthsGrow(s.year, s.month, t.month);
    }
  }

  const NOON := MICROS_PER_DAY / 2

  /** The epoch: noon on 1 January 2000 is day 2451545. With `DifferenceIsElapsedTime`, this
      fixes the Julian date of every instant. */
  lemma EpochIsStandard()
    ensures JulianDate(Instant(2000, 1, 1, NOON)) == 2451545.0
  {
  }

  /** The Julian date of an instant: days elapsed since the epoch, and its number. */
  lemma CountsFromEpoch(t: Instant)
    requires Valid(t)
    ensures JulianDate(t)
         == 2451545.0 + (Elapsed(t) - Elapsed(Instant(2000, 1, 1, NOON))) as real / MICROS_PER_DAY as real
  {
    hide JulianDate, Elapsed;
    EpochIsStandard();
    DifferenceIsElapsedTime(Instant(2000, 1, 1, NOON), t);
  }

  /** The Julian date is strictly increasing in date and time, and so tells instants apart. */
  lemma StrictlyIncreasing(s: Instant, t: Instant)
    requires Valid(s) && Valid(t)
    ensures JulianDate(s) < JulianDate(t) <==> Earlier(s, t)
    ensures JulianDate(s) == JulianDate(t) <==> s == t
  {
    hide JulianDate, Elapsed;
    DifferenceIsElapsedTime(s, t);
    if Earlier(s, t) {
      EarlierIsLess(s, t);
    } else if Earlier(t, s) {
      EarlierIsLess(t, s);
    }
  }
}
