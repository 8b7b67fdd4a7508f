/** Proleptic Gregorian dates as day numbers, day 0 being 1970-01-01.
    Years are leap years exactly as Appendix C of RFC 3339 has it. Months are
    laid out on one line, `12 * year + (month - 1)`, the line on which the
    planner's month arithmetic moves. */
module Gregorian {

  /** The first and last year a chrono date can carry. */
  const MIN_YEAR: int := -262_143
  const MAX_YEAR: int := 262_142

  const MIN_DAY: int := YearStart(MIN_YEAR)
  const MAX_DAY: int := YearStart(MAX_YEAR + 1) - 1

  /** Range of the 32-bit integers the source counts years in. */
  const I32_MAX: int := 0x7FFF_FFFF
  const U32_MAX: int := 0xFFFF_FFFF

  predicate IsLeap(year: int) {
    year % 4 == 0 && (year % 100 != 0 || year % 400 == 0)
  }

  function LeapDaysThrough(year: int): int {
    year / 4 - year / 100 + year / 400
  }

  /** Day number of 1 January. */
  function YearStart(year: int): int {
    365 * (year - 1970) + LeapDaysThrough(year - 1) - LeapDaysThrough(1969)
  }

  function YearLength(year: int): int {
    if IsLeap(year) then 366 else 365
  }

  /** Days of the year before month `m0`, counting months from zero. */
  function DaysBefore(year: int, m0: int): int
    requires 0 <= m0 <= 12
  {
    var leap := if IsLeap(year) then 1 else 0;
    match m0
    case 0 => 0
    case 1 => 31
    case 2 => 59 + leap
    case 3 => 90 + leap
    case 4 => 120 + leap
    case 5 => 151 + leap
    case 6 => 181 + leap
    case 7 => 212 + leap
    case 8 => 243 + leap
    case 9 => 273 + leap
    case 10 => 304 + leap
    case 11 => 334 + leap
    case 12 => 365 + leap
  }

  /** Day number of the first day of the month at `line`. */
  function MonthStart(line: int): int {
    YearStart(line / 12) + DaysBefore(line / 12, line % 12)
  }

  /** The year a day belongs to: a proportional guess, corrected by one. */
  function YearOf(day: int): (year: int)
    ensures YearStart(year) <= day < YearStart(year + 1)
  {
    var sinceYearOne := day - YearStart(1);
    var guess := 400 * sinceYearOne / 146_097 + 1;
    if day < YearStart(guess + 1) then guess else guess + 1
  }

  /** The month of the year a day belongs to, from zero. */
  function MonthZeroOf(day: int): (m0: int)
    ensures 0 <= m0 < 12
    ensures var year := YearOf(day);
            YearStart(year) + DaysBefore(year, m0) <= day < YearStart(year) + DaysBefore(year, m0 + 1)
  {
    var year := YearOf(day);
    var inYear := day - YearStart(year);
    YearSteps(year);
    if inYear < DaysBefore(year, 1) then 0
    else if inYear < DaysBefore(year, 2) then 1
    else if inYear < DaysBefore(year, 3) then 2
    else if inYear < DaysBefore(year, 4) then 3
    else if inYear < DaysBefore(year, 5) then 4
    else if inYear < DaysBefore(year, 6) then 5
    else if inYear < DaysBefore(year, 7) then 6
    else if inYear < DaysBefore(year, 8) then 7
    else if inYear < DaysBefore(year, 9) then 8
    else if inYear < DaysBefore(year, 10) then 9
    else if inYear < DaysBefore(year, 11) then 10
    else 11
  }

  ghost predicate InMonth(day: int, line: int) {
    MonthStart(line) <= day < MonthStart(line + 1)
  }

  /** Position of a day's month on the line. */
  function MonthLineOf(day: int): (line: int)
    ensures InMonth(day, line)
  {
    var line := 12 * YearOf(day) + MonthZeroOf(day);
    assert line / 12 == YearOf(day) && line % 12 == MonthZeroOf(day);
    MonthSteps(line);
    line
  }

  /** Monday is 0; 1970-01-01 was a Thursday. */
  function Weekday(day: int): (index: int)
    ensures 0 <= index < 7
  {
    (day + 3) % 7
  }

  lemma Carries(year: int)
    ensures year / 4 - (year - 1) / 4 == if year % 4 == 0 then 1 else 0
    ensures year / 100 - (year - 1) / 100 == if year % 100 == 0 then 1 else 0
    ensures year / 400 - (year - 1) / 400 == if year % 400 == 0 then 1 else 0
  {
  }

  lemma Multiples(year: int)
    ensures year % 100 == 0 ==> year % 4 == 0
    ensures year % 400 == 0 ==> year % 100 == 0
  {
    if year % 100 == 0 {
      var centuries := year / 100;
      assert year == 4 * (25 * centuries);
    }
    if year % 400 == 0 {
      var cycles := year / 400;
      assert year == 100 * (4 * cycles);
    }
  }

  lemma LeapStep(year: int)
    ensures LeapDaysThrough(year) == LeapDaysThrough(year - 1) + if IsLeap(year) then 1 else 0
  {
    Carries(year);
    Multiples(year);
  }

  lemma YearSteps(year: int)
    ensures YearStart(year + 1) == YearStart(year) + YearLength(year)
  {
    LeapStep(year);
    hide LeapDaysThrough, IsLeap;
  }

  /** Consecutive months tile the line without overlap: 28 to 31 days each. */
  lemma MonthSteps(line: int)
    ensures 28 <= MonthStart(line + 1) - MonthStart(line) <= 31
    ensures MonthStart(line + 1) == YearStart(line / 12) + DaysBefore(line / 12, line % 12 + 1)
  {
    if line % 12 == 11 {
      assert (line + 1) / 12 == line / 12 + 1 && (line + 1) % 12 == 0;
      YearSteps(line / 12);
    } else {
      assert (line + 1) / 12 == line / 12 && (line + 1) % 12 == line % 12 + 1;
    }
  }

  /** `MonthStart` is strictly increasing, by at least four weeks a month. */
  lemma {:induction false} MonthsApart(a: int, b: int)
    requires a <= b
    ensures MonthStart(a) + 28 * (b - a) <= MonthStart(b)
    decreases b - a
  {
    hide MonthStart;
    if a < b {
      MonthSteps(b - 1);
      MonthsApart(a, b - 1);
    }
  }

  lemma {:induction false} YearsApart(a: int, b: int)
    requires a <= b
    ensures YearStart(a) + 365 * (b - a) <= YearStart(b)
    decreases b - a
  {
    hide YearStart;
    if a < b {
      YearSteps(b - 1);
      YearsApart(a, b - 1);
    }
  }

  /** A day falls in one month only, whichever way round the two are named. */
  lemma MonthNotLater(day: int, a: int, b: int)
    requires InMonth(day, a) && InMonth(day, b)
    ensures a <= b
  {
    if b < a {
      MonthsApart(b + 1, a);
    }
  }

  /** `MonthLineOf` is the only month a day can fall in. */
  lemma MonthLineUnique(day: int, line: int)
    requires InMonth(day, line)
    ensures line == MonthLineOf(day)
  {
    var other := MonthLineOf(day);
    MonthNotLater(day, line, other);
    MonthNotLater(day, other, line);
  }

  // ---- the calendar, from one known date

  /** Day numbers count from 1970-01-01, and every fourth year is a leap year,
      of the centuries only every fourth. */
  lemma YearLengths(year: int)
    ensures YearStart(1970) == 0
    ensures YearStart(year + 1) - YearStart(year) ==
            if year % 400 == 0 then 366 else if year % 100 == 0 then 365 else if year % 4 == 0 then 366 else 365
  {
    YearSteps(year);
    Multiples(year);
  }

  lemma MonthOnTheLine(year: int, m0: nat)
    requires m0 < 12
    ensures (12 * year + m0) / 12 == year && (12 * year + m0) % 12 == m0
  {
  }

  /** How long each month is, January being 0. */
  lemma MonthLengths(year: int, m0: nat)
    requires m0 < 12
    ensures MonthStart(12 * year) == YearStart(year)
    ensures MonthStart(12 * year + m0 + 1) - MonthStart(12 * year + m0) ==
            if m0 == 1 then (if YearStart(year + 1) - YearStart(year) == 366 then 29 else 28)
            else if m0 in {3, 5, 8, 10} then 30
            else 31
  {
    hide YearStart;
    YearSteps(year);
    assert 12 * year / 12 == year && 12 * year % 12 == 0;
    MonthOnTheLine(year, m0);
    MonthSteps(12 * year + m0);
  }

  /** 2000-01-01 was a Saturday, and weekdays follow one another from there. */
  lemma WeekdaysFollow(day: int)
    ensures Weekday(YearStart(2000)) == 5
    ensures Weekday(day + 1) == (Weekday(day) + 1) % 7
    ensures Weekday(day) == (day - YearStart(2000) + 5) % 7
  {
    assert YearStart(2000) == 10_957;
  }

  lemma YearUnique(day: int, year: int)
    requires YearStart(year) <= day < YearStart(year + 1)
    ensures year == YearOf(day)
  {
    var other := YearOf(day);
    if year < other {
      YearsApart(year + 1, other);
    } else if other < year {
      YearsApart(other + 1, year);
    }
  }
}
