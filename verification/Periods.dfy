/** Month and year arithmetic of the planner, with its 32-bit bounds, and the
    last named weekday of a month. */
module Periods {
  import opened Results
  import opened Gregorian

  datatype Reason =
    | MonthUnderflows
    | MonthOverflows
    | YearOverflows
    | OutsideDates
    | DateUnderflows
    | DateOverflows
    | GapWithoutEnd

  /** `(year, month)` moved on by `offset` months. */
  function AddMonths(year: int, month: nat, offset: nat): Result<(int, nat), Reason> {
    if month == 0 then Err(MonthUnderflows)
    else
      var total := month - 1 + offset;
      if total > U32_MAX then Err(MonthOverflows)
      else if year + total / 12 > I32_MAX then Err(YearOverflows)
      else Ok((year + total / 12, total % 12 + 1))
  }

  function AddYears(year: int, offset: nat): Result<int, Reason> {
    if offset > I32_MAX then Err(YearOverflows)
    else if year + offset > I32_MAX then Err(YearOverflows)
    else Ok(year + offset)
  }

  /** Day number of the first of a month, when the date is representable. */
  function FirstOfMonth(year: int, month: nat): Result<int, Reason>
    requires 1 <= month <= 12
  {
    if MIN_YEAR <= year <= MAX_YEAR then Ok(YearStart(year) + DaysBefore(year, month - 1))
    else Err(OutsideDates)
  }

  /** The last `weekday` of a month, by way of the first of the next month. */
  function LastWeekdayOfMonth(year: int, month: nat, weekday: int): Result<int, Reason>
    requires 0 <= weekday < 7
  {
    var next :- AddMonths(year, month, 1);
    var firstOfNext :- FirstOfMonth(next.0, next.1);
    BackFrom(firstOfNext, weekday)
  }

  /** Steps back from the eve of `firstOfNext` to the wanted weekday. */
  function BackFrom(firstOfNext: int, weekday: int): Result<int, Reason>
    requires 0 <= weekday < 7
  {
    if firstOfNext - 1 < MIN_DAY then Err(DateUnderflows)
    else
      var last := firstOfNext - 1;
      var back := (Weekday(last) + 7 - weekday) % 7;
      if last - back < MIN_DAY then Err(DateUnderflows) else Ok(last - back)
  }

  /** Position of `(year, month)` on the month line. */
  function Line(year: int, month: nat): int {
    12 * year + month - 1
  }

  /** `day` is the last `weekday` of the month at `line`. */
  ghost predicate IsLastWeekday(day: int, line: int, weekday: int) {
    && InMonth(day, line)
    && Weekday(day) == weekday
    && forall other :: InMonth(other, line) && Weekday(other) == weekday ==> other <= day
  }

  /** Month arithmetic moves exactly `offset` along the line, and fails only
      where a month, the 32-bit month count or the 32-bit year would not fit. */
  lemma AddMonthsMovesAlongTheLine(year: int, month: nat, offset: nat)
    ensures AddMonths(year, month, offset).Ok? <==>
            month >= 1 && month - 1 + offset <= U32_MAX && year + (month - 1 + offset) / 12 <= I32_MAX
    ensures AddMonths(year, month, offset).Ok? ==>
              var (y, m) := AddMonths(year, month, offset).value;
              1 <= m <= 12 && Line(y, m) == Line(year, month) + offset
  {
  }

  /** Two moves are one move of the sum, wherever neither form overflows. */
  lemma AddMonthsComposes(year: int, month: nat, a: nat, b: nat)
    requires AddMonths(year, month, a).Ok? && AddMonths(year, month, a + b).Ok?
    ensures var (y, m) := AddMonths(year, month, a).value;
            AddMonths(y, m, b) == AddMonths(year, month, a + b)
  {
    var (y, m) := AddMonths(year, month, a).value;
    AddMonthsMovesAlongTheLine(year, month, a);
    assert (m - 1 + b) / 12 + y == year + (month - 1 + a + b) / 12;
  }

  lemma MonthStartOnTheLine(year: int, month: nat)
    requires 1 <= month <= 12
    ensures MonthStart(Line(year, month)) == YearStart(year) + DaysBefore(year, month - 1)
  {
    assert Line(year, month) / 12 == year && Line(year, month) % 12 == month - 1;
  }

  /** The last `weekday` of the month at `line`, counted back from its end. */
  function LastOnLine(line: int, weekday: int): int
    requires 0 <= weekday < 7
  {
    var last := MonthStart(line + 1) - 1;
    last - (Weekday(last) + 7 - weekday) % 7
  }

  /** For every month, the date counted back to lies in that month, falls on
      that weekday, and no later such date does. */
  lemma LastOnLineIsLast(line: int, weekday: int)
    requires 0 <= weekday < 7
    ensures IsLastWeekday(LastOnLine(line, weekday), line, weekday)
    ensures LastOnLine(line, weekday) >= MonthStart(line) + 21
  {
    hide MonthStart, YearStart, DaysBefore, Weekday;
    MonthSteps(line);
    var last := MonthStart(line + 1) - 1;
    WeekdayStepsBack(last, weekday);
    forall other | InMonth(other, line) && Weekday(other) == weekday
      ensures other <= LastOnLine(line, weekday)
    {
      NoneAfter(last, weekday, other);
    }
  }

  lemma NextMonth(year: int, month: nat)
    requires 1 <= month <= 12 && year < I32_MAX
    ensures AddMonths(year, month, 1) == Ok(if month == 12 then (year + 1, 1) else (year, month + 1))
  {
  }

  lemma NextMonthStarts(year: int, month: nat)
    requires 1 <= month <= 12
    requires MIN_YEAR <= year && Line(year, month) < Line(MAX_YEAR, 12)
    ensures AddMonths(year, month, 1).Ok?
    ensures var (y, m) := AddMonths(year, month, 1).value;
            1 <= m <= 12 && FirstOfMonth(y, m) == Ok(MonthStart(Line(year, month) + 1))
  {
    hide MonthStart, YearStart, DaysBefore;
    NextMonth(year, month);
    hide AddMonths;
    var (y, m) := AddMonths(year, month, 1).value;
    MonthStartOnTheLine(y, m);
  }

  lemma MonthsAreRepresentable(line: int)
    requires Line(MIN_YEAR, 1) <= line
    ensures MIN_DAY <= MonthStart(line)
  {
    MonthStartOnTheLine(MIN_YEAR, 1);
    MonthsApart(Line(MIN_YEAR, 1), line);
  }

  /** Every month whose successor is representable has its date found. */
  lemma LastWeekdayFound(year: int, month: nat, weekday: int)
    requires 1 <= month <= 12 && 0 <= weekday < 7
    requires MIN_YEAR <= year && Line(year, month) < Line(MAX_YEAR, 12)
    ensures LastWeekdayOfMonth(year, month, weekday) == Ok(LastOnLine(Line(year, month), weekday))
  {
    hide MonthStart, YearStart, DaysBefore, Weekday, LastOnLine, BackFrom;
    NextMonthStarts(year, month);
    BackFromFinds(Line(year, month), weekday);
  }

  lemma BackFromFinds(line: int, weekday: int)
    requires 0 <= weekday < 7 && Line(MIN_YEAR, 1) <= line
    ensures BackFrom(MonthStart(line + 1), weekday) == Ok(LastOnLine(line, weekday))
  {
    MonthsAreRepresentable(line);
    assert LastOnLine(line, weekday) >= MonthStart(line) by { LastOnLineIsLast(line, weekday); }
  }

  lemma WeekdayStepsBack(last: int, weekday: int)
    requires 0 <= weekday < 7
    ensures Weekday(last - (Weekday(last) + 7 - weekday) % 7) == weekday
  {
  }

  lemma NoneAfter(last: int, weekday: int, other: int)
    requires 0 <= weekday < 7 && other <= last && Weekday(other) == weekday
    ensures other <= last - (Weekday(last) + 7 - weekday) % 7
  {
  }

  /** Past the last representable month the search fails. */
  lemma LastWeekdayOutOfRange(year: int, month: nat, weekday: int)
    requires 1 <= month <= 12 && 0 <= weekday < 7
    requires year <= I32_MAX - 1 && Line(MAX_YEAR, 12) <= Line(year, month)
    ensures LastWeekdayOfMonth(year, month, weekday) == Err(OutsideDates)
  {
    AddMonthsMovesAlongTheLine(year, month, 1);
  }
}
