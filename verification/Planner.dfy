/** The rolling planner's projection of one rule: the bounded scans of
    `scan_days` and `scan_periods`, and why their budgets are enough. */
module Planner {
  import opened Results
  import opened Gregorian
  import opened Periods
  import opened Zones
  import opened ExpiryRules
  import opened Schedules
  import opened Timelines
  import Ordering

  const DAY_SCAN_SLACK: nat := 32
  const PERIOD_SCAN_SLACK: nat := 2

  /** The rule that could not be projected, and why. */
  datatype ProjectionError = ProjectionError(rule: string, reason: Reason)

  /** What the planner is given: a zone that behaves, a time of day, and an
      instant whose local date is representable. */
  ghost predicate Plannable(s: Schedule, t: int) {
    && s.zone.WellFormed()
    && 0 <= s.time < DAY_SECONDS
    && MIN_DAY <= s.zone.LocalDate(t) <= MAX_DAY
  }

  function EligibleDate(calendar: CalendarVersion, day: int): Option<int> {
    if Weekday(day) >= SATURDAY then None else Some(day)
  }

  /** The date predicate a daily or weekly rule scans with. */
  predicate Accepts(kind: RuleKind, day: int) {
    match kind
    case Weekly(days) => Weekday(day) in days
    case _ => true
  }

  /** Resolves an expiration date to its instant. */
  function InstantFor(s: Schedule, day: int): Result<int, Reason> {
    match s.zone.Resolve(DAY_SECONDS * day + s.time)
    case Some(t) => Ok(t)
    case None => Err(GapWithoutEnd)
  }

  /** The date of a monthly or yearly rule in the period `index` periods after
      the one `start` lies in. */
  function PeriodDate(kind: RuleKind, start: int, index: nat): Result<int, Reason>
    requires kind.Monthly? || (kind.Yearly? && 1 <= kind.month <= 12)
  {
    match kind
    case Monthly(weekday) =>
      var at :- AddMonths(YearOf(start), MonthZeroOf(start) + 1, index);
      LastWeekdayOfMonth(at.0, at.1, weekday)
    case Yearly(weekday, month) =>
      var year :- AddYears(YearOf(start), index);
      LastWeekdayOfMonth(year, month, weekday)
  }

  // ----- What a rule expires on -----

  /** The dates a rule expires on, said without reference to any scan. */
  ghost predicate RuleDate(kind: RuleKind, day: int) {
    match kind
    case Daily => Weekday(day) < SATURDAY
    case Weekly(days) => Weekday(day) in days && Weekday(day) < SATURDAY
    case Monthly(weekday) => exists line :: IsLastWeekday(day, line, weekday)
    case Yearly(weekday, month) => exists line :: IsLastWeekday(day, line, weekday) && line % 12 == month - 1
  }

  /** The first instant at which the local clock reaches the expiration time on
      `day`; see `InstantIsFirstReach`. */
  ghost function InstantOf(s: Schedule, day: int): int {
    match InstantFor(s, day)
    case Ok(t) => t
    case Err(_) => 0
  }

  /** A rule's dates and their instants, seen from `t`. */
  ghost function TimelineOf(s: Schedule, kind: RuleKind, t: int): Timeline {
    Timeline(day => RuleDate(kind, day), day => InstantOf(s, day), t, s.zone.LocalDate(t))
  }

  /** `found` is the rule's `count` earliest expirations strictly after `t`. */
  ghost predicate IsProjection(s: Schedule, rule: Rule, t: int, found: set<int>) {
    TimelineOf(s, rule.kind, t).IsFirst(rule.count, found)
  }

  /** One past the last date the scans can deliver. A month is searched from the
      first of the next, so the last representable month is out of reach. */
  ghost function Limit(kind: RuleKind): int {
    if kind.Monthly? || kind.Yearly? then MonthStart(Line(MAX_YEAR, 12)) else MAX_DAY + 1
  }

  /** Enough of the rule's dates lie between today and the limit. */
  ghost predicate Reachable(s: Schedule, rule: Rule, t: int) {
    |TimelineOf(s, rule.kind, t).Live(s.zone.LocalDate(t), Limit(rule.kind))| >= rule.count
  }

  // ----- Instants against dates -----

  /** An expiration instant is the first at which the local clock reaches the
      expiration time: the earlier instant of a fold, the end of a gap. */
  lemma InstantIsFirstReach(s: Schedule, day: int)
    requires s.zone.WellFormed()
    ensures InstantFor(s, day) == Ok(InstantOf(s, day))
    ensures s.zone.FirstReach(DAY_SECONDS * day + s.time, InstantOf(s, day))
  {
    s.zone.ResolveIsFirstReach(DAY_SECONDS * day + s.time);
  }

  lemma InstantsIncrease(s: Schedule, a: int, b: int)
    requires s.zone.WellFormed() && a < b
    ensures InstantOf(s, a) < InstantOf(s, b)
  {
    s.zone.ResolveIncreasing(DAY_SECONDS * a + s.time, DAY_SECONDS * b + s.time);
  }

  /** Dates before today have expired by `t`; dates from the day after tomorrow
      on have not. Between the two, a fold can put even tomorrow in the past. */
  lemma TodaySplitsDates(s: Schedule, t: int, day: int)
    requires Plannable(s, t)
    ensures day < s.zone.LocalDate(t) ==> InstantOf(s, day) <= t
    ensures s.zone.LocalDate(t) + 2 <= day ==> t < InstantOf(s, day)
  {
    s.zone.ResolveAgainstToday(t, DAY_SECONDS * day + s.time);
  }

  lemma TimelineIsSound(s: Schedule, kind: RuleKind, t: int)
    requires Plannable(s, t)
    ensures TimelineOf(s, kind, t).Sound()
  {
    var line := TimelineOf(s, kind, t);
    forall a, b ensures line.InOrder(a, b) { if a < b { InstantsIncrease(s, a, b); } }
    forall day ensures line.OnItsSide(day) { TodaySplitsDates(s, t, day); }
  }

  // ----- Rule dates on the calendar -----

  /** The weekday of a date, counted from Saturday 2000-01-01. */
  ghost function DayOfWeek(day: int): Day {
    (day - YearStart(2000) + 5) % 7
  }

  /** The dates of every kind of rule, told from that one Saturday: a daily rule
      has all days but Saturdays and Sundays, a weekly rule the named ones, and a
      monthly or yearly rule the named day that has no other a week later in the
      same month, yearly in the named month alone. */
  lemma DatesOnTheCalendar(kind: RuleKind, day: int)
    ensures kind.Daily? ==> (RuleDate(kind, day) <==> (day - YearStart(2000)) % 7 !in {0, 1})
    ensures kind.Weekly? ==>
              (RuleDate(kind, day) <==> DayOfWeek(day) in kind.weekdays && (day - YearStart(2000)) % 7 !in {0, 1})
    ensures kind.Monthly? ==>
              (RuleDate(kind, day) <==> DayOfWeek(day) == kind.weekday && MonthLineOf(day + 7) != MonthLineOf(day))
    ensures kind.Yearly? && 1 <= kind.month <= 12 ==>
              (RuleDate(kind, day) <==>
                 && DayOfWeek(day) == kind.weekday && MonthLineOf(day + 7) != MonthLineOf(day)
                 && MonthStart(12 * YearOf(day) + kind.month - 1) <= day
                 && day < MonthStart(12 * YearOf(day) + kind.month))
  {
    hide MonthStart, YearStart, YearOf, MonthLineOf, Weekday;
    WeekdaysFollow(day);
    match kind
    case Monthly(weekday) => LastOfItsMonth(day, weekday);
    case Yearly(weekday, month) =>
      LastOfItsMonth(day, weekday);
      if 1 <= month <= 12 { MonthOfYear(day, month); }
    case _ =>
  }

  /** A date is the last of its weekday in a month exactly if a week later is
      another month. */
  lemma LastOfItsMonth(day: int, weekday: Day)
    ensures (exists line :: IsLastWeekday(day, line, weekday)) <==>
              Weekday(day) == weekday && MonthLineOf(day + 7) != MonthLineOf(day)
    ensures forall line :: IsLastWeekday(day, line, weekday) ==> line == MonthLineOf(day)
  {
    hide InMonth, MonthLineOf, Weekday;
    forall line | IsLastWeekday(day, line, weekday) ensures line == MonthLineOf(day) { MonthLineUnique(day, line); }
    var line := MonthLineOf(day);
    WeekLater(day, line);
    if Weekday(day) == weekday && !InMonth(day + 7, line) {
      forall other | InMonth(other, line) && Weekday(other) == weekday ensures other <= day {
        if day < other { AnotherIsAWeekLater(day, other, line); }
      }
      assert IsLastWeekday(day, line, weekday);
    }
  }

  lemma WeekLater(day: int, line: int)
    ensures Weekday(day + 7) == Weekday(day)
    ensures InMonth(day + 7, line) <==> MonthLineOf(day + 7) == line
  {
    hide MonthStart, MonthLineOf;
    if InMonth(day + 7, line) { MonthLineUnique(day + 7, line); }
    assert InMonth(day + 7, MonthLineOf(day + 7));
  }

  lemma AnotherIsAWeekLater(day: int, other: int, line: int)
    requires InMonth(day, line) && InMonth(other, line) && Weekday(other) == Weekday(day) && day < other
    ensures InMonth(day + 7, line)
  {
    hide MonthStart;
    assert day + 7 <= other;
  }

  lemma MonthOfYear(day: int, month: nat)
    requires 1 <= month <= 12
    ensures MonthLineOf(day) % 12 == month - 1 <==>
              MonthStart(12 * YearOf(day) + month - 1) <= day < MonthStart(12 * YearOf(day) + month)
  {
    hide MonthStart, YearOf, MonthLineOf;
    var line := 12 * YearOf(day) + month - 1;
    MonthWithinYear(day);
    assert line % 12 == month - 1 && line / 12 == YearOf(day);
    assert InMonth(day, MonthLineOf(day));
    if InMonth(day, line) { MonthLineUnique(day, line); }
  }

  lemma MonthWithinYear(day: int)
    ensures MonthLineOf(day) / 12 == YearOf(day)
  {
    hide YearOf, MonthZeroOf, MonthStart, DaysBefore, YearStart;
    assert MonthLineOf(day) == 12 * YearOf(day) + MonthZeroOf(day);
  }

  // ----- Daily and weekly rules -----

  ghost predicate ValidDayKind(kind: RuleKind) {
    kind.Daily? || (kind.Weekly? && DaysInOrder(kind.weekdays) && Trading(kind.weekdays))
  }

  /** `8n + 32` days from today always hold `n` expirations of a daily or weekly
      rule that are still ahead, whatever the zone does in between. */
  lemma DayBudgetSuffices(s: Schedule, kind: RuleKind, t: int, n: nat)
    requires Plannable(s, t) && ValidDayKind(kind)
    ensures var today := s.zone.LocalDate(t);
            |TimelineOf(s, kind, t).Live(today, today + 8 * n + DAY_SCAN_SLACK)| >= n
  {
    TimelineIsSound(s, kind, t);
    var line := TimelineOf(s, kind, t);
    var weekday: Day := if kind.Daily? then 0 else kind.weekdays[0];
    assert kind.Weekly? ==> kind.weekdays[0] in kind.weekdays;
    forall day | (day + 3) % 7 == weekday ensures line.dates(day) {
      assert RuleDate(kind, day);
    }
    BudgetOfOneWeekday(line, weekday, n);
  }

  lemma BudgetOfOneWeekday(line: Timeline, weekday: int, n: nat)
    requires line.Sound() && 0 <= weekday < 7
    requires forall day :: (day + 3) % 7 == weekday ==> line.dates(day)
    ensures |line.Live(line.today, line.today + 8 * n + DAY_SCAN_SLACK)| >= n
  {
    var stop := line.today + 8 * n + DAY_SCAN_SLACK;
    line.LiveWeekdays(weekday, stop);
    Ordering.SubsetSize(line.Live(line.today + 2, stop), line.Live(line.today, stop));
  }

  /** The timeline has the date exactly if the scan accepts it, at the instant
      the scan resolves it to. */
  ghost predicate DayAgrees(s: Schedule, kind: RuleKind, line: Timeline, day: int) {
    && (line.dates(day) <==> Accepts(kind, day) && EligibleDate(s.calendar, day).Some?)
    && InstantFor(s, day) == Ok(line.clock(day))
  }

  lemma DayKindsAgree(s: Schedule, kind: RuleKind, t: int)
    requires Plannable(s, t) && ValidDayKind(kind)
    ensures forall day :: DayAgrees(s, kind, TimelineOf(s, kind, t), day)
  {
    var line := TimelineOf(s, kind, t);
    forall day ensures DayAgrees(s, kind, line, day) {
      InstantIsFirstReach(s, day);
      assert RuleDate(kind, day) <==> Accepts(kind, day) && EligibleDate(s.calendar, day).Some?;
    }
  }

  /** Puts the expiration of one candidate date among those found, if the date
      is eligible and its expiration still ahead. */
  method Offer(s: Schedule, rule: Rule, date: int, t: int, found: set<int>, ghost line: Timeline)
    returns (r: Result<set<int>, ProjectionError>)
    requires DayAgrees(s, rule.kind, line, date) && t == line.t
    ensures r == Ok(if line.dates(date) && t < line.clock(date) then found + {line.clock(date)} else found)
  {
    if Accepts(rule.kind, date) && EligibleDate(s.calendar, date).Some? {
      var expiresAt := InstantFor(s, date);
      if expiresAt.Err? { return Err(ProjectionError(rule.id, GapWithoutEnd)); }
      if expiresAt.value > t { return Ok(found + {expiresAt.value}); }
    }
    return Ok(found);
  }

  /** Walks forward one date at a time. The budget is never what ends the walk:
      only a date past the last representable one is. */
  method ScanDays(s: Schedule, rule: Rule, start: int, t: int, lastDay: int, ghost line: Timeline)
    returns (r: Result<set<int>, ProjectionError>, ghost stop: int)
    requires line.Sound() && forall day :: DayAgrees(s, rule.kind, line, day)
    requires start == line.today <= lastDay && t == line.t
    requires |line.Live(start, start + 8 * rule.count + DAY_SCAN_SLACK)| >= rule.count
    ensures r.Ok? ==> r.value == line.Instants(line.Live(start, stop)) && |r.value| == rule.count && stop <= lastDay + 1
    ensures r.Err? ==>
              r.error == ProjectionError(rule.id, DateOverflows) && |line.Live(start, lastDay + 1)| < rule.count
  {
    hide DayAgrees;
    var wanted := rule.count;
    var budget := wanted * 8 + DAY_SCAN_SLACK;
    var found: set<int> := {};
    var date := start;
    for i := 0 to budget
      invariant date == start + i <= lastDay
      invariant found == line.Instants(line.Live(start, date))
      invariant |line.Live(start, date)| < wanted
    {
      line.LiveStep(start, date);
      assert DayAgrees(s, rule.kind, line, date);
      var offered := Offer(s, rule, date, t, found, line);
      found := offered.value;

      if |found| >= wanted {
        return Ok(found), date + 1;
      }
      if date + 1 > lastDay {
        return Err(ProjectionError(rule.id, DateOverflows)), date;
      }
      date := date + 1;
    }
    assert false;
  }

  // ----- Monthly and yearly rules -----

  ghost predicate ValidPeriodKind(kind: RuleKind) {
    && (kind.Monthly? || kind.Yearly?)
    && kind.weekday < SATURDAY
    && (kind.Yearly? ==> 1 <= kind.month <= 12)
  }

  /** First day of period `p`: a year for a yearly rule, else a month. */
  ghost function Edge(kind: RuleKind, p: int): int {
    if kind.Yearly? then YearStart(p) else MonthStart(p)
  }

  /** The month searched in period `p`. */
  ghost function LineIn(kind: RuleKind, p: int): int {
    if kind.Yearly? then Line(p, kind.month) else p
  }

  ghost function DayIn(kind: RuleKind, p: int): int
    requires ValidPeriodKind(kind)
  {
    LastOnLine(LineIn(kind, p), kind.weekday)
  }

  lemma MonthInsideYear(year: int, line: int)
    requires line / 12 == year
    ensures YearStart(year) <= MonthStart(line) < MonthStart(line + 1) <= YearStart(year + 1)
  {
    MonthSteps(line);
    YearSteps(year);
  }

  lemma YearNotLater(day: int, a: int, b: int)
    requires YearStart(a) <= day && day < YearStart(b + 1)
    ensures a <= b
  {
    if b < a { YearsApart(b + 1, a); }
  }

  /** A month that shares a day with period `p` is the one searched there. */
  lemma LineOfPeriod(kind: RuleKind, p: int, day: int, line: int)
    requires ValidPeriodKind(kind) && InMonth(day, line)
    requires Edge(kind, p) <= day < Edge(kind, p + 1)
    requires kind.Yearly? ==> line % 12 == kind.month - 1
    ensures line == LineIn(kind, p)
  {
    if kind.Yearly? {
      MonthInsideYear(line / 12, line);
      YearNotLater(day, p, line / 12);
      YearNotLater(day, line / 12, p);
    } else {
      assert InMonth(day, p);
      MonthNotLater(day, line, p);
      MonthNotLater(day, p, line);
    }
  }

  lemma MonthOnLine(year: int, month: nat)
    requires 1 <= month <= 12
    ensures Line(year, month) % 12 == month - 1 && Line(year, month) / 12 == year
  {
  }

  ghost predicate Within(outer: (int, int), inner: (int, int)) {
    outer.0 <= inner.0 < inner.1 <= outer.1
  }

  lemma EdgesAroundLine(kind: RuleKind, p: int)
    requires ValidPeriodKind(kind)
    ensures Within((Edge(kind, p), Edge(kind, p + 1)), (MonthStart(LineIn(kind, p)), MonthStart(LineIn(kind, p) + 1)))
    ensures kind.Yearly? ==> LineIn(kind, p) % 12 == kind.month - 1
  {
    hide MonthStart, YearStart;
    match kind
    case Yearly(_, month) =>
      MonthOnLine(p, month);
      MonthInsideYear(p, Line(p, month));
    case _ => MonthSteps(p);
  }

  lemma PeriodDayIsRuleDate(kind: RuleKind, p: int)
    requires ValidPeriodKind(kind)
    ensures RuleDate(kind, DayIn(kind, p))
  {
    var line := LineIn(kind, p);
    EdgesAroundLine(kind, p);
    LastOnLineIsLast(line, kind.weekday);
    assert IsLastWeekday(DayIn(kind, p), line, kind.weekday);
  }

  lemma RuleDateIsPeriodDay(kind: RuleKind, p: int, day: int)
    requires ValidPeriodKind(kind) && RuleDate(kind, day)
    requires Edge(kind, p) <= day < Edge(kind, p + 1)
    ensures day == DayIn(kind, p)
  {
    var line :| IsLastWeekday(day, line, kind.weekday) && (kind.Yearly? ==> line % 12 == kind.month - 1);
    LineOfPeriod(kind, p, day, line);
    LastUnique(line, kind.weekday, day);
  }

  lemma LastUnique(line: int, weekday: Day, day: int)
    requires IsLastWeekday(day, line, weekday)
    ensures day == LastOnLine(line, weekday)
  {
    LastOnLineIsLast(line, weekday);
  }

  /** That date lies three weeks or more into the period. */
  lemma DayLiesInPeriod(kind: RuleKind, p: int)
    requires ValidPeriodKind(kind)
    ensures Edge(kind, p) + 21 <= DayIn(kind, p) < Edge(kind, p + 1)
    ensures MonthStart(LineIn(kind, p)) <= DayIn(kind, p) < MonthStart(LineIn(kind, p) + 1)
  {
    EdgesAroundLine(kind, p);
    LastOnLineIsLast(LineIn(kind, p), kind.weekday);
  }

  /** The period `start` lies in. */
  ghost function Origin(kind: RuleKind, start: int): int {
    if kind.Yearly? then YearOf(start) else MonthLineOf(start)
  }

  /** Most periods a scan ever looks at. */
  const MAX_PERIODS: nat := MAX_TARGET_COUNT + PERIOD_SCAN_SLACK

  lemma YearOfDate(start: int)
    requires MIN_DAY <= start <= MAX_DAY
    ensures MIN_YEAR <= YearOf(start) <= MAX_YEAR
  {
    hide YearStart;
    YearNotLater(start, MIN_YEAR, YearOf(start));
    YearNotLater(start, YearOf(start), MAX_YEAR);
  }

  /** The search finds the period's date as long as the following month is
      representable. */
  lemma PeriodDateFinds(kind: RuleKind, start: int, index: nat)
    requires ValidPeriodKind(kind) && MIN_DAY <= start <= MAX_DAY && index <= MAX_PERIODS
    ensures PeriodDate(kind, start, index) ==
            if LineIn(kind, Origin(kind, start) + index) < Line(MAX_YEAR, 12)
            then Ok(DayIn(kind, Origin(kind, start) + index)) else Err(OutsideDates)
  {
    hide YearStart, DaysBefore, LastWeekdayOfMonth, LastOnLine;
    YearOfDate(start);
    match kind
    case Monthly(weekday) =>
      var at := AddMonths(YearOf(start), MonthZeroOf(start) + 1, index).value;
      AddMonthsMovesAlongTheLine(YearOf(start), MonthZeroOf(start) + 1, index);
      SearchMonth(at.0, at.1, weekday);
    case Yearly(weekday, month) =>
      SearchMonth(YearOf(start) + index, month, weekday);
  }

  lemma SearchMonth(year: int, month: nat, weekday: Day)
    requires 1 <= month <= 12 && MIN_YEAR <= year < I32_MAX
    ensures LastWeekdayOfMonth(year, month, weekday) ==
            if Line(year, month) < Line(MAX_YEAR, 12) then Ok(LastOnLine(Line(year, month), weekday))
            else Err(OutsideDates)
  {
    if Line(year, month) < Line(MAX_YEAR, 12) {
      LastWeekdayFound(year, month, weekday);
    } else {
      LastWeekdayOutOfRange(year, month, weekday);
    }
  }

  /** Being within the limit is being searched for in a month before the last. */
  lemma LimitOnTheLine(kind: RuleKind, p: int)
    requires ValidPeriodKind(kind)
    ensures DayIn(kind, p) < Limit(kind) <==> LineIn(kind, p) < Line(MAX_YEAR, 12)
  {
    hide YearStart, MonthStart, LastOnLine;
    DayLiesInPeriod(kind, p);
    var line, last := LineIn(kind, p), Line(MAX_YEAR, 12);
    if line < last { MonthsApart(line + 1, last); } else { MonthsApart(last, line); }
  }

  /** What the scan of period `index` meets: the period's one date, if it is
      within the limit, at the instant the timeline gives it; and from the
      second period on that instant is ahead. */
  ghost predicate PeriodAgrees(s: Schedule, kind: RuleKind, line: Timeline, start: int, index: nat)
    requires ValidPeriodKind(kind)
  {
    var p := Origin(kind, start) + index;
    var day := DayIn(kind, p);
    && PeriodDate(kind, start, index) == (if day < Limit(kind) then Ok(day) else Err(OutsideDates))
    && Edge(kind, p) <= day < Edge(kind, p + 1)
    && line.dates(day)
    && (forall other :: Edge(kind, p) <= other < Edge(kind, p + 1) && line.dates(other) ==> other == day)
    && DayAgrees(s, kind, line, day)
    && (index >= 1 ==> line.t < line.clock(day))
  }

  lemma PeriodsAgree(s: Schedule, kind: RuleKind, t: int, index: nat)
    requires Plannable(s, t) && ValidPeriodKind(kind) && index <= MAX_PERIODS
    ensures PeriodAgrees(s, kind, TimelineOf(s, kind, t), s.zone.LocalDate(t), index)
  {
    hide MonthStart, YearStart, YearOf, MonthLineOf, LastOnLine, PeriodDate, InstantFor, RuleDate;
    var start := s.zone.LocalDate(t);
    var p := Origin(kind, start) + index;
    var day := DayIn(kind, p);
    var line := TimelineOf(s, kind, t);
    PeriodDateFinds(kind, start, index);
    LimitOnTheLine(kind, p);
    DayLiesInPeriod(kind, p);
    PeriodDayIsRuleDate(kind, p);
    InstantIsFirstReach(s, day);
    assert Weekday(day) < SATURDAY by { LastOnLineIsLast(LineIn(kind, p), kind.weekday); }
    forall other | Edge(kind, p) <= other < Edge(kind, p + 1) && line.dates(other) ensures other == day {
      RuleDateIsPeriodDay(kind, p, other);
    }
    if index >= 1 {
      LaterPeriodsAhead(kind, start, p);
      TodaySplitsDates(s, t, day);
    }
  }

  lemma LaterPeriodsAhead(kind: RuleKind, start: int, p: int)
    requires ValidPeriodKind(kind) && Origin(kind, start) < p
    ensures start + 2 <= DayIn(kind, p)
  {
    hide MonthStart, YearStart, LastOnLine;
    DayLiesInPeriod(kind, p);
    StartsInOrigin(kind, start);
    EdgesApart(kind, Origin(kind, start) + 1, p);
  }

  lemma StartsInOrigin(kind: RuleKind, start: int)
    ensures Edge(kind, Origin(kind, start)) <= start < Edge(kind, Origin(kind, start) + 1)
  {
    hide MonthStart, YearStart, YearOf, MonthLineOf;
    if kind.Yearly? {
      assert YearStart(YearOf(start)) <= start < YearStart(YearOf(start) + 1);
    } else {
      assert InMonth(start, MonthLineOf(start));
    }
  }

  lemma EdgesApart(kind: RuleKind, a: int, b: int)
    requires a <= b
    ensures Edge(kind, a) <= Edge(kind, b)
  {
    hide MonthStart, YearStart;
    if kind.Yearly? { YearsApart(a, b); } else { MonthsApart(a, b); }
  }

  /** What a stretch with one date in it adds, and how that compares with the
      whole of what lies before a limit. */
  lemma OneDateStretch(line: Timeline, from: int, a: int, day: int, b: int, limit: int)
    requires line.Sound() && from <= a <= day < b && line.dates(day)
    requires forall other :: a <= other < b && line.dates(other) ==> other == day
    ensures var before, after := line.Live(from, a), line.Live(from, b);
            && line.Instants(after)
               == line.Instants(before) + (if line.t < line.clock(day) then {line.clock(day)} else {})
            && |line.Instants(after)| == |after| == |before| + (if line.t < line.clock(day) then 1 else 0)
            && (day < limit ==> |after| <= |line.Live(from, limit)|)
            && (limit <= day ==> |line.Live(from, limit)| <= |before|)
  {
    line.LiveStretch(from, a, day, b);
    if day < limit {
      line.LiveGrows(from, day + 1, limit);
    } else {
      Ordering.SubsetSize(line.Live(from, limit), line.Live(from, a));
    }
  }

  /** What scanning one more period adds to the dates seen. */
  lemma PeriodStep(s: Schedule, kind: RuleKind, line: Timeline, start: int, index: nat, from: int, limit: int)
    requires ValidPeriodKind(kind) && line.Sound() && PeriodAgrees(s, kind, line, start, index)
    requires from <= Edge(kind, Origin(kind, start) + index) && limit == Limit(kind)
    ensures var p := Origin(kind, start) + index;
            var day := DayIn(kind, p);
            var before, after := line.Live(from, Edge(kind, p)), line.Live(from, Edge(kind, p + 1));
            && PeriodDate(kind, start, index) == (if day < limit then Ok(day) else Err(OutsideDates))
            && DayAgrees(s, kind, line, day) && line.dates(day)
            && from <= Edge(kind, p + 1)
            && line.Instants(after)
               == line.Instants(before) + (if line.t < line.clock(day) then {line.clock(day)} else {})
            && |line.Instants(after)| == |after| <= |before| + 1
            && (index >= 1 ==> |after| == |before| + 1)
            && (day < limit ==> |after| <= |line.Live(from, limit)|)
            && (limit <= day ==> |line.Live(from, limit)| <= |before|)
  {
    hide DayIn, Edge, Origin, PeriodDate, DayAgrees, Limit;
    var p := Origin(kind, start) + index;
    OneDateStretch(line, from, Edge(kind, p), DayIn(kind, p), Edge(kind, p + 1), limit);
  }

  lemma {:induction false} LivePeriods(s: Schedule, kind: RuleKind, line: Timeline, start: int, index: nat, from: int)
    requires ValidPeriodKind(kind) && line.Sound() && from == Edge(kind, Origin(kind, start))
    requires forall i: nat :: i < index ==> PeriodAgrees(s, kind, line, start, i)
    ensures from <= Edge(kind, Origin(kind, start) + index)
    ensures |line.Live(from, Edge(kind, Origin(kind, start) + index))| >= index - 1
  {
    hide PeriodDate, DayIn, Limit, Edge, Origin, PeriodAgrees, DayAgrees;
    if index > 0 {
      LivePeriods(s, kind, line, start, index - 1, from);
      PeriodStep(s, kind, line, start, index - 1, from, Limit(kind));
    }
  }

  /** Only the first period can already be past, folds included: the dates of
      all later ones lie at least two days ahead of the local date. */
  lemma OnlyTheFirstPeriodIsPast(s: Schedule, kind: RuleKind, t: int, index: nat)
    requires Plannable(s, t) && ValidPeriodKind(kind) && index >= 1
    ensures t < InstantOf(s, DayIn(kind, Origin(kind, s.zone.LocalDate(t)) + index))
  {
    hide MonthStart, YearStart, YearOf, MonthLineOf, LastOnLine;
    var start := s.zone.LocalDate(t);
    LaterPeriodsAhead(kind, start, Origin(kind, start) + index);
    TodaySplitsDates(s, t, DayIn(kind, Origin(kind, start) + index));
  }

  /** So `n + 1` periods already hold `n` live expirations, one fewer than the
      scan allows itself. */
  lemma PeriodBudgetSuffices(s: Schedule, kind: RuleKind, t: int, n: nat)
    requires Plannable(s, t) && ValidPeriodKind(kind) && n <= MAX_TARGET_COUNT
    ensures var line := TimelineOf(s, kind, t);
            |line.Live(line.today, Edge(kind, Origin(kind, line.today) + n + 1))| >= n
  {
    hide DayIn, Limit, Edge, Origin, PeriodDate, PeriodAgrees, DayAgrees, RuleDate, InstantOf;
    var line := TimelineOf(s, kind, t);
    var from := Edge(kind, Origin(kind, line.today));
    TimelineIsSound(s, kind, t);
    forall index: nat | index <= MAX_PERIODS ensures PeriodAgrees(s, kind, line, line.today, index) {
      PeriodsAgree(s, kind, t, index);
    }
    LivePeriods(s, kind, line, line.today, n + 1, from);
    StartsInOrigin(kind, line.today);
    EdgesApart(kind, Origin(kind, line.today) + 1, Origin(kind, line.today) + n + 1);
    line.StartEarlier(from, Edge(kind, Origin(kind, line.today) + n + 1));
  }

  /** Walks forward one period at a time. Only the first can already be past, so
      `n + 1` periods would do; only a period whose month has no representable
      successor ends the walk early. */
  method ScanPeriods(s: Schedule, rule: Rule, start: int, t: int, ghost line: Timeline, ghost from: int,
      ghost limit: int)
    returns (r: Result<set<int>, ProjectionError>, ghost stop: int)
    requires ValidPeriodKind(rule.kind) && rule.count <= MAX_TARGET_COUNT
    requires line.Sound() && t == line.t
    requires forall index: nat :: index <= MAX_PERIODS ==> PeriodAgrees(s, rule.kind, line, start, index)
    requires from == Edge(rule.kind, Origin(rule.kind, start)) && limit == Limit(rule.kind)
    ensures r.Ok? ==> r.value == line.Instants(line.Live(from, stop)) && |r.value| == rule.count
    ensures r.Ok? ==> |line.Live(from, limit)| >= rule.count
    ensures r.Err? ==> r.error == ProjectionError(rule.id, OutsideDates) && |line.Live(from, limit)| < rule.count
  {
    hide PeriodDate, InstantFor, RuleDate, DayIn, Limit, Edge, Origin, PeriodAgrees, DayAgrees;
    ghost var p := Origin(rule.kind, start);
    var wanted := rule.count;
    var budget := wanted + PERIOD_SCAN_SLACK;
    var found: set<int> := {};
    stop := from;
    for index := 0 to budget
      invariant p == Origin(rule.kind, start) + index
      invariant from <= stop == Edge(rule.kind, p)
      invariant found == line.Instants(line.Live(from, stop))
      invariant index - 1 <= |found| == |line.Live(from, stop)| <= wanted
      invariant |line.Live(from, stop)| <= |line.Live(from, limit)|
    {
      if |found| >= wanted {
        return Ok(found), stop;
      }
      assert PeriodAgrees(s, rule.kind, line, start, index);
      PeriodStep(s, rule.kind, line, start, index, from, limit);
      var date := PeriodDate(rule.kind, start, index);
      if date.Err? {
        return Err(ProjectionError(rule.id, date.error)), stop;
      }
      var offered := Offer(s, rule, date.value, t, found, line);
      found := offered.value;
      p := p + 1;
      stop := Edge(rule.kind, p);
    }
    assert false;
  }
}
