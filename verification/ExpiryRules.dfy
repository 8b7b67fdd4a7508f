/** Expiration rules and schedules: what is accepted, the normal form that is
    stored, and the flat wire form both directions of serialisation go through. */
module ExpiryRules {
  import opened Results

  const MAX_SCHEDULE_RULES: nat := 16
  const MAX_TARGET_COUNT: nat := 256
  const MAX_EXPIRATIONS_PER_SNAPSHOT: nat := 512
  const DEFAULT_YEARLY_MONTH: nat := 12
  const MAX_RULE_ID_LEN: nat := 64

  /** A weekday, Monday being 0. */
  type Day = d: int | 0 <= d < 7

  const SATURDAY: Day := 5

  type Count = n: int | 1 <= n witness 1

  datatype RuleKind =
    | Daily
    | Weekly(weekdays: seq<Day>)
    | Monthly(weekday: Day)
    | Yearly(weekday: Day, month: nat)

  datatype Rule = Rule(id: string, kind: RuleKind, count: Count)

  /** The flat wire form: a kind tag, and each kind's fields as options. */
  datatype RuleWire = RuleWire(
    id: string,
    kind: string,
    count: Count,
    weekdays: Option<seq<Day>>,
    weekday: Option<Day>,
    month: Option<nat>)

  datatype RuleError =
    | EmptyId
    | IdTooLong
    | IdBadCharacter
    | CountZero
    | CountTooLarge
    | NotForKind(field: string)
    | Missing(field: string)
    | UnknownKind
    | NoWeekdays
    | WeekendDay
    | MonthOutOfRange

  predicate IdCharacter(c: char) {
    'A' <= c <= 'Z' || 'a' <= c <= 'z' || '0' <= c <= '9' || c == '_' || c == '-'
  }

  predicate ValidId(id: string) {
    0 < |id| <= MAX_RULE_ID_LEN && forall i :: 0 <= i < |id| ==> IdCharacter(id[i])
  }

  /** By ASCII code: capitals, small letters, digits, underscore and hyphen. */
  lemma IdCharacters(c: char)
    ensures IdCharacter(c) <==>
              65 <= c as int <= 90 || 97 <= c as int <= 122 || 48 <= c as int <= 57 || c as int == 95 || c as int == 45
  {
  }

  function CheckId(id: string): Result<(), RuleError> {
    if id == "" then Err(EmptyId)
    else if |id| > MAX_RULE_ID_LEN then Err(IdTooLong)
    else if exists i :: 0 <= i < |id| && !IdCharacter(id[i]) then Err(IdBadCharacter)
    else Ok(())
  }

  function CheckDay(day: Day): Result<(), RuleError> {
    if day >= SATURDAY then Err(WeekendDay) else Ok(())
  }

  function CheckDays(days: seq<Day>): Result<(), RuleError> {
    if days == [] then Ok(())
    else
      var _ :- CheckDay(days[0]);
      CheckDays(days[1..])
  }

  function CheckKind(kind: RuleKind): Result<(), RuleError> {
    match kind
    case Daily => Ok(())
    case Weekly(days) => if days == [] then Err(NoWeekdays) else CheckDays(days)
    case Monthly(day) => CheckDay(day)
    case Yearly(day, month) =>
      var _ :- CheckDay(day);
      if 1 <= month <= 12 then Ok(()) else Err(MonthOutOfRange)
  }

  /** The days of a set in Monday-first order, each once. */
  function DaysFrom(days: set<Day>, first: nat): seq<Day>
    requires first <= 7
    decreases 7 - first
  {
    if first == 7 then []
    else if first in days then [first] + DaysFrom(days, first + 1)
    else DaysFrom(days, first + 1)
  }

  function NormaliseDays(days: seq<Day>): seq<Day> {
    DaysFrom(set d: Day | d in days, 0)
  }

  function NormaliseKind(kind: RuleKind): RuleKind {
    match kind
    case Weekly(days) => Weekly(NormaliseDays(days))
    case _ => kind
  }

  /** The shared validating constructor behind requests and stored documents. */
  function FromParts(id: string, kind: RuleKind, count: Count): Result<Rule, RuleError> {
    var normal := NormaliseKind(kind);
    var _ :- CheckId(id);
    if count > MAX_TARGET_COUNT then Err(CountTooLarge)
    else
      var _ :- CheckKind(normal);
      Ok(Rule(id, NormaliseKind(normal), count))
  }

  function NewRule(id: string, kind: RuleKind, count: nat): Result<Rule, RuleError> {
    if count == 0 then Err(CountZero) else FromParts(id, kind, count)
  }

  function KindName(kind: RuleKind): string {
    match kind
    case Daily => "daily"
    case Weekly(_) => "weekly"
    case Monthly(_) => "monthly"
    case Yearly(_, _) => "yearly"
  }

  function ToWire(rule: Rule): RuleWire {
    match rule.kind
    case Daily => RuleWire(rule.id, KindName(rule.kind), rule.count, None, None, None)
    case Weekly(days) => RuleWire(rule.id, KindName(rule.kind), rule.count, Some(days), None, None)
    case Monthly(day) => RuleWire(rule.id, KindName(rule.kind), rule.count, None, Some(day), None)
    case Yearly(day, month) =>
      RuleWire(rule.id, KindName(rule.kind), rule.count, None, Some(day), Some(month))
  }

  function Reject<T>(field: Option<T>, name: string): Result<(), RuleError> {
    if field.Some? then Err(NotForKind(name)) else Ok(())
  }

  /** The kind a wire form names, with the fields other kinds own refused. */
  function WireKind(wire: RuleWire): Result<RuleKind, RuleError> {
    if wire.kind == "daily" then
      var _ :- Reject(wire.weekdays, "weekdays");
      var _ :- Reject(wire.weekday, "weekday");
      var _ :- Reject(wire.month, "month");
      Ok(Daily)
    else if wire.kind == "weekly" then
      var _ :- Reject(wire.weekday, "weekday");
      var _ :- Reject(wire.month, "month");
      if wire.weekdays.None? then Err(Missing("weekdays"))
      else Ok(Weekly(NormaliseDays(wire.weekdays.value)))
    else if wire.kind == "monthly" then
      var _ :- Reject(wire.weekdays, "weekdays");
      var _ :- Reject(wire.month, "month");
      if wire.weekday.None? then Err(Missing("weekday")) else Ok(Monthly(wire.weekday.value))
    else if wire.kind == "yearly" then
      var _ :- Reject(wire.weekdays, "weekdays");
      if wire.weekday.None? then Err(Missing("weekday"))
      else Ok(Yearly(wire.weekday.value, if wire.month.Some? then wire.month.value else DEFAULT_YEARLY_MONTH))
    else Err(UnknownKind)
  }

  function FromWire(wire: RuleWire): Result<Rule, RuleError> {
    var _ :- CheckId(wire.id);
    var kind :- WireKind(wire);
    FromParts(wire.id, kind, wire.count)
  }

  /** Strictly Monday-first. */
  ghost predicate DaysInOrder(days: seq<Day>) {
    forall i, j :: 0 <= i < j < |days| ==> days[i] < days[j]
  }

  ghost predicate Trading(days: seq<Day>) {
    days != [] && forall d: Day :: d in days ==> d < SATURDAY
  }

  /** What a rule that exists satisfies. */
  ghost predicate ValidRule(rule: Rule) {
    && ValidId(rule.id)
    && rule.count <= MAX_TARGET_COUNT
    && match rule.kind
       case Daily => true
       case Weekly(days) => DaysInOrder(days) && Trading(days)
       case Monthly(day) => day < SATURDAY
       case Yearly(day, month) => day < SATURDAY && 1 <= month <= 12
  }

  /** Which wire forms describe a rule: the fields of the named kind and no
      others, each of them usable. */
  ghost predicate Acceptable(wire: RuleWire) {
    && ValidId(wire.id)
    && wire.count <= MAX_TARGET_COUNT
    && (wire.weekdays.Some? <==> wire.kind == "weekly")
    && (wire.weekday.Some? <==> wire.kind == "monthly" || wire.kind == "yearly")
    && (wire.month.Some? ==> wire.kind == "yearly" && 1 <= wire.month.value <= 12)
    && (wire.weekdays.Some? ==> Trading(wire.weekdays.value))
    && (wire.weekday.Some? ==> wire.weekday.value < SATURDAY)
    && wire.kind in {"daily", "weekly", "monthly", "yearly"}
  }

  lemma {:induction false} DaysFromLists(days: set<Day>, first: nat)
    requires first <= 7
    ensures DaysInOrder(DaysFrom(days, first))
    ensures forall d: Day :: d in DaysFrom(days, first) <==> d in days && first <= d
    decreases 7 - first
  {
    if first < 7 {
      DaysFromLists(days, first + 1);
      var rest := DaysFrom(days, first + 1);
      assert forall j :: 0 <= j < |rest| ==> rest[j] in rest;
    }
  }

  lemma NormaliseLists(days: seq<Day>)
    ensures DaysInOrder(NormaliseDays(days))
    ensures forall d: Day :: d in NormaliseDays(days) <==> d in days
    ensures NormaliseDays(days) == [] <==> days == []
  {
    DaysFromLists(set d: Day | d in days, 0);
    if days != [] { assert days[0] in NormaliseDays(days); }
    if NormaliseDays(days) != [] { assert NormaliseDays(days)[0] in days; }
  }

  /** A set of days has one Monday-first listing. */
  lemma {:induction false} ListingUnique(a: seq<Day>, b: seq<Day>)
    requires DaysInOrder(a) && DaysInOrder(b)
    requires forall d: Day :: d in a <==> d in b
    ensures a == b
  {
    assert (a != [] ==> a[0] in b) && (b != [] ==> b[0] in a);
    if a != [] && b != [] {
      assert a[0] == b[0];
      forall d: Day ensures d in a[1..] <==> d in b[1..] {
        assert d in a <==> d == a[0] || d in a[1..];
        assert d in b <==> d == b[0] || d in b[1..];
      }
      ListingUnique(a[1..], b[1..]);
      assert a == [a[0]] + a[1..] && b == [b[0]] + b[1..];
    }
  }

  lemma NormaliseFixes(days: seq<Day>)
    requires DaysInOrder(days)
    ensures NormaliseDays(days) == days
  {
    NormaliseLists(days);
    ListingUnique(NormaliseDays(days), days);
  }

  /** Naming the same days in another order, or twice, is the same rule. */
  lemma SameDaysSameRule(id: string, a: seq<Day>, b: seq<Day>, count: nat)
    requires forall d: Day :: d in a <==> d in b
    ensures NewRule(id, Weekly(a), count) == NewRule(id, Weekly(b), count)
  {
    assert (set d: Day | d in a) == (set d: Day | d in b);
  }

  lemma {:induction false} CheckDaysMeaning(days: seq<Day>)
    ensures CheckDays(days).Ok? <==> forall d: Day :: d in days ==> d < SATURDAY
  {
    if days != [] {
      CheckDaysMeaning(days[1..]);
      assert days[0] in days;
      forall d: Day ensures d in days <==> d == days[0] || d in days[1..] {
        assert days == [days[0]] + days[1..];
      }
    }
  }

  /** The constructor builds exactly the valid rules, and normalises the days. */
  lemma FromPartsMeaning(id: string, kind: RuleKind, count: Count)
    ensures FromParts(id, kind, count).Ok? <==>
            ValidRule(Rule(id, NormaliseKind(kind), count))
    ensures FromParts(id, kind, count).Ok? ==>
              FromParts(id, kind, count).value == Rule(id, NormaliseKind(kind), count)
  {
    if kind.Weekly? {
      NormaliseLists(kind.weekdays);
      NormaliseFixes(NormaliseDays(kind.weekdays));
      CheckDaysMeaning(NormaliseDays(kind.weekdays));
    }
  }

  /** A rule keeps at least one expiration: a count of zero is refused as such,
      and no other count is. */
  lemma CountsStartAtOne(id: string, kind: RuleKind, count: nat)
    ensures NewRule(id, kind, count) == Err(CountZero) <==> count == 0
  {
    if count > 0 && kind.Weekly? { DaysRefused(NormaliseDays(kind.weekdays)); }
  }

  /** A wire form is accepted exactly when it is acceptable. */
  lemma WireAccepted(wire: RuleWire)
    ensures FromWire(wire).Ok? <==> Acceptable(wire)
  {
    if WireKind(wire).Ok? {
      var kind := WireKind(wire).value;
      FromPartsMeaning(wire.id, kind, wire.count);
      if wire.kind == "weekly" {
        NormaliseLists(wire.weekdays.value);
        NormaliseFixes(NormaliseDays(wire.weekdays.value));
      }
    }
  }

  /** The fields a wire form carries are those of the kind it names. */
  predicate FieldsFit(wire: RuleWire) {
    && wire.kind in {"daily", "weekly", "monthly", "yearly"}
    && (wire.weekdays.Some? <==> wire.kind == "weekly")
    && (wire.weekday.Some? <==> wire.kind == "monthly" || wire.kind == "yearly")
    && (wire.month.Some? ==> wire.kind == "yearly")
  }

  /** The weekdays a wire form names, whichever field they are in. */
  ghost predicate NamesWeekend(wire: RuleWire) {
    || (wire.weekdays.Some? && exists d: Day :: d in wire.weekdays.value && d >= SATURDAY)
    || (wire.weekday.Some? && wire.weekday.value >= SATURDAY)
  }

  /** Why a wire form is refused: its id first, then its kind and fields, then
      its count, then its days, then its month. */
  lemma WireRefusals(wire: RuleWire)
    ensures FromWire(wire) == Err(EmptyId) <==> wire.id == ""
    ensures FromWire(wire) == Err(IdTooLong) <==> |wire.id| > MAX_RULE_ID_LEN
    ensures FromWire(wire) == Err(IdBadCharacter) <==> 0 < |wire.id| <= MAX_RULE_ID_LEN && !ValidId(wire.id)
    ensures FromWire(wire) == Err(UnknownKind) <==>
              ValidId(wire.id) && wire.kind !in {"daily", "weekly", "monthly", "yearly"}
    ensures FromWire(wire).Err? && (FromWire(wire).error.NotForKind? || FromWire(wire).error.Missing?) <==>
              ValidId(wire.id) && wire.kind in {"daily", "weekly", "monthly", "yearly"} && !FieldsFit(wire)
    ensures FromWire(wire) == Err(CountTooLarge) <==>
              ValidId(wire.id) && FieldsFit(wire) && wire.count > MAX_TARGET_COUNT
    ensures var fits := ValidId(wire.id) && FieldsFit(wire) && wire.count <= MAX_TARGET_COUNT;
            && (FromWire(wire) == Err(NoWeekdays) <==> fits && wire.weekdays == Some([]))
            && (FromWire(wire) == Err(WeekendDay) <==> fits && NamesWeekend(wire))
            && (FromWire(wire) == Err(MonthOutOfRange) <==>
                  fits && !NamesWeekend(wire) && wire.month.Some? && !(1 <= wire.month.value <= 12))
  {
    if ValidId(wire.id) && FieldsFit(wire) && wire.kind == "weekly" {
      var days := NormaliseDays(wire.weekdays.value);
      NormaliseLists(wire.weekdays.value);
      NormaliseFixes(days);
      CheckDaysMeaning(days);
      DaysRefused(days);
    }
  }

  lemma {:induction false} DaysRefused(days: seq<Day>)
    ensures CheckDays(days).Ok? || CheckDays(days) == Err(WeekendDay)
  {
    if days != [] { DaysRefused(days[1..]); }
  }

  /** Writing a valid rule out and reading it back is the identity. */
  lemma RuleWireRoundTrip(rule: Rule)
    requires ValidRule(rule)
    ensures FromWire(ToWire(rule)) == Ok(rule)
  {
    if rule.kind.Weekly? { NormaliseFixes(rule.kind.weekdays); }
    FromPartsMeaning(rule.id, rule.kind, rule.count);
  }

  /** Reading an accepted wire form and writing it out gives a normal form that
      reading and writing leave alone, and that still means the same days. */
  lemma WireNormalForm(wire: RuleWire)
    requires FromWire(wire).Ok?
    ensures var rule := FromWire(wire).value;
            && ValidRule(rule)
            && rule.id == wire.id && rule.count == wire.count && KindName(rule.kind) == wire.kind
            && FromWire(ToWire(rule)) == Ok(rule)
            && ToWire(FromWire(ToWire(rule)).value) == ToWire(rule)
            && (rule.kind.Weekly? ==> forall d: Day :: d in rule.kind.weekdays <==> d in wire.weekdays.value)
            && (rule.kind.Monthly? || rule.kind.Yearly? ==> wire.weekday == Some(rule.kind.weekday))
            && (rule.kind.Yearly? ==> rule.kind.month == if wire.month.Some? then wire.month.value else 12)
  {
    var kind := WireKind(wire).value;
    FromPartsMeaning(wire.id, kind, wire.count);
    if kind.Weekly? {
      NormaliseLists(wire.weekdays.value);
      NormaliseFixes(NormaliseDays(wire.weekdays.value));
    }
    RuleWireRoundTrip(FromWire(wire).value);
  }
}
