/** Expiration schedules: whole-schedule validation, the order rules are stored
    in, and the stored document form. */
module Schedules {
  import opened Results
  import opened Ordering
  import opened Zones
  import opened ExpiryRules

  /** Weekends are the only ineligible days under the one calendar there is. */
  datatype CalendarVersion = WeekdaysV1

  /** `time` is the local time of day of every expiration, in seconds. */
  datatype Schedule = Schedule(calendar: CalendarVersion, zone: Zone, time: int, rules: seq<Rule>)

  datatype ScheduleWire = ScheduleWire(calendar: CalendarVersion, zone: Zone, time: int, rules: seq<RuleWire>)

  datatype ScheduleError =
    | NoRules
    | TooManyRules
    | DuplicateId(id: string)
    | TooManyExpirations
    | BadRule(rule: RuleError)

  function Ids(rules: seq<Rule>): set<string> {
    set r | r in rules :: r.id
  }

  function Total(rules: seq<Rule>): nat {
    if rules == [] then 0 else Total(rules[..|rules| - 1]) + rules[|rules| - 1].count
  }

  ghost predicate DistinctIds(rules: seq<Rule>) {
    forall i, j :: 0 <= i < j < |rules| ==> rules[i].id != rules[j].id
  }

  ghost predicate RulesValid(rules: seq<Rule>) {
    forall i :: 0 <= i < |rules| ==> ValidRule(rules[i])
  }

  /** The whole-schedule conditions: one to sixteen rules with ids of their own,
      and at most 512 expirations before coincident ones are merged. */
  ghost predicate Coherent(rules: seq<Rule>) {
    && 1 <= |rules| <= MAX_SCHEDULE_RULES
    && DistinctIds(rules)
    && Total(rules) <= MAX_EXPIRATIONS_PER_SNAPSHOT
  }

  ghost predicate InIdOrder(rules: seq<Rule>) {
    forall i, j :: 0 <= i < j < |rules| ==> Before(rules[i].id, rules[j].id)
  }

  ghost predicate ValidSchedule(s: Schedule) {
    RulesValid(s.rules) && Coherent(s.rules) && InIdOrder(s.rules)
  }

  /** The id of rule `k` is the first to occur a second time. */
  ghost predicate FirstRepeats(rules: seq<Rule>, k: nat)
    requires k < |rules|
  {
    rules[k].id in Ids(rules[..k]) && DistinctIds(rules[..k])
  }

  /** What is wrong with a rule list, in the order validation looks. */
  datatype Flaw = Sound | Empty | Crowded | Repeating | Heavy

  ghost function FlawOf(rules: seq<Rule>): Flaw {
    if rules == [] then Empty
    else if |rules| > MAX_SCHEDULE_RULES then Crowded
    else if !DistinctIds(rules) then Repeating
    else if Total(rules) > MAX_EXPIRATIONS_PER_SNAPSHOT then Heavy
    else Sound
  }

  /** The refusal a flaw is reported as. */
  predicate Reports<T>(r: Result<T, ScheduleError>, flaw: Flaw) {
    match flaw
    case Sound => r.Ok?
    case Empty => r.Err? && r.error == NoRules
    case Crowded => r.Err? && r.error == TooManyRules
    case Repeating => r.Err? && r.error.DuplicateId?
    case Heavy => r.Err? && r.error == TooManyExpirations
  }

  /** The validation loop, one rule at a time. It refuses exactly the incoherent
      rule lists, each for its flaw; a repeated id is reported where it first
      repeats, before the total is looked at. */
  method Validate(rules: seq<Rule>) returns (r: Result<(), ScheduleError>)
    ensures r.Ok? <==> Coherent(rules)
    ensures Reports(r, FlawOf(rules))
    ensures r.Err? && r.error.DuplicateId? ==>
              exists k :: 0 <= k < |rules| && r.error.id == rules[k].id && FirstRepeats(rules, k)
  {
    if rules == [] { return Err(NoRules); }
    if |rules| > MAX_SCHEDULE_RULES { return Err(TooManyRules); }
    var seen: set<string> := {};
    var projected := 0;
    for k := 0 to |rules|
      invariant seen == Ids(rules[..k]) && DistinctIds(rules[..k])
      invariant projected == Total(rules[..k])
    {
      var id := rules[k].id;
      if id in seen {
        RepeatsAt(rules, k);
        return Err(DuplicateId(id));
      }
      assert rules[..k + 1] == rules[..k] + [rules[k]];
      seen := seen + {id};
      projected := projected + rules[k].count;
    }
    assert rules[..|rules|] == rules;
    if projected > MAX_EXPIRATIONS_PER_SNAPSHOT { return Err(TooManyExpirations); }
    return Ok(());
  }

  lemma RepeatsAt(rules: seq<Rule>, k: nat)
    requires k < |rules| && rules[k].id in Ids(rules[..k])
    ensures !DistinctIds(rules)
  {
    var earlier :| earlier in rules[..k] && earlier.id == rules[k].id;
    var j :| 0 <= j < k && rules[j] == earlier;
  }

  /** Stable insertion by id. */
  function InsertById(rule: Rule, sorted: seq<Rule>): (r: seq<Rule>)
    ensures multiset(r) == multiset{rule} + multiset(sorted)
  {
    if sorted == [] then [rule]
    else if Before(sorted[0].id, rule.id) then
      assert sorted == [sorted[0]] + sorted[1..];
      [sorted[0]] + InsertById(rule, sorted[1..])
    else [rule] + sorted
  }

  function SortById(rules: seq<Rule>): (r: seq<Rule>)
    ensures multiset(r) == multiset(rules)
  {
    if rules == [] then []
    else
      assert rules == [rules[0]] + rules[1..];
      InsertById(rules[0], SortById(rules[1..]))
  }

  /** Validates, then stores the rules in id order. */
  method NewSchedule(calendar: CalendarVersion, zone: Zone, time: int, rules: seq<Rule>)
    returns (r: Result<Schedule, ScheduleError>)
    ensures r.Ok? <==> Coherent(rules)
    ensures Reports(r, FlawOf(rules))
    ensures r.Ok? ==> r.value == Schedule(calendar, zone, time, SortById(rules))
    ensures r.Ok? && RulesValid(rules) ==> ValidSchedule(r.value)
  {
    var checked := Validate(rules);
    if checked.Err? { return Err(checked.error); }
    SortedStaysCoherent(rules);
    return Ok(Schedule(calendar, zone, time, SortById(rules)));
  }

  function RulesToWire(rules: seq<Rule>): (w: seq<RuleWire>)
    ensures |w| == |rules| && forall i :: 0 <= i < |w| ==> w[i] == ToWire(rules[i])
  {
    if rules == [] then [] else [ToWire(rules[0])] + RulesToWire(rules[1..])
  }

  /** Wire rule `i` does not parse, and every one before it does. */
  ghost predicate FirstBad(wires: seq<RuleWire>, i: nat)
    requires i < |wires|
  {
    FromWire(wires[i]).Err? && forall j :: 0 <= j < i ==> FromWire(wires[j]).Ok?
  }

  function RulesFromWire(wires: seq<RuleWire>): (r: Result<seq<Rule>, ScheduleError>)
    ensures r.Ok? ==> |r.value| == |wires| && forall i :: 0 <= i < |wires| ==> FromWire(wires[i]) == Ok(r.value[i])
    ensures r.Err? ==>
              exists i :: 0 <= i < |wires| && FirstBad(wires, i) && r.error == BadRule(FromWire(wires[i]).error)
  {
    if wires == [] then Ok([])
    else
      match FromWire(wires[0])
      case Err(e) => Err(BadRule(e))
      case Ok(rule) =>
        var rest :- RulesFromWire(wires[1..]);
        Ok([rule] + rest)
  }

  function Print(s: Schedule): ScheduleWire {
    ScheduleWire(s.calendar, s.zone, s.time, RulesToWire(s.rules))
  }

  /** Reading a stored schedule: every rule through its own constructor, the
      list through the schedule's. */
  method Parse(wire: ScheduleWire) returns (r: Result<Schedule, ScheduleError>)
    ensures r.Ok? <==> RulesFromWire(wire.rules).Ok? && Coherent(RulesFromWire(wire.rules).value)
    ensures RulesFromWire(wire.rules).Err? ==> r == Err(RulesFromWire(wire.rules).error)
    ensures RulesFromWire(wire.rules).Ok? ==> Reports(r, FlawOf(RulesFromWire(wire.rules).value))
    ensures r.Ok? ==>
              r.value == Schedule(wire.calendar, wire.zone, wire.time, SortById(RulesFromWire(wire.rules).value))
    ensures r.Ok? ==> ValidSchedule(r.value)
  {
    var rules := RulesFromWire(wire.rules);
    if rules.Err? { return Err(rules.error); }
    forall i | 0 <= i < |rules.value| ensures ValidRule(rules.value[i]) { WireNormalForm(wire.rules[i]); }
    r := NewSchedule(wire.calendar, wire.zone, wire.time, rules.value);
  }

  lemma {:induction false} InsertKeepsOrder(rule: Rule, sorted: seq<Rule>)
    requires InIdOrder(sorted) && forall i :: 0 <= i < |sorted| ==> sorted[i].id != rule.id
    ensures InIdOrder(InsertById(rule, sorted))
  {
    if sorted != [] {
      if Before(sorted[0].id, rule.id) {
        InsertKeepsOrder(rule, sorted[1..]);
        var rest := InsertById(rule, sorted[1..]);
        forall j | 0 <= j < |rest| ensures Before(sorted[0].id, rest[j].id) {
          assert rest[j] in multiset(rest);
          assert rest[j] == rule || rest[j] in sorted[1..];
        }
      } else {
        BeforeTotal(sorted[0].id, rule.id);
        forall j | 0 <= j < |sorted| ensures Before(rule.id, sorted[j].id) {
          if j > 0 { BeforeTransitive(rule.id, sorted[0].id, sorted[j].id); }
        }
      }
    }
  }

  lemma {:induction false} SortOrders(rules: seq<Rule>)
    requires DistinctIds(rules)
    ensures InIdOrder(SortById(rules))
  {
    if rules != [] {
      var rest := SortById(rules[1..]);
      SortOrders(rules[1..]);
      forall i | 0 <= i < |rest| ensures rest[i].id != rules[0].id {
        assert rest[i] in multiset(rest);
        assert rest[i] in rules[1..];
      }
      InsertKeepsOrder(rules[0], rest);
    }
  }

  /** The total is the sum of the counts. */
  lemma TotalOfOneMore(rules: seq<Rule>, rule: Rule)
    ensures Total([]) == 0 && Total(rules + [rule]) == Total(rules) + rule.count
  {
    assert (rules + [rule])[..|rules|] == rules;
  }

  lemma {:induction false} TotalOfSplit(a: seq<Rule>, b: seq<Rule>)
    ensures Total(a + b) == Total(a) + Total(b)
  {
    if b == [] {
      assert a + b == a;
    } else {
      assert (a + b)[..|a + b| - 1] == a + b[..|b| - 1];
      TotalOfSplit(a, b[..|b| - 1]);
    }
  }

  lemma {:induction false} InsertTotal(rule: Rule, sorted: seq<Rule>)
    ensures Total(InsertById(rule, sorted)) == rule.count + Total(sorted)
  {
    assert Total([rule]) == rule.count;
    if sorted == [] {
    } else if Before(sorted[0].id, rule.id) {
      InsertTotal(rule, sorted[1..]);
      TotalOfSplit([sorted[0]], InsertById(rule, sorted[1..]));
      TotalOfSplit([sorted[0]], sorted[1..]);
      assert sorted == [sorted[0]] + sorted[1..];
    } else {
      TotalOfSplit([rule], sorted);
    }
  }

  lemma {:induction false} SortTotal(rules: seq<Rule>)
    ensures Total(SortById(rules)) == Total(rules)
  {
    if rules != [] {
      SortTotal(rules[1..]);
      InsertTotal(rules[0], SortById(rules[1..]));
      TotalOfSplit([rules[0]], rules[1..]);
      assert rules == [rules[0]] + rules[1..] && Total([rules[0]]) == rules[0].count;
    }
  }

  lemma SameLength(a: seq<Rule>, b: seq<Rule>)
    requires multiset(a) == multiset(b)
    ensures |a| == |b|
  {
    assert |multiset(a)| == |a| && |multiset(b)| == |b|;
  }

  lemma SortedStaysCoherent(rules: seq<Rule>)
    requires Coherent(rules)
    ensures Coherent(SortById(rules)) && InIdOrder(SortById(rules))
    ensures RulesValid(rules) ==> RulesValid(SortById(rules))
  {
    var sorted := SortById(rules);
    SortOrders(rules);
    SortTotal(rules);
    SameLength(rules, sorted);
    forall i, j | 0 <= i < j < |sorted| ensures sorted[i].id != sorted[j].id {
      BeforeAsymmetric(sorted[i].id, sorted[j].id);
    }
    forall i | 0 <= i < |sorted| ensures sorted[i] in rules {
      assert sorted[i] in multiset(sorted);
    }
  }

  lemma FirstRulesAgree(a: seq<Rule>, b: seq<Rule>)
    requires a != [] && b != [] && InIdOrder(a) && InIdOrder(b) && multiset(a) == multiset(b)
    ensures a[0] == b[0]
  {
    assert a[0] in multiset(b) && b[0] in multiset(a);
    var i :| 0 <= i < |a| && a[i] == b[0];
    var j :| 0 <= j < |b| && b[j] == a[0];
    if i > 0 && j > 0 { BeforeAsymmetric(a[0].id, a[i].id); }
  }

  /** Rules in id order are determined by which rules they are. */
  lemma {:induction false} OrderUnique(a: seq<Rule>, b: seq<Rule>)
    requires InIdOrder(a) && InIdOrder(b) && multiset(a) == multiset(b)
    ensures a == b
  {
    SameLength(a, b);
    if a != [] {
      FirstRulesAgree(a, b);
      var x, y := a[1..], b[1..];
      assert a == [a[0]] + x && b == [b[0]] + y;
      assert multiset(x) == multiset(a) - multiset{a[0]};
      assert multiset(y) == multiset(b) - multiset{b[0]};
      OrderUnique(x, y);
    }
  }

  /** Listing the same rules in another order is accepted or refused alike, for
      the same flaw, and gives the same stored schedule. */
  lemma RuleOrderIrrelevant(a: seq<Rule>, b: seq<Rule>)
    requires multiset(a) == multiset(b)
    ensures FlawOf(a) == FlawOf(b)
    ensures Coherent(a) <==> Coherent(b)
    ensures Coherent(a) ==> SortById(a) == SortById(b)
  {
    SameLength(a, b);
    if DistinctIds(a) { PermutedSorts(a, b); }
    if DistinctIds(b) { PermutedSorts(b, a); }
  }

  lemma PermutedSorts(a: seq<Rule>, b: seq<Rule>)
    requires multiset(a) == multiset(b) && DistinctIds(a)
    ensures DistinctIds(b) && SortById(a) == SortById(b) && Total(a) == Total(b)
  {
    PermutedIdsDistinct(a, b);
    SortOrders(a);
    SortOrders(b);
    OrderUnique(SortById(a), SortById(b));
    SortTotal(a);
    SortTotal(b);
  }

  lemma PermutedIdsDistinct(a: seq<Rule>, b: seq<Rule>)
    requires multiset(a) == multiset(b) && DistinctIds(a)
    ensures DistinctIds(b)
  {
    forall i, j | 0 <= i < j < |b| ensures b[i].id != b[j].id {
      assert b[i] in multiset(b) && b[j] in multiset(b);
      var p :| 0 <= p < |a| && a[p] == b[i];
      var q :| 0 <= q < |a| && a[q] == b[j];
      if b[i].id == b[j].id {
        assert p == q;
        Twice(b, i, j);
        OccursOnce(a, p);
      }
    }
  }

  lemma Twice(b: seq<Rule>, i: int, j: int)
    requires 0 <= i < j < |b| && b[i] == b[j]
    ensures multiset(b)[b[i]] >= 2
  {
    assert b == b[..i] + [b[i]] + b[i + 1..j] + [b[j]] + b[j + 1..];
  }

  lemma OccursOnce(a: seq<Rule>, p: int)
    requires DistinctIds(a) && 0 <= p < |a|
    ensures multiset(a)[a[p]] == 1
  {
    assert a == a[..p] + [a[p]] + a[p + 1..];
    assert a[p] !in a[..p] && a[p] !in a[p + 1..];
  }

  /** A valid schedule written out and read back is accepted and is itself. */
  lemma ScheduleRoundTrip(s: Schedule)
    requires ValidSchedule(s)
    ensures RulesFromWire(Print(s).rules) == Ok(s.rules)
    ensures SortById(s.rules) == s.rules
  {
    RulesRoundTrip(s.rules);
    SortOrders(s.rules);
    OrderUnique(SortById(s.rules), s.rules);
  }

  /** Storing a valid schedule and loading it again gives the schedule. */
  method StoreAndLoad(s: Schedule) returns (r: Result<Schedule, ScheduleError>)
    requires ValidSchedule(s)
    ensures r == Ok(s)
  {
    ScheduleRoundTrip(s);
    r := Parse(Print(s));
  }

  lemma {:induction false} RulesRoundTrip(rules: seq<Rule>)
    requires RulesValid(rules)
    ensures RulesFromWire(RulesToWire(rules)) == Ok(rules)
  {
    hide ToWire, FromWire, ValidRule;
    if rules != [] {
      RuleWireRoundTrip(rules[0]);
      RulesRoundTrip(rules[1..]);
      var wires := RulesToWire(rules);
      assert wires[1..] == RulesToWire(rules[1..]);
      assert FromWire(wires[0]) == Ok(rules[0]) && RulesFromWire(wires[1..]) == Ok(rules[1..]);
      assert rules == [rules[0]] + rules[1..];
    }
  }
}
