/** The live expirations of a schedule at one instant: every rule projected, the
    coincident ones merged under the labels of all their rules. */
module Inventory {
  import opened Results
  import opened Ordering
  import opened Gregorian
  import opened Zones
  import opened ExpiryRules
  import opened Schedules
  import opened Timelines
  import opened Planner
  import Periods

  /** One physical expiration and the ids of every rule it satisfies. */
  datatype ActiveExpiry = ActiveExpiry(expiresAt: int, labels: seq<string>)

  /** Projects one rule to exactly its `count` earliest expirations strictly
      after `t`. It succeeds exactly when that many are reachable: the scan
      budgets never run out first, so the source's closing check for a short
      projection has nothing left to report. */
  method ProjectRule(s: Schedule, rule: Rule, t: int) returns (r: Result<set<int>, ProjectionError>)
    requires Plannable(s, t) && ValidRule(rule)
    ensures r.Ok? ==> IsProjection(s, rule, t, r.value)
    ensures r.Ok? <==> Reachable(s, rule, t)
    ensures r.Err? ==>
              r.error == ProjectionError(rule.id,
                if rule.kind.Daily? || rule.kind.Weekly? then Periods.DateOverflows else Periods.OutsideDates)
  {
    hide YearStart, MonthStart, YearOf, MonthLineOf, InstantFor, RuleDate, PeriodAgrees, DayAgrees;
    var start := s.zone.LocalDate(t);
    ghost var line := TimelineOf(s, rule.kind, t);
    ghost var stop;
    TimelineIsSound(s, rule.kind, t);
    if rule.kind.Daily? || rule.kind.Weekly? {
      DayKindsAgree(s, rule.kind, t);
      DayBudgetSuffices(s, rule.kind, t, rule.count);
      r, stop := ScanDays(s, rule, start, t, MAX_DAY, line);
      if r.Ok? {
        line.PrefixIsFirst(start, stop, r.value);
        line.AsManyInstants(line.Live(start, stop));
        line.LiveGrows(start, stop, MAX_DAY + 1);
      }
    } else {
      forall index: nat | index <= MAX_PERIODS ensures PeriodAgrees(s, rule.kind, line, start, index) {
        PeriodsAgree(s, rule.kind, t, index);
      }
      ghost var from := Edge(rule.kind, Origin(rule.kind, start));
      StartsInOrigin(rule.kind, start);
      r, stop := ScanPeriods(s, rule, start, t, line, from, Limit(rule.kind));
      line.StartEarlier(from, Limit(rule.kind));
      if r.Ok? {
        line.PrefixIsFirst(from, stop, r.value);
      }
    }
  }

  /** A rule's dates are reachable as long as the calendar does not end within
      the scan: days for a daily or weekly rule, periods for the others. */
  ghost predicate FarFromTheEnd(kind: RuleKind, start: int, count: nat) {
    if kind.Daily? || kind.Weekly? then start + 8 * count + DAY_SCAN_SLACK <= MAX_DAY + 1
    else LineIn(kind, Origin(kind, start) + count) < Periods.Line(MAX_YEAR, 12)
  }

  /** Far from the end of the calendar no rule is ever short. */
  lemma NeverShort(s: Schedule, rule: Rule, t: int)
    requires Plannable(s, t) && ValidRule(rule)
    requires FarFromTheEnd(rule.kind, s.zone.LocalDate(t), rule.count)
    ensures Reachable(s, rule, t)
  {
    var line := TimelineOf(s, rule.kind, t);
    TimelineIsSound(s, rule.kind, t);
    if rule.kind.Daily? || rule.kind.Weekly? {
      hide YearStart, RuleDate, InstantFor;
      DayBudgetSuffices(s, rule.kind, t, rule.count);
      line.LiveGrows(line.today, line.today + 8 * rule.count + DAY_SCAN_SLACK, MAX_DAY + 1);
    } else {
      hide DayIn, Edge, RuleDate, InstantFor, PeriodAgrees;
      PeriodsNeverShort(s, rule.kind, t, rule.count, line);
    }
  }

  lemma PeriodsNeverShort(s: Schedule, kind: RuleKind, t: int, count: nat, line: Timeline)
    requires Plannable(s, t) && ValidPeriodKind(kind) && count <= MAX_TARGET_COUNT
    requires line == TimelineOf(s, kind, t) && line.Sound()
    requires LineIn(kind, Origin(kind, line.today) + count) < Periods.Line(MAX_YEAR, 12)
    ensures |line.Live(line.today, Limit(kind))| >= count
  {
    hide DayIn, Limit, Edge, Origin, PeriodDate, PeriodAgrees, DayAgrees, RuleDate, InstantOf;
    var p0 := Origin(kind, line.today);
    var from := Edge(kind, p0);
    forall index: nat | index <= MAX_PERIODS ensures PeriodAgrees(s, kind, line, line.today, index) {
      PeriodsAgree(s, kind, t, index);
    }
    LimitOnTheLine(kind, p0 + count);
    LivePeriods(s, kind, line, line.today, count, from);
    LivePeriods(s, kind, line, line.today, count + 1, from);
    PeriodStep(s, kind, line, line.today, count, from, Limit(kind));
    StartsInOrigin(kind, line.today);
    line.StartEarlier(from, Limit(kind));
  }

  // ----- Merging -----

  /** Adds `id` to the labels of every instant in `found`. */
  function AddLabel(merged: map<int, set<string>>, found: set<int>, id: string): map<int, set<string>> {
    map e | e in merged.Keys + found ::
      (if e in merged then merged[e] else {}) + (if e in found then {id} else {})
  }

  /** The instants of an inventory that carry a label. */
  ghost function Labelled(out: seq<ActiveExpiry>, id: string): set<int> {
    set a | a in out && id in a.labels :: a.expiresAt
  }

  ghost predicate Chronological(out: seq<ActiveExpiry>) {
    forall i, j :: 0 <= i < j < |out| ==> out[i].expiresAt < out[j].expiresAt
  }

  /** The inventory at `t`: strictly chronological, every entry labelled with
      its rules and nothing else, and each rule's label on exactly the first
      `count` of its expirations. */
  ghost predicate IsInventory(s: Schedule, t: int, out: seq<ActiveExpiry>) {
    && Chronological(out)
    && (forall a :: a in out ==> a.labels != [] && Ascending(a.labels) && Elements(a.labels) <= Ids(s.rules))
    && (forall rule :: rule in s.rules ==> IsProjection(s, rule, t, Labelled(out, rule.id)))
  }

  lemma LeastComesNext(r: seq<int>, rest: set<int>, least: int)
    requires AscendingInts(r) && forall x, y :: x in r && y in rest ==> x < y
    requires least in rest && forall x :: x in rest ==> least <= x
    ensures AscendingInts(r + [least]) && Elements(r + [least]) == Elements(r) + {least}
    ensures forall x, y :: x in r + [least] && y in rest - {least} ==> x < y
  {
    assert forall i :: 0 <= i < |r| ==> r[i] in r;
  }

  method ListInts(items: set<int>) returns (r: seq<int>)
    ensures AscendingInts(r) && Elements(r) == items
  {
    var rest := items;
    r := [];
    assert AscendingInts(r) && Elements(r) == {};
    hide AscendingInts, Elements;
    while rest != {}
      invariant rest <= items && AscendingInts(r) && Elements(r) == items - rest
      invariant forall x, y :: x in r && y in rest ==> x < y
      decreases |rest|
    {
      ghost var first := LeastInt(rest);
      var least :| least in rest && forall x :: x in rest ==> least <= x;
      LeastComesNext(r, rest, least);
      r := r + [least];
      rest := rest - {least};
    }
  }

  lemma LeastStringNext(r: seq<string>, least: string)
    requires Ascending(r) && forall x :: x in r ==> Before(x, least)
    ensures Ascending(r + [least]) && Elements(r + [least]) == Elements(r) + {least}
  {
    hide Before;
    assert forall i :: 0 <= i < |r| ==> r[i] in r;
  }

  method ListStrings(items: set<string>) returns (r: seq<string>)
    ensures Ascending(r) && Elements(r) == items
  {
    var rest := items;
    r := [];
    assert Ascending(r) && Elements(r) == {};
    hide Ascending, Elements, Before;
    while rest != {}
      invariant rest <= items && Ascending(r) && Elements(r) == items - rest
      invariant forall x, y :: x in r && y in rest ==> Before(x, y)
      decreases |rest|
    {
      ghost var first := LeastString(rest);
      var least :| least in rest && forall x :: x in rest && x != least ==> Before(least, x);
      LeastStringNext(r, least);
      r := r + [least];
      rest := rest - {least};
    }
  }

  /** What the merge loop has after some of the rules: their projections, each
      under its own label. */
  ghost predicate MergedSoFar(s: Schedule, t: int, rules: seq<Rule>, merged: map<int, set<string>>) {
    && (forall e :: e in merged ==> merged[e] != {} && merged[e] <= Ids(rules))
    && (forall rule :: rule in rules ==> IsProjection(s, rule, t, set e | e in merged && rule.id in merged[e]))
  }

  lemma MergeOneMore(s: Schedule, t: int, rules: seq<Rule>, merged: map<int, set<string>>, rule: Rule, found: set<int>)
    requires MergedSoFar(s, t, rules, merged) && IsProjection(s, rule, t, found)
    requires rule.id !in Ids(rules)
    ensures MergedSoFar(s, t, rules + [rule], AddLabel(merged, found, rule.id))
  {
    hide IsProjection;
    var next := AddLabel(merged, found, rule.id);
    assert Ids(rules + [rule]) == Ids(rules) + {rule.id} by {
      assert rule in rules + [rule];
      forall r | r in rules ensures r in rules + [rule] {}
    }
    forall e | e in next ensures rule.id in next[e] <==> e in found {
      if e in merged { assert merged[e] <= Ids(rules); }
    }
    assert (set e | e in next && rule.id in next[e]) == found;
    forall other | other in rules
      ensures IsProjection(s, other, t, set e | e in next && other.id in next[e])
    {
      assert other.id in Ids(rules);
      assert (set e | e in next && other.id in next[e]) == (set e | e in merged && other.id in merged[e]);
    }
  }

  /** `out` lists a merged map in order of instant. */
  ghost predicate Lists(out: seq<ActiveExpiry>, instants: seq<int>, merged: map<int, set<string>>) {
    && |out| == |instants|
    && AscendingInts(instants) && Elements(instants) == merged.Keys
    && forall i :: 0 <= i < |out| ==>
         instants[i] in merged && out[i].expiresAt == instants[i] && Ascending(out[i].labels) &&
           Elements(out[i].labels) == merged[instants[i]]
  }

  lemma ListedLabels(out: seq<ActiveExpiry>, instants: seq<int>, merged: map<int, set<string>>, id: string)
    requires Lists(out, instants, merged)
    ensures Labelled(out, id) == set e | e in merged && id in merged[e]
  {
    forall e | e in merged && id in merged[e] ensures e in Labelled(out, id) {
      assert e in Elements(instants);
      var i :| 0 <= i < |instants| && instants[i] == e;
      assert out[i] in out && id in Elements(out[i].labels);
    }
    forall a | a in out && id in a.labels ensures a.expiresAt in merged && id in merged[a.expiresAt] {
      assert id in Elements(a.labels);
    }
  }

  lemma ListedIsInventory(s: Schedule, t: int, out: seq<ActiveExpiry>, instants: seq<int>,
      merged: map<int, set<string>>)
    requires Lists(out, instants, merged) && MergedSoFar(s, t, s.rules, merged)
    ensures IsInventory(s, t, out)
  {
    hide IsProjection;
    forall a | a in out
      ensures a.labels != [] && Ascending(a.labels) && Elements(a.labels) <= Ids(s.rules)
    {
      var i :| 0 <= i < |out| && out[i] == a;
      assert merged[instants[i]] != {};
    }
    forall rule | rule in s.rules ensures IsProjection(s, rule, t, Labelled(out, rule.id)) {
      ListedLabels(out, instants, merged, rule.id);
    }
  }

  /** Rule `k` cannot be projected, and every rule before it can. */
  ghost predicate FirstUnreachable(s: Schedule, k: nat, t: int)
    requires k < |s.rules|
  {
    !Reachable(s, s.rules[k], t) && forall j :: 0 <= j < k ==> Reachable(s, s.rules[j], t)
  }

  /** Every expiration alive at `t`, in chronological order. It fails exactly
      when some rule cannot be projected, naming the first such rule. */
  method ActiveAt(s: Schedule, t: int) returns (r: Result<seq<ActiveExpiry>, ProjectionError>)
    requires Plannable(s, t) && ValidSchedule(s)
    ensures r.Ok? ==> IsInventory(s, t, r.value)
    ensures r.Ok? <==> forall k :: 0 <= k < |s.rules| ==> Reachable(s, s.rules[k], t)
    ensures r.Err? ==> exists k :: 0 <= k < |s.rules| && r.error.rule == s.rules[k].id && FirstUnreachable(s, k, t)
  {
    hide IsProjection, Reachable;
    var merged: map<int, set<string>> := map[];
    for k := 0 to |s.rules|
      invariant MergedSoFar(s, t, s.rules[..k], merged)
      invariant forall j :: 0 <= j < k ==> Reachable(s, s.rules[j], t)
    {
      var rule := s.rules[k];
      var found := ProjectRule(s, rule, t);
      if found.Err? {
        assert FirstUnreachable(s, k, t);
        return Err(found.error);
      }
      IdIsNew(s.rules, k);
      MergeOneMore(s, t, s.rules[..k], merged, rule, found.value);
      assert s.rules[..k + 1] == s.rules[..k] + [rule];
      merged := AddLabel(merged, found.value, rule.id);
    }
    assert s.rules[..|s.rules|] == s.rules;
    var instants := ListInts(merged.Keys);
    var out: seq<ActiveExpiry> := [];
    for i := 0 to |instants|
      invariant |out| == i
      invariant forall j :: 0 <= j < i ==>
        && instants[j] in merged && out[j].expiresAt == instants[j]
        && Ascending(out[j].labels) && Elements(out[j].labels) == merged[instants[j]]
    {
      assert instants[i] in Elements(instants);
      var labels := ListStrings(merged[instants[i]]);
      out := out + [ActiveExpiry(instants[i], labels)];
    }
    ListedIsInventory(s, t, out, instants, merged);
    return Ok(out);
  }

  lemma IdIsNew(rules: seq<Rule>, k: nat)
    requires DistinctIds(rules) && k < |rules|
    ensures rules[k].id !in Ids(rules[..k])
  {
  }

  // ----- What the inventory does not depend on -----

  /** A rule's labelled instants depend on the rule alone, so adding other rules
      to a schedule, or removing them, leaves them where they were. */
  lemma OtherRulesChangeNothing(a: Schedule, b: Schedule, t: int, x: seq<ActiveExpiry>, y: seq<ActiveExpiry>,
      rule: Rule)
    requires a.zone == b.zone && a.time == b.time && rule in a.rules && rule in b.rules
    requires IsInventory(a, t, x) && IsInventory(b, t, y)
    ensures Labelled(x, rule.id) == Labelled(y, rule.id)
  {
    SameClock(a, b, rule, t, Labelled(y, rule.id));
    TimelineOf(a, rule.kind, t).FirstUnique(rule.count, Labelled(x, rule.id), Labelled(y, rule.id));
  }

  lemma SameClock(a: Schedule, b: Schedule, rule: Rule, t: int, found: set<int>)
    requires a.zone == b.zone && a.time == b.time && IsProjection(b, rule, t, found)
    ensures IsProjection(a, rule, t, found)
  {
    var p, q := TimelineOf(a, rule.kind, t), TimelineOf(b, rule.kind, t);
    hide RuleDate;
    forall day ensures p.clock(day) == q.clock(day) && (p.dates(day) <==> q.dates(day)) {
      assert InstantOf(a, day) == InstantOf(b, day);
    }
    assert forall e :: p.IsExpiration(e) <==> q.IsExpiration(e);
  }

  /** Listing the rules in another order gives the same inventory, entry by
      entry and label by label. */
  lemma RuleOrderChangesNothing(a: Schedule, b: Schedule, t: int, x: seq<ActiveExpiry>, y: seq<ActiveExpiry>)
    requires a.zone == b.zone && a.time == b.time && multiset(a.rules) == multiset(b.rules)
    requires IsInventory(a, t, x) && IsInventory(b, t, y)
    ensures x == y
  {
    hide IsProjection;
    forall rule | rule in a.rules || rule in b.rules ensures Labelled(x, rule.id) == Labelled(y, rule.id) {
      assert rule in multiset(a.rules) <==> rule in multiset(b.rules);
      OtherRulesChangeNothing(a, b, t, x, y, rule);
    }
    EntriesCarryOver(a, b, x, y);
    EntriesCarryOver(b, a, y, x);
    ListingUnique(x, y);
  }

  ghost predicate WellLabelled(rules: seq<Rule>, out: seq<ActiveExpiry>) {
    && Chronological(out)
    && forall a :: a in out ==> a.labels != [] && Ascending(a.labels) && Elements(a.labels) <= Ids(rules)
  }

  lemma EntriesCarryOver(a: Schedule, b: Schedule, x: seq<ActiveExpiry>, y: seq<ActiveExpiry>)
    requires WellLabelled(a.rules, x) && WellLabelled(b.rules, y)
    requires forall rule :: rule in a.rules || rule in b.rules ==> Labelled(x, rule.id) == Labelled(y, rule.id)
    ensures forall entry :: entry in x ==> entry in y
  {
    forall entry | entry in x ensures entry in y {
      assert entry.labels[0] in Elements(entry.labels);
      var rule :| rule in a.rules && rule.id == entry.labels[0];
      assert entry.expiresAt in Labelled(y, rule.id);
      var other :| other in y && other.expiresAt == entry.expiresAt;
      LabelsCarryOver(a.rules, x, y, entry, other);
      LabelsCarryOver(b.rules, y, x, other, entry);
      AscendingUnique(entry.labels, other.labels);
    }
  }

  lemma LabelsCarryOver(rules: seq<Rule>, x: seq<ActiveExpiry>, y: seq<ActiveExpiry>, entry: ActiveExpiry,
      other: ActiveExpiry)
    requires WellLabelled(rules, x) && Chronological(y)
    requires entry in x && other in y && entry.expiresAt == other.expiresAt
    requires forall rule :: rule in rules ==> Labelled(x, rule.id) == Labelled(y, rule.id)
    ensures Elements(entry.labels) <= Elements(other.labels)
  {
    forall id | id in entry.labels ensures id in other.labels {
      assert id in Elements(entry.labels);
      var rule :| rule in rules && rule.id == id;
      assert entry.expiresAt in Labelled(y, id);
      var there :| there in y && id in there.labels && there.expiresAt == entry.expiresAt;
      var i, j :| 0 <= i < |y| && 0 <= j < |y| && y[i] == there && y[j] == other;
    }
  }

  /** Entries in chronological order are determined by which entries they are. */
  lemma {:induction false} ListingUnique(x: seq<ActiveExpiry>, y: seq<ActiveExpiry>)
    requires Chronological(x) && Chronological(y)
    requires forall a :: a in x <==> a in y
    ensures x == y
  {
    assert (x != [] ==> x[0] in y) && (y != [] ==> y[0] in x);
    if x != [] && y != [] {
      assert x[0] == y[0];
      forall a ensures a in x[1..] <==> a in y[1..] {
        assert a in x <==> a == x[0] || a in x[1..];
        assert a in y <==> a == y[0] || a in y[1..];
      }
      ListingUnique(x[1..], y[1..]);
      assert x == [x[0]] + x[1..] && y == [y[0]] + y[1..];
    }
  }

  // ----- How many entries, and how far away -----

  ghost function Covered(out: seq<ActiveExpiry>, rules: seq<Rule>): set<int> {
    set a, rule | a in out && rule in rules && rule.id in a.labels :: a.expiresAt
  }

  /** Merging only ever shrinks the inventory: it holds at most the sum of the
      rules' counts. */
  lemma InventorySize(s: Schedule, t: int, out: seq<ActiveExpiry>)
    requires IsInventory(s, t, out)
    ensures |out| <= Total(s.rules)
  {
    CoveredSize(s, t, out, s.rules);
    var instants := set a | a in out :: a.expiresAt;
    forall a | a in out ensures a.expiresAt in Covered(out, s.rules) {
      assert a.labels[0] in Elements(a.labels);
      var rule :| rule in s.rules && rule.id == a.labels[0];
    }
    SubsetSize(instants, Covered(out, s.rules));
    AsManyInstantsAsEntries(out);
  }

  lemma {:induction false} AsManyInstantsAsEntries(out: seq<ActiveExpiry>)
    requires Chronological(out)
    ensures |set a | a in out :: a.expiresAt| == |out|
  {
    if out != [] {
      var rest, last := out[..|out| - 1], out[|out| - 1];
      AsManyInstantsAsEntries(rest);
      var before := set a | a in rest :: a.expiresAt;
      assert last.expiresAt !in before;
      assert out == rest + [last];
      assert (set a | a in out :: a.expiresAt) == before + {last.expiresAt};
    }
  }

  lemma CoveredByOneMore(out: seq<ActiveExpiry>, rest: seq<Rule>, last: Rule)
    ensures Covered(out, rest + [last]) == Covered(out, rest) + Labelled(out, last.id)
  {
  }

  lemma {:induction false} CoveredSize(s: Schedule, t: int, out: seq<ActiveExpiry>, rules: seq<Rule>)
    requires forall rule :: rule in rules ==> IsProjection(s, rule, t, Labelled(out, rule.id))
    ensures |Covered(out, rules)| <= Total(rules)
  {
    if rules == [] {
      assert Covered(out, rules) == {};
    } else {
      var rest, last := rules[..|rules| - 1], rules[|rules| - 1];
      assert last in rules && IsProjection(s, last, t, Labelled(out, last.id));
      assert |Labelled(out, last.id)| == last.count;
      hide IsProjection, Labelled;
      assert rules == rest + [last];
      CoveredSize(s, t, out, rest);
      CoveredByOneMore(out, rest, last);
    }
  }

  /** Days remaining, as a fraction, until an expiration. */
  function DaysToExpiration(expiresAt: int, t: int): (days: Option<real>)
    ensures days.Some? <==> t < expiresAt
    ensures days.Some? ==> days.value * 86400.0 == (expiresAt - t) as real
  {
    if expiresAt - t <= 0 then None else Some((expiresAt - t) as real / DAY_SECONDS as real)
  }

  /** No entry of an inventory has expired: its days remaining are positive. */
  lemma EntriesLieAhead(s: Schedule, t: int, out: seq<ActiveExpiry>, a: ActiveExpiry)
    requires IsInventory(s, t, out) && a in out
    ensures t < a.expiresAt
    ensures DaysToExpiration(a.expiresAt, t).Some? && DaysToExpiration(a.expiresAt, t).value > 0.0
  {
    assert a.labels[0] in Elements(a.labels);
    var rule :| rule in s.rules && rule.id == a.labels[0];
    assert a.expiresAt in Labelled(out, rule.id);
  }
}
