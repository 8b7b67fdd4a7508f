/** Rolling a schedule along a simulated clock: what leaves an inventory, what
    replaces it, and how much work a snapshot can come to. */
module Rolling {
  import opened Results
  import opened Ordering
  import opened Gregorian
  import opened Zones
  import opened ExpiryRules
  import opened Schedules
  import opened Timelines
  import opened Planner
  import opened Inventory

  const USIZE_MAX: int := 0xFFFF_FFFF_FFFF_FFFF
  const I64_MAX: int := 0x7FFF_FFFF_FFFF_FFFF

  /** The longest time difference chrono represents, in whole seconds. */
  const MAX_DELTA_SECONDS: int := I64_MAX / 1000

  const DEFAULT_CHAIN_SIZE: nat := 30

  // ----- Rolling one rule -----

  /** Two moments of one rule's inventory. */
  ghost predicate TwoMoments(s: Schedule, rule: Rule, t: int, u: int, before: set<int>, after: set<int>) {
    t <= u && IsProjection(s, rule, t, before) && IsProjection(s, rule, u, after)
  }

  /** Between two moments, an expiration leaves a rule's inventory exactly when
      its cutoff has been reached, as many come in as went, and those that come
      in are later than all that were there. */
  lemma RollForward(s: Schedule, rule: Rule, t: int, u: int, before: set<int>, after: set<int>)
    requires TwoMoments(s, rule, t, u, before, after)
    ensures forall e :: e in before ==> (e !in after <==> e <= u)
    ensures |after - before| == |before - after|
    ensures forall e, prior :: e in after - before && prior in before ==> prior < e
  {
    hide RuleDate, InstantOf;
    var line, later := TimelineOf(s, rule.kind, t), TimelineOf(s, rule.kind, u);
    assert forall e :: line.IsExpiration(e) <==> later.IsExpiration(e);
    forall e | e in before && u < e ensures e in after {
      if e !in after {
        forall b | b in after ensures b in before { assert b < e; }
        SubsetSize(after, before);
      }
    }
    assert before == (before - after) + (before * after) && after == (after - before) + (before * after);
  }

  /** A run: non-decreasing instants, each with the rule's inventory at it. */
  ghost predicate IsRun(s: Schedule, rule: Rule, times: seq<int>, inventories: seq<set<int>>) {
    && |times| == |inventories|
    && (forall i, j :: 0 <= i <= j < |times| ==> times[i] <= times[j])
    && (forall i :: 0 <= i < |times| ==> IsProjection(s, rule, times[i], inventories[i]))
  }

  /** Over any run, no step is short or holds an expired entry, and what has
      left never comes back. */
  lemma RunsNeverGoBack(s: Schedule, rule: Rule, times: seq<int>, inventories: seq<set<int>>, i: nat, j: nat, k: nat,
      e: int)
    requires IsRun(s, rule, times, inventories) && i <= j <= k < |times|
    requires e in inventories[i] && e !in inventories[j]
    ensures e <= times[j] && e !in inventories[k]
    ensures |inventories[k]| == rule.count && forall x :: x in inventories[k] ==> times[k] < x
  {
    RollForward(s, rule, times[i], times[j], inventories[i], inventories[j]);
    RollForward(s, rule, times[i], times[k], inventories[i], inventories[k]);
  }

  // ----- The simulated clock -----

  /** The instants chrono represents, in whole seconds. */
  predicate InstantFits(t: int) {
    DAY_SECONDS * MIN_DAY <= t < DAY_SECONDS * (MAX_DAY + 1)
  }

  /** The instant at `cursor`, with every product, difference and sum checked. */
  function SimulatedAt(start: int, interval: nat, cursor: nat): Option<int> {
    if cursor > I64_MAX || interval > I64_MAX || cursor * interval > I64_MAX then None
    else if cursor * interval > MAX_DELTA_SECONDS then None
    else if !InstantFits(start + cursor * interval) then None
    else Some(start + cursor * interval)
  }

  lemma LargerProduct(a: nat, b: nat, m: nat)
    requires a < b && m >= 1
    ensures a * m + m <= b * m
  {
    var gap: nat := b - a - 1;
    assert (a + 1 + gap) * m == a * m + m + gap * m;
  }

  /** A clock that reaches a cursor reaches every earlier one, at a strictly
      earlier instant. */
  lemma ClockIncreases(start: int, interval: nat, a: nat, b: nat)
    requires interval >= 1 && a < b && InstantFits(start) && SimulatedAt(start, interval, b).Some?
    ensures SimulatedAt(start, interval, a).Some?
    ensures SimulatedAt(start, interval, a).value < SimulatedAt(start, interval, b).value
  {
    hide YearStart;
    LargerProduct(a, b, interval);
  }

  /** The clock starts at `start` and moves by `interval` a step; it reaches a
      cursor exactly when the instant there is representable. */
  lemma ClockTicks(start: int, interval: nat, cursor: nat)
    requires 1 <= interval <= I64_MAX && InstantFits(start)
    ensures SimulatedAt(start, interval, 0) == Some(start)
    ensures SimulatedAt(start, interval, cursor).Some? <==> InstantFits(start + cursor * interval)
    ensures SimulatedAt(start, interval, cursor + 1).Some? ==>
              && SimulatedAt(start, interval, cursor).Some?
              && SimulatedAt(start, interval, cursor + 1).value == SimulatedAt(start, interval, cursor).value + interval
  {
    assert 0 * interval == 0 && (cursor + 1) * interval == cursor * interval + interval;
    assert cursor <= cursor * interval;
    assert DAY_SECONDS * (MAX_DAY + 1) - DAY_SECONDS * MIN_DAY <= MAX_DELTA_SECONDS <= I64_MAX;
  }

  // ----- Snapshot work -----

  datatype WorkError = StrikesOverflow | ExpirationsOverflow | ContractsOverflow | OverCap(contracts: nat)

  /** A chain of half-width `size` is `2 * size + 1` strikes wide. */
  function StrikesPerChain(size: nat): Option<nat> {
    if size * 2 > USIZE_MAX || size * 2 + 1 > USIZE_MAX then None else Some(size * 2 + 1)
  }

  /** Refuses a configuration whose every snapshot would price more contracts
      than the cap. */
  method ValidateSnapshotWork(chainSize: Option<nat>, rules: seq<Rule>, cap: nat) returns (r: Result<(), WorkError>)
    requires cap <= USIZE_MAX
    ensures var size := if chainSize.Some? then chainSize.value else DEFAULT_CHAIN_SIZE;
            && (r.Ok? ==> (2 * size + 1) * Total(rules) <= cap)
            && (r.Err? ==> 2 * size + 1 > USIZE_MAX || Total(rules) > USIZE_MAX || (2 * size + 1) * Total(rules) > cap)
            && (r == Err(StrikesOverflow) <==> 2 * size + 1 > USIZE_MAX)
            && (r == Err(ExpirationsOverflow) <==> 2 * size + 1 <= USIZE_MAX && Total(rules) > USIZE_MAX)
            && (r.Err? && r.error.OverCap? ==> r.error.contracts == (2 * size + 1) * Total(rules) <= USIZE_MAX)
            && (r == Err(ContractsOverflow) ==> (2 * size + 1) * Total(rules) > USIZE_MAX)
  {
    var requested := if chainSize.Some? then chainSize.value else DEFAULT_CHAIN_SIZE;
    var strikes := StrikesPerChain(requested);
    if strikes.None? { return Err(StrikesOverflow); }
    var expirations := 0;
    for k := 0 to |rules|
      invariant expirations == Total(rules[..k]) <= USIZE_MAX
    {
      assert rules[..k + 1][..k] == rules[..k];
      if expirations + rules[k].count > USIZE_MAX {
        TotalOfSplit(rules[..k + 1], rules[k + 1..]);
        assert rules == rules[..k + 1] + rules[k + 1..];
        return Err(ExpirationsOverflow);
      }
      expirations := expirations + rules[k].count;
    }
    assert rules[..|rules|] == rules;
    var contracts := strikes.value * expirations;
    if contracts > USIZE_MAX { return Err(ContractsOverflow); }
    if contracts > cap { return Err(OverCap(contracts)); }
    return Ok(());
  }

  lemma ProductBound(entries: nat, total: nat, strikes: nat, cap: nat)
    requires entries <= total && strikes * total <= cap
    ensures strikes * entries <= cap
  {
  }

  /** An accepted configuration stays under the cap at every step of its clock:
      the live expirations times the strikes of a chain never exceed it, and
      every one of them has time left. */
  lemma EverySnapshotUnderCap(s: Schedule, chainSize: nat, cap: nat, start: int, interval: nat, cursor: nat,
      out: seq<ActiveExpiry>)
    requires (2 * chainSize + 1) * Total(s.rules) <= cap
    requires SimulatedAt(start, interval, cursor).Some?
    requires IsInventory(s, SimulatedAt(start, interval, cursor).value, out)
    ensures (2 * chainSize + 1) * |out| <= cap
    ensures forall a :: a in out ==>
              var days := DaysToExpiration(a.expiresAt, SimulatedAt(start, interval, cursor).value);
              days.Some? && days.value > 0.0
  {
    var t := SimulatedAt(start, interval, cursor).value;
    InventorySize(s, t, out);
    ProductBound(|out|, Total(s.rules), 2 * chainSize + 1, cap);
    forall a | a in out
      ensures DaysToExpiration(a.expiresAt, t).Some? && DaysToExpiration(a.expiresAt, t).value > 0.0
    {
      EntriesLieAhead(s, t, out, a);
    }
  }
}
