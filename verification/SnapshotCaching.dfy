/** The bounded snapshot cache: least recently used out first, under a bound on
    entries and a bound on the contracts they hold. */
module SnapshotCaching {
  import opened Results
  import Ordering

  const USIZE_MAX: nat := 0xFFFF_FFFF_FFFF_FFFF

  type Key = (nat, nat)

  datatype Entry<S> = Entry(snapshot: S, lastAccess: nat, contracts: nat)

  function SaturatingAdd(a: nat, b: nat): nat {
    if a + b > USIZE_MAX then USIZE_MAX else a + b
  }

  function SaturatingSub(a: nat, b: nat): nat {
    if a < b then 0 else a - b
  }

  /** The eviction order: last access first, then the key. */
  predicate Older<S>(m: map<Key, Entry<S>>, a: Key, b: Key)
    requires a in m && b in m
  {
    || m[a].lastAccess < m[b].lastAccess
    || (m[a].lastAccess == m[b].lastAccess && (a.0 < b.0 || (a.0 == b.0 && a.1 < b.1)))
  }

  /** The contracts a map of entries holds. */
  ghost function Weight<S>(m: map<Key, Entry<S>>): nat
    decreases |m|
  {
    if m.Keys == {} then 0
    else
      var key :| key in m.Keys;
      assert (m - {key}).Keys == m.Keys - {key};
      m[key].contracts + Weight(m - {key})
  }

  lemma {:induction false} WeightSplits<S>(m: map<Key, Entry<S>>, key: Key)
    requires key in m
    ensures Weight(m) == m[key].contracts + Weight(m - {key})
    decreases |m|
  {
    var picked :| picked in m.Keys && Weight(m) == m[picked].contracts + Weight(m - {picked});
    if picked != key {
      assert (m - {picked}).Keys == m.Keys - {picked} && (m - {key}).Keys == m.Keys - {key};
      WeightSplits(m - {picked}, key);
      WeightSplits(m - {key}, picked);
      assert m - {picked} - {key} == m - {key} - {picked};
    }
  }

  /** `kept` is what is left of `all` when the oldest entries go first. */
  ghost predicate Newest<S(!new)>(kept: map<Key, Entry<S>>, all: map<Key, Entry<S>>) {
    && (forall key <- kept :: key in all && kept[key] == all[key])
    && (forall a, b | a in kept && b in all && Older(all, a, b) :: b in kept)
  }

  /** In plain terms: whatever went was accessed before whatever stayed or, where
      both were accessed at one tick, has the smaller key. */
  lemma OldestGoFirst<S(!new)>(kept: map<Key, Entry<S>>, all: map<Key, Entry<S>>)
    requires forall key <- kept :: key in all && kept[key] == all[key]
    ensures Newest(kept, all) <==>
              forall a, b | a in kept && b in all && b !in kept ::
                || all[b].lastAccess < all[a].lastAccess
                || (all[b].lastAccess == all[a].lastAccess && (b.0 < a.0 || (b.0 == a.0 && b.1 < a.1)))
  {
  }

  ghost predicate Fits<S>(m: map<Key, Entry<S>>, capacity: nat, budget: nat) {
    |m| <= capacity && Weight(m) <= budget
  }

  /** The longest most-recent part of `all` that fits both bounds. */
  ghost predicate LongestFit<S(!new)>(kept: map<Key, Entry<S>>, all: map<Key, Entry<S>>, capacity: nat, budget: nat) {
    && Newest(kept, all)
    && Fits(kept, capacity, budget)
    && forall other | Newest(other, all) && Fits(other, capacity, budget) :: other.Keys <= kept.Keys
  }

  /** There is one such part, so what an insertion keeps is determined. */
  lemma LongestFitIsUnique<S(!new)>(a: map<Key, Entry<S>>, b: map<Key, Entry<S>>, all: map<Key, Entry<S>>,
      capacity: nat, budget: nat)
    requires LongestFit(a, all, capacity, budget) && LongestFit(b, all, capacity, budget)
    ensures a == b
  {
    assert a.Keys == b.Keys;
  }

  /** Nothing is evicted that need not be. */
  lemma NothingIsEvictedInVain<S(!new)>(kept: map<Key, Entry<S>>, all: map<Key, Entry<S>>, capacity: nat, budget: nat)
    requires LongestFit(kept, all, capacity, budget)
    ensures Fits(all, capacity, budget) <==> kept == all
  {
    if Fits(all, capacity, budget) {
      assert Newest(all, all);
      assert kept.Keys == all.Keys;
    }
  }

  lemma NewestIsTransitive<S(!new)>(a: map<Key, Entry<S>>, b: map<Key, Entry<S>>, c: map<Key, Entry<S>>)
    requires Newest(b, c)
    ensures Newest(a, b) ==> Newest(a, c)
    ensures Newest(a, c) && a.Keys <= b.Keys ==> Newest(a, b)
  {
  }

  predicate Oldest<S>(entries: map<Key, Entry<S>>, victim: Key) {
    victim in entries && forall key <- entries :: key == victim || Older(entries, victim, key)
  }

  lemma OldestCarriesAll<S(!new)>(entries: map<Key, Entry<S>>, all: map<Key, Entry<S>>, victim: Key,
      other: map<Key, Entry<S>>)
    requires Newest(entries, all) && Newest(other, all) && Oldest(entries, victim) && victim in other
    ensures entries.Keys <= other.Keys
  {
    forall key <- entries ensures key in other {
      assert key == victim || Older(all, victim, key);
    }
  }

  /** The entry that goes next belongs to no most-recent part that is smaller
      than what is there. */
  lemma VictimIsOutside<S(!new)>(entries: map<Key, Entry<S>>, all: map<Key, Entry<S>>, victim: Key,
      other: map<Key, Entry<S>>)
    requires Newest(entries, all) && Newest(other, all) && Oldest(entries, victim)
    requires other.Keys < entries.Keys
    ensures other.Keys <= (entries - {victim}).Keys
  {
    if victim in other { OldestCarriesAll(entries, all, victim, other); }
  }

  lemma SameKeysSameWeight<S(!new)>(a: map<Key, Entry<S>>, b: map<Key, Entry<S>>, all: map<Key, Entry<S>>)
    requires Newest(a, all) && Newest(b, all) && a.Keys == b.Keys
    ensures Weight(a) == Weight(b)
  {
    assert a == b;
  }

  lemma VictimLeavesNewest<S(!new)>(entries: map<Key, Entry<S>>, all: map<Key, Entry<S>>, victim: Key)
    requires Newest(entries, all) && Oldest(entries, victim)
    ensures Newest(entries - {victim}, all)
  {
  }

  lemma AddedEntry<S(!new)>(kept: map<Key, Entry<S>>, key: Key, entry: Entry<S>)
    requires key !in kept
    ensures kept[key := entry] - {key} == kept && |kept[key := entry]| == |kept| + 1
    ensures Weight(kept[key := entry]) == Weight(kept) + entry.contracts
  {
    var m := kept[key := entry];
    assert m - {key} == kept && m.Keys == kept.Keys + {key};
    WeightSplits(m, key);
  }

  function Belonging(keys: set<Key>, simulation: nat): set<Key> {
    set key | key in keys && key.0 == simulation
  }

  /** What a client could read. */
  function Held<S>(m: map<Key, Entry<S>>): map<Key, S> {
    map key | key in m :: m[key].snapshot
  }

  lemma SameButForgotten<S(!new)>(before: map<Key, S>, after: map<Key, S>, key: Key)
    requires key in after
    requires forall other | other in after && other != key :: other in before && before[other] == after[other]
    ensures after == (before - ((before.Keys - after.Keys) + {key}))[key := after[key]]
  {
    var forgotten := (before.Keys - after.Keys) + {key};
    forall other ensures other in before - forgotten <==> other in after && other != key {}
  }

  /** For readers an insertion adds its snapshot and at most forgets others: the
      step the concurrent model takes when it stores one. */
  lemma InsertOnlyForgets<S(!new)>(before: map<Key, Entry<S>>, after: map<Key, Entry<S>>, key: Key,
      capacity: nat, budget: nat)
    requires key in after && LongestFit(after - {key}, before - {key}, capacity, budget)
    ensures Held(after) == (Held(before) - ((before.Keys - after.Keys) + {key}))[key := after[key].snapshot]
  {
    forall other | other in after && other != key ensures other in before && before[other] == after[other] {
      assert other in after - {key};
    }
    hide LongestFit;
    assert Held(before).Keys == before.Keys && Held(after).Keys == after.Keys;
    SameButForgotten(Held(before), Held(after), key);
  }

  class SnapshotCache<S(!new)> {
    var entries: map<Key, Entry<S>>
    var residentContracts: nat
    const capacity: nat
    const contractBudget: nat
    const weigh: S -> nat

    /** The running total is the true one and both bounds hold. */
    ghost predicate Valid()
      reads this
    {
      && Consistent()
      && |entries| <= capacity
      && residentContracts <= contractBudget
    }

    ghost predicate Consistent()
      reads this
    {
      && 1 <= capacity && 1 <= contractBudget <= USIZE_MAX
      && residentContracts == Weight(entries)
      && forall key <- entries :: entries[key].contracts == weigh(entries[key].snapshot)
    }

    /** Both bounds floor at one. */
    constructor WithBounds(capacity: nat, contractBudget: nat, weigh: S -> nat)
      requires contractBudget <= USIZE_MAX
      ensures Valid() && entries == map[] && this.weigh == weigh
      ensures this.capacity == (if capacity == 0 then 1 else capacity)
      ensures this.contractBudget == (if contractBudget == 0 then 1 else contractBudget)
    {
      entries := map[];
      residentContracts := 0;
      this.capacity := if capacity == 0 then 1 else capacity;
      this.contractBudget := if contractBudget == 0 then 1 else contractBudget;
      this.weigh := weigh;
    }

    /** Answers what is held, and refreshes it; the bounds are not touched. */
    method Get(key: Key, now: nat) returns (found: Option<S>)
      requires Valid()
      modifies this`entries
      ensures Valid()
      ensures found == if key in old(entries) then Some(old(entries)[key].snapshot) else None
      ensures entries ==
              if key in old(entries) then old(entries)[key := old(entries)[key].(lastAccess := now)] else old(entries)
    {
      if key !in entries { return None; }
      found := Some(entries[key].snapshot);
      WeightSplits(entries, key);
      ghost var before := entries;
      entries := entries[key := entries[key].(lastAccess := now)];
      WeightSplits(entries, key);
      assert entries - {key} == before - {key};
      assert entries.Keys == before.Keys;
    }

    /** The oldest key, or nothing when there is nothing. */
    method LeastRecentlyUsed() returns (victim: Option<Key>)
      ensures victim.None? <==> entries == map[]
      ensures victim.Some? ==> Oldest(entries, victim.value)
      ensures forall key | victim.Some? && key in entries ::
                && entries[victim.value].lastAccess <= entries[key].lastAccess
                && (entries[victim.value].lastAccess == entries[key].lastAccess ==>
                    victim.value.0 <= key.0 && (victim.value.0 == key.0 ==> victim.value.1 <= key.1))
    {
      var rest := entries.Keys;
      if rest == {} { return None; }
      var best :| best in rest;
      rest := rest - {best};
      while rest != {}
        invariant rest <= entries.Keys && best in entries
        invariant forall key <- entries :: key == best || key in rest || Older(entries, best, key)
        decreases |rest|
      {
        var key :| key in rest;
        if Older(entries, key, best) { best := key; }
        rest := rest - {key};
      }
      victim := Some(best);
    }

    method RemoveEntry(key: Key)
      requires Consistent()
      modifies this`entries, this`residentContracts
      ensures Consistent() && entries == old(entries) - {key}
      ensures key in old(entries) ==> residentContracts == old(residentContracts) - old(entries)[key].contracts
      ensures key !in old(entries) ==> residentContracts == old(residentContracts)
    {
      if key in entries {
        WeightSplits(entries, key);
        residentContracts := SaturatingSub(residentContracts, entries[key].contracts);
      } else {
        assert entries - {key} == entries;
      }
      entries := entries - {key};
    }

    /** Evicts the oldest entries until at most `max` remain. */
    method EvictTo(max: nat)
      requires Consistent()
      modifies this`entries, this`residentContracts
      ensures Consistent() && Newest(entries, old(entries)) && |entries| <= max
      ensures forall other | Newest(other, old(entries)) && |other| <= max :: other.Keys <= entries.Keys
    {
      while |entries| > max
        invariant Consistent() && Newest(entries, old(entries))
        invariant forall other | Newest(other, old(entries)) && |other| <= max :: other.Keys <= entries.Keys
        decreases |entries|
      {
        var victim := LeastRecentlyUsed();
        if victim.None? { break; }
        forall other | Newest(other, old(entries)) && |other| <= max
          ensures other.Keys <= (entries - {victim.value}).Keys
        {
          assert other.Keys != entries.Keys;
          VictimIsOutside(entries, old(entries), victim.value, other);
        }
        VictimLeavesNewest(entries, old(entries), victim.value);
        assert (entries - {victim.value}).Keys == entries.Keys - {victim.value};
        RemoveEntry(victim.value);
      }
    }

    /** Evicts the oldest entries until they hold at most `max` contracts. */
    method EvictToContracts(max: nat)
      requires Consistent()
      modifies this`entries, this`residentContracts
      ensures Consistent() && Newest(entries, old(entries)) && residentContracts <= max && |entries| <= old(|entries|)
      ensures forall other | Newest(other, old(entries)) && Weight(other) <= max :: other.Keys <= entries.Keys
    {
      while residentContracts > max
        invariant Consistent() && Newest(entries, old(entries)) && |entries| <= old(|entries|)
        invariant forall other | Newest(other, old(entries)) && Weight(other) <= max :: other.Keys <= entries.Keys
        decreases |entries|
      {
        var victim := LeastRecentlyUsed();
        if victim.None? { break; }
        forall other | Newest(other, old(entries)) && Weight(other) <= max
          ensures other.Keys <= (entries - {victim.value}).Keys
        {
          if other.Keys == entries.Keys { SameKeysSameWeight(other, entries, old(entries)); }
          VictimIsOutside(entries, old(entries), victim.value, other);
        }
        VictimLeavesNewest(entries, old(entries), victim.value);
        assert (entries - {victim.value}).Keys == entries.Keys - {victim.value};
        RemoveEntry(victim.value);
      }
    }

    /** Evicts for the entry bound, then for the budget: together they keep the
        longest most-recent part that fits both. */
    method MakeRoom(slots: nat, room: nat)
      requires Consistent()
      modifies this`entries, this`residentContracts
      ensures Consistent() && LongestFit(entries, old(entries), slots, room) && Fits(entries, slots, room)
      ensures entries.Keys <= old(entries).Keys
    {
      ghost var all := entries;
      EvictTo(slots);
      ghost var fewer := entries;
      EvictToContracts(room);
      NewestIsTransitive(entries, fewer, all);
      forall other | Newest(other, all) && Fits(other, slots, room) ensures other.Keys <= entries.Keys {
        NewestIsTransitive(other, fewer, all);
      }
    }

    /** Caches a snapshot unless it is heavier than the whole budget, keeping
        the longest most-recent part of the others that still fits beside it. */
    method Insert(key: Key, snapshot: S, now: nat)
      requires Valid()
      modifies this`entries, this`residentContracts
      ensures Valid()
      ensures weigh(snapshot) > contractBudget ==> entries == old(entries) - {key}
      ensures weigh(snapshot) <= contractBudget ==>
                && key in entries && entries[key] == Entry(snapshot, now, weigh(snapshot))
                && LongestFit(entries - {key}, old(entries) - {key}, capacity - 1, contractBudget - weigh(snapshot))
    {
      RemoveOne(key);
      var incoming := weigh(snapshot);
      if incoming > contractBudget { return; }
      hide LongestFit;
      MakeRoom(capacity - 1, contractBudget - incoming);
      Add(key, Entry(snapshot, now, incoming));
    }

    method Add(key: Key, entry: Entry<S>)
      requires Consistent() && key !in entries && |entries| < capacity
      requires residentContracts + entry.contracts <= contractBudget
      requires entry.contracts == weigh(entry.snapshot)
      modifies this`entries, this`residentContracts
      ensures Valid() && entries == old(entries)[key := entry] && entries - {key} == old(entries)
    {
      AddedEntry(entries, key, entry);
      residentContracts := SaturatingAdd(residentContracts, entry.contracts);
      entries := entries[key := entry];
    }

    /** Drops every entry of one simulation, and counts them. */
    method EvictSimulation(simulation: nat) returns (dropped: nat)
      requires Valid()
      modifies this`entries, this`residentContracts
      ensures Valid()
      ensures entries == old(entries) - Belonging(old(entries).Keys, simulation)
      ensures forall key :: key in entries <==> key in old(entries) && key.0 != simulation
      ensures dropped == |Belonging(old(entries).Keys, simulation)|
    {
      var victims := Belonging(entries.Keys, simulation);
      dropped := |victims|;
      RemoveAll(victims);
    }

    method RemoveAll(victims: set<Key>)
      requires Valid()
      modifies this`entries, this`residentContracts
      ensures Valid() && entries == old(entries) - victims
    {
      hide Weight;
      var rest := victims;
      while rest != {}
        invariant Valid() && rest <= victims && entries.Keys <= old(entries).Keys
        invariant forall key <- old(entries) :: key in entries <==> (key !in victims || key in rest)
        invariant forall key <- entries :: entries[key] == old(entries)[key]
        decreases |rest|
      {
        var key :| key in rest;
        RemoveOne(key);
        rest := rest - {key};
      }
    }

    method RemoveOne(key: Key)
      requires Valid()
      modifies this`entries, this`residentContracts
      ensures Valid() && entries == old(entries) - {key}
    {
      Ordering.SubsetSize((entries - {key}).Keys, entries.Keys);
      RemoveEntry(key);
    }
  }
}
