/** The factor tape cache the v2 manager fills from inside its blocking tasks. */
module TapeCaching {
  import opened Results
  import opened SimulationModel
  import Protocol = SimulationProtocol

  datatype Entry = Entry(tape: Tape, lastAccess: nat)

  /** What a reader could find. */
  function Held(entries: map<Id, Entry>): map<Id, Tape> {
    map id | id in entries :: entries[id].tape
  }

  /** `kept` is what is left of `all` when no entry goes before an older one. */
  ghost predicate Recent(kept: map<Id, Entry>, all: map<Id, Entry>) {
    && (forall id <- kept :: id in all && kept[id] == all[id])
    && (forall a, b | a in kept && b in all && b !in kept :: all[b].lastAccess <= all[a].lastAccess)
  }

  predicate IsVictim(entries: map<Id, Entry>, victim: Id) {
    victim in entries && forall id <- entries :: entries[victim].lastAccess <= entries[id].lastAccess
  }

  lemma VictimLeavesRecent(entries: map<Id, Entry>, all: map<Id, Entry>, victim: Id)
    requires Recent(entries, all) && IsVictim(entries, victim)
    ensures Recent(entries - {victim}, all)
  {
  }

  lemma FilingIsAProtocolStep(w: World, before: map<Id, Entry>, after: map<Id, Entry>, id: Id, params: Params,
      tape: Tape)
    requires w.build(params) == Ok(tape)
    requires id in after && after[id].tape == tape && Recent(after - {id}, before - {id})
    ensures Held(after) == Protocol.Filed(w, Held(before), id, params, before.Keys - after.Keys)
  {
    forall other | other in after && other != id ensures other in before && before[other] == after[other] {
      assert other in after - {id};
    }
    assert Held(before).Keys == before.Keys && Held(after).Keys == after.Keys;
    SameButForgotten(Held(before), Held(after), id);
  }

  lemma SameButForgotten(before: map<Id, Tape>, after: map<Id, Tape>, id: Id)
    requires id in after
    requires forall other | other in after && other != id :: other in before && before[other] == after[other]
    ensures after == (before - ((before.Keys - after.Keys) + {id}))[id := after[id]]
  {
    var forgotten := (before.Keys - after.Keys) + {id};
    forall other ensures other in before - forgotten <==> other in after && other != id {}
  }

  class TapeCache {
    var entries: map<Id, Entry>

    constructor ()
      ensures entries == map[]
    {
      entries := map[];
    }

    /** Reads a cached tape, refreshing its recency. */
    method CachedTape(id: Id, now: nat) returns (found: Option<Tape>)
      modifies this
      ensures found == if id in old(entries) then Some(old(entries)[id].tape) else None
      ensures entries ==
              if id in old(entries) then old(entries)[id := Entry(old(entries)[id].tape, now)] else old(entries)
      ensures Held(entries) == Held(old(entries))
    {
      if id !in entries { return None; }
      found := Some(entries[id].tape);
      entries := entries[id := entries[id].(lastAccess := now)];
    }

    /** An entry no other is older than; ties fall anywhere. */
    method LeastRecentlyUsed() returns (victim: Option<Id>)
      ensures victim.None? <==> entries == map[]
      ensures victim.Some? ==> IsVictim(entries, victim.value)
    {
      var rest := entries.Keys;
      if rest == {} { return None; }
      var best :| best in rest;
      rest := rest - {best};
      while rest != {}
        invariant rest <= entries.Keys && best in entries
        invariant forall id <- entries :: id in rest || entries[best].lastAccess <= entries[id].lastAccess
        decreases |rest|
      {
        var id :| id in rest;
        if entries[id].lastAccess < entries[best].lastAccess { best := id; }
        rest := rest - {id};
      }
      victim := Some(best);
    }

    method EvictTo(max: nat)
      modifies this
      ensures Recent(entries, old(entries))
      ensures |entries| == if |old(entries)| <= max then |old(entries)| else max
    {
      while |entries| > max
        invariant Recent(entries, old(entries))
        invariant |entries| == |old(entries)| || max <= |entries| < |old(entries)|
        decreases |entries|
      {
        var victim := LeastRecentlyUsed();
        if victim.None? { break; }
        VictimLeavesRecent(entries, old(entries), victim.value);
        assert (entries - {victim.value}).Keys == entries.Keys - {victim.value};
        entries := entries - {victim.value};
      }
    }

    /** Files a tape. The cache then holds at most `max`, what it forgot is no
        younger than what it kept, and it forgot no more than it had to. */
    method CacheTape(max: nat, id: Id, tape: Tape, now: nat)
      requires max >= 1
      modifies this
      ensures id in entries && entries[id] == Entry(tape, now)
      ensures Recent(entries - {id}, old(entries) - {id})
      ensures |entries| == if |old(entries) - {id}| < max then |old(entries) - {id}| + 1 else max
    {
      entries := entries - {id};
      EvictTo(max - 1);
      ghost var kept := entries;
      entries := entries[id := Entry(tape, now)];
      assert entries - {id} == kept && entries.Keys == kept.Keys + {id};
    }

    /** Drops a simulation's tape; readers of every other find what they found. */
    method Evict(id: Id)
      modifies this
      ensures entries == old(entries) - {id}
      ensures Held(entries) == Held(old(entries)) - {id}
    {
      entries := entries - {id};
    }
  }
}
