/** Time zones as the planner meets them: a base offset and the instants at
    which the offset changes, all in whole seconds. */
module Zones {
  import opened Results

  const DAY_SECONDS: int := 86_400

  /** From `at` on, local time is UTC plus `offset`. */
  datatype Transition = Transition(at: int, offset: int)

  datatype Zone = Zone(base: int, transitions: seq<Transition>) {
    /** The offset of segment `k`, the stretch that ends at transition `k`. */
    function Offset(k: nat): int
      requires k <= |transitions|
    {
      if k == 0 then base else transitions[k - 1].offset
    }

    /** How far transition `k` moves the local clock. */
    function Change(k: nat): int
      requires k < |transitions|
    {
      transitions[k].offset - Offset(k)
    }

    /** Offsets and offset changes stay under a day, and transitions are more
        than two days apart. */
    ghost predicate WellFormed() {
      && (forall k :: 0 <= k <= |transitions| ==> -DAY_SECONDS < Offset(k) < DAY_SECONDS)
      && (forall k :: 0 <= k < |transitions| ==> -DAY_SECONDS < Change(k) < DAY_SECONDS)
      && (forall i, j :: 0 <= i < j < |transitions| ==>
            transitions[i].at + 2 * DAY_SECONDS < transitions[j].at)
    }

    predicate InSegment(t: int, k: nat)
      requires k <= |transitions|
    {
      && (k > 0 ==> transitions[k - 1].at <= t)
      && (k < |transitions| ==> t < transitions[k].at)
    }

    /** The segment an instant falls in, searched from segment `k` on. */
    function SegmentFrom(t: int, k: nat): (s: nat)
      requires k <= |transitions|
      requires k > 0 ==> transitions[k - 1].at <= t
      ensures k <= s <= |transitions| && InSegment(t, s)
      decreases |transitions| - k
    {
      if k < |transitions| && transitions[k].at <= t then SegmentFrom(t, k + 1) else k
    }

    /** What a local clock reads at instant `t`. */
    function Local(t: int): int {
      t + Offset(SegmentFrom(t, 0))
    }

    /** The local date at instant `t`. */
    function LocalDate(t: int): int {
      Local(t) / DAY_SECONDS
    }

    /** The earliest instant whose local reading is exactly `local`, looking at
        one segment after the other. */
    function EarliestFrom(local: int, k: nat): Option<int>
      requires k <= |transitions|
      decreases |transitions| - k
    {
      if InSegment(local - Offset(k), k) then Some(local - Offset(k))
      else if k == |transitions| then None
      else EarliestFrom(local, k + 1)
    }

    /** Where the gap that swallowed `local` ends: the first transition that
        carries the local clock past it. */
    function GapEndFrom(local: int, k: nat): Option<int>
      requires k <= |transitions|
      decreases |transitions| - k
    {
      if k == |transitions| then None
      else if transitions[k].at + transitions[k].offset > local then Some(transitions[k].at)
      else GapEndFrom(local, k + 1)
    }

    /** Resolves a local reading to an instant: the earlier of a fold, the end
        of a gap, and nothing when no end of the gap is known. */
    function Resolve(local: int): Option<int> {
      match EarliestFrom(local, 0)
      case Some(t) => Some(t)
      case None => GapEndFrom(local, 0)
    }

    /** `t` is the first instant at which the local clock has reached `local`. */
    ghost predicate FirstReach(local: int, t: int) {
      Local(t) >= local && forall u :: u < t ==> Local(u) < local
    }

    lemma SegmentUnique(t: int, k: nat)
      requires WellFormed() && k <= |transitions| && InSegment(t, k)
      ensures SegmentFrom(t, 0) == k && Local(t) == t + Offset(k)
    {
    }

    /** What the clock reads: the base offset before the first transition, the
        offset of the last transition passed from then on. */
    lemma ClockReads(t: int, k: nat)
      requires WellFormed() && k <= |transitions|
      requires k > 0 ==> transitions[k - 1].at <= t
      requires k < |transitions| ==> t < transitions[k].at
      ensures Local(t) == t + (if k == 0 then base else transitions[k - 1].offset)
      ensures DAY_SECONDS * LocalDate(t) <= Local(t) < DAY_SECONDS * (LocalDate(t) + 1)
    {
      SegmentUnique(t, k);
    }

    /** Across two transitions or more the local clock never falls behind; across
        one it falls behind by less than a day. */
    lemma ClockFallsBackUnderADay(u: int, t: int)
      requires WellFormed() && u <= t
      ensures Local(u) < Local(t) + DAY_SECONDS
      ensures SegmentFrom(u, 0) + 2 <= SegmentFrom(t, 0) ==> Local(u) < Local(t)
    {
      var a, b := SegmentFrom(u, 0), SegmentFrom(t, 0);
      if a + 2 <= b {
        assert transitions[a].at + 2 * DAY_SECONDS < transitions[b - 1].at;
      } else if a + 1 == b {
        assert -DAY_SECONDS < Change(a);
      }
    }

    /** One second carries the local clock forward by at most a day. */
    lemma ClockStep(t: int)
      requires WellFormed()
      ensures Local(t) <= Local(t - 1) + DAY_SECONDS
    {
      var a, b := SegmentFrom(t - 1, 0), SegmentFrom(t, 0);
      if a + 1 == b {
        assert Change(a) < DAY_SECONDS;
      }
    }

    /** Segment `s` is the first from `k` on that reads `local`. */
    ghost predicate FirstHit(local: int, k: nat, s: nat) {
      && k <= s <= |transitions|
      && InSegment(local - Offset(s), s)
      && forall a: nat :: k <= a < s ==> !InSegment(local - Offset(a), a)
    }

    ghost predicate NoHit(local: int, k: nat) {
      forall a: nat :: k <= a <= |transitions| ==> !InSegment(local - Offset(a), a)
    }

    /** Transition `s` is the first from `k` on to carry the clock past `local`. */
    ghost predicate FirstPass(local: int, k: nat, s: nat) {
      && k <= s < |transitions|
      && transitions[s].at + transitions[s].offset > local
      && forall a: nat :: k <= a < s ==> transitions[a].at + transitions[a].offset <= local
    }

    lemma {:induction false} EarliestHits(local: int, k: nat) returns (s: nat)
      requires k <= |transitions|
      ensures match EarliestFrom(local, k)
        case Some(t) => FirstHit(local, k, s) && t == local - Offset(s)
        case None => NoHit(local, k)
      decreases |transitions| - k
    {
      if InSegment(local - Offset(k), k) || k == |transitions| {
        s := k;
      } else {
        s := EarliestHits(local, k + 1);
      }
    }

    lemma {:induction false} GapEndPasses(local: int, k: nat) returns (s: nat)
      requires k <= |transitions|
      ensures match GapEndFrom(local, k)
        case Some(t) => FirstPass(local, k, s) && t == transitions[s].at
        case None => forall a: nat :: k <= a < |transitions| ==> transitions[a].at + transitions[a].offset <= local
      decreases |transitions| - k
    {
      if k == |transitions| || transitions[k].at + transitions[k].offset > local {
        s := k;
      } else {
        s := GapEndPasses(local, k + 1);
      }
    }

    /** Every local reading resolves, and resolves to the first instant at which
        the local clock reaches it. */
    lemma ResolveIsFirstReach(local: int)
      requires WellFormed()
      ensures Resolve(local).Some? && FirstReach(local, Resolve(local).value)
    {
      if EarliestFrom(local, 0).Some? {
        HitIsFirstReach(local);
      } else {
        GapIsFirstReach(local);
      }
    }

    /** A reading that segment `s` is the first to show was not reached before:
        an earlier segment that got past it would have to give back more than a
        transition can. */
    lemma HitIsFirstReach(local: int)
      requires WellFormed() && EarliestFrom(local, 0).Some?
      ensures FirstReach(local, EarliestFrom(local, 0).value)
    {
      var s := EarliestHits(local, 0);
      var t := local - Offset(s);
      SegmentUnique(t, s);
      forall u | u < t ensures Local(u) < local {
        ClockFallsBackUnderADay(u, t);
        var a := SegmentFrom(u, 0);
        if a + 1 == s {
          BeforeTheFold(local, a);
        }
      }
    }

    lemma BeforeTheFold(local: int, a: nat)
      requires WellFormed() && FirstHit(local, 0, a + 1)
      ensures transitions[a].at + Offset(a) <= local
    {
      assert !InSegment(local - Offset(a), a);
      if a > 0 {
        assert transitions[a - 1].at + 2 * DAY_SECONDS < transitions[a].at;
        assert -DAY_SECONDS < Change(a);
      }
    }

    lemma GapIsFirstReach(local: int)
      requires WellFormed() && EarliestFrom(local, 0).None?
      ensures GapEndFrom(local, 0).Some? && FirstReach(local, GapEndFrom(local, 0).value)
    {
      var _ := EarliestHits(local, 0);
      var s := GapEndPasses(local, 0);
      assert !InSegment(local - Offset(|transitions|), |transitions|);
      var t := transitions[s].at;
      SegmentUnique(t, s + 1);
      forall u | u < t ensures Local(u) < local {
        var a := SegmentFrom(u, 0);
        assert !InSegment(local - Offset(a), a);
      }
    }

    /** A reading at least a day later is reached strictly later. */
    lemma ResolveIncreasing(earlier: int, later: int)
      requires WellFormed() && earlier + DAY_SECONDS <= later
      ensures Resolve(earlier).Some? && Resolve(later).Some?
      ensures Resolve(earlier).value < Resolve(later).value
    {
      ResolveIsFirstReach(earlier);
      ResolveIsFirstReach(later);
      var r := Resolve(later).value;
      ClockStep(r);
    }

    /** A reading on an earlier date than the local date of `t` was reached by
        `t`; one two dates later or more was not. */
    lemma ResolveAgainstToday(t: int, local: int)
      requires WellFormed()
      ensures Resolve(local).Some?
      ensures local < DAY_SECONDS * LocalDate(t) ==> Resolve(local).value <= t
      ensures local >= DAY_SECONDS * (LocalDate(t) + 2) ==> t < Resolve(local).value
    {
      ResolveIsFirstReach(local);
      var r := Resolve(local).value;
      if r <= t {
        ClockFallsBackUnderADay(r, t);
      } else {
        assert Local(t) < local;
      }
    }
  }
}
