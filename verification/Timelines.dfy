/** The dates of a rule against one simulated instant: which of them still lie
    ahead, and the first few of those. */
module Timelines {
  import Ordering

  /** `dates` picks the rule's dates, `clock` gives each date's expiration
      instant, `t` is the simulated instant and `today` its local date. */
  datatype Timeline = Timeline(dates: int -> bool, clock: int -> int, t: int, today: int) {
    /** Later dates expire later. */
    ghost predicate InOrder(a: int, b: int) {
      a < b ==> clock(a) < clock(b)
    }

    /** Dates before today have expired, and dates from the day after tomorrow
        on have not. */
    ghost predicate OnItsSide(day: int) {
      (day < today ==> clock(day) <= t) && (today + 2 <= day ==> t < clock(day))
    }

    ghost predicate Sound() {
      (forall a, b :: InOrder(a, b)) && (forall day :: OnItsSide(day))
    }

    ghost predicate IsExpiration(e: int) {
      exists day :: dates(day) && clock(day) == e
    }

    /** `found` is the `count` earliest expirations strictly after `t`, none
        skipped. */
    ghost predicate IsFirst(count: nat, found: set<int>) {
      && |found| == count
      && (forall e :: e in found ==> IsExpiration(e) && t < e)
      && (forall e, later :: e in found && IsExpiration(later) && t < later && later !in found ==> e < later)
    }

    /** The dates in `[from, stop)` whose expiration is still ahead. */
    ghost function Live(from: int, stop: int): set<int> {
      set day | from <= day < stop && dates(day) && t < clock(day)
    }

    ghost function Instants(days: set<int>): set<int> {
      set day | day in days :: clock(day)
    }

    lemma {:induction false} AsManyInstants(days: set<int>)
      requires Sound()
      ensures |Instants(days)| == |days|
      decreases |days|
    {
      if days != {} {
        var day := Ordering.Member(days);
        var rest := days - {day};
        AsManyInstants(rest);
        forall other | other in rest ensures clock(other) != clock(day) {
          assert InOrder(other, day) && InOrder(day, other);
        }
        assert Instants(days) == Instants(rest) + {clock(day)};
        assert clock(day) !in Instants(rest);
      }
    }

    lemma LiveGrows(from: int, stop: int, wider: int)
      requires stop <= wider
      ensures |Live(from, stop)| <= |Live(from, wider)|
    {
      Ordering.SubsetSize(Live(from, stop), Live(from, wider));
    }

    lemma InstantsOfOneMore(days: set<int>, day: int)
      ensures Instants(days + {day}) == Instants(days) + {clock(day)}
    {
    }

    lemma LiveOneMore(from: int, day: int)
      requires from <= day
      ensures Live(from, day + 1) == if dates(day) && t < clock(day) then Live(from, day) + {day} else Live(from, day)
    {
    }

    /** What looking at one more date adds. */
    lemma LiveStep(from: int, day: int)
      requires Sound() && from <= day
      ensures Instants(Live(from, day + 1))
        == if dates(day) && t < clock(day) then Instants(Live(from, day)) + {clock(day)} else Instants(Live(from, day))
      ensures |Live(from, day + 1)| == |Live(from, day)| + (if dates(day) && t < clock(day) then 1 else 0)
      ensures |Instants(Live(from, day + 1))| == |Live(from, day + 1)|
    {
      LiveOneMore(from, day);
      InstantsOfOneMore(Live(from, day), day);
      AsManyInstants(Live(from, day + 1));
    }

    /** What looking at a stretch that holds just one of the rule's dates adds. */
    lemma LiveStretch(from: int, a: int, day: int, b: int)
      requires Sound() && from <= a <= day < b
      requires forall other :: a <= other < b && dates(other) ==> other == day
      ensures Live(from, b) == Live(from, day + 1)
      ensures Instants(Live(from, b))
        == if dates(day) && t < clock(day) then Instants(Live(from, a)) + {clock(day)} else Instants(Live(from, a))
      ensures |Live(from, b)| == |Live(from, a)| + (if dates(day) && t < clock(day) then 1 else 0)
      ensures |Instants(Live(from, b))| == |Live(from, b)|
    {
      assert Live(from, day) == Live(from, a);
      assert Live(from, b) == Live(from, day + 1);
      LiveStep(from, day);
    }

    /** Any run of dates that starts no later than today and holds `count` live
        ones holds the first `count` expirations. */
    lemma PrefixIsFirst(from: int, stop: int, found: set<int>)
      requires Sound() && from <= today && found == Instants(Live(from, stop))
      ensures IsFirst(|found|, found)
    {
      var live := Live(from, stop);
      forall e, later | e in found && IsExpiration(later) && t < later && later !in found
        ensures e < later
      {
        var day :| day in live && clock(day) == e;
        var next :| dates(next) && clock(next) == later;
        assert OnItsSide(next) && next !in live;
        assert InOrder(day, next);
      }
    }

    /** There is one such set. */
    lemma FirstUnique(count: nat, a: set<int>, b: set<int>)
      requires IsFirst(count, a) && IsFirst(count, b)
      ensures a == b
    {
      if a != b {
        var x := Ordering.OnlyInFirst(a, b);
        var y := Ordering.OnlyInFirst(b, a);
      }
    }

    /** Starting the count before today makes no difference. */
    lemma StartEarlier(from: int, stop: int)
      requires Sound() && from <= today
      ensures Live(from, stop) == Live(today, stop)
    {
      forall day | day < today ensures clock(day) <= t { assert OnItsSide(day); }
    }

    /** How many dates before `day`, from a fixed origin, are `weekday`; Monday
        is 0 and day 0 a Thursday. */
    ghost function Weeks(day: int, weekday: int): int {
      (day + 9 - weekday) / 7
    }

    lemma WeeksStep(day: int, weekday: int)
      requires 0 <= weekday < 7
      ensures Weeks(day + 1, weekday) == Weeks(day, weekday) + (if (day + 3) % 7 == weekday then 1 else 0)
    {
    }

    /** A rule that expires on one weekday at least never falls behind by more
        than the weeks gone by. */
    lemma {:induction false} LiveWeekdays(weekday: int, stop: int)
      requires Sound() && 0 <= weekday < 7
      requires forall day :: (day + 3) % 7 == weekday ==> dates(day)
      requires today + 2 <= stop
      ensures |Live(today + 2, stop)| >= Weeks(stop, weekday) - Weeks(today + 2, weekday)
      decreases stop - today
    {
      var day := stop - 1;
      if today + 2 < stop {
        LiveWeekdays(weekday, day);
        WeeksStep(day, weekday);
        assert OnItsSide(day);
        LiveStep(today + 2, day);
      }
    }
  }
}
