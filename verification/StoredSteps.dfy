/** The prefetching reader of persisted snapshots: a window of steps at a time,
    narrower when refused, given up when it fails. */
module StoredSteps {
  import opened Results
  import opened Snapshots

  const SNAPSHOT_WINDOW_STEPS: nat := 64
  const USIZE_MAX: nat := 0xFFFF_FFFF_FFFF_FFFF

  type Contents = map<nat, SnapshotRecord>

  /** What the warehouse says to one read: its contents at that moment, that the
      range is too wide, or anything else that goes wrong. */
  datatype Answer = Granted(contents: Contents) | Refused | Failed

  /** One read that was granted: the attempt it was, and the contents it saw. */
  datatype Read = Read(attempt: nat, from: nat, upTo: nat, contents: Contents)

  predicate WellKeyed(c: Contents) {
    forall step <- c :: c[step].step == step
  }

  /** The records of a range, ascending by step, gaps skipped. */
  function Records(c: Contents, from: nat, upTo: nat): seq<SnapshotRecord>
    decreases upTo + 1 - from
  {
    if from > upTo then []
    else (if from in c then [c[from]] else []) + Records(c, from + 1, upTo)
  }

  lemma {:induction false} RecordsAscend(c: Contents, from: nat, upTo: nat)
    requires WellKeyed(c)
    ensures forall i | 0 <= i < |Records(c, from, upTo)| :: from <= Records(c, from, upTo)[i].step <= upTo
    decreases upTo + 1 - from
  {
    if from <= upTo { RecordsAscend(c, from + 1, upTo); }
  }

  /** With nothing stored before `step`, the records from `from` are those from
      `step`, and the first of them is the one of `step` if that is stored. */
  lemma {:induction false} SkipGap(c: Contents, from: nat, step: nat, upTo: nat)
    requires WellKeyed(c) && from <= step <= upTo
    requires Records(c, from, upTo) != [] ==> Records(c, from, upTo)[0].step >= step
    ensures Records(c, from, upTo) == Records(c, step, upTo)
    ensures step in c <==> Records(c, step, upTo) != [] && Records(c, step, upTo)[0].step == step
    ensures step in c ==> Records(c, step, upTo) == [c[step]] + Records(c, step + 1, upTo)
    decreases step - from
  {
    RecordsAscend(c, step + 1, upTo);
    if from < step { SkipGap(c, from + 1, step, upTo); }
  }

  lemma SkipTo(c: Contents, from: nat, upTo: nat)
    requires WellKeyed(c) && Records(c, from, upTo) != []
    ensures var step := Records(c, from, upTo)[0].step;
            from <= step <= upTo && Records(c, from, upTo)[1..] == Records(c, step + 1, upTo)
  {
    RecordsAscend(c, from, upTo);
    SkipGap(c, from, Records(c, from, upTo)[0].step, upTo);
  }

  /** The last step a window starting at `from` covers, with the additions
      checked. */
  function WindowEnd(from: nat, window: nat, last: nat): nat {
    if window == 0 || from + (window - 1) > USIZE_MAX then last
    else if from + (window - 1) < last then from + (window - 1) else last
  }

  /** A window is never reversed, never runs past the range, and is as wide as
      asked until it meets the end of it. */
  lemma WindowFits(from: nat, window: nat, last: nat)
    requires 1 <= window && from <= last <= USIZE_MAX
    ensures from <= WindowEnd(from, window, last) <= last
    ensures WindowEnd(from, window, last) < last ==> WindowEnd(from, window, last) - from + 1 == window
  {
  }

  /** The width after `n` refusals. */
  function Width(n: nat): nat {
    if n == 0 then SNAPSHOT_WINDOW_STEPS else Width(n - 1) / 2
  }

  lemma {:induction false} SixRefusalsReachOne(n: nat)
    ensures Width(n) >= 1 <==> n <= 6
    ensures Width(n) == 1 <==> n == 6
    ensures Width(n + 1) == Width(n) / 2
  {
    if n > 7 {
      SixRefusalsReachOne(n - 1);
    } else {
      assert Width(1) == 32 && Width(2) == 16 && Width(3) == 8 && Width(4) == 4;
      assert Width(5) == 2 && Width(6) == 1 && Width(7) == 0;
    }
  }

  /** How many of the first `n` reads were refused. */
  ghost function Refusals(warehouse: nat -> Answer, n: nat): nat {
    if n == 0 then 0 else Refusals(warehouse, n - 1) + if warehouse(n - 1).Refused? then 1 else 0
  }

  lemma OneMoreRead(warehouse: nat -> Answer, n: nat)
    ensures Refusals(warehouse, n + 1) == Refusals(warehouse, n) + if warehouse(n).Refused? then 1 else 0
  {
  }

  /** The granted reads cover `[first, next)` in order, each starting right
      after the one before. */
  ghost predicate Tiles(log: seq<Read>, first: nat, next: nat) {
    if log == [] then first == next
    else
      var r := log[|log| - 1];
      r.from <= r.upTo && next == r.upTo + 1 && Tiles(log[..|log| - 1], first, r.from)
  }

  /** Granted reads start at the first step and follow one another without gap
      or overlap. */
  lemma {:induction false} TilesAreConsecutive(log: seq<Read>, first: nat, next: nat)
    requires Tiles(log, first, next)
    ensures log != [] ==> log[0].from == first && log[|log| - 1].upTo + 1 == next
    ensures forall i | 0 <= i < |log| - 1 :: log[i + 1].from == log[i].upTo + 1
    ensures forall i, j | 0 <= i < j < |log| :: log[i].from <= log[i].upTo < log[j].from
  {
    if log != [] {
      var before := log[..|log| - 1];
      TilesAreConsecutive(before, first, log[|log| - 1].from);
      assert forall i | 0 <= i < |before| :: before[i] == log[i];
    }
  }

  lemma ExtendsTiling(log: seq<Read>, first: nat, r: Read)
    requires r.from <= r.upTo && Tiles(log, first, r.from)
    ensures Tiles(log + [r], first, r.upTo + 1)
  {
    assert (log + [r])[..|log|] == log;
  }

  /** What the warehouse held of `step` when its window was read. */
  ghost function Lookup(log: seq<Read>, step: nat): Option<SnapshotRecord> {
    if log == [] then None
    else
      var r := log[|log| - 1];
      if r.from <= step <= r.upTo then (if step in r.contents then Some(r.contents[step]) else None)
      else Lookup(log[..|log| - 1], step)
  }

  class Reader {
    const warehouse: nat -> Answer
    const first: nat
    const last: nat
    var attempts: nat
    var loaded: seq<SnapshotRecord>
    var windowEnd: Option<nat>
    var window: nat
    var degraded: bool
    ghost var log: seq<Read>
    ghost var refusals: nat
    ghost var position: nat

    /** Every attempt was granted, refused, or the one that degraded. Each refusal
        halved the width, and the reader degraded at a failure or at a refusal it
        could not narrow, and not before. */
    ghost predicate Counted()
      reads this`attempts, this`log, this`refusals, this`degraded, this`window
    {
      && last <= USIZE_MAX
      && (forall n :: warehouse(n).Granted? ==> WellKeyed(warehouse(n).contents))
      && refusals <= 6 && window == Width(refusals)
      && attempts == |log| + refusals + (if degraded then 1 else 0)
      && (degraded ==> attempts > 0 && !warehouse(attempts - 1).Granted?)
      && (degraded && warehouse(attempts - 1).Refused? ==> window == 1)
      && Refusals(warehouse, attempts) == refusals + (if degraded && warehouse(attempts - 1).Refused? then 1 else 0)
      && (forall i | 0 <= i < |log| :: warehouse(log[i].attempt) == Granted(log[i].contents))
    }

    /** The window under way is the last one granted, and what is loaded is what
        is left of it; `next` is the step that will be asked for next. */
    ghost predicate Valid(next: nat)
      reads this
    {
      && Counted()
      && first <= next
      && match windowEnd
         case None => log == [] && (!degraded ==> next == first)
         case Some(end) =>
           && log != [] && log[|log| - 1].upTo == end <= last
           && Tiles(log, first, end + 1)
           && (!degraded ==>
                 && next <= end + 1 && position <= next && log[|log| - 1].from <= next
                 && loaded == Records(log[|log| - 1].contents, position, end))
    }

    ghost function FailedReads(): int
      reads this`attempts, this`log
    {
      attempts - |log|
    }

    constructor (warehouse: nat -> Answer, first: nat, last: nat)
      requires last <= USIZE_MAX && forall n :: warehouse(n).Granted? ==> WellKeyed(warehouse(n).contents)
      ensures Valid(first) && !degraded && attempts == 0 && log == []
      ensures this.warehouse == warehouse && this.first == first && this.last == last
    {
      this.warehouse := warehouse;
      this.first := first;
      this.last := last;
      attempts := 0;
      loaded := [];
      windowEnd := None;
      window := SNAPSHOT_WINDOW_STEPS;
      degraded := false;
      log := [];
      refusals := 0;
      position := first;
    }

    /** The last read starts at `from` and is as wide as the window, up to the end
        of the range. */
    ghost predicate AsWide(from: nat)
      reads this
    {
      && log != [] && log[|log| - 1].from == from
      && log[|log| - 1].upTo == if from + window - 1 < last then from + window - 1 else last
    }

    /** Takes over what a granted read found. */
    method Accept(from: nat, contents: Contents)
      requires attempts > 0 && warehouse(attempts - 1) == Granted(contents)
      requires last <= USIZE_MAX && (forall n :: warehouse(n).Granted? ==> WellKeyed(warehouse(n).contents))
      requires refusals <= 6 && window == Width(refusals) && attempts == |log| + 1 + refusals && !degraded
      requires Refusals(warehouse, attempts) == refusals
      requires forall i | 0 <= i < |log| :: warehouse(log[i].attempt) == Granted(log[i].contents)
      requires first <= from <= last && Tiles(log, first, from)
      modifies this`loaded, this`windowEnd, this`log, this`position
      ensures Valid(from) && position == from && windowEnd.Some? && from <= windowEnd.value
      ensures |log| == |old(log)| + 1 && log[..|old(log)|] == old(log) && AsWide(from)
    {
      var end := WindowEnd(from, window, last);
      SixRefusalsReachOne(refusals);
      WindowFits(from, window, last);
      ExtendsTiling(log, first, Read(attempts - 1, from, end, contents));
      hide Tiles, Width, Records, WindowEnd, Refusals;
      loaded := Records(contents, from, end);
      windowEnd := Some(end);
      log := log + [Read(attempts - 1, from, end, contents)];
      position := from;
    }

    /** Between two tries of a window: nothing loaded, nothing given up. */
    ghost predicate Trying(from: nat)
      reads this
    {
      && Counted() && !degraded && loaded == []
      && first <= from <= last && Tiles(log, first, from)
    }

    /** One read of the window that starts at `from`: taken over, narrowed for
        another try, or given up. */
    method Try(from: nat) returns (again: bool)
      requires Trying(from)
      requires log == [] || (windowEnd.Some? && windowEnd.value <= last && log[|log| - 1].upTo == windowEnd.value)
      requires windowEnd.None? <==> log == []
      modifies this
      ensures again ==>
                && Trying(from) && log == old(log) && windowEnd == old(windowEnd)
                && old(window) > 1 && window == old(window) / 2
      ensures !again && degraded ==> Counted() && log == old(log) && windowEnd == old(windowEnd) && loaded == []
      ensures !again && !degraded ==>
                && Valid(from) && position == from && windowEnd.Some? && from <= windowEnd.value
                && |log| == |old(log)| + 1 && log[..|old(log)|] == old(log) && AsWide(from) && window == old(window)
    {
      SixRefusalsReachOne(refusals);
      OneMoreRead(warehouse, attempts);
      hide Records, Width, Tiles, WindowEnd, Refusals;
      var answer := warehouse(attempts);
      attempts := attempts + 1;
      match answer {
        case Granted(contents) =>
          Accept(from, contents);
          again := false;
        case Refused =>
          again := window > 1;
          if again {
            window := window / 2;
            refusals := refusals + 1;
          } else {
            degraded := true;
          }
        case Failed =>
          degraded := true;
          again := false;
      }
    }

    /** Fills the window that starts at `from`: halves a refused window and
        retries, degrades on anything else. */
    method Load(from: nat)
      requires Valid(from) && !degraded && from <= last
      requires windowEnd.Some? ==> from == windowEnd.value + 1
      modifies this
      ensures Valid(from)
      ensures old(log) <= log && (degraded ==> log == old(log) && loaded == [])
      ensures !degraded ==>
                && |log| == |old(log)| + 1 && log[..|old(log)|] == old(log)
                && windowEnd.Some? && AsWide(from) && from <= windowEnd.value
                && position == from
    {
      loaded := [];
      assert Tiles(log, first, from);
      hide Records, Width, Tiles, WindowEnd, Refusals;
      var again := true;
      while again
        invariant again ==> Trying(from) && log == old(log) && windowEnd == old(windowEnd)
        invariant !again && degraded ==> Counted() && log == old(log) && windowEnd == old(windowEnd) && loaded == []
        invariant !again && !degraded ==>
                    && Valid(from) && position == from && windowEnd.Some? && from <= windowEnd.value
                    && |log| == |old(log)| + 1 && log[..|old(log)|] == old(log) && AsWide(from)
        decreases again, window
      {
        again := Try(from);
      }
    }

    /** Drops what belongs to steps already produced. */
    method Discard(step: nat)
      requires Valid(step) && (degraded ==> loaded == [])
      requires !degraded ==> windowEnd.Some? && step <= windowEnd.value
      modifies this`loaded, this`position
      ensures Valid(step) && (degraded ==> loaded == []) && (loaded != [] ==> loaded[0].step >= step)
    {
      hide Tiles, Width;
      while |loaded| > 0 && loaded[0].step < step
        invariant Valid(step) && (degraded ==> loaded == [])
        decreases |loaded|
      {
        SkipTo(log[|log| - 1].contents, position, windowEnd.value);
        position := loaded[0].step + 1;
        loaded := loaded[1..];
      }
    }

    /** Takes the record of `step` off the front, if it is there. */
    method TakeFront(step: nat) returns (r: Option<SnapshotRecord>)
      requires Valid(step) && (degraded ==> loaded == []) && (loaded != [] ==> loaded[0].step >= step)
      requires !degraded ==> windowEnd.Some? && step <= windowEnd.value
      modifies this`loaded, this`position
      ensures Valid(step + 1)
      ensures r == if degraded then None else Lookup(log, step)
    {
      if !degraded { SkipGap(log[|log| - 1].contents, position, step, windowEnd.value); }
      hide Tiles, Width, Records;
      if |loaded| > 0 && loaded[0].step == step {
        r := Some(loaded[0]);
        loaded := loaded[1..];
        position := step + 1;
      } else {
        r := None;
      }
    }

    /** The persisted snapshot of `step`. Steps are asked for one after another.
        Until the reader degrades the answer is what the warehouse held of that
        step when its window was read; afterwards it is always nothing. */
    method Take(step: nat) returns (r: Option<SnapshotRecord>)
      requires Valid(step) && step <= last
      modifies this
      ensures Valid(step + 1)
      ensures old(degraded) ==> degraded
      ensures r == if degraded then None else Lookup(log, step)
      ensures !degraded ==> windowEnd.Some? && step <= windowEnd.value
      ensures old(log) <= log && FailedReads() <= 7
    {
      hide Tiles, Width, Records, Lookup;
      if degraded { return None; }
      if windowEnd.None? || step > windowEnd.value { Load(step); }
      Discard(step);
      r := TakeFront(step);
    }
  }
}
