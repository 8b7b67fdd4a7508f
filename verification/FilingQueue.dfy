/** The queue in front of the warehouse: any number of advances file into it
    without waiting, one writer drains it, and an atomic counts the quote rows
    it holds. One action per atomic, channel or repository call. */
module FilingQueue {
  import opened Results

  /** How many records may wait, and how many quote rows. */
  const SNAPSHOT_QUEUE_DEPTH: nat := 1024
  const SNAPSHOT_QUEUE_CONTRACTS: nat := 4_000_000
  const USIZE_MAX: nat := 0xFFFF_FFFF_FFFF_FFFF

  datatype Record = Record(simulation: nat, step: nat, rows: nat)

  /** Where one filing is: before it reads the counter, with what it read,
      about to reserve, about to send, about to undo, or over. */
  datatype Filer =
    | Fresh(record: Record)
    | Loaded(record: Record, queued: int)
    | Admitted(record: Record, queued: int)
    | Reserved(record: Record)
    | Undoing(record: Record)
    | Finished

  datatype Writer = Idle | Writing(record: Record) | Written(record: Record)

  /** `enqueued` and `drained` are history. */
  datatype Queue = Queue(
    counter: int,
    channel: seq<Record>,
    writer: Writer,
    filers: seq<Filer>,
    enqueued: seq<Record>,
    drained: seq<Record>)

  datatype Action = Arrive(record: Record) | Step(k: nat) | Receive | Persist | Release

  function Empty(): Queue {
    Queue(0, [], Idle, [], [], [])
  }

  function SaturatingAdd(a: int, b: nat): int {
    if a + b > USIZE_MAX then USIZE_MAX else a + b
  }

  function Move(q: Queue, k: nat, f: Filer): Queue
    requires k < |q.filers|
  {
    q.(filers := q.filers[k := f])
  }

  /** Whether what a filer read lets it in, were there room in the channel. */
  predicate LetsIn(f: Filer) {
    (f.Loaded? || f.Admitted?) && SaturatingAdd(f.queued, f.record.rows) <= SNAPSHOT_QUEUE_CONTRACTS
  }

  ghost predicate Enabled(q: Queue, a: Action) {
    match a
    case Arrive(_) => true
    case Step(k) => k < |q.filers| && !q.filers[k].Finished?
    case Receive => q.writer.Idle? && q.channel != []
    case Persist => q.writer.Writing?
    case Release => q.writer.Written?
  }

  /** One atomic action of a filing. */
  function Next(q: Queue, k: nat): Queue
    requires k < |q.filers|
  {
    match q.filers[k]
    case Fresh(record) => Move(q, k, Loaded(record, q.counter))
    case Loaded(record, queued) =>
      if |q.channel| >= SNAPSHOT_QUEUE_DEPTH || SaturatingAdd(queued, record.rows) > SNAPSHOT_QUEUE_CONTRACTS
      then Move(q, k, Finished)
      else Move(q, k, Admitted(record, queued))
    case Admitted(record, _) => Move(q, k, Reserved(record)).(counter := q.counter + record.rows)
    case Reserved(record) =>
      if |q.channel| >= SNAPSHOT_QUEUE_DEPTH then Move(q, k, Undoing(record))
      else Move(q, k, Finished).(channel := q.channel + [record], enqueued := q.enqueued + [record])
    case Undoing(record) => Move(q, k, Finished).(counter := q.counter - record.rows)
    case Finished => q
  }

  /** The effect of an action. The writer takes its record's rows off the
      counter whether or not the warehouse accepted it. */
  function Apply(q: Queue, a: Action): Queue {
    match a
    case Arrive(record) => q.(filers := q.filers + [Fresh(record)])
    case Step(k) => if k < |q.filers| then Next(q, k) else q
    case Receive => if q.channel == [] then q else q.(writer := Writing(q.channel[0]), channel := q.channel[1..])
    case Persist => if q.writer.Writing? then q.(writer := Written(q.writer.record)) else q
    case Release =>
      if !q.writer.Written? then q
      else q.(counter := q.counter - q.writer.record.rows, drained := q.drained + [q.writer.record], writer := Idle)
  }

  // ---- sums over the filers

  /** Rows a filer has reserved and neither sent nor given back. */
  function Holding(f: Filer): nat {
    if f.Reserved? || f.Undoing? then f.record.rows else 0
  }

  /** Rows a filer is on its way to reserving. */
  function Intending(f: Filer): nat {
    if LetsIn(f) then f.record.rows else 0
  }

  function Pending(f: Filer): nat {
    if LetsIn(f) then 1 else 0
  }

  function Sum(filers: seq<Filer>, part: Filer -> nat): nat {
    if filers == [] then 0 else part(filers[0]) + Sum(filers[1..], part)
  }

  lemma {:induction false} SumMoves(filers: seq<Filer>, k: nat, f: Filer, part: Filer -> nat)
    requires k < |filers|
    ensures Sum(filers[k := f], part) + part(filers[k]) == Sum(filers, part) + part(f)
  {
    if k == 0 {
      assert filers[0 := f][1..] == filers[1..];
    } else {
      assert filers[k := f][1..] == filers[1..][k - 1 := f];
      SumMoves(filers[1..], k - 1, f, part);
    }
  }

  lemma {:induction false} SumGrows(filers: seq<Filer>, f: Filer, part: Filer -> nat)
    ensures Sum(filers + [f], part) == Sum(filers, part) + part(f)
  {
    if filers == [] {
      assert ([f])[1..] == [];
    } else {
      assert (filers + [f])[1..] == filers[1..] + [f];
      SumGrows(filers[1..], f, part);
    }
  }

  lemma {:induction false} PartIsInSum(filers: seq<Filer>, k: nat, part: Filer -> nat)
    requires k < |filers|
    ensures part(filers[k]) <= Sum(filers, part)
  {
    if k > 0 { PartIsInSum(filers[1..], k - 1, part); }
  }

  function Rows(records: seq<Record>): nat {
    if records == [] then 0 else records[0].rows + Rows(records[1..])
  }

  lemma {:induction false} RowsGrow(records: seq<Record>, r: Record)
    ensures Rows(records + [r]) == Rows(records) + r.rows
  {
    if records == [] {
      assert ([r])[1..] == [];
    } else {
      assert (records + [r])[1..] == records[1..] + [r];
      RowsGrow(records[1..], r);
    }
  }

  /** What the writer has taken and not yet released. */
  function InHand(w: Writer): seq<Record> {
    if w.Idle? then [] else [w.record]
  }

  // ---- conservation

  /** The counter is exactly the rows reserved by filers, waiting in the channel
      and in the writer's hand; the channel keeps its depth; and what was
      enqueued leaves in order, none lost and none twice. */
  ghost predicate Conserved(q: Queue) {
    && q.counter == Sum(q.filers, Holding) + Rows(q.channel) + Rows(InHand(q.writer))
    && |q.channel| <= SNAPSHOT_QUEUE_DEPTH
    && q.enqueued == q.drained + InHand(q.writer) + q.channel
  }

  lemma StepConserves(q: Queue, k: nat)
    requires Conserved(q) && k < |q.filers|
    ensures Conserved(Next(q, k))
  {
    SumMoves(q.filers, k, Next(q, k).filers[k], Holding);
    if q.filers[k].Reserved? { RowsGrow(q.channel, q.filers[k].record); }
  }

  lemma ActionConserves(q: Queue, a: Action)
    requires Conserved(q) && Enabled(q, a)
    ensures Conserved(Apply(q, a))
  {
    match a
    case Arrive(record) => SumGrows(q.filers, Fresh(record), Holding);
    case Step(k) => StepConserves(q, k);
    case Receive =>
      assert q.channel == [q.channel[0]] + q.channel[1..];
      assert Rows([q.channel[0]]) == q.channel[0].rows + Rows([q.channel[0]][1..]);
    case Persist =>
    case Release =>
      assert Rows(InHand(q.writer)) == q.writer.record.rows + Rows(InHand(q.writer)[1..]);
  }

  /** No subtraction takes the counter below zero. */
  lemma NoUnderflow(q: Queue, a: Action)
    requires Conserved(q) && Enabled(q, a)
    ensures Apply(q, a).counter >= 0
    ensures a.Step? && q.filers[a.k].Undoing? ==> q.counter >= q.filers[a.k].record.rows
    ensures a.Release? ==> q.counter >= q.writer.record.rows
  {
    ActionConserves(q, a);
    if a.Step? { PartIsInSum(q.filers, a.k, Holding); }
    if a.Release? { assert Rows(InHand(q.writer)) == q.writer.record.rows + Rows(InHand(q.writer)[1..]); }
  }

  // ---- the overshoot

  /** No filer under way holds more than `most` rows, and whoever is about to
      reserve was let in. */
  ghost predicate Orderly(filers: seq<Filer>, most: nat) {
    forall i | 0 <= i < |filers| ::
      && (!filers[i].Finished? ==> filers[i].record.rows <= most)
      && (filers[i].Admitted? ==> LetsIn(filers[i]))
  }

  /** The counter, plus what filers already let in will add, stays within
      `slack` rows of the cap. */
  ghost predicate Capped(q: Queue, slack: nat) {
    q.counter + Sum(q.filers, Intending) <= SNAPSHOT_QUEUE_CONTRACTS + slack
  }

  lemma {:induction false} IntentIsBounded(filers: seq<Filer>, most: nat)
    requires Orderly(filers, most)
    ensures Sum(filers, Intending) <= Sum(filers, Pending) * most
  {
    if filers != [] {
      assert filers[0].Finished? || filers[0].record.rows <= most;
      IntentIsBounded(filers[1..], most);
      assert (Pending(filers[0]) + Sum(filers[1..], Pending)) * most ==
        Pending(filers[0]) * most + Sum(filers[1..], Pending) * most;
    }
  }

  lemma Multiplied(a: nat, b: nat, m: nat)
    requires a <= b
    ensures a * m <= b * m
  {
  }

  /** A filer that reads the counter joins at most `k - 1` others that are let
      in and have not reserved yet. */
  lemma LoadIsCapped(q: Queue, i: nat, k: nat, most: nat)
    requires k >= 1 && Capped(q, (k - 1) * most) && Orderly(q.filers, most) && i < |q.filers| && q.filers[i].Fresh?
    requires Sum(Next(q, i).filers, Pending) <= k
    ensures Capped(Next(q, i), (k - 1) * most)
  {
    var f := Loaded(q.filers[i].record, q.counter);
    SumMoves(q.filers, i, f, Intending);
    if LetsIn(f) {
      SumMoves(q.filers, i, f, Pending);
      IntentIsBounded(q.filers, most);
      Multiplied(Sum(q.filers, Pending), k - 1, most);
    }
  }

  lemma StepIsCapped(q: Queue, i: nat, slack: nat)
    requires i < |q.filers| && !q.filers[i].Fresh? && (q.filers[i].Admitted? ==> LetsIn(q.filers[i]))
    requires Capped(q, slack)
    ensures Capped(Next(q, i), slack)
  {
    SumMoves(q.filers, i, Next(q, i).filers[i], Intending);
  }

  lemma ActionStaysOrderly(q: Queue, a: Action, most: nat)
    requires Orderly(q.filers, most) && (a.Arrive? ==> a.record.rows <= most)
    ensures Orderly(Apply(q, a).filers, most)
  {
    if a.Step? && a.k < |q.filers| {
      var f := Next(q, a.k).filers[a.k];
      assert Next(q, a.k).filers == q.filers[a.k := f] && (f.Finished? || f.record == q.filers[a.k].record);
      assert f.Admitted? ==> LetsIn(f);
    }
  }

  lemma ActionIsCapped(q: Queue, a: Action, k: nat, most: nat)
    requires Conserved(q) && Enabled(q, a) && Orderly(q.filers, most) && k >= 1
    requires Capped(q, (k - 1) * most)
    requires Sum(Apply(q, a).filers, Pending) <= k
    ensures Capped(Apply(q, a), (k - 1) * most)
  {
    match a
    case Arrive(record) => SumGrows(q.filers, Fresh(record), Intending);
    case Step(i) =>
      if q.filers[i].Fresh? {
        LoadIsCapped(q, i, k, most);
      } else {
        var slack := (k - 1) * most;
        StepIsCapped(q, i, slack);
      }
    case Receive =>
    case Persist =>
    case Release =>
  }

  // ---- runs

  ghost function After(q: Queue, actions: seq<Action>): Option<Queue>
    decreases |actions|
  {
    if actions == [] then Some(q)
    else if !Enabled(q, actions[0]) then None
    else After(Apply(q, actions[0]), actions[1..])
  }

  lemma {:induction false} RunConserves(q: Queue, actions: seq<Action>)
    requires Conserved(q) && After(q, actions).Some?
    ensures Conserved(After(q, actions).value)
    decreases |actions|
  {
    if actions != [] {
      ActionConserves(q, actions[0]);
      RunConserves(Apply(q, actions[0]), actions[1..]);
    }
  }

  /** At no point of the run are more than `k` filers between reading a counter
      that lets them in and reserving, nor does any file more than `most` rows. */
  ghost predicate Crowded(q: Queue, actions: seq<Action>, k: nat, most: nat)
    decreases |actions|
  {
    && Sum(q.filers, Pending) <= k
    && (actions != [] ==>
        (actions[0].Arrive? ==> actions[0].record.rows <= most) && Crowded(Apply(q, actions[0]), actions[1..], k, most))
  }

  lemma {:induction false} RunIsCapped(q: Queue, actions: seq<Action>, k: nat, most: nat)
    requires Conserved(q) && Orderly(q.filers, most) && k >= 1 && Capped(q, (k - 1) * most)
    requires After(q, actions).Some? && Crowded(q, actions, k, most)
    ensures Capped(After(q, actions).value, (k - 1) * most)
    decreases |actions|
  {
    if actions != [] {
      ActionConserves(q, actions[0]);
      assert Crowded(Apply(q, actions[0]), actions[1..], k, most);
      ActionStaysOrderly(q, actions[0], most);
      ActionIsCapped(q, actions[0], k, most);
      RunIsCapped(Apply(q, actions[0]), actions[1..], k, most);
    }
  }

  /** Every run from an empty queue: the counter is exactly what is resident,
      never negative; the channel keeps its depth; records reach the warehouse
      in the order they were enqueued. */
  lemma QueueIsConserved(actions: seq<Action>, q: Queue)
    requires After(Empty(), actions) == Some(q)
    ensures q.counter == Sum(q.filers, Holding) + Rows(q.channel) + Rows(InHand(q.writer)) >= 0
    ensures |q.channel| <= SNAPSHOT_QUEUE_DEPTH
    ensures q.drained <= q.enqueued && q.enqueued == q.drained + InHand(q.writer) + q.channel
  {
    RunConserves(Empty(), actions);
  }

  /** Every run in which at most `k` filers are ever between check and
      reservation overshoots the cap by at most `k - 1` snapshots. */
  lemma OvershootIsBounded(actions: seq<Action>, q: Queue, k: nat, most: nat)
    requires After(Empty(), actions) == Some(q) && Crowded(Empty(), actions, k, most) && k >= 1
    ensures q.counter <= SNAPSHOT_QUEUE_CONTRACTS + (k - 1) * most
  {
    RunIsCapped(Empty(), actions, k, most);
  }

  /** A lone filer never takes the counter past the cap. */
  lemma AloneNeverOvershoots(actions: seq<Action>, q: Queue, most: nat)
    requires After(Empty(), actions) == Some(q) && Crowded(Empty(), actions, 1, most)
    ensures q.counter <= SNAPSHOT_QUEUE_CONTRACTS
  {
    OvershootIsBounded(actions, q, 1, most);
  }

  // ---- the bound is exact

  /** `n` filers standing at `f`. */
  function Standing(f: Filer, n: nat): seq<Filer> {
    seq(n, _ => f)
  }

  lemma {:induction false} FewArePending(filers: seq<Filer>)
    ensures Sum(filers, Pending) <= |filers|
  {
    if filers != [] { FewArePending(filers[1..]); }
  }

  /** All of them admitted on the same reading, they reserve one after another. */
  lemma {:induction false} AllReserve(r: Record, k: nat, done: nat, q: Queue) returns (actions: seq<Action>)
    requires done <= k
    requires q == Empty().(filers := Standing(Reserved(r), done) + Standing(Admitted(r, 0), k - done),
             counter := done * r.rows)
    ensures After(q, actions).Some? && After(q, actions).value.counter == k * r.rows
    ensures Crowded(q, actions, k, r.rows)
    decreases k - done
  {
    FewArePending(q.filers);
    if done == k { return []; }
    var next := Apply(q, Step(done));
    assert next.filers == Standing(Reserved(r), done + 1) + Standing(Admitted(r, 0), k - (done + 1));
    var rest := AllReserve(r, k, done + 1, next);
    actions := [Step(done)] + rest;
    Prepend(q, Step(done), rest, k, r.rows);
  }

  /** Every filer reads an empty queue and is let in before any reserves. */
  lemma {:induction false} AllAdmitted(r: Record, k: nat, admitted: nat, q: Queue) returns (actions: seq<Action>)
    requires admitted <= k && r.rows <= SNAPSHOT_QUEUE_CONTRACTS
    requires q == Empty().(filers := Standing(Admitted(r, 0), admitted))
    ensures After(q, actions).Some? && After(q, actions).value.counter == k * r.rows
    ensures Crowded(q, actions, k, r.rows)
    decreases k - admitted
  {
    FewArePending(q.filers);
    if admitted == k {
      assert q.filers == Standing(Reserved(r), 0) + Standing(Admitted(r, 0), k);
      actions := AllReserve(r, k, 0, q);
      return;
    }
    var q1 := Apply(q, Arrive(r));
    var q2 := Apply(q1, Step(admitted));
    var q3 := Apply(q2, Step(admitted));
    assert q3.filers == Standing(Admitted(r, 0), admitted + 1);
    FewArePending(q1.filers);
    FewArePending(q2.filers);
    var rest := AllAdmitted(r, k, admitted + 1, q3);
    Prepend(q2, Step(admitted), rest, k, r.rows);
    Prepend(q1, Step(admitted), [Step(admitted)] + rest, k, r.rows);
    actions := [Arrive(r)] + ([Step(admitted)] + ([Step(admitted)] + rest));
    Prepend(q, Arrive(r), [Step(admitted)] + ([Step(admitted)] + rest), k, r.rows);
  }

  lemma Prepend(q: Queue, a: Action, rest: seq<Action>, k: nat, most: nat)
    requires Enabled(q, a) && Sum(q.filers, Pending) <= k && (a.Arrive? ==> a.record.rows <= most)
    requires Crowded(Apply(q, a), rest, k, most)
    ensures After(q, [a] + rest) == After(Apply(q, a), rest) && Crowded(q, [a] + rest, k, most)
  {
    assert ([a] + rest)[1..] == rest;
  }

  /** `k` filers that all read before any reserves do overshoot by the whole
      `k - 1` snapshots. */
  lemma OvershootIsReached(k: nat) returns (actions: seq<Action>, q: Queue)
    requires k >= 1
    ensures After(Empty(), actions) == Some(q) && Crowded(Empty(), actions, k, SNAPSHOT_QUEUE_CONTRACTS)
    ensures q.counter == SNAPSHOT_QUEUE_CONTRACTS + (k - 1) * SNAPSHOT_QUEUE_CONTRACTS
  {
    var r := Record(0, 0, SNAPSHOT_QUEUE_CONTRACTS);
    assert Empty().filers == Standing(Admitted(r, 0), 0);
    actions := AllAdmitted(r, k, 0, Empty());
    q := After(Empty(), actions).value;
  }

  // ---- what gets in

  /** `n` steps of the filer that arrived last. */
  function Turns(k: nat, n: nat): seq<Action> {
    seq(n, _ => Step(k))
  }

  /** A filing that meets no other is enqueued, and its rows counted, exactly
      when the channel has a place and the rows fit under the cap; otherwise it
      leaves the queue as it was. */
  lemma FiledExactlyWhenThereIsRoom(q: Queue, r: Record)
    requires Conserved(q)
    ensures var k := |q.filers|;
            var room := |q.channel| < SNAPSHOT_QUEUE_DEPTH && q.counter + r.rows <= SNAPSHOT_QUEUE_CONTRACTS;
            && After(q, [Arrive(r)] + Turns(k, if room then 4 else 2)).Some?
            && var t := After(q, [Arrive(r)] + Turns(k, if room then 4 else 2)).value;
               && t.filers == q.filers + [Finished]
               && t.enqueued == (if room then q.enqueued + [r] else q.enqueued)
               && t.channel == (if room then q.channel + [r] else q.channel)
               && t.counter == (if room then q.counter + r.rows else q.counter)
  {
    var k := |q.filers|;
    var room := |q.channel| < SNAPSHOT_QUEUE_DEPTH && q.counter + r.rows <= SNAPSHOT_QUEUE_CONTRACTS;
    var loaded := q.(filers := q.filers + [Loaded(r, q.counter)]);
    assert Apply(Apply(q, Arrive(r)), Step(k)) == loaded;
    AfterTwo(q, Arrive(r), Step(k), Turns(k, if room then 3 else 1));
    assert [Arrive(r)] + ([Step(k)] + Turns(k, if room then 3 else 1)) == [Arrive(r)] + Turns(k, if room then 4 else 2);
    if room {
      var reserved := q.(filers := q.filers + [Reserved(r)], counter := q.counter + r.rows);
      assert Apply(Apply(loaded, Step(k)), Step(k)) == reserved;
      AfterTwo(loaded, Step(k), Step(k), Turns(k, 1));
      assert [Step(k)] + ([Step(k)] + Turns(k, 1)) == Turns(k, 3);
      AfterOne(reserved, Step(k));
      assert Turns(k, 1) == [Step(k)];
      assert Apply(reserved, Step(k)).filers == q.filers + [Finished];
    } else {
      AfterOne(loaded, Step(k));
      assert Turns(k, 1) == [Step(k)];
      assert Apply(loaded, Step(k)).filers == q.filers + [Finished];
    }
  }

  lemma AfterOne(q: Queue, a: Action)
    requires Enabled(q, a)
    ensures After(q, [a]) == Some(Apply(q, a))
  {
    assert [a][1..] == [];
    assert After(Apply(q, a), []) == Some(Apply(q, a));
  }

  lemma AfterTwo(q: Queue, a: Action, b: Action, rest: seq<Action>)
    requires Enabled(q, a) && Enabled(Apply(q, a), b)
    ensures After(q, [a] + ([b] + rest)) == After(Apply(Apply(q, a), b), rest)
  {
    assert ([a] + ([b] + rest))[1..] == [b] + rest;
    assert ([b] + rest)[1..] == rest;
  }
}
