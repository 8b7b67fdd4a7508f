/** The export of a step range: each step from the warehouse when it is there,
    replayed otherwise, and written out chunk by chunk. */
module Export {
  import opened Results
  import opened Snapshots
  import opened StoredSteps
  import opened Writing

  // ---- the range

  datatype RangeError = NoSteps | FromPastTheEnd | ToPastTheEnd | Reversed | TooManyRows

  datatype StepRange = StepRange(from: nat, upTo: nat)

  /** Validates a requested range against the horizon. */
  function Resolve(fromStep: Option<nat>, toStep: Option<nat>, steps: nat, maxRows: nat):
    (r: Result<StepRange, RangeError>)
    ensures r.Ok? <==>
            && steps >= 1
            && (fromStep.None? || fromStep.value < steps)
            && (toStep.None? || toStep.value < steps)
            && (fromStep.Some? && toStep.Some? ==> fromStep.value <= toStep.value)
            && var upTo := if toStep.Some? then toStep.value else steps - 1;
               var from := if fromStep.Some? then fromStep.value else 0;
               upTo - from + 1 <= maxRows
    ensures r.Ok? ==>
              && r.value.from <= r.value.upTo < steps
              && r.value.upTo - r.value.from + 1 <= maxRows
              && r.value.from == (if fromStep.Some? then fromStep.value else 0)
              && r.value.upTo == (if toStep.Some? then toStep.value else steps - 1)
  {
    if steps == 0 then Err(NoSteps)
    else
      var last := steps - 1;
      var from := match fromStep case None => 0 case Some(f) => f;
      var upTo := match toStep case None => last case Some(t) => t;
      if from > last then Err(FromPastTheEnd)
      else if upTo > last then Err(ToPastTheEnd)
      else if from > upTo then Err(Reversed)
      else if upTo - from + 1 > maxRows then Err(TooManyRows)
      else Ok(StepRange(from, upTo))
  }

  /** Which range is refused for what: an empty horizon, a bound past the end, the
      lower one first, bounds out of order, and too many rows. */
  lemma RangeRefusals(fromStep: Option<nat>, toStep: Option<nat>, steps: nat, maxRows: nat)
    ensures var r := Resolve(fromStep, toStep, steps, maxRows);
            var fromFits := fromStep.None? || fromStep.value < steps;
            var toFits := toStep.None? || toStep.value < steps;
            var inOrder := fromStep.Some? && toStep.Some? ==> fromStep.value <= toStep.value;
            && (r == Err(NoSteps) <==> steps == 0)
            && (r == Err(FromPastTheEnd) <==> steps > 0 && !fromFits)
            && (r == Err(ToPastTheEnd) <==> steps > 0 && fromFits && !toFits)
            && (r == Err(Reversed) <==> steps > 0 && fromFits && toFits && !inOrder)
  {
  }

  // ---- the full replay

  /** Everything the export is a function of. */
  datatype Market = Market(
    simulation: nat,
    symbol: string,
    wire: Wire,
    tape: Result<seq<FactorRow>, string>,
    replay: nat -> Result<Snapshot, string>)

  /** What reaches the client: chunks, and an error if it ended in one. */
  datatype Output = Output(chunks: seq<string>, error: Option<string>)

  /** The rows of one step when it is replayed. */
  function ReplayedRows(m: Market, dataset: Dataset, step: nat): Result<seq<Row>, string> {
    var tape :- m.tape;
    if step >= |tape| then Err("no row")
    else if dataset.NeedsChains() then
      var snapshot :- m.replay(step);
      Ok(StepRows(m.wire, dataset, m.symbol, tape[step], Some(FromReplay(snapshot))))
    else Ok(StepRows(m.wire, dataset, m.symbol, tape[step], None))
  }

  /** The plain replay of the steps from `step`, and the document's closing. */
  function Body(m: Market, enc: Encoder, format: Format, dataset: Dataset, step: nat, upTo: nat, first: bool): Output
    decreases upTo + 1 - step
  {
    if step > upTo then Output(if format.Json? then ["]"] else [], None)
    else
      match ReplayedRows(m, dataset, step)
      case Err(e) => Output([], Some(e))
      case Ok(rows) =>
        match Chunk(enc, format, rows, first)
        case Err(e) => Output([], Some(e))
        case Ok(text) =>
          var rest := Body(m, enc, format, dataset, step + 1, upTo, first && (format.Csv? || rows == []));
          Output((if text == "" then [] else [text]) + rest.chunks, rest.error)
  }

  function Opening(enc: Encoder, format: Format, dataset: Dataset): Result<string, string> {
    if format.Json? then Ok("[") else enc.header(dataset)
  }

  function FullReplay(m: Market, enc: Encoder, format: Format, dataset: Dataset, range: StepRange): Output {
    if m.tape.Err? then Output([], Some(m.tape.error))
    else
      match Opening(enc, format, dataset)
      case Err(e) => Output([], Some(e))
      case Ok(opening) =>
        var rest := Body(m, enc, format, dataset, range.from, range.upTo, true);
        Output([opening] + rest.chunks, rest.error)
  }

  /** What is received by a client that leaves after `patience` chunks, or stays. */
  function Received(full: Output, patience: Option<nat>): Output {
    if patience.Some? && patience.value < |full.chunks| then Output(full.chunks[..patience.value], None) else full
  }

  // ---- the export

  /** Every record the warehouse can ever answer with is the one its step's
      replay would have filed. */
  ghost predicate Faithful(m: Market, warehouse: nat -> Answer) {
    forall n :: warehouse(n).Granted? ==> FaithfulContents(m, warehouse(n).contents)
  }

  ghost predicate FaithfulContents(m: Market, c: Contents) {
    forall step <- c ::
      && c[step].step == step
      && m.replay(step).Ok?
      && c[step] == Record(m.simulation, m.symbol, m.replay(step).value)
  }

  /** A record found for a step renders the rows its replay would. */
  lemma StoredRowsAreReplayed(m: Market, dataset: Dataset, step: nat, record: SnapshotRecord)
    requires dataset.NeedsChains() && m.tape.Ok? && step < |m.tape.value|
    requires m.replay(step).Ok? && record == Record(m.simulation, m.symbol, m.replay(step).value)
    ensures Ok(StepRows(m.wire, dataset, m.symbol, m.tape.value[step], Some(FromStorage(record)))) ==
            ReplayedRows(m, dataset, step)
  {
    StoredShowsTheSame(m.wire, m.simulation, m.symbol, m.replay(step).value);
  }

  lemma {:induction false} FoundIsFaithful(m: Market, warehouse: nat -> Answer, log: seq<Read>, step: nat)
    requires Faithful(m, warehouse) && Lookup(log, step).Some?
    requires forall i | 0 <= i < |log| :: warehouse(log[i].attempt) == Granted(log[i].contents)
    ensures m.replay(step).Ok? && Lookup(log, step).value == Record(m.simulation, m.symbol, m.replay(step).value)
  {
    var r := log[|log| - 1];
    if !(r.from <= step <= r.upTo) { FoundIsFaithful(m, warehouse, log[..|log| - 1], step); }
  }

  /** The rows of one step, from whichever source has it. */
  method StepOf(m: Market, dataset: Dataset, step: nat, stored: Reader?) returns (r: Result<seq<Row>, string>)
    requires m.tape.Ok?
    requires stored != null ==> stored.Valid(step) && step <= stored.last && Faithful(m, stored.warehouse)
    modifies stored
    ensures r == ReplayedRows(m, dataset, step)
    ensures stored != null ==> stored.Counted() && (r.Ok? ==> stored.Valid(step + 1))
  {
    if step >= |m.tape.value| { return Err("no row"); }
    var row := m.tape.value[step];
    var record: Option<SnapshotRecord> := None;
    if stored != null {
      record := stored.Take(step);
      if record.Some? { FoundIsFaithful(m, stored.warehouse, stored.log, step); }
    }
    if record.Some? && dataset.NeedsChains() {
      StoredRowsAreReplayed(m, dataset, step, record.value);
      return Ok(StepRows(m.wire, dataset, m.symbol, row, Some(FromStorage(record.value))));
    }
    if dataset.NeedsChains() {
      var snapshot :- m.replay(step);
      return Ok(StepRows(m.wire, dataset, m.symbol, row, Some(FromReplay(snapshot))));
    }
    var chains := if record.Some? then Some(FromStorage(record.value)) else None;
    r := Ok(StepRows(m.wire, dataset, m.symbol, row, chains));
  }

  /** Produces the range for a client that takes at most `patience` chunks. What
      it receives is what it would receive of the plain full replay, whatever
      the warehouse holds, refuses or fails at, and at most seven reads fail. */
  method Produce(m: Market, enc: Encoder, format: Format, dataset: Dataset, range: StepRange, stored: Reader?,
      patience: Option<nat>)
    returns (sent: Output)
    requires range.from <= range.upTo
    requires stored != null ==>
               stored.Valid(range.from) && stored.last == range.upTo && Faithful(m, stored.warehouse)
    modifies stored
    ensures sent == Received(FullReplay(m, enc, format, dataset, range), patience)
    ensures stored != null ==> stored.FailedReads() <= 7
  {
    assert stored != null ==> stored.Counted();
    hide Chunk, EncodeAll, Writer.Open, Reader.Valid, Reader.Counted, Faithful, StepRows;
    if m.tape.Err? { return Output([], Some(m.tape.error)); }
    var writer := new Writer(enc, format, dataset);
    var opening := writer.Prologue();
    if opening.Err? { return Output([], Some(opening.error)); }
    if patience == Some(0) { return Output([], None); }
    sent := ProduceSteps(m, writer, range, stored, patience, [opening.value]);
  }

  /** The chunk of one replayed step. */
  function StepChunk(m: Market, enc: Encoder, format: Format, dataset: Dataset, step: nat, first: bool):
    Result<string, string>
  {
    var rows :- ReplayedRows(m, dataset, step);
    Chunk(enc, format, rows, first)
  }

  /** Whether the document's first row is still to come after a step. */
  function StillFirst(m: Market, format: Format, dataset: Dataset, step: nat, first: bool): bool {
    first && (format.Csv? || ReplayedRows(m, dataset, step) == Ok([]))
  }

  method ProduceStep(m: Market, writer: Writer, step: nat, stored: Reader?) returns (chunk: Result<string, string>)
    requires m.tape.Ok? && writer.Open()
    requires stored != null ==> stored.Valid(step) && step <= stored.last && Faithful(m, stored.warehouse)
    modifies stored, writer
    ensures chunk == StepChunk(m, writer.enc, writer.format, writer.dataset, step, old(writer.first))
    ensures chunk.Ok? ==>
              writer.Open() && writer.first == StillFirst(m, writer.format, writer.dataset, step, old(writer.first))
    ensures stored != null ==> stored.Counted() && (chunk.Ok? ==> stored.Valid(step + 1))
  {
    hide Chunk, EncodeAll, Writer.Open, Reader.Valid, Reader.Counted, Faithful, ReplayedRows;
    var rows := StepOf(m, writer.dataset, step, stored);
    if rows.Err? { return Err(rows.error); }
    chunk := writer.Rows(rows.value);
  }

  /** One more step of the replay moves its chunk from what is to come to what
      was sent; a step that fails ends it. */
  lemma ExtendedByOne(m: Market, enc: Encoder, format: Format, dataset: Dataset, step: nat, upTo: nat, first: bool,
      chunks: seq<string>)
    requires step <= upTo
    ensures Extended(chunks, Body(m, enc, format, dataset, step, upTo, first)) ==
            match StepChunk(m, enc, format, dataset, step, first)
            case Err(e) => Output(chunks, Some(e))
            case Ok(text) =>
              Extended(Grown(chunks, text),
                       Body(m, enc, format, dataset, step + 1, upTo, StillFirst(m, format, dataset, step, first)))
  {
    hide ReplayedRows, Chunk;
  }

  lemma KeptUp(full: Output, patience: Option<nat>)
    requires patience.Some? ==> |full.chunks| <= patience.value
    ensures Received(full, patience) == full
  {
  }

  lemma LeftAfter(chunks: seq<string>, text: string, full: Output, patience: Option<nat>)
    requires patience == Some(|chunks|) && chunks + [text] <= full.chunks
    ensures Received(full, patience) == Output(chunks, None)
  {
    assert full.chunks[..|chunks|] == (chunks + [text])[..|chunks|] == chunks;
  }

  /** The replay from the start of the range, after `outset` went out. */
  function Rest(m: Market, writer: Writer, step: nat, upTo: nat, first: bool, outset: seq<string>): Output {
    Extended(outset, Body(m, writer.enc, writer.format, writer.dataset, step, upTo, first))
  }

  lemma ClosingIsLeft(m: Market, writer: Writer, upTo: nat, first: bool, chunks: seq<string>)
    ensures Rest(m, writer, upTo + 1, upTo, first, chunks) ==
            Output(if writer.format.Json? then chunks + ["]"] else chunks, None)
  {
  }

  lemma RestByOne(m: Market, writer: Writer, step: nat, upTo: nat, first: bool, chunks: seq<string>)
    requires step <= upTo
    ensures Rest(m, writer, step, upTo, first, chunks) ==
            match StepChunk(m, writer.enc, writer.format, writer.dataset, step, first)
            case Err(e) => Output(chunks, Some(e))
            case Ok(text) =>
              Rest(m, writer, step + 1, upTo, StillFirst(m, writer.format, writer.dataset, step, first),
                Grown(chunks, text))
    ensures StepChunk(m, writer.enc, writer.format, writer.dataset, step, first).Ok? ==>
              Grown(chunks, StepChunk(m, writer.enc, writer.format, writer.dataset, step, first).value) <=
              Rest(m, writer, step, upTo, first, chunks).chunks
  {
    ExtendedByOne(m, writer.enc, writer.format, writer.dataset, step, upTo, first, chunks);
  }

  /** The steps and the closing, after `outset` went out. */
  method ProduceSteps(m: Market, writer: Writer, range: StepRange, stored: Reader?, patience: Option<nat>,
      outset: seq<string>)
    returns (sent: Output)
    requires m.tape.Ok? && writer.Open() && range.from <= range.upTo
    requires stored != null ==> stored.Valid(range.from) && stored.last == range.upTo && Faithful(m, stored.warehouse)
    requires patience.Some? ==> |outset| <= patience.value
    modifies stored, writer
    ensures sent == Received(Rest(m, writer, range.from, range.upTo, old(writer.first), outset), patience)
    ensures stored != null ==> stored.Counted()
  {
    hide Writer.Open, Reader.Valid, Reader.Counted, Faithful, Document, Rest, Received;
    var chunks, left := ProduceRange(m, writer, range, stored, patience, outset);
    if left.Some? { return left.value; }
    ghost var full := Rest(m, writer, range.from, range.upTo, old(writer.first), outset);
    ClosingIsLeft(m, writer, range.upTo, writer.first, chunks);
    var closing := writer.Epilogue();
    if closing.Some? {
      if patience == Some(|chunks|) {
        LeftAfter(chunks, closing.value, full, patience);
        return Output(chunks, None);
      }
      chunks := chunks + [closing.value];
    }
    KeptUp(full, patience);
    sent := Output(chunks, None);
  }

  /** One step: what went out with it, or how it ended the export. */
  method SendStep(m: Market, writer: Writer, step: nat, upTo: nat, stored: Reader?, patience: Option<nat>,
      before: seq<string>)
    returns (chunks: seq<string>, left: Option<Output>)
    requires m.tape.Ok? && writer.Open() && step <= upTo
    requires stored != null ==> stored.Valid(step) && stored.last == upTo && Faithful(m, stored.warehouse)
    requires patience.Some? ==> |before| <= patience.value
    modifies stored, writer
    ensures stored != null ==> stored.Counted() && (left.None? ==> stored.Valid(step + 1))
    ensures left.Some? ==> left.value == Received(Rest(m, writer, step, upTo, old(writer.first), before), patience)
    ensures left.None? ==>
              && writer.Open() && (patience.Some? ==> |chunks| <= patience.value)
              && Rest(m, writer, step, upTo, old(writer.first), before) ==
                Rest(m, writer, step + 1, upTo, writer.first, chunks)
  {
    hide StepChunk, StillFirst, Writer.Open, Reader.Valid, Reader.Counted, Faithful, Rest, Received;
    ghost var full := Rest(m, writer, step, upTo, writer.first, before);
    RestByOne(m, writer, step, upTo, writer.first, before);
    var chunk := ProduceStep(m, writer, step, stored);
    if chunk.Err? {
      KeptUp(full, patience);
      return before, Some(Output(before, Some(chunk.error)));
    }
    if chunk.value == "" { return before, None; }
    if patience == Some(|before|) {
      LeftAfter(before, chunk.value, full, patience);
      return before, Some(Output(before, None));
    }
    chunks, left := before + [chunk.value], None;
  }

  /** The steps alone: what went out if they all did, or else how it ended. */
  method ProduceRange(m: Market, writer: Writer, range: StepRange, stored: Reader?, patience: Option<nat>,
      outset: seq<string>)
    returns (chunks: seq<string>, left: Option<Output>)
    requires m.tape.Ok? && writer.Open() && range.from <= range.upTo
    requires stored != null ==> stored.Valid(range.from) && stored.last == range.upTo && Faithful(m, stored.warehouse)
    requires patience.Some? ==> |outset| <= patience.value
    modifies stored, writer
    ensures stored != null ==> stored.Counted()
    ensures left.Some? ==>
              left.value == Received(Rest(m, writer, range.from, range.upTo, old(writer.first), outset), patience)
    ensures left.None? ==>
              && writer.Open() && (patience.Some? ==> |chunks| <= patience.value)
              && Rest(m, writer, range.from, range.upTo, old(writer.first), outset) ==
                 Rest(m, writer, range.upTo + 1, range.upTo, writer.first, chunks)
  {
    assert stored != null ==> stored.Counted();
    hide Writer.Open, Reader.Valid, Reader.Counted, Faithful, Rest, Received;
    ghost var full := Rest(m, writer, range.from, range.upTo, writer.first, outset);
    chunks, left := outset, None;
    var step := range.from;
    while step <= range.upTo
      invariant range.from <= step <= range.upTo + 1 && writer.Open()
      invariant stored != null ==> stored.Valid(step) && stored.Counted()
      invariant patience.Some? ==> |chunks| <= patience.value
      invariant left.None? && full == Rest(m, writer, step, range.upTo, writer.first, chunks)
    {
      chunks, left := SendStep(m, writer, step, range.upTo, stored, patience, chunks);
      if left.Some? { return; }
      step := step + 1;
    }
  }

  /** An empty chunk is not sent. */
  function Grown(chunks: seq<string>, text: string): seq<string> {
    if text == "" then chunks else chunks + [text]
  }

  function Extended(chunks: seq<string>, rest: Output): Output {
    Output(chunks + rest.chunks, rest.error)
  }

  // ---- the replay is the document

  /** The rows of the whole range, replayed one step after another. */
  function ReplayAll(m: Market, dataset: Dataset, step: nat, upTo: nat): Result<seq<Row>, string>
    decreases upTo + 1 - step
  {
    if step > upTo then Ok([])
    else
      var rows :- ReplayedRows(m, dataset, step);
      var rest :- ReplayAll(m, dataset, step + 1, upTo);
      Ok(rows + rest)
  }

  lemma {:induction false} BodyIsTheRest(m: Market, enc: Encoder, format: Format, dataset: Dataset, step: nat,
      upTo: nat, first: bool)
    requires Body(m, enc, format, dataset, step, upTo, first).error.None?
    ensures ReplayAll(m, dataset, step, upTo).Ok?
    ensures Chunk(enc, format, ReplayAll(m, dataset, step, upTo).value, first).Ok?
    ensures Concatenated(Body(m, enc, format, dataset, step, upTo, first).chunks) ==
            Chunk(enc, format, ReplayAll(m, dataset, step, upTo).value, first).value
            + (if format.Json? then "]" else "")
    decreases upTo + 1 - step
  {
    if step <= upTo {
      var rows := ReplayedRows(m, dataset, step).value;
      var text := Chunk(enc, format, rows, first).value;
      var next := first && (format.Csv? || rows == []);
      var rest := ReplayAll(m, dataset, step + 1, upTo);
      BodyIsTheRest(m, enc, format, dataset, step + 1, upTo, next);
      ChunkOfBoth(enc, format, rows, rest.value, first);
      var tail := Body(m, enc, format, dataset, step + 1, upTo, next).chunks;
      hide Chunk, ReplayedRows;
      SendingConcatenates(text, tail);
    }
  }

  lemma SendingConcatenates(text: string, tail: seq<string>)
    ensures Concatenated((if text == "" then [] else [text]) + tail) == text + Concatenated(tail)
  {
    assert ([text] + tail)[1..] == tail;
    if text == "" { assert [] + tail == tail; }
  }

  lemma ChunkOfBoth(enc: Encoder, format: Format, a: seq<Row>, b: seq<Row>, first: bool)
    requires Chunk(enc, format, a, first).Ok? && Chunk(enc, format, b, first && (format.Csv? || a == [])).Ok?
    ensures Chunk(enc, format, a + b, first) ==
            Ok(Chunk(enc, format, a, first).value + Chunk(enc, format, b, first && (format.Csv? || a == [])).value)
  {
    match format
    case Json =>
      EncodedAdd(enc.json, a, b);
      EncodedNone(enc.json, a);
      ChunksAdd(EncodeAll(enc.json, a).value, EncodeAll(enc.json, b).value, first);
    case Csv =>
      EncodedAdd(enc.csv, a, b);
      ConcatenationsAdd(EncodeAll(enc.csv, a).value, EncodeAll(enc.csv, b).value);
  }

  /** A replay that ends well is, chunk after chunk, the document its rows make
      when printed in one go. */
  lemma FullReplayIsTheDocument(m: Market, enc: Encoder, format: Format, dataset: Dataset, range: StepRange)
    requires FullReplay(m, enc, format, dataset, range).error.None?
    ensures ReplayAll(m, dataset, range.from, range.upTo).Ok?
    ensures Document(enc, format, dataset, ReplayAll(m, dataset, range.from, range.upTo).value) ==
            Ok(Concatenated(FullReplay(m, enc, format, dataset, range).chunks))
  {
    BodyIsTheRest(m, enc, format, dataset, range.from, range.upTo, true);
    var rows := ReplayAll(m, dataset, range.from, range.upTo).value;
    var opening := Opening(enc, format, dataset).value;
    var chunks := Body(m, enc, format, dataset, range.from, range.upTo, true).chunks;
    assert ([opening] + chunks)[1..] == chunks;
    if format.Json? {
      ChunkIsSeparated(EncodeAll(enc.json, rows).value);
      assert "[" + (CommaSeparated(EncodeAll(enc.json, rows).value) + "]") ==
        JsonArray(EncodeAll(enc.json, rows).value);
    } else {
      assert Concatenated(EncodeAll(enc.csv, rows).value) + "" == Concatenated(EncodeAll(enc.csv, rows).value);
    }
  }

  /** The rows of the steps from `step` up to, not including, `stop`. */
  function RowsUpTo(m: Market, dataset: Dataset, step: nat, stop: nat): Result<seq<Row>, string> {
    if stop <= step then Ok([]) else ReplayAll(m, dataset, step, stop - 1)
  }

  /** Step `k` cannot be replayed, or its rows cannot be encoded, for `error`. */
  ghost predicate FailsAt(m: Market, enc: Encoder, format: Format, dataset: Dataset, k: nat, error: string) {
    match ReplayedRows(m, dataset, k)
    case Err(e) => e == error
    case Ok(rows) => Chunk(enc, format, rows, true) == Err(error)
  }

  lemma SameRefusal(enc: Encoder, format: Format, rows: seq<Row>, first: bool)
    ensures Chunk(enc, format, rows, first).Err? ==> Chunk(enc, format, rows, true) == Chunk(enc, format, rows, first)
  {
  }

  lemma {:induction false} BodyStopsAtTheFailure(m: Market, enc: Encoder, format: Format, dataset: Dataset, step: nat,
      upTo: nat, first: bool)
    returns (k: nat)
    requires Body(m, enc, format, dataset, step, upTo, first).error.Some?
    ensures step <= k <= upTo && RowsUpTo(m, dataset, step, k).Ok?
    ensures FailsAt(m, enc, format, dataset, k, Body(m, enc, format, dataset, step, upTo, first).error.value)
    ensures Chunk(enc, format, RowsUpTo(m, dataset, step, k).value, first) ==
            Ok(Concatenated(Body(m, enc, format, dataset, step, upTo, first).chunks))
    decreases upTo + 1 - step
  {
    hide Chunk, ReplayedRows;
    if StepChunk(m, enc, format, dataset, step, first).Err? {
      if ReplayedRows(m, dataset, step).Ok? { SameRefusal(enc, format, ReplayedRows(m, dataset, step).value, first); }
      NothingYet(enc, format, first);
      k := step;
    } else {
      var rows := ReplayedRows(m, dataset, step).value;
      var next := first && (format.Csv? || rows == []);
      k := BodyStopsAtTheFailure(m, enc, format, dataset, step + 1, upTo, next);
      var later := RowsUpTo(m, dataset, step + 1, k).value;
      assert RowsUpTo(m, dataset, step, k) == Ok(rows + later) by {
        if k == step + 1 {
          assert ReplayAll(m, dataset, step + 1, step) == Ok([]);
          assert rows + [] == rows;
        }
      }
      ChunkOfBoth(enc, format, rows, later, first);
      var tail := Body(m, enc, format, dataset, step + 1, upTo, next).chunks;
      SendingConcatenates(Chunk(enc, format, rows, first).value, tail);
    }
  }

  lemma NothingYet(enc: Encoder, format: Format, first: bool)
    ensures Chunk(enc, format, [], first) == Ok("")
  {
  }

  /** A replay that fails sends the opening and then exactly the rows of the steps
      before the one that failed, and ends in that step's error. */
  lemma FailedReplayIsCutShort(m: Market, enc: Encoder, format: Format, dataset: Dataset, range: StepRange)
    returns (k: nat)
    requires m.tape.Ok? && Opening(enc, format, dataset).Ok?
    requires FullReplay(m, enc, format, dataset, range).error.Some?
    ensures range.from <= k <= range.upTo && RowsUpTo(m, dataset, range.from, k).Ok?
    ensures FailsAt(m, enc, format, dataset, k, FullReplay(m, enc, format, dataset, range).error.value)
    ensures var before := Chunk(enc, format, RowsUpTo(m, dataset, range.from, k).value, true);
            && before.Ok?
            && Concatenated(FullReplay(m, enc, format, dataset, range).chunks) ==
               Opening(enc, format, dataset).value + before.value
  {
    k := BodyStopsAtTheFailure(m, enc, format, dataset, range.from, range.upTo, true);
    var opening := Opening(enc, format, dataset).value;
    var chunks := Body(m, enc, format, dataset, range.from, range.upTo, true).chunks;
    assert ([opening] + chunks)[1..] == chunks;
  }
}
