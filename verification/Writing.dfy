/** The row encoders: a JSON array written piece by piece, and CSV. */
module Writing {
  import opened Results
  import opened Snapshots
  import opened Labels

  datatype Dataset = Underlying | Volatility | OptionChains {
    predicate NeedsChains() { OptionChains? }
  }

  datatype Format = Json | Csv

  datatype FactorRow = FactorRow(step: nat, simulatedAt: int, spot: Decimal, baseVolatility: Decimal)

  /** One row object, or one CSV record, before it is rendered. */
  datatype Row =
    | UnderlyingRow(step: nat, simulatedAt: int, symbol: string, price: Float)
    | VolatilityRow(step: nat, simulatedAt: int, symbol: string, baseVolatility: Float)
    | QuoteLine(step: nat, simulatedAt: int, symbol: string, expiresAt: int, labels: string,
                daysToExpiration: Float, quote: QuoteView)

  /** The encoders of the JSON and CSV crates, which may refuse a row. */
  datatype Encoder = Encoder(
    json: Row -> Result<string, string>,
    csv: Row -> Result<string, string>,
    header: Dataset -> Result<string, string>)

  function QuoteLines(step: nat, at: int, symbol: string, e: ExpirationView): seq<Row> {
    seq(|e.quotes|, i requires 0 <= i < |e.quotes| =>
      QuoteLine(step, at, symbol, e.expiresAt, Join(e.labels), e.daysToExpiration, e.quotes[i]))
  }

  function ChainLines(step: nat, at: int, symbol: string, views: seq<ExpirationView>): seq<Row> {
    if views == [] then [] else QuoteLines(step, at, symbol, views[0]) + ChainLines(step, at, symbol, views[1..])
  }

  /** The rows one step contributes. The instant is the factor row's, whichever
      source the chains came from. */
  function StepRows(w: Wire, dataset: Dataset, symbol: string, row: FactorRow, chains: Option<StepChains>): seq<Row> {
    match dataset
    case Underlying => [UnderlyingRow(row.step, row.simulatedAt, symbol, w.float(row.spot))]
    case Volatility => [VolatilityRow(row.step, row.simulatedAt, symbol, w.float(row.baseVolatility))]
    case OptionChains =>
      match chains
      case None => []
      case Some(c) => ChainLines(row.step, row.simulatedAt, symbol, Expirations(w, c))
  }

  // ---- the document, all at once

  function EncodeAll(encode: Row -> Result<string, string>, rows: seq<Row>): Result<seq<string>, string> {
    if rows == [] then Ok([])
    else
      var first :- encode(rows[0]);
      var rest :- EncodeAll(encode, rows[1..]);
      Ok([first] + rest)
  }

  function CommaSeparated(values: seq<string>): string {
    if values == [] then ""
    else if |values| == 1 then values[0]
    else values[0] + "," + CommaSeparated(values[1..])
  }

  function Concatenated(parts: seq<string>): string {
    if parts == [] then "" else parts[0] + Concatenated(parts[1..])
  }

  /** Section 5 of RFC 8259: an array is its values between brackets, separated
      by commas. */
  function JsonArray(values: seq<string>): string {
    "[" + CommaSeparated(values) + "]"
  }

  /** An array of one value is that value between brackets; two arrays make one
      by a comma in place of the brackets they meet at. */
  lemma ArraysJoin(a: seq<string>, b: seq<string>)
    requires a != [] && b != []
    ensures JsonArray([]) == "[]" && forall value: string :: JsonArray([value]) == "[" + value + "]"
    ensures JsonArray(a + b) == JsonArray(a)[..|JsonArray(a)| - 1] + "," + JsonArray(b)[1..]
  {
    SeparatedAdds(a, b);
    assert JsonArray(a)[..|JsonArray(a)| - 1] == "[" + CommaSeparated(a);
    assert JsonArray(b)[1..] == CommaSeparated(b) + "]";
  }

  lemma {:induction false} SeparatedAdds(a: seq<string>, b: seq<string>)
    requires a != [] && b != []
    ensures CommaSeparated(a + b) == CommaSeparated(a) + "," + CommaSeparated(b)
  {
    assert (a + b)[1..] == a[1..] + b;
    if |a| > 1 { SeparatedAdds(a[1..], b); }
  }

  // ---- the document, a chunk per step

  /** The JSON chunk of one step: a comma before every row but the very first of
      the document. */
  function JsonChunk(values: seq<string>, first: bool): string {
    if values == [] then "" else (if first then "" else ",") + values[0] + JsonChunk(values[1..], false)
  }

  lemma {:induction false} ChunkIsSeparated(values: seq<string>)
    ensures values != [] ==> JsonChunk(values, false) == "," + CommaSeparated(values)
    ensures JsonChunk(values, true) == CommaSeparated(values)
  {
    if |values| == 1 {
      assert JsonChunk(values[1..], false) == "";
      assert values[0] + "" == values[0];
    } else if values != [] {
      ChunkIsSeparated(values[1..]);
      assert values[0] + ("," + CommaSeparated(values[1..])) == CommaSeparated(values);
    }
  }

  lemma {:induction false} ChunksAdd(a: seq<string>, b: seq<string>, first: bool)
    ensures JsonChunk(a + b, first) == JsonChunk(a, first) + JsonChunk(b, first && a == [])
  {
    if a == [] {
      assert a + b == b;
    } else {
      assert (a + b)[1..] == a[1..] + b;
      ChunksAdd(a[1..], b, false);
    }
  }

  lemma {:induction false} EncodedAdd(encode: Row -> Result<string, string>, a: seq<Row>, b: seq<Row>)
    ensures EncodeAll(encode, a + b) ==
            match EncodeAll(encode, a)
            case Err(e) => Err(e)
            case Ok(x) =>
              match EncodeAll(encode, b)
              case Err(e) => Err(e)
              case Ok(y) => Ok(x + y)
  {
    if a == [] {
      assert a + b == b;
      if EncodeAll(encode, b).Ok? { assert [] + EncodeAll(encode, b).value == EncodeAll(encode, b).value; }
    } else {
      assert (a + b)[1..] == a[1..] + b;
      EncodedAdd(encode, a[1..], b);
      if encode(a[0]).Ok? && EncodeAll(encode, a[1..]).Ok? && EncodeAll(encode, b).Ok? {
        assert [encode(a[0]).value] + (EncodeAll(encode, a[1..]).value + EncodeAll(encode, b).value) ==
               ([encode(a[0]).value] + EncodeAll(encode, a[1..]).value) + EncodeAll(encode, b).value;
      }
    }
  }

  lemma {:induction false} ConcatenationsAdd(a: seq<string>, b: seq<string>)
    ensures Concatenated(a + b) == Concatenated(a) + Concatenated(b)
  {
    if a == [] {
      assert a + b == b;
    } else {
      assert (a + b)[1..] == a[1..] + b;
      ConcatenationsAdd(a[1..], b);
    }
  }

  /** What a format makes of a document's rows in one go. */
  function Document(enc: Encoder, format: Format, dataset: Dataset, rows: seq<Row>): Result<string, string> {
    match format
    case Json =>
      var values :- EncodeAll(enc.json, rows);
      Ok(JsonArray(values))
    case Csv =>
      var header :- enc.header(dataset);
      var lines :- EncodeAll(enc.csv, rows);
      Ok(header + Concatenated(lines))
  }

  /** The bytes one step adds to a document whose first row is still to come, or
      not. */
  function Chunk(enc: Encoder, format: Format, rows: seq<Row>, first: bool): Result<string, string> {
    match format
    case Json =>
      var values :- EncodeAll(enc.json, rows);
      Ok(JsonChunk(values, first))
    case Csv =>
      var lines :- EncodeAll(enc.csv, rows);
      Ok(Concatenated(lines))
  }

  /** The chunks of a list of steps, some of them empty. */
  function Chunks(steps: seq<seq<string>>, first: bool): seq<string> {
    if steps == [] then [] else [JsonChunk(steps[0], first)] + Chunks(steps[1..], first && steps[0] == [])
  }

  function AllValues(steps: seq<seq<string>>): seq<string> {
    if steps == [] then [] else steps[0] + AllValues(steps[1..])
  }

  lemma {:induction false} ChunksJoin(steps: seq<seq<string>>, first: bool)
    ensures Concatenated(Chunks(steps, first)) == JsonChunk(AllValues(steps), first)
  {
    if steps != [] {
      ChunksJoin(steps[1..], first && steps[0] == []);
      ChunksAdd(steps[0], AllValues(steps[1..]), first);
    }
  }

  /** Streaming prints what printing at once prints, whatever steps are empty. */
  lemma StreamedIsOneArray(steps: seq<seq<string>>)
    ensures "[" + Concatenated(Chunks(steps, true)) + "]" == JsonArray(AllValues(steps))
  {
    ChunksJoin(steps, true);
    ChunkIsSeparated(AllValues(steps));
  }

  class Writer {
    const enc: Encoder
    const format: Format
    const dataset: Dataset
    var first: bool

    /** What has been written so far, and the rows it holds. */
    ghost var written: string
    ghost var rows: seq<Row>

    /** What is written is the document's opening and its rows, still open. */
    ghost predicate Open()
      reads this
    {
      match format
      case Json =>
        && EncodeAll(enc.json, rows).Ok?
        && first == (rows == [])
        && written == "[" + JsonChunk(EncodeAll(enc.json, rows).value, true)
      case Csv =>
        && enc.header(dataset).Ok? && EncodeAll(enc.csv, rows).Ok?
        && written == enc.header(dataset).value + Concatenated(EncodeAll(enc.csv, rows).value)
    }

    constructor (enc: Encoder, format: Format, dataset: Dataset)
      ensures this.enc == enc && this.format == format && this.dataset == dataset
      ensures first && written == "" && rows == []
    {
      this.enc, this.format, this.dataset := enc, format, dataset;
      first := true;
      written := "";
      rows := [];
    }

    method Prologue() returns (r: Result<string, string>)
      requires first && written == "" && rows == []
      modifies this`written
      ensures r.Ok? ==> Open() && written == r.value
      ensures format.Json? ==> r == Ok("[")
      ensures format.Csv? ==> r == enc.header(dataset)
      ensures first == old(first) && rows == old(rows)
    {
      match format {
        case Json => r := Ok("[");
        case Csv => r := enc.header(dataset);
      }
      if r.Ok? {
        written := r.value;
        assert [] + EncodeAll(enc.json, []).value == [];
      }
    }

    /** Encodes every row of one step. */
    method Rows(values: seq<Row>) returns (r: Result<string, string>)
      requires Open()
      modifies this
      ensures r == Chunk(enc, format, values, old(first))
      ensures r.Ok? ==> Open() && rows == old(rows) + values && written == old(written) + r.value
      ensures r.Ok? ==> first == (old(first) && (format.Csv? || values == []))
    {
      match format {
        case Json => r := JsonRows(values);
        case Csv => r := CsvRows(values);
      }
    }

    method JsonRows(values: seq<Row>) returns (r: Result<string, string>)
      requires Open() && format.Json?
      modifies this
      ensures r == Chunk(enc, Json, values, old(first))
      ensures r.Ok? ==> Open() && rows == old(rows) + values && written == old(written) + r.value
      ensures r.Ok? ==> first == (old(first) && values == [])
    {
      var chunk := "";
      var i := 0;
      while i < |values|
        invariant 0 <= i <= |values| && EncodeAll(enc.json, values[..i]).Ok?
        invariant rows == old(rows) && written == old(written)
        invariant first == (old(first) && i == 0)
        invariant chunk == JsonChunk(EncodeAll(enc.json, values[..i]).value, old(first))
      {
        Encoded(enc.json, values, i);
        var encoded := enc.json(values[i]);
        if encoded.Err? { return Err(encoded.error); }
        OneMoreValue(enc.json, values, i, old(first));
        if !first { chunk := chunk + ","; }
        first := false;
        chunk := chunk + encoded.value;
        i := i + 1;
      }
      assert values[..|values|] == values;
      JsonExtends(enc.json, rows, values);
      hide EncodeAll, JsonChunk;
      written := written + chunk;
      rows := rows + values;
      r := Ok(chunk);
    }

    method CsvRows(values: seq<Row>) returns (r: Result<string, string>)
      requires Open() && format.Csv?
      modifies this`rows, this`written
      ensures r == Chunk(enc, Csv, values, first)
      ensures r.Ok? ==> Open() && rows == old(rows) + values && written == old(written) + r.value
    {
      var chunk := "";
      var i := 0;
      while i < |values|
        invariant 0 <= i <= |values| && EncodeAll(enc.csv, values[..i]).Ok?
        invariant rows == old(rows) && written == old(written)
        invariant chunk == Concatenated(EncodeAll(enc.csv, values[..i]).value)
      {
        Encoded(enc.csv, values, i);
        var encoded := enc.csv(values[i]);
        if encoded.Err? { return Err(encoded.error); }
        ConcatenationsAdd(EncodeAll(enc.csv, values[..i]).value, [encoded.value]);
        chunk := chunk + encoded.value;
        i := i + 1;
      }
      assert values[..|values|] == values;
      EncodedAdd(enc.csv, rows, values);
      ConcatenationsAdd(EncodeAll(enc.csv, rows).value, EncodeAll(enc.csv, values).value);
      written := written + chunk;
      rows := rows + values;
      r := Ok(chunk);
    }

    /** Closes the document: prologue, chunks and epilogue are then the document
        its rows make in one go. */
    method Epilogue() returns (closing: Option<string>)
      requires Open()
      modifies this`written
      ensures closing == if format.Json? then Some("]") else None
      ensures written == old(written) + (if closing.Some? then closing.value else "")
      ensures Document(enc, format, dataset, rows) == Ok(written)
    {
      match format {
        case Json =>
          ChunkIsSeparated(EncodeAll(enc.json, rows).value);
          closing := Some("]");
          written := written + "]";
        case Csv => closing := None;
      }
    }
  }

  lemma EncodedOne(encode: Row -> Result<string, string>, row: Row)
    ensures encode(row).Ok? ==> EncodeAll(encode, [row]) == Ok([encode(row).value])
    ensures encode(row).Err? ==> EncodeAll(encode, [row]) == Err(encode(row).error)
  {
    assert [row][1..] == [] && EncodeAll(encode, []) == Ok([]);
    if encode(row).Ok? { assert [encode(row).value] + [] == [encode(row).value]; }
  }

  lemma Encoded(encode: Row -> Result<string, string>, values: seq<Row>, i: nat)
    requires i < |values| && EncodeAll(encode, values[..i]).Ok?
    ensures encode(values[i]).Ok? ==>
              EncodeAll(encode, values[..i + 1]) == Ok(EncodeAll(encode, values[..i]).value + [encode(values[i]).value])
    ensures encode(values[i]).Err? ==> EncodeAll(encode, values) == Err(encode(values[i]).error)
  {
    assert values[..i + 1] == values[..i] + [values[i]];
    EncodedAdd(encode, values[..i], [values[i]]);
    EncodedOne(encode, values[i]);
    assert values == values[..i] + values[i..];
    EncodedAdd(encode, values[..i], values[i..]);
    assert values[i..][0] == values[i];
  }

  /** One more row adds its comma, unless it opens the document, and its text. */
  lemma OneMoreValue(encode: Row -> Result<string, string>, values: seq<Row>, i: nat, first: bool)
    requires i < |values| && EncodeAll(encode, values[..i]).Ok? && encode(values[i]).Ok?
    ensures EncodeAll(encode, values[..i + 1]).Ok?
    ensures JsonChunk(EncodeAll(encode, values[..i + 1]).value, first) ==
            JsonChunk(EncodeAll(encode, values[..i]).value, first)
            + (if first && i == 0 then "" else ",") + encode(values[i]).value
  {
    Encoded(encode, values, i);
    var before, text := EncodeAll(encode, values[..i]).value, encode(values[i]).value;
    ChunksAdd(before, [text], first);
    EncodedNone(encode, values[..i]);
    assert [text][1..] == [];
    assert JsonChunk([text], first && before == []) == (if first && before == [] then "" else ",") + text + "";
  }

  /** The chunk of later rows carries on where the earlier ones stopped. */
  lemma JsonExtends(encode: Row -> Result<string, string>, rows: seq<Row>, values: seq<Row>)
    requires EncodeAll(encode, rows).Ok? && EncodeAll(encode, values).Ok?
    ensures EncodeAll(encode, rows + values).Ok?
    ensures JsonChunk(EncodeAll(encode, rows + values).value, true) ==
            JsonChunk(EncodeAll(encode, rows).value, true) + JsonChunk(EncodeAll(encode, values).value, rows == [])
  {
    EncodedAdd(encode, rows, values);
    ChunksAdd(EncodeAll(encode, rows).value, EncodeAll(encode, values).value, true);
    EncodedNone(encode, rows);
  }

  lemma EncodedNone(encode: Row -> Result<string, string>, rows: seq<Row>)
    requires EncodeAll(encode, rows).Ok?
    ensures EncodeAll(encode, rows).value == [] <==> rows == []
  {
  }
}
