/** The snapshot of a step, the record the warehouse keeps of it, and the one
    view both are rendered through. */
module Snapshots {
  import opened Results

  /** Decimals, and the wire's floating-point numbers, which are opaque here. */
  type Decimal(==, !new)
  type Float(==, !new)

  datatype OptionData = OptionData(
    strikePrice: Decimal,
    impliedVolatility: Decimal,
    callBid: Option<Decimal>,
    callAsk: Option<Decimal>,
    callMiddle: Option<Decimal>,
    deltaCall: Option<Decimal>,
    putBid: Option<Decimal>,
    putAsk: Option<Decimal>,
    putMiddle: Option<Decimal>,
    deltaPut: Option<Decimal>,
    gamma: Option<Decimal>)

  datatype ExpiryChain = ExpiryChain(
    expiresAt: int,
    daysToExpiration: Decimal,
    labels: seq<string>,
    chain: seq<OptionData>)

  datatype Snapshot = Snapshot(
    step: nat,
    simulatedAt: int,
    spot: Decimal,
    baseVolatility: Decimal,
    chains: seq<ExpiryChain>)

  /** A stored quote; its fields come in the order the tables keep them. */
  datatype QuoteRow = QuoteRow(
    strike: Decimal,
    impliedVolatility: Decimal,
    callBid: Option<Decimal>,
    callAsk: Option<Decimal>,
    callMid: Option<Decimal>,
    putBid: Option<Decimal>,
    putAsk: Option<Decimal>,
    putMid: Option<Decimal>,
    deltaCall: Option<Decimal>,
    deltaPut: Option<Decimal>,
    gamma: Option<Decimal>)

  datatype ExpirationRecord = ExpirationRecord(
    expiresAt: int,
    daysToExpiration: Decimal,
    labels: seq<string>,
    quotes: seq<QuoteRow>)

  const SNAPSHOT_TAPE_GENERATION: nat := 2

  datatype SnapshotRecord = SnapshotRecord(
    simulation: nat,
    generation: nat,
    step: nat,
    simulatedAt: int,
    symbol: string,
    spot: Decimal,
    baseVolatility: Decimal,
    expirations: seq<ExpirationRecord>)

  function Quote(data: OptionData): QuoteRow {
    QuoteRow(data.strikePrice, data.impliedVolatility, data.callBid, data.callAsk, data.callMiddle,
             data.putBid, data.putAsk, data.putMiddle, data.deltaCall, data.deltaPut, data.gamma)
  }

  function Quotes(chain: seq<OptionData>): seq<QuoteRow> {
    seq(|chain|, i requires 0 <= i < |chain| => Quote(chain[i]))
  }

  function Expiration(chain: ExpiryChain): ExpirationRecord {
    ExpirationRecord(chain.expiresAt, chain.daysToExpiration, chain.labels, Quotes(chain.chain))
  }

  /** The record the service files for a snapshot it served. */
  function Record(simulation: nat, symbol: string, snapshot: Snapshot): SnapshotRecord {
    SnapshotRecord(simulation, SNAPSHOT_TAPE_GENERATION, snapshot.step, snapshot.simulatedAt, symbol,
                   snapshot.spot, snapshot.baseVolatility,
                   seq(|snapshot.chains|, i requires 0 <= i < |snapshot.chains| => Expiration(snapshot.chains[i])))
  }

  /** A stored quote holds what was priced, figure by figure. */
  ghost predicate Holds(row: QuoteRow, data: OptionData) {
    && row.strike == data.strikePrice && row.impliedVolatility == data.impliedVolatility
    && row.callBid == data.callBid && row.callAsk == data.callAsk && row.callMid == data.callMiddle
    && row.putBid == data.putBid && row.putAsk == data.putAsk && row.putMid == data.putMiddle
    && row.deltaCall == data.deltaCall && row.deltaPut == data.deltaPut && row.gamma == data.gamma
  }

  /** The record is of this simulation and step, at the snapshot's instant, spot
      and volatility, and holds every quote of every expiration in order. */
  lemma RecordHoldsTheSnapshot(simulation: nat, symbol: string, snapshot: Snapshot)
    ensures var r := Record(simulation, symbol, snapshot);
            && r.simulation == simulation && r.generation == 2 && r.symbol == symbol
            && r.step == snapshot.step && r.simulatedAt == snapshot.simulatedAt
            && r.spot == snapshot.spot && r.baseVolatility == snapshot.baseVolatility
            && |r.expirations| == |snapshot.chains|
            && forall e | 0 <= e < |snapshot.chains| ::
                 && r.expirations[e].expiresAt == snapshot.chains[e].expiresAt
                 && r.expirations[e].daysToExpiration == snapshot.chains[e].daysToExpiration
                 && r.expirations[e].labels == snapshot.chains[e].labels
                 && |r.expirations[e].quotes| == |snapshot.chains[e].chain|
                 && forall q | 0 <= q < |snapshot.chains[e].chain| ::
                      Holds(r.expirations[e].quotes[q], snapshot.chains[e].chain[q])
  {
  }

  /** How many quote rows a snapshot would become, counted without building it. */
  function SnapshotQuoteCount(chains: seq<ExpiryChain>): nat {
    if chains == [] then 0 else |chains[0].chain| + SnapshotQuoteCount(chains[1..])
  }

  function RecordQuoteCount(expirations: seq<ExpirationRecord>): nat {
    if expirations == [] then 0 else |expirations[0].quotes| + RecordQuoteCount(expirations[1..])
  }

  /** The count that reserves room in the queue is the count the writer gives
      back: both measure the same rows. */
  lemma {:induction false} CountsAgree(simulation: nat, symbol: string, snapshot: Snapshot)
    ensures SnapshotQuoteCount(snapshot.chains) == RecordQuoteCount(Record(simulation, symbol, snapshot).expirations)
    decreases |snapshot.chains|
  {
    if snapshot.chains != [] {
      var rest := snapshot.(chains := snapshot.chains[1..]);
      assert Record(simulation, symbol, snapshot).expirations[1..] == Record(simulation, symbol, rest).expirations;
      CountsAgree(simulation, symbol, rest);
    }
  }

  // ---- the view

  /** How decimals reach the wire. */
  datatype Wire = Wire(float: Decimal -> Float, tryFloat: Decimal -> Option<Float>)
  {
    function Map(value: Option<Decimal>): Option<Float> {
      match value
      case None => None
      case Some(d) => Some(float(d))
    }

    function AndThen(value: Option<Decimal>): Option<Float> {
      match value
      case None => None
      case Some(d) => tryFloat(d)
    }
  }

  datatype QuoteView = QuoteView(
    strike: Float,
    impliedVolatility: Float,
    callBid: Option<Float>,
    callAsk: Option<Float>,
    callMid: Option<Float>,
    callDelta: Option<Float>,
    putBid: Option<Float>,
    putAsk: Option<Float>,
    putMid: Option<Float>,
    putDelta: Option<Float>,
    gamma: Option<Float>)

  /** Views a strike that was just priced. */
  function Replayed(w: Wire, data: OptionData): QuoteView {
    QuoteView(w.float(data.strikePrice), w.float(data.impliedVolatility),
              w.Map(data.callBid), w.Map(data.callAsk), w.Map(data.callMiddle), w.AndThen(data.deltaCall),
              w.Map(data.putBid), w.Map(data.putAsk), w.Map(data.putMiddle), w.AndThen(data.deltaPut),
              w.AndThen(data.gamma))
  }

  /** Views a strike that was read back. */
  function Stored(w: Wire, row: QuoteRow): QuoteView {
    QuoteView(w.float(row.strike), w.float(row.impliedVolatility),
              w.Map(row.callBid), w.Map(row.callAsk), w.Map(row.callMid), w.AndThen(row.deltaCall),
              w.Map(row.putBid), w.Map(row.putAsk), w.Map(row.putMid), w.AndThen(row.deltaPut),
              w.AndThen(row.gamma))
  }

  datatype ExpirationView = ExpirationView(
    expiresAt: int,
    daysToExpiration: Float,
    labels: seq<string>,
    quotes: seq<QuoteView>)

  datatype StepChains = FromReplay(snapshot: Snapshot) | FromStorage(record: SnapshotRecord)

  function ReplayedView(w: Wire, c: ExpiryChain): ExpirationView {
    ExpirationView(c.expiresAt, w.float(c.daysToExpiration), c.labels,
                   seq(|c.chain|, i requires 0 <= i < |c.chain| => Replayed(w, c.chain[i])))
  }

  function StoredView(w: Wire, e: ExpirationRecord): ExpirationView {
    ExpirationView(e.expiresAt, w.float(e.daysToExpiration), e.labels,
                   seq(|e.quotes|, i requires 0 <= i < |e.quotes| => Stored(w, e.quotes[i])))
  }

  /** The live expirations of a step, whichever source produced them. */
  function Expirations(w: Wire, chains: StepChains): seq<ExpirationView> {
    match chains
    case FromReplay(s) => seq(|s.chains|, i requires 0 <= i < |s.chains| => ReplayedView(w, s.chains[i]))
    case FromStorage(r) => seq(|r.expirations|, i requires 0 <= i < |r.expirations| => StoredView(w, r.expirations[i]))
  }

  /** A record filed for a snapshot shows exactly what replaying it would. */
  lemma StoredShowsTheSame(w: Wire, simulation: nat, symbol: string, snapshot: Snapshot)
    ensures Expirations(w, FromStorage(Record(simulation, symbol, snapshot))) == Expirations(w, FromReplay(snapshot))
  {
    var record := Record(simulation, symbol, snapshot);
    forall i | 0 <= i < |snapshot.chains|
      ensures StoredView(w, record.expirations[i]) == ReplayedView(w, snapshot.chains[i])
    {
      assert StoredView(w, Expiration(snapshot.chains[i])).quotes == ReplayedView(w, snapshot.chains[i]).quotes;
    }
  }
}
