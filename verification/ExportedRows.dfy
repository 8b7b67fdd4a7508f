/** Which rows an export holds: one a step for the two series, one a quote for
    the chains, each with the figures of its own step. */
module ExportedRows {
  import opened Results
  import opened Snapshots
  import opened Labels
  import opened Writing
  import opened Export

  /** The tape has every step up to `upTo`. */
  ghost predicate Covers(m: Market, upTo: nat) {
    m.tape.Ok? && upTo < |m.tape.value|
  }

  // ---- the two series

  /** The underlying export has one row a step, with the step's own instant and
      spot, in order; it needs the tape to cover the range and nothing else. */
  lemma {:induction false} UnderlyingRows(m: Market, step: nat, upTo: nat)
    requires step <= upTo
    ensures ReplayAll(m, Underlying, step, upTo).Ok? <==> Covers(m, upTo)
    ensures Covers(m, upTo) ==>
              var rows := ReplayAll(m, Underlying, step, upTo).value;
              && |rows| == upTo - step + 1
              && forall i | 0 <= i < |rows| ::
                   var at := m.tape.value[step + i];
                   rows[i] == UnderlyingRow(at.step, at.simulatedAt, m.symbol, m.wire.float(at.spot))
    decreases upTo - step
  {
    assert ReplayAll(m, Underlying, upTo + 1, upTo) == Ok([]);
    if step < upTo { UnderlyingRows(m, step + 1, upTo); }
  }

  /** The volatility export has one row a step, with the step's own instant and
      base volatility, in order. */
  lemma {:induction false} VolatilityRows(m: Market, step: nat, upTo: nat)
    requires step <= upTo
    ensures ReplayAll(m, Dataset.Volatility, step, upTo).Ok? <==> Covers(m, upTo)
    ensures Covers(m, upTo) ==>
              var rows := ReplayAll(m, Dataset.Volatility, step, upTo).value;
              && |rows| == upTo - step + 1
              && forall i | 0 <= i < |rows| ::
                   var at := m.tape.value[step + i];
                   rows[i] == VolatilityRow(at.step, at.simulatedAt, m.symbol, m.wire.float(at.baseVolatility))
    decreases upTo - step
  {
    assert ReplayAll(m, Dataset.Volatility, upTo + 1, upTo) == Ok([]);
    if step < upTo { VolatilityRows(m, step + 1, upTo); }
  }

  /** Tapes with the same steps, instants and spots export the same underlying,
      whatever their volatilities. */
  lemma UnderlyingIgnoresVolatility(a: Market, b: Market, step: nat, upTo: nat)
    requires step <= upTo && Covers(a, upTo) && Covers(b, upTo) && a.symbol == b.symbol && a.wire == b.wire
    requires forall i | step <= i <= upTo ::
               a.tape.value[i].(baseVolatility := b.tape.value[i].baseVolatility) == b.tape.value[i]
    ensures ReplayAll(a, Underlying, step, upTo) == ReplayAll(b, Underlying, step, upTo)
  {
    UnderlyingRows(a, step, upTo);
    UnderlyingRows(b, step, upTo);
    var x, y := ReplayAll(a, Underlying, step, upTo).value, ReplayAll(b, Underlying, step, upTo).value;
    forall i | 0 <= i < |x| ensures x[i] == y[i] {
      assert a.tape.value[step + i].spot == b.tape.value[step + i].spot;
    }
    hide ReplayAll;
    assert x == y;
  }

  // ---- the chains

  /** Prices reach the wire when they are there. */
  ghost predicate IsPrice(w: Wire, shown: Option<Float>, price: Option<Decimal>) {
    shown == if price.Some? then Some(w.float(price.value)) else None
  }

  /** Greeks reach the wire when they are there and fit it. */
  ghost predicate IsGreek(w: Wire, shown: Option<Float>, greek: Option<Decimal>) {
    shown == if greek.Some? then w.tryFloat(greek.value) else None
  }

  /** The view of a quote, figure by figure. */
  ghost predicate Shows(w: Wire, view: QuoteView, data: OptionData) {
    && view.strike == w.float(data.strikePrice)
    && view.impliedVolatility == w.float(data.impliedVolatility)
    && IsPrice(w, view.callBid, data.callBid) && IsPrice(w, view.callAsk, data.callAsk)
    && IsPrice(w, view.callMid, data.callMiddle) && IsGreek(w, view.callDelta, data.deltaCall)
    && IsPrice(w, view.putBid, data.putBid) && IsPrice(w, view.putAsk, data.putAsk)
    && IsPrice(w, view.putMid, data.putMiddle) && IsGreek(w, view.putDelta, data.deltaPut)
    && IsGreek(w, view.gamma, data.gamma)
  }

  /** The row of one quote: its step and instant, its expiration with the label
      column that decodes to its labels, and its figures. */
  ghost predicate IsQuoteRow(m: Market, row: Row, at: FactorRow, e: ExpiryChain, data: OptionData) {
    && row.QuoteLine?
    && row.step == at.step && row.simulatedAt == at.simulatedAt && row.symbol == m.symbol
    && row.expiresAt == e.expiresAt && row.daysToExpiration == m.wire.float(e.daysToExpiration)
    && (e.labels != [] && (forall id :: id in e.labels ==> '|' !in id) ==> Split(row.labels) == e.labels)
    && Shows(m.wire, row.quote, data)
  }

  /** `rows` are, from `first` on, the quotes of one expiration in order. */
  ghost predicate ListsQuotes(m: Market, rows: seq<Row>, first: nat, at: FactorRow, e: ExpiryChain) {
    && first + |e.chain| <= |rows|
    && forall q | 0 <= q < |e.chain| :: IsQuoteRow(m, rows[first + q], at, e, e.chain[q])
  }

  lemma QuotesOfOne(m: Market, at: FactorRow, e: ExpiryChain)
    ensures var rows := QuoteLines(at.step, at.simulatedAt, m.symbol, ReplayedView(m.wire, e));
            |rows| == |e.chain| && ListsQuotes(m, rows, 0, at, e)
  {
    if e.labels != [] && forall id :: id in e.labels ==> '|' !in id { SplitUndoesJoin(e.labels); }
    hide Split, Join;
  }

  ghost function Views(w: Wire, chains: seq<ExpiryChain>): seq<ExpirationView> {
    seq(|chains|, i requires 0 <= i < |chains| => ReplayedView(w, chains[i]))
  }

  lemma {:induction false} QuotesOfChains(m: Market, at: FactorRow, chains: seq<ExpiryChain>)
    ensures var rows := ChainLines(at.step, at.simulatedAt, m.symbol, Views(m.wire, chains));
            && |rows| == SnapshotQuoteCount(chains)
            && forall e | 0 <= e < |chains| :: ListsQuotes(m, rows, SnapshotQuoteCount(chains[..e]), at, chains[e])
  {
    hide IsQuoteRow, QuoteLines, ReplayedView;
    if chains != [] {
      var rest := chains[1..];
      assert Views(m.wire, chains)[1..] == Views(m.wire, rest);
      QuotesOfOne(m, at, chains[0]);
      QuotesOfChains(m, at, rest);
      var first := QuoteLines(at.step, at.simulatedAt, m.symbol, ReplayedView(m.wire, chains[0]));
      var later := ChainLines(at.step, at.simulatedAt, m.symbol, Views(m.wire, rest));
      forall e | 0 <= e < |chains|
        ensures ListsQuotes(m, first + later, SnapshotQuoteCount(chains[..e]), at, chains[e])
      {
        if e > 0 {
          assert chains[..e][1..] == rest[..e - 1];
          assert ListsQuotes(m, later, SnapshotQuoteCount(rest[..e - 1]), at, rest[e - 1]);
          ListedLater(m, first, later, SnapshotQuoteCount(rest[..e - 1]), at, chains[e]);
        } else {
          ListedFirst(m, first, later, 0, at, chains[0]);
        }
      }
    }
  }

  lemma ListedLater(m: Market, before: seq<Row>, rows: seq<Row>, first: nat, at: FactorRow, e: ExpiryChain)
    requires ListsQuotes(m, rows, first, at, e)
    ensures ListsQuotes(m, before + rows, |before| + first, at, e)
  {
    hide IsQuoteRow;
    forall q | 0 <= q < |e.chain| ensures IsQuoteRow(m, (before + rows)[|before| + first + q], at, e, e.chain[q]) {
      assert (before + rows)[|before| + first + q] == rows[first + q];
    }
  }

  lemma ListedFirst(m: Market, rows: seq<Row>, after: seq<Row>, first: nat, at: FactorRow, e: ExpiryChain)
    requires ListsQuotes(m, rows, first, at, e)
    ensures ListsQuotes(m, rows + after, first, at, e)
  {
    hide IsQuoteRow;
    forall q | 0 <= q < |e.chain| ensures IsQuoteRow(m, (rows + after)[first + q], at, e, e.chain[q]) {
      assert (rows + after)[first + q] == rows[first + q];
    }
  }

  /** How many quotes the steps from `step` up to, not including, `stop` have. */
  ghost function QuotesBefore(m: Market, step: nat, stop: nat): nat
    decreases stop - step
  {
    if step >= stop then 0
    else (if m.replay(step).Ok? then SnapshotQuoteCount(m.replay(step).value.chains) else 0)
         + QuotesBefore(m, step + 1, stop)
  }

  /** The quotes of one step stand in `rows` from `first` on, expiration by
      expiration and each in its chain's order. */
  ghost predicate ListsStep(m: Market, rows: seq<Row>, first: nat, at: FactorRow, chains: seq<ExpiryChain>) {
    forall e | 0 <= e < |chains| :: ListsQuotes(m, rows, first + SnapshotQuoteCount(chains[..e]), at, chains[e])
  }

  lemma StepListedLater(m: Market, before: seq<Row>, rows: seq<Row>, first: nat, at: FactorRow,
      chains: seq<ExpiryChain>)
    requires ListsStep(m, rows, first, at, chains)
    ensures ListsStep(m, before + rows, |before| + first, at, chains)
  {
    hide ListsQuotes, SnapshotQuoteCount;
    forall e | 0 <= e < |chains|
      ensures ListsQuotes(m, before + rows, |before| + first + SnapshotQuoteCount(chains[..e]), at, chains[e])
    {
      ListedLater(m, before, rows, first + SnapshotQuoteCount(chains[..e]), at, chains[e]);
    }
  }

  lemma StepListedFirst(m: Market, rows: seq<Row>, after: seq<Row>, at: FactorRow, chains: seq<ExpiryChain>)
    requires ListsStep(m, rows, 0, at, chains)
    ensures ListsStep(m, rows + after, 0, at, chains)
  {
    hide ListsQuotes, SnapshotQuoteCount;
    forall e | 0 <= e < |chains|
      ensures ListsQuotes(m, rows + after, 0 + SnapshotQuoteCount(chains[..e]), at, chains[e])
    {
      ListedFirst(m, rows, after, 0 + SnapshotQuoteCount(chains[..e]), at, chains[e]);
    }
  }

  /** A step of the chain export: one row a quote, and it needs its replay. */
  lemma StepQuotes(m: Market, step: nat)
    ensures ReplayedRows(m, OptionChains, step).Ok? <==> Covers(m, step) && m.replay(step).Ok?
    ensures ReplayedRows(m, OptionChains, step).Ok? ==>
              var rows := ReplayedRows(m, OptionChains, step).value;
              var chains := m.replay(step).value.chains;
              |rows| == SnapshotQuoteCount(chains) && ListsStep(m, rows, 0, m.tape.value[step], chains)
  {
    if Covers(m, step) && m.replay(step).Ok? {
      var s := m.replay(step).value;
      assert Expirations(m.wire, FromReplay(s)) == Views(m.wire, s.chains);
      QuotesOfChains(m, m.tape.value[step], s.chains);
    }
    hide ListsQuotes, ChainLines, SnapshotQuoteCount;
  }

  ghost predicate Replays(m: Market, step: nat, upTo: nat) {
    Covers(m, upTo) && forall i | step <= i <= upTo :: m.replay(i).Ok?
  }

  /** The chain export has one row a quote: step by step, within a step by
      expiration, within an expiration in the chain's order; it needs the tape
      to cover the range and every step to replay. */
  lemma {:induction false} ChainRows(m: Market, step: nat, upTo: nat)
    requires step <= upTo
    ensures ReplayAll(m, OptionChains, step, upTo).Ok? <==> Replays(m, step, upTo)
    ensures Replays(m, step, upTo) ==>
              var rows := ReplayAll(m, OptionChains, step, upTo).value;
              && |rows| == QuotesBefore(m, step, upTo + 1)
              && forall i | step <= i <= upTo ::
                   ListsStep(m, rows, QuotesBefore(m, step, i), m.tape.value[i], m.replay(i).value.chains)
    decreases upTo - step
  {
    hide ListsStep, SnapshotQuoteCount, ReplayedRows;
    StepQuotes(m, step);
    assert ReplayAll(m, OptionChains, upTo + 1, upTo) == Ok([]);
    if step < upTo { ChainRows(m, step + 1, upTo); }
    if Replays(m, step, upTo) {
      var rows := ReplayedRows(m, OptionChains, step).value;
      var rest := ReplayAll(m, OptionChains, step + 1, upTo).value;
      forall i | step <= i <= upTo
        ensures ListsStep(m, rows + rest, QuotesBefore(m, step, i), m.tape.value[i], m.replay(i).value.chains)
      {
        if i == step {
          StepListedFirst(m, rows, rest, m.tape.value[i], m.replay(i).value.chains);
        } else {
          StepListedLater(m, rows, rest, QuotesBefore(m, step + 1, i), m.tape.value[i], m.replay(i).value.chains);
        }
      }
    }
  }
}
