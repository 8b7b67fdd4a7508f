/** The factor tape: the market path of a simulation and the volatility that
    prices each of its steps, causally. */
module Factors {
  import opened Results
  import Rolling

  /** Prices and volatilities; zero is allowed, as it is in `Positive`. */
  type Positive = x: real | 0.0 <= x

  type TimeFrame(==, !new)
  type Shape(==, !new)

  datatype Walk =
    | Historical(timeframe: TimeFrame, symbol: string, prices: seq<Positive>)
    | Synthetic(model: nat, modelVolatility: Option<Positive>)
  {
    function Volatility(): Option<Positive> {
      match this
      case Historical(_, _, _) => None
      case Synthetic(_, v) => v
    }
  }

  /** `wellFormed` stands for every check of the parameters that does not look
      at the horizon; `shape` for what only the chain builder reads. */
  datatype Parameters = Parameters(
    steps: nat,
    maxSteps: nat,
    start: int,
    interval: nat,
    volatility: Positive,
    walk: Walk,
    wellFormed: bool,
    shape: Shape)

  datatype Path = Path(prices: seq<Positive>, vols: Option<seq<Positive>>)

  /** The decimal and option-pricing primitives, each allowed to refuse. The
      chain builder does not see the horizon. */
  datatype Numerics = Numerics(
    divide: (Positive, Positive) -> Option<real>,
    ln: real -> Option<real>,
    dispersion: seq<real> -> Option<Positive>,
    annualise: (Positive, TimeFrame) -> Option<Positive>,
    chain: (Shape, Positive) -> bool,
    generate: (Shape, nat, Walk, Positive) -> Option<Path>)

  datatype Refusal =
    | InvalidParameters
    | MethodMismatch
    | SeriesTooShort(prices: nat, steps: nat)
    | ZeroPrice(index: nat)
    | VolatilityDisagrees
    | NoReturn(index: nat)
    | NoDispersion
    | NotAnnualised
    | ZeroVolatility(step: Option<nat>)
    | VolatilityTooHigh(step: Option<nat>)
    | NoSeedingChain
    | NoWalk
    | WalkTooShort
    | ClockOverflow(cursor: nat)

  datatype Row = Row(step: nat, simulatedAt: int, spot: Positive, baseVolatility: Positive)

  // ---- guards

  predicate Valid(p: Parameters) {
    1 <= p.steps <= p.maxSteps && p.wellFormed
  }

  /** A historical method is compared by variant: resolution fills in the rest. */
  predicate MethodMatches(p: Parameters, walk: Walk) {
    if p.walk.Historical? && walk.Historical? then true else p.walk == walk
  }

  function FirstZero(prices: seq<Positive>): Option<nat> {
    if prices == [] then None
    else if prices[0] == 0.0 then Some(0)
    else
      match FirstZero(prices[1..])
      case None => None
      case Some(i) => Some(i + 1)
  }

  /** Long enough, and no zero in the walked window. */
  function CoversTheHorizon(p: Parameters, walk: Walk): Result<(), Refusal> {
    if !walk.Historical? then Ok(())
    else if |walk.prices| < p.steps then Err(SeriesTooShort(|walk.prices|, p.steps))
    else
      match FirstZero(walk.prices[..p.steps])
      case Some(index) => Err(ZeroPrice(index))
      case None => Ok(())
  }

  /** What no option chain can be priced at: zero, and anything above one. */
  function RejectUnpriceable(v: Positive, step: Option<nat>): Result<(), Refusal> {
    if v == 0.0 then Err(ZeroVolatility(step))
    else if v <= 1.0 then Ok(())
    else Err(VolatilityTooHigh(step))
  }

  // ---- log returns

  /** The log return into `prices[index]`. */
  function ReturnInto(num: Numerics, prices: seq<Positive>, index: nat): Result<real, Refusal>
    requires 1 <= index < |prices|
  {
    if prices[index - 1] == 0.0 then Err(NoReturn(index))
    else
      match num.divide(prices[index], prices[index - 1])
      case None => Err(NoReturn(index))
      case Some(ratio) =>
        match num.ln(ratio)
        case None => Err(NoReturn(index))
        case Some(log) => Ok(log)
  }

  /** The log returns of a series, refused at its first unusable price. */
  function Returns(num: Numerics, prices: seq<Positive>): (r: Result<seq<real>, Refusal>)
    ensures r.Ok? ==> |r.value| == if |prices| == 0 then 0 else |prices| - 1
  {
    if |prices| < 2 then Ok([])
    else
      var earlier :- Returns(num, prices[..|prices| - 1]);
      var last :- ReturnInto(num, prices, |prices| - 1);
      Ok(earlier + [last])
  }

  /** There is a log return from price `i` into the next. */
  predicate HasReturn(num: Numerics, prices: seq<Positive>, i: nat)
    requires i + 1 < |prices|
  {
    && prices[i] != 0.0
    && num.divide(prices[i + 1], prices[i]).Some?
    && num.ln(num.divide(prices[i + 1], prices[i]).value).Some?
  }

  /** `logs` are the logs of each price over the one before it. */
  ghost predicate AreReturns(num: Numerics, prices: seq<Positive>, logs: seq<real>) {
    && |logs| == (if prices == [] then 0 else |prices| - 1)
    && forall i | 0 <= i < |logs| ::
         && HasReturn(num, prices, i)
         && num.ln(num.divide(prices[i + 1], prices[i]).value) == Some(logs[i])
  }

  /** Price `i` is the first with no return into the next. */
  ghost predicate FirstWithout(num: Numerics, prices: seq<Positive>, i: nat)
    requires i + 1 < |prices|
  {
    !HasReturn(num, prices, i) && forall j | 0 <= j < i :: HasReturn(num, prices, j)
  }

  lemma {:induction false} ReturnsAreLogRatios(num: Numerics, prices: seq<Positive>)
    ensures Returns(num, prices).Ok? <==> forall i: nat | i + 1 < |prices| :: HasReturn(num, prices, i)
    ensures Returns(num, prices).Ok? ==> AreReturns(num, prices, Returns(num, prices).value)
    ensures Returns(num, prices).Err? ==>
              exists i: nat :: i + 1 < |prices| && FirstWithout(num, prices, i) &&
                  Returns(num, prices).error == NoReturn(i + 1)
    decreases |prices|
  {
    if |prices| >= 2 {
      var n := |prices| - 1;
      var earlier := prices[..n];
      ReturnsAreLogRatios(num, earlier);
      forall i | 0 <= i < n - 1 ensures HasReturn(num, prices, i) == HasReturn(num, earlier, i) {}
      if Returns(num, earlier).Err? {
        var i: nat :| i + 1 < n && FirstWithout(num, earlier, i) && Returns(num, earlier).error == NoReturn(i + 1);
        assert FirstWithout(num, prices, i);
      } else {
        forall i | 0 <= i < n - 1 ensures HasReturn(num, prices, i) { assert HasReturn(num, earlier, i); }
        if ReturnInto(num, prices, n).Err? { assert FirstWithout(num, prices, n - 1); }
      }
    }
  }

  /** The log of each price over the one before it; a series with a pair that
      has none is refused at the first such pair. */
  method LogReturns(num: Numerics, prices: seq<Positive>) returns (r: Result<seq<real>, Refusal>)
    ensures r == Returns(num, prices)
    ensures r.Ok? <==> forall i: nat | i + 1 < |prices| :: HasReturn(num, prices, i)
    ensures r.Ok? ==> AreReturns(num, prices, r.value)
    ensures r.Err? ==>
              exists i: nat :: i + 1 < |prices| && FirstWithout(num, prices, i) && r.error == NoReturn(i + 1)
  {
    ReturnsAreLogRatios(num, prices);
    hide AreReturns, FirstWithout, HasReturn;
    var logs := [];
    var index := 1;
    assert prices[..0] == [];
    while index < |prices|
      invariant 1 <= index && (index <= |prices| || |prices| == 0)
      invariant if |prices| > 0 then Returns(num, prices[..index]) == Ok(logs) else logs == []
    {
      assert prices[..index + 1][..index] == prices[..index];
      assert ReturnInto(num, prices[..index + 1], index) == ReturnInto(num, prices, index);
      var previous, current := prices[index - 1], prices[index];
      if previous == 0.0 {
        ReturnsStop(num, prices, index);
        return Err(NoReturn(index));
      }
      var ratio := num.divide(current, previous);
      if ratio.None? {
        ReturnsStop(num, prices, index);
        return Err(NoReturn(index));
      }
      var log := num.ln(ratio.value);
      if log.None? {
        ReturnsStop(num, prices, index);
        return Err(NoReturn(index));
      }
      logs := logs + [log.value];
      index := index + 1;
    }
    assert |prices| > 0 ==> prices[..index] == prices;
    r := Ok(logs);
  }

  /** A series is refused where its first prefix is. */
  lemma {:induction false} ReturnsStop(num: Numerics, prices: seq<Positive>, index: nat)
    requires 1 <= index < |prices| && Returns(num, prices[..index]).Ok?
    requires ReturnInto(num, prices, index).Err?
    ensures Returns(num, prices) == Err(ReturnInto(num, prices, index).error)
    decreases |prices|
  {
    var n := |prices| - 1;
    if index == n {
    } else {
      assert prices[..n][..index] == prices[..index];
      assert ReturnInto(num, prices[..n], index) == ReturnInto(num, prices, index);
      ReturnsStop(num, prices[..n], index);
    }
  }

  /** The returns of a prefix are the prefix of the returns. */
  lemma {:induction false} ReturnsOfPrefix(num: Numerics, prices: seq<Positive>, n: nat)
    requires 1 <= n <= |prices| && Returns(num, prices).Ok?
    ensures Returns(num, prices[..n]) == Ok(Returns(num, prices).value[..n - 1])
    decreases |prices| - n
  {
    if n == |prices| {
      assert prices[..n] == prices;
      assert Returns(num, prices).value[..n - 1] == Returns(num, prices).value;
    } else {
      var shorter := prices[..|prices| - 1];
      ReturnsOfPrefix(num, shorter, n);
      assert shorter[..n] == prices[..n];
      assert Returns(num, prices).value[..n - 1] == Returns(num, shorter).value[..n - 1];
    }
  }

  // ---- volatility

  /** A window's volatility, annualised. */
  function Estimate(num: Numerics, logs: seq<real>, timeframe: TimeFrame): Result<Positive, Refusal> {
    match num.dispersion(logs)
    case None => Err(NoDispersion)
    case Some(v) =>
      match num.annualise(v, timeframe)
      case None => Err(NotAnnualised)
      case Some(annual) => Ok(annual)
  }

  /** The single volatility of a stretch of prices. */
  function ConstantVolatility(num: Numerics, prices: seq<Positive>, timeframe: TimeFrame): Result<Positive, Refusal> {
    var logs :- Returns(num, prices);
    Estimate(num, logs, timeframe)
  }

  /** The estimates at points 2, ..., n - 1, each from the returns before it. */
  function Estimates(num: Numerics, logs: seq<real>, timeframe: TimeFrame, n: nat): (r: Result<seq<Positive>, Refusal>)
    requires 2 <= n && n <= |logs| + 1
    ensures r.Ok? ==> |r.value| == n - 2
  {
    if n == 2 then Ok([])
    else
      var earlier :- Estimates(num, logs, timeframe, n - 1);
      var last :- Estimate(num, logs[..n - 1], timeframe);
      Ok(earlier + [last])
  }

  /** The expanding-window volatilities: points 0 and 1 carry the first
      estimate, and fewer than three prices leave nothing to estimate. */
  function Expanding(num: Numerics, prices: seq<Positive>, timeframe: TimeFrame):
    Result<Option<seq<Positive>>, Refusal>
  {
    if |prices| < 3 then Ok(None)
    else
      var logs :- Returns(num, prices);
      var estimates :- Estimates(num, logs, timeframe, |prices|);
      Ok(Some([estimates[0], estimates[0]] + estimates))
  }

  method ExpandingWindowVolatilities(num: Numerics, prices: seq<Positive>, timeframe: TimeFrame)
    returns (r: Result<Option<seq<Positive>>, Refusal>)
    ensures r == Expanding(num, prices, timeframe)
  {
    if |prices| < 3 { return Ok(None); }
    var found := LogReturns(num, prices);
    if found.Err? { return Err(found.error); }
    var logs := found.value;
    var volatilities: seq<Positive> := [];
    var firstComputable: Option<Positive> := None;
    var point := 0;
    while point < |prices|
      invariant 0 <= point <= |prices|
      invariant point >= 2 ==> Estimates(num, logs, timeframe, point) == Ok(volatilities)
      invariant point < 2 ==> volatilities == []
      invariant firstComputable == if volatilities == [] then None else Some(volatilities[0])
    {
      if point >= 2 {
        var window := logs[..point];
        var v := num.dispersion(window);
        if v.None? {
          EstimatesStop(num, logs, timeframe, point, |prices|);
          return Err(NoDispersion);
        }
        var annual := num.annualise(v.value, timeframe);
        if annual.None? {
          EstimatesStop(num, logs, timeframe, point, |prices|);
          return Err(NotAnnualised);
        }
        if firstComputable.None? { firstComputable := Some(annual.value); }
        volatilities := volatilities + [annual.value];
      }
      point := point + 1;
    }
    if firstComputable.None? { return Ok(None); }
    r := Ok(Some([firstComputable.value, firstComputable.value] + volatilities));
  }

  lemma {:induction false} EstimatesStop(num: Numerics, logs: seq<real>, timeframe: TimeFrame, point: nat, n: nat)
    requires 2 <= point < n <= |logs| + 1
    requires Estimates(num, logs, timeframe, point).Ok? && Estimate(num, logs[..point], timeframe).Err?
    ensures Estimates(num, logs, timeframe, n) == Err(Estimate(num, logs[..point], timeframe).error)
    decreases n
  {
    if n > point + 1 { EstimatesStop(num, logs, timeframe, point, n - 1); }
  }

  // ---- the tape

  function VolatilityOf(base: Positive, vols: Option<seq<Positive>>, step: nat): Option<Positive> {
    match vols
    case None => Some(base)
    case Some(v) => if step < |v| then Some(v[step]) else None
  }

  /** One row, refused when its volatility cannot price a chain or its instant
      cannot be told. */
  function RowAt(p: Parameters, base: Positive, path: Path, step: nat): Result<Row, Refusal> {
    if step >= |path.prices| then Err(WalkTooShort)
    else
      match VolatilityOf(base, path.vols, step)
      case None => Err(WalkTooShort)
      case Some(v) =>
        var _ :- RejectUnpriceable(v, Some(step));
        match Rolling.SimulatedAt(p.start, p.interval, step)
        case None => Err(ClockOverflow(step))
        case Some(at) => Ok(Row(step, at, path.prices[step], v))
  }

  function Rows(p: Parameters, base: Positive, path: Path, n: nat): (r: Result<seq<Row>, Refusal>)
    ensures r.Ok? ==> |r.value| == n
  {
    if n == 0 then Ok([])
    else
      var earlier :- Rows(p, base, path, n - 1);
      var last :- RowAt(p, base, path, n - 1);
      Ok(earlier + [last])
  }

  /** The one authoritative base volatility: the model's, which the parameters
      must repeat, or the walked window's own. */
  function BaseVolatility(num: Numerics, p: Parameters, walk: Walk): Result<Positive, Refusal> {
    match walk.Volatility()
    case Some(v) => if v != p.volatility then Err(VolatilityDisagrees) else Ok(v)
    case None =>
      match walk
      case Historical(timeframe, _, prices) =>
        if |prices| < p.steps then Err(SeriesTooShort(|prices|, p.steps))
        else ConstantVolatility(num, prices[..p.steps], timeframe)
      case Synthetic(_, _) => Ok(p.volatility)
  }

  /** A historical walk replays the series' first `steps` prices and reports no
      volatility of its own. */
  function Walked(num: Numerics, p: Parameters, walk: Walk, base: Positive): Option<Path> {
    match walk
    case Historical(_, _, prices) => if |prices| < p.steps then None else Some(Path(prices[..p.steps], None))
    case Synthetic(_, _) => num.generate(p.shape, p.steps, walk, base)
  }

  /** The volatility of each step: the path's own, a causal estimate for a
      historical walk, or the constant. */
  function StepVolatilities(num: Numerics, walk: Walk, path: Path): Result<Option<seq<Positive>>, Refusal> {
    if path.vols.Some? then Ok(path.vols)
    else
      match walk
      case Historical(timeframe, _, _) => Expanding(num, path.prices, timeframe)
      case Synthetic(_, _) => Ok(None)
  }

  /** Everything before the first row: the guards, in their order, the seeding
      chain, and the path with its volatilities. */
  function Prepared(num: Numerics, p: Parameters, walk: Walk): Result<(Positive, Path), Refusal> {
    if !Valid(p) then Err(InvalidParameters)
    else if !MethodMatches(p, walk) then Err(MethodMismatch)
    else
      var _ :- CoversTheHorizon(p, walk);
      var base :- BaseVolatility(num, p, walk);
      var _ :- RejectUnpriceable(base, None);
      if !num.chain(p.shape, base) then Err(NoSeedingChain)
      else
        match Walked(num, p, walk, base)
        case None => Err(NoWalk)
        case Some(path) =>
          if |path.prices| < p.steps then Err(WalkTooShort)
          else
            var vols :- StepVolatilities(num, walk, path);
            Ok((base, Path(path.prices, vols)))
  }

  function Tape(num: Numerics, p: Parameters, walk: Walk): Result<seq<Row>, Refusal> {
    var prepared :- Prepared(num, p, walk);
    Rows(p, prepared.0, prepared.1, p.steps)
  }

  method Build(num: Numerics, p: Parameters, walk: Walk) returns (r: Result<seq<Row>, Refusal>)
    ensures r == Tape(num, p, walk)
  {
    if !Valid(p) { return Err(InvalidParameters); }
    if !MethodMatches(p, walk) { return Err(MethodMismatch); }
    var _ :- CoversTheHorizon(p, walk);
    var base :- BaseVolatility(num, p, walk);
    var _ :- RejectUnpriceable(base, None);
    if !num.chain(p.shape, base) { return Err(NoSeedingChain); }
    var walked := Walked(num, p, walk, base);
    if walked.None? { return Err(NoWalk); }
    var path := walked.value;
    if |path.prices| < p.steps { return Err(WalkTooShort); }
    var vols := path.vols;
    if vols.None? && walk.Historical? {
      vols :- ExpandingWindowVolatilities(num, path.prices, walk.timeframe);
    }
    ghost var whole := Path(path.prices, vols);
    var rows := [];
    var step := 0;
    while step < p.steps
      invariant 0 <= step <= p.steps
      invariant Rows(p, base, whole, step) == Ok(rows)
    {
      var spot := path.prices[step];
      var v := VolatilityOf(base, vols, step);
      if v.None? {
        RowsStop(p, base, whole, step, p.steps);
        return Err(WalkTooShort);
      }
      var priceable := RejectUnpriceable(v.value, Some(step));
      if priceable.Err? {
        RowsStop(p, base, whole, step, p.steps);
        return Err(priceable.error);
      }
      var at := Rolling.SimulatedAt(p.start, p.interval, step);
      if at.None? {
        RowsStop(p, base, whole, step, p.steps);
        return Err(ClockOverflow(step));
      }
      rows := rows + [Row(step, at.value, spot, v.value)];
      step := step + 1;
    }
    r := Ok(rows);
  }

  lemma {:induction false} RowsStop(p: Parameters, base: Positive, path: Path, step: nat, n: nat)
    requires step < n && Rows(p, base, path, step).Ok? && RowAt(p, base, path, step).Err?
    ensures Rows(p, base, path, n) == Err(RowAt(p, base, path, step).error)
    decreases n
  {
    if n > step + 1 { RowsStop(p, base, path, step, n - 1); }
  }

  // ---- what the estimates are

  lemma {:induction false} EstimatesAt(num: Numerics, logs: seq<real>, timeframe: TimeFrame, n: nat)
    requires 2 <= n <= |logs| + 1
    ensures Estimates(num, logs, timeframe, n).Ok? <==> forall p | 2 <= p < n :: Estimate(num, logs[..p], timeframe).Ok?
    ensures Estimates(num, logs, timeframe, n).Ok? ==>
              forall p | 2 <= p < n ::
                  Estimate(num, logs[..p], timeframe) == Ok(Estimates(num, logs, timeframe, n).value[p - 2])
    decreases n
  {
    if n > 2 { EstimatesAt(num, logs, timeframe, n - 1); }
  }

  /** The estimate at a point is the constant volatility of the prices seen by
      then: nothing later enters it. */
  lemma WindowSeesOnlyThePast(num: Numerics, prices: seq<Positive>, timeframe: TimeFrame, p: nat)
    requires 2 <= p < |prices| && Returns(num, prices).Ok?
    ensures ConstantVolatility(num, prices[..p + 1], timeframe) ==
            Estimate(num, Returns(num, prices).value[..p], timeframe)
  {
    ReturnsOfPrefix(num, prices, p + 1);
  }

  /** The volatility of step `p` of a historical walk, said on the prices alone. */
  function CausalVolatility(num: Numerics, prices: seq<Positive>, timeframe: TimeFrame, p: nat):
    Result<Positive, Refusal>
    requires p < |prices| && 3 <= |prices|
  {
    ConstantVolatility(num, prices[..(if p < 2 then 2 else p) + 1], timeframe)
  }

  /** The volatility of a window: the dispersion of its log returns, taken from
      the series' timeframe to a year. */
  ghost predicate IsVolatility(num: Numerics, logs: seq<real>, timeframe: TimeFrame, v: Positive) {
    && num.dispersion(logs).Some?
    && num.annualise(num.dispersion(logs).value, timeframe) == Some(v)
  }

  /** A stretch of prices has the volatility of its log returns. */
  lemma ConstantIsVolatility(num: Numerics, prices: seq<Positive>, timeframe: TimeFrame, v: Positive)
    ensures ConstantVolatility(num, prices, timeframe) == Ok(v) <==>
              exists logs :: AreReturns(num, prices, logs) && IsVolatility(num, logs, timeframe, v)
  {
    ReturnsAreLogRatios(num, prices);
    hide Returns;
    forall logs | AreReturns(num, prices, logs) ensures Returns(num, prices) == Ok(logs) {
      OneListOfReturns(num, prices, logs);
    }
    if Returns(num, prices).Ok? {
      assert AreReturns(num, prices, Returns(num, prices).value);
    }
  }

  lemma OneListOfReturns(num: Numerics, prices: seq<Positive>, logs: seq<real>)
    requires AreReturns(num, prices, logs)
    ensures Returns(num, prices) == Ok(logs)
  {
    ReturnsAreLogRatios(num, prices);
    forall i: nat | i + 1 < |prices| ensures HasReturn(num, prices, i) { assert i < |logs|; }
    hide Returns;
    var found := Returns(num, prices).value;
    forall i | 0 <= i < |logs| ensures found[i] == logs[i] {
      assert HasReturn(num, prices, i) && num.ln(num.divide(prices[i + 1], prices[i]).value) == Some(found[i]);
    }
    assert found == logs;
  }

  lemma ExpandingIsCausal(num: Numerics, prices: seq<Positive>, timeframe: TimeFrame)
    requires 3 <= |prices|
    ensures Expanding(num, prices, timeframe).Ok? <==>
              Returns(num, prices).Ok? &&
                forall p | 2 <= p < |prices| :: CausalVolatility(num, prices, timeframe, p).Ok?
    ensures Expanding(num, prices, timeframe).Ok? ==>
              && Expanding(num, prices, timeframe).value.Some?
              && |Expanding(num, prices, timeframe).value.value| == |prices|
              && forall p | 0 <= p < |prices| ::
                  CausalVolatility(num, prices, timeframe, p) == Ok(Expanding(num, prices, timeframe).value.value[p])
  {
    if Returns(num, prices).Ok? {
      var logs := Returns(num, prices).value;
      EstimatesAt(num, logs, timeframe, |prices|);
      forall p | 2 <= p < |prices|
        ensures CausalVolatility(num, prices, timeframe, p) == Estimate(num, logs[..p], timeframe)
      {
        WindowSeesOnlyThePast(num, prices, timeframe, p);
      }
      if Expanding(num, prices, timeframe).Ok? {
        var vols := Expanding(num, prices, timeframe).value.value;
        forall p | 0 <= p < |prices| ensures CausalVolatility(num, prices, timeframe, p) == Ok(vols[p]) {
          if p < 2 {
            assert CausalVolatility(num, prices, timeframe, p) == CausalVolatility(num, prices, timeframe, 2);
          }
        }
      }
    }
  }

  // ---- what the tape is

  predicate Priceable(v: Positive) {
    0.0 < v <= 1.0
  }

  predicate Usable(v: Result<Positive, Refusal>) {
    v.Ok? && Priceable(v.value)
  }

  lemma {:induction false} NoZero(prices: seq<Positive>)
    ensures FirstZero(prices).None? <==> forall i | 0 <= i < |prices| :: prices[i] != 0.0
  {
    if prices != [] {
      NoZero(prices[1..]);
      assert forall i | 1 <= i < |prices| :: prices[i] == prices[1..][i - 1];
    }
  }

  lemma {:induction false} RowsAt(p: Parameters, base: Positive, path: Path, n: nat)
    ensures Rows(p, base, path, n).Ok? <==> forall i | 0 <= i < n :: RowAt(p, base, path, i).Ok?
    ensures Rows(p, base, path, n).Ok? ==>
              forall i | 0 <= i < n :: RowAt(p, base, path, i) == Ok(Rows(p, base, path, n).value[i])
  {
    if n > 0 { RowsAt(p, base, path, n - 1); }
  }

  /** What a historical tape of at least three steps needs, stated on the
      series: only its first `steps` prices are ever looked at. */
  ghost predicate Accepts(num: Numerics, p: Parameters, timeframe: TimeFrame, prices: seq<Positive>) {
    && Valid(p) && p.walk.Historical? && 3 <= p.steps <= |prices|
    && var window := prices[..p.steps];
       && (forall i | 0 <= i < p.steps :: window[i] != 0.0)
       && Returns(num, window).Ok?
       && (forall i | 2 <= i < p.steps :: Usable(CausalVolatility(num, window, timeframe, i)))
       && num.chain(p.shape, CausalVolatility(num, window, timeframe, p.steps - 1).value)
       && (forall i | 0 <= i < p.steps :: Rolling.SimulatedAt(p.start, p.interval, i).Some?)
  }

  ghost predicate IsCausalRow(num: Numerics, p: Parameters, timeframe: TimeFrame, window: seq<Positive>, row: Row,
      i: nat)
  {
    && i < |window| && 3 <= |window|
    && row.step == i
    && row.spot == window[i]
    && Rolling.SimulatedAt(p.start, p.interval, i) == Some(row.simulatedAt)
    && CausalVolatility(num, window, timeframe, i) == Ok(row.baseVolatility)
    && Priceable(row.baseVolatility)
  }

  /** The seeding volatility is the last row's. */
  lemma SeedingIsTheLastRow(num: Numerics, window: seq<Positive>, timeframe: TimeFrame)
    requires 3 <= |window|
    ensures ConstantVolatility(num, window, timeframe) == CausalVolatility(num, window, timeframe, |window| - 1)
  {
    assert window[..|window|] == window;
  }

  lemma RowIsCausal(num: Numerics, p: Parameters, timeframe: TimeFrame, window: seq<Positive>, base: Positive, i: nat)
    requires 3 <= |window| && i < |window| && Expanding(num, window, timeframe).Ok?
    ensures var row := RowAt(p, base, Path(window, Expanding(num, window, timeframe).value), i);
            && (row.Ok? <==>
                  && Usable(CausalVolatility(num, window, timeframe, i))
                  && Rolling.SimulatedAt(p.start, p.interval, i).Some?)
            && (row.Ok? ==> IsCausalRow(num, p, timeframe, window, row.value, i))
  {
    ExpandingIsCausal(num, window, timeframe);
    hide Expanding, CausalVolatility, Rolling.SimulatedAt;
  }

  lemma HistoricalRows(num: Numerics, p: Parameters, timeframe: TimeFrame, window: seq<Positive>, base: Positive)
    requires 3 <= p.steps == |window| && Expanding(num, window, timeframe).Ok?
    ensures var rows := Rows(p, base, Path(window, Expanding(num, window, timeframe).value), p.steps);
            && (rows.Ok? <==>
                  && (forall i | 2 <= i < p.steps :: Usable(CausalVolatility(num, window, timeframe, i)))
                  && (forall i | 0 <= i < p.steps :: Rolling.SimulatedAt(p.start, p.interval, i).Some?))
            && (rows.Ok? ==> forall i | 0 <= i < p.steps :: IsCausalRow(num, p, timeframe, window, rows.value[i], i))
  {
    var path := Path(window, Expanding(num, window, timeframe).value);
    RowsAt(p, base, path, p.steps);
    forall i | 0 <= i < p.steps
      ensures && (RowAt(p, base, path, i).Ok? <==>
                    Usable(CausalVolatility(num, window, timeframe, i)) &&
                      Rolling.SimulatedAt(p.start, p.interval, i).Some?)
              && (RowAt(p, base, path, i).Ok? ==>
                  IsCausalRow(num, p, timeframe, window, RowAt(p, base, path, i).value, i))
    {
      RowIsCausal(num, p, timeframe, window, base, i);
    }
    forall i | 0 <= i < 2
      ensures CausalVolatility(num, window, timeframe, i) == CausalVolatility(num, window, timeframe, 2) {}
    hide Expanding, CausalVolatility, RowAt, IsCausalRow, Rolling.SimulatedAt;
  }

  /** A historical tape of three steps or more is accepted exactly under
      `Accepts`, and then row `i` carries price `i` and the volatility of the
      prices up to it. */
  lemma HistoricalTape(num: Numerics, p: Parameters, walk: Walk)
    requires walk.Historical? && p.steps >= 3
    ensures Tape(num, p, walk).Ok? <==> Accepts(num, p, walk.timeframe, walk.prices)
    ensures Tape(num, p, walk).Ok? ==>
              && |Tape(num, p, walk).value| == p.steps
              && forall i | 0 <= i < p.steps ::
                   IsCausalRow(num, p, walk.timeframe, walk.prices[..p.steps], Tape(num, p, walk).value[i], i)
  {
    if Valid(p) && MethodMatches(p, walk) && |walk.prices| >= p.steps {
      var window := walk.prices[..p.steps];
      NoZero(window);
      SeedingIsTheLastRow(num, window, walk.timeframe);
      ExpandingIsCausal(num, window, walk.timeframe);
      var base := ConstantVolatility(num, window, walk.timeframe);
      if Expanding(num, window, walk.timeframe).Ok? {
        HistoricalRows(num, p, walk.timeframe, window, base.value);
      }
      hide Expanding, CausalVolatility, ConstantVolatility, Returns, Rows, FirstZero, Rolling.SimulatedAt, IsCausalRow;
    }
  }

  /** Told on the prices alone: row `i` of a historical tape carries price `i`,
      priced at the volatility of the prices up to it, and of the first three
      for the rows before the third. */
  lemma HistoricalRowsPriceThePast(num: Numerics, p: Parameters, walk: Walk, i: nat) returns (logs: seq<real>)
    requires walk.Historical? && p.steps >= 3 && Tape(num, p, walk).Ok? && i < p.steps
    ensures i < |walk.prices| && 3 <= |walk.prices| && i < |Tape(num, p, walk).value|
    ensures AreReturns(num, walk.prices[..(if i < 2 then 3 else i + 1)], logs)
    ensures var row := Tape(num, p, walk).value[i];
            && row.step == i && row.spot == walk.prices[i] && 0.0 < row.baseVolatility <= 1.0
            && IsVolatility(num, logs, walk.timeframe, row.baseVolatility)
  {
    HistoricalTape(num, p, walk);
    var row := Tape(num, p, walk).value[i];
    var seen := walk.prices[..(if i < 2 then 3 else i + 1)];
    assert IsCausalRow(num, p, walk.timeframe, walk.prices[..p.steps], row, i);
    assert walk.prices[..p.steps][..(if i < 2 then 2 else i) + 1] == seen;
    hide Tape, ConstantVolatility;
    ConstantIsVolatility(num, seen, walk.timeframe, row.baseVolatility);
    hide AreReturns, IsVolatility;
    logs :| AreReturns(num, seen, logs) && IsVolatility(num, logs, walk.timeframe, row.baseVolatility);
  }

  predicate IsGuard(e: Refusal) {
    e.InvalidParameters? || e.MethodMismatch? || e.SeriesTooShort? || e.ZeroPrice?
  }

  lemma {:induction false} RowsAreNoGuard(p: Parameters, base: Positive, path: Path, n: nat)
    ensures Rows(p, base, path, n).Err? ==> !IsGuard(Rows(p, base, path, n).error)
  {
    if n > 0 { RowsAreNoGuard(p, base, path, n - 1); }
  }

  lemma {:induction false} EstimatesAreNoGuard(num: Numerics, logs: seq<real>, timeframe: TimeFrame, n: nat)
    requires 2 <= n <= |logs| + 1
    ensures Estimates(num, logs, timeframe, n).Err? ==> !IsGuard(Estimates(num, logs, timeframe, n).error)
  {
    if n > 2 { EstimatesAreNoGuard(num, logs, timeframe, n - 1); }
  }

  lemma VolatilityIsNoGuard(num: Numerics, prices: seq<Positive>, timeframe: TimeFrame)
    ensures Expanding(num, prices, timeframe).Err? ==> !IsGuard(Expanding(num, prices, timeframe).error)
    ensures ConstantVolatility(num, prices, timeframe).Err? ==>
              !IsGuard(ConstantVolatility(num, prices, timeframe).error)
  {
    ReturnsAreLogRatios(num, prices);
    if |prices| >= 3 && Returns(num, prices).Ok? {
      EstimatesAreNoGuard(num, Returns(num, prices).value, timeframe, |prices|);
    }
    hide Returns, Estimates;
  }

  /** Past the guards nothing is refused as one of them. */
  lemma PastTheGuards(num: Numerics, p: Parameters, walk: Walk)
    requires Valid(p) && MethodMatches(p, walk) && CoversTheHorizon(p, walk).Ok?
    ensures Tape(num, p, walk).Err? ==> !IsGuard(Tape(num, p, walk).error)
  {
    if walk.Historical? { VolatilityIsNoGuard(num, walk.prices[..p.steps], walk.timeframe); }
    if Prepared(num, p, walk).Ok? {
      var prepared := Prepared(num, p, walk).value;
      RowsAreNoGuard(p, prepared.0, prepared.1, p.steps);
    }
    hide Rows, Expanding, ConstantVolatility, CoversTheHorizon;
  }

  /** Price `i` is the first zero of the walked window. */
  ghost predicate FirstZeroAt(prices: seq<Positive>, steps: nat, i: nat) {
    && i < steps <= |prices| && prices[i] == 0.0
    && forall j | 0 <= j < i :: prices[j] != 0.0
  }

  lemma {:induction false} ZeroIsFirst(prices: seq<Positive>, i: nat)
    ensures FirstZero(prices) == Some(i) <==> FirstZeroAt(prices, |prices|, i)
  {
    if prices != [] && i > 0 {
      ZeroIsFirst(prices[1..], i - 1);
      assert forall j | 1 <= j < |prices| :: prices[j] == prices[1..][j - 1];
    }
  }

  lemma WindowIsCovered(p: Parameters, walk: Walk)
    requires walk.Historical? && p.steps <= |walk.prices|
    ensures forall i: nat :: CoversTheHorizon(p, walk) == Err(ZeroPrice(i)) <==> FirstZeroAt(walk.prices, p.steps, i)
    ensures CoversTheHorizon(p, walk).Ok? || CoversTheHorizon(p, walk).error.ZeroPrice?
  {
    var window := walk.prices[..p.steps];
    forall i: nat ensures FirstZero(window) == Some(i) <==> FirstZeroAt(walk.prices, p.steps, i) {
      ZeroIsFirst(window, i);
    }
    hide FirstZero, FirstZeroAt;
  }

  /** Which guard refuses: the parameters first, then the method, the length of
      the series, and its first zero. */
  lemma GuardsInOrder(num: Numerics, p: Parameters, walk: Walk)
    ensures var valid := 1 <= p.steps <= p.maxSteps && p.wellFormed;
            var matches := p.walk == walk || (p.walk.Historical? && walk.Historical?);
            var short := walk.Historical? && |walk.prices| < p.steps;
            var tape := Tape(num, p, walk);
            && (tape == Err(InvalidParameters) <==> !valid)
            && (tape == Err(MethodMismatch) <==> valid && !matches)
            && (tape.Err? && tape.error.SeriesTooShort? <==> valid && matches && short)
            && (valid && matches && short ==> tape == Err(SeriesTooShort(|walk.prices|, p.steps)))
            && forall i: nat ::
                 tape == Err(ZeroPrice(i)) <==>
                   valid && matches && walk.Historical? && FirstZeroAt(walk.prices, p.steps, i)
  {
    if walk.Historical? && p.steps <= |walk.prices| { WindowIsCovered(p, walk); }
    if Valid(p) && MethodMatches(p, walk) {
      if CoversTheHorizon(p, walk).Ok? {
        PastTheGuards(num, p, walk);
        hide Tape;
      } else {
        assert Tape(num, p, walk) == Err(CoversTheHorizon(p, walk).error);
        hide Tape;
      }
    }
    hide Rows, FirstZero, FirstZeroAt, BaseVolatility;
  }

  /** What a synthetic tape needs, and what its rows are: the path's prices, and
      its own volatilities where it reports them or the base where it does not. */
  lemma SyntheticTape(num: Numerics, p: Parameters, walk: Walk)
    requires walk.Synthetic?
    ensures var path := num.generate(p.shape, p.steps, walk, p.volatility);
            && (Tape(num, p, walk).Ok? <==>
                  && Valid(p) && p.walk == walk
                  && (walk.modelVolatility.Some? ==> walk.modelVolatility.value == p.volatility)
                  && Priceable(p.volatility) && num.chain(p.shape, p.volatility)
                  && path.Some? && p.steps <= |path.value.prices|
                  && forall i | 0 <= i < p.steps :: CarriesRow(p, p.volatility, path.value, i))
            && (Tape(num, p, walk).Ok? ==>
                  forall i | 0 <= i < p.steps ::
                    CarriesRow(p, p.volatility, path.value, i) &&
                    IsPlainRow(p, p.volatility, path.value, Tape(num, p, walk).value[i], i))
  {
    SyntheticPrepared(num, p, walk);
    var path := num.generate(p.shape, p.steps, walk, p.volatility);
    if path.Some? { SyntheticRows(p, p.volatility, path.value); }
    hide Rows, Prepared, CarriesRow, IsPlainRow;
  }

  lemma SyntheticPrepared(num: Numerics, p: Parameters, walk: Walk)
    requires walk.Synthetic?
    ensures var path := num.generate(p.shape, p.steps, walk, p.volatility);
            && (Prepared(num, p, walk).Ok? <==>
                  && Valid(p) && p.walk == walk
                  && (walk.modelVolatility.Some? ==> walk.modelVolatility.value == p.volatility)
                  && Priceable(p.volatility) && num.chain(p.shape, p.volatility)
                  && path.Some? && p.steps <= |path.value.prices|)
            && (Prepared(num, p, walk).Ok? ==> Prepared(num, p, walk).value == (p.volatility, path.value))
  {
  }

  /** A row of a path of its own, or of a constant. */
  predicate IsPlainRow(p: Parameters, base: Positive, path: Path, row: Row, i: nat)
    requires i < |path.prices| && (path.vols.Some? ==> i < |path.vols.value|)
  {
    && row.step == i && row.spot == path.prices[i]
    && Rolling.SimulatedAt(p.start, p.interval, i) == Some(row.simulatedAt)
    && row.baseVolatility == (if path.vols.Some? then path.vols.value[i] else base)
    && Priceable(row.baseVolatility)
  }

  /** What a path must carry for a row at `i`. */
  predicate CarriesRow(p: Parameters, base: Positive, path: Path, i: nat) {
    && i < |path.prices| && (path.vols.Some? ==> i < |path.vols.value|)
    && Priceable(if path.vols.Some? then path.vols.value[i] else base)
    && Rolling.SimulatedAt(p.start, p.interval, i).Some?
  }

  lemma PlainRow(p: Parameters, base: Positive, path: Path, i: nat)
    ensures RowAt(p, base, path, i).Ok? <==> CarriesRow(p, base, path, i)
    ensures RowAt(p, base, path, i).Ok? ==> IsPlainRow(p, base, path, RowAt(p, base, path, i).value, i)
  {
    hide Rolling.SimulatedAt;
  }

  lemma SyntheticRows(p: Parameters, base: Positive, path: Path)
    ensures Rows(p, base, path, p.steps).Ok? <==> forall i | 0 <= i < p.steps :: CarriesRow(p, base, path, i)
    ensures Rows(p, base, path, p.steps).Ok? ==>
              forall i | 0 <= i < p.steps ::
                CarriesRow(p, base, path, i) && IsPlainRow(p, base, path, Rows(p, base, path, p.steps).value[i], i)
  {
    RowsAt(p, base, path, p.steps);
    forall i | 0 <= i < p.steps
      ensures RowAt(p, base, path, i).Ok? <==> CarriesRow(p, base, path, i)
      ensures RowAt(p, base, path, i).Ok? ==> IsPlainRow(p, base, path, RowAt(p, base, path, i).value, i)
    {
      PlainRow(p, base, path, i);
    }
    hide Rows, RowAt, CarriesRow, IsPlainRow;
  }

  // ---- causality and horizons

  /** Series that agree on the walked window give the same tape or the same
      refusal, whatever comes after. */
  lemma TapeIsCausal(num: Numerics, p: Parameters, a: Walk, b: Walk)
    requires a.Historical? && b.Historical? && a.timeframe == b.timeframe
    requires p.steps <= |a.prices| && p.steps <= |b.prices| && a.prices[..p.steps] == b.prices[..p.steps]
    ensures Tape(num, p, a) == Tape(num, p, b)
  {
    hide FirstZero, ConstantVolatility, Expanding, Rows, RejectUnpriceable;
    assert CoversTheHorizon(p, a) == CoversTheHorizon(p, b);
    assert BaseVolatility(num, p, a) == BaseVolatility(num, p, b);
    forall base ensures Walked(num, p, a, base) == Walked(num, p, b, base) {}
    assert Prepared(num, p, a) == Prepared(num, p, b);
  }

  function Shorter(p: Parameters, m: nat): Parameters {
    p.(steps := m)
  }

  lemma ReturnsOfShorter(num: Numerics, prices: seq<Positive>, n: nat, m: nat, timeframe: TimeFrame)
    requires 3 <= m <= n <= |prices|
    ensures forall i | 0 <= i < m ::
              CausalVolatility(num, prices[..m], timeframe, i) == CausalVolatility(num, prices[..n], timeframe, i)
    ensures Returns(num, prices[..n]).Ok? ==> Returns(num, prices[..m]).Ok?
  {
    forall i | 0 <= i < m
      ensures CausalVolatility(num, prices[..m], timeframe, i) == CausalVolatility(num, prices[..n], timeframe, i)
    {
      var k := (if i < 2 then 2 else i) + 1;
      assert prices[..m][..k] == prices[..n][..k];
    }
    if Returns(num, prices[..n]).Ok? {
      ReturnsOfPrefix(num, prices[..n], m);
      assert prices[..n][..m] == prices[..m];
    }
  }

  /** An accepted series is accepted at every shorter horizon of three steps or
      more, up to one thing: the chain that seeds the walk must build at the
      shorter horizon's own volatility, which is its last row's. */
  lemma ShorterIsAccepted(num: Numerics, p: Parameters, timeframe: TimeFrame, prices: seq<Positive>, m: nat)
    requires Accepts(num, p, timeframe, prices) && 3 <= m <= p.steps
    ensures Accepts(num, Shorter(p, m), timeframe, prices) <==>
            num.chain(p.shape, CausalVolatility(num, prices[..p.steps], timeframe, m - 1).value)
  {
    ReturnsOfShorter(num, prices, p.steps, m, timeframe);
    assert forall i | 0 <= i < m :: prices[..m][i] == prices[..p.steps][i];
    hide CausalVolatility, Rolling.SimulatedAt, Returns;
  }

  /** When a horizon is refused for its seeding chain alone, that is the refusal. */
  lemma OnlyTheChainRefuses(num: Numerics, p: Parameters, walk: Walk)
    requires walk.Historical? && Valid(p) && p.walk.Historical? && 3 <= p.steps <= |walk.prices|
    requires forall i | 0 <= i < p.steps :: walk.prices[i] != 0.0
    requires Usable(ConstantVolatility(num, walk.prices[..p.steps], walk.timeframe))
    requires !num.chain(p.shape, ConstantVolatility(num, walk.prices[..p.steps], walk.timeframe).value)
    ensures Tape(num, p, walk) == Err(NoSeedingChain)
  {
    NoZero(walk.prices[..p.steps]);
    hide ConstantVolatility, FirstZero;
  }

  /** Horizon consistency. If a tape of `n` steps builds, then for every
      `3 <= m <= n` the tape of `m` steps is its first `m` rows, seeded at row
      `m - 1`'s volatility; the only way it can fail is that no chain builds
      there. */
  lemma HorizonsAgree(num: Numerics, p: Parameters, walk: Walk, m: nat)
    requires walk.Historical? && Tape(num, p, walk).Ok? && 3 <= m <= p.steps
    ensures m <= |walk.prices| && m <= |Tape(num, p, walk).value|
    ensures ConstantVolatility(num, walk.prices[..m], walk.timeframe) ==
            Ok(Tape(num, p, walk).value[m - 1].baseVolatility)
    ensures Tape(num, Shorter(p, m), walk) ==
            if num.chain(p.shape, Tape(num, p, walk).value[m - 1].baseVolatility)
            then Ok(Tape(num, p, walk).value[..m])
            else Err(NoSeedingChain)
  {
    var rows, tf := Tape(num, p, walk).value, walk.timeframe;
    HistoricalTape(num, p, walk);
    HistoricalTape(num, Shorter(p, m), walk);
    ReturnsOfShorter(num, walk.prices, p.steps, m, tf);
    ShorterIsAccepted(num, p, tf, walk.prices, m);
    SeedingIsTheLastRow(num, walk.prices[..m], tf);
    assert IsCausalRow(num, p, tf, walk.prices[..p.steps], rows[m - 1], m - 1);
    hide Tape, Accepts, CausalVolatility, ConstantVolatility, Rolling.SimulatedAt;
    if num.chain(p.shape, rows[m - 1].baseVolatility) {
      var fewer := Tape(num, Shorter(p, m), walk).value;
      forall i | 0 <= i < m ensures fewer[i] == rows[i] {
        assert IsCausalRow(num, p, tf, walk.prices[..p.steps], rows[i], i);
        assert IsCausalRow(num, Shorter(p, m), tf, walk.prices[..m], fewer[i], i);
      }
      assert fewer == rows[..m];
    } else {
      ShorterHasNoZero(num, p, tf, walk.prices, m);
      OnlyTheChainRefuses(num, Shorter(p, m), walk);
    }
  }

  lemma ShorterHasNoZero(num: Numerics, p: Parameters, timeframe: TimeFrame, prices: seq<Positive>, m: nat)
    requires Accepts(num, p, timeframe, prices) && 3 <= m <= p.steps
    ensures Valid(Shorter(p, m)) && p.walk.Historical? && forall i | 0 <= i < m :: prices[i] != 0.0
  {
    assert forall i | 0 <= i < m :: prices[i] == prices[..p.steps][i];
  }

  /** The upstream reduction answers zero when there is nothing to disperse. */
  ghost predicate ShortWindowsAreFlat(num: Numerics, timeframe: TimeFrame) {
    && (forall logs: seq<real> :: |logs| < 2 ==> num.dispersion(logs) == Some(0.0))
    && num.annualise(0.0, timeframe) == Some(0.0)
  }

  /** A historical horizon under three steps is always refused; where nothing
      else refuses it first, for its zero volatility. */
  lemma ShortHorizonsAreRefused(num: Numerics, p: Parameters, walk: Walk)
    requires walk.Historical? && p.steps < 3 && ShortWindowsAreFlat(num, walk.timeframe)
    ensures Tape(num, p, walk).Err?
    ensures Valid(p) && MethodMatches(p, walk) && CoversTheHorizon(p, walk).Ok? &&
            Returns(num, walk.prices[..p.steps]).Ok? ==>
              Tape(num, p, walk) == Err(ZeroVolatility(None))
  {
    if |walk.prices| >= p.steps {
      var window := walk.prices[..p.steps];
      if Returns(num, window).Ok? { assert num.dispersion(Returns(num, window).value) == Some(0.0); }
    }
  }

  /** A series whose first three prices have no dispersion is refused, however
      lively it is afterwards. */
  lemma FlatOpeningsAreRefused(num: Numerics, p: Parameters, walk: Walk)
    requires walk.Historical? && 3 <= p.steps <= |walk.prices|
    requires ConstantVolatility(num, walk.prices[..3], walk.timeframe) == Ok(0.0)
    ensures Tape(num, p, walk).Err?
  {
    HistoricalTape(num, p, walk);
    assert walk.prices[..p.steps][..3] == walk.prices[..3];
    assert CausalVolatility(num, walk.prices[..p.steps], walk.timeframe, 2) == Ok(0.0);
  }
}
