/** The live prediction chart: simulated OHLC candles per coin, chained close to open, three
    model predictions around each close, a history of the last 200 points, the models'
    relative-error and accuracy figures over that history, and the zoom level. */
module PredictionChart {
  import opened Values

  datatype Coin = Bitcoin | Ethereum | Solana

  /** The order in which the performance figures visit the coins. */
  const Coins: seq<Coin> := [Bitcoin, Ethereum, Solana]

  function BasePrice(coin: Coin): real
  {
    match coin
    case Bitcoin => 45000.0
    case Ethereum => 2300.0
    case Solana => 85.0
  }

  function Volatility(coin: Coin): real
  {
    match coin
    case Bitcoin => 0.02
    case Ethereum => 0.025
    case Solana => 0.03
  }

  function Max(a: real, b: real): real
  {
    if a >= b then a else b
  }

  function Min(a: real, b: real): real
  {
    if a <= b then a else b
  }

  function Abs(a: real): real
  {
    if a >= 0.0 then a else -a
  }

  /** One candle: its clock reading, open, high, low and close. */
  datatype Candle = Candle(x: int, o: real, h: real, l: real, c: real)

  /** The four draws of `Math.random()` a candle consumes. */
  datatype CandleDraws = CandleDraws(open: real, change: real, high: real, low: real)

  predicate Unit(r: real)
  {
    0.0 <= r < 1.0
  }

  predicate UnitCandle(d: CandleDraws)
  {
    Unit(d.open) && Unit(d.change) && Unit(d.high) && Unit(d.low)
  }

  /** `previousClose || basePrice * (1 + (r - 0.5) * volatility)`: a previous close of 0 is
      falsy and is drawn afresh. */
  function OpenPrice(base: real, vol: real, previousClose: Option<real>, r: real): real
  {
    if previousClose.Some? && previousClose.value != 0.0 then previousClose.value
    else base * (1.0 + (r - 0.5) * vol)
  }

  /** `open * (1 + (r - 0.5) * volatility)`. */
  function CloseAfter(o: real, vol: real, r: real): real
  {
    o * (1.0 + (r - 0.5) * vol)
  }

  /** `m * (1 + r * volatility * 0.5)`. */
  function Above(m: real, vol: real, r: real): real
  {
    m * (1.0 + r * vol * 0.5)
  }

  /** `m * (1 - r * volatility * 0.5)`. */
  function Below(m: real, vol: real, r: real): real
  {
    m * (1.0 - r * vol * 0.5)
  }

  /** The candle of a given open. */
  function CandleAt(now: int, o: real, vol: real, d: CandleDraws): Candle
  {
    var c := CloseAfter(o, vol, d.change);
    Candle(now, o, Above(Max(o, c), vol, d.high), Below(Min(o, c), vol, d.low), c)
  }

  /** `generateCandleData`, with the clock reading and the draws as inputs. */
  function CandleOf(now: int, base: real, vol: real, previousClose: Option<real>, d: CandleDraws): Candle
  {
    CandleAt(now, OpenPrice(base, vol, previousClose, d.open), vol, d)
  }

  /** A candle whose prices are positive and whose high and low enclose its open and close. */
  predicate WellFormed(k: Candle)
  {
    0.0 < k.l <= Min(k.o, k.c) && Max(k.o, k.c) <= k.h && k.o > 0.0 && k.c > 0.0
  }

  lemma MulNonNegative(a: real, b: real)
    requires a >= 0.0 && b >= 0.0
    ensures a * b >= 0.0
  {
  }

  lemma MulPositive(a: real, b: real)
    requires a > 0.0 && b > 0.0
    ensures a * b > 0.0
  {
  }

  lemma ScaleUp(m: real, f: real)
    requires m > 0.0 && f >= 1.0
    ensures m * f >= m
  {
    MulNonNegative(m, f - 1.0);
  }

  lemma ScaleDown(m: real, f: real)
    requires m > 0.0 && 0.0 < f <= 1.0
    ensures 0.0 < m * f <= m
  {
    MulNonNegative(m, 1.0 - f);
    MulPositive(m, f);
  }

  lemma CloseFactor(r: real, vol: real)
    requires Unit(r) && 0.0 <= vol < 2.0
    ensures 1.0 + (r - 0.5) * vol > 0.0
  {
    MulNonNegative(r, vol);
    assert (r - 0.5) * vol == r * vol - 0.5 * vol;
  }

  lemma HighFactor(r: real, vol: real)
    requires Unit(r) && 0.0 <= vol
    ensures 1.0 + r * vol * 0.5 >= 1.0
  {
    MulNonNegative(r, vol);
  }

  lemma LowFactor(r: real, vol: real)
    requires Unit(r) && 0.0 <= vol < 2.0
    ensures 0.0 < 1.0 - r * vol * 0.5 <= 1.0
  {
    MulNonNegative(r, vol);
    MulNonNegative(1.0 - r, vol);
    assert (1.0 - r) * vol == vol - r * vol;
    assert r * vol <= vol;
    assert r * vol * 0.5 == (r * vol) * 0.5;
  }

  /** With a positive open, a volatility in [0, 2) and draws in [0, 1), a candle is well
      formed: its close stays positive, its high is at least the larger and its low at most the
      smaller of open and close. */
  lemma CandleBounds(now: int, base: real, vol: real, previousClose: Option<real>, d: CandleDraws)
    requires UnitCandle(d) && 0.0 <= vol < 2.0
    requires OpenPrice(base, vol, previousClose, d.open) > 0.0
    ensures WellFormed(CandleOf(now, base, vol, previousClose, d))
  {
    CandleAtBounds(now, OpenPrice(base, vol, previousClose, d.open), vol, d);
  }

  lemma CandleAtBounds(now: int, o: real, vol: real, d: CandleDraws)
    requires UnitCandle(d) && 0.0 <= vol < 2.0 && o > 0.0
    ensures WellFormed(CandleAt(now, o, vol, d))
  {
    ClosePositive(o, d.change, vol);
    var c := CloseAfter(o, vol, d.change);
    HighAbove(Max(o, c), d.high, vol);
    LowBelow(Min(o, c), d.low, vol);
  }

  lemma ClosePositive(o: real, r: real, vol: real)
    requires o > 0.0 && Unit(r) && 0.0 <= vol < 2.0
    ensures CloseAfter(o, vol, r) > 0.0
  {
    CloseFactor(r, vol);
    MulPositive(o, 1.0 + (r - 0.5) * vol);
  }

  lemma HighAbove(m: real, r: real, vol: real)
    requires m > 0.0 && Unit(r) && 0.0 <= vol
    ensures Above(m, vol, r) >= m
  {
    HighFactor(r, vol);
    ScaleUp(m, 1.0 + r * vol * 0.5);
  }

  lemma LowBelow(m: real, r: real, vol: real)
    requires m > 0.0 && Unit(r) && 0.0 <= vol < 2.0
    ensures 0.0 < Below(m, vol, r) <= m
  {
    LowFactor(r, vol);
    ScaleDown(m, 1.0 - r * vol * 0.5);
    MulNonNegative(r, vol);
    MulNonNegative(m, r * vol);
    assert Below(m, vol, r) == m - 0.5 * (m * (r * vol));
  }

  /** A drawn open is positive for a positive base price and a volatility below 2; a positive
      previous close is taken over as the open. */
  lemma OpenPositive(base: real, vol: real, previousClose: Option<real>, r: real)
    requires base > 0.0 && 0.0 <= vol < 2.0 && Unit(r)
    requires previousClose.Some? ==> previousClose.value >= 0.0
    ensures OpenPrice(base, vol, previousClose, r) > 0.0
    ensures previousClose.Some? && previousClose.value > 0.0 ==> OpenPrice(base, vol, previousClose, r) == previousClose.value
  {
    MulNonNegative(r, vol);
    assert (r - 0.5) * vol == r * vol - 0.5 * vol;
    MulPositive(base, 1.0 + (r - 0.5) * vol);
  }

  /** The colour test of the chart's current candle. */
  predicate Bullish(k: Candle)
  {
    k.c >= k.o
  }

  /** A candle with a positive open and a positive volatility is bullish exactly when its
      change draw is at least one half. */
  lemma BullishIffRising(now: int, base: real, vol: real, previousClose: Option<real>, d: CandleDraws)
    requires vol > 0.0 && OpenPrice(base, vol, previousClose, d.open) > 0.0
    ensures Bullish(CandleOf(now, base, vol, previousClose, d)) <==> d.change >= 0.5
  {
    RisesIff(OpenPrice(base, vol, previousClose, d.open), vol, d.change);
  }

  lemma RisesIff(o: real, vol: real, r: real)
    requires vol > 0.0 && o > 0.0
    ensures CloseAfter(o, vol, r) >= o <==> r >= 0.5
  {
    var ch := (r - 0.5) * vol;
    assert CloseAfter(o, vol, r) - o == o * ch;
    if r >= 0.5 {
      MulNonNegative(r - 0.5, vol);
      MulNonNegative(o, ch);
    } else {
      MulPositive(0.5 - r, vol);
      MulPositive(o, -ch);
    }
  }

  /** `close * (1 + (r - 0.5) * width)`: a prediction around a close. */
  function Predicted(close: real, width: real, r: real): real
  {
    close * (1.0 + (r - 0.5) * width)
  }

  /** A prediction around a positive close is off by at most half its width, relatively. */
  lemma PredictionWithinHalfWidth(close: real, width: real, r: real)
    requires close > 0.0 && width >= 0.0 && Unit(r)
    ensures Abs((Predicted(close, width, r) - close) / close) <= width / 2.0
  {
    var e := (r - 0.5) * width;
    assert Predicted(close, width, r) - close == close * e;
    assert (close * e) / close == e;
    MulNonNegative(r, width);
    MulNonNegative(1.0 - r, width);
    assert e == r * width - 0.5 * width;
  }

  /** The widths of the live predictions: the coin's volatility times 0.8, 0.9 and 1.1. */
  function Factor(m: Forecaster): real
  {
    match m
    case TFT => 0.8
    case NBEATS => 0.9
    case DeepAR => 1.1
  }

  /** The widths of the predictions of the fifty initial points, as written out per coin. */
  function InitialWidth(coin: Coin, m: Forecaster): real
  {
    match coin
    case Bitcoin => (match m case TFT => 0.016 case NBEATS => 0.018 case DeepAR => 0.022)
    case Ethereum => (match m case TFT => 0.020 case NBEATS => 0.023 case DeepAR => 0.028)
    case Solana => (match m case TFT => 0.024 case NBEATS => 0.027 case DeepAR => 0.033)
  }

  /** A coin's entry of a point: its candle and the three predictions. */
  datatype CoinPoint = CoinPoint(actual: Candle, tft: real, nbeats: real, deepar: real)

  function PredictionOf(cp: CoinPoint, m: Forecaster): real
  {
    match m
    case TFT => cp.tft
    case NBEATS => cp.nbeats
    case DeepAR => cp.deepar
  }

  datatype Point = Point(timestamp: int, bitcoin: CoinPoint, ethereum: CoinPoint, solana: CoinPoint)

  function At(p: Point, coin: Coin): CoinPoint
  {
    match coin
    case Bitcoin => p.bitcoin
    case Ethereum => p.ethereum
    case Solana => p.solana
  }

  /** The draws of a coin's entry: the candle's and one per prediction. */
  datatype CoinDraws = CoinDraws(candle: CandleDraws, tft: real, nbeats: real, deepar: real)

  predicate UnitCoin(d: CoinDraws)
  {
    UnitCandle(d.candle) && Unit(d.tft) && Unit(d.nbeats) && Unit(d.deepar)
  }

  datatype PointDraws = PointDraws(bitcoin: CoinDraws, ethereum: CoinDraws, solana: CoinDraws)

  function DrawsAt(d: PointDraws, coin: Coin): CoinDraws
  {
    match coin
    case Bitcoin => d.bitcoin
    case Ethereum => d.ethereum
    case Solana => d.solana
  }

  predicate UnitPoint(d: PointDraws)
  {
    UnitCoin(d.bitcoin) && UnitCoin(d.ethereum) && UnitCoin(d.solana)
  }

  /** `previousData?.<coin>.actual.c`. */
  function PreviousClose(previous: Option<Point>, coin: Coin): Option<real>
  {
    if previous.Some? then Some(At(previous.value, coin).actual.c) else None
  }

  /** `generateCryptoPredictions` for one coin. */
  function LiveCoin(now: int, coin: Coin, previousClose: Option<real>, d: CoinDraws): CoinPoint
  {
    var a := CandleOf(now, BasePrice(coin), Volatility(coin), previousClose, d.candle);
    var v := Volatility(coin);
    CoinPoint(a, Predicted(a.c, v * Factor(TFT), d.tft), Predicted(a.c, v * Factor(NBEATS), d.nbeats),
              Predicted(a.c, v * Factor(DeepAR), d.deepar))
  }

  /** `generatePredictionData`: a new point after the previous one, if any. */
  function LivePoint(now: int, previous: Option<Point>, d: PointDraws): Point
  {
    Point(now, LiveCoin(now, Bitcoin, PreviousClose(previous, Bitcoin), d.bitcoin),
          LiveCoin(now, Ethereum, PreviousClose(previous, Ethereum), d.ethereum),
          LiveCoin(now, Solana, PreviousClose(previous, Solana), d.solana))
  }

  /** Every candle of a point is well formed. */
  predicate PointWellFormed(p: Point)
  {
    WellFormed(p.bitcoin.actual) && WellFormed(p.ethereum.actual) && WellFormed(p.solana.actual)
  }

  /** Each coin's candle opens at the previous point's close. */
  predicate Follows(previous: Point, p: Point)
  {
    forall coin :: At(p, coin).actual.o == At(previous, coin).actual.c
  }

  /** A coin's candle after a previous point (or none), for draws in [0, 1): well formed, and
      opening at the previous close. */
  lemma CoinCandleChains(now: int, coin: Coin, previous: Option<Point>, d: CandleDraws)
    requires UnitCandle(d)
    requires previous.Some? ==> PointWellFormed(previous.value)
    ensures var k := CandleOf(now, BasePrice(coin), Volatility(coin), PreviousClose(previous, coin), d);
      && WellFormed(k)
      && (previous.Some? ==> k.o == At(previous.value, coin).actual.c)
  {
    var prev := PreviousClose(previous, coin);
    OpenPositive(BasePrice(coin), Volatility(coin), prev, d.open);
    CandleBounds(now, BasePrice(coin), Volatility(coin), prev, d);
  }

  /** A live point after a well-formed one is well formed and follows it. */
  lemma LivePointChains(now: int, previous: Option<Point>, d: PointDraws)
    requires UnitPoint(d)
    requires previous.Some? ==> PointWellFormed(previous.value)
    ensures PointWellFormed(LivePoint(now, previous, d))
    ensures previous.Some? ==> Follows(previous.value, LivePoint(now, previous, d))
  {
    CoinCandleChains(now, Bitcoin, previous, d.bitcoin.candle);
    CoinCandleChains(now, Ethereum, previous, d.ethereum.candle);
    CoinCandleChains(now, Solana, previous, d.solana.candle);
  }

  /** Every live prediction is within half its width of the close it was made around, and of
      the three, TFT's width is the narrowest and DeepAR's the widest. */
  lemma LivePredictionsWithinBand(now: int, coin: Coin, previousClose: Option<real>, d: CoinDraws, m: Forecaster)
    requires UnitCoin(d)
    requires WellFormed(LiveCoin(now, coin, previousClose, d).actual)
    ensures var cp := LiveCoin(now, coin, previousClose, d);
      Abs((PredictionOf(cp, m) - cp.actual.c) / cp.actual.c) <= Volatility(coin) * Factor(m) / 2.0
    ensures Factor(TFT) < Factor(NBEATS) < Factor(DeepAR)
  {
    var cp := LiveCoin(now, coin, previousClose, d);
    var r := match m case TFT => d.tft case NBEATS => d.nbeats case DeepAR => d.deepar;
    PredictionWithinHalfWidth(cp.actual.c, Volatility(coin) * Factor(m), r);
  }

  const DayMs: int := 24 * 60 * 60 * 1000

  /** A coin's entry of an initial point. */
  function InitialCoin(now: int, coin: Coin, previousClose: Option<real>, d: CoinDraws): CoinPoint
  {
    var a := CandleOf(now, BasePrice(coin), Volatility(coin), previousClose, d.candle);
    CoinPoint(a, Predicted(a.c, InitialWidth(coin, TFT), d.tft), Predicted(a.c, InitialWidth(coin, NBEATS), d.nbeats),
              Predicted(a.c, InitialWidth(coin, DeepAR), d.deepar))
  }

  /** The `i`-th initial point: a day after the previous one, its candles chained to it. */
  function InitialPoint(startTime: int, i: int, now: int, previous: Option<Point>, d: PointDraws): Point
  {
    Point(startTime + i * DayMs, InitialCoin(now, Bitcoin, PreviousClose(previous, Bitcoin), d.bitcoin),
          InitialCoin(now, Ethereum, PreviousClose(previous, Ethereum), d.ethereum),
          InitialCoin(now, Solana, PreviousClose(previous, Solana), d.solana))
  }

  /** The first `n` initial points; the first has no previous point. */
  function InitialPoints(startTime: int, nows: seq<int>, draws: seq<PointDraws>, n: nat): (ps: seq<Point>)
    requires n <= |nows| && n <= |draws|
    ensures |ps| == n
    decreases n
  {
    if n == 0 then []
    else
      var ps := InitialPoints(startTime, nows, draws, n - 1);
      ps + [InitialPoint(startTime, n - 1, nows[n - 1], if n == 1 then None else Some(ps[n - 2]), draws[n - 1])]
  }

  /** A history every candle of which is well formed and opens at the previous close. */
  predicate Chained(ps: seq<Point>)
  {
    && (forall i :: 0 <= i < |ps| ==> PointWellFormed(ps[i]))
    && (forall i, j :: 0 <= i < |ps| && 0 <= j < |ps| && j == i + 1 ==> Follows(ps[i], ps[j]))
  }

  /** The initial points lie a day apart from the start time, and for draws in [0, 1) they
      form a chained history. */
  lemma {:induction false} InitialPointsChained(startTime: int, nows: seq<int>, draws: seq<PointDraws>, n: nat)
    requires n <= |nows| && n <= |draws|
    requires forall i :: 0 <= i < |draws| ==> UnitPoint(draws[i])
    ensures var ps := InitialPoints(startTime, nows, draws, n);
      && Chained(ps)
      && forall i :: 0 <= i < n ==> ps[i].timestamp == startTime + i * DayMs
    decreases n
  {
    if n > 0 {
      var ps := InitialPoints(startTime, nows, draws, n - 1);
      InitialPointsChained(startTime, nows, draws, n - 1);
      var previous := if n == 1 then None else Some(ps[n - 2]);
      var p := InitialPoint(startTime, n - 1, nows[n - 1], previous, draws[n - 1]);
      InitialPointChains(startTime, n - 1, nows[n - 1], previous, draws[n - 1]);
      ChainedAppend(ps, p);
      assert InitialPoints(startTime, nows, draws, n) == ps + [p];
    }
  }

  /** An initial point after a well-formed one (or none) is well formed and follows it. */
  lemma InitialPointChains(startTime: int, i: int, now: int, previous: Option<Point>, d: PointDraws)
    requires UnitPoint(d)
    requires previous.Some? ==> PointWellFormed(previous.value)
    ensures PointWellFormed(InitialPoint(startTime, i, now, previous, d))
    ensures previous.Some? ==> Follows(previous.value, InitialPoint(startTime, i, now, previous, d))
  {
    CoinCandleChains(now, Bitcoin, previous, d.bitcoin.candle);
    CoinCandleChains(now, Ethereum, previous, d.ethereum.candle);
    CoinCandleChains(now, Solana, previous, d.solana.candle);
  }

  /** The loop that builds the initial points, one per clock reading and set of draws (the
      component asks for fifty). */
  method InitialData(startTime: int, nows: seq<int>, draws: seq<PointDraws>) returns (data: seq<Point>)
    requires |nows| == |draws|
    ensures data == InitialPoints(startTime, nows, draws, |draws|)
  {
    data := [];
    var i := 0;
    while i < |draws|
      invariant 0 <= i <= |draws|
      invariant data == InitialPoints(startTime, nows, draws, i)
    {
      var previous := if i == 0 then None else Some(data[i - 1]);
      var p := InitialPoint(startTime, i, nows[i], previous, draws[i]);
      data := data + [p];
      i := i + 1;
    }
  }

  /** A clock reading and draws in [0, 1) for each initial point, and no more points than the
      buffer holds. */
  predicate InitialDraws(nows: seq<int>, draws: seq<PointDraws>)
  {
    |nows| == |draws| <= HistoryLength && forall i :: 0 <= i < |draws| ==> UnitPoint(draws[i])
  }

  /** The initial points form a chained history that fits the buffer. */
  lemma InitialHistory(startTime: int, nows: seq<int>, draws: seq<PointDraws>)
    requires InitialDraws(nows, draws)
    ensures var ps := InitialPoints(startTime, nows, draws, |draws|);
      Chained(ps) && NonZeroCloses(ps) && |ps| <= HistoryLength
  {
    InitialPointsChained(startTime, nows, draws, |draws|);
    ChainedNonZero(InitialPoints(startTime, nows, draws, |draws|));
  }

  /** The history and the figures the chart starts from on activation. */
  method InitialState(startTime: int, nows: seq<int>, draws: seq<PointDraws>) returns (h: seq<Point>, perf: seq<Performance>)
    requires InitialDraws(nows, draws)
    ensures Chained(h) && |h| <= HistoryLength && NonZeroCloses(h)
    ensures h == InitialPoints(startTime, nows, draws, |draws|) && perf == PerformanceOf(h)
  {
    h := InitialData(startTime, nows, draws);
    InitialHistory(startTime, nows, draws);
    perf := CalculateModelPerformance(h);
  }

  /** `xs.slice(-k)` for a positive `k`. */
  function Last<T>(k: nat, xs: seq<T>): (r: seq<T>)
    requires k > 0
    ensures |r| == if |xs| <= k then |xs| else k
    ensures r == xs[|xs| - |r|..]
  {
    if |xs| <= k then xs else xs[|xs| - k..]
  }

  const HistoryLength: nat := 200

  /** One interval tick: a live point after the last one, kept with at most 199 older ones. */
  function Updated(history: seq<Point>, now: int, d: PointDraws): seq<Point>
  {
    var previous := if history == [] then None else Some(history[|history| - 1]);
    Last(HistoryLength, history + [LivePoint(now, previous, d)])
  }

  /** An update appends the new point and keeps only the last 200 points, in their order. */
  lemma UpdateKeepsLast200(history: seq<Point>, now: int, d: PointDraws)
    ensures var r := Updated(history, now, d);
      && |r| == (if |history| < HistoryLength then |history| + 1 else HistoryLength)
      && r[|r| - 1] == LivePoint(now, if history == [] then None else Some(history[|history| - 1]), d)
      && (forall i :: 0 <= i < |r| - 1 ==> r[i] == history[|history| + 1 - |r| + i])
  {
  }

  /** Appending a point that follows the last one keeps a history chained. */
  lemma ChainedAppend(history: seq<Point>, p: Point)
    requires Chained(history) && PointWellFormed(p)
    requires history != [] ==> Follows(history[|history| - 1], p)
    ensures Chained(history + [p])
  {
    var all := history + [p];
    forall i, j | 0 <= i < |all| && 0 <= j < |all| && j == i + 1 ensures Follows(all[i], all[j]) {
      if j < |history| {
        assert all[i] == history[i] && all[j] == history[j];
      }
    }
  }

  /** Every suffix of a chained history is chained. */
  lemma ChainedSuffix(history: seq<Point>, s: nat)
    requires Chained(history) && s <= |history|
    ensures Chained(history[s..])
  {
    var r := history[s..];
    forall i, j | 0 <= i < |r| && 0 <= j < |r| && j == i + 1 ensures Follows(r[i], r[j]) {
      assert r[i] == history[s + i] && r[j] == history[s + j];
    }
  }

  /** An update keeps a history chained. */
  lemma UpdateKeepsChained(history: seq<Point>, now: int, d: PointDraws)
    requires UnitPoint(d) && Chained(history)
    ensures Chained(Updated(history, now, d))
  {
    var previous := if history == [] then None else Some(history[|history| - 1]);
    var p := LivePoint(now, previous, d);
    LivePointChains(now, previous, d);
    ChainedAppend(history, p);
    var all := history + [p];
    ChainedSuffix(all, |all| - |Last(HistoryLength, all)|);
  }

  /** A model's figures over the history. */
  datatype Performance = Performance(model: string, accuracy: real, avgError: real)

  /** `model.toUpperCase()`. */
  function ModelLabel(m: Forecaster): string
  {
    match m
    case TFT => "TFT"
    case NBEATS => "NBEATS"
    case DeepAR => "DEEPAR"
  }

  predicate NonZeroCloses(history: seq<Point>)
  {
    forall i :: 0 <= i < |history| ==>
      history[i].bitcoin.actual.c != 0.0 && history[i].ethereum.actual.c != 0.0 && history[i].solana.actual.c != 0.0
  }

  lemma ChainedNonZero(history: seq<Point>)
    requires Chained(history)
    ensures NonZeroCloses(history)
  {
  }

  /** `Math.abs((predicted - actual) / actual)`. */
  function RelError(cp: CoinPoint, m: Forecaster): real
    requires cp.actual.c != 0.0
  {
    Abs((PredictionOf(cp, m) - cp.actual.c) / cp.actual.c)
  }

  lemma CloseOf(history: seq<Point>, i: int, coin: Coin)
    requires NonZeroCloses(history) && 0 <= i < |history|
    ensures At(history[i], coin).actual.c != 0.0
  {
  }

  /** The errors of a model on one coin, summed over the history. */
  function ErrorSum(history: seq<Point>, coin: Coin, m: Forecaster): (s: real)
    requires NonZeroCloses(history)
    ensures s >= 0.0
    decreases |history|
  {
    if history == [] then 0.0
    else
      var n := |history| - 1;
      CloseOf(history, n, coin);
      ErrorSum(history[..n], coin, m) + RelError(At(history[n], coin), m)
  }

  /** The errors summed over the first `k` coins. */
  function CoinsError(history: seq<Point>, m: Forecaster, k: nat): (s: real)
    requires NonZeroCloses(history) && k <= 3
    ensures s >= 0.0
  {
    if k == 0 then 0.0 else CoinsError(history, m, k - 1) + ErrorSum(history, Coins[k - 1], m)
  }

  /** `totalError / totalPoints`, over the three coins. */
  function AvgError(history: seq<Point>, m: Forecaster): real
    requires NonZeroCloses(history) && history != []
  {
    CoinsError(history, m, 3) / (3 * |history|) as real
  }

  /** `Math.max(0, (1 - avgError) * 100)`. */
  function Accuracy(avgError: real): real
  {
    Max(0.0, (1.0 - avgError) * 100.0)
  }

  function PerformanceFor(history: seq<Point>, m: Forecaster): Performance
    requires NonZeroCloses(history) && history != []
  {
    var e := AvgError(history, m);
    Performance(ModelLabel(m), Accuracy(e), e * 100.0)
  }

  /** `calculateModelPerformance`, without the randomly drawn trend. */
  function PerformanceOf(history: seq<Point>): seq<Performance>
    requires NonZeroCloses(history)
  {
    if |history| < 2 then []
    else [PerformanceFor(history, TFT), PerformanceFor(history, NBEATS), PerformanceFor(history, DeepAR)]
  }

  /** Under two points there are no figures; otherwise there are three, for TFT, N-BEATS and
      DeepAR in that order, each with a non-negative error and an accuracy in [0, 100]. */
  lemma PerformanceShape(history: seq<Point>)
    requires NonZeroCloses(history)
    ensures var r := PerformanceOf(history);
      && (|history| < 2 <==> r == [])
      && (|history| >= 2 ==> |r| == 3 && r[0].model == "TFT" && r[1].model == "NBEATS" && r[2].model == "DEEPAR")
      && forall i :: 0 <= i < |r| ==> r[i].avgError >= 0.0 && 0.0 <= r[i].accuracy <= 100.0
  {
    if |history| >= 2 {
      var n := (3 * |history|) as real;
      forall m ensures AvgError(history, m) >= 0.0 {
        QuotientNonNegative(CoinsError(history, m, 3), n);
      }
    }
  }

  /** A non-negative total over a positive count gives a non-negative average. */
  lemma QuotientNonNegative(s: real, n: real)
    requires s >= 0.0 && n > 0.0
    ensures s / n >= 0.0
  {
    var q := s / n;
    assert q * n == s;
  }

  /** Every prediction of a model on a coin equals the close. */
  predicate Exact(history: seq<Point>, coin: Coin, m: Forecaster)
  {
    forall i :: 0 <= i < |history| ==> PredictionOf(At(history[i], coin), m) == At(history[i], coin).actual.c
  }

  lemma ExactSplit(history: seq<Point>, coin: Coin, m: Forecaster)
    requires history != []
    ensures var n := |history| - 1;
      Exact(history, coin, m) <==> Exact(history[..n], coin, m) && PredictionOf(At(history[n], coin), m) == At(history[n], coin).actual.c
  {
    var n := |history| - 1;
    assert forall i :: 0 <= i < n ==> history[..n][i] == history[i];
  }

  lemma RelErrorZero(cp: CoinPoint, m: Forecaster)
    requires cp.actual.c != 0.0
    ensures RelError(cp, m) == 0.0 <==> PredictionOf(cp, m) == cp.actual.c
  {
    var e := (PredictionOf(cp, m) - cp.actual.c) / cp.actual.c;
    assert e * cp.actual.c == PredictionOf(cp, m) - cp.actual.c;
  }

  /** A model's summed error on a coin is zero exactly when each of its predictions on that
      coin equals the close. */
  lemma {:induction false} ErrorSumZero(history: seq<Point>, coin: Coin, m: Forecaster)
    requires NonZeroCloses(history)
    ensures ErrorSum(history, coin, m) == 0.0 <==> Exact(history, coin, m)
    decreases |history|
  {
    if history != [] {
      var n := |history| - 1;
      ErrorSumZero(history[..n], coin, m);
      CloseOf(history, n, coin);
      RelErrorZero(At(history[n], coin), m);
      ExactSplit(history, coin, m);
    }
  }

  lemma DivZero(s: real, n: real)
    requires n > 0.0
    ensures s / n == 0.0 <==> s == 0.0
  {
    var q := s / n;
    assert q * n == s;
  }

  /** A model scores an average error of 0 and an accuracy of 100 exactly when every one of its
      predictions over the history equals the close, on every coin. */
  lemma PerfectIffExact(history: seq<Point>, m: Forecaster)
    requires NonZeroCloses(history) && history != []
    ensures AvgError(history, m) == 0.0 <==> forall coin :: Exact(history, coin, m)
    ensures AvgError(history, m) == 0.0 ==> Accuracy(AvgError(history, m)) == 100.0
  {
    ErrorSumZero(history, Bitcoin, m);
    ErrorSumZero(history, Ethereum, m);
    ErrorSumZero(history, Solana, m);
    DivZero(CoinsError(history, m, 3), (3 * |history|) as real);
    assert Coins[0] == Bitcoin && Coins[1] == Ethereum && Coins[2] == Solana;
    assert CoinsError(history, m, 1) == ErrorSum(history, Bitcoin, m);
    assert CoinsError(history, m, 2) == CoinsError(history, m, 1) + ErrorSum(history, Ethereum, m);
    assert CoinsError(history, m, 3) == CoinsError(history, m, 2) + ErrorSum(history, Solana, m);
    assert (forall coin :: Exact(history, coin, m)) <==> Exact(history, Bitcoin, m) && Exact(history, Ethereum, m) && Exact(history, Solana, m) by {
      if Exact(history, Bitcoin, m) && Exact(history, Ethereum, m) && Exact(history, Solana, m) {
        forall coin ensures Exact(history, coin, m) {
          if coin == Bitcoin { } else if coin == Ethereum { } else { }
        }
      }
    }
  }

  /** The nested `forEach` loops over the coins and the points that total a model's error. */
  method TotalError(history: seq<Point>, m: Forecaster) returns (totalError: real, totalPoints: int)
    requires NonZeroCloses(history)
    ensures totalError == CoinsError(history, m, 3) && totalPoints == 3 * |history|
  {
    totalError := 0.0;
    totalPoints := 0;
    var k := 0;
    while k < 3
      invariant 0 <= k <= 3
      invariant totalError == CoinsError(history, m, k) && totalPoints == k * |history|
    {
      var coin := Coins[k];
      var j := 0;
      while j < |history|
        invariant 0 <= j <= |history|
        invariant NonZeroCloses(history[..j])
        invariant totalError == CoinsError(history, m, k) + ErrorSum(history[..j], coin, m)
        invariant totalPoints == k * |history| + j
      {
        assert history[..j + 1][..j] == history[..j];
        CloseOf(history, j, coin);
        totalError := totalError + RelError(At(history[j], coin), m);
        totalPoints := totalPoints + 1;
        j := j + 1;
      }
      assert history[..j] == history;
      k := k + 1;
    }
  }

  /** `calculateModelPerformance` as the loops compute it. */
  method CalculateModelPerformance(history: seq<Point>) returns (perf: seq<Performance>)
    requires NonZeroCloses(history)
    ensures perf == PerformanceOf(history)
  {
    if |history| < 2 {
      return [];
    }
    perf := [];
    var models := [TFT, NBEATS, DeepAR];
    var i := 0;
    while i < 3
      invariant 0 <= i <= 3
      invariant perf == seq(i, j requires 0 <= j < i => PerformanceFor(history, models[j]))
    {
      var totalError, totalPoints := TotalError(history, models[i]);
      var avgError := totalError / totalPoints as real;
      perf := perf + [Performance(ModelLabel(models[i]), Max(0.0, (1.0 - avgError) * 100.0), avgError * 100.0)];
      i := i + 1;
    }
  }

  /** `Math.min(zoom * 1.5, 10)`. */
  function ZoomIn(z: real): real
  {
    Min(z * 1.5, 10.0)
  }

  /** `Math.max(zoom / 1.5, 0.1)`. */
  function ZoomOut(z: real): real
  {
    Max(z / 1.5, 0.1)
  }

  predicate ZoomInRange(z: real)
  {
    0.1 <= z <= 10.0
  }

  /** Both buttons keep the level in [0.1, 10]; zooming in never lowers it and zooming out
      never raises it. */
  lemma ZoomStepsInRange(z: real)
    requires ZoomInRange(z)
    ensures ZoomInRange(ZoomIn(z)) && ZoomIn(z) >= z
    ensures ZoomInRange(ZoomOut(z)) && ZoomOut(z) <= z
  {
  }

  /** Away from the clamps, one step out undoes one step in, and one step in undoes one step
      out. */
  lemma ZoomRoundTrip(z: real)
    ensures 0.1 <= z && z * 1.5 <= 10.0 ==> ZoomOut(ZoomIn(z)) == z
    ensures 0.15 <= z <= 10.0 ==> ZoomIn(ZoomOut(z)) == z
  {
  }

  /** A run of button presses, `true` for zoom in. */
  function Zoomed(z: real, presses: seq<bool>): real
    decreases |presses|
  {
    if presses == [] then z else Zoomed(if presses[0] then ZoomIn(z) else ZoomOut(z), presses[1..])
  }

  /** From the initial level 1, any run of presses leaves the level in [0.1, 10]. */
  lemma {:induction false} ZoomedInRange(z: real, presses: seq<bool>)
    requires ZoomInRange(z)
    ensures ZoomInRange(Zoomed(z, presses))
    decreases |presses|
  {
    if presses != [] {
      ZoomStepsInRange(z);
      ZoomedInRange(if presses[0] then ZoomIn(z) else ZoomOut(z), presses[1..]);
    }
  }

  /** The chart component as it holds its history, figures and zoom level. */
  class LiveChart {
    var history: seq<Point>
    var performance: seq<Performance>
    var zoomLevel: real

    /** The history is chained and at most 200 long, the figures are those of the history,
        and the zoom level lies in [0.1, 10]. */
    predicate Valid()
      reads this
    {
      && Chained(history) && |history| <= HistoryLength
      && NonZeroCloses(history) && performance == PerformanceOf(history)
      && ZoomInRange(zoomLevel)
    }

    constructor ()
      ensures history == [] && performance == [] && zoomLevel == 1.0 && Valid()
    {
      history := [];
      performance := [];
      zoomLevel := 1.0;
    }

    /** The effect on activation: the initial points and their figures. */
    method Activate(startTime: int, nows: seq<int>, draws: seq<PointDraws>)
      requires Valid() && InitialDraws(nows, draws)
      modifies this
      ensures Valid() && zoomLevel == old(zoomLevel)
      ensures history == InitialPoints(startTime, nows, draws, |draws|) && performance == PerformanceOf(history)
    {
      history, performance := InitialState(startTime, nows, draws);
    }

    /** One interval tick of the live updates. */
    method Update(now: int, d: PointDraws)
      requires Valid() && UnitPoint(d)
      modifies this
      ensures Valid() && zoomLevel == old(zoomLevel)
      ensures history == Updated(old(history), now, d) && performance == PerformanceOf(history)
    {
      UpdateKeepsChained(history, now, d);
      var updated := Updated(history, now, d);
      ChainedNonZero(updated);
      performance := CalculateModelPerformance(updated);
      history := updated;
    }

    method ZoomInPressed()
      requires Valid()
      modifies this
      ensures zoomLevel == ZoomIn(old(zoomLevel)) && history == old(history) && performance == old(performance)
      ensures Valid()
    {
      ZoomStepsInRange(zoomLevel);
      zoomLevel := Min(zoomLevel * 1.5, 10.0);
    }

    method ZoomOutPressed()
      requires Valid()
      modifies this
      ensures zoomLevel == ZoomOut(old(zoomLevel)) && history == old(history) && performance == old(performance)
      ensures Valid()
    {
      ZoomStepsInRange(zoomLevel);
      zoomLevel := Max(zoomLevel / 1.5, 0.1);
    }
  }
}
