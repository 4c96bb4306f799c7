/** The model-evaluation stage: a ticker over twelve task slots of width 8.33 with a log
    that keeps its last eight lines, and on completion the evaluation results: four error
    metrics per model and coin, each drawn in a fixed band, their averages over the coins,
    and a fixed summary. */
module ModelEvaluation {
  import opened Values
  import opened Ticker
  import opened Parameters

  const Tasks: seq<string> := [
    "Loading test data...",
    "Generating predictions with TFT...",
    "Generating predictions with N-BEATS...",
    "Generating predictions with DeepAR...",
    "Calculating MAE metrics...",
    "Calculating RMSE metrics...",
    "Calculating MAPE metrics...",
    "Calculating R² metrics...",
    "Performing statistical significance tests...",
    "Generating comparison charts...",
    "Analyzing model performance...",
    "Finalizing evaluation report..."
  ]

  /** One point per tick, a slot every 8.33 points, and the last 8 lines kept. */
  function TickerConfig(): (c: Config)
    ensures ValidConfig(c) && |c.tasks| == 12 && c.step == 1.0 && c.keep == Some(8)
  {
    Config(1.0, 8.33, Tasks, Tasks, Some(8), "Model evaluation completed!")
  }

  /** The twelve slots end at 99.96: a tick logs one line exactly when its new progress stays
      below that, so the completing tick logs nothing. */
  lemma TickLogsBelowLastSlot(st: State, time: string)
    requires Inv(TickerConfig(), st) && st.running
    ensures var st' := Ticked(TickerConfig(), st, time);
      && (st.progress + 1.0 < 99.96 ==> st'.logs == Kept(Some(8), st.logs) + [LogLine(time, Tasks[TaskIndex(TickerConfig(), st.progress + 1.0)])])
      && (st.progress + 1.0 >= 99.96 ==> st'.logs == st.logs)
  {
    SlotOf(st.progress + 1.0);
    TickLogs(TickerConfig(), st, time);
  }

  /** Progress below 99.96 falls in one of the twelve slots of width 8.33; progress from there
      on falls past the last one. */
  lemma SlotOf(x: real)
    requires x >= 0.0
    ensures x < 99.96 ==> 0 <= (x / 8.33).Floor < 12
    ensures x >= 99.96 ==> (x / 8.33).Floor >= 12
  {
    var q := x / 8.33;
    assert q * 8.33 == x;
  }

  /** Started by its activation, the stage completes on the 100th tick, and its log never
      holds more than 9 lines: the last 8 and the new one. */
  lemma CompletesOnTick100(times: seq<string>)
    requires |times| >= 100
    ensures var c := TickerConfig(); var start := Effect(Idle(), true);
      && Run(c, start, times[..99]).running
      && Run(c, start, times[..100]).isCompleted
      && Run(c, start, times) == Run(c, start, times[..100])
      && forall k :: 0 <= k <= |times| ==> |Run(c, start, times[..k]).logs| <= 9
  {
    var c := TickerConfig();
    var start := Effect(Idle(), true);
    RunBelow(c, start, times[..99]);
    RunCompletes(c, start, times[..100]);
    RunAfterCompletion(c, start, times[..100], times[100..]);
    assert times[..100] + times[100..] == times;
    forall k | 0 <= k <= |times|
      ensures |Run(c, start, times[..k]).logs| <= 9
    {
      RunInvPreserved(c, start, times[..k]);
    }
  }

  /** The four error metrics of a model on a coin. */
  datatype Metrics = Metrics(mae: real, rmse: real, mape: real, r2: real)

  /** Where each metric's band starts, per model; every band is as wide as `Width`. */
  function Low(m: Forecaster): Metrics
  {
    match m
    case TFT => Metrics(0.02, 0.025, 2.0, 0.92)
    case NBEATS => Metrics(0.025, 0.03, 2.5, 0.90)
    case DeepAR => Metrics(0.028, 0.032, 2.8, 0.88)
  }

  const Width: Metrics := Metrics(0.01, 0.01, 1.0, 0.05)

  predicate UnitDraws(d: Metrics)
  {
    0.0 <= d.mae < 1.0 && 0.0 <= d.rmse < 1.0 && 0.0 <= d.mape < 1.0 && 0.0 <= d.r2 < 1.0
  }

  /** `low + Math.random() * width`, metric by metric, with the draws as inputs. */
  function Drawn(m: Forecaster, d: Metrics): Metrics
  {
    var lo := Low(m);
    Metrics(lo.mae + d.mae * Width.mae, lo.rmse + d.rmse * Width.rmse,
            lo.mape + d.mape * Width.mape, lo.r2 + d.r2 * Width.r2)
  }

  /** Each metric lies in [low, low + width). */
  predicate InBand(m: Forecaster, x: Metrics)
  {
    var lo := Low(m);
    && lo.mae <= x.mae < lo.mae + Width.mae
    && lo.rmse <= x.rmse < lo.rmse + Width.rmse
    && lo.mape <= x.mape < lo.mape + Width.mape
    && lo.r2 <= x.r2 < lo.r2 + Width.r2
  }

  /** For draws in [0, 1), every metric lies in its band: TFT's MAPE in [2.0, 3.0), DeepAR's
      R² in [0.88, 0.93), and so on. */
  lemma DrawnInBand(m: Forecaster, d: Metrics)
    requires UnitDraws(d)
    ensures InBand(m, Drawn(m, d))
  {
  }

  /** The three models' metrics on one coin. */
  datatype Groups = Groups(tft: Metrics, nbeats: Metrics, deepar: Metrics)

  function GroupOf(g: Groups, m: Forecaster): Metrics
  {
    match m
    case TFT => g.tft
    case NBEATS => g.nbeats
    case DeepAR => g.deepar
  }

  predicate UnitGroup(d: Groups)
  {
    UnitDraws(d.tft) && UnitDraws(d.nbeats) && UnitDraws(d.deepar)
  }

  function DrawnGroups(d: Groups): Groups
  {
    Groups(Drawn(TFT, d.tft), Drawn(NBEATS, d.nbeats), Drawn(DeepAR, d.deepar))
  }

  predicate UnitGroups(draws: seq<Groups>)
  {
    forall i :: 0 <= i < |draws| ==> UnitGroup(draws[i])
  }

  /** `results[crypto] = {...}` over the coins in order; a coin listed twice keeps its last
      metrics. */
  function ResultsTable(cryptos: seq<string>, draws: seq<Groups>): (t: map<string, Groups>)
    requires |draws| == |cryptos| && UnitGroups(draws)
    ensures forall k :: k in t <==> k in cryptos
    ensures forall k, m :: k in t ==> InBand(m, GroupOf(t[k], m))
    decreases |cryptos|
  {
    if cryptos == [] then map[]
    else
      var n := |cryptos| - 1;
      var g := DrawnGroups(draws[n]);
      assert forall m :: InBand(m, GroupOf(g, m)) by {
        forall m ensures InBand(m, GroupOf(g, m)) {
          DrawnInBand(m, GroupOf(draws[n], m));
        }
      }
      ResultsTable(cryptos[..n], draws[..n])[cryptos[n] := g]
  }

  /** The `forEach` that fills the table. */
  method BuildResults(cryptos: seq<string>, draws: seq<Groups>) returns (t: map<string, Groups>)
    requires |draws| == |cryptos| && UnitGroups(draws)
    ensures t == ResultsTable(cryptos, draws)
  {
    t := map[];
    var i := 0;
    while i < |cryptos|
      invariant 0 <= i <= |cryptos|
      invariant t == ResultsTable(cryptos[..i], draws[..i])
    {
      assert cryptos[..i + 1][..i] == cryptos[..i];
      assert draws[..i + 1][..i] == draws[..i];
      t := t[cryptos[i] := DrawnGroups(draws[i])];
      i := i + 1;
    }
    assert cryptos[..i] == cryptos && draws[..i] == draws;
  }

  function Sum(xs: seq<real>): real
    decreases |xs|
  {
    if xs == [] then 0.0 else Sum(xs[..|xs| - 1]) + xs[|xs| - 1]
  }

  /** `xs.reduce((sum, x) => sum + x, 0) / xs.length`; the empty list gives NaN. */
  function Mean(xs: seq<real>): Option<real>
  {
    if xs == [] then None else Some(Sum(xs) / (|xs| as real))
  }

  lemma {:induction false} SumBounds(xs: seq<real>, lo: real, hi: real)
    requires forall i :: 0 <= i < |xs| ==> lo <= xs[i] <= hi
    ensures (|xs| as real) * lo <= Sum(xs) <= (|xs| as real) * hi
    decreases |xs|
  {
    if xs != [] {
      SumBounds(xs[..|xs| - 1], lo, hi);
      assert ((|xs| - 1) as real) * lo + lo == (|xs| as real) * lo;
      assert ((|xs| - 1) as real) * hi + hi == (|xs| as real) * hi;
    }
  }

  /** The mean of values that all lie between two bounds lies between them too; in particular
      it lies between the smallest and the largest value. */
  lemma MeanBetween(xs: seq<real>, lo: real, hi: real)
    requires xs != []
    requires forall i :: 0 <= i < |xs| ==> lo <= xs[i] <= hi
    ensures Mean(xs).Some? && lo <= Mean(xs).value <= hi
  {
    SumBounds(xs, lo, hi);
    DivideBetween(Sum(xs), |xs| as real, lo, hi);
  }

  /** A total between `n * lo` and `n * hi`, divided by a positive `n`, lies between `lo` and
      `hi`. */
  lemma DivideBetween(s: real, n: real, lo: real, hi: real)
    requires n > 0.0 && n * lo <= s <= n * hi
    ensures lo <= s / n <= hi
  {
    var q := s / n;
    assert q * n == s;
    assert (q - lo) * n == s - n * lo >= 0.0;
    assert (hi - q) * n == n * hi - s >= 0.0;
  }

  /** The metric names of a group. */
  datatype MetricName = Mae | Rmse | Mape | R2

  function MetricOf(x: Metrics, f: MetricName): real
  {
    match f
    case Mae => x.mae
    case Rmse => x.rmse
    case Mape => x.mape
    case R2 => x.r2
  }

  /** `cryptos.map(crypto => results[crypto][model])`, one metric of it. */
  function Column(t: map<string, Groups>, cryptos: seq<string>, m: Forecaster, f: MetricName): (xs: seq<real>)
    requires forall i :: 0 <= i < |cryptos| ==> cryptos[i] in t
    ensures |xs| == |cryptos|
    ensures forall i :: 0 <= i < |cryptos| ==> xs[i] == MetricOf(GroupOf(t[cryptos[i]], m), f)
  {
    seq(|cryptos|, i requires 0 <= i < |cryptos| => MetricOf(GroupOf(t[cryptos[i]], m), f))
  }

  /** The averages of a model: NaN (`None`) for every metric when no coin is listed. */
  datatype Averages = Averages(mae: Option<real>, rmse: Option<real>, mape: Option<real>, r2: Option<real>)

  function AveragesOf(t: map<string, Groups>, cryptos: seq<string>, m: Forecaster): Averages
    requires forall i :: 0 <= i < |cryptos| ==> cryptos[i] in t
  {
    Averages(Mean(Column(t, cryptos, m, Mae)), Mean(Column(t, cryptos, m, Rmse)),
             Mean(Column(t, cryptos, m, Mape)), Mean(Column(t, cryptos, m, R2)))
  }

  /** The `forEach` over the three models that fills `avgMetrics`. */
  method BuildAverages(t: map<string, Groups>, cryptos: seq<string>) returns (avg: map<Forecaster, Averages>)
    requires forall i :: 0 <= i < |cryptos| ==> cryptos[i] in t
    ensures forall m :: m in avg && avg[m] == AveragesOf(t, cryptos, m)
  {
    avg := map[];
    var i := 0;
    while i < |Forecasters|
      invariant 0 <= i <= 3
      invariant forall j :: 0 <= j < i ==> Forecasters[j] in avg && avg[Forecasters[j]] == AveragesOf(t, cryptos, Forecasters[j])
      invariant forall m :: m in avg ==> avg[m] == AveragesOf(t, cryptos, m)
    {
      var m := Forecasters[i];
      avg := avg[m := AveragesOf(t, cryptos, m)];
      i := i + 1;
    }
    forall m ensures m in avg {
      assert m == Forecasters[if m == TFT then 0 else if m == NBEATS then 1 else 2];
    }
  }

  /** Over a non-empty list of coins, every average lies in the band of its metric, as the
      values averaged do; over an empty one every average is NaN. */
  lemma AveragesInBand(cryptos: seq<string>, draws: seq<Groups>, m: Forecaster, f: MetricName)
    requires |draws| == |cryptos| && UnitGroups(draws)
    ensures var t := ResultsTable(cryptos, draws); var a := Mean(Column(t, cryptos, m, f));
      && (cryptos == [] ==> a.None?)
      && (cryptos != [] ==> a.Some? && MetricOf(Low(m), f) <= a.value <= MetricOf(Low(m), f) + MetricOf(Width, f))
  {
    var t := ResultsTable(cryptos, draws);
    var xs := Column(t, cryptos, m, f);
    if cryptos != [] {
      MeanBetween(xs, MetricOf(Low(m), f), MetricOf(Low(m), f) + MetricOf(Width, f));
    }
  }

  /** A significance test of the summary. */
  datatype Test = Test(name: string, pValue: real, significant: bool)

  /** The fixed summary: TFT is named best whatever the metrics are, and the test results
      are constants. */
  datatype Summary = Summary(bestOverall: string, avgMetrics: map<Forecaster, Averages>, tests: seq<Test>)

  const Tests: seq<Test> := [
    Test("tftVsNbeats", 0.023, true),
    Test("tftVsDeepAR", 0.012, true),
    Test("nbeatsVsDeepAR", 0.156, false)
  ]

  /** The constant tests report significance exactly when the p-value is below 0.05. */
  lemma TestsAtFivePercent()
    ensures forall i :: 0 <= i < |Tests| ==> (Tests[i].significant <==> Tests[i].pValue < 0.05)
  {
  }

  datatype Evaluation = Evaluation(perCrypto: map<string, Groups>, summary: Summary)

  /** `generateEvaluationResults`, with twelve draws per coin as inputs: one entry of metric
      groups per coin, every metric in its band, the averages over the coins, and the fixed
      summary. */
  method EvaluationResults(p: Option<Record>, draws: seq<Groups>) returns (e: Evaluation)
    requires p.Some? ==> Typed(p.value)
    requires |draws| == |SelectedCryptos(p)| && UnitGroups(draws)
    ensures e.perCrypto == ResultsTable(SelectedCryptos(p), draws)
    ensures forall k :: k in e.perCrypto <==> k in SelectedCryptos(p)
    ensures forall m :: m in e.summary.avgMetrics && e.summary.avgMetrics[m] == AveragesOf(e.perCrypto, SelectedCryptos(p), m)
    ensures e.summary.bestOverall == "TFT" && e.summary.tests == Tests
  {
    var cryptos := SelectedCryptos(p);
    var t := BuildResults(cryptos, draws);
    var avg := BuildAverages(t, cryptos);
    e := Evaluation(t, Summary("TFT", avg, Tests));
  }

  /** The stage component: its ticker, the results and the best model it names. */
  class Evaluator {
    const ticker: ProgressTicker
    const parameters: Option<Record>
    var results: Option<Evaluation>
    var bestModel: string

    constructor (parameters: Option<Record>)
      ensures fresh(ticker) && ticker.config == TickerConfig() && ticker.Snapshot() == Idle()
      ensures this.parameters == parameters && results == None && bestModel == ""
    {
      ticker := new ProgressTicker(TickerConfig());
      this.parameters := parameters;
      results := None;
      bestModel := "";
    }

    method Activate(isActive: bool)
      modifies ticker
      ensures ticker.Snapshot() == Effect(old(ticker.Snapshot()), isActive)
    {
      ticker.Activate(isActive);
    }

    /** One tick; the completing tick builds the results, names TFT best and hands the results
        on. */
    method Tick(time: string, draws: seq<Groups>) returns (handed: Option<Evaluation>)
      requires parameters.Some? ==> Typed(parameters.value)
      requires ticker.running && ticker.config == TickerConfig()
      requires |draws| == |SelectedCryptos(parameters)| && UnitGroups(draws)
      modifies this, ticker
      ensures ticker.Snapshot() == Ticked(TickerConfig(), old(ticker.Snapshot()), time)
      ensures handed.Some? <==> old(ticker.progress) + 1.0 >= 100.0
      ensures handed.Some? ==> results == handed && bestModel == "Temporal Fusion Transformer (TFT)"
      ensures handed.Some? ==> handed.value.perCrypto == ResultsTable(SelectedCryptos(parameters), draws)
      ensures handed.Some? ==> forall k :: k in handed.value.perCrypto <==> k in SelectedCryptos(parameters)
      ensures handed.Some? ==> forall m :: m in handed.value.summary.avgMetrics && handed.value.summary.avgMetrics[m] == AveragesOf(handed.value.perCrypto, SelectedCryptos(parameters), m)
      ensures handed.Some? ==> handed.value.summary.bestOverall == "TFT" && handed.value.summary.tests == Tests
      ensures handed.None? ==> results == old(results) && bestModel == old(bestModel)
    {
      var completedNow := ticker.Tick(time);
      if completedNow {
        var e := EvaluationResults(parameters, draws);
        results := Some(e);
        bestModel := "Temporal Fusion Transformer (TFT)";
        handed := results;
      } else {
        handed := None;
      }
    }
  }
}
