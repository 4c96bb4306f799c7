/** The data-preprocessing stage: a ticker over eight task slots of width 12.5, whose texts
    name the chosen interpolation and normalisation methods, and on completion the
    preprocessing statistics: missing values found and interpolated per coin, the
    normalisation method and fixed quality figures. */
module DataPreprocessing {
  import opened Values
  import opened Ticker
  import opened Parameters
  import DataCollection

  /** The method names the job texts interpolate (`|| 'linear'`, `|| 'Min-Max'`). */
  function InterpolationName(p: Option<Record>): string
    requires p.Some? ==> Typed(p.value)
  {
    StrOr(Member(p, InterpolationMethod), "linear")
  }

  function NormalizationName(p: Option<Record>): string
    requires p.Some? ==> Typed(p.value)
  {
    StrOr(Member(p, NormalizationMethod), "Min-Max")
  }

  /** The eight tasks, built when the stage renders: the third names the interpolation
      method, the fourth to sixth the normalisation method. */
  function Tasks(p: Option<Record>): (ts: seq<string>)
    requires p.Some? ==> Typed(p.value)
    ensures |ts| == 8
  {
    TaskTexts(InterpolationName(p), NormalizationName(p))
  }

  function TaskTexts(interpolation: string, normalization: string): (ts: seq<string>)
    ensures |ts| == 8
  {
    [ "Checking data quality...",
      "Identifying missing values...",
      "Applying " + interpolation + " interpolation...",
      "Normalizing price data using " + normalization + " scaling...",
      "Normalizing volume data using " + normalization + " scaling...",
      "Normalizing market cap data using " + normalization + " scaling...",
      "Validating normalized data...",
      "Saving preprocessed data..." ]
  }

  /** One point per tick, a slot every 12.5 points, and the whole log kept. */
  function TickerConfig(p: Option<Record>): (c: Config)
    requires p.Some? ==> Typed(p.value)
    ensures ValidConfig(c) && |c.tasks| == 8 && c.step == 1.0 && c.keep.None?
  {
    Config(1.0, 12.5, Tasks(p), Tasks(p), None, "Data preprocessing completed!")
  }

  /** A tick logs one line exactly when it stays below 100: the slot of 100 is the ninth,
      which has no task, so the completing tick logs nothing. */
  lemma TickLogsBelow100(p: Option<Record>, st: State, time: string)
    requires p.Some? ==> Typed(p.value)
    requires Inv(TickerConfig(p), st) && st.running
    ensures var c := TickerConfig(p); var st' := Ticked(c, st, time);
      && (st.progress + 1.0 < 100.0 ==> |st'.logs| == |st.logs| + 1)
      && (st.progress + 1.0 >= 100.0 ==> st'.logs == st.logs)
  {
    var c := TickerConfig(p);
    var x := st.progress + 1.0;
    if x < 100.0 {
      assert 0.0 <= x / 12.5 < 8.0;
    } else {
      assert x / 12.5 >= 8.0;
    }
    TickLogs(c, st, time);
  }

  lemma {:induction false} LogsOnePerTick(p: Option<Record>, st: State, times: seq<string>)
    requires p.Some? ==> Typed(p.value)
    requires Inv(TickerConfig(p), st) && st.running
    requires st.progress + |times| as real < 100.0
    ensures |Run(TickerConfig(p), st, times).logs| == |st.logs| + |times|
    ensures Run(TickerConfig(p), st, times).running
    decreases |times|
  {
    var c := TickerConfig(p);
    if times != [] {
      var st' := Ticked(c, st, times[0]);
      TickLogsBelow100(p, st, times[0]);
      TickInv(c, st, times[0]);
      TickCompletes(c, st, times[0]);
      LogsOnePerTick(p, st', times[1..]);
    }
  }

  /** Started by its activation, the stage completes on the 100th tick with 99 log lines:
      every tick but the completing one logs. */
  lemma CompletesOnTick100(p: Option<Record>, times: seq<string>)
    requires p.Some? ==> Typed(p.value)
    requires |times| >= 100
    ensures var c := TickerConfig(p); var done := Run(c, Effect(Idle(), true), times[..100]);
      && done.isCompleted && done.progress == 100.0 && |done.logs| == 99
      && Run(c, Effect(Idle(), true), times) == done
  {
    var c := TickerConfig(p);
    var start := Effect(Idle(), true);
    var first := times[..99];
    LogsOnePerTick(p, start, first);
    var mid := Run(c, start, first);
    RunInvPreserved(c, start, first);
    RunCompletes(c, start, times[..100]);
    assert times[..100] == first + [times[99]];
    RunConcat(c, start, first, [times[99]]);
    TickLogsBelow100(p, mid, times[99]);
    assert Run(c, mid, [times[99]]) == Run(c, Ticked(c, mid, times[99]), []);
    RunAfterCompletion(c, start, times[..100], times[100..]);
    assert times[..100] + times[100..] == times;
  }

  /** Missing values of one coin: found and interpolated, each `Math.floor(r * 10) + 1` as in
      the collection stage's `DataCollection.MissingCount`. */
  datatype Counts = Counts(found: int, interpolated: int)

  predicate InUnit(draws: seq<real>)
  {
    forall i :: 0 <= i < |draws| ==> 0.0 <= draws[i] < 1.0
  }

  /** `missingValues[crypto] = {...}` over the coins in order: a coin listed twice keeps the
      counts of its last entry. */
  function MissingTable(cryptos: seq<string>, found: seq<real>, interpolated: seq<real>): (m: map<string, Counts>)
    requires |found| == |cryptos| && |interpolated| == |cryptos|
    requires InUnit(found) && InUnit(interpolated)
    ensures forall k :: k in m <==> k in cryptos
    ensures forall k :: k in m ==> 1 <= m[k].found <= 10 && 1 <= m[k].interpolated <= 10
    ensures |cryptos| > 0 ==> m[cryptos[|cryptos| - 1]] == Counts(DataCollection.MissingCount(found[|cryptos| - 1]), DataCollection.MissingCount(interpolated[|cryptos| - 1]))
    decreases |cryptos|
  {
    if cryptos == [] then map[]
    else
      var n := |cryptos| - 1;
      MissingTable(cryptos[..n], found[..n], interpolated[..n])[cryptos[n] := Counts(DataCollection.MissingCount(found[n]), DataCollection.MissingCount(interpolated[n]))]
  }

  /** Every coin gets the counts drawn at its own position; a coin listed again later is
      overwritten, so each coin keeps the counts of its last occurrence. */
  lemma {:induction false} MissingTableOwnCounts(cryptos: seq<string>, found: seq<real>, interpolated: seq<real>)
    requires |found| == |cryptos| && |interpolated| == |cryptos|
    requires InUnit(found) && InUnit(interpolated)
    ensures forall j :: 0 <= j < |cryptos| && cryptos[j] !in cryptos[j + 1..] ==>
      MissingTable(cryptos, found, interpolated)[cryptos[j]] == Counts(DataCollection.MissingCount(found[j]), DataCollection.MissingCount(interpolated[j]))
    decreases |cryptos|
  {
    if cryptos != [] {
      var n := |cryptos| - 1;
      var m := MissingTable(cryptos, found, interpolated);
      var prev := MissingTable(cryptos[..n], found[..n], interpolated[..n]);
      assert m == prev[cryptos[n] := Counts(DataCollection.MissingCount(found[n]), DataCollection.MissingCount(interpolated[n]))];
      MissingTableOwnCounts(cryptos[..n], found[..n], interpolated[..n]);
      forall j | 0 <= j < n && cryptos[j] !in cryptos[j + 1..]
        ensures m[cryptos[j]] == Counts(DataCollection.MissingCount(found[j]), DataCollection.MissingCount(interpolated[j]))
      {
        assert cryptos[j + 1..][n - j - 1] == cryptos[n];
        assert cryptos[..n][j + 1..] == cryptos[j + 1..n];
        assert cryptos[..n][j] == cryptos[j];
        assert cryptos[..n][j] !in cryptos[..n][j + 1..];
        assert prev[cryptos[j]] == Counts(DataCollection.MissingCount(found[..n][j]), DataCollection.MissingCount(interpolated[..n][j]));
      }
    }
  }

  /** The `forEach` that fills the table. */
  method BuildMissingTable(cryptos: seq<string>, found: seq<real>, interpolated: seq<real>) returns (m: map<string, Counts>)
    requires |found| == |cryptos| && |interpolated| == |cryptos|
    requires InUnit(found) && InUnit(interpolated)
    ensures m == MissingTable(cryptos, found, interpolated)
  {
    m := map[];
    var i := 0;
    while i < |cryptos|
      invariant 0 <= i <= |cryptos|
      invariant m == MissingTable(cryptos[..i], found[..i], interpolated[..i])
    {
      assert cryptos[..i + 1][..i] == cryptos[..i];
      assert found[..i + 1][..i] == found[..i];
      assert interpolated[..i + 1][..i] == interpolated[..i];
      m := m[cryptos[i] := Counts(DataCollection.MissingCount(found[i]), DataCollection.MissingCount(interpolated[i]))];
      i := i + 1;
    }
    assert cryptos[..i] == cryptos && found[..i] == found && interpolated[..i] == interpolated;
  }

  /** The statistics the stage hands on; `normalization` is `normalization.method`. */
  datatype Stats = Stats(
    missingValues: map<string, Counts>,
    normalization: string,
    priceRange: string,
    volumeRange: string,
    marketCapRange: string,
    beforeCleaning: string,
    afterCleaning: string,
    outliers: int,
    outliersHandled: int)

  /** `generatePreprocessingStats`, with two draws per coin as inputs. */
  method PreprocessingStats(p: Option<Record>, found: seq<real>, interpolated: seq<real>) returns (s: Stats)
    requires p.Some? ==> Typed(p.value)
    requires |found| == |SelectedCryptos(p)| && |interpolated| == |SelectedCryptos(p)|
    requires InUnit(found) && InUnit(interpolated)
    ensures s.missingValues == MissingTable(SelectedCryptos(p), found, interpolated)
    ensures s.normalization == StrOr(Member(p, NormalizationMethod), "minmax")
    ensures s.outliers == 23 && s.outliersHandled == s.outliers
    ensures s.priceRange == "[0.0001, 1.0000]" && s.volumeRange == "[0.0000, 1.0000]" && s.marketCapRange == "[0.0002, 1.0000]"
    ensures s.beforeCleaning == "94.2%" && s.afterCleaning == "100%"
  {
    var table := BuildMissingTable(SelectedCryptos(p), found, interpolated);
    s := Stats(table, StrOr(Member(p, NormalizationMethod), "minmax"),
               "[0.0001, 1.0000]", "[0.0000, 1.0000]", "[0.0002, 1.0000]", "94.2%", "100%", 23, 23);
  }

  /** The missing-value table covers exactly the coins of the statistics, with every count in
      [1, 10]. */
  lemma StatsCoverCryptos(p: Option<Record>, found: seq<real>, interpolated: seq<real>)
    requires p.Some? ==> Typed(p.value)
    requires |found| == |SelectedCryptos(p)| && |interpolated| == |SelectedCryptos(p)|
    requires InUnit(found) && InUnit(interpolated)
    ensures var m := MissingTable(SelectedCryptos(p), found, interpolated);
      && (Member(p, Cryptocurrencies).None? ==> forall k :: k in m <==> k in DefaultCryptos)
      && (Member(p, Cryptocurrencies).Some? ==> forall k :: k in m <==> k in Member(p, Cryptocurrencies).value.items)
      && forall k :: k in m ==> 1 <= m[k].found <= 10 && 1 <= m[k].interpolated <= 10
  {
  }

  /** The scaling the description names: `'minmax'`, `'standard'`, anything else robust. */
  datatype Scaling = MinMaxScaling | StandardScaling | RobustScaling

  function ScalingOf(p: Option<Record>): (s: Scaling)
    ensures s == MinMaxScaling <==> Member(p, NormalizationMethod) == Some(Str("minmax"))
    ensures s == StandardScaling <==> Member(p, NormalizationMethod) == Some(Str("standard"))
  {
    var v := Member(p, NormalizationMethod);
    if v == Some(Str("minmax")) then MinMaxScaling
    else if v == Some(Str("standard")) then StandardScaling
    else RobustScaling
  }

  function ScalingText(s: Scaling): string
  {
    match s
    case MinMaxScaling => "Min-Max Scaling to [0, 1] range"
    case StandardScaling => "Standard Scaling (z-score)"
    case RobustScaling => "Robust Scaling (median-based)"
  }

  /** The interpolation the description names: `'linear'`, `'polynomial'`, anything else
      spline. */
  datatype Interpolation = LinearInterpolation | PolynomialInterpolation | SplineInterpolation

  function InterpolationOf(p: Option<Record>): (m: Interpolation)
    ensures m == LinearInterpolation <==> Member(p, InterpolationMethod) == Some(Str("linear"))
    ensures m == PolynomialInterpolation <==> Member(p, InterpolationMethod) == Some(Str("polynomial"))
  {
    var v := Member(p, InterpolationMethod);
    if v == Some(Str("linear")) then LinearInterpolation
    else if v == Some(Str("polynomial")) then PolynomialInterpolation
    else SplineInterpolation
  }

  function InterpolationText(m: Interpolation): string
  {
    match m
    case LinearInterpolation => "Linear interpolation method"
    case PolynomialInterpolation => "Polynomial interpolation"
    case SplineInterpolation => "Spline interpolation method"
  }

  /** Without a method in the parameters, the description falls to the last case (robust,
      spline), while the job texts and the statistics name their own defaults. */
  lemma MissingMethodsDescriptions(p: Option<Record>)
    requires p.Some? ==> Typed(p.value)
    requires Member(p, NormalizationMethod).None? && Member(p, InterpolationMethod).None?
    ensures ScalingOf(p) == RobustScaling && InterpolationOf(p) == SplineInterpolation
    ensures NormalizationName(p) == "Min-Max" && InterpolationName(p) == "linear"
  {
  }

  /** The stage component: its ticker and the statistics it produced. */
  class Preprocessor {
    const ticker: ProgressTicker
    const parameters: Option<Record>
    var stats: Option<Stats>

    constructor (parameters: Option<Record>)
      requires parameters.Some? ==> Typed(parameters.value)
      ensures fresh(ticker) && ticker.config == TickerConfig(parameters) && ticker.Snapshot() == Idle()
      ensures this.parameters == parameters && stats == None
    {
      ticker := new ProgressTicker(TickerConfig(parameters));
      this.parameters := parameters;
      stats := None;
    }

    method Activate(isActive: bool)
      modifies ticker
      ensures ticker.Snapshot() == Effect(old(ticker.Snapshot()), isActive)
    {
      ticker.Activate(isActive);
    }

    /** One tick; the completing tick builds the statistics, keeps them and hands them on. */
    method Tick(time: string, found: seq<real>, interpolated: seq<real>) returns (handed: Option<Stats>)
      requires parameters.Some? ==> Typed(parameters.value)
      requires ticker.running && ticker.config == TickerConfig(parameters)
      requires |found| == |SelectedCryptos(parameters)| && |interpolated| == |SelectedCryptos(parameters)|
      requires InUnit(found) && InUnit(interpolated)
      modifies this, ticker
      ensures ticker.Snapshot() == Ticked(TickerConfig(parameters), old(ticker.Snapshot()), time)
      ensures handed.Some? <==> old(ticker.progress) + 1.0 >= 100.0
      ensures handed.Some? ==> stats == handed && handed.value.missingValues == MissingTable(SelectedCryptos(parameters), found, interpolated)
      ensures handed.Some? ==> handed.value.normalization == StrOr(Member(parameters, NormalizationMethod), "minmax")
      ensures handed.Some? ==> handed.value.outliers == 23 && handed.value.outliersHandled == 23
      ensures handed.Some? ==> handed.value.priceRange == "[0.0001, 1.0000]" && handed.value.volumeRange == "[0.0000, 1.0000]" && handed.value.marketCapRange == "[0.0002, 1.0000]"
      ensures handed.Some? ==> handed.value.beforeCleaning == "94.2%" && handed.value.afterCleaning == "100%"
      ensures handed.None? ==> stats == old(stats)
    {
      var completedNow := ticker.Tick(time);
      if completedNow {
        var s := PreprocessingStats(parameters, found, interpolated);
        stats := Some(s);
        handed := stats;
      } else {
        handed := None;
      }
    }
  }
}
