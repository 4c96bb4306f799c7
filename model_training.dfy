/** The model-training stage: a schedule of phases for the three forecasters (set-up, one
    phase per epoch, validation, saving), a ticker that walks through the schedule in steps
    of 0.3, the lookup of the model a phase belongs to, the per-model epoch metrics, and the
    final statistics with the train/validation/test split of the days. */
module ModelTraining {
  import opened Values
  import opened Text
  import opened Ticker
  import opened Parameters

  function ModelName(m: Forecaster): string
  {
    match m
    case TFT => "Temporal Fusion Transformer (TFT)"
    case NBEATS => "N-BEATS"
    case DeepAR => "DeepAR"
  }

  /** A phase of the schedule; the text the stage logs for it is `PhaseText`. */
  datatype PhaseKind = Initializing | SettingUp | LoadingData | Epoch(k: nat, n: nat) | Validating | Saving

  datatype Phase = Phase(model: Forecaster, kind: PhaseKind)

  function PhaseText(ph: Phase): string
  {
    var name := ModelName(ph.model);
    match ph.kind
    case Initializing => "Initializing " + name + " architecture..."
    case SettingUp => "Setting up hyperparameters for " + name + "..."
    case LoadingData => "Loading training data for " + name + "..."
    case Epoch(k, n) => "Training " + name + " epoch " + NatToString(k) + "/" + NatToString(n) + "..."
    case Validating => "Validating " + name + " performance..."
    case Saving => "Saving " + name + " model weights..."
  }

  /** `generateTrainingPhases(name, n)`: three set-up phases, the epochs 1 to `n` of `n` in
      order, then validation and saving; every phase belongs to the model. */
  function TrainingPhases(m: Forecaster, n: nat): (ps: seq<Phase>)
    ensures |ps| == n + 5
    ensures ps[0].kind == Initializing && ps[1].kind == SettingUp && ps[2].kind == LoadingData
    ensures forall k :: 1 <= k <= n ==> ps[k + 2].kind == Epoch(k, n)
    ensures ps[n + 3].kind == Validating && ps[n + 4].kind == Saving
    ensures forall i :: 0 <= i < |ps| ==> ps[i].model == m
  {
    [Phase(m, Initializing), Phase(m, SettingUp), Phase(m, LoadingData)]
      + seq(n, i requires 0 <= i < n => Phase(m, Epoch(i + 1, n)))
      + [Phase(m, Validating), Phase(m, Saving)]
  }

  /** Exactly the epoch phases carry epoch numbers, and those numbers lie in 1..n: the phases
      the metric update matches are the epochs. */
  lemma EpochPhases(m: Forecaster, n: nat, i: nat)
    requires i < n + 5
    ensures var ph := TrainingPhases(m, n)[i];
      ph.kind.Epoch? <==> 3 <= i < n + 3
    ensures var ph := TrainingPhases(m, n)[i];
      ph.kind.Epoch? ==> ph.kind.k == i - 2 && ph.kind.n == n && 1 <= ph.kind.k <= ph.kind.n
  {
  }

  /** The regular expression `/epoch (\d+)\/(\d+)/` recovers the numbers written into an epoch
      phase's text, since parsing the printed number gives it back. */
  lemma EpochNumbersParse(k: nat, n: nat)
    ensures DigitsValue(NatToString(k)) == k && DigitsValue(NatToString(n)) == n
  {
    DigitsValueOfNatToString(k);
    DigitsValueOfNatToString(n);
  }

  /** `parameters?.[key]?.epochs || 10`: a missing, zero or NaN setting counts as 10. */
  function EpochsSetting(p: Option<Record>, m: Forecaster): (e: real)
    requires p.Some? ==> Typed(p.value)
    ensures !Truthy(Field(Member(p, SectionKey(m)), Epochs)) ==> e == 10.0
    ensures Truthy(Field(Member(p, SectionKey(m)), Epochs)) ==> e == Field(Member(p, SectionKey(m)), Epochs).value.n
  {
    TypedField(p, m, Epochs);
    NumOr(Field(Member(p, SectionKey(m)), Epochs), 10.0)
  }

  /** The number of epoch phases `Array.from({ length: epochs })` creates: a negative setting
      gives none, a fractional one its integer part. */
  function ToLength(x: real): (n: nat)
    ensures x <= 0.0 ==> n == 0
    ensures x > 0.0 ==> n as real <= x < n as real + 1.0
  {
    if x <= 0.0 then 0 else x.Floor
  }

  /** The epoch counts of TFT, N-BEATS and DeepAR. */
  function EpochCounts(p: Option<Record>): (ns: seq<nat>)
    requires p.Some? ==> Typed(p.value)
    ensures |ns| == 3
  {
    [ToLength(EpochsSetting(p, TFT)), ToLength(EpochsSetting(p, NBEATS)), ToLength(EpochsSetting(p, DeepAR))]
  }

  /** Without an epochs setting, a model trains ten epochs. */
  lemma EpochCountDefault(p: Option<Record>, i: nat)
    requires p.Some? ==> Typed(p.value)
    requires i < 3 && !Truthy(Field(Member(p, SectionKey(Forecasters[i])), Epochs))
    ensures EpochCounts(p)[i] == 10
  {
  }

  /** A whole positive setting is taken as it is. */
  lemma EpochCountWhole(p: Option<Record>, i: nat, e: nat)
    requires p.Some? ==> Typed(p.value)
    requires i < 3 && e > 0 && Field(Member(p, SectionKey(Forecasters[i])), Epochs) == Some(Num(e as real))
    ensures EpochCounts(p)[i] == e
  {
  }

  /** Where model `i`'s schedule starts in the whole schedule; `Offset(ns, 3)` is its
      length. */
  function Offset(ns: seq<nat>, i: nat): nat
    requires |ns| == 3 && i <= 3
  {
    if i == 0 then 0
    else if i == 1 then ns[0] + 5
    else if i == 2 then ns[0] + ns[1] + 10
    else ns[0] + ns[1] + ns[2] + 15
  }

  /** The schedules of the first `i` models, one after the other. */
  function PhasesUpTo(ns: seq<nat>, i: nat): (all: seq<Phase>)
    requires |ns| == 3 && i <= 3
    ensures |all| == Offset(ns, i)
  {
    if i == 0 then [] else PhasesUpTo(ns, i - 1) + TrainingPhases(Forecasters[i - 1], ns[i - 1])
  }

  /** `allPhases`: TFT's schedule, then N-BEATS', then DeepAR's. */
  function Schedule(ns: seq<nat>): (all: seq<Phase>)
    requires |ns| == 3
    ensures |all| == Offset(ns, 3) == ns[0] + ns[1] + ns[2] + 15
  {
    PhasesUpTo(ns, 3)
  }

  /** The model a position of the schedule belongs to, by the offsets. */
  function BlockOf(ns: seq<nat>, x: nat): (i: nat)
    requires |ns| == 3 && x < Offset(ns, 3)
    ensures i < 3 && Offset(ns, i) <= x < Offset(ns, i + 1)
  {
    if x < Offset(ns, 1) then 0 else if x < Offset(ns, 2) then 1 else 2
  }

  lemma ScheduleParts(ns: seq<nat>)
    requires |ns| == 3
    ensures Schedule(ns) == TrainingPhases(TFT, ns[0]) + TrainingPhases(NBEATS, ns[1]) + TrainingPhases(DeepAR, ns[2])
  {
    var b0 := TrainingPhases(TFT, ns[0]);
    assert Forecasters[0] == TFT && Forecasters[1] == NBEATS && Forecasters[2] == DeepAR;
    assert PhasesUpTo(ns, 0) == [];
    assert PhasesUpTo(ns, 1) == [] + b0 == b0;
    assert PhasesUpTo(ns, 2) == b0 + TrainingPhases(NBEATS, ns[1]);
    assert PhasesUpTo(ns, 3) == PhasesUpTo(ns, 2) + TrainingPhases(DeepAR, ns[2]);
  }

  /** Each position of the schedule holds the phase at the same place of its model's own
      schedule. */
  lemma ScheduleAt(ns: seq<nat>, x: nat)
    requires |ns| == 3 && x < Offset(ns, 3)
    ensures var j := BlockOf(ns, x);
      Schedule(ns)[x] == TrainingPhases(Forecasters[j], ns[j])[x - Offset(ns, j)]
  {
    var b0 := TrainingPhases(TFT, ns[0]);
    var b1 := TrainingPhases(NBEATS, ns[1]);
    var b2 := TrainingPhases(DeepAR, ns[2]);
    ScheduleParts(ns);
    var j := BlockOf(ns, x);
    if j == 2 {
      assert Schedule(ns)[x] == b2[x - |b0 + b1|];
    } else {
      assert Schedule(ns)[x] == (b0 + b1)[x];
    }
  }

  /** The `forEach` that builds `allPhases`. */
  method BuildAllPhases(p: Option<Record>) returns (all: seq<Phase>)
    requires p.Some? ==> Typed(p.value)
    ensures all == Schedule(EpochCounts(p))
  {
    var ns := EpochCounts(p);
    all := [];
    var i := 0;
    while i < |Forecasters|
      invariant 0 <= i <= 3
      invariant all == PhasesUpTo(ns, i)
    {
      var phases := TrainingPhases(Forecasters[i], ns[i]);
      all := all + phases;
      i := i + 1;
    }
  }

  /** The loop that finds the model of a phase: the first model whose block of phases
      reaches past `currentPhase`, or model 0 when none does. */
  method ModelIndexFor(ns: seq<nat>, currentPhase: nat) returns (modelIndex: nat)
    requires |ns| == 3
    ensures modelIndex < 3
    ensures currentPhase < Offset(ns, 3) ==> Offset(ns, modelIndex) <= currentPhase < Offset(ns, modelIndex + 1)
    ensures currentPhase >= Offset(ns, 3) ==> modelIndex == 0
  {
    var phaseCount := 0;
    modelIndex := 0;
    var i := 0;
    while i < |Forecasters|
      invariant 0 <= i <= 3
      invariant phaseCount == Offset(ns, i) && phaseCount <= currentPhase
      invariant modelIndex == 0
    {
      var modelPhases := TrainingPhases(Forecasters[i], ns[i]);
      if currentPhase < phaseCount + |modelPhases| {
        modelIndex := i;
        return;
      }
      phaseCount := phaseCount + |modelPhases|;
      i := i + 1;
    }
  }

  /** The lookup agrees with the schedule: the block it finds is the only one holding the
      phase, and its model is the model the schedule assigns the phase. */
  lemma LookupFindsPhaseModel(ns: seq<nat>, x: nat, i: nat)
    requires |ns| == 3
    requires i < 3 && Offset(ns, i) <= x < Offset(ns, i + 1)
    ensures x < |Schedule(ns)| && Schedule(ns)[x].model == Forecasters[i]
    ensures i == BlockOf(ns, x)
  {
    ScheduleAt(ns, x);
  }

  /** Every epoch phase of the schedule numbers its epoch within its own model's count. */
  lemma ScheduleEpochsInRange(ns: seq<nat>, x: nat)
    requires |ns| == 3
    requires x < |Schedule(ns)| && Schedule(ns)[x].kind.Epoch?
    ensures 1 <= Schedule(ns)[x].kind.k <= Schedule(ns)[x].kind.n
    ensures Schedule(ns)[x].kind.n == ns[BlockOf(ns, x)]
    ensures Schedule(ns)[x].model == Forecasters[BlockOf(ns, x)]
  {
    ScheduleAt(ns, x);
    var j := BlockOf(ns, x);
    EpochPhases(Forecasters[j], ns[j], x - Offset(ns, j));
  }

  /** The metrics shown for the model being trained, at epoch `k` of `n`. */
  datatype EpochMetrics = EpochMetrics(currentEpoch: nat, totalEpochs: nat, trainLoss: real, valLoss: real, progress: real)

  function MetricsAt(k: nat, n: nat): (e: EpochMetrics)
    requires 1 <= k <= n
    ensures 0.0 < e.progress <= 100.0
    ensures e.progress == 100.0 <==> k == n
  {
    var q := (k as real) / (n as real);
    assert q * (n as real) == k as real;
    EpochMetrics(k, n, 0.08 - (k as real) * 0.005, 0.09 - (k as real) * 0.004, q * 100.0)
  }

  /** Both losses fall with every epoch, the validation loss stays above the training loss,
      and the progress grows. */
  lemma LossesFall(k1: nat, k2: nat, n: nat)
    requires 1 <= k1 < k2 <= n
    ensures MetricsAt(k2, n).trainLoss < MetricsAt(k1, n).trainLoss
    ensures MetricsAt(k2, n).valLoss < MetricsAt(k1, n).valLoss
    ensures MetricsAt(k1, n).valLoss > MetricsAt(k1, n).trainLoss
    ensures MetricsAt(k1, n).progress < MetricsAt(k2, n).progress
  {
    var q1 := (k1 as real) / (n as real);
    var q2 := (k2 as real) / (n as real);
    assert q1 * (n as real) == k1 as real;
    assert q2 * (n as real) == k2 as real;
    assert (q2 - q1) * (n as real) == (k2 - k1) as real;
  }

  /** The ticker of the stage: a slot per phase, so that the whole schedule spans 0 to 100;
      it logs the phase's text, shows the model's name and keeps the last 12 lines. */
  function ScheduleConfig(ns: seq<nat>): (c: Config)
    requires |ns| == 3
    ensures ValidConfig(c) && c.step == 0.3 && c.keep == Some(12)
    ensures |c.tasks| == |Schedule(ns)| >= 15
    ensures c.divisor == 100.0 / (|Schedule(ns)| as real)
    ensures forall i :: 0 <= i < |c.tasks| ==> c.tasks[i] == PhaseText(Schedule(ns)[i]) && c.labels[i] == ModelName(Schedule(ns)[i].model)
  {
    var all := Schedule(ns);
    Config(0.3, 100.0 / (|all| as real),
           seq(|all|, i requires 0 <= i < |all| => PhaseText(all[i])),
           seq(|all|, i requires 0 <= i < |all| => ModelName(all[i].model)),
           Some(12), "All models trained successfully!")
  }

  function TickerConfig(p: Option<Record>): (c: Config)
    requires p.Some? ==> Typed(p.value)
    ensures ValidConfig(c)
  {
    ScheduleConfig(EpochCounts(p))
  }

  /** A progress below 100 falls in one of the schedule's slots, and 100 or more in none: the
      completing tick logs nothing, every other tick one phase. */
  lemma SlotOfProgress(ns: seq<nat>, x: real)
    requires |ns| == 3
    requires 0.0 <= x
    ensures var c := ScheduleConfig(ns);
      (0 <= TaskIndex(c, x) < |c.tasks|) <==> x < 100.0
  {
    var c := ScheduleConfig(ns);
    var l := |c.tasks| as real;
    assert l > 0.0;
    var q := x / (100.0 / l);
    assert q * 100.0 == x * l;
    if x < 100.0 {
      assert x * l < 100.0 * l;
      assert q < l;
    } else {
      assert x * l >= 100.0 * l;
      assert q >= l;
    }
  }

  /** The epoch metrics after a tick to progress `x`: when the slot is an epoch phase, its
      model's entry becomes that epoch's metrics; every other entry stays. */
  function MetricsAfter(ns: seq<nat>, metrics: map<Forecaster, EpochMetrics>, x: real): map<Forecaster, EpochMetrics>
    requires |ns| == 3
  {
    var i := TaskIndex(ScheduleConfig(ns), x);
    var all := Schedule(ns);
    if 0 <= i < |all| && all[i].kind.Epoch? then
      ScheduleEpochsInRange(ns, i);
      metrics[all[i].model := MetricsAt(all[i].kind.k, all[i].kind.n)]
    else metrics
  }

  /** The position of a model in the list of the three. */
  function ModelIndex(f: Forecaster): (i: nat)
    ensures i < 3 && Forecasters[i] == f
  {
    match f
    case TFT => 0
    case NBEATS => 1
    case DeepAR => 2
  }

  /** What the metrics always say: each model's entry counts that model's own epochs, names
      an epoch in range, and shows its share of them as the progress. */
  predicate MetricsConsistent(ns: seq<nat>, metrics: map<Forecaster, EpochMetrics>)
    requires |ns| == 3
  {
    forall f :: f in metrics ==>
      && metrics[f].totalEpochs == ns[ModelIndex(f)]
      && 1 <= metrics[f].currentEpoch <= metrics[f].totalEpochs
      && metrics[f] == MetricsAt(metrics[f].currentEpoch, metrics[f].totalEpochs)
  }

  /** A tick keeps the metrics consistent, and changes at most the entry of the model whose
      phase the tick reaches. */
  lemma MetricsAfterConsistent(ns: seq<nat>, metrics: map<Forecaster, EpochMetrics>, x: real)
    requires |ns| == 3 && MetricsConsistent(ns, metrics)
    ensures MetricsConsistent(ns, MetricsAfter(ns, metrics, x))
    ensures forall f :: f in metrics ==> f in MetricsAfter(ns, metrics, x)
    ensures forall f :: f in MetricsAfter(ns, metrics, x) && f != ScheduleModelAt(ns, x) ==>
      f in metrics && MetricsAfter(ns, metrics, x)[f] == metrics[f]
  {
    var i := TaskIndex(ScheduleConfig(ns), x);
    var all := Schedule(ns);
    if 0 <= i < |all| && all[i].kind.Epoch? {
      ScheduleEpochsInRange(ns, i);
    }
  }

  /** The model of the phase a progress value falls in; ticks outside the schedule name
      TFT, whose entry they leave unchanged as well. */
  function ScheduleModelAt(ns: seq<nat>, x: real): Forecaster
    requires |ns| == 3
  {
    var i := TaskIndex(ScheduleConfig(ns), x);
    if 0 <= i < |Schedule(ns)| then Schedule(ns)[i].model else TFT
  }

  /** The slot update of a tick as the stage computes it: the lookup loop names the model,
      and an epoch phase records that model's metrics. */
  method UpdateMetrics(ns: seq<nat>, allPhases: seq<Phase>, metrics: map<Forecaster, EpochMetrics>, newProgress: real)
    returns (updated: map<Forecaster, EpochMetrics>)
    requires |ns| == 3 && allPhases == Schedule(ns)
    ensures updated == MetricsAfter(ns, metrics, newProgress)
  {
    updated := metrics;
    var currentPhase := (newProgress / (100.0 / (|allPhases| as real))).Floor;
    if 0 <= currentPhase < |allPhases| {
      var modelIndex := ModelIndexFor(ns, currentPhase);
      LookupFindsPhaseModel(ns, currentPhase, modelIndex);
      var phase := allPhases[currentPhase];
      if phase.kind.Epoch? {
        ScheduleEpochsInRange(ns, currentPhase);
        updated := metrics[Forecasters[modelIndex] := MetricsAt(phase.kind.k, phase.kind.n)];
      }
    }
  }

  /** The final statistics the stage hands on. */
  datatype FinalStats = FinalStats(
    trainDays: int, valDays: int, testDays: int,
    trainPercent: int, valPercent: int, testPercent: int,
    learningRate: real, batchSize: real, epochs: real, optimizer: string,
    finalEpochs: seq<real>)

  /** `Math.round`: halves round up. */
  function Round(x: real): int
  {
    (x + 0.5).Floor
  }

  /** The day split: training and validation days are the floors of their shares and the test
      days are the rest, so the three always add up to the total. */
  function DaySplit(total: int, trainSplit: real, valSplit: real): (r: (int, int, int))
    ensures r.0 + r.1 + r.2 == total
    ensures r.0 == (total as real * trainSplit).Floor && r.1 == (total as real * valSplit).Floor
  {
    var trainDays := (total as real * trainSplit).Floor;
    var valDays := (total as real * valSplit).Floor;
    (trainDays, valDays, total - trainDays - valDays)
  }

  /** With shares that are not negative and leave room for testing, no part of the split is
      negative. */
  lemma DaySplitNonNegative(total: int, trainSplit: real, valSplit: real)
    requires total >= 0 && trainSplit >= 0.0 && valSplit >= 0.0 && trainSplit + valSplit <= 1.0
    ensures var r := DaySplit(total, trainSplit, valSplit); r.0 >= 0 && r.1 >= 0 && r.2 >= 0
  {
    var t := total as real;
    var a := t * trainSplit;
    var b := t * valSplit;
    ScaleBelow(t, 0.0, trainSplit);
    ScaleBelow(t, 0.0, valSplit);
    ScaleBelow(t, trainSplit + valSplit, 1.0);
    assert a + b == t * (trainSplit + valSplit) <= t;
    assert (a.Floor as real) <= a && (b.Floor as real) <= b;
    assert ((a.Floor + b.Floor) as real) <= t;
  }

  /** Scaling by a non-negative factor keeps the order of two reals. */
  lemma ScaleBelow(t: real, x: real, y: real)
    requires t >= 0.0 && x <= y
    ensures t * x <= t * y
  {
    assert t * y - t * x == t * (y - x);
  }

  /** `generateFinalStats`; the day count between the dates is an input. */
  function FinalStatsOf(p: Option<Record>, totalDays: int): (s: FinalStats)
    requires p.Some? ==> Typed(p.value)
    ensures s.trainDays + s.valDays + s.testDays == totalDays
    ensures |s.finalEpochs| == 3 && forall i :: 0 <= i < 3 ==> s.finalEpochs[i] == EpochsSetting(p, Forecasters[i])
  {
    TypedRoot(p, TrainSplit);
    TypedRoot(p, ValidationSplit);
    TypedRoot(p, TestSplit);
    TypedField(p, TFT, LearningRate);
    TypedField(p, TFT, BatchSize);
    TypedField(p, TFT, Optimizer);
    var trainSplit := NumOr(Member(p, TrainSplit), 0.8);
    var valSplit := NumOr(Member(p, ValidationSplit), 0.1);
    var testSplit := NumOr(Member(p, TestSplit), 0.1);
    var split := DaySplit(totalDays, trainSplit, valSplit);
    var tft := Member(p, Tft);
    FinalStats(split.0, split.1, split.2,
               Round(trainSplit * 100.0), Round(valSplit * 100.0), Round(testSplit * 100.0),
               NumOr(Field(tft, LearningRate), 0.001), NumOr(Field(tft, BatchSize), 64.0),
               EpochsSetting(p, TFT), StrOr(Field(tft, Optimizer), "Adam"),
               [EpochsSetting(p, TFT), EpochsSetting(p, NBEATS), EpochsSetting(p, DeepAR)])
  }

  /** With the default 80/10/10 shares the split has no negative part. */
  lemma DefaultSplitNonNegative(totalDays: nat)
    ensures var s := FinalStatsOf(None, totalDays); s.trainDays >= 0 && s.valDays >= 0 && s.testDays >= 0
  {
    DaySplitNonNegative(totalDays, 0.8, 0.1);
  }

  /** The stage component: the ticker (its current task is the model being trained), the
      per-model metrics and the final statistics. */
  class Trainer {
    const ticker: ProgressTicker
    const parameters: Option<Record>
    var allPhases: seq<Phase>
    var metrics: map<Forecaster, EpochMetrics>
    var stats: Option<FinalStats>

    constructor (parameters: Option<Record>)
      requires parameters.Some? ==> Typed(parameters.value)
      ensures fresh(ticker) && ticker.config == TickerConfig(parameters) && ticker.Snapshot() == Idle()
      ensures this.parameters == parameters && allPhases == [] && metrics == map[] && stats == None
    {
      ticker := new ProgressTicker(TickerConfig(parameters));
      this.parameters := parameters;
      allPhases := [];
      metrics := map[];
      stats := None;
    }

    /** The effect: a start also clears the metrics and builds the schedule. */
    method Activate(isActive: bool)
      requires parameters.Some? ==> Typed(parameters.value)
      modifies this, ticker
      ensures ticker.Snapshot() == Effect(old(ticker.Snapshot()), isActive)
      ensures var starts := isActive && !old(ticker.isCompleted);
        && metrics == (if starts then map[] else old(metrics))
        && allPhases == (if starts then Schedule(EpochCounts(parameters)) else old(allPhases))
      ensures stats == old(stats)
    {
      var starts := isActive && !ticker.isCompleted;
      ticker.Activate(isActive);
      if starts {
        metrics := map[];
        allPhases := BuildAllPhases(parameters);
      }
    }

    /** One tick: the slot's phase is taken from the schedule, its model found by the lookup
        loop, and an epoch phase updates that model's metrics; the completing tick builds
        the final statistics and hands them on. */
    method Tick(time: string, totalDays: int) returns (handed: Option<FinalStats>)
      requires parameters.Some? ==> Typed(parameters.value)
      requires ticker.running && ticker.config == TickerConfig(parameters)
      requires allPhases == Schedule(EpochCounts(parameters))
      modifies this, ticker
      ensures ticker.Snapshot() == Ticked(TickerConfig(parameters), old(ticker.Snapshot()), time)
      ensures metrics == MetricsAfter(EpochCounts(parameters), old(metrics), old(ticker.progress) + 0.3)
      ensures handed.Some? <==> old(ticker.progress) + 0.3 >= 100.0
      ensures handed.Some? ==> handed.value == FinalStatsOf(parameters, totalDays) && stats == handed
      ensures handed.None? ==> stats == old(stats)
      ensures allPhases == old(allPhases)
    {
      metrics := UpdateMetrics(EpochCounts(parameters), allPhases, metrics, ticker.progress + 0.3);
      var completedNow := ticker.Tick(time);
      if completedNow {
        stats := Some(FinalStatsOf(parameters, totalDays));
        handed := stats;
      } else {
        handed := None;
      }
    }
  }

  /** Started by its activation, training runs 333 ticks (progress 99.9) and completes on the
      334th; the log never holds more than 13 lines. */
  lemma CompletesOnTick334(p: Option<Record>, times: seq<string>)
    requires p.Some? ==> Typed(p.value)
    requires |times| >= 334
    ensures var c := TickerConfig(p); var start := Effect(Idle(), true);
      && Run(c, start, times[..333]).running
      && Run(c, start, times[..334]).isCompleted
      && |Run(c, start, times[..334]).logs| <= 13
  {
    var c := TickerConfig(p);
    var start := Effect(Idle(), true);
    RunBelow(c, start, times[..333]);
    RunCompletes(c, start, times[..334]);
    RunInvPreserved(c, start, times[..334]);
  }
}
