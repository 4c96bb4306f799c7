# Crypto forecasting dashboard — a verified model of its deterministic core

The dashboard is a React application. It walks a user through a six-step analysis wizard:

1. parameter configuration;
2. data collection;
3. data preprocessing;
4. model training (TFT, N-BEATS and DeepAR);
5. model evaluation;
6. results and visualisation.

Each stage is a simulation. A timer ticks progress up to 100, logs the job of the current
slot, completes exactly once and hands a payload built from `Math.random()` back to the wizard.
Beside the wizard are a live candlestick chart with model forecasts, a real-time prediction
panel, CSV exports and a PDF report.

This project models, in Dafny, the logic that remains once every random draw is an explicit
input in [0, 1):

- the wizard is a class over its five state fields, with a pure specification of its
  handlers;
- the parameter validator accumulates its errors in a loop and is specified by a function
  listing the broken rules in order. The update helpers and the checkbox toggle are pure
  functions on a JavaScript-like record;
- one generic progress ticker (`Ticker`) covers the four stage timers. It is configured with
  the step, the slot width, the job texts and the log bound, and each stage wraps it in a class
  that produces the stage's payload on the completing tick;
- the payloads: the sample data and its symbols; the preprocessing statistics; the
  training phase schedule with its phase-to-model lookup, epoch metrics and day split; and the
  evaluation metric bands with their averages;
- the live chart: candles, forecasts, the 200-point history, relative-error accuracy and the
  zoom clamps;
- the serialisers: dataset CSV, CSV data URIs with a full `encodeURIComponent` and
  `decodeURIComponent` round trip, and the generated tables. This part also covers the PDF
  layout arithmetic, the download-availability flags and the progress flags;
- the prediction panel: confidence bands, the best-model reduction and the signed change.

Each source module has one Dafny module. `Values` is JavaScript values, truthiness and `||`
defaults. `Text` is decimal text, `toFixed` on exact values, `Join`/`Split` and the
first-occurrence `replace`.

## Model

| member | source | states |
|---|---|---|
| App.IdInjective | src/App.tsx:19-62 | two steps with the same id string are the same step |
| App.StepOrderDistinct | src/App.tsx:75 | the step order lists every step exactly once |
| App.StatusOf | src/App.tsx:23-59 | a step is active iff it is current; completed iff it is not current and is in the completed list; pending otherwise, so active wins over completed |
| App.OneActive | src/App.tsx:148-177 | exactly one step of the order is active, so at most one stage component runs |
| App.IndexOf | src/App.tsx:76 | the position of the first occurrence, or -1 exactly when the value is absent |
| App.NextStep | src/App.tsx:75-83 | each step's successor in the order; the results step has none |
| App.ResultKeyIsReplace | src/App.tsx:72 | a step's result key is its id with only the first '-' removed |
| App.ResultKeyInjective | src/App.tsx:72 | distinct steps store their results under distinct keys |
| App.StoreKey | src/App.tsx:72 | the key computed by the `replace` call is the step's result key |
| App.StageKeysAre | src/App.tsx:72 | the four reporting stages store under "datacollection", "datapreprocessing", "modeltraining" and "modelevaluation" |
| App.StageKeysOfStages | src/App.tsx:72 | the stage keys are those of the reporting stages, pairwise distinct |
| App.MoveOn | src/App.tsx:79-83 | the step change touches only the current step and the running flag |
| App.MoveOnByIndex | src/App.tsx:75-83 | through `indexOf`, the change goes to the entry after the step, or else stops the run and keeps the current step |
| App.StepCompletedStores | src/App.tsx:71-73 | completion stores the data under the step's key, keeps every other key and value, appends the step to the completed list and shows the results panel |
| App.StepCompletedAdvances | src/App.tsx:75-83 | for a step at position i < 5 the next step is entry i+1 and running is unchanged; completing the last step stops the run and keeps the current step |
| App.FullRun | src/App.tsx:64-84 | after start and four stage completions: the results step is current; five steps are completed; exactly the four stage keys hold the stages' data; the run is still going and reset stays disabled |
| App.AnalysisWizard.constructor | src/App.tsx:13-17 | the initial state: configuration, nothing completed, no parameters, no results, not running |
| App.AnalysisWizard.StartAnalysis | src/App.tsx:64-69 | stores the parameters, runs, moves to data collection, sets the completed list to exactly [configuration] |
| App.AnalysisWizard.StepComplete | src/App.tsx:71-84 | the new state is the specification's step completion of the old one |
| App.AnalysisWizard.Store | src/App.tsx:72-73 | the data is stored under the step's key and the step appended; nothing else changes |
| App.AnalysisWizard.Advance | src/App.tsx:75-83 | the new state is the step change of the old one |
| App.AnalysisWizard.Reset | src/App.tsx:86-92 | restores exactly the initial state |
| Parameters.DefaultsWellFormed | src/components/ParameterConfiguration.tsx:13-62 | the default parameters have the shape the form keeps |
| Parameters.DefaultsValid | src/components/ParameterConfiguration.tsx:13-62 | the defaults produce no validation error |
| Parameters.SelectedCryptos | src/components/DataPreprocessing.tsx:35 | the configured coin list, or bitcoin, ethereum and solana when none is set |
| Parameters.Messages | src/components/ParameterConfiguration.tsx:82-94 | one message per violation, in the same order |
| Parameters.BrokenAmongIff | src/components/ParameterConfiguration.tsx:78-98 | a rule is reported iff it is among the rules checked and the parameters break it |
| Parameters.BrokenAmongAscending | src/components/ParameterConfiguration.tsx:78-98 | the reported rules keep the order of the checked ones and are no more of them |
| Parameters.ViolationsIff | src/components/ParameterConfiguration.tsx:81-95 | split error iff the ratios sum more than 0.001 away from 1; epochs error iff TFT epochs < 1 or > 100; batch error iff batch size < 16 or > 512; crypto error iff no coin is selected |
| Parameters.ViolationsOrdered | src/components/ParameterConfiguration.tsx:78-98 | violations come in the order split, epochs, batch, crypto, and are at most four |
| Parameters.ViolationsReadOnly | src/components/ParameterConfiguration.tsx:78-98 | parameters that agree on the three ratios, TFT epochs, TFT batch size and the coin list get the same violations; N-BEATS and DeepAR settings are never read |
| Parameters.NaNPasses | src/components/ParameterConfiguration.tsx:81-91 | NaN epochs, batch size and split ratio pass validation, because comparisons with NaN are false |
| Parameters.ValidateParameters | src/components/ParameterConfiguration.tsx:78-98 | the accumulated errors are the messages of the violations |
| Parameters.SubmitStartsIffValid | src/components/ParameterConfiguration.tsx:100-107 | submitting starts the analysis, with these parameters, iff there is no violation |
| Parameters.AlertLines | src/components/ParameterConfiguration.tsx:105 | otherwise the alert's lines are its heading followed by the error messages |
| Parameters.EnabledButtonStarts | src/components/ParameterConfiguration.tsx:754 | the start button is enabled iff no analysis runs and submitting would start one |
| Parameters.ChangeRoot | src/components/ParameterConfiguration.tsx:68-69 | a root change sets that key and leaves every other key as it was |
| Parameters.ChangeInSection | src/components/ParameterConfiguration.tsx:70-75 | a section change sets that key in the section and leaves the section's other keys and all other root keys as they were |
| Parameters.ChangeKeepsWellFormed | src/components/ParameterConfiguration.tsx:67-76 | a change with a value of the field's kind keeps the parameters well formed |
| Parameters.ToggleEffect | src/components/ParameterConfiguration.tsx:394-396 | checking appends the coin; unchecking removes every occurrence, keeps the count of every other coin and keeps their relative order |
| Parameters.UncheckFilters | src/components/ParameterConfiguration.tsx:396 | unchecking is a filter: the result over a concatenation is the concatenation of the results, and one entry is dropped iff it is the coin, which fixes the list exactly |
| Parameters.UncheckLastCrypto | src/components/ParameterConfiguration.tsx:393-397 | unchecking the only coin gives the crypto error, which disables the start button |
| Ticker.Kept | src/components/ModelTraining.tsx:124 | a bounded log keeps its last `keep` lines, in order; an unbounded one keeps all |
| Ticker.IdleInv | src/components/DataCollection.tsx:43-48 | the idle state satisfies the ticker invariant |
| Ticker.EffectInv | src/components/DataCollection.tsx:43-48 | the activation effect preserves the invariant |
| Ticker.TickInv | src/components/DataCollection.tsx:51-70 | a tick preserves the invariant: progress stays in [0, 100] and completion means progress 100 and stopped |
| Ticker.TickCompletes | src/components/DataCollection.tsx:60-69 | a tick completes iff the new progress reaches 100; then progress is clamped to 100 and the ticker stops; otherwise progress grows by the step |
| Ticker.TickLogs | src/components/DataCollection.tsx:53-58 | a tick whose slot index is below the number of jobs logs that job after the kept lines; any other tick leaves the log alone |
| Ticker.CompletedStaysCompleted | src/components/DataCollection.tsx:44 | once completed, the effect changes nothing but stops the timer |
| Ticker.ActivationStarts | src/components/DataCollection.tsx:44-48 | activating an uncompleted stage resets progress, log and task and starts the timer |
| Ticker.RunBelow | src/components/DataCollection.tsx:51-70 | ticks that stay below 100 add their steps and keep the ticker running |
| Ticker.RunCompletes | src/components/DataCollection.tsx:60-69 | the tick that crosses 100 completes at exactly 100 and stops |
| Ticker.RunConcat | src/components/DataCollection.tsx:50-71 | running two tick sequences is running their concatenation |
| Ticker.RunAfterCompletion | src/components/DataCollection.tsx:66 | after the interval is cleared, further ticks change nothing |
| Ticker.RunInvPreserved | src/components/DataCollection.tsx:50-71 | every run preserves the invariant |
| Ticker.ProgressTicker.constructor | src/components/DataCollection.tsx:11-15 | a new ticker is idle |
| Ticker.ProgressTicker.Activate | src/components/DataCollection.tsx:43-48 | the new state is the activation effect on the old one |
| Ticker.ProgressTicker.Tick | src/components/DataCollection.tsx:51-70 | the new state is one tick of the old one; it reports completion iff the new progress reaches 100 |
| DataCollection.TickerConfig | src/components/DataCollection.tsx:17-24 | six tasks, one point per tick, an unbounded log |
| DataCollection.EveryTickLogs | src/components/DataCollection.tsx:52-57 | up to 100 the slot floor(p/17) is below 6, so every tick logs its task |
| DataCollection.LogsOnePerTick | src/components/DataCollection.tsx:52-57 | the log grows by exactly one line per tick |
| DataCollection.CompletesOnTick100 | src/components/DataCollection.tsx:60-69 | from activation, the 100th tick completes at 100 with 100 log lines, and later ticks change nothing |
| DataCollection.Symbol | src/components/DataCollection.tsx:33 | BTC iff bitcoin, ETH iff ethereum, SOL for anything else |
| DataCollection.MissingCount | src/components/DataCollection.tsx:38 | a draw in [0, 1) gives a missing count in [1, 10] |
| DataCollection.CryptoIds | src/components/DataCollection.tsx:31 | the coin list exists iff the parameters and their coin list do |
| DataCollection.SampleData | src/components/DataCollection.tsx:26-41 | no records without a coin list; otherwise one per coin, in order, with the capitalised name, its symbol, `daysDiff` records, missing values in [1, 10], the variables or their default, and the configured dates |
| DataCollection.Collector.constructor | src/components/DataCollection.tsx:11-15 | a new stage is idle and holds no data |
| DataCollection.Collector.Activate | src/components/DataCollection.tsx:43-48 | the ticker takes the activation effect |
| DataCollection.Collector.Tick | src/components/DataCollection.tsx:51-70 | one tick; the completing tick builds and hands on the sample data; other ticks keep the data |
| DataPreprocessing.Tasks | src/components/DataPreprocessing.tsx:23-32 | eight tasks |
| DataPreprocessing.TaskTexts | src/components/DataPreprocessing.tsx:23-32 | eight tasks for any method names |
| DataPreprocessing.MissingMethodsDescriptions | src/components/DataPreprocessing.tsx:26-27 | without methods set, the job texts name 'linear' and 'Min-Max' while the descriptions show robust scaling and spline interpolation |
| DataPreprocessing.TickerConfig | src/components/DataPreprocessing.tsx:69-77 | eight tasks, one point per tick, an unbounded log |
| DataPreprocessing.TickLogsBelow100 | src/components/DataPreprocessing.tsx:72-77 | a tick below 100 logs one line; the tick reaching 100 has slot 8 and logs nothing |
| DataPreprocessing.LogsOnePerTick | src/components/DataPreprocessing.tsx:72-77 | below 100 the log grows by one line per tick and the stage keeps running |
| DataPreprocessing.CompletesOnTick100 | src/components/DataPreprocessing.tsx:79-88 | from activation, the 100th tick completes at 100 with 99 log lines, and later ticks change nothing |
| DataPreprocessing.MissingTable | src/components/DataPreprocessing.tsx:38-43 | one entry per listed coin and no other, with found and interpolated counts in [1, 10] drawn by `Math.floor(r * 10) + 1`; the last listed coin holds its own draws' counts |
| DataPreprocessing.MissingTableOwnCounts | src/components/DataPreprocessing.tsx:38-43 | each coin holds the counts of the draws at its last position in the list, so a coin listed once holds its own draws and a repeated coin keeps its last counts |
| DataPreprocessing.BuildMissingTable | src/components/DataPreprocessing.tsx:38-43 | the `forEach` builds that table |
| DataPreprocessing.PreprocessingStats | src/components/DataPreprocessing.tsx:34-60 | the missing-value table of the selected coins, the method or 'minmax', and the constant ranges and quality figures |
| DataPreprocessing.StatsCoverCryptos | src/components/DataPreprocessing.tsx:35-43 | the table's keys are the configured coins, or the three default coins, with counts in [1, 10] |
| DataPreprocessing.ScalingOf | src/components/DataPreprocessing.tsx:141-143 | Min-Max iff 'minmax', z-score iff 'standard', robust otherwise |
| DataPreprocessing.InterpolationOf | src/components/DataPreprocessing.tsx:155-157 | linear iff 'linear', polynomial iff 'polynomial', spline otherwise |
| DataPreprocessing.Preprocessor.constructor | src/components/DataPreprocessing.tsx:17-21 | a new stage is idle and holds no statistics |
| DataPreprocessing.Preprocessor.Activate | src/components/DataPreprocessing.tsx:62-67 | the ticker takes the activation effect |
| DataPreprocessing.Preprocessor.Tick | src/components/DataPreprocessing.tsx:69-90 | one tick; the completing tick hands on statistics holding the missing-value table of the selected coins, the normalisation method or 'minmax', the three fixed ranges, 94.2% / 100% quality and 23 of 23 outliers handled; other ticks keep the statistics |
| ModelTraining.TrainingPhases | src/components/ModelTraining.tsx:30-37 | n+5 phases of one model: three setup phases, epoch k/n for k = 1..n in order, then validate and save |
| ModelTraining.EpochPhases | src/components/ModelTraining.tsx:34 | phase i is an epoch iff 3 <= i < n+3, and then it is epoch i-2 of n |
| ModelTraining.EpochNumbersParse | src/components/ModelTraining.tsx:129-130 | the epoch numbers in a phase's text parse back to themselves |
| ModelTraining.EpochsSetting | src/components/ModelTraining.tsx:97 | a model's epochs setting, or 10 when it is missing, zero or NaN |
| ModelTraining.ToLength | src/components/ModelTraining.tsx:34 | an array length from a number: 0 for non-positive values, the whole part otherwise |
| ModelTraining.EpochCountDefault | src/components/ModelTraining.tsx:97 | a falsy epochs setting gives 10 epochs |
| ModelTraining.EpochCountWhole | src/components/ModelTraining.tsx:97 | a positive whole setting gives that many epochs |
| ModelTraining.PhasesUpTo | src/components/ModelTraining.tsx:96-100 | the phases of the first i models number the sum of their lengths |
| ModelTraining.Schedule | src/components/ModelTraining.tsx:96-100 | all phases number the three epoch counts plus 15 |
| ModelTraining.ScheduleParts | src/components/ModelTraining.tsx:96-100 | the schedule is TFT's phases, then N-BEATS', then DeepAR's |
| ModelTraining.BlockOf | src/components/ModelTraining.tsx:111-121 | every phase position lies in exactly one model's block |
| ModelTraining.ScheduleAt | src/components/ModelTraining.tsx:108 | the phase at a position is that block's model's phase at the offset within the block |
| ModelTraining.BuildAllPhases | src/components/ModelTraining.tsx:91-100 | the `forEach` builds the schedule of the configured epoch counts |
| ModelTraining.ModelIndexFor | src/components/ModelTraining.tsx:111-121 | within the schedule the loop picks the model whose block holds the phase; past it, model 0 |
| ModelTraining.LookupFindsPhaseModel | src/components/ModelTraining.tsx:111-121 | the block the lookup picks holds phases of that model, and it is the only such block |
| ModelTraining.ScheduleEpochsInRange | src/components/ModelTraining.tsx:127-131 | an epoch phase's k lies in [1, n], n is its model's epoch count and the lookup's model is the phase's model |
| ModelTraining.MetricsAt | src/components/ModelTraining.tsx:133-141 | epoch progress k/n*100 lies in (0, 100] and is 100 iff k = n |
| ModelTraining.LossesFall | src/components/ModelTraining.tsx:138-139 | both losses fall with the epoch, validation loss stays above training loss and progress rises |
| ModelTraining.ScheduleConfig | src/components/ModelTraining.tsx:104-124 | progress 0.3 per tick, slot width 100/phase count, a log keeping 12 lines, tasks the phase texts and labels the model names |
| ModelTraining.TickerConfig | src/components/ModelTraining.tsx:96-105 | the configured stage ticker is valid |
| ModelTraining.SlotOfProgress | src/components/ModelTraining.tsx:105-107 | a phase is looked up iff progress is below 100 |
| ModelTraining.ModelIndex | src/components/ModelTraining.tsx:24-28 | each model's position in the model list |
| ModelTraining.MetricsAfterConsistent | src/components/ModelTraining.tsx:127-143 | the update keeps every model's metrics consistent with its epoch count, keeps earlier entries and changes only the current model's |
| ModelTraining.UpdateMetrics | src/components/ModelTraining.tsx:105-143 | the lookup loop and the epoch match give the specified metrics update |
| ModelTraining.DaySplit | src/components/ModelTraining.tsx:44-46 | train and validation days are floors of their shares and the three parts sum to the total |
| ModelTraining.DaySplitNonNegative | src/components/ModelTraining.tsx:44-46 | with non-negative shares summing to at most 1, no part is negative |
| ModelTraining.FinalStatsOf | src/components/ModelTraining.tsx:39-81 | the day split sums to the total and each final epoch is that model's setting or 10 |
| ModelTraining.DefaultSplitNonNegative | src/components/ModelTraining.tsx:44-46 | the default 0.8/0.1 split gives no negative part |
| ModelTraining.CompletesOnTick334 | src/components/ModelTraining.tsx:146-155 | from activation the stage still runs after 333 ticks, completes on the 334th, and its log never passes 13 lines |
| ModelTraining.Trainer.constructor | src/components/ModelTraining.tsx:17-22 | a new stage is idle with no phases, metrics or statistics |
| ModelTraining.Trainer.Activate | src/components/ModelTraining.tsx:83-100 | an uncompleted activation clears the metrics and builds the schedule; otherwise both are kept |
| ModelTraining.Trainer.Tick | src/components/ModelTraining.tsx:102-157 | one tick: the metrics update at the new progress, and on completion the final statistics are built and handed on |
| ModelEvaluation.TickerConfig | src/components/ModelEvaluation.tsx:24-37 | twelve tasks, one point per tick, a log keeping 8 lines |
| ModelEvaluation.SlotOf | src/components/ModelEvaluation.tsx:104-106 | progress below 99.96 falls in one of the twelve 8.33-wide slots; from 99.96 on it falls past them |
| ModelEvaluation.TickLogsBelowLastSlot | src/components/ModelEvaluation.tsx:104-109 | a tick logs its task after the last 8 lines iff the new progress is below 99.96, so the completing tick logs nothing |
| ModelEvaluation.CompletesOnTick100 | src/components/ModelEvaluation.tsx:101-121 | from activation the 100th tick completes, later ticks change nothing, and the log never holds more than 9 lines |
| ModelEvaluation.DrawnInBand | src/components/ModelEvaluation.tsx:45-62 | for draws in [0, 1) every metric lies in its band, e.g. TFT's MAPE in [2.0, 3.0) and DeepAR's R² in [0.88, 0.93) |
| ModelEvaluation.ResultsTable | src/components/ModelEvaluation.tsx:43-64 | one entry per listed coin, every metric of every model in its band |
| ModelEvaluation.BuildResults | src/components/ModelEvaluation.tsx:43-64 | the `forEach` builds that table |
| ModelEvaluation.SumBounds | src/components/ModelEvaluation.tsx:75-78 | a sum of n values in [lo, hi] lies in [n*lo, n*hi] |
| ModelEvaluation.MeanBetween | src/components/ModelEvaluation.tsx:75-78 | the mean of a non-empty list of values in [lo, hi] lies in [lo, hi] |
| ModelEvaluation.Column | src/components/ModelEvaluation.tsx:74 | one metric of one model, coin by coin |
| ModelEvaluation.BuildAverages | src/components/ModelEvaluation.tsx:73-79 | every model gets the averages of its four metrics over the coins |
| ModelEvaluation.AveragesInBand | src/components/ModelEvaluation.tsx:73-79 | over a non-empty coin list each average lies in its metric's band; over an empty one each is NaN |
| ModelEvaluation.TestsAtFivePercent | src/components/ModelEvaluation.tsx:85-87 | the constant tests are significant exactly when their p-value is below 0.05 |
| ModelEvaluation.EvaluationResults | src/components/ModelEvaluation.tsx:39-92 | one group per selected coin, the averages of every model, 'TFT' named best and the constant tests, whatever the metrics |
| ModelEvaluation.Evaluator.constructor | src/components/ModelEvaluation.tsx:17-22 | a new stage is idle with no results and no best model |
| ModelEvaluation.Evaluator.Activate | src/components/ModelEvaluation.tsx:94-99 | the ticker takes the activation effect |
| ModelEvaluation.Evaluator.Tick | src/components/ModelEvaluation.tsx:101-123 | one tick; the completing tick hands on results holding one entry per selected coin of in-band metrics, every model's averages over those coins, 'TFT' as best overall and the constant tests, and names TFT best; other ticks keep both |
| PredictionChart.CandleBounds | src/components/RealTimePredictionChart.tsx:76-94 | with a positive open, volatility in [0, 2) and draws in [0, 1), a candle has 0 < low <= min(open, close) and high >= max(open, close) |
| PredictionChart.OpenPositive | src/components/RealTimePredictionChart.tsx:78 | the open is positive, and it is the previous close when that is given and positive |
| PredictionChart.ClosePositive | src/components/RealTimePredictionChart.tsx:81-82 | the close of a positive open is positive |
| PredictionChart.HighAbove | src/components/RealTimePredictionChart.tsx:84 | the high is at least the larger of open and close |
| PredictionChart.LowBelow | src/components/RealTimePredictionChart.tsx:85 | the low is positive and at most the smaller of open and close |
| PredictionChart.BullishIffRising | src/components/RealTimePredictionChart.tsx:559 | a candle is bullish (close >= open) iff its change draw is at least 0.5 |
| PredictionChart.PredictionWithinHalfWidth | src/components/RealTimePredictionChart.tsx:232-242 | a forecast's relative error is at most half its width |
| PredictionChart.CoinCandleChains | src/components/RealTimePredictionChart.tsx:116-127 | a coin's new candle is well formed and opens at the previous point's close |
| PredictionChart.LivePointChains | src/components/RealTimePredictionChart.tsx:96-129 | a live point is well formed and follows the previous one |
| PredictionChart.LivePredictionsWithinBand | src/components/RealTimePredictionChart.tsx:106-111 | each live forecast lies within volatility*k/2 of the close, with k = 0.8, 0.9, 1.1 for TFT, N-BEATS, DeepAR |
| PredictionChart.InitialPointsChained | src/components/RealTimePredictionChart.tsx:199-245 | the historical points are chained and one day apart from the start time |
| PredictionChart.InitialPointChains | src/components/RealTimePredictionChart.tsx:200-242 | a historical point is well formed and follows the previous one |
| PredictionChart.InitialData | src/components/RealTimePredictionChart.tsx:196-245 | the loop builds the specified historical points |
| PredictionChart.InitialHistory | src/components/RealTimePredictionChart.tsx:196-248 | the initial history is chained, has only non-zero closes and holds at most 200 points |
| PredictionChart.InitialState | src/components/RealTimePredictionChart.tsx:196-248 | the effect sets that history and its performance figures |
| PredictionChart.Last | src/components/RealTimePredictionChart.tsx:169 | `slice(-k)`: the last min(k, n) elements |
| PredictionChart.UpdateKeepsLast200 | src/components/RealTimePredictionChart.tsx:166-171 | an update appends the new point after the previous last and keeps only the last 200, in order |
| PredictionChart.UpdateKeepsChained | src/components/RealTimePredictionChart.tsx:166-171 | an update keeps the history chained |
| PredictionChart.ChainedNonZero | src/components/RealTimePredictionChart.tsx:143-145 | a chained history has no zero close, so the relative error is defined |
| PredictionChart.ErrorSum | src/components/RealTimePredictionChart.tsx:142-148 | the error sum over a coin's points is non-negative |
| PredictionChart.PerformanceShape | src/components/RealTimePredictionChart.tsx:131-160 | no figures below 2 points; otherwise TFT, NBEATS, DEEPAR in order, average error >= 0 and accuracy in [0, 100] |
| PredictionChart.ErrorSumZero | src/components/RealTimePredictionChart.tsx:142-148 | a coin's error sum is 0 iff the model predicted every close exactly |
| PredictionChart.PerfectIffExact | src/components/RealTimePredictionChart.tsx:151-152 | the average error is 0 iff the model is exact on every coin, and then accuracy is 100 |
| PredictionChart.TotalError | src/components/RealTimePredictionChart.tsx:138-149 | the nested loops total the specified error over 3*|history| points |
| PredictionChart.CalculateModelPerformance | src/components/RealTimePredictionChart.tsx:131-161 | the method gives the specified figures |
| PredictionChart.ZoomStepsInRange | src/components/RealTimePredictionChart.tsx:185-191 | both zoom steps keep the level in [0.1, 10]; zooming in never lowers it and zooming out never raises it |
| PredictionChart.ZoomRoundTrip | src/components/RealTimePredictionChart.tsx:185-191 | away from the clamps, zooming out undoes zooming in and the other way round |
| PredictionChart.ZoomedInRange | src/components/RealTimePredictionChart.tsx:185-191 | any sequence of presses from a level in range stays in [0.1, 10] |
| PredictionChart.LiveChart.constructor | src/components/RealTimePredictionChart.tsx:60-65 | an empty history, no figures, zoom 1 |
| PredictionChart.LiveChart.Activate | src/components/RealTimePredictionChart.tsx:193-249 | sets the historical points and their figures, keeping the chart valid and the zoom |
| PredictionChart.LiveChart.Update | src/components/RealTimePredictionChart.tsx:165-172 | the history takes one update, the figures are recomputed, the chart stays valid |
| PredictionChart.LiveChart.ZoomInPressed | src/components/RealTimePredictionChart.tsx:185-187 | zooms in, clamped at 10, nothing else changes |
| PredictionChart.LiveChart.ZoomOutPressed | src/components/RealTimePredictionChart.tsx:189-191 | zooms out, clamped at 0.1, nothing else changes |
| PdfReport.QuotedIffComma | src/utils/pdfGenerator.ts:178-180 | a value is quoted iff it is a string containing ',' |
| PdfReport.UnquoteQuote | src/utils/pdfGenerator.ts:178-180 | stripping the quotes gives back the string; embedded quotes are not doubled |
| PdfReport.Keys | src/utils/pdfGenerator.ts:177 | the keys of a record, in order |
| PdfReport.Fields | src/utils/pdfGenerator.ts:178-180 | the record's values, each quoted by the rule |
| PdfReport.Lines | src/utils/pdfGenerator.ts:178-180 | one comma-joined line per record |
| PdfReport.DatasetCsv | src/utils/pdfGenerator.ts:174-187 | no file iff the data is missing or empty; otherwise the name with ".csv" appended |
| PdfReport.DatasetCsvReadsBack | src/utils/pdfGenerator.ts:177-182 | the text splits into 1+n lines: the first row's keys, then each row's values |
| PdfReport.ColumnName | src/utils/pdfGenerator.ts:199-210 | each coin/series key is plain text |
| PdfReport.CalendarDay | src/utils/pdfGenerator.ts:191-195 | day i after 2025-01-24 is a valid January or February day |
| PdfReport.DateText | src/utils/pdfGenerator.ts:198 | the date is ten plain characters: 2025, then month and day in two digits |
| PdfReport.DateReadsBack | src/utils/pdfGenerator.ts:198 | its month and day read back as the calendar day |
| PdfReport.ColumnPrice | src/utils/pdfGenerator.ts:199-210 | bitcoin values lie in [45000, 50000), ethereum in [2300, 2600), solana in [85, 100) |
| PdfReport.PriceEntry | src/utils/pdfGenerator.ts:199-210 | the entry's key is its column and its text is plain |
| PdfReport.PredictionRowShape | src/utils/pdfGenerator.ts:197-211 | a row has the 13 columns in order, the date first and every price in two decimals |
| PdfReport.PredictionData | src/utils/pdfGenerator.ts:193-212 | the loop builds 30 rows, row i on day i |
| PdfReport.PredictionTableShape | src/utils/pdfGenerator.ts:193-212 | every row has the 13 columns and the day's date, and nothing needs quoting |
| PdfReport.DatasetCsvShaped | src/utils/pdfGenerator.ts:174-187 | such a table gives a header of its columns and one line per row starting with its first value |
| PdfReport.PredictionDates | src/utils/pdfGenerator.ts:193-198 | the thirty dates in order |
| PdfReport.GeneratePredictionCsv | src/utils/pdfGenerator.ts:189-214 | a file named prediction_results.csv: a header of the 13 columns, then 30 lines starting with the dates |
| PdfReport.ColumnsAbut | src/utils/pdfGenerator.ts:88-106 | column i starts where column i-1 ends, starting at 20 and ending at 140, so offsets strictly increase |
| PdfReport.BlockTopsPrefix | src/utils/pdfGenerator.ts:135-139 | each wrapped block starts where the blocks before it end |
| PdfReport.BlockGaps | src/utils/pdfGenerator.ts:135-139 | each wrapped block advances y by lines*5+3 |
| PdfReport.WrappedBlocks | src/utils/pdfGenerator.ts:135-139 | the loop places the blocks at the specified tops and ends after the last |
| PdfReport.ParameterLines | src/utils/pdfGenerator.ts:57-60 | seven lines 5 apart, ending 35 lower |
| PdfReport.TableRows | src/utils/pdfGenerator.ts:101-108 | each row is 8 below the previous |
| PdfReport.LayoutReport | src/utils/pdfGenerator.ts:8-164 | the method's positions are the specified layout |
| PdfReport.PageBreakRule | src/utils/pdfGenerator.ts:114-117 | a page is added iff y > pageHeight-50, and then y resets to 20 |
| PdfReport.A4PageBreak | src/utils/pdfGenerator.ts:114-117 | on A4 the break happens iff the summary wraps to more than 10 lines (23 without evaluation) |
| PdfReport.TableLayout | src/utils/pdfGenerator.ts:65-110 | heading, winner, header and three rows 8 apart; the table ends 23 past its header and y moves 15 further |
| PdfReport.SectionsFollow | src/utils/pdfGenerator.ts:119-164 | findings follow their heading, each block follows the previous, and the recommendations follow the findings |
| ResultsStorage.Utf8 | src/components/ResultsStorage.tsx:20 | one to four bytes per character, one exactly for ASCII |
| ResultsStorage.HexDigitValue | src/components/ResultsStorage.tsx:20 | a hexadecimal digit reads back as its value |
| ResultsStorage.Escape | src/components/ResultsStorage.tsx:20 | a byte escape is '%' and two unreserved digits |
| ResultsStorage.EncodeUriComponent | src/components/ResultsStorage.tsx:20 | the encoding holds only unreserved characters and '%' |
| ResultsStorage.Utf8TextDecodes | src/components/ResultsStorage.tsx:20 | UTF-8 decoding inverts UTF-8 encoding |
| ResultsStorage.EscapesDecode | src/components/ResultsStorage.tsx:20 | percent-decoding inverts byte escapes |
| ResultsStorage.EncodeDecodesToBytes | src/components/ResultsStorage.tsx:20 | percent-decoding the encoding gives the text's UTF-8 bytes |
| ResultsStorage.DecodeEncode | src/components/ResultsStorage.tsx:20 | `decodeURIComponent` inverts `encodeURIComponent` on every text |
| ResultsStorage.RowLines | src/components/ResultsStorage.tsx:19 | each row's values joined by ',', never quoted |
| ResultsStorage.CsvDataUri | src/components/ResultsStorage.tsx:16-21 | '' iff the data is missing or empty; otherwise the data-URI prefix and an encoded payload that decodes to header+'\n'+rows |
| ResultsStorage.CsvTextAgrees | src/components/ResultsStorage.tsx:16-21 | on values that need no quoting, the text is the dataset CSV's text |
| ResultsStorage.CsvDataUriShaped | src/components/ResultsStorage.tsx:16-21 | the decoded payload has the column header and one line per row starting with its first value |
| ResultsStorage.FixedCell | src/components/ResultsStorage.tsx:47-52 | a fixed-point cell's text is plain |
| ResultsStorage.DateRange | src/components/ResultsStorage.tsx:35-36 | the configured dates, or 2020-06-02 and 2025-07-31 |
| ResultsStorage.DaysDiff | src/components/ResultsStorage.tsx:37 | the ceiling of the difference in days; NaN for an invalid date |
| ResultsStorage.RowBound | src/components/ResultsStorage.tsx:41 | min(daysDiff, 100) |
| ResultsStorage.RowCount | src/components/ResultsStorage.tsx:41 | the loop runs min(daysDiff, 100) times, and no time for NaN or non-positive counts |
| ResultsStorage.IsoDate | src/components/ResultsStorage.tsx:46 | ten plain characters |
| ResultsStorage.CleanValue | src/components/ResultsStorage.tsx:47-52 | normalised values in [0, 1) to 6 decimals; price in [10000, 60000) to 2; volume and market cap in their bands as integers |
| ResultsStorage.CleanEntry | src/components/ResultsStorage.tsx:47-52 | each entry's key is its column and its text is plain |
| ResultsStorage.CleanRowShape | src/components/ResultsStorage.tsx:45-53 | a row has the seven columns in order, the date first |
| ResultsStorage.CleanTable | src/components/ResultsStorage.tsx:41-54 | n rows, row i on date i |
| ResultsStorage.CleanDataset | src/components/ResultsStorage.tsx:40-54 | the loop builds min(daysDiff, 100) rows |
| ResultsStorage.CleanTableShaped | src/components/ResultsStorage.tsx:40-56 | a coin's URI holds the header of the seven columns and one line per day |
| ResultsStorage.CleanDownload | src/components/ResultsStorage.tsx:56-59 | the file is named `<coin>_clean_dataset.csv` and has content iff there are rows |
| ResultsStorage.CleanFiles | src/components/ResultsStorage.tsx:39-60 | one download per coin, in order |
| ResultsStorage.CleanDownloads | src/components/ResultsStorage.tsx:39-60 | one download per coin when there are rows, none otherwise |
| ResultsStorage.CleanDatasets | src/components/ResultsStorage.tsx:33-61 | the same for the selected coins and the day difference of the configured dates |
| ResultsStorage.PredictionTable | src/components/ResultsStorage.tsx:67-86 | thirty rows, row i on day i |
| ResultsStorage.PredictionResults | src/components/ResultsStorage.tsx:63-92 | the file prediction_results.csv, whose payload decodes to the same text as the exported dataset CSV, with the 13 columns and 30 dated lines |
| ResultsStorage.MetricValue | src/components/ResultsStorage.tsx:104-108 | MAE in [0.02, 0.03), RMSE in [0.025, 0.035), MAPE in [2, 3), R² in [0.88, 0.98), minutes in [25, 45), each with its decimals |
| ResultsStorage.MetricEntry | src/components/ResultsStorage.tsx:104-108 | each entry's key is its column and its text is plain |
| ResultsStorage.MetricEntries | src/components/ResultsStorage.tsx:104-108 | the five metric entries in order |
| ResultsStorage.MetricsTable | src/components/ResultsStorage.tsx:99-111 | three rows per coin |
| ResultsStorage.MetricsPrefixAppend | src/components/ResultsStorage.tsx:99-111 | each push extends a prefix of the table by its next row |
| ResultsStorage.EvaluationMetricsData | src/components/ResultsStorage.tsx:97-111 | the nested loops build the table |
| ResultsStorage.MetricsGroup | src/components/ResultsStorage.tsx:99-103 | coin c's rows are TFT, N-BEATS, DeepAR, each with the capitalised coin name |
| ResultsStorage.ModelCycle | src/components/ResultsStorage.tsx:96-100 | row k is model k mod 3 |
| ResultsStorage.MetricsRowShape | src/components/ResultsStorage.tsx:101-109 | a row has the seven columns in order, the model first |
| ResultsStorage.MetricsShaped | src/components/ResultsStorage.tsx:94-116 | the URI holds the header and three lines per coin, cycling through the models |
| ResultsStorage.EvaluationMetrics | src/components/ResultsStorage.tsx:94-117 | no file iff no coin is selected; otherwise evaluation_metrics.csv with the table's URI |
| ResultsStorage.OutputsWaitFor | src/components/ResultsStorage.tsx:250-353 | the eight outputs wait for preprocessing, training, five times evaluation, and visualisation |
| ResultsStorage.StepKeysKept | src/App.tsx:71-92 | the wizard's handlers only ever store under step keys |
| ResultsStorage.PanelKeyNotStored | src/components/ResultsStorage.tsx:258-352 | no key the panel reads after data collection is a step key |
| ResultsStorage.AsWrittenNeverAvailable | src/components/ResultsStorage.tsx:258-352 | as written, no output is ever available |
| ResultsStorage.FullRunLeaves | src/App.tsx:64-84 | a full run leaves exactly the four stage keys |
| ResultsStorage.FullRunStepKeys | src/App.tsx:72 | those are step keys |
| ResultsStorage.AvailableAfterFullRun | src/components/ResultsStorage.tsx:250-353 | read under the stored keys, the first seven outputs are available after a full run and the report is not; as written, none is |
| ResultsStorage.ButtonAgrees | src/components/ResultsStorage.tsx:394-401 | a button is disabled iff it reads "Pending", and enabled iff it reads "Download" |
| ResultsStorage.FileCountReadsBack | src/components/ResultsStorage.tsx:387 | the text starts with the count and ends in 's' iff there is more than one file |
| ResultsStorage.ProgressAsWrittenFlags | src/components/ResultsStorage.tsx:410-422 | as written, only the "Data" flag can ever be set |
| ResultsStorage.ProgressAfterFullRun | src/components/ResultsStorage.tsx:410-422 | after a full run the flags read (set, set, set) under the stored keys and (set, unset, unset) as written |
| RealTimePrediction.VolatilityOf | src/components/RealTimePrediction.tsx:34 | 0.03 for BTC, 0.04 for ETH, 0.06 otherwise |
| RealTimePrediction.ConfidenceBands | src/components/RealTimePrediction.tsx:42-54 | for draws in [0, 1): TFT confidence in [0.85, 0.95), N-BEATS in [0.80, 0.90), DeepAR in [0.75, 0.85), uncertainty in [0.05, 0.20) |
| RealTimePrediction.FetchPredictions | src/components/RealTimePrediction.tsx:67-71 | three predictions, BTC, ETH and SOL in that order |
| RealTimePrediction.BestIndex | src/components/RealTimePrediction.tsx:100-102 | the reduction ends at a candidate of greatest confidence, the first of them |
| RealTimePrediction.BestModelIsFirstMaximum | src/components/RealTimePrediction.tsx:94-103 | TFT iff no confidence exceeds its own; N-BEATS iff it beats TFT and DeepAR does not beat it; DeepAR iff it beats both |
| RealTimePrediction.DeepARNeverBest | src/components/RealTimePrediction.tsx:42-54 | with confidences in their bands DeepAR is never best |
| RealTimePrediction.SignAndColourAgree | src/components/RealTimePrediction.tsx:112-119 | the text starts with '+' iff the change is non-negative, which is when it is green, and ends in '%' after the fixed-point text |
| Text.DigitsValueOfNatToString | src/components/ModelTraining.tsx:129-130 | decimal text parses back to its number |
| Text.FixedReadsBack | src/components/ResultsStorage.tsx:47-52 | on exact values, `toFixed(f)` text reads back as the rounded value, with f decimals |
| Text.SplitJoin | src/utils/pdfGenerator.ts:177-182 | splitting a join at a separator absent from the parts gives back the parts |
| Text.RemoveFirstIsWithoutFirst | src/App.tsx:72 | the scan removes exactly the first occurrence |
| Text.Replace | src/App.tsx:72 | `replace(c, "")` with a character removes its first occurrence only |

## Left out

- Timers are not modelled, and neither is the one-second delay before a stage hands on its payload. One call to `Tick` stands for one interval callback, and the wizard's step change happens at once.
- `Math.random()`: each draw is a parameter in [0, 1). Fields that are only random with no stated bound are dropped. These are the chart performance `trend` and the training times.
- `Date`: the current time and `toLocaleTimeString`/`toLocaleString` are parameters (the log line's time text). The millisecond difference behind `daysDiff` is a parameter, and so are the calendar dates of the clean datasets. The thirty prediction dates are computed.
- `toFixed` is computed on the exact value for non-negative values, where the exported tables and texts use it. IEEE-754 rounding and the double arithmetic of sums and products are not modelled; every number is an exact `real`.
- ModelTraining.MetricsAt: the training and validation losses are exact reals, not the `toFixed(4)` strings the source stores.
- ModelEvaluation.ResultsTable: the metrics are exact reals, not their `toFixed(4)`/`toFixed(2)` strings. ModelEvaluation.AveragesOf averages those exact values rather than `parseFloat` of the rounded strings, and the averages are not rounded again. Once rounded, a metric can equal the top of its band, which the half-open bands here exclude.
- ModelTraining.FinalStatsOf: the constant losses of `trainingMetrics` (0.0234/0.0289, 0.0267/0.0312, 0.0298/0.0334) and the random training times are not part of the final statistics modelled; the day split, its rounded percentages, the hyperparameters and the final epochs are.
- Text.Capitalize: `Text.UpperChar` upper-cases the ASCII letters a–z only, unlike `toUpperCase`, which also maps other scripts' letters; the coin ids capitalised here are ASCII.
- Text.Fixed: JavaScript's `toFixed` switches to exponent form from 10^21 on; the model always gives fixed-point text. Every value formatted here is far below that.
- Blob, `URL.createObjectURL`, `downloadFile` and the DOM are left out: a download is its URI and file name. jsPDF drawing, fonts, `splitTextToSize` and html2canvas are out too. The number of lines a text wraps to is a parameter of the layout.
- Several outputs are built from constant text and are not modelled: the constant attention, trend and test CSVs, the model files (`JSON.stringify` of the settings) and the text of the report download in `ResultsStorage.tsx`. Their availability is modelled.
- App.NextStep: the steps are an enumeration, so an unknown `stepId` (for which `indexOf` gives -1 and the wizard moves back to 'configuration') cannot be written.
- Rendering is left out: Tailwind classes, Chart.js configuration, icons and guidance text, and the start/stop buttons of the live chart, which only start and clear its timer. `Header`, `StepIndicator` and `ResultsVisualization` are markup only and are not part of this model. Since `ResultsVisualization` never reports completion, a full run ends with the results step current and the run still going.
- The async delay of the prediction panel's refresh is left out. Its auto-refresh timer and `formatPrice` are left out too.
- ModelTraining.ToLength: zero and negative (or NaN) lengths give an empty array, as `Array.from` does. A fractional epoch count is truncated; the model does not follow JavaScript's length coercion any further.
- DataCollection.SampleData: the records count `daysDiff` is a parameter; the ceiling of the millisecond difference is stated in ResultsStorage.DaysDiff.

## Findings

| source | as written | input that shows it | evidently intended | confidence | as-written member | corrected member |
|---|---|---|---|---|---|---|
| src/components/ResultsStorage.tsx:258-352 | availability reads `results.preprocessing`, `results.training`, `results.evaluation` and `results.visualization` | a full run, which stores "datacollection", "datapreprocessing", "modelevaluation" and "modeltraining" | an output is available once the stage it waits for has stored its result | not executed | ResultsStorage.AsWrittenNeverAvailable | ResultsStorage.AvailableAfterFullRun |
| src/components/ResultsStorage.tsx:410-422 | the "Prep" and "Train" flags read `results.preprocessing` and `results.training` | the same full run | each flag is set once its stage has stored its result | not executed | ResultsStorage.ProgressAsWrittenFlags | ResultsStorage.ProgressAfterFullRun |
