/** The six-step analysis wizard of the top-level component: which step is current, which
    steps are done, the results the stages hand back and whether an analysis is running. */
module App {
  import opened Values
  import opened Text

  /** The wizard's steps. The component keeps them as id strings; `Id` gives each one's text. */
  datatype Step =
    | Configuration
    | DataCollection
    | DataPreprocessing
    | ModelTraining
    | ModelEvaluation
    | ResultsVisualization

  /** The words of a step's id: 'data-collection' is the words "data" and "collection" joined
      by a dash; the first step's id is the single word 'configuration'. */
  datatype Words = Words(first: string, second: string)

  function IdWords(s: Step): Words
  {
    match s
    case Configuration => Words("configuration", "")
    case DataCollection => Words("data", "collection")
    case DataPreprocessing => Words("data", "preprocessing")
    case ModelTraining => Words("model", "training")
    case ModelEvaluation => Words("model", "evaluation")
    case ResultsVisualization => Words("results", "visualization")
  }

  /** The step's id string. */
  function Id(s: Step): string
  {
    var w := IdWords(s);
    if |w.second| == 0 then w.first else w.first + "-" + w.second
  }

  /** The sidebar title of each step. */
  function Title(s: Step): string
  {
    match s
    case Configuration => "Parameter Configuration"
    case DataCollection => "Data Collection"
    case DataPreprocessing => "Data Preprocessing"
    case ModelTraining => "Model Training"
    case ModelEvaluation => "Model Evaluation"
    case ResultsVisualization => "Results & Visualization"
  }

  /** Distinct steps have distinct ids, so comparing id strings is comparing steps. */
  lemma IdInjective(s: Step, t: Step)
    requires Id(s) == Id(t)
    ensures s == t
  {
    assert |Id(Configuration)| == 13 && |Id(DataCollection)| == 15 && |Id(DataPreprocessing)| == 18;
    assert |Id(ModelTraining)| == 14 && |Id(ModelEvaluation)| == 16 && |Id(ResultsVisualization)| == 21;
  }

  /** The order `handleStepComplete` walks the steps in. */
  const StepOrder: seq<Step> := [
    Configuration, DataCollection, DataPreprocessing, ModelTraining, ModelEvaluation, ResultsVisualization
  ]

  /** The four stages that report completion back to the wizard, in the order they run. */
  const ReportingStages: seq<Step> := [DataCollection, DataPreprocessing, ModelTraining, ModelEvaluation]

  /** Every step occurs in the order exactly once. */
  lemma StepOrderDistinct()
    ensures forall i, j :: 0 <= i < j < |StepOrder| ==> StepOrder[i] != StepOrder[j]
    ensures forall s: Step :: s in StepOrder
  {
    forall s: Step ensures s in StepOrder {
      match s
      case Configuration => assert StepOrder[0] == s;
      case DataCollection => assert StepOrder[1] == s;
      case DataPreprocessing => assert StepOrder[2] == s;
      case ModelTraining => assert StepOrder[3] == s;
      case ModelEvaluation => assert StepOrder[4] == s;
      case ResultsVisualization => assert StepOrder[5] == s;
    }
  }

  datatype Status = Active | Completed | Pending

  /** A step's status in the sidebar: the current step is active even when it is also listed
      as completed. */
  function StatusOf(id: Step, currentStep: Step, completedSteps: seq<Step>): (st: Status)
    ensures st == Active <==> id == currentStep
    ensures st == Completed <==> id != currentStep && id in completedSteps
    ensures st == Pending <==> id != currentStep && id !in completedSteps
  {
    if currentStep == id then Active else if id in completedSteps then Completed else Pending
  }

  /** `xs.indexOf(x)`: the first position of `x`, or -1. */
  function IndexOf<T(==)>(xs: seq<T>, x: T): (i: int)
    ensures -1 <= i < |xs|
    ensures i == -1 <==> x !in xs
    ensures 0 <= i ==> xs[i] == x && x !in xs[..i]
    decreases |xs|
  {
    if |xs| == 0 then -1
    else if xs[0] == x then 0
    else
      var k := IndexOf(xs[1..], x);
      assert k >= 0 ==> xs[..k + 1] == [xs[0]] + xs[1..][..k];
      if k == -1 then -1 else k + 1
  }

  /** `stepOrder[stepOrder.indexOf(stepId) + 1]`, with None for `undefined`: the step after the
      given one, and none after the last. */
  function NextStep(s: Step): (r: Option<Step>)
    ensures s == Configuration ==> r == Some(DataCollection)
    ensures s == DataCollection ==> r == Some(DataPreprocessing)
    ensures s == DataPreprocessing ==> r == Some(ModelTraining)
    ensures s == ModelTraining ==> r == Some(ModelEvaluation)
    ensures s == ModelEvaluation ==> r == Some(ResultsVisualization)
    ensures s == ResultsVisualization ==> r == None
  {
    StepOrderDistinct();
    var i := IndexOf(StepOrder, s);
    if i + 1 < |StepOrder| then Some(StepOrder[i + 1]) else None
  }

  /** The key each step's data is stored under: its id without the dash. */
  function ResultKey(s: Step): string
  {
    IdWords(s).first + IdWords(s).second
  }

  /** The key is `stepId.replace('-', '')`, which drops only the first dash of the id, e.g.
      'model-training' is stored as 'modeltraining'. */
  lemma ResultKeyIsReplace(s: Step)
    ensures ResultKey(s) == WithoutFirst(Id(s), '-')
  {
    var a, b := IdWords(s).first, IdWords(s).second;
    assert '-' !in a by {
      assert forall i :: 0 <= i < |a| ==> a[i] != '-';
    }
    if b == "" {
      assert a + b == a;
    } else {
      WithoutFirstAt(a, b, '-');
    }
  }

  /** The length and first letter of each step's key, which tell the keys apart. */
  function KeyShape(s: Step): (int, char)
  {
    match s
    case Configuration => (13, 'c')
    case DataCollection => (14, 'd')
    case DataPreprocessing => (17, 'd')
    case ModelTraining => (13, 'm')
    case ModelEvaluation => (15, 'm')
    case ResultsVisualization => (20, 'r')
  }

  lemma KeyHasShape(s: Step)
    ensures |ResultKey(s)| == KeyShape(s).0 && ResultKey(s)[0] == KeyShape(s).1
  {
  }

  /** Different steps store under different keys, so no stage overwrites another's data. */
  lemma ResultKeyInjective(s: Step, t: Step)
    requires s != t
    ensures ResultKey(s) != ResultKey(t)
  {
    KeyHasShape(s);
    KeyHasShape(t);
  }

  /** The wizard's state: the five pieces of component state. `D` is the type of the data a
      stage hands back on completion. */
  datatype Wizard<D> = Wizard(
    currentStep: Step,
    completedSteps: seq<Step>,
    analysisParameters: Option<Record>,
    analysisResults: map<string, D>,
    isAnalysisRunning: bool)

  /** The state on first render, and after `resetAnalysis`. */
  function Initial<D>(): Wizard<D>
  {
    Wizard(Configuration, [], None, map[], false)
  }

  /** `handleStartAnalysis`: store the parameters, mark configuration done, move to data
      collection. Results of an earlier run are not cleared. */
  function Started<D>(w: Wizard<D>, params: Record): Wizard<D>
  {
    w.(analysisParameters := Some(params), isAnalysisRunning := true,
       currentStep := DataCollection, completedSteps := [Configuration])
  }

  /** `handleStepComplete`: store the data under the step's key, append the step to the
      completed list, then move on. The one-second delay before the step change is not
      modelled. */
  function StepCompleted<D>(w: Wizard<D>, s: Step, data: D): Wizard<D>
  {
    MoveOn(w.(analysisResults := w.analysisResults[ResultKey(s) := data],
              completedSteps := w.completedSteps + [s]), s)
  }

  /** The step change at the end of `handleStepComplete`: go to the next step, or stop
      running when there is none. It touches only the current step and the running flag. */
  function MoveOn<D>(w: Wizard<D>, s: Step): (w': Wizard<D>)
    ensures w'.analysisResults == w.analysisResults && w'.completedSteps == w.completedSteps
    ensures w'.analysisParameters == w.analysisParameters
  {
    match NextStep(s)
    case Some(next) => w.(currentStep := next)
    case None => w.(isAnalysisRunning := false)
  }

  /** The step change as the handler computes it, through the position of the step in the
      order. */
  lemma MoveOnByIndex<D>(w: Wizard<D>, s: Step)
    ensures var i := IndexOf(StepOrder, s);
      MoveOn(w, s) == if i + 1 < |StepOrder| then w.(currentStep := StepOrder[i + 1]) else w.(isAnalysisRunning := false)
  {
    var i := IndexOf(StepOrder, s);
    if i + 1 >= |StepOrder| {
      StepOrderDistinct();
      assert NextStep(s) == None;
    }
  }

  /** The results panel is shown once some stage has stored data. */
  predicate ShowsResultsStorage<D>(w: Wizard<D>)
  {
    |w.analysisResults.Keys| > 0
  }

  /** The reset button is disabled while an analysis runs. */
  predicate ResetDisabled<D>(w: Wizard<D>)
  {
    w.isAnalysisRunning
  }

  /** Only the current step is active in the sidebar. */
  lemma OneActive<D>(w: Wizard<D>)
    ensures forall s :: StatusOf(s, w.currentStep, w.completedSteps) == Active <==> s == w.currentStep
    ensures |set i | 0 <= i < |StepOrder| && StatusOf(StepOrder[i], w.currentStep, w.completedSteps) == Active| == 1
  {
    StepOrderDistinct();
    var k := IndexOf(StepOrder, w.currentStep);
    var active := set i | 0 <= i < |StepOrder| && StatusOf(StepOrder[i], w.currentStep, w.completedSteps) == Active;
    assert active == {k};
  }

  /** Completing a step stores its data under the step's key, keeps every other stored result,
      and shows the results panel from then on. */
  lemma StepCompletedStores<D>(w: Wizard<D>, s: Step, data: D)
    ensures var w' := StepCompleted(w, s, data);
      && ResultKey(s) in w'.analysisResults && w'.analysisResults[ResultKey(s)] == data
      && (forall k :: k in w.analysisResults && k != ResultKey(s) ==>
            k in w'.analysisResults && w'.analysisResults[k] == w.analysisResults[k])
      && w'.analysisResults.Keys == w.analysisResults.Keys + {ResultKey(s)}
      && w'.completedSteps == w.completedSteps + [s]
      && ShowsResultsStorage(w')
  {
    var w' := StepCompleted(w, s, data);
    assert ResultKey(s) in w'.analysisResults.Keys;
  }

  /** Completing the step at position `i` moves the wizard to position `i + 1` and leaves the
      running flag alone; completing the last step stops the analysis and keeps the step. */
  lemma StepCompletedAdvances<D>(w: Wizard<D>, i: nat, data: D)
    requires i < |StepOrder|
    ensures var w' := StepCompleted(w, StepOrder[i], data);
      && (i + 1 < |StepOrder| ==> w'.currentStep == StepOrder[i + 1] && w'.isAnalysisRunning == w.isAnalysisRunning)
      && (i + 1 == |StepOrder| ==> w'.currentStep == w.currentStep && !w'.isAnalysisRunning)
  {
  }

  /** Completing the stages `ids` one after the other. */
  ghost function CompleteAll<D>(w: Wizard<D>, ids: seq<Step>, data: seq<D>): Wizard<D>
    requires |ids| == |data|
    decreases |ids|
  {
    if ids == [] then w else CompleteAll(StepCompleted(w, ids[0], data[0]), ids[1..], data[1..])
  }

  /** The state of a run in which the first `k` reporting stages have completed with `all[..k]`. */
  ghost predicate AfterStages<D>(w: Wizard<D>, params: Record, all: seq<D>, k: nat)
    requires k <= |ReportingStages| == |all|
  {
    StepsAfter(w, params, k) && StoredAfter(w, all, k)
  }

  /** The step bookkeeping after `k` reporting stages. */
  ghost predicate StepsAfter<D>(w: Wizard<D>, params: Record, k: nat)
    requires k <= |ReportingStages|
  {
    && w.currentStep == StepOrder[k + 1]
    && w.completedSteps == StepOrder[..k + 1]
    && w.analysisParameters == Some(params)
    && w.isAnalysisRunning
  }

  /** The stored results after `k` reporting stages: their data under their keys, nothing else. */
  ghost predicate StoredAfter<D>(w: Wizard<D>, all: seq<D>, k: nat)
    requires k <= |ReportingStages| == |all|
  {
    HoldsFirst(w.analysisResults, StageKeys, all, k)
  }

  lemma StepsUpdate<D>(w: Wizard<D>, w': Wizard<D>, params: Record, k: nat)
    requires k < |ReportingStages|
    requires StepsAfter(w, params, k)
    requires w'.currentStep == StepOrder[k + 2] && w'.isAnalysisRunning
    requires w'.completedSteps == w.completedSteps + [StepOrder[k + 1]]
    requires w'.analysisParameters == w.analysisParameters
    ensures StepsAfter(w', params, k + 1)
  {
    assert StepOrder[..k + 1] + [StepOrder[k + 1]] == StepOrder[..k + 2];
  }

  lemma StageSteps<D>(w: Wizard<D>, params: Record, data: D, k: nat)
    requires k < |ReportingStages|
    requires StepsAfter(w, params, k)
    ensures StepsAfter(StepCompleted(w, ReportingStages[k], data), params, k + 1)
  {
    assert ReportingStages[k] == StepOrder[k + 1];
    var w' := StepCompleted(w, StepOrder[k + 1], data);
    assert w'.currentStep == StepOrder[k + 2] && w'.isAnalysisRunning by {
      StepCompletedAdvances(w, k + 1, data);
    }
    StepsUpdate(w, w', params, k);
  }

  /** The key as the handler computes it: `stepId.replace('-', '')`. */
  method StoreKey(s: Step) returns (key: string)
    ensures key == ResultKey(s)
  {
    key := Replace(Id(s), '-');
    ResultKeyIsReplace(s);
  }

  /** The keys of the reporting stages, in stage order. */
  const StageKeys: seq<string> := [
    ResultKey(DataCollection), ResultKey(DataPreprocessing), ResultKey(ModelTraining), ResultKey(ModelEvaluation)
  ]

  lemma StageKeysOfStages()
    ensures |StageKeys| == |ReportingStages|
    ensures forall i :: 0 <= i < |StageKeys| ==> StageKeys[i] == ResultKey(ReportingStages[i])
    ensures forall i, j :: 0 <= i < j < |StageKeys| ==> StageKeys[i] != StageKeys[j]
  {
    forall i, j | 0 <= i < j < |StageKeys| ensures StageKeys[i] != StageKeys[j] {
      ResultKeyInjective(ReportingStages[i], ReportingStages[j]);
    }
  }

  /** The literal keys, as the results panel reads them. */
  lemma StageKeysAre()
    ensures StageKeys == ["datacollection", "datapreprocessing", "modeltraining", "modelevaluation"]
  {
    assert ResultKey(DataCollection) == "datacollection";
    assert ResultKey(DataPreprocessing) == "datapreprocessing";
    assert ResultKey(ModelTraining) == "modeltraining";
    assert ResultKey(ModelEvaluation) == "modelevaluation";
  }

  /** `m` holds `vs[i]` under `ks[i]` for the first `k` pairs, and nothing else. */
  ghost predicate HoldsFirst<K, V>(m: map<K, V>, ks: seq<K>, vs: seq<V>, k: nat)
    requires k <= |ks| == |vs|
  {
    && (forall i :: 0 <= i < k ==> ks[i] in m && m[ks[i]] == vs[i])
    && m.Keys == set i | 0 <= i < k :: ks[i]
  }

  lemma HoldsExtend<K, V>(m: map<K, V>, ks: seq<K>, vs: seq<V>, k: nat)
    requires k < |ks| == |vs|
    requires forall i, j :: 0 <= i < j < |ks| ==> ks[i] != ks[j]
    requires HoldsFirst(m, ks, vs, k)
    ensures HoldsFirst(m[ks[k] := vs[k]], ks, vs, k + 1)
  {
    var m' := m[ks[k] := vs[k]];
    assert m'.Keys == m.Keys + {ks[k]};
    assert (set i | 0 <= i < k + 1 :: ks[i]) == (set i | 0 <= i < k :: ks[i]) + {ks[k]};
  }

  lemma StageStored<D>(w: Wizard<D>, all: seq<D>, k: nat)
    requires k < |ReportingStages| == |all|
    requires StoredAfter(w, all, k)
    ensures StoredAfter(StepCompleted(w, ReportingStages[k], all[k]), all, k + 1)
  {
    StageKeysOfStages();
    var w' := StepCompleted(w, ReportingStages[k], all[k]);
    assert w'.analysisResults == w.analysisResults[StageKeys[k] := all[k]];
    HoldsExtend(w.analysisResults, StageKeys, all, k);
  }

  /** One more reporting stage completes. */
  lemma StageStep<D>(w: Wizard<D>, params: Record, all: seq<D>, k: nat)
    requires k < |ReportingStages| == |all|
    requires AfterStages(w, params, all, k)
    ensures AfterStages(StepCompleted(w, ReportingStages[k], all[k]), params, all, k + 1)
  {
    StageSteps(w, params, all[k], k);
    StageStored(w, all, k);
  }

  lemma {:induction false} RunFrom<D>(w: Wizard<D>, params: Record, all: seq<D>, k: nat)
    requires k <= |ReportingStages| == |all|
    requires AfterStages(w, params, all, k)
    ensures AfterStages(CompleteAll(w, ReportingStages[k..], all[k..]), params, all, |ReportingStages|)
    decreases |ReportingStages| - k
  {
    if k < |ReportingStages| {
      StageStep(w, params, all, k);
      RunFrom(StepCompleted(w, ReportingStages[k], all[k]), params, all, k + 1);
      assert ReportingStages[k..][1..] == ReportingStages[k + 1..];
      assert all[k..][1..] == all[k + 1..];
    }
  }

  lemma AllStagesDone<D>(w: Wizard<D>, params: Record, all: seq<D>)
    requires |all| == |ReportingStages|
    requires AfterStages(w, params, all, 4)
    ensures w.currentStep == ResultsVisualization
    ensures w.completedSteps == StepOrder[..5]
    ensures forall i :: 0 <= i < |StageKeys| ==> StageKeys[i] in w.analysisResults && w.analysisResults[StageKeys[i]] == all[i]
    ensures w.analysisResults.Keys == set i | 0 <= i < |StageKeys| :: StageKeys[i]
    ensures w.isAnalysisRunning
  {
  }

  /** A full run: starting and completing the four reporting stages in order leaves the wizard
      on the results step, with every stage's data under its key and nothing else stored, and
      the analysis still marked as running, because that step never reports completion; the
      reset button therefore stays disabled. */
  lemma FullRun<D>(params: Record, all: seq<D>)
    requires |all| == |ReportingStages|
    ensures var w := CompleteAll(Started(Initial<D>(), params), ReportingStages, all);
      && w.currentStep == ResultsVisualization
      && w.completedSteps == StepOrder[..5]
      && (forall i :: 0 <= i < |StageKeys| ==> StageKeys[i] in w.analysisResults && w.analysisResults[StageKeys[i]] == all[i])
      && w.analysisResults.Keys == (set i | 0 <= i < |StageKeys| :: StageKeys[i])
      && w.isAnalysisRunning && ResetDisabled(w)
  {
    var w0 := Started(Initial<D>(), params);
    assert StepsAfter(w0, params, 0) by {
      assert w0.completedSteps == StepOrder[..1];
    }
    assert StoredAfter(w0, all, 0);
    RunFrom(w0, params, all, 0);
    assert ReportingStages[0..] == ReportingStages && all[0..] == all;
    AllStagesDone(CompleteAll(w0, ReportingStages, all), params, all);
  }

  /** The wizard as the top-level component holds it, updated in place by its handlers. */
  class AnalysisWizard<D> {
    var currentStep: Step
    var completedSteps: seq<Step>
    var analysisParameters: Option<Record>
    var analysisResults: map<string, D>
    var isAnalysisRunning: bool

    function Snapshot(): Wizard<D>
      reads this
    {
      Wizard(currentStep, completedSteps, analysisParameters, analysisResults, isAnalysisRunning)
    }

    constructor ()
      ensures Snapshot() == Initial()
    {
      currentStep := Configuration;
      completedSteps := [];
      analysisParameters := None;
      analysisResults := map[];
      isAnalysisRunning := false;
    }

    method StartAnalysis(params: Record)
      modifies this
      ensures Snapshot() == Started(old(Snapshot()), params)
    {
      analysisParameters := Some(params);
      isAnalysisRunning := true;
      currentStep := DataCollection;
      completedSteps := [Configuration];
    }

    method StepComplete(s: Step, data: D)
      modifies this
      ensures Snapshot() == StepCompleted(old(Snapshot()), s, data)
    {
      Store(s, data);
      Advance(s);
    }

    /** The first half of `handleStepComplete`: the data goes under the step's key and the
        step joins the completed list. */
    method Store(s: Step, data: D)
      modifies this
      ensures Snapshot() == old(Snapshot()).(analysisResults := old(analysisResults)[ResultKey(s) := data],
                                             completedSteps := old(completedSteps) + [s])
    {
      var key := StoreKey(s);
      analysisResults := analysisResults[key := data];
      completedSteps := completedSteps + [s];
    }

    /** The second half: the step after `s` becomes current, or the run stops after the last. */
    method Advance(s: Step)
      modifies this
      ensures Snapshot() == MoveOn(old(Snapshot()), s)
    {
      MoveOnByIndex(Snapshot(), s);
      var currentIndex := IndexOf(StepOrder, s);
      if currentIndex + 1 < |StepOrder| {
        currentStep := StepOrder[currentIndex + 1];
      } else {
        isAnalysisRunning := false;
      }
    }

    method Reset()
      modifies this
      ensures Snapshot() == Initial()
    {
      currentStep := Configuration;
      completedSteps := [];
      analysisResults := map[];
      analysisParameters := None;
      isAnalysisRunning := false;
    }
  }
}
