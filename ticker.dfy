/** The progress ticker every pipeline stage runs while it is the active step: each interval
    tick adds a fixed step to the progress, shows and logs the job whose slot the new progress
    falls in, and on the tick that reaches 100 shows the closing message, marks the stage
    completed and clears the interval. */
module Ticker {
  import opened Values

  /** What distinguishes the stages' tickers: the progress step per tick, the width of a task's
      slot (`Math.floor(progress / divisor)` picks the job), the job texts that are logged,
      the text shown for each slot (the job itself, or during training the model's name), how
      many old log lines a tick keeps (`slice(-k)`; `None` keeps them all) and the closing
      message. */
  datatype Config = Config(step: real, divisor: real, tasks: seq<string>, labels: seq<string>, keep: Option<nat>, doneMessage: string)

  /** A slot has both a task and a label, and the slots have a positive width. */
  predicate Shaped(c: Config)
  {
    c.divisor > 0.0 && |c.labels| == |c.tasks|
  }

  predicate ValidConfig(c: Config)
  {
    Shaped(c) && c.step > 0.0 && (c.keep.Some? ==> c.keep.value > 0)
  }

  /** The stage component's state; `running` says whether its interval is set. */
  datatype State = State(progress: real, currentTask: string, logs: seq<string>, isCompleted: bool, running: bool)

  /** The state on first render. */
  function Idle(): State
  {
    State(0.0, "", [], false, false)
  }

  /** React's re-run of the stage's effect: the previous interval is cleared; then, if the
      stage is active and not yet completed, progress, logs and task are reset and a new
      interval is set. */
  function Effect(st: State, isActive: bool): State
  {
    if !isActive || st.isCompleted then st.(running := false)
    else State(0.0, "", [], false, true)
  }

  function Min(a: real, b: real): real
  {
    if a <= b then a else b
  }

  /** The job slot of a progress value. */
  function TaskIndex(c: Config, p: real): int
    requires c.divisor > 0.0
  {
    (p / c.divisor).Floor
  }

  /** `logs.slice(-k)`: the last `k` lines, or all of them when there are fewer. */
  function Kept(keep: Option<nat>, logs: seq<string>): (r: seq<string>)
    ensures keep.None? ==> r == logs
    ensures |r| <= |logs| && r == logs[|logs| - |r|..]
    ensures keep.Some? ==> |r| == if |logs| <= keep.value then |logs| else keep.value
  {
    match keep
    case None => logs
    case Some(k) => if |logs| <= k then logs else logs[|logs| - k..]
  }

  /** The line logged for a task; the clock reading is an input. */
  function LogLine(time: string, task: string): string
  {
    time + ": " + task
  }

  /** One tick of the interval. */
  function Ticked(c: Config, st: State, time: string): State
    requires Shaped(c)
  {
    var p := st.progress + c.step;
    var i := TaskIndex(c, p);
    var shown := if 0 <= i < |c.tasks| then st.(currentTask := c.labels[i], logs := Kept(c.keep, st.logs) + [LogLine(time, c.tasks[i])])
                 else st;
    var ended := if p >= 100.0 then shown.(currentTask := c.doneMessage, isCompleted := true, running := false)
                 else shown;
    ended.(progress := Min(p, 100.0))
  }

  /** The ticks the interval delivers, one per clock reading, until it is cleared. */
  function Run(c: Config, st: State, times: seq<string>): State
    requires Shaped(c)
    decreases |times|
  {
    if times == [] || !st.running then st else Run(c, Ticked(c, st, times[0]), times[1..])
  }

  /** What holds of a stage at all times: progress lies in [0, 100]; a running stage has not
      completed and is below 100; a completed stage stands at 100 with its interval cleared;
      and a bounded log holds at most one more line than it keeps. */
  predicate Inv(c: Config, st: State)
  {
    && 0.0 <= st.progress <= 100.0
    && (st.running ==> !st.isCompleted && st.progress < 100.0)
    && (st.isCompleted ==> st.progress == 100.0 && !st.running)
    && (c.keep.Some? ==> |st.logs| <= c.keep.value + 1)
  }

  lemma IdleInv(c: Config)
    ensures Inv(c, Idle())
  {
  }

  lemma EffectInv(c: Config, st: State, isActive: bool)
    requires Inv(c, st)
    ensures Inv(c, Effect(st, isActive))
  {
  }

  /** A tick keeps the invariant. */
  lemma TickInv(c: Config, st: State, time: string)
    requires ValidConfig(c) && Inv(c, st) && st.running
    ensures Inv(c, Ticked(c, st, time))
  {
    var p := st.progress + c.step;
    var i := TaskIndex(c, p);
    if c.keep.Some? && 0 <= i < |c.tasks| {
      assert |Kept(c.keep, st.logs)| <= c.keep.value;
    }
  }

  /** A tick completes the stage exactly when it brings the progress to 100 or beyond; then
      the progress is 100, the closing message shows and the interval is cleared. Otherwise
      the progress grows by exactly one step. */
  lemma TickCompletes(c: Config, st: State, time: string)
    requires ValidConfig(c) && Inv(c, st) && st.running
    ensures var st' := Ticked(c, st, time);
      && (st'.isCompleted <==> st.progress + c.step >= 100.0)
      && (st'.isCompleted ==> st'.progress == 100.0 && !st'.running && st'.currentTask == c.doneMessage)
      && (!st'.isCompleted ==> st'.progress == st.progress + c.step && st'.running)
  {
  }

  /** A tick logs a line exactly when the new progress falls in a task's slot, and the line
      names that task; the kept older lines come first. Below 100 the slot's label is shown. */
  lemma TickLogs(c: Config, st: State, time: string)
    requires ValidConfig(c)
    ensures var st' := Ticked(c, st, time); var i := TaskIndex(c, st.progress + c.step);
      && (0 <= i < |c.tasks| ==> st'.logs == Kept(c.keep, st.logs) + [LogLine(time, c.tasks[i])])
      && (0 <= i < |c.tasks| && st.progress + c.step < 100.0 ==> st'.currentTask == c.labels[i])
      && (!(0 <= i < |c.tasks|) ==> st'.logs == st.logs)
  {
  }

  /** Once completed, a stage's effect is a no-op: it is never restarted and its progress,
      logs and task stay as they are. */
  lemma CompletedStaysCompleted(c: Config, st: State, isActive: bool)
    requires st.isCompleted
    ensures Effect(st, isActive) == st.(running := false)
  {
  }

  /** Activating a stage that has not completed starts it from scratch. */
  lemma ActivationStarts(st: State)
    requires !st.isCompleted
    ensures Effect(st, true) == State(0.0, "", [], false, true)
  {
  }

  /** From a running state at progress `x`, ticks that stay below 100 add one step each and
      keep the interval running. */
  lemma {:induction false} RunBelow(c: Config, st: State, times: seq<string>)
    requires ValidConfig(c) && Inv(c, st) && st.running
    requires st.progress + (|times| as real) * c.step < 100.0
    ensures Run(c, st, times).progress == st.progress + (|times| as real) * c.step
    ensures Run(c, st, times).running && !Run(c, st, times).isCompleted
    decreases |times|
  {
    if times != [] {
      var st' := Ticked(c, st, times[0]);
      TickInv(c, st, times[0]);
      TickCompletes(c, st, times[0]);
      StepShift(st.progress, c.step, |times[1..]|);
      StepsNonNegative(c.step, |times[1..]|);
      RunBelow(c, st', times[1..]);
    }
  }

  lemma StepShift(x: real, step: real, n: nat)
    ensures x + ((n + 1) as real) * step == (x + step) + (n as real) * step
  {
  }

  lemma StepsNonNegative(step: real, n: nat)
    requires step > 0.0
    ensures (n as real) * step >= 0.0
  {
  }

  /** The run completes on the first tick that reaches 100: when `n - 1` steps stay below 100
      and `n` reach it, `n` ticks leave the stage completed at 100 with its interval cleared. */
  lemma {:induction false} RunCompletes(c: Config, st: State, times: seq<string>)
    requires ValidConfig(c) && Inv(c, st) && st.running
    requires |times| > 0
    requires st.progress + ((|times| - 1) as real) * c.step < 100.0 <= st.progress + (|times| as real) * c.step
    ensures Run(c, st, times).isCompleted && Run(c, st, times).progress == 100.0
    ensures !Run(c, st, times).running
    decreases |times|
  {
    var st' := Ticked(c, st, times[0]);
    TickInv(c, st, times[0]);
    TickCompletes(c, st, times[0]);
    if |times| == 1 {
      assert Run(c, st, times) == Run(c, st', []);
    } else {
      var n := |times[1..]|;
      StepShift(st.progress, c.step, n);
      StepShift(st.progress, c.step, n - 1);
      StepsNonNegative(c.step, n - 1);
      RunCompletes(c, st', times[1..]);
    }
  }

  /** Ticks delivered in two batches have the effect of one run over both. */
  lemma {:induction false} RunConcat(c: Config, st: State, a: seq<string>, b: seq<string>)
    requires Shaped(c)
    ensures Run(c, st, a + b) == Run(c, Run(c, st, a), b)
    decreases |a|
  {
    if a != [] && st.running {
      assert (a + b)[1..] == a[1..] + b;
      RunConcat(c, Ticked(c, st, a[0]), a[1..], b);
    } else if a == [] {
      assert a + b == b;
    }
  }

  /** Once the interval is cleared, later clock readings change nothing. */
  lemma RunAfterCompletion(c: Config, st: State, a: seq<string>, b: seq<string>)
    requires Shaped(c) && !Run(c, st, a).running
    ensures Run(c, st, a + b) == Run(c, st, a)
  {
    RunConcat(c, st, a, b);
    RunStopped(c, Run(c, st, a), b);
  }

  lemma RunStopped(c: Config, st: State, times: seq<string>)
    requires Shaped(c) && !st.running
    ensures Run(c, st, times) == st
  {
  }

  lemma {:induction false} RunInvPreserved(c: Config, st: State, times: seq<string>)
    requires ValidConfig(c) && Inv(c, st)
    ensures Inv(c, Run(c, st, times))
    decreases |times|
  {
    if times != [] && st.running {
      TickInv(c, st, times[0]);
      RunInvPreserved(c, Ticked(c, st, times[0]), times[1..]);
    }
  }

  /** The stage component as it holds its ticker state, updated in place by its effect and
      its interval. */
  class ProgressTicker {
    const config: Config
    var progress: real
    var currentTask: string
    var logs: seq<string>
    var isCompleted: bool
    var running: bool

    function Snapshot(): State
      reads this
    {
      State(progress, currentTask, logs, isCompleted, running)
    }

    constructor (c: Config)
      ensures config == c && Snapshot() == Idle()
    {
      config := c;
      progress := 0.0;
      currentTask := "";
      logs := [];
      isCompleted := false;
      running := false;
    }

    /** The effect, re-run when `isActive` changes. */
    method Activate(isActive: bool)
      modifies this
      ensures Snapshot() == Effect(old(Snapshot()), isActive)
    {
      running := false;
      if !isActive || isCompleted {
        return;
      }
      progress := 0.0;
      logs := [];
      currentTask := "";
      running := true;
    }

    /** One interval callback; it returns whether this tick completes the stage, which is when
        the stage hands its result to the wizard. */
    method Tick(time: string) returns (completedNow: bool)
      requires running && Shaped(config)
      modifies this
      ensures Snapshot() == Ticked(config, old(Snapshot()), time)
      ensures completedNow <==> old(progress) + config.step >= 100.0
    {
      var newProgress := progress + config.step;
      var taskIndex := (newProgress / config.divisor).Floor;
      if 0 <= taskIndex < |config.tasks| {
        currentTask := config.labels[taskIndex];
        logs := Kept(config.keep, logs) + [LogLine(time, config.tasks[taskIndex])];
      }
      completedNow := newProgress >= 100.0;
      if completedNow {
        currentTask := config.doneMessage;
        isCompleted := true;
        running := false;
      }
      progress := Min(newProgress, 100.0);
    }
  }
}
