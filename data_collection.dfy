/** The data-collection stage: a ticker that logs one task per tick over six slots of width
    17, and on completion the summary of the collected data, one record per selected
    cryptocurrency. */
module DataCollection {
  import opened Values
  import opened Text
  import opened Ticker
  import opened Parameters

  const Tasks: seq<string> := [
    "Connecting to CoinGecko API...",
    "Fetching Bitcoin historical data...",
    "Fetching Ethereum historical data...",
    "Fetching Solana historical data...",
    "Validating data integrity...",
    "Saving data to local storage..."
  ]

  const DoneMessage: string := "Data collection completed!"

  /** One point per tick, a slot every 17 points, and the whole log kept. */
  function TickerConfig(): (c: Config)
    ensures ValidConfig(c) && |c.tasks| == 6 && c.step == 1.0 && c.keep.None?
  {
    Config(1.0, 17.0, Tasks, Tasks, None, DoneMessage)
  }

  /** Every tick of a running collection falls in a task's slot, so it logs exactly one line
      and drops none. */
  lemma EveryTickLogs(st: State, time: string)
    requires Inv(TickerConfig(), st) && st.running
    ensures var i := TaskIndex(TickerConfig(), st.progress + 1.0);
      && 0 <= i < 6
      && Ticked(TickerConfig(), st, time).logs == st.logs + [LogLine(time, Tasks[i])]
  {
    var p := st.progress + 1.0;
    assert 0.0 <= p / 17.0 < 6.0;
    TickLogs(TickerConfig(), st, time);
  }

  /** While the run lasts, the log has one line per tick. */
  lemma {:induction false} LogsOnePerTick(st: State, times: seq<string>)
    requires Inv(TickerConfig(), st) && st.running
    requires st.progress + |times| as real <= 100.0
    ensures |Run(TickerConfig(), st, times).logs| == |st.logs| + |times|
    decreases |times|
  {
    var c := TickerConfig();
    if times != [] {
      var st' := Ticked(c, st, times[0]);
      EveryTickLogs(st, times[0]);
      TickInv(c, st, times[0]);
      TickCompletes(c, st, times[0]);
      if |times| > 1 {
        LogsOnePerTick(st', times[1..]);
      } else {
        assert Run(c, st, times) == Run(c, st', []);
      }
    }
  }

  /** Started by its activation, the collection runs for 99 ticks and completes on the
      100th, with one log line per tick; later readings of the clock change nothing. */
  lemma CompletesOnTick100(times: seq<string>)
    requires |times| >= 100
    ensures var c := TickerConfig(); var start := Effect(Idle(), true);
      && Run(c, start, times[..99]).running
      && Run(c, start, times[..100]).isCompleted
      && Run(c, start, times[..100]).progress == 100.0
      && |Run(c, start, times[..100]).logs| == 100
      && Run(c, start, times) == Run(c, start, times[..100])
  {
    var c := TickerConfig();
    var start := Effect(Idle(), true);
    RunBelow(c, start, times[..99]);
    RunCompletes(c, start, times[..100]);
    LogsOnePerTick(start, times[..100]);
    RunAfterCompletion(c, start, times[..100], times[100..]);
    assert times[..100] + times[100..] == times;
  }

  /** One collected dataset as the summary lists it. */
  datatype Sample = Sample(
    coin: string,
    symbol: string,
    records: int,
    startDate: Option<Value>,
    endDate: Option<Value>,
    variables: seq<string>,
    missingValues: int,
    dataQuality: string)

  /** The ticker symbol of a coin id: only Bitcoin and Ethereum are told apart, every other id
      is shown as Solana's. */
  function Symbol(crypto: string): (r: string)
    ensures r == "BTC" || r == "ETH" || r == "SOL"
    ensures r == "BTC" <==> crypto == "bitcoin"
    ensures r == "ETH" <==> crypto == "ethereum"
  {
    if crypto == "bitcoin" then "BTC" else if crypto == "ethereum" then "ETH" else "SOL"
  }

  /** `Math.floor(r * 10) + 1` for a draw `r` in [0, 1). */
  function MissingCount(r: real): (n: int)
    requires 0.0 <= r < 1.0
    ensures 1 <= n <= 10
  {
    (r * 10.0).Floor + 1
  }

  /** The crypto list of the parameters, when there is one. */
  function CryptoIds(p: Option<Record>): (ids: Option<seq<string>>)
    requires p.Some? ==> Typed(p.value)
    ensures ids.Some? <==> p.Some? && Cryptocurrencies in p.value
  {
    var v := Member(p, Cryptocurrencies);
    if v.Some? then Some(v.value.items) else None
  }

  const DefaultVariables: seq<string> := ["price", "volume", "market_cap"]

  predicate Draws(p: Option<Record>, draws: seq<real>)
    requires p.Some? ==> Typed(p.value)
  {
    && (CryptoIds(p).Some? ==> |draws| == |CryptoIds(p).value|)
    && forall i :: 0 <= i < |draws| ==> 0.0 <= draws[i] < 1.0
  }

  /** `generateSampleData`: the day count between the dates and one draw per coin are inputs. */
  function SampleData(p: Option<Record>, daysDiff: int, draws: seq<real>): (r: seq<Sample>)
    requires p.Some? ==> Typed(p.value)
    requires Draws(p, draws)
    ensures CryptoIds(p).None? ==> r == []
    ensures CryptoIds(p).Some? ==> |r| == |CryptoIds(p).value|
    ensures CryptoIds(p).Some? ==> forall i :: 0 <= i < |r| ==>
      var crypto := CryptoIds(p).value[i];
      && r[i].coin == Capitalize(crypto)
      && r[i].symbol == Symbol(crypto)
      && r[i].records == daysDiff
      && 1 <= r[i].missingValues <= 10
      && r[i].variables == ListOr(Member(p, Variables), DefaultVariables)
      && r[i].startDate == Member(p, StartDate) && r[i].endDate == Member(p, EndDate)
  {
    match CryptoIds(p)
    case None => []
    case Some(ids) =>
      var variables := ListOr(Member(p, Variables), DefaultVariables);
      seq(|ids|, i requires 0 <= i < |ids| =>
        Sample(Capitalize(ids[i]), Symbol(ids[i]), daysDiff, Member(p, StartDate), Member(p, EndDate),
               variables, MissingCount(draws[i]), "Good"))
  }

  /** The stage component: its ticker and the data it collected. */
  class Collector {
    const ticker: ProgressTicker
    const parameters: Option<Record>
    var data: seq<Sample>

    constructor (parameters: Option<Record>)
      ensures fresh(ticker) && ticker.config == TickerConfig() && ticker.Snapshot() == Idle()
      ensures this.parameters == parameters && data == []
    {
      ticker := new ProgressTicker(TickerConfig());
      this.parameters := parameters;
      data := [];
    }

    /** The effect on a change of `isActive`. */
    method Activate(isActive: bool)
      modifies ticker
      ensures ticker.Snapshot() == Effect(old(ticker.Snapshot()), isActive)
    {
      ticker.Activate(isActive);
    }

    /** One tick; on the completing tick the sample data is built, kept and handed to the
        wizard. */
    method Tick(time: string, daysDiff: int, draws: seq<real>) returns (handed: Option<seq<Sample>>)
      requires ticker.running && ticker.config == TickerConfig()
      requires parameters.Some? ==> Typed(parameters.value)
      requires Draws(parameters, draws)
      modifies this, ticker
      ensures ticker.Snapshot() == Ticked(TickerConfig(), old(ticker.Snapshot()), time)
      ensures handed.Some? <==> old(ticker.progress) + 1.0 >= 100.0
      ensures handed.Some? ==> handed.value == SampleData(parameters, daysDiff, draws) && data == handed.value
      ensures handed.None? ==> data == old(data)
    {
      var completedNow := ticker.Tick(time);
      if completedNow {
        data := SampleData(parameters, daysDiff, draws);
        handed := Some(data);
      } else {
        handed := None;
      }
    }
  }
}
