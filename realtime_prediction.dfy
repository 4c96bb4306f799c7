/** The real-time prediction panel: a simulated price and three model forecasts per listed coin,
    the model with the highest confidence, and the signed, coloured display of a change. */
module RealTimePrediction {
  import opened Values

  /** A coin the panel lists. */
  datatype Listing = Listing(symbol: string, name: string, basePrice: real)

  const Listings: seq<Listing> := [
    Listing("BTC", "Bitcoin", 45000.0),
    Listing("ETH", "Ethereum", 2300.0),
    Listing("SOL", "Solana", 85.0)
  ]

  /** The volatility of a symbol: Bitcoin's and Ethereum's are set, every other symbol gets the
      highest. */
  function VolatilityOf(symbol: string): (v: real)
    ensures symbol == "BTC" ==> v == 0.03
    ensures symbol != "BTC" && symbol == "ETH" ==> v == 0.04
    ensures symbol != "BTC" && symbol != "ETH" ==> v == 0.06
  {
    if symbol == "BTC" then 0.03 else if symbol == "ETH" then 0.04 else 0.06
  }

  /** One model's forecast. */
  datatype Forecast = Forecast(price: real, confidence: real, change: real)

  /** The three forecasts; DeepAR's comes with an uncertainty. */
  datatype Forecasts = Forecasts(tft: Forecast, nbeats: Forecast, deepar: Forecast, uncertainty: real)

  datatype CryptoPrediction = CryptoPrediction(symbol: string, name: string, currentPrice: real, predictions: Forecasts, lastUpdated: string)

  /** The three draws of `Math.random()` behind one forecast: price, confidence and change. */
  datatype ForecastDraws = ForecastDraws(price: real, confidence: real, change: real)

  /** The draws behind one coin's prediction. */
  datatype PredictionDraws = PredictionDraws(current: real, tft: ForecastDraws, nbeats: ForecastDraws, deepar: ForecastDraws, uncertainty: real)

  predicate Unit(r: real)
  {
    0.0 <= r < 1.0
  }

  predicate UnitForecast(d: ForecastDraws)
  {
    Unit(d.price) && Unit(d.confidence) && Unit(d.change)
  }

  predicate UnitDraws(d: PredictionDraws)
  {
    Unit(d.current) && UnitForecast(d.tft) && UnitForecast(d.nbeats) && UnitForecast(d.deepar) && Unit(d.uncertainty)
  }

  /** Where each model's confidence band starts; each band is 0.1 wide. */
  function ConfidenceBase(m: Forecaster): real
  {
    match m
    case TFT => 0.85
    case NBEATS => 0.80
    case DeepAR => 0.75
  }

  function ForecastOf(current: real, vol: real, m: Forecaster, d: ForecastDraws): Forecast
  {
    var factor := match m case TFT => 0.8 case NBEATS => 0.9 case DeepAR => 1.1;
    Forecast(current * (1.0 + (d.price - 0.5) * vol * factor), ConfidenceBase(m) + d.confidence * 0.1,
             (d.change - 0.5) * vol * 100.0)
  }

  /** `generatePrediction`, with the draws and the displayed time as inputs. */
  function GeneratePrediction(l: Listing, d: PredictionDraws, time: string): CryptoPrediction
  {
    var vol := VolatilityOf(l.symbol);
    var current := l.basePrice * (1.0 + (d.current - 0.5) * vol);
    CryptoPrediction(l.symbol, l.name, current,
      Forecasts(ForecastOf(current, vol, TFT, d.tft), ForecastOf(current, vol, NBEATS, d.nbeats),
                ForecastOf(current, vol, DeepAR, d.deepar), d.uncertainty * 0.15 + 0.05),
      time)
  }

  /** For draws in [0, 1), TFT's confidence lies in [0.85, 0.95), N-BEATS' in [0.80, 0.90),
      DeepAR's in [0.75, 0.85) and DeepAR's uncertainty in [0.05, 0.20). */
  lemma ConfidenceBands(l: Listing, d: PredictionDraws, time: string)
    requires UnitDraws(d)
    ensures var f := GeneratePrediction(l, d, time).predictions;
      && 0.85 <= f.tft.confidence < 0.95
      && 0.80 <= f.nbeats.confidence < 0.90
      && 0.75 <= f.deepar.confidence < 0.85
      && 0.05 <= f.uncertainty < 0.20
  {
  }

  /** `fetchPredictions`: one prediction per listed coin, in the listed order. */
  function FetchPredictions(draws: seq<PredictionDraws>, time: string): (ps: seq<CryptoPrediction>)
    requires |draws| == |Listings|
    ensures |ps| == 3
    ensures ps[0].symbol == "BTC" && ps[1].symbol == "ETH" && ps[2].symbol == "SOL"
    ensures forall i :: 0 <= i < 3 ==> ps[i] == GeneratePrediction(Listings[i], draws[i], time)
  {
    seq(|Listings|, i requires 0 <= i < |Listings| => GeneratePrediction(Listings[i], draws[i], time))
  }

  /** An entry of the reduction in `getBestModel`. */
  datatype Candidate = Candidate(name: string, confidence: real)

  function Candidates(f: Forecasts): seq<Candidate>
  {
    [Candidate("TFT", f.tft.confidence), Candidate("N-BEATS", f.nbeats.confidence), Candidate("DeepAR", f.deepar.confidence)]
  }

  /** The position the reduction `current.confidence > best.confidence ? current : best` ends
      at: a candidate of greatest confidence, and the first one of them. */
  function BestIndex(cs: seq<Candidate>): (k: nat)
    requires cs != []
    ensures k < |cs|
    ensures forall j :: 0 <= j < |cs| ==> cs[j].confidence <= cs[k].confidence
    ensures forall j :: 0 <= j < k ==> cs[j].confidence < cs[k].confidence
    decreases |cs|
  {
    if |cs| == 1 then 0
    else
      var b := BestIndex(cs[..|cs| - 1]);
      if cs[|cs| - 1].confidence > cs[b].confidence then |cs| - 1 else b
  }

  function BestModel(f: Forecasts): Candidate
  {
    var cs := Candidates(f);
    cs[BestIndex(cs)]
  }

  /** Ties go to the earlier model: TFT wins when no confidence exceeds its own, N-BEATS when
      it beats TFT and is not beaten by DeepAR, and DeepAR only when it beats both. */
  lemma BestModelIsFirstMaximum(f: Forecasts)
    ensures var b := BestModel(f).name; var t := f.tft.confidence; var n := f.nbeats.confidence; var d := f.deepar.confidence;
      && (b == "TFT" <==> t >= n && t >= d)
      && (b == "N-BEATS" <==> n > t && n >= d)
      && (b == "DeepAR" <==> d > t && d > n)
  {
    var cs := Candidates(f);
    var k := BestIndex(cs);
    assert |"TFT"| == 3 && |"N-BEATS"| == 7 && |"DeepAR"| == 6;
    assert cs[0].confidence <= cs[k].confidence && cs[1].confidence <= cs[k].confidence && cs[2].confidence <= cs[k].confidence;
    if k == 0 {
      assert BestModel(f).name == "TFT";
    } else if k == 1 {
      assert BestModel(f).name == "N-BEATS";
    } else {
      assert BestModel(f).name == "DeepAR";
    }
  }

  /** With confidences in their bands, DeepAR is never the best model: TFT's band starts where
      DeepAR's ends. */
  lemma DeepARNeverBest(l: Listing, d: PredictionDraws, time: string)
    requires UnitDraws(d)
    ensures BestModel(GeneratePrediction(l, d, time).predictions).name != "DeepAR"
  {
    var f := GeneratePrediction(l, d, time).predictions;
    ConfidenceBands(l, d, time);
    var cs := Candidates(f);
    var k := BestIndex(cs);
    assert cs[0].confidence > cs[2].confidence;
    assert k != 2;
  }

  /** `formatChange`, given the text `change.toFixed(2)`, which never starts with '+'. */
  function FormatChange(change: real, fixed2: string): string
  {
    (if change >= 0.0 then "+" else "") + fixed2 + "%"
  }

  function ChangeColor(change: real): string
  {
    if change >= 0.0 then "text-green-600" else "text-red-600"
  }

  /** The text starts with '+' exactly when the change is non-negative, which is exactly when it
      is shown green; the text always ends with '%' and otherwise holds the fixed-point text. */
  lemma SignAndColourAgree(change: real, fixed2: string)
    requires fixed2 == [] || fixed2[0] != '+'
    ensures var t := FormatChange(change, fixed2);
      && (|t| > 0 && t[0] == '+' <==> change >= 0.0)
      && (ChangeColor(change) == "text-green-600" <==> change >= 0.0)
      && t[|t| - 1] == '%'
      && t[|t| - 1 - |fixed2|..|t| - 1] == fixed2
  {
    var t := FormatChange(change, fixed2);
    if change < 0.0 {
      assert t == fixed2 + "%";
    }
  }
}
