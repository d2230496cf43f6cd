/** The records that flow between the analysis stages: technical-indicator
    signals (inputs; the indicator math is not part of this model) and the
    weighted factors the sentiment aggregator produces. */
module Signals {
  import opened Common

  /** The volatility level the volatility signal reports. */
  datatype VolLevel = LowLevel | NormalLevel | HighLevel

  /** A `{signal, confidence}` record from the indicator library. */
  datatype TechSignal = TechSignal(signal: Sentiment, confidence: real)

  /** The four technical signals (None when the key is absent), the level
      inside the volatility signal (None when that key is absent, which
      readers take as NORMAL) and the value of the momentum signal's RSI
      entry (None when there is no RSI entry or it has no value). */
  datatype TechSignals = TechSignals(
    trend: Option<TechSignal>,
    momentum: Option<TechSignal>,
    volatility: Option<TechSignal>,
    volume: Option<TechSignal>,
    volatilityLevel: Option<VolLevel>,
    rsi: Option<real>)

  datatype Component = TrendComponent | MomentumComponent | VolatilityComponent | VolumeComponent | SmcComponent

  /** One contributing factor of the aggregate. */
  datatype Factor = Factor(component: Component, signal: Sentiment, confidence: real, weight: real)

  function Contribution(f: Factor): real { f.weight * f.confidence }

  datatype Scores = Scores(bullish: real, bearish: real, neutral: real)

  /** What _aggregate_signals returns. */
  datatype SentimentData = SentimentData(sentiment: Sentiment, scores: Scores, factors: seq<Factor>, rawScore: real)

  /** Number of factors whose signal is `s`. */
  function CountSignal(factors: seq<Factor>, s: Sentiment): (r: nat)
    ensures r <= |factors|
  {
    if |factors| == 0 then 0
    else CountSignal(factors[..|factors| - 1], s) + (if factors[|factors| - 1].signal == s then 1 else 0)
  }

  lemma {:induction false} CountSignalAppend(factors: seq<Factor>, f: Factor, s: Sentiment)
    ensures CountSignal(factors + [f], s) == CountSignal(factors, s) + (if f.signal == s then 1 else 0)
  {
    assert (factors + [f])[..|factors|] == factors;
  }

  /** The three class counts partition the factors. */
  lemma {:induction false} CountSignalPartition(factors: seq<Factor>)
    ensures CountSignal(factors, Bullish) + CountSignal(factors, Bearish) + CountSignal(factors, Neutral) == |factors|
  {
    if |factors| > 0 {
      CountSignalPartition(factors[..|factors| - 1]);
    }
  }

  /** `part / total` for counts, in [0, 1] (0.5 when there is nothing to
      count, as every caller in the pipeline chooses). */
  function Fraction(part: nat, total: nat): (r: real)
    requires part <= total
    ensures 0.0 <= r <= 1.0
    ensures total > 0 ==> r * (total as real) == part as real
    ensures total > 0 ==> (r == 1.0 <==> part == total) && (r == 0.0 <==> part == 0)
  {
    if total == 0 then 0.5
    else
      assert !DivGreater(part as real, total as real, 1.0);
      (part as real) / (total as real)
  }
}
