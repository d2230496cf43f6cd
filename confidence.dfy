/** The confidence scorer (src/analysis/confidence_scorer.py): a five-factor
    weighted average clamped to [0, 1], the factor helpers, the signal
    strength and the label ladder. */
module Confidence {
  import opened Common
  import opened Signals

  /** A factor score with its weight. */
  datatype Term = Term(score: real, weight: real)

  const RawWeight: real := 0.30
  const AgreementWeight: real := 0.25
  const ClarityWeight: real := 0.20
  const VolatilityWeight: real := 0.15
  const VolumeWeight: real := 0.10

  /** Fraction of factors agreeing with the final sentiment; 0.5 without
      factors. */
  function Agreement(data: SentimentData): (r: real)
    ensures 0.0 <= r <= 1.0
    ensures |data.factors| == 0 ==> r == 0.5
    ensures |data.factors| > 0 ==> r * (|data.factors| as real) == CountSignal(data.factors, data.sentiment) as real
    ensures |data.factors| > 0 ==> (r == 1.0 <==> CountSignal(data.factors, data.sentiment) == |data.factors|)
  {
    if |data.factors| == 0 then 0.5
    else Fraction(CountSignal(data.factors, data.sentiment), |data.factors|)
  }

  /** One minus the fraction of NEUTRAL factors; 0.5 without factors. */
  function Clarity(data: SentimentData): (r: real)
    ensures 0.0 <= r <= 1.0
    ensures |data.factors| == 0 ==> r == 0.5
    ensures |data.factors| > 0 ==> (1.0 - r) * (|data.factors| as real) == CountSignal(data.factors, Neutral) as real
    ensures |data.factors| > 0 ==> (r == 1.0 <==> CountSignal(data.factors, Neutral) == 0)
  {
    if |data.factors| == 0 then 0.5
    else 1.0 - Fraction(CountSignal(data.factors, Neutral), |data.factors|)
  }

  /** 0.7 without a volatility signal; otherwise NORMAL (also the reading of
      a missing level) 0.9, LOW 0.7, HIGH 0.5. */
  function VolatilityFactor(tech: TechSignals): real {
    if tech.volatility.None? then 0.7
    else
      match tech.volatilityLevel.GetOr(NormalLevel)
      case NormalLevel => 0.9
      case LowLevel => 0.7
      case HighLevel => 0.5
  }

  /** 0.6 without a volume signal; 1.0 when it matches the sentiment (tested
      first, so NEUTRAL volume under a NEUTRAL sentiment confirms); 0.6 for
      another NEUTRAL volume signal; 0.3 when it points the other way. */
  function VolumeFactor(tech: TechSignals, sentiment: Sentiment): real {
    match tech.volume
    case None => 0.6
    case Some(v) =>
      if v.signal == sentiment then 1.0
      else if v.signal == Neutral then 0.6
      else 0.3
  }

  /** The five scored factors, in the order the scorer lists them. */
  function Terms(data: SentimentData, tech: TechSignals): seq<Term> {
    [Term(MinR(data.rawScore, 1.0), RawWeight),
     Term(Agreement(data), AgreementWeight),
     Term(Clarity(data), ClarityWeight),
     Term(VolatilityFactor(tech), VolatilityWeight),
     Term(VolumeFactor(tech, data.sentiment), VolumeWeight)]
  }

  function WeightedSum(ts: seq<Term>): real {
    if |ts| == 0 then 0.0 else ts[0].score * ts[0].weight + WeightedSum(ts[1..])
  }

  function TotalWeight(ts: seq<Term>): real {
    if |ts| == 0 then 0.0 else ts[0].weight + TotalWeight(ts[1..])
  }

  function Clamp01(x: real): (r: real)
    ensures 0.0 <= r <= 1.0
    ensures 0.0 <= x <= 1.0 ==> r == x
  {
    MaxR(0.0, MinR(1.0, x))
  }

  /** calculate_confidence: the weighted average of the five factors,
      clamped to [0, 1] (0.5 if the weights summed to 0). The SMC analysis
      the source also receives is not consulted. */
  function CalculateConfidence(data: SentimentData, tech: TechSignals): (r: real)
    ensures 0.0 <= r <= 1.0
  {
    var ts := Terms(data, tech);
    var total := TotalWeight(ts);
    Clamp01(if total > 0.0 then WeightedSum(ts) / total else 0.5)
  }

  /** The weights sum to 1, so the confidence is the plain weighted sum of
      the five factors whenever that sum is in [0, 1] — which is the case
      whenever the raw score is not negative. */
  lemma {:induction false} ConfidenceIsWeightedAverage(data: SentimentData, tech: TechSignals)
    ensures TotalWeight(Terms(data, tech)) == 1.0
    ensures var ws := 0.30 * MinR(data.rawScore, 1.0) + 0.25 * Agreement(data) + 0.20 * Clarity(data) +
                      0.15 * VolatilityFactor(tech) + 0.10 * VolumeFactor(tech, data.sentiment);
      (0.0 <= ws <= 1.0 ==> CalculateConfidence(data, tech) == ws) &&
      (data.rawScore >= 0.0 ==> 0.0 <= ws <= 1.0)
  {
    var ts := Terms(data, tech);
    var t1, t2, t3, t4 := ts[1..], ts[2..], ts[3..], ts[4..];
    assert t1[1..] == t2 && t2[1..] == t3 && t3[1..] == t4 && t4[1..] == [];
    assert ts[0].weight == 0.30 && t1[0].weight == 0.25 && t2[0].weight == 0.20 && t3[0].weight == 0.15 && t4[0].weight == 0.10;
    assert TotalWeight(t4) == 0.10;
    assert TotalWeight(t3) == 0.25;
    assert TotalWeight(t2) == 0.45;
    assert TotalWeight(t1) == 0.70;
    assert TotalWeight(ts) == 1.0;
    assert WeightedSum(t4) == t4[0].score * 0.10;
    assert WeightedSum(t3) == t3[0].score * 0.15 + t4[0].score * 0.10;
    assert WeightedSum(t1) == t1[0].score * 0.25 + t2[0].score * 0.20 + t3[0].score * 0.15 + t4[0].score * 0.10;
    assert WeightedSum(ts) == 0.30 * MinR(data.rawScore, 1.0) + 0.25 * Agreement(data) + 0.20 * Clarity(data) +
                              0.15 * VolatilityFactor(tech) + 0.10 * VolumeFactor(tech, data.sentiment);
  }

  /** The two table-driven factors take only their listed values. */
  lemma {:induction false} FactorValues(tech: TechSignals, s: Sentiment)
    ensures VolatilityFactor(tech) in {0.5, 0.7, 0.9}
    ensures (tech.volatility.Some? && tech.volatilityLevel.GetOr(NormalLevel) == NormalLevel) <==> VolatilityFactor(tech) == 0.9
    ensures VolumeFactor(tech, s) in {0.3, 0.6, 1.0}
    ensures VolumeFactor(tech, s) == 1.0 <==> tech.volume.Some? && tech.volume.value.signal == s
    ensures VolumeFactor(tech, s) == 0.3 <==> tech.volume.Some? && tech.volume.value.signal != s && tech.volume.value.signal != Neutral
  {
  }

  function SumContributions(factors: seq<Factor>): real {
    if |factors| == 0 then 0.0 else SumContributions(factors[..|factors| - 1]) + Contribution(factors[|factors| - 1])
  }

  /** calculate_signal_strength: 0 without factors, else the summed
      contributions capped at 1: the strength is 1 exactly when there are
      factors contributing at least 1, and below that cap it is the sum. */
  function SignalStrength(factors: seq<Factor>): (r: real)
    ensures r <= 1.0
    ensures |factors| == 0 ==> r == 0.0
    ensures r == 1.0 <==> |factors| > 0 && SumContributions(factors) >= 1.0
    ensures |factors| > 0 && SumContributions(factors) <= 1.0 ==> r == SumContributions(factors)
  {
    if |factors| == 0 then 0.0 else MinR(SumContributions(factors), 1.0)
  }

  /** One more factor with a non-negative contribution never weakens the
      signal. */
  lemma {:induction false} SignalStrengthGrows(factors: seq<Factor>, f: Factor)
    requires Contribution(f) >= 0.0
    ensures SignalStrength(factors) <= SignalStrength(factors + [f])
  {
    var g := factors + [f];
    assert g[..|g| - 1] == factors;
    assert SumContributions(g) == SumContributions(factors) + Contribution(f);
  }

  lemma {:induction false} SumContributionsNonNegative(factors: seq<Factor>)
    requires forall k :: 0 <= k < |factors| ==> factors[k].weight >= 0.0 && factors[k].confidence >= 0.0
    ensures SumContributions(factors) >= 0.0
  {
    if |factors| > 0 {
      SumContributionsNonNegative(factors[..|factors| - 1]);
      var f := factors[|factors| - 1];
      assert f.weight * f.confidence >= 0.0;
    }
  }

  /** With non-negative weights and confidences the strength lies in [0, 1]. */
  lemma {:induction false} SignalStrengthBounded(factors: seq<Factor>)
    requires forall k :: 0 <= k < |factors| ==> factors[k].weight >= 0.0 && factors[k].confidence >= 0.0
    ensures 0.0 <= SignalStrength(factors) <= 1.0
  {
    SumContributionsNonNegative(factors);
  }

  datatype ConfidenceLabel = VeryLowConfidence | LowConfidence | ModerateConfidence | HighConfidence | VeryHighConfidence

  function LabelRank(l: ConfidenceLabel): nat {
    match l
    case VeryLowConfidence => 0
    case LowConfidence => 1
    case ModerateConfidence => 2
    case HighConfidence => 3
    case VeryHighConfidence => 4
  }

  /** get_confidence_label: the ladder 0.85 / 0.70 / 0.55 / 0.40. */
  function ConfidenceLabelOf(c: real): ConfidenceLabel {
    if c >= 0.85 then VeryHighConfidence
    else if c >= 0.70 then HighConfidence
    else if c >= 0.55 then ModerateConfidence
    else if c >= 0.40 then LowConfidence
    else VeryLowConfidence
  }

  /** The label never drops as confidence rises, and each label is one band. */
  lemma {:induction false} ConfidenceLabelMonotone(c: real, d: real)
    ensures c <= d ==> LabelRank(ConfidenceLabelOf(c)) <= LabelRank(ConfidenceLabelOf(d))
    ensures ConfidenceLabelOf(c) == VeryHighConfidence <==> c >= 0.85
    ensures ConfidenceLabelOf(c) == HighConfidence <==> 0.70 <= c < 0.85
    ensures ConfidenceLabelOf(c) == ModerateConfidence <==> 0.55 <= c < 0.70
    ensures ConfidenceLabelOf(c) == LowConfidence <==> 0.40 <= c < 0.55
    ensures ConfidenceLabelOf(c) == VeryLowConfidence <==> c < 0.40
  {
  }
}
