/** The sentiment engine (src/analysis/sentiment_engine.py): weighted
    aggregation of the technical and SMC signals, the risk flags, the capped
    insight list, the confidence post-processing of analyze_sentiment and the
    one-line summary. The technical signals are inputs. */
module SentimentEngine {
  import opened Common
  import opened Signals
  import Confidence
  import opened Regime
  import opened Structure
  import opened Zones
  import opened Liquidity
  import opened SmcSignal

  const TrendShare: real := 0.20
  const MomentumShare: real := 0.20
  const VolatilityShare: real := 0.10
  const VolumeShare: real := 0.15
  const SmcShare: real := 0.35
  const BullishThreshold: real := 0.35
  const BearishThreshold: real := 0.35

  // ------------------------------------------------------------ aggregation

  /** One weighted input of the aggregate; `signal` is None when the source
      dictionary has no entry for the component. */
  datatype Input = Input(component: Component, weight: real, signal: Option<TechSignal>)

  /** The SMC input: the signal of the analysis, when the analysis did not
      fail. */
  function SmcInput(smc: Option<SmcAnalysis>): Option<TechSignal> {
    if smc.Some? then Some(TechSignal(smc.value.signal.signal, smc.value.signal.confidence)) else None
  }

  /** The inputs in the order they are scored: trend, momentum, volatility,
      volume, then SMC. */
  function Inputs(tech: TechSignals, smc: Option<SmcAnalysis>): seq<Input> {
    [Input(TrendComponent, TrendShare, tech.trend),
     Input(MomentumComponent, MomentumShare, tech.momentum),
     Input(VolatilityComponent, VolatilityShare, tech.volatility),
     Input(VolumeComponent, VolumeShare, tech.volume),
     Input(SmcComponent, SmcShare, SmcInput(smc))]
  }

  function FactorOf(input: Input): Factor
    requires input.signal.Some?
  {
    Factor(input.component, input.signal.value.signal, input.signal.value.confidence, input.weight)
  }

  /** The factor an input yields: one when its signal is present, none otherwise. */
  function FactorOpt(input: Input): seq<Factor> {
    if input.signal.Some? then [FactorOf(input)] else []
  }

  /** One factor per present input, in input order. */
  function FactorsOf(inputs: seq<Input>): seq<Factor> {
    if |inputs| == 0 then []
    else FactorsOf(inputs[..|inputs| - 1]) + FactorOpt(inputs[|inputs| - 1])
  }

  /** The score of one class: the summed contributions of the factors
      carrying that signal. */
  function ScoreFor(factors: seq<Factor>, s: Sentiment): real {
    if |factors| == 0 then 0.0
    else
      var last := factors[|factors| - 1];
      ScoreFor(factors[..|factors| - 1], s) + (if last.signal == s then Contribution(last) else 0.0)
  }

  lemma {:induction false} FactorsOfStep(inputs: seq<Input>, i: nat)
    requires i < |inputs|
    ensures FactorsOf(inputs[..i + 1]) == FactorsOf(inputs[..i]) + FactorOpt(inputs[i])
  {
    assert inputs[..i + 1][..i] == inputs[..i];
  }

  lemma {:induction false} FactorsOfSnoc(inputs: seq<Input>, x: Input)
    ensures FactorsOf(inputs + [x]) == FactorsOf(inputs) + FactorOpt(x)
  {
    assert (inputs + [x])[..|inputs|] == inputs;
  }

  lemma {:induction false} ScoreForAppend(factors: seq<Factor>, f: Factor, s: Sentiment)
    ensures ScoreFor(factors + [f], s) == ScoreFor(factors, s) + (if f.signal == s then Contribution(f) else 0.0)
  {
    assert (factors + [f])[..|factors|] == factors;
  }

  function MaxScore(sc: Scores): real {
    MaxR(MaxR(sc.bullish, sc.bearish), sc.neutral)
  }

  /** BULLISH when the bullish score is the maximum and reaches its
      threshold (tested first), then BEARISH likewise, else NEUTRAL. */
  function Decide(sc: Scores): Sentiment {
    var m := MaxScore(sc);
    if sc.bullish == m && sc.bullish >= BullishThreshold then Bullish
    else if sc.bearish == m && sc.bearish >= BearishThreshold then Bearish
    else Neutral
  }

  /** What _aggregate_signals returns. */
  function Aggregate(tech: TechSignals, smc: Option<SmcAnalysis>): SentimentData {
    var factors := FactorsOf(Inputs(tech, smc));
    var sc := Scores(ScoreFor(factors, Bullish), ScoreFor(factors, Bearish), ScoreFor(factors, Neutral));
    SentimentData(Decide(sc), sc, factors, MaxScore(sc))
  }

  /** _aggregate_signals: one pass over the inputs adding each present
      signal's contribution to its class and recording it as a factor. */
  method AggregateSignals(tech: TechSignals, smc: Option<SmcAnalysis>) returns (data: SentimentData)
    ensures data == Aggregate(tech, smc)
  {
    var inputs := Inputs(tech, smc);
    var bull, bear, neutral := 0.0, 0.0, 0.0;
    var factors: seq<Factor> := [];
    for i := 0 to |inputs|
      invariant factors == FactorsOf(inputs[..i])
      invariant bull == ScoreFor(factors, Bullish)
      invariant bear == ScoreFor(factors, Bearish)
      invariant neutral == ScoreFor(factors, Neutral)
    {
      FactorsOfStep(inputs, i);
      var input := inputs[i];
      if input.signal.Some? {
        var sig := input.signal.value;
        var f := Factor(input.component, sig.signal, sig.confidence, input.weight);
        ScoreForAppend(factors, f, Bullish);
        ScoreForAppend(factors, f, Bearish);
        ScoreForAppend(factors, f, Neutral);
        var c := Contribution(f);
        match sig.signal {
          case Bullish => bull := bull + c;
          case Bearish => bear := bear + c;
          case Neutral => neutral := neutral + c;
        }
        factors := factors + [f];
      } else {
        assert factors + [] == factors;
      }
    }
    assert inputs[..|inputs|] == inputs;
    var m := MaxR(MaxR(bull, bear), neutral);
    var sentiment;
    if bull == m && bull >= BullishThreshold {
      sentiment := Bullish;
    } else if bear == m && bear >= BearishThreshold {
      sentiment := Bearish;
    } else {
      sentiment := Neutral;
    }
    data := SentimentData(sentiment, Scores(bull, bear, neutral), factors, m);
  }

  /** The decision rule: a bullish/bearish tie at or above the threshold is
      BULLISH, a strictly larger NEUTRAL score forces NEUTRAL, and the raw
      score dominates all three class scores. */
  lemma {:induction false} DecideMeaning(sc: Scores)
    ensures Decide(sc) == Bullish <==> sc.bullish >= sc.bearish && sc.bullish >= sc.neutral && sc.bullish >= BullishThreshold
    ensures Decide(sc) == Bearish <==> sc.bearish > sc.bullish && sc.bearish >= sc.neutral && sc.bearish >= BearishThreshold
    ensures sc.neutral > sc.bullish && sc.neutral > sc.bearish ==> Decide(sc) == Neutral
    ensures MaxScore(sc) >= sc.bullish && MaxScore(sc) >= sc.bearish && MaxScore(sc) >= sc.neutral
    ensures MaxScore(sc) in {sc.bullish, sc.bearish, sc.neutral}
  {
  }

  /** The factors come out in the fixed order trend, momentum, volatility,
      volume, SMC, each only when its signal is present. */
  lemma {:induction false} FactorsInOrder(tech: TechSignals, smc: Option<SmcAnalysis>)
    ensures var ins := Inputs(tech, smc);
      FactorsOf(ins) ==
        FactorOpt(ins[0]) + FactorOpt(ins[1]) + FactorOpt(ins[2]) + FactorOpt(ins[3]) + FactorOpt(ins[4])
  {
    var ins := Inputs(tech, smc);
    var q1, q2, q3, q4 := ins[..1], ins[..2], ins[..3], ins[..4];
    assert q1 == [] + [ins[0]] && q2 == q1 + [ins[1]] && q3 == q2 + [ins[2]] &&
           q4 == q3 + [ins[3]] && ins == q4 + [ins[4]];
    FactorsOfSnoc([], ins[0]);
    FactorsOfSnoc(q1, ins[1]);
    FactorsOfSnoc(q2, ins[2]);
    FactorsOfSnoc(q3, ins[3]);
    FactorsOfSnoc(q4, ins[4]);
  }

  /** Inputs whose weights are non-negative and whose present confidences
      lie in [0, 1]. */
  predicate InputsInRange(inputs: seq<Input>) {
    forall k :: 0 <= k < |inputs| ==>
      inputs[k].weight >= 0.0 &&
      (inputs[k].signal.Some? ==> 0.0 <= inputs[k].signal.value.confidence <= 1.0)
  }

  function WeightSum(inputs: seq<Input>): real {
    if |inputs| == 0 then 0.0 else WeightSum(inputs[..|inputs| - 1]) + inputs[|inputs| - 1].weight
  }

  /** Scaling a non-negative amount by a factor in [0, 1] keeps it in
      [0, amount]. */
  lemma {:induction false} ScaleBounds(x: real, m: real)
    requires x >= 0.0 && 0.0 <= m <= 1.0
    ensures 0.0 <= x * m <= x
  {
    assert x * (1.0 - m) >= 0.0;
    assert x * m == x - x * (1.0 - m);
  }

  lemma {:induction false} ContributionBounds(f: Factor)
    requires f.weight >= 0.0 && 0.0 <= f.confidence <= 1.0
    ensures 0.0 <= Contribution(f) <= f.weight
  {
    ScaleBounds(f.weight, f.confidence);
    assert Contribution(f) == f.weight * f.confidence;
  }

  lemma {:induction false} ScoresWithinWeights(inputs: seq<Input>)
    requires InputsInRange(inputs)
    ensures var fs := FactorsOf(inputs);
      0.0 <= ScoreFor(fs, Bullish) && 0.0 <= ScoreFor(fs, Bearish) && 0.0 <= ScoreFor(fs, Neutral) &&
      ScoreFor(fs, Bullish) + ScoreFor(fs, Bearish) + ScoreFor(fs, Neutral) <= WeightSum(inputs)
  {
    if |inputs| > 0 {
      var n := |inputs| - 1;
      var init := inputs[..n];
      var last := inputs[n];
      assert inputs[..n + 1] == inputs;
      FactorsOfStep(inputs, n);
      assert InputsInRange(init) by {
        forall k | 0 <= k < |init| ensures init[k] == inputs[k] { }
      }
      ScoresWithinWeights(init);
      var fs := FactorsOf(init);
      assert WeightSum(inputs) == WeightSum(init) + last.weight;
      if last.signal.Some? {
        var f := FactorOf(last);
        ScoreForAppend(fs, f, Bullish);
        ScoreForAppend(fs, f, Bearish);
        ScoreForAppend(fs, f, Neutral);
        assert 0.0 <= last.signal.value.confidence <= 1.0 && last.weight >= 0.0;
        assert f.weight == last.weight && f.confidence == last.signal.value.confidence;
        ContributionBounds(f);
      } else {
        assert fs + [] == fs;
      }
    }
  }

  /** With every confidence in [0, 1] the weights, which sum to 1, bound the
      scores: each class score and the raw score lie in [0, 1]. */
  lemma {:induction false} ScoresBounded(tech: TechSignals, smc: Option<SmcAnalysis>)
    requires InputsInRange(Inputs(tech, smc))
    ensures var d := Aggregate(tech, smc);
      0.0 <= d.scores.bullish <= 1.0 && 0.0 <= d.scores.bearish <= 1.0 && 0.0 <= d.scores.neutral <= 1.0 &&
      d.scores.bullish + d.scores.bearish + d.scores.neutral <= 1.0 &&
      0.0 <= d.rawScore <= 1.0
  {
    var ins := Inputs(tech, smc);
    ScoresWithinWeights(ins);
    assert ins[..4][..3] == ins[..3] && ins[..3][..2] == ins[..2] && ins[..2][..1] == ins[..1] && ins[..1][..0] == [];
    assert WeightSum(ins[..1]) == 0.20;
    assert WeightSum(ins[..2]) == 0.40;
    assert WeightSum(ins[..3]) == 0.50;
    assert WeightSum(ins[..4]) == 0.65;
    assert ins[..5] == ins;
    assert WeightSum(ins) == 1.0;
  }

  /** An SMC input produced by the analysis has confidence in [0, 0.65], so
      it never breaks the range condition of ScoresBounded. */
  lemma {:induction false} SmcInputInRange(bars: seq<Bar>)
    ensures var smc := SmcAnalysisOf(bars);
      smc.Some? ==> 0.0 <= SmcInput(smc).value.confidence <= 0.65
  {
    var smc := SmcAnalysisOf(bars);
    if smc.Some? {
      var a := smc.value;
      SmcSignalMeaning(a.structure, a.orderBlocks, a.premiumDiscount);
    }
  }

  // ------------------------------------------------------------------- risk

  datatype RiskLevel = LowRisk | MediumRisk | HighRisk

  function RiskRank(r: RiskLevel): nat {
    match r
    case LowRisk => 0
    case MediumRisk => 1
    case HighRisk => 2
  }

  datatype RiskFlag = LowConfidenceFlag | HighVolatilityFlag | ConflictingSignalsFlag

  /** The volatility signal is present and reports HIGH (a missing level
      reads as NORMAL). */
  predicate VolatilityIsHigh(tech: TechSignals) {
    tech.volatility.Some? && tech.volatilityLevel.GetOr(NormalLevel) == HighLevel
  }

  /** The bullish and bearish factor counts differ by at most one. */
  predicate Conflicting(factors: seq<Factor>) {
    var d := CountSignal(factors, Bullish) as int - CountSignal(factors, Bearish) as int;
    -1 <= d <= 1
  }

  function FlagCount(data: SentimentData, tech: TechSignals, confidence: real): (r: nat)
    ensures r <= 3
  {
    (if confidence < 0.60 then 1 else 0) + (if VolatilityIsHigh(tech) then 1 else 0) +
    (if Conflicting(data.factors) then 1 else 0)
  }

  function RiskOf(flags: nat): RiskLevel {
    if flags == 0 then LowRisk else if flags <= 1 then MediumRisk else HighRisk
  }

  /** _assess_risk_level: collect the raised flags, then map their number to
      LOW / MEDIUM / HIGH. */
  method AssessRiskLevel(data: SentimentData, tech: TechSignals, confidence: real) returns (risk: RiskLevel)
    ensures risk == RiskOf(FlagCount(data, tech, confidence))
  {
    var flags: seq<RiskFlag> := [];
    if confidence < 0.60 {
      flags := flags + [LowConfidenceFlag];
    }
    if tech.volatility.Some? {
      if tech.volatilityLevel.GetOr(NormalLevel) == HighLevel {
        flags := flags + [HighVolatilityFlag];
      }
    }
    var bullish := CountSignal(data.factors, Bullish);
    var bearish := CountSignal(data.factors, Bearish);
    if Abs((bullish as int - bearish as int) as real) <= 1.0 {
      flags := flags + [ConflictingSignalsFlag];
    }
    if |flags| == 0 {
      risk := LowRisk;
    } else if |flags| <= 1 {
      risk := MediumRisk;
    } else {
      risk := HighRisk;
    }
  }

  /** LOW exactly when no flag is raised, HIGH exactly when two or more are;
      a raised flag never lowers the level, so lowering the confidence never
      lowers the risk. */
  lemma {:induction false} RiskMeaning(data: SentimentData, tech: TechSignals, c: real, d: real)
    ensures RiskOf(FlagCount(data, tech, c)) == LowRisk <==>
      c >= 0.60 && !VolatilityIsHigh(tech) && !Conflicting(data.factors)
    ensures RiskOf(FlagCount(data, tech, c)) == HighRisk <==> FlagCount(data, tech, c) >= 2
    ensures c <= d ==> RiskRank(RiskOf(FlagCount(data, tech, d))) <= RiskRank(RiskOf(FlagCount(data, tech, c)))
  {
  }

  /** With no factors at all the counts are equal, so the conflicting flag
      is always raised and the risk is at least MEDIUM. */
  lemma {:induction false} NoFactorsIsRisky(data: SentimentData, tech: TechSignals, c: real)
    requires |data.factors| == 0
    ensures RiskRank(RiskOf(FlagCount(data, tech, c))) >= 1
  {
  }

  // --------------------------------------------------------------- insights

  datatype Insight =
    | RegimeInsight(favorability: Favorability)
    | TrendingInsight(direction: Sentiment, adx: real)
    | RangingInsight
    | HighVolatilityInsight(level: VolatilityRegime)
    | VeryLowVolatilityInsight
    | StructureConfirms(bias: Sentiment)
    | StructureConflicts(trend: Trend, bias: Sentiment)
    | ActiveBlockInsight(block: OrderBlock)
    | PremiumInsight
    | DiscountInsight
    | EquilibriumInsight
    | OverboughtInsight(rsi: real)
    | OversoldInsight(rsi: real)
    | VolumeConfirms
    | VolumeDivergence

  /** The position of an insight's kind in the fixed emission order. */
  function Priority(i: Insight): nat {
    match i
    case RegimeInsight(_) => 0
    case TrendingInsight(_, _) => 1
    case RangingInsight => 1
    case HighVolatilityInsight(_) => 2
    case VeryLowVolatilityInsight => 2
    case StructureConfirms(_) => 3
    case StructureConflicts(_, _) => 3
    case ActiveBlockInsight(_) => 4
    case PremiumInsight => 5
    case DiscountInsight => 5
    case EquilibriumInsight => 5
    case OverboughtInsight(_) => 6
    case OversoldInsight(_) => 6
    case VolumeConfirms => 7
    case VolumeDivergence => 7
  }

  function RegimeInsights(regime: Option<RegimeReport>): (r: seq<Insight>)
    ensures |r| <= 3
  {
    match regime
    case None => []
    case Some(rep) =>
      [RegimeInsight(rep.composite.favorability)] +
      [if rep.trend.isTrending then TrendingInsight(rep.trend.direction, rep.trend.adx) else RangingInsight] +
      (if rep.volatility == VeryHighVolatility || rep.volatility == HighVolatility then [HighVolatilityInsight(rep.volatility)]
       else if rep.volatility == VeryLowVolatility then [VeryLowVolatilityInsight]
       else [])
  }

  /** The structure line: it confirms exactly when the structure trend is the
      sentiment (an UNDEFINED structure never confirms). */
  function StructureInsight(sentiment: Sentiment, a: SmcAnalysis): Insight {
    if a.structure.trend == Defined(sentiment) then StructureConfirms(sentiment)
    else StructureConflicts(a.structure.trend, sentiment)
  }

  function StructureInsights(sentiment: Sentiment, smc: Option<SmcAnalysis>): seq<Insight> {
    if smc.Some? then [StructureInsight(sentiment, smc.value)] else []
  }

  /** The first active block, if any. */
  function FirstActive(blocks: seq<OrderBlock>): (r: Option<OrderBlock>)
    ensures r.Some? ==> r.value in blocks && r.value.active
    ensures r.None? ==> forall k :: 0 <= k < |blocks| ==> !blocks[k].active
  {
    if |blocks| == 0 then None
    else if blocks[0].active then Some(blocks[0])
    else FirstActive(blocks[1..])
  }

  function BlockInsights(smc: Option<SmcAnalysis>): seq<Insight> {
    if smc.Some? && FirstActive(smc.value.orderBlocks).Some? then [ActiveBlockInsight(FirstActive(smc.value.orderBlocks).value)]
    else []
  }

  function ZoneInsights(sentiment: Sentiment, smc: Option<SmcAnalysis>): seq<Insight> {
    if smc.None? || smc.value.premiumDiscount.InsufficientData? then []
    else
      var zone := smc.value.premiumDiscount.zone;
      if zone == Premium && sentiment == Bearish then [PremiumInsight]
      else if zone == Discount && sentiment == Bullish then [DiscountInsight]
      else if zone == Equilibrium then [EquilibriumInsight]
      else []
  }

  /** The RSI line: only when the momentum signal carries a non-zero RSI
      value (zero reads as false), and only outside [30, 70]. */
  function MomentumInsights(tech: TechSignals): seq<Insight> {
    if tech.momentum.Some? && tech.rsi.Some? && tech.rsi.value != 0.0 then
      if tech.rsi.value > 70.0 then [OverboughtInsight(tech.rsi.value)]
      else if tech.rsi.value < 30.0 then [OversoldInsight(tech.rsi.value)]
      else []
    else []
  }

  function VolumeInsights(sentiment: Sentiment, tech: TechSignals): seq<Insight> {
    if tech.volume.None? then []
    else if tech.volume.value.signal == sentiment then [VolumeConfirms]
    else [VolumeDivergence]
  }

  /** Every insight the source would produce before the cap, in order. */
  function AllInsights(sentiment: Sentiment, tech: TechSignals, smc: Option<SmcAnalysis>, regime: Option<RegimeReport>): seq<Insight> {
    RegimeInsights(regime) + StructureInsights(sentiment, smc) + BlockInsights(smc) +
    ZoneInsights(sentiment, smc) + MomentumInsights(tech) + VolumeInsights(sentiment, tech)
  }

  /** The regime lines of _generate_insights. */
  method RegimeLines(regime: Option<RegimeReport>) returns (lines: seq<Insight>)
    ensures lines == RegimeInsights(regime)
  {
    lines := [];
    if regime.Some? {
      var rep := regime.value;
      lines := lines + [RegimeInsight(rep.composite.favorability)];
      if rep.trend.isTrending {
        lines := lines + [TrendingInsight(rep.trend.direction, rep.trend.adx)];
      } else {
        lines := lines + [RangingInsight];
      }
      if rep.volatility == VeryHighVolatility || rep.volatility == HighVolatility {
        lines := lines + [HighVolatilityInsight(rep.volatility)];
      } else if rep.volatility == VeryLowVolatility {
        lines := lines + [VeryLowVolatilityInsight];
      }
    }
  }

  /** The structure, order-block and premium/discount lines. */
  method SmcLines(sentiment: Sentiment, smc: Option<SmcAnalysis>) returns (lines: seq<Insight>)
    ensures lines == StructureInsights(sentiment, smc) + BlockInsights(smc) + ZoneInsights(sentiment, smc)
  {
    lines := [];
    if smc.Some? {
      lines := lines + [StructureInsight(sentiment, smc.value)];
      var active := FirstActive(smc.value.orderBlocks);
      if active.Some? {
        lines := lines + [ActiveBlockInsight(active.value)];
      }
      var pd := smc.value.premiumDiscount;
      if pd.Ranged? {
        if pd.zone == Premium && sentiment == Bearish {
          lines := lines + [PremiumInsight];
        } else if pd.zone == Discount && sentiment == Bullish {
          lines := lines + [DiscountInsight];
        } else if pd.zone == Equilibrium {
          lines := lines + [EquilibriumInsight];
        }
      }
    }
  }

  /** The RSI and volume lines. */
  method TechLines(sentiment: Sentiment, tech: TechSignals) returns (lines: seq<Insight>)
    ensures lines == MomentumInsights(tech) + VolumeInsights(sentiment, tech)
  {
    lines := [];
    if tech.momentum.Some? && tech.rsi.Some? {
      var rsi := tech.rsi.value;
      if rsi != 0.0 {
        if rsi > 70.0 {
          lines := lines + [OverboughtInsight(rsi)];
        } else if rsi < 30.0 {
          lines := lines + [OversoldInsight(rsi)];
        }
      }
    }
    if tech.volume.Some? {
      if tech.volume.value.signal == sentiment {
        lines := lines + [VolumeConfirms];
      } else {
        lines := lines + [VolumeDivergence];
      }
    }
  }

  /** _generate_insights: the lines in priority order, then the first
      five. */
  method GenerateInsights(sentiment: Sentiment, tech: TechSignals, smc: Option<SmcAnalysis>, regime: Option<RegimeReport>)
    returns (insights: seq<Insight>)
    ensures insights == Take(AllInsights(sentiment, tech, smc, regime), 5)
  {
    var r := RegimeLines(regime);
    var m := SmcLines(sentiment, smc);
    var t := TechLines(sentiment, tech);
    insights := r + m + t;
    ConcatGroups(r, StructureInsights(sentiment, smc), BlockInsights(smc), ZoneInsights(sentiment, smc),
                 MomentumInsights(tech), VolumeInsights(sentiment, tech));
    insights := Take(insights, 5);
  }

  predicate Ascending(s: seq<Insight>) {
    forall i, j :: 0 <= i < j < |s| ==> Priority(s[i]) < Priority(s[j])
  }

  /** Each part holds at most one insight of each priority and only
      priorities in its own band. */
  predicate InBand(s: seq<Insight>, lo: nat, hi: nat) {
    Ascending(s) && forall k :: 0 <= k < |s| ==> lo <= Priority(s[k]) <= hi
  }

  lemma {:induction false} ConcatBands(a: seq<Insight>, b: seq<Insight>, lo: nat, mid: nat, hi: nat)
    requires lo <= mid < hi
    requires InBand(a, lo, mid) && InBand(b, mid + 1, hi)
    ensures InBand(a + b, lo, hi)
  {
    forall i, j | 0 <= i < j < |a + b|
      ensures Priority((a + b)[i]) < Priority((a + b)[j])
    {
      if j < |a| {
        assert (a + b)[i] == a[i] && (a + b)[j] == a[j];
      } else if i < |a| {
        assert (a + b)[i] == a[i] && (a + b)[j] == b[j - |a|];
      } else {
        assert (a + b)[i] == b[i - |a|] && (a + b)[j] == b[j - |a|];
      }
    }
    forall k | 0 <= k < |a + b|
      ensures lo <= Priority((a + b)[k]) <= hi
    {
      if k < |a| {
        assert (a + b)[k] == a[k];
      } else {
        assert (a + b)[k] == b[k - |a|];
      }
    }
  }

  lemma {:induction false} RegimeBand(regime: Option<RegimeReport>)
    ensures InBand(RegimeInsights(regime), 0, 2)
  {
  }

  lemma {:induction false} SmallBand(s: seq<Insight>, p: nat)
    requires |s| <= 1 && forall k :: 0 <= k < |s| ==> Priority(s[k]) == p
    ensures InBand(s, p, p)
  {
  }

  lemma {:induction false} StructureBand(sentiment: Sentiment, smc: Option<SmcAnalysis>)
    ensures InBand(StructureInsights(sentiment, smc), 3, 3)
  {
    SmallBand(StructureInsights(sentiment, smc), 3);
  }

  lemma {:induction false} BlockBand(smc: Option<SmcAnalysis>)
    ensures InBand(BlockInsights(smc), 4, 4)
  {
    SmallBand(BlockInsights(smc), 4);
  }

  lemma {:induction false} ZoneBand(sentiment: Sentiment, smc: Option<SmcAnalysis>)
    ensures InBand(ZoneInsights(sentiment, smc), 5, 5)
  {
    SmallBand(ZoneInsights(sentiment, smc), 5);
  }

  lemma {:induction false} MomentumBand(tech: TechSignals)
    ensures InBand(MomentumInsights(tech), 6, 6)
  {
    SmallBand(MomentumInsights(tech), 6);
  }

  lemma {:induction false} VolumeBand(sentiment: Sentiment, tech: TechSignals)
    ensures InBand(VolumeInsights(sentiment, tech), 7, 7)
  {
    SmallBand(VolumeInsights(sentiment, tech), 7);
  }

  lemma {:induction false} AllInsightsAscending(sentiment: Sentiment, tech: TechSignals, smc: Option<SmcAnalysis>, regime: Option<RegimeReport>)
    ensures Ascending(AllInsights(sentiment, tech, smc, regime))
  {
    var ri := RegimeInsights(regime);
    var si := StructureInsights(sentiment, smc);
    var bi := BlockInsights(smc);
    var zi := ZoneInsights(sentiment, smc);
    var mi := MomentumInsights(tech);
    var vi := VolumeInsights(sentiment, tech);
    RegimeBand(regime);
    StructureBand(sentiment, smc);
    BlockBand(smc);
    ZoneBand(sentiment, smc);
    MomentumBand(tech);
    VolumeBand(sentiment, tech);
    SixBands(ri, si, bi, zi, mi, vi);
  }

  /** Six consecutive bands joined stay ascending. */
  lemma {:induction false} SixBands(a: seq<Insight>, b: seq<Insight>, c: seq<Insight>, d: seq<Insight>, e: seq<Insight>, f: seq<Insight>)
    requires InBand(a, 0, 2) && InBand(b, 3, 3) && InBand(c, 4, 4)
    requires InBand(d, 5, 5) && InBand(e, 6, 6) && InBand(f, 7, 7)
    ensures InBand(a + b + c + d + e + f, 0, 7)
  {
    ConcatBands(a, b, 0, 2, 3);
    ConcatBands(a + b, c, 0, 3, 4);
    ConcatBands(a + b + c, d, 0, 4, 5);
    ConcatBands(a + b + c + d, e, 0, 5, 6);
    ConcatBands(a + b + c + d + e, f, 0, 6, 7);
  }

  lemma {:induction false} TakeAscending(s: seq<Insight>, n: nat)
    requires Ascending(s)
    ensures Ascending(Take(s, n))
  {
    assert Take(s, n) == s[..|Take(s, n)|];
  }

  /** The three batches of lines joined are the six groups joined. */
  lemma {:induction false} ConcatGroups<T>(a: seq<T>, b: seq<T>, c: seq<T>, d: seq<T>, e: seq<T>, f: seq<T>)
    ensures a + (b + c + d) + (e + f) == a + b + c + d + e + f
  {
    assert a + (b + c + d) == a + b + c + d;
  }

  /** Regrouping the six insight groups around the first one. */
  lemma {:induction false} ConcatRegroup<T>(a: seq<T>, b: seq<T>, c: seq<T>, d: seq<T>, e: seq<T>, f: seq<T>)
    ensures a + b + c + d + e + f == a + (b + (c + d + e + f))
  {
    assert a + b + c + d + e + f == a + (b + c + d + e + f);
    assert b + c + d + e + f == b + (c + d + e + f);
  }

  /** A nonempty cap keeps the head of the list. */
  lemma {:induction false} TakeHead<T>(s: seq<T>, n: nat)
    requires |s| > 0 && n > 0
    ensures Take(s, n)[0] == s[0]
  {
  }

  /** A line placed after at most three others is among the first five. */
  lemma {:induction false} EarlyLineSurvives(a: seq<Insight>, b: seq<Insight>)
    requires |a| <= 3 && |b| > 0
    ensures b[0] in Take(a + b, 5)
    ensures |a| > 0 ==> Take(a + b, 5)[0] == a[0]
    ensures |a| == 0 ==> Take(a + b, 5)[0] == b[0]
  {
    var r := Take(a + b, 5);
    assert r == (a + b)[..|r|];
    assert r[|a|] == (a + b)[|a|] == b[0];
  }

  /** The capped list holds at most five insights, in strictly increasing
      priority: regime, structure, order block, zone, RSI, volume. */
  lemma {:induction false} InsightsOrdered(sentiment: Sentiment, tech: TechSignals, smc: Option<SmcAnalysis>, regime: Option<RegimeReport>)
    ensures var r := Take(AllInsights(sentiment, tech, smc, regime), 5);
      |r| <= 5 && Ascending(r)
  {
    AllInsightsAscending(sentiment, tech, smc, regime);
    TakeAscending(AllInsights(sentiment, tech, smc, regime), 5);
  }

  /** The structure line always survives the cap when the SMC analysis is
      present, since at most three regime lines precede it; the list opens
      with the favorability line when there is a regime, and otherwise with
      the structure line when there is an SMC analysis. */
  lemma {:induction false} StructureInsightSurvives(sentiment: Sentiment, tech: TechSignals, smc: Option<SmcAnalysis>, regime: Option<RegimeReport>)
    ensures var r := Take(AllInsights(sentiment, tech, smc, regime), 5);
      (smc.Some? ==> StructureInsight(sentiment, smc.value) in r) &&
      (regime.Some? ==> r[0] == RegimeInsight(regime.value.composite.favorability)) &&
      (regime.None? && smc.Some? ==> r[0] == StructureInsight(sentiment, smc.value))
  {
    var ri := RegimeInsights(regime);
    var si := StructureInsights(sentiment, smc);
    var rest := si + (BlockInsights(smc) + ZoneInsights(sentiment, smc) +
                MomentumInsights(tech) + VolumeInsights(sentiment, tech));
    ConcatRegroup(ri, si, BlockInsights(smc), ZoneInsights(sentiment, smc),
                  MomentumInsights(tech), VolumeInsights(sentiment, tech));
    if smc.Some? {
      assert rest[0] == StructureInsight(sentiment, smc.value);
      EarlyLineSurvives(ri, rest);
    } else if regime.Some? {
      TakeHead(ri + rest, 5);
    }
  }

  // ------------------------------------------------------ analyze_sentiment

  /** The regime switches of the configuration. */
  datatype RegimeSettings = RegimeSettings(
    enable: bool,
    autoDetect: bool,
    filterByRegime: bool,
    usePositionSizing: bool,
    lookback: nat,
    allowed: set<Favorability>)

  /** The defaults: detection enabled but not run during analysis, no
      filtering, no sizing, 50 bars, FAVORABLE and MODERATE allowed. */
  const DefaultRegimeSettings: RegimeSettings :=
    RegimeSettings(true, false, false, false, 50, {Favorable, Moderate})

  /** REGIME_SIZE_MULTIPLIERS. */
  function SizeMultiplier(f: Favorability): (m: real)
    ensures 0.0 <= m <= 1.0
    ensures m == 1.0 <==> f == Favorable
    ensures m == 0.0 <==> f == Unfavorable
  {
    match f
    case Favorable => 1.0
    case Moderate => 0.7
    case Cautious => 0.4
    case Unfavorable => 0.0
  }

  function Closes(bars: seq<Bar>): (r: seq<real>)
    ensures |r| == |bars|
  {
    seq(|bars|, k requires 0 <= k < |bars| => bars[k].close)
  }

  function Volumes(bars: seq<Bar>): (r: seq<real>)
    ensures |r| == |bars|
  {
    seq(|bars|, k requires 0 <= k < |bars| => bars[k].volume)
  }

  /** The regime report analyze_sentiment works with: only computed when
      detection is both enabled and automatic, None when the detector
      raises. */
  function RegimeFor(settings: RegimeSettings, ind: IndicatorValues, bars: seq<Bar>): (r: Option<RegimeReport>)
    ensures !(settings.enable && settings.autoDetect) ==> r.None?
  {
    if settings.enable && settings.autoDetect then TryDetectRegime(ind, Closes(bars), Some(Volumes(bars)), settings.lookback)
    else None
  }

  /** The scorer's confidence after position sizing. */
  function Sized(scored: real, settings: RegimeSettings, regime: Option<RegimeReport>): real {
    if regime.Some? && settings.usePositionSizing then scored * SizeMultiplier(regime.value.composite.favorability)
    else scored
  }

  predicate Disallowed(settings: RegimeSettings, regime: Option<RegimeReport>) {
    regime.Some? && settings.filterByRegime && regime.value.composite.favorability !in settings.allowed
  }

  /** The result record; Failed is the error record of the exception
      handler. */
  datatype SentimentResult =
    | Failed(sentiment: Sentiment, confidence: real)
    | Analysed(sentiment: Sentiment, confidence: real, risk: RiskLevel, factors: seq<Factor>,
               insights: seq<Insight>, price: real, smc: Option<SmcAnalysis>,
               regime: Option<RegimeReport>, regimeWarning: bool)

  /** The confidence steps of analyze_sentiment: scale by the regime
      multiplier, assess the risk on the scaled value, then halve it when the
      regime is not allowed. */
  method AdjustConfidence(data: SentimentData, tech: TechSignals, scored: real, settings: RegimeSettings,
                          regime: Option<RegimeReport>)
    returns (confidence: real, risk: RiskLevel, warning: bool)
    requires 0.0 <= scored <= 1.0
    ensures risk == RiskOf(FlagCount(data, tech, Sized(scored, settings, regime)))
    ensures warning == Disallowed(settings, regime)
    ensures confidence == (if warning then Sized(scored, settings, regime) * 0.5 else Sized(scored, settings, regime))
    ensures 0.0 <= confidence <= Sized(scored, settings, regime) <= scored
  {
    confidence := scored;
    if regime.Some? && settings.usePositionSizing {
      ScaleBounds(scored, SizeMultiplier(regime.value.composite.favorability));
      confidence := confidence * SizeMultiplier(regime.value.composite.favorability);
    }
    risk := AssessRiskLevel(data, tech, confidence);
    warning := false;
    if regime.Some? && settings.filterByRegime {
      if regime.value.composite.favorability !in settings.allowed {
        warning := true;
        ScaleBounds(confidence, 0.5);
        confidence := confidence * 0.5;
      }
    }
  }

  /** Position sizing never raises the scorer's confidence or makes it
      negative. */
  lemma {:induction false} SizedWithin(scored: real, settings: RegimeSettings, regime: Option<RegimeReport>)
    requires 0.0 <= scored <= 1.0
    ensures 0.0 <= Sized(scored, settings, regime) <= scored
  {
    if regime.Some? && settings.usePositionSizing {
      ScaleBounds(scored, SizeMultiplier(regime.value.composite.favorability));
    }
  }

  /** The record analyze_sentiment returns, as a value: the error record for
      an empty frame, otherwise the SMC analysis, the regime, the aggregated
      factors, the scorer's confidence after sizing and the regime filter,
      the risk assessed on the sized confidence, the first five insights and
      the last close. */
  function SentimentOf(bars: seq<Bar>, tech: TechSignals, ind: IndicatorValues, settings: RegimeSettings): (r: SentimentResult)
    ensures r.Failed? <==> |bars| == 0
    ensures r.Failed? ==> r.sentiment == Neutral && r.confidence == 0.0
    ensures r.Analysed? ==>
      0.0 <= r.confidence <= 1.0 && r.price == bars[|bars| - 1].close &&
      r.sentiment == Aggregate(tech, SmcAnalysisOf(bars)).sentiment &&
      r.regimeWarning == Disallowed(settings, RegimeFor(settings, ind, bars))
  {
    if |bars| == 0 then Failed(Neutral, 0.0)
    else
      var smc := SmcAnalysisOf(bars);
      var regime := RegimeFor(settings, ind, bars);
      var data := Aggregate(tech, smc);
      var scored := Confidence.CalculateConfidence(data, tech);
      var sized := Sized(scored, settings, regime);
      var warning := Disallowed(settings, regime);
      SizedWithin(scored, settings, regime);
      ScaleBounds(sized, 0.5);
      Analysed(data.sentiment, if warning then sized * 0.5 else sized, RiskOf(FlagCount(data, tech, sized)),
               data.factors, Take(AllInsights(data.sentiment, tech, smc, regime), 5), bars[|bars| - 1].close,
               smc, regime, warning)
  }

  /** analyze_sentiment over the given technical signals and indicator
      values. The empty series raises when its last close is read, which
      yields the NEUTRAL / 0.0 error record. Otherwise the scorer's
      confidence is scaled by the regime multiplier, the risk is assessed on
      that value, and only then is it halved when the regime is not
      allowed; the final confidence never exceeds the scorer's. */
  method AnalyzeSentiment(bars: seq<Bar>, tech: TechSignals, ind: IndicatorValues, settings: RegimeSettings)
    returns (result: SentimentResult)
    ensures result.Failed? <==> |bars| == 0
    ensures result.Failed? ==> result.sentiment == Neutral && result.confidence == 0.0
    ensures result.Analysed? ==>
      var smc := SmcAnalysisOf(bars);
      var regime := RegimeFor(settings, ind, bars);
      var data := Aggregate(tech, smc);
      var scored := Confidence.CalculateConfidence(data, tech);
      var sized := Sized(scored, settings, regime);
      result.smc == smc && result.regime == regime &&
      result.sentiment == data.sentiment && result.factors == data.factors &&
      result.risk == RiskOf(FlagCount(data, tech, sized)) &&
      result.insights == Take(AllInsights(data.sentiment, tech, smc, regime), 5) &&
      result.price == bars[|bars| - 1].close &&
      result.regimeWarning == Disallowed(settings, regime) &&
      result.confidence == (if result.regimeWarning then sized * 0.5 else sized) &&
      0.0 <= result.confidence <= scored <= 1.0
    ensures result == SentimentOf(bars, tech, ind, settings)
  {
    if |bars| == 0 {
      return Failed(Neutral, 0.0);
    }
    var smc := Analyze(bars);
    var regime := RegimeFor(settings, ind, bars);
    var data := AggregateSignals(tech, smc);
    var scored := Confidence.CalculateConfidence(data, tech);
    var confidence, risk, warning := AdjustConfidence(data, tech, scored, settings, regime);
    var insights := GenerateInsights(data.sentiment, tech, smc, regime);
    result := Analysed(data.sentiment, confidence, risk, data.factors, insights, bars[|bars| - 1].close,
                       smc, regime, warning);
  }

  /** Under the default settings no regime is consulted, so the confidence
      is exactly the scorer's and there is no warning. */
  lemma {:induction false} DefaultSettingsKeepConfidence(ind: IndicatorValues, bars: seq<Bar>, scored: real)
    ensures RegimeFor(DefaultRegimeSettings, ind, bars).None?
    ensures Sized(scored, DefaultRegimeSettings, RegimeFor(DefaultRegimeSettings, ind, bars)) == scored
    ensures !Disallowed(DefaultRegimeSettings, RegimeFor(DefaultRegimeSettings, ind, bars))
  {
  }

  /** An UNFAVORABLE regime with position sizing drives the confidence to 0. */
  lemma {:induction false} UnfavorableZeroesConfidence(scored: real, settings: RegimeSettings, regime: Option<RegimeReport>)
    requires settings.usePositionSizing && regime.Some? && regime.value.composite.favorability == Unfavorable
    ensures Sized(scored, settings, regime) == 0.0
  {
  }

  // ---------------------------------------------------------------- summary

  datatype ConfidenceWord = HighWord | ModerateWord | LowWord

  /** The word the summary uses for a confidence. */
  function ConfidenceWordOf(c: real): (w: ConfidenceWord)
    ensures w == HighWord <==> c > 0.75
    ensures w == ModerateWord <==> 0.60 < c <= 0.75
    ensures w == LowWord <==> c <= 0.60
  {
    if c > 0.75 then HighWord else if c > 0.60 then ModerateWord else LowWord
  }

  datatype Summary = Summary(sentiment: Sentiment, word: ConfidenceWord, confidence: real,
                             risk: RiskLevel, keyInsight: Option<Insight>)

  /** get_sentiment_summary: sentiment, confidence word, risk (MEDIUM when
      the record has none) and the first insight, if any. */
  function SentimentSummary(r: SentimentResult): (s: Summary)
    ensures s.sentiment == r.sentiment && s.confidence == r.confidence
    ensures s.word == ConfidenceWordOf(r.confidence)
    ensures r.Failed? ==> s.risk == MediumRisk && s.keyInsight.None?
    ensures r.Analysed? ==> s.risk == r.risk && (s.keyInsight.Some? <==> |r.insights| > 0)
    ensures r.Analysed? && |r.insights| > 0 ==> s.keyInsight == Some(r.insights[0])
  {
    match r
    case Failed(sentiment, confidence) => Summary(sentiment, ConfidenceWordOf(confidence), confidence, MediumRisk, None)
    case Analysed(sentiment, confidence, risk, _, insights, _, _, _, _) =>
      Summary(sentiment, ConfidenceWordOf(confidence), confidence, risk,
              if |insights| > 0 then Some(insights[0]) else None)
  }
}
