/** Market-regime classification (src/analysis/regime_detector.py): threshold
    ladders over indicator values, the composite favorability table and the
    integer regime label. ADX, the directional indices and the ATR
    percentile are inputs; price efficiency and the volume percentile are
    computed from the closes and volumes. */
module Regime {
  import opened Common

  datatype TrendRegime = StrongUptrend | Uptrend | Ranging | Downtrend | StrongDowntrend
  datatype VolatilityRegime = VeryLowVolatility | LowVolatility | NormalVolatility | HighVolatility | VeryHighVolatility
  datatype VolumeRegime = Dry | NormalVolume | Elevated | Surge
  datatype Favorability = Favorable | Moderate | Cautious | Unfavorable

  const AdxTrending: real := 25.0
  const AdxStrong: real := 40.0
  const EfficiencyThreshold: real := 0.5

  // ------------------------------------------------------------ efficiency

  /** Sum of |c[k] - c[k - 1]| for lo <= k < hi. */
  function PathSum(c: seq<real>, lo: nat, hi: nat): (r: real)
    requires 1 <= lo && hi <= |c|
    ensures r >= 0.0
    decreases hi
  {
    if hi <= lo then 0.0 else PathSum(c, lo, hi - 1) + Abs(c[hi - 1] - c[hi - 2])
  }

  /** Price efficiency over the last `lookback` bars: the net move from the
      close `lookback` bars back to the last close, divided by the summed
      absolute bar-to-bar moves of the last `lookback` differences (the
      undefined first difference is skipped); 0 when that path is 0. A
      lookback of 0 reads as Python's `-0`, i.e. from the first bar. */
  function Efficiency(c: seq<real>, lookback: nat): real
    requires 1 <= |c| && lookback <= |c|
  {
    var n := |c|;
    var from := if lookback == 0 then 0 else n - lookback;
    var change := Abs(c[n - 1] - c[from]);
    var path := PathSum(c, if from == 0 then 1 else from, n);
    if path > 0.0 then change / path else 0.0
  }

  lemma {:induction false} PathCoversMove(c: seq<real>, lo: nat, j: nat, hi: nat)
    requires 1 <= lo <= j + 1 && j < hi <= |c|
    ensures Abs(c[hi - 1] - c[j]) <= PathSum(c, lo, hi)
    decreases hi
  {
    if hi - 1 > j {
      PathCoversMove(c, lo, j, hi - 1);
      assert PathSum(c, lo, hi) == PathSum(c, lo, hi - 1) + Abs(c[hi - 1] - c[hi - 2]);
    }
  }

  /** The path covers the net move, so efficiency lies in [0, 1]. */
  lemma {:induction false} EfficiencyBounded(c: seq<real>, lookback: nat)
    requires 1 <= |c| && lookback <= |c|
    ensures 0.0 <= Efficiency(c, lookback) <= 1.0
  {
    var n := |c|;
    var from := if lookback == 0 then 0 else n - lookback;
    var lo := if from == 0 then 1 else from;
    var change := Abs(c[n - 1] - c[from]);
    var path := PathSum(c, lo, n);
    if from == n - 1 {
      assert change == 0.0;
    } else {
      PathCoversMove(c, lo, from, n);
    }
    if path > 0.0 {
      assert !DivGreater(change, path, 1.0);
      assert DivAtLeast(change, path, 0.0);
    }
  }

  // ----------------------------------------------------------------- trend

  /** The trend part of the report; `direction` is BULLISH when +DI > -DI,
      otherwise BEARISH. */
  datatype TrendReport = TrendReport(regime: TrendRegime, adx: real, efficiency: real,
                                     isTrending: bool, direction: Sentiment, strength: real)

  function TrendRegimeOf(adx: real, plusDi: real, minusDi: real, efficiency: real): TrendRegime {
    if adx > AdxTrending then
      if plusDi > minusDi then
        if adx > AdxStrong && efficiency > EfficiencyThreshold then StrongUptrend else Uptrend
      else
        if adx > AdxStrong && efficiency > EfficiencyThreshold then StrongDowntrend else Downtrend
    else Ranging
  }

  function DetectTrendRegime(adx: real, plusDi: real, minusDi: real, closes: seq<real>, lookback: nat): TrendReport
    requires 1 <= |closes| && lookback <= |closes|
  {
    var eff := Efficiency(closes, lookback);
    TrendReport(TrendRegimeOf(adx, plusDi, minusDi, eff), adx, eff, adx > AdxTrending,
                if plusDi > minusDi then Bullish else Bearish, adx / 100.0)
  }

  predicate IsUp(t: TrendRegime) { t == Uptrend || t == StrongUptrend }
  predicate IsDown(t: TrendRegime) { t == Downtrend || t == StrongDowntrend }

  /** RANGING exactly when ADX is at most 25; otherwise up exactly when
      +DI > -DI, and STRONG exactly when also ADX > 40 and efficiency > 0.5. */
  lemma {:induction false} TrendRegimeMeaning(adx: real, plusDi: real, minusDi: real, efficiency: real)
    ensures var t := TrendRegimeOf(adx, plusDi, minusDi, efficiency);
      (t == Ranging <==> adx <= AdxTrending) &&
      (IsUp(t) <==> adx > AdxTrending && plusDi > minusDi) &&
      (IsDown(t) <==> adx > AdxTrending && plusDi <= minusDi) &&
      (t == StrongUptrend || t == StrongDowntrend <==>
        adx > AdxTrending && adx > AdxStrong && efficiency > EfficiencyThreshold)
  {
  }

  // ------------------------------------------------------------ volatility

  /** Percentile ladder at 0.2 / 0.4 / 0.7 / 0.9. */
  function VolatilityRegimeOf(percentile: real): VolatilityRegime {
    if percentile < 0.2 then VeryLowVolatility
    else if percentile < 0.4 then LowVolatility
    else if percentile < 0.7 then NormalVolatility
    else if percentile < 0.9 then HighVolatility
    else VeryHighVolatility
  }

  function VolatilityRank(v: VolatilityRegime): (r: nat)
    ensures r <= 4
  {
    match v
    case VeryLowVolatility => 0
    case LowVolatility => 1
    case NormalVolatility => 2
    case HighVolatility => 3
    case VeryHighVolatility => 4
  }

  /** Each regime is one band of the ladder, and the ladder is monotone. */
  lemma {:induction false} VolatilityLadder(p: real, q: real)
    ensures var v := VolatilityRegimeOf(p);
      (v == VeryLowVolatility <==> p < 0.2) &&
      (v == LowVolatility <==> 0.2 <= p < 0.4) &&
      (v == NormalVolatility <==> 0.4 <= p < 0.7) &&
      (v == HighVolatility <==> 0.7 <= p < 0.9) &&
      (v == VeryHighVolatility <==> 0.9 <= p)
    ensures p <= q ==> VolatilityRank(VolatilityRegimeOf(p)) <= VolatilityRank(VolatilityRegimeOf(q))
  {
  }

  // ---------------------------------------------------------------- volume

  /** `(window < current).mean()`: the fraction of the window strictly below
      the current value. */
  function CountBelow(window: seq<real>, x: real): (r: nat)
    ensures r <= |window|
  {
    if |window| == 0 then 0
    else CountBelow(window[..|window| - 1], x) + (if window[|window| - 1] < x then 1 else 0)
  }

  lemma {:induction false} CountBelowMissesSelf(window: seq<real>, k: nat)
    requires k < |window|
    ensures CountBelow(window, window[k]) < |window|
  {
    var p := window[..|window| - 1];
    if k < |window| - 1 {
      assert p[k] == window[k];
      CountBelowMissesSelf(p, k);
    }
  }

  datatype VolumeReport = VolumeReport(regime: VolumeRegime, relativeVolume: real, percentile: real)

  /** Percentile ladder at 0.25 / 0.75 / 0.95. */
  function VolumeRegimeOf(percentile: real): VolumeRegime {
    if percentile < 0.25 then Dry
    else if percentile < 0.75 then NormalVolume
    else if percentile < 0.95 then Elevated
    else Surge
  }

  /** The window `iloc[-lookback:]` (the whole series for a lookback of 0). */
  function Window(s: seq<real>, lookback: nat): seq<real> {
    if lookback == 0 then s else LastN(s, lookback)
  }

  function Mean(s: seq<real>): real
    requires |s| > 0
  {
    SumOf(s) / (|s| as real)
  }

  function SumOf(s: seq<real>): real {
    if |s| == 0 then 0.0 else SumOf(s[..|s| - 1]) + s[|s| - 1]
  }

  /** detect_volume_regime; `volumes` is None when the frame has no Volume
      column, which gives NORMAL with relative volume 1 and percentile 0.5. */
  function DetectVolumeRegime(volumes: Option<seq<real>>, lookback: nat): VolumeReport
    requires volumes.Some? ==> |volumes.value| > 0
  {
    match volumes
    case None => VolumeReport(NormalVolume, 1.0, 0.5)
    case Some(v) =>
      var current := v[|v| - 1];
      var w := Window(v, lookback);
      var mean := Mean(w);
      var relative := if mean > 0.0 then current / mean else 1.0;
      var pct := (CountBelow(w, current) as real) / (|w| as real);
      VolumeReport(VolumeRegimeOf(pct), relative, pct)
  }

  /** The volume ladder's bands; since the window contains the current bar,
      the percentile is below 1, so a series with a Volume column reaches
      SURGE only through a percentile in [0.95, 1). */
  lemma {:induction false} VolumeRegimeMeaning(volumes: Option<seq<real>>, lookback: nat)
    requires volumes.Some? ==> |volumes.value| > 0
    ensures var r := DetectVolumeRegime(volumes, lookback);
      (volumes.None? ==> r == VolumeReport(NormalVolume, 1.0, 0.5)) &&
      (volumes.Some? ==> 0.0 <= r.percentile < 1.0) &&
      (r.regime == Dry <==> r.percentile < 0.25) &&
      (r.regime == NormalVolume <==> 0.25 <= r.percentile < 0.75) &&
      (r.regime == Elevated <==> 0.75 <= r.percentile < 0.95) &&
      (r.regime == Surge <==> 0.95 <= r.percentile)
  {
    if volumes.Some? {
      var v := volumes.value;
      var w := Window(v, lookback);
      assert w[|w| - 1] == v[|v| - 1];
      CountBelowMissesSelf(w, |w| - 1);
      var c := CountBelow(w, v[|v| - 1]) as real;
      assert c < |w| as real;
      assert !DivAtLeast(c, |w| as real, 1.0);
      assert DivAtLeast(c, |w| as real, 0.0);
    }
  }

  // ------------------------------------------------------------- composite

  datatype Composite = Composite(trendScore: real, volatilityScore: real, favorability: Favorability,
                                 isTrending: bool, isStableVolatility: bool)

  function TrendScore(t: TrendRegime): real {
    match t
    case StrongUptrend => 1.0
    case Uptrend => 0.5
    case Ranging => 0.0
    case Downtrend => -0.5
    case StrongDowntrend => -1.0
  }

  function VolatilityScore(v: VolatilityRegime): real {
    match v
    case VeryLowVolatility => 0.2
    case LowVolatility => 0.5
    case NormalVolatility => 1.0
    case HighVolatility => 0.7
    case VeryHighVolatility => 0.3
  }

  function CompositeOf(trend: TrendReport, vol: VolatilityRegime): Composite {
    var good := vol == NormalVolatility || vol == LowVolatility;
    var fav :=
      if trend.isTrending && good then Favorable
      else if trend.isTrending then Moderate
      else if good then Cautious
      else Unfavorable;
    Composite(TrendScore(trend.regime), VolatilityScore(vol), fav, trend.isTrending, good)
  }

  /** The trend score has the trend's sign and magnitude 1 for a strong
      trend, 0.5 for a plain one, 0 for ranging; the volatility score peaks
      at NORMAL; favorability is the two-by-two table of "trending" and
      "NORMAL or LOW volatility". */
  lemma {:induction false} CompositeMeaning(trend: TrendReport, vol: VolatilityRegime)
    ensures var c := CompositeOf(trend, vol);
      (c.trendScore > 0.0 <==> IsUp(trend.regime)) &&
      (c.trendScore < 0.0 <==> IsDown(trend.regime)) &&
      (c.trendScore == 0.0 <==> trend.regime == Ranging) &&
      (Abs(c.trendScore) == 1.0 <==> trend.regime == StrongUptrend || trend.regime == StrongDowntrend) &&
      0.2 <= c.volatilityScore <= 1.0 &&
      (c.volatilityScore == 1.0 <==> vol == NormalVolatility) &&
      (c.favorability == Favorable <==> trend.isTrending && c.isStableVolatility) &&
      (c.favorability == Moderate <==> trend.isTrending && !c.isStableVolatility) &&
      (c.favorability == Cautious <==> !trend.isTrending && c.isStableVolatility) &&
      (c.favorability == Unfavorable <==> !trend.isTrending && !c.isStableVolatility) &&
      (c.isStableVolatility <==> vol == NormalVolatility || vol == LowVolatility)
  {
  }

  // ------------------------------------------------------------ the report

  /** What detect_regime reads from the indicator library. */
  datatype IndicatorValues = IndicatorValues(adx: real, plusDi: real, minusDi: real, atrPercentile: real)

  datatype RegimeReport = RegimeReport(trend: TrendReport, volatility: VolatilityRegime,
                                       volume: VolumeReport, composite: Composite)

  function DetectRegime(ind: IndicatorValues, closes: seq<real>, volumes: Option<seq<real>>, lookback: nat): RegimeReport
    requires 1 <= |closes| && lookback <= |closes|
    requires volumes.Some? ==> |volumes.value| > 0
  {
    var trend := DetectTrendRegime(ind.adx, ind.plusDi, ind.minusDi, closes, lookback);
    var vol := VolatilityRegimeOf(ind.atrPercentile);
    RegimeReport(trend, vol, DetectVolumeRegime(volumes, lookback), CompositeOf(trend, vol))
  }

  /** detect_regime with its failure made explicit: reading the close
      `lookback` bars back raises on a series shorter than that, and an empty
      series has no last bar. */
  function TryDetectRegime(ind: IndicatorValues, closes: seq<real>, volumes: Option<seq<real>>, lookback: nat): (r: Option<RegimeReport>)
    ensures r.None? <==> |closes| == 0 || lookback > |closes| || (volumes.Some? && |volumes.value| == 0)
  {
    if |closes| == 0 || lookback > |closes| || (volumes.Some? && |volumes.value| == 0) then None
    else Some(DetectRegime(ind, closes, volumes, lookback))
  }

  /** The trend report keeps the ladder consistent with its flag: it is
      trending exactly when its regime is not RANGING. */
  lemma {:induction false} TrendReportConsistent(adx: real, plusDi: real, minusDi: real, closes: seq<real>, lookback: nat)
    requires 1 <= |closes| && lookback <= |closes|
    ensures var t := DetectTrendRegime(adx, plusDi, minusDi, closes, lookback);
      (t.isTrending <==> t.regime != Ranging) &&
      (IsUp(t.regime) ==> t.direction == Bullish) &&
      (IsDown(t.regime) ==> t.direction == Bearish) &&
      0.0 <= t.efficiency <= 1.0
  {
    EfficiencyBounded(closes, lookback);
  }

  /** get_regime_label: 3 for HIGH or VERY_HIGH volatility, whatever the
      trend; otherwise 1 for an up-trend, 2 for a down-trend, 0 for ranging. */
  function RegimeLabel(r: RegimeReport): (code: nat)
    ensures code <= 3
    ensures code == 3 <==> r.volatility == HighVolatility || r.volatility == VeryHighVolatility
    ensures code == 1 <==> !(r.volatility == HighVolatility || r.volatility == VeryHighVolatility) && IsUp(r.trend.regime)
    ensures code == 2 <==> !(r.volatility == HighVolatility || r.volatility == VeryHighVolatility) && IsDown(r.trend.regime)
    ensures code == 0 <==> !(r.volatility == HighVolatility || r.volatility == VeryHighVolatility) && r.trend.regime == Ranging
  {
    if r.volatility == HighVolatility || r.volatility == VeryHighVolatility then 3
    else if IsUp(r.trend.regime) then 1
    else if IsDown(r.trend.regime) then 2
    else 0
  }
}
