/** The indicator calculator (src/indicators/calculator.py): the five-minute
    result cache, the cross-timeframe signal alignment and the RSI and
    Bollinger rows of the indicator table. The indicators themselves are
    computed elsewhere and arrive as a value. */
module Calculator {
  import opened Common
  import opened Signals

  /** cache_ttl, in seconds. */
  const CacheTtl: real := 300.0

  /** The last values of the indicators the rest of this module reads: the
      trend and momentum votes, RSI, and the Bollinger bands. */
  datatype Bands = Bands(upper: real, lower: real)
  datatype Indicators = Indicators(trendSignal: Sentiment, momentumSignal: Sentiment, rsi: real, bands: Bands)

  /** What calculate_for_timeframe returns: the empty dictionary of the
      error path, or the indicator dictionary with its metadata. The
      indicators are None when calculate_all_indicators itself failed and
      returned an empty dictionary, to which the metadata is still added. */
  datatype IndicatorResult =
    | Empty
    | Computed(indicators: Option<Indicators>, symbol: string, timeframe: string,
               timestamp: real, barCount: nat, latestClose: real)

  datatype CacheEntry = CacheEntry(result: IndicatorResult, storedAt: real)

  // ------------------------------------------------------------ cache keys

  function DigitChar(d: nat): (c: char)
    requires d < 10
    ensures '0' <= c <= '9'
  {
    "0123456789"[d]
  }

  /** Python's `str(n)` for a length. */
  function NatToString(n: nat): (s: string)
    ensures |s| >= 1
    ensures forall k :: 0 <= k < |s| ==> '0' <= s[k] <= '9'
    ensures n < 10 <==> |s| == 1
  {
    if n < 10 then [DigitChar(n)] else NatToString(n / 10) + [DigitChar(n % 10)]
  }

  lemma {:induction false} DigitCharInjective(a: nat, b: nat)
    requires a < 10 && b < 10 && DigitChar(a) == DigitChar(b)
    ensures a == b
  {
  }

  /** Different lengths print differently. */
  lemma {:induction false} NatToStringInjective(a: nat, b: nat)
    requires NatToString(a) == NatToString(b)
    ensures a == b
  {
    var s := NatToString(a);
    if a >= 10 && b >= 10 {
      assert s[|s| - 1] == DigitChar(a % 10) && s[|s| - 1] == DigitChar(b % 10);
      DigitCharInjective(a % 10, b % 10);
      assert NatToString(a / 10) == s[..|s| - 1] == NatToString(b / 10);
      NatToStringInjective(a / 10, b / 10);
    } else if a < 10 && b < 10 {
      DigitCharInjective(a, b);
    }
  }

  /** The cache key `symbol_timeframe_length`. */
  function CacheKey(symbol: string, tf: string, length: nat): string {
    symbol + "_" + tf + "_" + NatToString(length)
  }

  /** For one symbol and timeframe the key tells series lengths apart, and
      only lengths: two series of the same length share their key. */
  lemma {:induction false} CacheKeyMeaning(symbol: string, tf: string, a: nat, b: nat)
    ensures CacheKey(symbol, tf, a) == CacheKey(symbol, tf, b) <==> a == b
  {
    var prefix := symbol + "_" + tf + "_";
    if CacheKey(symbol, tf, a) == CacheKey(symbol, tf, b) {
      assert NatToString(a) == CacheKey(symbol, tf, a)[|prefix|..];
      assert NatToString(b) == CacheKey(symbol, tf, b)[|prefix|..];
      NatToStringInjective(a, b);
    }
  }

  /** A cached entry is served when it is younger than the time to live. */
  predicate Hit(cache: map<string, CacheEntry>, key: string, now: real) {
    key in cache && now - cache[key].storedAt < CacheTtl
  }

  /** An entry stored at `t` is served to every call before `t + 300`, and
      only to those. */
  lemma {:induction false} StoredEntryServed(cache: map<string, CacheEntry>, key: string, r: IndicatorResult, t: real, later: real)
    ensures Hit(cache[key := CacheEntry(r, t)], key, later) <==> later < t + CacheTtl
    ensures cache[key := CacheEntry(r, t)][key].result == r
  {
  }

  /** The calculator object and its cache. */
  class IndicatorCalculator {
    var cache: map<string, CacheEntry>

    constructor()
      ensures cache == map[]
    {
      cache := map[];
    }

    /** calculate_for_timeframe at clock time `now`; `computed` is what
        calculate_all_indicators yields for the bars. A fresh cached entry
        is returned as is; otherwise the result is computed and stored,
        except that an empty series fails (reading its last close raises)
        and fails without touching the cache. */
    method CalculateForTimeframe(bars: seq<Bar>, symbol: string, tf: string, useCache: bool, now: real,
                                 computed: Option<Indicators>) returns (r: IndicatorResult)
      modifies this
      ensures var key := CacheKey(symbol, tf, |bars|);
        if useCache && Hit(old(cache), key, now) then
          r == old(cache)[key].result && cache == old(cache)
        else if |bars| == 0 then
          r == Empty && cache == old(cache)
        else
          r == Computed(computed, symbol, tf, now, |bars|, bars[|bars| - 1].close) &&
          cache == old(cache)[key := CacheEntry(r, now)]
    {
      var key := CacheKey(symbol, tf, |bars|);
      if useCache && key in cache {
        var entry := cache[key];
        if now - entry.storedAt < CacheTtl {
          return entry.result;
        }
      }
      if |bars| == 0 {
        return Empty;
      }
      r := Computed(computed, symbol, tf, now, |bars|, bars[|bars| - 1].close);
      cache := cache[key := CacheEntry(r, now)];
    }

    /** clear_cache. */
    method ClearCache()
      modifies this
      ensures cache == map[]
    {
      cache := map[];
    }
  }

  // ------------------------------------------------------------- alignment

  /** One entry of the per-timeframe results dictionary. */
  datatype TimeframeResult = TimeframeResult(timeframe: string, result: IndicatorResult)

  predicate HasSignals(r: IndicatorResult) {
    r.Computed? && r.indicators.Some?
  }

  /** The trend votes of the timeframes that have them, in order. */
  function TrendSignals(rs: seq<TimeframeResult>): seq<Sentiment> {
    if |rs| == 0 then []
    else
      var last := rs[|rs| - 1].result;
      TrendSignals(rs[..|rs| - 1]) + (if HasSignals(last) then [last.indicators.value.trendSignal] else [])
  }

  /** The momentum votes of the timeframes that have them, in order. */
  function MomentumSignals(rs: seq<TimeframeResult>): seq<Sentiment> {
    if |rs| == 0 then []
    else
      var last := rs[|rs| - 1].result;
      MomentumSignals(rs[..|rs| - 1]) + (if HasSignals(last) then [last.indicators.value.momentumSignal] else [])
  }

  /** signal_alignment: the larger of the BULLISH and BEARISH shares; 0 for
      no votes. NEUTRAL votes only enlarge the denominator. */
  function SignalAlignment(ss: seq<Sentiment>): (r: real)
    ensures 0.0 <= r <= 1.0
  {
    if |ss| == 0 then 0.0
    else Fraction(if Count(ss, Bullish) >= Count(ss, Bearish) then Count(ss, Bullish) else Count(ss, Bearish), |ss|)
  }

  /** The alignment is 1 exactly when every vote is BULLISH or every vote
      is BEARISH, and 0 exactly when every vote is NEUTRAL. */
  lemma {:induction false} SignalAlignmentMeaning(ss: seq<Sentiment>)
    requires |ss| > 0
    ensures SignalAlignment(ss) == 1.0 <==>
      (forall k :: 0 <= k < |ss| ==> ss[k] == Bullish) || (forall k :: 0 <= k < |ss| ==> ss[k] == Bearish)
    ensures SignalAlignment(ss) == 0.0 <==> forall k :: 0 <= k < |ss| ==> ss[k] == Neutral
  {
    var b, br := Count(ss, Bullish), Count(ss, Bearish);
    var m := if b >= br then b else br;
    assert SignalAlignment(ss) == Fraction(m, |ss|);
    assert SignalAlignment(ss) == 1.0 <==> m == |ss|;
    assert SignalAlignment(ss) == 0.0 <==> m == 0;
    CountAll(ss, Bullish);
    CountAll(ss, Bearish);
    CountZero(ss, Bullish);
    CountZero(ss, Bearish);
    if forall k :: 0 <= k < |ss| ==> ss[k] != Bullish && ss[k] != Bearish {
      forall k | 0 <= k < |ss| ensures ss[k] == Neutral {
        match ss[k]
        case Bullish =>
        case Bearish =>
        case Neutral =>
      }
    }
  }

  /** Count is zero exactly when the value does not occur. */
  lemma {:induction false} CountZero(ss: seq<Sentiment>, x: Sentiment)
    ensures Count(ss, x) == 0 <==> forall k :: 0 <= k < |ss| ==> ss[k] != x
  {
    if |ss| > 0 {
      var init := ss[..|ss| - 1];
      CountZero(init, x);
      assert forall k :: 0 <= k < |init| ==> init[k] == ss[k];
    }
  }

  /** The primary signal: a most frequent trend vote. The source takes the
      maximum over a set of strings, so which of several equally frequent
      votes wins depends on set iteration order; here BULLISH, then BEARISH,
      then NEUTRAL. */
  function PrimarySignal(ss: seq<Sentiment>): Sentiment {
    if |ss| == 0 then Neutral
    else
      var b, br, n := Count(ss, Bullish), Count(ss, Bearish), Count(ss, Neutral);
      if b >= br && b >= n then Bullish else if br >= n then Bearish else Neutral
  }

  /** With votes, the primary signal is one of them and none is more
      frequent. */
  lemma {:induction false} PrimaryIsMostFrequent(ss: seq<Sentiment>)
    requires |ss| > 0
    ensures forall x :: Count(ss, PrimarySignal(ss)) >= Count(ss, x)
    ensures Count(ss, PrimarySignal(ss)) > 0
  {
    CountZero(ss, Bullish);
    CountZero(ss, Bearish);
    CountZero(ss, Neutral);
    var p := PrimarySignal(ss);
    forall x ensures Count(ss, p) >= Count(ss, x) {
      match x
      case Bullish =>
      case Bearish =>
      case Neutral =>
    }
    if Count(ss, p) == 0 {
      assert Count(ss, Bullish) == 0 && Count(ss, Bearish) == 0 && Count(ss, Neutral) == 0;
      match ss[0]
      case Bullish =>
      case Bearish =>
      case Neutral =>
    }
  }

  /** get_timeframe_alignment's result; NoTimeframes is the short record
      of the empty input. */
  datatype TfAlignment =
    | NoTimeframes
    | TfAlignment(aligned: bool, score: real, trend: real, momentum: real, primary: Sentiment, analysed: nat)

  /** get_timeframe_alignment: the mean of the trend and momentum
      alignments, aligned above 0.7. */
  function AlignmentOf(rs: seq<TimeframeResult>): TfAlignment {
    if |rs| == 0 then NoTimeframes
    else
      var ts, ms := TrendSignals(rs), MomentumSignals(rs);
      var t, m := SignalAlignment(ts), SignalAlignment(ms);
      var score := (t + m) / 2.0;
      TfAlignment(score > 0.7, score, t, m, PrimarySignal(ts), |rs|)
  }

  /** The score lies in [0, 1] and is the mean of its two parts; full
      alignment needs both parts at 1, and aligned means above 0.7. */
  lemma {:induction false} AlignmentOfMeaning(rs: seq<TimeframeResult>)
    requires |rs| > 0
    ensures var a := AlignmentOf(rs);
      a.TfAlignment? && 0.0 <= a.score <= 1.0 && a.score * 2.0 == a.trend + a.momentum &&
      (a.score == 1.0 <==> a.trend == 1.0 && a.momentum == 1.0) &&
      (a.aligned <==> a.score > 0.7) &&
      a.analysed == |rs|
  {
  }

  /** The collecting loop of get_timeframe_alignment. */
  method CollectSignals(rs: seq<TimeframeResult>) returns (trend: seq<Sentiment>, momentum: seq<Sentiment>)
    ensures trend == TrendSignals(rs) && momentum == MomentumSignals(rs)
  {
    trend, momentum := [], [];
    for i := 0 to |rs|
      invariant trend == TrendSignals(rs[..i]) && momentum == MomentumSignals(rs[..i])
    {
      assert rs[..i + 1][..i] == rs[..i];
      var r := rs[i].result;
      if HasSignals(r) {
        trend := trend + [r.indicators.value.trendSignal];
        momentum := momentum + [r.indicators.value.momentumSignal];
      }
    }
    assert rs[..|rs|] == rs;
  }

  method GetTimeframeAlignment(rs: seq<TimeframeResult>) returns (a: TfAlignment)
    ensures a == AlignmentOf(rs)
  {
    if |rs| == 0 {
      return NoTimeframes;
    }
    var trend, momentum := CollectSignals(rs);
    var t := SignalAlignment(trend);
    var m := SignalAlignment(momentum);
    var score := (t + m) / 2.0;
    a := TfAlignment(score > 0.7, score, t, m, PrimarySignal(trend), |rs|);
  }

  // ------------------------------------------------------- indicator table

  datatype RowName = RsiRow | BollingerRow
  datatype TableRow = TableRow(name: RowName, value: real, signal: Sentiment, strength: nat)

  /** The RSI row: BULLISH below 30, BEARISH above 70; strength 8 when RSI
      is more than 20 away from 50, else 5. */
  function RsiRowOf(rsi: real): TableRow {
    TableRow(RsiRow, rsi, if rsi < 30.0 then Bullish else if rsi > 70.0 then Bearish else Neutral,
             if Abs(rsi - 50.0) > 20.0 then 8 else 5)
  }

  /** Strength 8 marks exactly the rows with a direction. */
  lemma {:induction false} RsiRowMeaning(rsi: real)
    ensures RsiRowOf(rsi).strength == 8 <==> RsiRowOf(rsi).signal != Neutral
    ensures RsiRowOf(rsi).strength in {5, 8}
    ensures RsiRowOf(rsi).signal == Bullish <==> rsi < 30.0
    ensures RsiRowOf(rsi).signal == Bearish <==> rsi > 70.0
  {
  }

  /** Position of the close within the bands; 0.5 when the band width is
      not positive. */
  function BandPosition(close: real, b: Bands): real {
    if b.upper - b.lower > 0.0 then (close - b.lower) / (b.upper - b.lower) else 0.5
  }

  /** The Bollinger row: BEARISH above 0.8 of the band, BULLISH below 0.2,
      strength 5. */
  function BollingerRowOf(close: real, b: Bands): TableRow {
    var pos := BandPosition(close, b);
    TableRow(BollingerRow, pos, if pos > 0.8 then Bearish else if pos < 0.2 then Bullish else Neutral, 5)
  }

  /** On a band of positive width the signal compares the close with the
      band's 80% and 20% levels; on a flat or inverted band it is NEUTRAL. */
  lemma {:induction false} BollingerRowMeaning(close: real, b: Bands)
    ensures b.upper - b.lower <= 0.0 ==> BollingerRowOf(close, b).signal == Neutral
    ensures b.upper - b.lower > 0.0 ==>
      (BollingerRowOf(close, b).signal == Bearish <==> close > b.lower + 0.8 * (b.upper - b.lower)) &&
      (BollingerRowOf(close, b).signal == Bullish <==> close < b.lower + 0.2 * (b.upper - b.lower))
  {
    var w := b.upper - b.lower;
    if w > 0.0 {
      assert DivGreater(close - b.lower, w, 0.8) <==> (close - b.lower) / w > 0.8;
      assert DivLess(close - b.lower, w, 0.2) <==> (close - b.lower) / w < 0.2;
    }
  }

  /** The RSI and Bollinger rows of get_indicator_table: each present when
      its indicator is; the Bollinger row also needs the latest close. */
  function IndicatorRows(r: IndicatorResult): seq<TableRow> {
    if r.Computed? && r.indicators.Some? then
      [RsiRowOf(r.indicators.value.rsi), BollingerRowOf(r.latestClose, r.indicators.value.bands)]
    else []
  }
}
