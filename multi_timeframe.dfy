/** Multi-timeframe confluence (src/analysis/multi_timeframe.py): the
    per-timeframe analyses, their alignment, the weighted dominant class, the
    overall confidence and the suggestion list. */
module MultiTimeframe {
  import opened Common
  import opened Signals
  import opened Regime
  import opened SentimentEngine
  import SmcSignal

  /** MTF_WEIGHTS: the daily frame weighs most. */
  const MtfWeights: map<string, real> := map["M15" := 0.10, "H1" := 0.20, "H4" := 0.30, "D1" := 0.40]

  /** The weight of a timeframe; one outside the table weighs 0.25. */
  function TimeframeWeight(tf: string): (w: real)
    ensures 0.10 <= w <= 0.40
  {
    if tf in MtfWeights then MtfWeights[tf] else 0.25
  }

  /** One entry of the input dictionary: the timeframe, its bars (None for a
      missing frame) and the indicator readings the engine is given. */
  datatype TimeframeInput = TimeframeInput(timeframe: string, bars: Option<seq<Bar>>, tech: TechSignals, ind: IndicatorValues)

  /** One analysed timeframe. */
  datatype Frame = Frame(timeframe: string, result: SentimentResult)

  predicate Usable(input: TimeframeInput) {
    input.bars.Some? && |input.bars.value| > 0
  }

  /** The timeframes that are analysed, in input order. */
  function UsableNames(inputs: seq<TimeframeInput>): seq<string> {
    if |inputs| == 0 then []
    else UsableNames(inputs[..|inputs| - 1]) + (if Usable(inputs[|inputs| - 1]) then [inputs[|inputs| - 1].timeframe] else [])
  }

  function Names(frames: seq<Frame>): (r: seq<string>)
    ensures |r| == |frames|
  {
    seq(|frames|, k requires 0 <= k < |frames| => frames[k].timeframe)
  }

  function Sentiments(frames: seq<Frame>): (r: seq<Sentiment>)
    ensures |r| == |frames|
  {
    seq(|frames|, k requires 0 <= k < |frames| => frames[k].result.sentiment)
  }

  predicate DistinctNames(inputs: seq<TimeframeInput>) {
    forall i, j :: 0 <= i < j < |inputs| ==> inputs[i].timeframe != inputs[j].timeframe
  }

  // -------------------------------------------------------------- alignment

  datatype AlignmentReport = AlignmentReport(aligned: bool, score: real, sentiment: Sentiment,
                                             bullish: nat, bearish: nat, neutral: nat, total: nat)

  function MaxN(a: nat, b: nat): nat { if a >= b then a else b }

  /** _calculate_alignment over the per-timeframe sentiments: the share of
      the largest class, aligned from 0.7, the class named being the first of
      BULLISH, BEARISH, NEUTRAL to reach the largest count. The empty case
      reports no alignment and score 0. */
  function Alignment(ss: seq<Sentiment>): AlignmentReport {
    if |ss| == 0 then AlignmentReport(false, 0.0, Neutral, 0, 0, 0, 0)
    else
      var b, br, n := Count(ss, Bullish), Count(ss, Bearish), Count(ss, Neutral);
      var m := MaxN(MaxN(b, br), n);
      var score := Fraction(m, |ss|);
      AlignmentReport(score >= 0.7, score, if b == m then Bullish else if br == m then Bearish else Neutral,
                      b, br, n, |ss|)
  }

  lemma {:induction false} CountPartition(ss: seq<Sentiment>)
    ensures Count(ss, Bullish) + Count(ss, Bearish) + Count(ss, Neutral) == |ss|
  {
    if |ss| > 0 {
      var init := ss[..|ss| - 1];
      CountPartition(init);
      assert ss == init + [ss[|ss| - 1]];
      CountAppend(init, ss[|ss| - 1], Bullish);
      CountAppend(init, ss[|ss| - 1], Bearish);
      CountAppend(init, ss[|ss| - 1], Neutral);
      match ss[|ss| - 1]
      case Bullish =>
      case Bearish =>
      case Neutral =>
    }
  }

  /** The counts partition the timeframes and the named class holds the
      largest count, every class before it holding less. */
  lemma {:induction false} AlignmentCounts(ss: seq<Sentiment>)
    requires |ss| > 0
    ensures var a := Alignment(ss);
      var m := MaxN(MaxN(a.bullish, a.bearish), a.neutral);
      a.bullish + a.bearish + a.neutral == a.total == |ss| &&
      Count(ss, a.sentiment) == m &&
      (a.sentiment != Bullish ==> a.bullish < m) &&
      (a.sentiment == Neutral ==> a.bearish < m)
  {
    CountPartition(ss);
  }

  /** The score is the largest count's share of the timeframes (see
      Fraction), in (0, 1], and aligned means a share of at least 0.7. */
  lemma {:induction false} AlignmentScore(ss: seq<Sentiment>)
    requires |ss| > 0
    ensures Alignment(ss).score == Fraction(MaxN(MaxN(Count(ss, Bullish), Count(ss, Bearish)), Count(ss, Neutral)), |ss|)
    ensures 0.0 < Alignment(ss).score <= 1.0
    ensures Alignment(ss).aligned <==> Alignment(ss).score >= 0.7
  {
    CountPartition(ss);
    var m := MaxN(MaxN(Count(ss, Bullish), Count(ss, Bearish)), Count(ss, Neutral));
    PositiveShare(m, |ss|);
  }

  lemma {:induction false} PositiveShare(part: nat, total: nat)
    requires 0 < part <= total
    ensures Fraction(part, total) * (total as real) == part as real
    ensures 0.0 < Fraction(part, total) <= 1.0
  {
  }

  /** The score is 1 exactly when every timeframe has the same sentiment. */
  lemma {:induction false} FullAlignmentMeansUnanimous(ss: seq<Sentiment>)
    requires |ss| > 0
    ensures Alignment(ss).score == 1.0 <==> forall k :: 0 <= k < |ss| ==> ss[k] == ss[0]
  {
    var a := Alignment(ss);
    var m := MaxN(MaxN(a.bullish, a.bearish), a.neutral);
    assert a.score == 1.0 <==> m == |ss|;
    if forall k :: 0 <= k < |ss| ==> ss[k] == ss[0] {
      CountAll(ss, ss[0]);
      assert Count(ss, ss[0]) == |ss|;
    }
    if m == |ss| {
      var x := if a.bullish == m then Bullish else if a.bearish == m then Bearish else Neutral;
      assert Count(ss, x) == |ss|;
      CountAll(ss, x);
    }
  }

  // ------------------------------------------------------ dominant sentiment

  /** One timeframe's weighted vote. */
  function Vote(f: Frame): real {
    TimeframeWeight(f.timeframe) * f.result.confidence
  }

  /** Summed weighted votes of the timeframes with sentiment `s`. */
  function VotesFor(frames: seq<Frame>, s: Sentiment): real {
    if |frames| == 0 then 0.0
    else
      var last := frames[|frames| - 1];
      VotesFor(frames[..|frames| - 1], s) + (if last.result.sentiment == s then Vote(last) else 0.0)
  }

  /** Summed weighted votes of all timeframes. */
  function AllVotes(frames: seq<Frame>): real {
    if |frames| == 0 then 0.0 else AllVotes(frames[..|frames| - 1]) + Vote(frames[|frames| - 1])
  }

  function TotalWeight(frames: seq<Frame>): (r: real)
    ensures r >= 0.0
    ensures |frames| > 0 ==> r > 0.0
  {
    if |frames| == 0 then 0.0 else TotalWeight(frames[..|frames| - 1]) + TimeframeWeight(frames[|frames| - 1].timeframe)
  }

  datatype Dominant = Dominant(sentiment: Sentiment, score: real, scores: Scores)

  function ScoreOf(sc: Scores, s: Sentiment): real {
    match s
    case Bullish => sc.bullish
    case Bearish => sc.bearish
    case Neutral => sc.neutral
  }

  /** The normalised class scores. */
  function DominantScores(frames: seq<Frame>): Scores {
    var t := TotalWeight(frames);
    var b, br, n := VotesFor(frames, Bullish), VotesFor(frames, Bearish), VotesFor(frames, Neutral);
    if t > 0.0 then Scores(b / t, br / t, n / t) else Scores(b, br, n)
  }

  /** _get_dominant_sentiment: the class with the largest normalised score,
      the first of BULLISH, BEARISH, NEUTRAL on a tie. */
  function DominantOf(frames: seq<Frame>): (d: Dominant)
    ensures d.scores == DominantScores(frames)
    ensures d.score == ScoreOf(d.scores, d.sentiment)
    ensures d.score >= d.scores.bullish && d.score >= d.scores.bearish && d.score >= d.scores.neutral
    ensures d.sentiment == Bearish ==> d.scores.bullish < d.scores.bearish
    ensures d.sentiment == Neutral ==> d.scores.bullish < d.scores.neutral && d.scores.bearish < d.scores.neutral
  {
    var sc := DominantScores(frames);
    if sc.bearish > sc.bullish && sc.bearish >= sc.neutral then Dominant(Bearish, sc.bearish, sc)
    else if sc.neutral > sc.bullish && sc.neutral > sc.bearish then Dominant(Neutral, sc.neutral, sc)
    else Dominant(Bullish, sc.bullish, sc)
  }

  lemma {:induction false} VotesForAppend(frames: seq<Frame>, f: Frame, s: Sentiment)
    ensures VotesFor(frames + [f], s) == VotesFor(frames, s) + (if f.result.sentiment == s then Vote(f) else 0.0)
    ensures AllVotes(frames + [f]) == AllVotes(frames) + Vote(f)
    ensures TotalWeight(frames + [f]) == TotalWeight(frames) + TimeframeWeight(f.timeframe)
  {
    assert (frames + [f])[..|frames|] == frames;
  }

  /** The weighted vote loop of _get_dominant_sentiment. */
  method WeightedVotes(frames: seq<Frame>) returns (bull: real, bear: real, neutral: real, total: real)
    ensures bull == VotesFor(frames, Bullish) && bear == VotesFor(frames, Bearish)
    ensures neutral == VotesFor(frames, Neutral) && total == TotalWeight(frames)
  {
    bull, bear, neutral, total := 0.0, 0.0, 0.0, 0.0;
    for i := 0 to |frames|
      invariant bull == VotesFor(frames[..i], Bullish)
      invariant bear == VotesFor(frames[..i], Bearish)
      invariant neutral == VotesFor(frames[..i], Neutral)
      invariant total == TotalWeight(frames[..i])
    {
      var f := frames[i];
      assert frames[..i + 1] == frames[..i] + [f];
      VotesForAppend(frames[..i], f, Bullish);
      VotesForAppend(frames[..i], f, Bearish);
      VotesForAppend(frames[..i], f, Neutral);
      var v := Vote(f);
      match f.result.sentiment {
        case Bullish => bull := bull + v;
        case Bearish => bear := bear + v;
        case Neutral => neutral := neutral + v;
      }
      total := total + TimeframeWeight(f.timeframe);
    }
    assert frames[..|frames|] == frames;
  }

  /** _get_dominant_sentiment: the weighted votes, their normalisation and
      the choice of the largest score. */
  method GetDominant(frames: seq<Frame>) returns (d: Dominant)
    ensures d == DominantOf(frames)
  {
    var bull, bear, neutral, total := WeightedVotes(frames);
    if total > 0.0 {
      bull, bear, neutral := bull / total, bear / total, neutral / total;
    }
    assert Scores(bull, bear, neutral) == DominantScores(frames);
    var best, bestScore := Bullish, bull;
    if bear > bestScore {
      best, bestScore := Bearish, bear;
    }
    if neutral > bestScore {
      best, bestScore := Neutral, neutral;
    }
    d := Dominant(best, bestScore, Scores(bull, bear, neutral));
  }

  lemma {:induction false} VotesPartition(frames: seq<Frame>)
    ensures VotesFor(frames, Bullish) + VotesFor(frames, Bearish) + VotesFor(frames, Neutral) == AllVotes(frames)
  {
    if |frames| > 0 {
      VotesPartition(frames[..|frames| - 1]);
    }
  }

  lemma {:induction false} DivSum(a: real, b: real, c: real, t: real)
    requires t != 0.0
    ensures a / t + b / t + c / t == (a + b + c) / t
  {
  }

  /** The weighted mean confidence over the timeframes. */
  function BaseConfidence(frames: seq<Frame>): real {
    if TotalWeight(frames) > 0.0 then AllVotes(frames) / TotalWeight(frames) else 0.0
  }

  /** The three dominant scores add up to the weighted mean confidence. */
  lemma {:induction false} DominantScoresSum(frames: seq<Frame>)
    requires |frames| > 0
    ensures var sc := DominantScores(frames);
      sc.bullish + sc.bearish + sc.neutral == BaseConfidence(frames)
  {
    VotesPartition(frames);
    DivSum(VotesFor(frames, Bullish), VotesFor(frames, Bearish), VotesFor(frames, Neutral), TotalWeight(frames));
  }

  // ----------------------------------------------------- overall confidence

  /** _calculate_overall_confidence: the weighted mean confidence plus 15%
      of the alignment score, capped at 1; 0 without timeframes. */
  function OverallOf(frames: seq<Frame>, alignment: AlignmentReport): real {
    if |frames| == 0 then 0.0 else MinR(BaseConfidence(frames) + alignment.score * 0.15, 1.0)
  }

  method OverallConfidence(frames: seq<Frame>, alignment: AlignmentReport) returns (c: real)
    ensures c == OverallOf(frames, alignment)
  {
    if |frames| == 0 {
      return 0.0;
    }
    var weighted, total := 0.0, 0.0;
    for i := 0 to |frames|
      invariant weighted == AllVotes(frames[..i])
      invariant total == TotalWeight(frames[..i])
    {
      var f := frames[i];
      assert frames[..i + 1] == frames[..i] + [f];
      VotesForAppend(frames[..i], f, Neutral);
      weighted := weighted + Vote(f);
      total := total + TimeframeWeight(f.timeframe);
    }
    assert frames[..|frames|] == frames;
    var base := if total > 0.0 then weighted / total else 0.0;
    c := MinR(base + alignment.score * 0.15, 1.0);
  }

  predicate ConfidencesInRange(frames: seq<Frame>) {
    forall k :: 0 <= k < |frames| ==> 0.0 <= frames[k].result.confidence <= 1.0
  }

  lemma {:induction false} VotesWithinWeights(frames: seq<Frame>)
    requires ConfidencesInRange(frames)
    ensures 0.0 <= AllVotes(frames) <= TotalWeight(frames)
  {
    if |frames| > 0 {
      var init := frames[..|frames| - 1];
      var f := frames[|frames| - 1];
      assert ConfidencesInRange(init) by {
        forall k | 0 <= k < |init| ensures init[k] == frames[k] { }
      }
      VotesWithinWeights(init);
      ScaleBounds(TimeframeWeight(f.timeframe), f.result.confidence);
    }
  }

  /** With confidences in [0, 1] the weighted mean lies in [0, 1], and the
      overall confidence lies between it and 1 (the alignment bonus never
      lowers it). */
  lemma {:induction false} OverallBounds(frames: seq<Frame>, alignment: AlignmentReport)
    requires |frames| > 0 && ConfidencesInRange(frames) && 0.0 <= alignment.score <= 1.0
    ensures 0.0 <= BaseConfidence(frames) <= 1.0
    ensures BaseConfidence(frames) <= OverallOf(frames, alignment) <= 1.0
  {
    VotesWithinWeights(frames);
    var t := TotalWeight(frames);
    assert !DivGreater(AllVotes(frames), t, 1.0);
    assert !DivLess(AllVotes(frames), t, 0.0);
    ScaleBounds(alignment.score, 0.15);
  }

  // ------------------------------------------------------------ suggestions

  datatype Suggestion =
    | StrongConfluence(bias: Sentiment)
    | ConsiderLongs
    | ConsiderShorts
    | WaitForDirection
    | ReducePositionSize
    | HigherTimeframesConfirm(bias: Sentiment)
    | LowerTimeframeEntry
    | UseTightStops

  /** The result recorded for a timeframe, if it was analysed. */
  function Lookup(frames: seq<Frame>, tf: string): (r: Option<SentimentResult>)
    ensures r.Some? ==> exists k :: 0 <= k < |frames| && frames[k].timeframe == tf && frames[k].result == r.value
    ensures r.None? ==> forall k :: 0 <= k < |frames| ==> frames[k].timeframe != tf
  {
    if |frames| == 0 then None
    else if frames[0].timeframe == tf then Some(frames[0].result)
    else Lookup(frames[1..], tf)
  }

  /** The sentiments of D1 then H4, for those present. */
  function HigherSentiments(frames: seq<Frame>): (r: seq<Sentiment>)
    ensures |r| <= 2
  {
    (if Lookup(frames, "D1").Some? then [Lookup(frames, "D1").value.sentiment] else []) +
    (if Lookup(frames, "H4").Some? then [Lookup(frames, "H4").value.sentiment] else [])
  }

  /** The risk a timeframe reports; an error record has none and reads as
      MEDIUM. */
  function FrameRisk(r: SentimentResult): RiskLevel {
    if r.Analysed? then r.risk else MediumRisk
  }

  predicate AnyHighRisk(frames: seq<Frame>) {
    exists k :: 0 <= k < |frames| && FrameRisk(frames[k].result) == HighRisk
  }

  function ConfluenceLines(alignment: AlignmentReport, dominant: Dominant): seq<Suggestion> {
    if alignment.aligned && dominant.score > 0.70 then
      [StrongConfluence(dominant.sentiment)] +
      (if dominant.sentiment == Bullish then [ConsiderLongs]
       else if dominant.sentiment == Bearish then [ConsiderShorts]
       else [])
    else if !alignment.aligned then [WaitForDirection, ReducePositionSize]
    else []
  }

  function HigherLines(frames: seq<Frame>, dominant: Dominant): seq<Suggestion> {
    var hs := HigherSentiments(frames);
    if |hs| > 0 && forall k :: 0 <= k < |hs| ==> hs[k] == dominant.sentiment then [HigherTimeframesConfirm(dominant.sentiment)]
    else []
  }

  /** The entry-timing line reads M15 when present, else H1. */
  function LowerLines(frames: seq<Frame>, dominant: Dominant): seq<Suggestion> {
    var lower := if Lookup(frames, "M15").Some? then Lookup(frames, "M15") else Lookup(frames, "H1");
    if lower.Some? && lower.value.sentiment == dominant.sentiment then [LowerTimeframeEntry] else []
  }

  function RiskLines(frames: seq<Frame>): seq<Suggestion> {
    if AnyHighRisk(frames) then [UseTightStops] else []
  }

  function AllSuggestions(frames: seq<Frame>, alignment: AlignmentReport, dominant: Dominant): seq<Suggestion> {
    ConfluenceLines(alignment, dominant) + HigherLines(frames, dominant) + LowerLines(frames, dominant) + RiskLines(frames)
  }

  /** Whether some timeframe reports HIGH risk, by a scan. */
  method ScanHighRisk(frames: seq<Frame>) returns (found: bool)
    ensures found <==> AnyHighRisk(frames)
  {
    found := false;
    for i := 0 to |frames|
      invariant found <==> exists k :: 0 <= k < i && FrameRisk(frames[k].result) == HighRisk
    {
      if FrameRisk(frames[i].result) == HighRisk {
        found := true;
      }
    }
  }

  /** The alignment-based lines. */
  method AlignmentSuggestions(alignment: AlignmentReport, dominant: Dominant) returns (lines: seq<Suggestion>)
    ensures lines == ConfluenceLines(alignment, dominant)
  {
    lines := [];
    if alignment.aligned && dominant.score > 0.70 {
      lines := lines + [StrongConfluence(dominant.sentiment)];
      if dominant.sentiment == Bullish {
        lines := lines + [ConsiderLongs];
      } else if dominant.sentiment == Bearish {
        lines := lines + [ConsiderShorts];
      }
    } else if !alignment.aligned {
      lines := lines + [WaitForDirection, ReducePositionSize];
    }
  }

  /** The higher-timeframe, entry-timing and risk lines. */
  method TimeframeSuggestions(frames: seq<Frame>, dominant: Dominant) returns (lines: seq<Suggestion>)
    ensures lines == HigherLines(frames, dominant) + LowerLines(frames, dominant) + RiskLines(frames)
  {
    lines := [];
    var sentiment := dominant.sentiment;
    var higher := HigherSentiments(frames);
    if |higher| > 0 && forall k :: 0 <= k < |higher| ==> higher[k] == sentiment {
      lines := lines + [HigherTimeframesConfirm(sentiment)];
    }
    assert lines == HigherLines(frames, dominant);
    var m15, h1 := Lookup(frames, "M15"), Lookup(frames, "H1");
    if m15.Some? || h1.Some? {
      var lower := if m15.Some? then m15 else h1;
      if lower.value.sentiment == sentiment {
        lines := lines + [LowerTimeframeEntry];
      }
    }
    assert lines == HigherLines(frames, dominant) + LowerLines(frames, dominant);
    var high := ScanHighRisk(frames);
    if high {
      lines := lines + [UseTightStops];
    }
  }

  /** _generate_suggestions: the lines in their fixed order, then the first
      five. */
  method GenerateSuggestions(frames: seq<Frame>, alignment: AlignmentReport, dominant: Dominant)
    returns (suggestions: seq<Suggestion>)
    ensures suggestions == Take(AllSuggestions(frames, alignment, dominant), 5)
  {
    var a := AlignmentSuggestions(alignment, dominant);
    var t := TimeframeSuggestions(frames, dominant);
    suggestions := a + t;
    assert suggestions == AllSuggestions(frames, alignment, dominant);
    suggestions := Take(suggestions, 5);
  }

  /** There are never more than five lines, so the cap removes nothing. */
  lemma {:induction false} SuggestionsCapped(frames: seq<Frame>, alignment: AlignmentReport, dominant: Dominant)
    ensures var all := AllSuggestions(frames, alignment, dominant);
      |all| <= 5 && Take(all, 5) == all
  {
    assert |ConfluenceLines(alignment, dominant)| <= 2;
  }

  /** The confluence line appears exactly when aligned with a dominant score
      above 0.70, followed by "consider longs" for a bullish and "consider
      shorts" for a bearish dominant class; the mixed-signal lines exactly
      when not aligned; the higher-timeframe line exactly when D1/H4 are
      present and all agree with the dominant class; the entry-timing line
      exactly when M15 (or, without M15, H1) is present and agrees with the
      dominant class; and the tight-stops line exactly when some timeframe
      reports HIGH risk. */
  lemma {:induction false} SuggestionsMeaning(frames: seq<Frame>, alignment: AlignmentReport, dominant: Dominant)
    ensures var all := AllSuggestions(frames, alignment, dominant);
      (StrongConfluence(dominant.sentiment) in all <==> alignment.aligned && dominant.score > 0.70) &&
      (ConsiderLongs in all <==> alignment.aligned && dominant.score > 0.70 && dominant.sentiment == Bullish) &&
      (ConsiderShorts in all <==> alignment.aligned && dominant.score > 0.70 && dominant.sentiment == Bearish) &&
      (WaitForDirection in all <==> !alignment.aligned) &&
      (ReducePositionSize in all <==> !alignment.aligned) &&
      (HigherTimeframesConfirm(dominant.sentiment) in all <==>
        |HigherSentiments(frames)| > 0 && forall k :: 0 <= k < |HigherSentiments(frames)| ==> HigherSentiments(frames)[k] == dominant.sentiment) &&
      (LowerTimeframeEntry in all <==>
        if Lookup(frames, "M15").Some? then Lookup(frames, "M15").value.sentiment == dominant.sentiment
        else Lookup(frames, "H1").Some? && Lookup(frames, "H1").value.sentiment == dominant.sentiment) &&
      (UseTightStops in all <==> AnyHighRisk(frames))
  {
    var c := ConfluenceLines(alignment, dominant);
    var h := HigherLines(frames, dominant);
    var l := LowerLines(frames, dominant);
    var r := RiskLines(frames);
    ConfluenceMembers(alignment, dominant);
    InParts(UseTightStops, c, h, l, r);
    InParts(WaitForDirection, c, h, l, r);
    InParts(ReducePositionSize, c, h, l, r);
    InParts(StrongConfluence(dominant.sentiment), c, h, l, r);
    InParts(HigherTimeframesConfirm(dominant.sentiment), c, h, l, r);
    InParts(ConsiderLongs, c, h, l, r);
    InParts(ConsiderShorts, c, h, l, r);
    InParts(LowerTimeframeEntry, c, h, l, r);
  }

  /** Which lines the alignment-based group holds. */
  lemma {:induction false} ConfluenceMembers(alignment: AlignmentReport, dominant: Dominant)
    ensures var c := ConfluenceLines(alignment, dominant);
      (StrongConfluence(dominant.sentiment) in c <==> alignment.aligned && dominant.score > 0.70) &&
      (WaitForDirection in c <==> !alignment.aligned) &&
      (ReducePositionSize in c <==> !alignment.aligned) &&
      (ConsiderLongs in c <==> alignment.aligned && dominant.score > 0.70 && dominant.sentiment == Bullish) &&
      (ConsiderShorts in c <==> alignment.aligned && dominant.score > 0.70 && dominant.sentiment == Bearish) &&
      HigherTimeframesConfirm(dominant.sentiment) !in c && LowerTimeframeEntry !in c && UseTightStops !in c
  {
  }

  /** A line is among the suggestions exactly when one group holds it. */
  lemma {:induction false} InParts(x: Suggestion, c: seq<Suggestion>, h: seq<Suggestion>, l: seq<Suggestion>, r: seq<Suggestion>)
    ensures x in c + h + l + r <==> x in c || x in h || x in l || x in r
  {
    assert c + h + l + r == c + (h + (l + r));
  }

  // ------------------------------------------------------------ the analysis

  datatype MtfReport = MtfReport(frames: seq<Frame>, alignment: AlignmentReport, dominant: Dominant,
                                 overall: real, suggestions: seq<Suggestion>)

  /** Every frame is an analysis with its confidence in [0, 1]. */
  predicate AnalysedFrames(frames: seq<Frame>) {
    forall k :: 0 <= k < |frames| ==> frames[k].result.Analysed? && 0.0 <= frames[k].result.confidence <= 1.0
  }

  /** One timeframe through the sentiment engine; only usable timeframes
      are ever analysed, and those come out as analyses. */
  function FrameOf(input: TimeframeInput, settings: RegimeSettings): (f: Frame)
    ensures f.timeframe == input.timeframe
    ensures Usable(input) ==> f.result.Analysed? && 0.0 <= f.result.confidence <= 1.0
  {
    Frame(input.timeframe, SentimentOf(input.bars.GetOr([]), input.tech, input.ind, settings))
  }

  /** The images under `g` of the usable inputs, in input order. */
  function MapUsable<T>(inputs: seq<TimeframeInput>, g: TimeframeInput -> T): seq<T> {
    if |inputs| == 0 then []
    else
      var n := |inputs| - 1;
      MapUsable(inputs[..n], g) + (if Usable(inputs[n]) then [g(inputs[n])] else [])
  }

  /** Everything MapUsable yields is the image of a usable input. */
  lemma {:induction false} MapUsableFrom<T>(inputs: seq<TimeframeInput>, g: TimeframeInput -> T, y: T) returns (i: nat)
    requires y in MapUsable(inputs, g)
    ensures i < |inputs| && Usable(inputs[i]) && y == g(inputs[i])
  {
    var n := |inputs| - 1;
    var pre := inputs[..n];
    var tail := if Usable(inputs[n]) then [g(inputs[n])] else [];
    InConcat(y, MapUsable(pre, g), tail);
    if y in MapUsable(pre, g) {
      i := MapUsableFrom(pre, g, y);
      assert pre[i] == inputs[i];
    } else {
      i := n;
    }
  }

  /** Every usable input's image is yielded. */
  lemma {:induction false} MapUsableHas<T>(inputs: seq<TimeframeInput>, g: TimeframeInput -> T, i: nat)
    requires i < |inputs| && Usable(inputs[i])
    ensures g(inputs[i]) in MapUsable(inputs, g)
  {
    var n := |inputs| - 1;
    var pre := inputs[..n];
    var tail := if Usable(inputs[n]) then [g(inputs[n])] else [];
    if i < n {
      assert pre[i] == inputs[i];
      MapUsableHas(pre, g, i);
    }
    InConcat(g(inputs[i]), MapUsable(pre, g), tail);
  }

  /** The frames of the usable timeframes, in input order. */
  function FramesOf(inputs: seq<TimeframeInput>, settings: RegimeSettings): seq<Frame> {
    MapUsable(inputs, x => FrameOf(x, settings))
  }

  /** Exactly the usable timeframes are analysed, in input order, each with
      a confidence in [0, 1]. */
  lemma {:induction false} FramesOfShape(inputs: seq<TimeframeInput>, settings: RegimeSettings)
    ensures Names(FramesOf(inputs, settings)) == UsableNames(inputs)
    ensures AnalysedFrames(FramesOf(inputs, settings))
  {
    if |inputs| > 0 {
      var n := |inputs| - 1;
      var tail := if Usable(inputs[n]) then [FrameOf(inputs[n], settings)] else [];
      assert FramesOf(inputs, settings) == FramesOf(inputs[..n], settings) + tail;
      FramesOfShape(inputs[..n], settings);
      FramesStep(inputs, n, FramesOf(inputs[..n], settings), tail);
      assert inputs[..n + 1] == inputs;
    }
  }

  lemma {:induction false} NamesAppend(frames: seq<Frame>, f: Frame)
    ensures Names(frames + [f]) == Names(frames) + [f.timeframe]
  {
  }

  /** Appending the next input's frame, if it has one, keeps the names and
      the analysed shape. */
  lemma {:induction false} FramesStep(inputs: seq<TimeframeInput>, i: nat, frames: seq<Frame>, tail: seq<Frame>)
    requires i < |inputs|
    requires Names(frames) == UsableNames(inputs[..i]) && AnalysedFrames(frames)
    requires |tail| <= 1 && (|tail| == 1 <==> Usable(inputs[i]))
    requires |tail| == 1 ==> tail[0].timeframe == inputs[i].timeframe &&
                             tail[0].result.Analysed? && 0.0 <= tail[0].result.confidence <= 1.0
    ensures Names(frames + tail) == UsableNames(inputs[..i + 1])
    ensures AnalysedFrames(frames + tail)
  {
    var pre := inputs[..i + 1];
    assert pre[..i] == inputs[..i];
    assert pre[i] == inputs[i];
    if |tail| == 1 {
      NamesAppend(frames, tail[0]);
      assert tail == [tail[0]];
    } else {
      assert frames + tail == frames;
    }
  }

  /** Every frame is the sentiment engine's analysis of a usable input, and
      every usable input is analysed. */
  lemma {:induction false} FramesOfMeaning(inputs: seq<TimeframeInput>, settings: RegimeSettings)
    ensures forall f :: f in FramesOf(inputs, settings) ==>
      exists i :: 0 <= i < |inputs| && Usable(inputs[i]) && f == FrameOf(inputs[i], settings)
    ensures forall i :: 0 <= i < |inputs| && Usable(inputs[i]) ==> FrameOf(inputs[i], settings) in FramesOf(inputs, settings)
  {
    var g := x => FrameOf(x, settings);
    forall f | f in FramesOf(inputs, settings)
      ensures exists i :: 0 <= i < |inputs| && Usable(inputs[i]) && f == FrameOf(inputs[i], settings)
    {
      var i := MapUsableFrom(inputs, g, f);
      assert f == FrameOf(inputs[i], settings);
    }
    forall i | 0 <= i < |inputs| && Usable(inputs[i])
      ensures FrameOf(inputs[i], settings) in FramesOf(inputs, settings)
    {
      MapUsableHas(inputs, g, i);
    }
  }

  /** One usable timeframe through the sentiment engine. */
  method AnalyzeFrame(input: TimeframeInput, settings: RegimeSettings) returns (f: Frame)
    requires Usable(input)
    ensures f.timeframe == input.timeframe
    ensures f.result.Analysed? && 0.0 <= f.result.confidence <= 1.0
    ensures f.result.sentiment == Aggregate(input.tech, SmcSignal.SmcAnalysisOf(input.bars.value)).sentiment
    ensures f.result.price == input.bars.value[|input.bars.value| - 1].close
    ensures f == FrameOf(input, settings)
  {
    var result := AnalyzeSentiment(input.bars.value, input.tech, input.ind, settings);
    f := Frame(input.timeframe, result);
  }

  /** The analysis loop: every usable timeframe is analysed, in input
      order. */
  method AnalyzeFrames(inputs: seq<TimeframeInput>, settings: RegimeSettings) returns (frames: seq<Frame>)
    ensures Names(frames) == UsableNames(inputs)
    ensures AnalysedFrames(frames)
    ensures frames == FramesOf(inputs, settings)
  {
    frames := [];
    for i := 0 to |inputs|
      invariant frames == FramesOf(inputs[..i], settings)
    {
      assert inputs[..i + 1][..i] == inputs[..i];
      if Usable(inputs[i]) {
        var g := AnalyzeFrame(inputs[i], settings);
        frames := frames + [g];
      }
    }
    assert inputs[..|inputs|] == inputs;
    FramesOfShape(inputs, settings);
  }

  /** analyze_multiple_timeframes: with no usable timeframe the result is
      the error record (None). The timeframe keys of a dictionary are
      distinct. */
  method AnalyzeMultipleTimeframes(inputs: seq<TimeframeInput>, settings: RegimeSettings) returns (report: Option<MtfReport>)
    requires DistinctNames(inputs)
    ensures report.None? <==> |UsableNames(inputs)| == 0
    ensures report.Some? ==>
      var r := report.value;
      r.frames == FramesOf(inputs, settings) &&
      Names(r.frames) == UsableNames(inputs) &&
      AnalysedFrames(r.frames) &&
      r.alignment == Alignment(Sentiments(r.frames)) &&
      r.dominant == DominantOf(r.frames) &&
      r.overall == OverallOf(r.frames, r.alignment) &&
      r.suggestions == Take(AllSuggestions(r.frames, r.alignment, r.dominant), 5)
  {
    var frames := AnalyzeFrames(inputs, settings);
    if |frames| == 0 {
      return None;
    }
    var alignment := Alignment(Sentiments(frames));
    var dominant := GetDominant(frames);
    var overall := OverallConfidence(frames, alignment);
    var suggestions := GenerateSuggestions(frames, alignment, dominant);
    report := Some(MtfReport(frames, alignment, dominant, overall, suggestions));
  }
}
