# SMCBV2 market-analysis pipeline, modelled in Dafny

SMCBV2 is a trading assistant for MetaTrader 5. It reads OHLCV bars, checks and cleans them, and derives indicators. It then runs a Smart Money Concepts (SMC) analysis and merges everything into one market sentiment with a confidence and a risk level. That judgement is then compared across several timeframes. Predictions made this way are scored against what happened next.

This project models that pipeline and proves properties of it:

- `common.dfy` (`Common`): bars, sentiments, `Option`, and float division with IEEE `inf`/`NaN`. It also has `LastN`, `Take`, `Reverse`, `Count` and a descending insertion sort. These stand in for pandas `iloc[-n:]`, slicing and `sorted(..., reverse=True)`.
- `swings.dfy` (`SwingDetection`), `structure.dfy` (`Structure`), `zones.dfy` (`Zones`), `liquidity.dfy` (`Liquidity`) and `smc_signal.dfy` (`SmcSignal`): the SMC analyzer of `src/indicators/smc.py`, covering:
  - swing points;
  - market structure;
  - break of structure (BOS) and change of character (ChoCH);
  - order blocks and fair value gaps;
  - liquidity zones and stop hunts;
  - premium/discount zones;
  - the SMC signal.

  The scanning loops of the source are methods with loop invariants. Each is proved equal to a recursive specification function, and the lemmas state what that function means.
- `signals.dfy` (`Signals`) and `confidence.dfy` (`Confidence`): the signal records and the confidence scorer.
- `regime.dfy` (`Regime`): the regime detector. ADX, the directional indicators and the ATR percentile are given as inputs.
- `sentiment.dfy` (`SentimentEngine`) covers the sentiment engine:
  - signal aggregation;
  - risk level;
  - insights;
  - regime-based confidence sizing;
  - the summary.
- `multi_timeframe.dfy` (`MultiTimeframe`) covers the multi-timeframe analyzer:
  - alignment;
  - the weighted dominant sentiment;
  - overall confidence;
  - suggestions.
- `validator.dfy` (`Validator`): the OHLCV validator. `DataValidator` is a class whose `stats` counters the methods update.
- `calculator.dfy` (`Calculator`): the indicator calculator's result cache (the class `IndicatorCalculator`), timeframe alignment and the indicator table rows.
- `evaluator.dfy` (`Evaluator`): prediction statistics and the rolling accuracy trend.

Prices, confidences and scores are `real`. Timestamps are whole seconds (`int`), and a calendar day is `time / 86400` (Euclidean division).

Behaviours of the code that the model keeps on purpose:

- **Ties and empty inputs.**
  - In sentiment aggregation, a tie goes to BULLISH.
  - Non-decreasing highs give no swing high, and a flat series gives no swings at all. Either way the structure is undefined.
  - A BULLISH structure needs at least three swing highs and three swing lows. BEARISH needs only two of each.
- **Zero range and fill.** A zero or negative swing range puts the price at position 0.5. A fair value gap's fill is recomputed against the last close.
- **What is ignored.** The SMC signal ignores fair value gaps and liquidity. `calculate_confidence` ignores its `smc_signals` argument. An RSI of exactly 0 yields no momentum insight.
- **Caps.** The market-structure insight always survives the cap of five insights. Suggestions never exceed five, so their cap never cuts anything.
- **Swing lookback.** A lookback of 0 falls back to the default of 5.
- **Missing columns.**
  - A table without one of the required columns skips the row checks and scores 100.
  - `clean_ohlcv` counts the call and then fails on such a table.
  - `validate_ohlcv` does not add its issues to the running total on its two early returns.

## Model

| member | source | states |
|---|---|---|
| SwingDetection.EffectiveLookback | src/indicators/smc.py:80-98 | the lookback used is the requested one when positive, and the default 5 when absent or 0 |
| SwingDetection.CheckSwing | src/indicators/smc.py:103-128 | the window scan answers exactly whether bar i is strictly above (below) every neighbour in its left/right window |
| SwingDetection.ScanCandidate | src/indicators/smc.py:103-136 | one loop step yields the swing high and the swing low at index i, or nothing |
| SwingDetection.IdentifySwingPoints | src/indicators/smc.py:80-141 | the returned highs and lows are exactly the swings of the specification, scanned left to right |
| SwingDetection.SwingsValid | src/indicators/smc.py:103-136 | every reported swing is a true swing with the bar's own price, kind and time, in increasing index order |
| SwingDetection.SwingsExact | src/indicators/smc.py:103-136 | bar m is reported if and only if it is a swing (sound and complete) |
| SwingDetection.NeighbourDisqualifies | src/indicators/smc.py:108-128 | a neighbour inside the window that is not beaten strictly rules the bar out |
| SwingDetection.RisingHighsHaveNoSwingHighs | src/indicators/smc.py:103-111 | a series of non-decreasing highs has no swing high |
| SwingDetection.FlatSeriesHasNoSwings | src/indicators/smc.py:103-136 | a flat series has no swings of either kind |
| Structure.HigherCountRising | src/indicators/smc.py:160-168 | the count of higher-than-previous swings is maximal exactly when the swings strictly rise |
| Structure.HigherCountZero | src/indicators/smc.py:160-168 | the count is zero exactly when no swing is above its predecessor |
| Structure.ClassifyStructureMeaning | src/indicators/smc.py:143-188 | undefined iff fewer than two highs or lows; BULLISH iff at least three of each and the last three of both strictly rise; BEARISH iff none of the last three rises; the swings are kept only when defined |
| Structure.MergeIsSortedPermutation | src/indicators/smc.py:202-203 | merging the highs and the lows by index gives a permutation of both, sorted by bar index |
| Structure.ScanEvents | src/indicators/smc.py:205-241 | the scan loop builds exactly the BOS and ChoCH lists of the specification |
| Structure.DetectBosChoch | src/indicators/smc.py:190-246 | the events are those of the merged swings and the structure's trend |
| Structure.EventsMeaning | src/indicators/smc.py:205-244 | at most five of each; a BOS always goes in the defined, non-neutral trend direction; a BOS is raised exactly at a swing from the second on that is a high above the swing just before it (of either kind) under a BULLISH trend, or a low below it under a BEARISH trend; a ChoCH is exactly a change of swing kind from the third swing on |
| Structure.UndefinedHasNoEvents | src/indicators/smc.py:152-158 | an undefined structure produces no events |
| Zones.VolumeStrength | src/indicators/smc.py:272-276 | strength 1.5 exactly when past the fifth bar and volume exceeds 1.5 times the mean of the five before |
| Zones.ScanVolumeStrength | src/indicators/smc.py:272-276 | the averaging loop computes that volume strength |
| Zones.ScanBlockAt | src/indicators/smc.py:258-311 | one step yields the order block at index i, if any |
| Zones.IdentifyOrderBlocks | src/indicators/smc.py:248-314 | the result is the ten latest blocks by time, sorted newest first |
| Zones.OrderBlockAtMeaning | src/indicators/smc.py:258-311 | a block exists exactly for a solid opposite candle followed by an engulfing move; its range is the body and its strength 0.8 or 1.2 by volume |
| Zones.OrderBlocksResult | src/indicators/smc.py:257-314 | at most ten blocks, newest first, each a real block; with increasing bar times it is simply the last ten reversed |
| Zones.DetectGaps | src/indicators/smc.py:325-356 | the three-bar scan returns exactly the gaps of the specification |
| Zones.FillGaps | src/indicators/smc.py:358-366 | every gap's fill is recomputed against the last close |
| Zones.IdentifyFvg | src/indicators/smc.py:318-368 | detection, then fill, then the ten newest; no bars gives the error result |
| Zones.GapAtMeaning | src/indicators/smc.py:328-356 | a gap exists iff the middle bar clears both neighbours upward or downward; its bounds are those neighbours' extremes |
| Zones.ApplyFillMeaning | src/indicators/smc.py:358-366 | the fill lies in [0,1]; a gap stays active exactly when the price is strictly inside it, otherwise it is fully filled |
| Zones.FvgResultMeaning | src/indicators/smc.py:318-368 | at most ten gaps, newest first, each the gap detected around some bar after its fill against the last close, well-formed with fill in [0,1] and active iff the last close is inside |
| Liquidity.FirstMatch | src/indicators/smc.py:385-401 | the first later swing within 0.1% of swing i, or none |
| Liquidity.CountTouches | src/indicators/smc.py:392 | the loop counts the swings within 0.1% of the level |
| Liquidity.FindMatch | src/indicators/smc.py:385-401 | the inner loop finds the first equal later swing |
| Liquidity.ClusterSwings | src/indicators/smc.py:384-401 | the clustering loop yields exactly the specification's zones |
| Liquidity.ZonesFromFacts | src/indicators/smc.py:384-401 | each starting swing opens at most one zone, so a list of n swings gives at most n − 1 zones, each of the scan's kind, well counted and levelled on an equal pair |
| Liquidity.IdentifyLiquidityZones | src/indicators/smc.py:372-422 | resistance zones from swing highs, then support zones from swing lows |
| Liquidity.LiquidityZonesMeaning | src/indicators/smc.py:384-422 | each zone is at the mean of an equal pair of swings, has the right kind and at least two touches, with strength min(touches/5, 1); resistance zones come first, and n swings give at most n − 1 zones of their kind |
| Liquidity.EqualPairOpensZone | src/indicators/smc.py:384-401 | for positive prices a zone opens at swing i exactly when an equal later swing exists |
| Liquidity.DetectStopHunts | src/indicators/smc.py:424-468 | the bar/zone loops return exactly the specification's hunts |
| Liquidity.HuntAtMeaning | src/indicators/smc.py:438-464 | a bearish hunt pierces resistance and closes back with an upper wick over 60% of the range; a bullish hunt mirrors this |
| Liquidity.HuntsAgainstMeaning | src/indicators/smc.py:434-466 | at most five hunts (the last ones found), each from some bar and some zone |
| Liquidity.MaxPrice | src/indicators/smc.py:483 | the highest swing-high price, attained by some swing |
| Liquidity.MinPrice | src/indicators/smc.py:484 | the lowest swing-low price, attained by some swing |
| Liquidity.ClassifyMeaning | src/indicators/smc.py:486-522 | the Fibonacci levels are ordered; premium iff position > 0.618; discount iff < 0.382; BEARISH/BULLISH/NEUTRAL follow the zone; a non-positive range gives position 0.5 |
| Liquidity.PremiumDiscountMeaning | src/indicators/smc.py:470-487 | insufficient data iff no swing highs or lows; otherwise the range is the extreme swing prices and the price is the last close |
| SmcSignal.VoteWeights | src/indicators/smc.py:587-608 | the bullish and bearish weights are the sums of 0.25 for structure, 0.20 for more active blocks and 0.20 for the zone |
| SmcSignal.SmcSignalMeaning | src/indicators/smc.py:609-626 | the signal is the strictly heavier side with that weight as confidence, else NEUTRAL at 0; confidence within [0, 0.65] |
| SmcSignal.Analyze | src/indicators/smc.py:526-574 | the full SMC analysis, failing exactly on an empty series |
| Signals.CountSignalPartition | src/analysis/confidence_scorer.py:75-115 | the bullish, bearish and neutral factor counts add up to the number of factors |
| Signals.Fraction | src/analysis/confidence_scorer.py:89-93 | a share within [0,1] that is 1 exactly for all and 0 exactly for none |
| Confidence.Agreement | src/analysis/confidence_scorer.py:75-95 | 0.5 without factors, else the share of factors agreeing with the sentiment |
| Confidence.Clarity | src/analysis/confidence_scorer.py:97-115 | 0.5 without factors, else one minus the neutral share |
| Confidence.CalculateConfidence | src/analysis/confidence_scorer.py:45-73 | the confidence is clamped to [0,1] |
| Confidence.ConfidenceIsWeightedAverage | src/analysis/confidence_scorer.py:45-73 | the weights sum to 1 and the confidence is the weighted average 0.30/0.25/0.20/0.15/0.10 of its factors, already in range for a non-negative raw score |
| Confidence.FactorValues | src/analysis/confidence_scorer.py:117-159 | volatility factor in {0.5, 0.7, 0.9}, 0.9 iff normal; volume factor 1.0 iff it confirms, 0.3 iff it opposes, otherwise 0.6 |
| Confidence.SignalStrength | src/analysis/confidence_scorer.py:161-180 | never above 1; 0 without factors; exactly 1 iff the contributions reach 1; the plain contribution sum when it stays at or below 1 |
| Confidence.SignalStrengthGrows | src/analysis/confidence_scorer.py:161-180 | adding a factor with a non-negative contribution never lowers the strength |
| Confidence.SignalStrengthBounded | src/analysis/confidence_scorer.py:161-180 | with non-negative weights and confidences the strength is in [0,1] |
| Confidence.ConfidenceLabelMonotone | src/analysis/confidence_scorer.py:182-201 | the label bands are 0.85/0.70/0.55/0.40 and the label never drops as confidence rises |
| Regime.EfficiencyBounded | src/analysis/regime_detector.py:120-123 | price efficiency (net move over path length) is within [0,1] |
| Regime.PathCoversMove | src/analysis/regime_detector.py:120-122 | the summed absolute steps bound the net move |
| Regime.TrendRegimeMeaning | src/analysis/regime_detector.py:125-141 | RANGING iff ADX ≤ 25; up iff +DI > −DI; STRONG iff also ADX > 40 and efficiency > 0.5 |
| Regime.TrendReportConsistent | src/analysis/regime_detector.py:143-153 | trending iff not ranging, direction matches the regime, efficiency in [0,1] |
| Regime.VolatilityLadder | src/analysis/regime_detector.py:191-200 | the percentile bands 0.2/0.4/0.7/0.9 and monotonicity of the regime in the percentile |
| Regime.CountBelowMissesSelf | src/analysis/regime_detector.py:240-241 | the current volume is never counted below itself, so its percentile is below 1 |
| Regime.VolumeRegimeMeaning | src/analysis/regime_detector.py:227-263 | no volume gives NORMAL at 1.0/0.5; otherwise the percentile is in [0,1) and the bands are 0.25/0.75/0.95 |
| Regime.CompositeMeaning | src/analysis/regime_detector.py:265-311 | the trend score's sign follows the direction with ±1 for strong trends; the volatility score is in [0.2,1]; the four favorabilities are exactly the trending × stable cases |
| Regime.TryDetectRegime | src/analysis/regime_detector.py:63-88 | the regime is produced unless the closes are empty, the lookback exceeds them, or the volume column is empty |
| Regime.RegimeLabel | src/analysis/regime_detector.py:313-343 | 3 for high volatility, else 1 for up, 2 for down and 0 for ranging |
| SentimentEngine.AggregateSignals | src/analysis/sentiment_engine.py:195-268 | the aggregation loop computes exactly the specification's sentiment data |
| SentimentEngine.FactorsInOrder | src/analysis/sentiment_engine.py:213-252 | the factors are the present inputs in the fixed order trend, momentum, volatility, volume, SMC |
| SentimentEngine.DecideMeaning | src/analysis/sentiment_engine.py:254-261 | BULLISH iff bullish is the (tie-winning) maximum and at least 0.35; BEARISH iff strictly above bullish, not below neutral and at least 0.35 |
| SentimentEngine.ScoresBounded | src/analysis/sentiment_engine.py:214-255 | with inputs in range, every score and their sum lie in [0,1] |
| SentimentEngine.SmcInputInRange | src/indicators/smc.py:609-626 | the SMC signal fed to aggregation has confidence in [0, 0.65] |
| SentimentEngine.AssessRiskLevel | src/analysis/sentiment_engine.py:271-304 | risk is LOW with no flag, MEDIUM with one, HIGH with two or more |
| SentimentEngine.RiskMeaning | src/analysis/sentiment_engine.py:271-304 | LOW iff confidence ≥ 0.60, volatility not high and no conflict; higher confidence never raises risk |
| SentimentEngine.NoFactorsIsRisky | src/analysis/sentiment_engine.py:291-296 | without factors the risk is at least MEDIUM |
| SentimentEngine.RegimeInsights | src/analysis/sentiment_engine.py:318-344 | at most three regime lines |
| SentimentEngine.FirstActive | src/analysis/sentiment_engine.py:355-360 | the first active order block, or none when no block is active |
| SentimentEngine.GenerateInsights | src/analysis/sentiment_engine.py:306-392 | the first five of the regime, structure, block, zone, momentum and volume lines |
| SentimentEngine.InsightsOrdered | src/analysis/sentiment_engine.py:306-392 | at most five insights, in the source's priority order |
| SentimentEngine.StructureInsightSurvives | src/analysis/sentiment_engine.py:318-352 | the structure line is never cut; with a regime the favorability line comes first, else the structure line |
| SentimentEngine.SizeMultiplier | config/settings.py:252-257 | the size multiplier is in [0,1], 1 only when favourable and 0 only when unfavourable |
| SentimentEngine.RegimeFor | src/analysis/sentiment_engine.py:92-104 | no regime is detected unless regime detection is enabled and automatic |
| SentimentEngine.AdjustConfidence | src/analysis/sentiment_engine.py:117-157 | sized confidence, halved under a disallowed regime, never above the scored confidence; risk from the sized confidence |
| SentimentEngine.SentimentOf | src/analysis/sentiment_engine.py:64-174 | the error record with NEUTRAL/0 exactly for an empty frame; otherwise an analysis with confidence in [0,1], the aggregated sentiment, the last close and the regime warning |
| SentimentEngine.AnalyzeSentiment | src/analysis/sentiment_engine.py:64-174 | equals `SentimentOf`: fails with NEUTRAL/0 exactly on an empty frame; otherwise every field is the composition of the specification functions and confidence stays in [0, scored] |
| SentimentEngine.DefaultSettingsKeepConfidence | config/settings.py:237-251 | with the default settings no regime is used and the scored confidence is kept |
| SentimentEngine.UnfavorableZeroesConfidence | src/analysis/sentiment_engine.py:117-120 | position sizing in an unfavourable regime zeroes the confidence |
| SentimentEngine.ConfidenceWordOf | src/analysis/sentiment_engine.py:400 | "high" above 0.75, "moderate" above 0.60, else "low" |
| SentimentEngine.SentimentSummary | src/analysis/sentiment_engine.py:394-412 | the summary repeats sentiment, confidence and risk, defaults to MEDIUM, and quotes the first insight when there is one |
| MultiTimeframe.TimeframeWeight | config/settings.py:188-193 | weights M15/H1/H4/D1 are 0.10/0.20/0.30/0.40, any other is 0.25 |
| MultiTimeframe.AlignmentCounts | src/analysis/multi_timeframe.py:100-139 | the counts partition the timeframes and the named sentiment has the largest count, ties to BULLISH then BEARISH |
| MultiTimeframe.AlignmentScore | src/analysis/multi_timeframe.py:112-116 | the score is the largest share, in (0,1], and aligned iff at least 0.7 |
| MultiTimeframe.FullAlignmentMeansUnanimous | src/analysis/multi_timeframe.py:106-113 | a score of 1 exactly when all timeframes agree |
| MultiTimeframe.DominantOf | src/analysis/multi_timeframe.py:141-177 | the dominant sentiment carries the maximal normalised weighted score, ties to BULLISH then BEARISH |
| MultiTimeframe.GetDominant | src/analysis/multi_timeframe.py:141-177 | the voting loop computes that dominant sentiment |
| MultiTimeframe.DominantScoresSum | src/analysis/multi_timeframe.py:155-167 | the three normalised scores sum to the base confidence |
| MultiTimeframe.OverallConfidence | src/analysis/multi_timeframe.py:179-214 | the loop computes the specification's overall confidence |
| MultiTimeframe.OverallBounds | src/analysis/multi_timeframe.py:179-214 | the base confidence is in [0,1] and the alignment bonus keeps the overall confidence in [base, 1] |
| MultiTimeframe.Lookup | src/analysis/multi_timeframe.py:243-253 | the result of a named timeframe, or none when it is absent |
| MultiTimeframe.GenerateSuggestions | src/analysis/multi_timeframe.py:216-261 | the first five of the confluence, higher-timeframe, lower-timeframe and risk suggestions |
| MultiTimeframe.SuggestionsCapped | src/analysis/multi_timeframe.py:216-261 | there are never more than five suggestions, so the cap cuts nothing |
| MultiTimeframe.SuggestionsMeaning | src/analysis/multi_timeframe.py:216-261 | strong confluence iff aligned with dominant score > 0.7, with consider-longs iff also bullish and consider-shorts iff also bearish; wait/reduce iff not aligned; HTF-confirm iff the higher frames all agree with the dominant; entry timing iff M15 (else H1) is present and agrees with the dominant; tight stops iff some frame is high risk |
| MultiTimeframe.ScanHighRisk | src/analysis/multi_timeframe.py:257-259 | true exactly when some timeframe reports HIGH risk |
| MultiTimeframe.AnalyzeFrames | src/analysis/multi_timeframe.py:59-63 | the frames are `FramesOf` the inputs: exactly the present, non-empty timeframes, in input order, each holding the sentiment engine's analysis of its bars |
| MultiTimeframe.FramesOfMeaning | src/analysis/multi_timeframe.py:59-63 | every frame is the sentiment engine's analysis of a usable input, and every usable input's analysis is among the frames |
| MultiTimeframe.AnalyzeMultipleTimeframes | src/analysis/multi_timeframe.py:37-92 | the error result iff no timeframe is usable; otherwise the frames are `FramesOf` the inputs, and alignment, dominant, overall confidence and suggestions are computed from them |
| Validator.ExpectedSeconds | config/settings.py:103-113 | the bar spacing of a timeframe, 60 minutes for an unknown one |
| Validator.CountWhereZero | src/mt5/validator.py:123-148 | a condition's count is zero exactly when no row meets it |
| Validator.ValidIff | src/mt5/validator.py:36-102 | the table is valid iff it has rows and all columns, every row is complete, consistent and positive with non-negative volume, no step exceeds three spacings and zero volume stays under 5% |
| Validator.RowChecksSilent | src/mt5/validator.py:104-217 | the row-level checks are silent exactly when every row is acceptable |
| Validator.DedupeKeepsFirst | src/mt5/validator.py:244 | deduplication keeps every timestamp once, with its first row |
| Validator.FillMeaning | src/mt5/validator.py:247-249 | forward-then-backward fill keeps present values, fills a gap with the nearest value above it, or with the nearest value below when nothing is above, and fills every cell when the column has any value |
| Validator.MaxSkip | src/mt5/validator.py:255 | NaN-skipping row maximum |
| Validator.MinSkip | src/mt5/validator.py:256 | NaN-skipping row minimum |
| Validator.CleanRow | src/mt5/validator.py:252-267 | a row is kept iff open and close are present and positive and a present low is positive; the bar keeps its time, open and close, its high is the largest of open, close and the row's high and its low the smallest of open, close and the row's low (a missing cell skipped), and its volume is the row's clipped at 0 |
| Validator.CleanGuarantees | src/mt5/validator.py:230-269 | cleaned bars are well-formed, have distinct timestamps and only original timestamps; each is the cleaned form of a deduplicated, filled row, and every such row that passes the filter appears |
| Validator.CleanedRevalidates | src/mt5/validator.py:36-102 | re-validating cleaned data can only report time gaps or zero volume |
| Validator.GapsMeaning | src/mt5/validator.py:289-303 | one gap per step over two spacings, each spanning two consecutive timestamps, with missing = floor(step/spacing) − 1 ≥ 1 |
| Validator.GapsCoverTimeGapCheck | src/mt5/validator.py:175-196 | every step the validator flags (over three spacings) is among the detected gaps |
| Validator.GapsOrdered | src/mt5/validator.py:271-303 | for increasing timestamps the gaps are disjoint and in time order |
| Validator.QualityScoreMeaning | src/mt5/validator.py:331-361 | the score is in [0,100], 100 iff no issue costs anything, and 100 for a table with missing columns |
| Validator.ScoreIssues | src/mt5/validator.py:347-361 | the deduction loop computes that score |
| Validator.DataValidator.ValidateOhlcv | src/mt5/validator.py:36-102 | issues and verdict as specified; the call is counted and the issues are added except on the early returns |
| Validator.DataValidator.CleanOhlcv | src/mt5/validator.py:230-269 | counted, then the cleaned bars, or failure when a column is missing |
| Validator.DataValidator.DetectGaps | src/mt5/validator.py:271-303 | the pairwise loop returns exactly the specified gaps |
| Validator.DataValidator.DataQualityScore | src/mt5/validator.py:331-361 | 0 and no validation for an empty table; otherwise one counted validation and its score |
| Calculator.NatToStringInjective | src/indicators/calculator.py:52 | distinct bar counts give distinct decimal strings |
| Calculator.CacheKeyMeaning | src/indicators/calculator.py:52 | for one symbol and timeframe, the cache key separates different bar counts |
| Calculator.StoredEntryServed | src/indicators/calculator.py:55-60 | a stored result is served exactly while younger than 300 seconds |
| Calculator.IndicatorCalculator.CalculateForTimeframe | src/indicators/calculator.py:33-82 | a fresh cache hit is returned unchanged; an empty frame gives the empty result uncached; otherwise the computed result is stored with its time |
| Calculator.IndicatorCalculator.ClearCache | src/indicators/calculator.py:247-250 | the cache is emptied |
| Calculator.SignalAlignmentMeaning | src/indicators/calculator.py:134-140 | alignment 1 iff all bullish or all bearish, 0 iff all neutral, always in [0,1] |
| Calculator.PrimaryIsMostFrequent | src/indicators/calculator.py:147-150 | the primary signal occurs at least as often as any other |
| Calculator.AlignmentOfMeaning | src/indicators/calculator.py:107-159 | the overall score averages the trend and momentum alignments, is 1 iff both are, and is aligned iff above 0.7 |
| Calculator.GetTimeframeAlignment | src/indicators/calculator.py:107-159 | the collection loop computes that alignment report |
| Calculator.RsiRowMeaning | src/indicators/calculator.py:176-185 | BULLISH iff RSI < 30, BEARISH iff > 70, strength 8 when signalling else 5 |
| Calculator.BollingerRowMeaning | src/indicators/calculator.py:211-231 | NEUTRAL for a degenerate band; otherwise BEARISH above 80% and BULLISH below 20% of the band |
| Evaluator.PredictionStatsMeaning | src/ml/evaluator.py:132-175 | zero statistics iff nothing is verified; otherwise total = number verified, correct = number verified and correct, correct + incorrect = total, accuracy = correct/total, each sentiment count = number verified of that class, and the three within the total |
| Evaluator.AverageConfidenceMeaning | src/ml/evaluator.py:158-159 | the average confidence times the total is the sum of the verified confidences, a missing one read as 0 |
| Evaluator.TallyDays | src/ml/evaluator.py:197-213 | the grouping loop builds exactly the per-day tallies and the days in first-seen order |
| Evaluator.CalculateAccuracyTrend | src/ml/evaluator.py:177-234 | the result equals the specification's trend |
| Evaluator.TrendShape | src/ml/evaluator.py:215-234 | one point per day, in strictly increasing date order, each with total > 0, correct ≤ total and accuracy = correct/total, its total the verified predictions dated in [date − window, date] and its correct count the correct ones among them |
| Evaluator.TrendWindowCounts | src/ml/evaluator.py:198-223 | each point's total is the number of verified predictions dated in [date − window, date], and its correct count the number of correct ones among them |
| Evaluator.TrendCoversDays | src/ml/evaluator.py:197-234 | a day has a point exactly when it has a verified prediction |
| Evaluator.WindowCoversDay | src/ml/evaluator.py:217-222 | a window total includes every day inside it |
| Evaluator.NegativeWindowNoTrend | src/ml/evaluator.py:217-226 | a negative window gives no points |
| Evaluator.TrendIgnoresUnverified | src/ml/evaluator.py:201-202 | two histories with the same verified predictions have the same trend |

## Left out

- Indicator arithmetic (RSI, MACD, Bollinger Bands, ADX, ATR, EMA/SMA and the technical analysis of `_analyze_technical`) is outside the model. Its readings are inputs: `TechSignals`, `IndicatorValues`, and the `computed` argument of `CalculateForTimeframe`.
- Regime volatility: the ATR percentile is an input. Only its ladder and everything downstream are modelled.
- Logging, message text and emoji, `datetime.now()`, database access and MetaTrader I/O are left out. Messages become datatypes (`Issue`, `Insight`, `Suggestion`). The current time and "today" are parameters.
- Floating point: reals are exact. Division by zero is modelled as IEEE `inf`/`NaN` comparisons only where the source divides by a range that can be zero (`DivGreater`, `DivAtLeast`, `DivLess`).
- Validator.DataValidator.ValidateOhlcv: the spike check (`_check_spikes`: absolute close-to-close change above its mean plus five standard deviations) is not modelled, because it needs square roots and floating-point statistics, so it never reports a spike. Its deduction in the quality score is therefore unused.
- Validator.ValidIff: because the spike check is left out, this characterises validity without it. The source can also reject a table for a price spike.
- Validator.CleanedRevalidates: because the spike check is left out, re-validated cleaned data could also report spikes in the source.
- Validator.GapsMeaning: `int(actual_delta / expected_delta)` on timedeltas is modelled as integer floor division of seconds. The two agree for positive gaps.
- `interpolate_gaps` and `get_statistics` of the validator are not part of this model.
- Validator.DataValidator.CleanOhlcv: the cleaner does not sort by time, and neither does the model. Cleaned bars are proved well-formed and distinct in time, not ordered.
- Calculator.CacheKeyMeaning: only the bar-count part of the key is shown to be injective. A collision between symbols or timeframes whose names contain `_` is not ruled out, nor claimed.
- Calculator.PrimaryIsMostFrequent: `max(set(signals), key=signals.count)` breaks ties by set iteration order, which Python leaves unspecified. The model breaks ties BULLISH, then BEARISH, then NEUTRAL, and proves only that the primary signal is most frequent.
- The indicator table models only the RSI and Bollinger rows. The MACD, ADX and OBV rows of `get_indicator_table` are not part of this model. They classify indicator series (MACD histogram, ADX, OBV) that the model does not compute.
- `calculate_multi_timeframe` and `get_cache_stats` of the calculator, and `evaluate_model` and `_analyze_by_confidence` of the evaluator, are left out. They are wrappers around scikit-learn metrics or dictionary assembly with no logic of their own.
- Evaluator.CalculateAccuracyTrend: the sort by timestamp before grouping is not modelled. The per-day tallies are counts, so the order of the input does not change them. A prediction without a timestamp is dated "today", a parameter.
- Evaluator.AverageConfidenceMeaning: NumPy's floating-point mean is modelled as the exact real quotient of the confidence sum by the verified total.
- SentimentEngine.AnalyzeSentiment: an exception other than indexing an empty frame (for example from the unmodelled indicator code) is not modelled. Only the empty frame takes the error path.
- MultiTimeframe.Alignment: for no frames `_calculate_alignment` returns only `aligned` False and score 0, with no sentiment (src/analysis/multi_timeframe.py:100-101). The model fills that case with NEUTRAL and zero counts. `analyze_multiple_timeframes` returns its error record before it is reached.
- MultiTimeframe.AnalyzeMultipleTimeframes: the input is a dictionary, so timeframe names are distinct (`DistinctNames`). Every usable frame is analysed successfully in the model. The source would also keep an error result for a frame whose analysis raised.
- Thread pools, the GUI, the database repository and model training are outside this model.
