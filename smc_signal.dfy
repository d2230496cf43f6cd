/** The SMC vote and the full SMC analysis (src/indicators/smc.py:
    _generate_smc_signal, analyze). */
module SmcSignal {
  import opened Common
  import opened Structure
  import opened Zones
  import opened Liquidity

  datatype VoteSource = StructureVote | OrderBlockVote | PremiumDiscountVote

  /** One vote: its source, its direction and its weight. */
  datatype Vote = Vote(source: VoteSource, direction: Sentiment, weight: real)

  datatype SmcVerdict = SmcVerdict(signal: Sentiment, confidence: real, components: seq<Vote>)

  /** Number of active blocks of one kind. */
  function ActiveCount(blocks: seq<OrderBlock>, kind: BlockKind): (r: nat)
    ensures r <= |blocks|
  {
    if |blocks| == 0 then 0
    else
      var last := blocks[|blocks| - 1];
      ActiveCount(blocks[..|blocks| - 1], kind) + (if last.kind == kind && last.active then 1 else 0)
  }

  function StructureVotes(ms: MarketStructure): seq<Vote> {
    if ms.trend == Defined(Bullish) then [Vote(StructureVote, Bullish, 0.25)]
    else if ms.trend == Defined(Bearish) then [Vote(StructureVote, Bearish, 0.25)]
    else []
  }

  function BlockVotes(blocks: seq<OrderBlock>): seq<Vote> {
    var bull := ActiveCount(blocks, BullishBlock);
    var bear := ActiveCount(blocks, BearishBlock);
    if bull > bear then [Vote(OrderBlockVote, Bullish, 0.20)]
    else if bear > bull then [Vote(OrderBlockVote, Bearish, 0.20)]
    else []
  }

  function ZoneVotes(pd: PremiumDiscount): seq<Vote> {
    if pd.Ranged? && pd.zone == Discount then [Vote(PremiumDiscountVote, Bullish, 0.20)]
    else if pd.Ranged? && pd.zone == Premium then [Vote(PremiumDiscountVote, Bearish, 0.20)]
    else []
  }

  /** The votes, in order: structure (0.25), order-block majority (0.20),
      premium/discount zone (0.20); each only when it has a direction. */
  function Votes(ms: MarketStructure, blocks: seq<OrderBlock>, pd: PremiumDiscount): seq<Vote> {
    StructureVotes(ms) + BlockVotes(blocks) + ZoneVotes(pd)
  }

  /** Summed weight of the votes for one direction. */
  function WeightFor(votes: seq<Vote>, s: Sentiment): (r: real) {
    if |votes| == 0 then 0.0
    else WeightFor(votes[..|votes| - 1], s) + (if votes[|votes| - 1].direction == s then votes[|votes| - 1].weight else 0.0)
  }

  /** _generate_smc_signal: the strictly heavier direction wins with its
      summed weight as confidence; a tie is NEUTRAL with confidence 0. The
      fair value gaps and liquidity zones the source also passes in are not
      consulted, so they are not parameters here. */
  function GenerateSmcSignal(ms: MarketStructure, blocks: seq<OrderBlock>, pd: PremiumDiscount): SmcVerdict {
    var votes := Votes(ms, blocks, pd);
    var bull := WeightFor(votes, Bullish);
    var bear := WeightFor(votes, Bearish);
    if bull > bear then SmcVerdict(Bullish, bull, votes)
    else if bear > bull then SmcVerdict(Bearish, bear, votes)
    else SmcVerdict(Neutral, 0.0, votes)
  }

  lemma {:induction false} WeightForAppend(a: seq<Vote>, b: seq<Vote>, s: Sentiment)
    ensures WeightFor(a + b, s) == WeightFor(a, s) + WeightFor(b, s)
    decreases |b|
  {
    if |b| == 0 {
      assert a + b == a;
    } else {
      var last := b[|b| - 1];
      var step := if last.direction == s then last.weight else 0.0;
      assert (a + b)[..|a + b| - 1] == a + b[..|b| - 1];
      assert (a + b)[|a + b| - 1] == last;
      assert WeightFor(a + b, s) == WeightFor(a + b[..|b| - 1], s) + step;
      WeightForAppend(a, b[..|b| - 1], s);
    }
  }

  /** The summed weights, vote by vote: structure contributes 0.25 to its
      own direction, the order-block majority and the zone 0.20 each. */
  lemma {:induction false} VoteWeights(ms: MarketStructure, blocks: seq<OrderBlock>, pd: PremiumDiscount)
    ensures var votes := Votes(ms, blocks, pd);
      var bull := ActiveCount(blocks, BullishBlock);
      var bear := ActiveCount(blocks, BearishBlock);
      WeightFor(votes, Bullish) ==
        (if ms.trend == Defined(Bullish) then 0.25 else 0.0) +
        (if bull > bear then 0.20 else 0.0) +
        (if pd.Ranged? && pd.zone == Discount then 0.20 else 0.0) &&
      WeightFor(votes, Bearish) ==
        (if ms.trend == Defined(Bearish) then 0.25 else 0.0) +
        (if bear > bull then 0.20 else 0.0) +
        (if pd.Ranged? && pd.zone == Premium then 0.20 else 0.0)
  {
    var s1, s2, s3 := StructureVotes(ms), BlockVotes(blocks), ZoneVotes(pd);
    WeightForAppend(s1 + s2, s3, Bullish);
    WeightForAppend(s1, s2, Bullish);
    WeightForAppend(s1 + s2, s3, Bearish);
    WeightForAppend(s1, s2, Bearish);
    StructureWeight(ms);
    BlockWeight(blocks);
    ZoneWeight(pd);
  }

  lemma {:induction false} SingleWeight(v: Vote, s: Sentiment)
    ensures WeightFor([v], s) == if v.direction == s then v.weight else 0.0
  {
    assert [v][..0] == [];
  }

  lemma {:induction false} StructureWeight(ms: MarketStructure)
    ensures WeightFor(StructureVotes(ms), Bullish) == (if ms.trend == Defined(Bullish) then 0.25 else 0.0)
    ensures WeightFor(StructureVotes(ms), Bearish) == (if ms.trend == Defined(Bearish) then 0.25 else 0.0)
  {
    if |StructureVotes(ms)| == 1 {
      SingleWeight(StructureVotes(ms)[0], Bullish);
      SingleWeight(StructureVotes(ms)[0], Bearish);
    }
  }

  lemma {:induction false} BlockWeight(blocks: seq<OrderBlock>)
    ensures var bull := ActiveCount(blocks, BullishBlock);
      var bear := ActiveCount(blocks, BearishBlock);
      WeightFor(BlockVotes(blocks), Bullish) == (if bull > bear then 0.20 else 0.0) &&
      WeightFor(BlockVotes(blocks), Bearish) == (if bear > bull then 0.20 else 0.0)
  {
    if |BlockVotes(blocks)| == 1 {
      SingleWeight(BlockVotes(blocks)[0], Bullish);
      SingleWeight(BlockVotes(blocks)[0], Bearish);
    }
  }

  lemma {:induction false} ZoneWeight(pd: PremiumDiscount)
    ensures WeightFor(ZoneVotes(pd), Bullish) == (if pd.Ranged? && pd.zone == Discount then 0.20 else 0.0)
    ensures WeightFor(ZoneVotes(pd), Bearish) == (if pd.Ranged? && pd.zone == Premium then 0.20 else 0.0)
  {
    if |ZoneVotes(pd)| == 1 {
      SingleWeight(ZoneVotes(pd)[0], Bullish);
      SingleWeight(ZoneVotes(pd)[0], Bearish);
    }
  }

  /** The verdict: the winner is the strictly heavier side and its
      confidence is that side's weight, so at most 0.65; a tie is NEUTRAL
      with confidence 0, and confidence is positive exactly when the verdict
      is not NEUTRAL. */
  lemma {:induction false} SmcSignalMeaning(ms: MarketStructure, blocks: seq<OrderBlock>, pd: PremiumDiscount)
    ensures var v := GenerateSmcSignal(ms, blocks, pd);
      var bull := WeightFor(v.components, Bullish);
      var bear := WeightFor(v.components, Bearish);
      (v.signal == Bullish <==> bull > bear) &&
      (v.signal == Bearish <==> bear > bull) &&
      (v.signal == Bullish ==> v.confidence == bull) &&
      (v.signal == Bearish ==> v.confidence == bear) &&
      (v.signal == Neutral ==> v.confidence == 0.0 && bull == bear) &&
      0.0 <= v.confidence <= 0.65 &&
      (v.confidence > 0.0 <==> v.signal != Neutral)
  {
    VoteWeights(ms, blocks, pd);
  }

  /** Everything analyze returns apart from its wall-clock timestamp. */
  datatype SmcAnalysis = SmcAnalysis(
    structure: MarketStructure,
    events: StructureEvents,
    orderBlocks: seq<OrderBlock>,
    gaps: seq<FairValueGap>,
    zones: seq<LiquidityZone>,
    hunts: seq<StopHunt>,
    premiumDiscount: PremiumDiscount,
    signal: SmcVerdict)

  /** The analysis analyze assembles, field by field; None on the empty
      series. */
  function SmcAnalysisOf(bars: seq<Bar>): (r: Option<SmcAnalysis>)
    ensures r.None? <==> |bars| == 0
  {
    if |bars| == 0 then None
    else
      var structure := DetectMarketStructure(bars);
      var blocks := Take(SortDesc(AllOrderBlocks(bars), BlockTime), MaxZones);
      var pd := PremiumDiscountOf(bars);
      Some(SmcAnalysis(structure,
                       EventsOf(MergeByIndex(structure.swingHighs, structure.swingLows), structure.trend),
                       blocks, FvgResult(bars).value, LiquidityZones(bars), StopHunts(bars), pd,
                       GenerateSmcSignal(structure, blocks, pd)))
  }

  /** analyze: None is the error record, which only the empty series
      produces (reading the last close for the gap fill raises). */
  method Analyze(bars: seq<Bar>) returns (result: Option<SmcAnalysis>)
    ensures result.None? <==> |bars| == 0
    ensures result == SmcAnalysisOf(bars)
  {
    var structure := DetectMarketStructure(bars);
    var events := DetectBosChoch(bars);
    var blocks := IdentifyOrderBlocks(bars);
    var gaps := IdentifyFvg(bars);
    if gaps.None? {
      return None;
    }
    var zones := IdentifyLiquidityZones(bars);
    var hunts := DetectStopHunts(bars);
    var pd := PremiumDiscountOf(bars);
    var signal := GenerateSmcSignal(structure, blocks, pd);
    result := Some(SmcAnalysis(structure, events, blocks, gaps.value, zones, hunts, pd, signal));
  }
}
