/** Market-structure classification and structure events
    (src/indicators/smc.py: detect_market_structure, detect_bos_choch). */
module Structure {
  import opened Common
  import opened SwingDetection

  /** The structure trend: one of the three classes, or UNDEFINED when there
      are too few swings. */
  datatype Trend = Defined(sentiment: Sentiment) | Undefined

  datatype StructureLabel = HigherHighsHigherLows | LowerHighsLowerLows | Consolidation | InsufficientData

  datatype MarketStructure = MarketStructure(
    trend: Trend,
    shape: StructureLabel,
    swingHighs: seq<SwingPoint>,
    swingLows: seq<SwingPoint>)

  /** A Break of Structure: a new swing beyond the swing just before it, in
      the trend's direction. */
  datatype BosEvent = BosEvent(direction: Sentiment, price: real, time: int)

  /** A Change of Character: two consecutive merged swings of different kinds. */
  datatype ChochEvent = ChochEvent(from: SwingKind, to: SwingKind, price: real, time: int)

  /** Number of consecutive pairs of `pts` whose price strictly rises. */
  function HigherCount(pts: seq<SwingPoint>): (r: nat)
    ensures |pts| > 0 ==> r <= |pts| - 1
    ensures |pts| == 0 ==> r == 0
  {
    if |pts| <= 1 then 0
    else HigherCount(pts[..|pts| - 1]) + (if pts[|pts| - 1].price > pts[|pts| - 2].price then 1 else 0)
  }

  /** Structure from the swing lists: UNDEFINED with empty lists below two
      swings of either kind, otherwise judged on the last three of each. */
  function ClassifyStructure(highs: seq<SwingPoint>, lows: seq<SwingPoint>): MarketStructure {
    if |highs| < 2 || |lows| < 2 then MarketStructure(Undefined, InsufficientData, [], [])
    else
      var hh := HigherCount(LastN(highs, 3));
      var hl := HigherCount(LastN(lows, 3));
      if hh >= 2 && hl >= 2 then MarketStructure(Defined(Bullish), HigherHighsHigherLows, highs, lows)
      else if hh == 0 && hl == 0 then MarketStructure(Defined(Bearish), LowerHighsLowerLows, highs, lows)
      else MarketStructure(Defined(Neutral), Consolidation, highs, lows)
  }

  /** detect_market_structure over the default-lookback swings. */
  function DetectMarketStructure(bars: seq<Bar>): MarketStructure {
    ClassifyStructure(Swings(bars, SwingLookback, SwingLookback, HighSwing),
                      Swings(bars, SwingLookback, SwingLookback, LowSwing))
  }

  /** Strictly rising prices, pair by pair. */
  predicate Rising(pts: seq<SwingPoint>) {
    forall k :: 0 < k < |pts| ==> pts[k - 1].price < pts[k].price
  }

  /** Never rising prices, pair by pair. */
  predicate NotRising(pts: seq<SwingPoint>) {
    forall k :: 0 < k < |pts| ==> pts[k - 1].price >= pts[k].price
  }

  lemma {:induction false} HigherCountRising(pts: seq<SwingPoint>)
    requires |pts| > 0
    ensures HigherCount(pts) == |pts| - 1 <==> Rising(pts)
  {
    if |pts| > 1 {
      var p := pts[..|pts| - 1];
      HigherCountRising(p);
      assert Rising(pts) <==> Rising(p) && pts[|pts| - 2].price < pts[|pts| - 1].price by {
        assert forall k :: 0 <= k < |p| ==> p[k] == pts[k];
      }
    }
  }

  lemma {:induction false} HigherCountZero(pts: seq<SwingPoint>)
    ensures HigherCount(pts) == 0 <==> NotRising(pts)
  {
    if |pts| > 1 {
      var p := pts[..|pts| - 1];
      HigherCountZero(p);
      assert NotRising(pts) <==> NotRising(p) && pts[|pts| - 2].price >= pts[|pts| - 1].price by {
        assert forall k :: 0 <= k < |p| ==> p[k] == pts[k];
      }
    }
  }

  /** The classification in terms of the swings themselves: BULLISH exactly
      when the last three swing highs and the last three swing lows each
      strictly rise (so at least three of each are needed), BEARISH exactly
      when neither the recent highs nor the recent lows ever rise, NEUTRAL
      otherwise, and UNDEFINED with empty lists below two swings of a kind. */
  lemma {:induction false} ClassifyStructureMeaning(highs: seq<SwingPoint>, lows: seq<SwingPoint>)
    ensures var ms := ClassifyStructure(highs, lows);
      (ms.trend == Undefined <==> |highs| < 2 || |lows| < 2) &&
      (ms.trend == Undefined ==> ms.shape == InsufficientData && ms.swingHighs == [] && ms.swingLows == []) &&
      (ms.trend != Undefined ==> ms.swingHighs == highs && ms.swingLows == lows) &&
      (ms.trend == Defined(Bullish) <==>
        |highs| >= 3 && |lows| >= 3 && Rising(LastN(highs, 3)) && Rising(LastN(lows, 3))) &&
      (ms.trend == Defined(Bearish) <==>
        |highs| >= 2 && |lows| >= 2 && NotRising(LastN(highs, 3)) && NotRising(LastN(lows, 3)))
  {
    if |highs| >= 2 && |lows| >= 2 {
      HigherCountRising(LastN(highs, 3));
      HigherCountRising(LastN(lows, 3));
      HigherCountZero(LastN(highs, 3));
      HigherCountZero(LastN(lows, 3));
    }
  }

  // ------------------------------------------------------------ BOS / ChOCh

  predicate SortedByIndex(pts: seq<SwingPoint>) {
    forall a, b :: 0 <= a < b < |pts| ==> pts[a].index <= pts[b].index
  }

  /** `swings.sort(key=index)` on `highs + lows`: Python's sort is stable,
      so for two index-sorted lists it is their merge, a high coming before
      a low of the same index. */
  function MergeByIndex(highs: seq<SwingPoint>, lows: seq<SwingPoint>): (r: seq<SwingPoint>)
    ensures multiset(r) == multiset(highs + lows)
    decreases |highs| + |lows|
  {
    if |highs| == 0 then lows
    else if |lows| == 0 then highs
    else if lows[0].index < highs[0].index then
      assert lows == [lows[0]] + lows[1..];
      [lows[0]] + MergeByIndex(highs, lows[1..])
    else
      assert highs == [highs[0]] + highs[1..];
      [highs[0]] + MergeByIndex(highs[1..], lows)
  }

  lemma {:induction false} MergeSorted(highs: seq<SwingPoint>, lows: seq<SwingPoint>)
    requires SortedByIndex(highs) && SortedByIndex(lows)
    ensures SortedByIndex(MergeByIndex(highs, lows))
    ensures |MergeByIndex(highs, lows)| > 0 ==>
      (|highs| > 0 && MergeByIndex(highs, lows)[0] == highs[0]) || (|lows| > 0 && MergeByIndex(highs, lows)[0] == lows[0])
    decreases |highs| + |lows|
  {
    if |highs| > 0 && |lows| > 0 {
      if lows[0].index < highs[0].index {
        SortedTail(lows);
        MergeSorted(highs, lows[1..]);
        SortedCons(lows[0], MergeByIndex(highs, lows[1..]));
      } else {
        SortedTail(highs);
        MergeSorted(highs[1..], lows);
        SortedCons(highs[0], MergeByIndex(highs[1..], lows));
      }
    }
  }

  lemma {:induction false} SortedTail(pts: seq<SwingPoint>)
    requires SortedByIndex(pts) && |pts| > 0
    ensures SortedByIndex(pts[1..])
    ensures forall k :: 0 <= k < |pts[1..]| ==> pts[0].index <= pts[1..][k].index
  {
    forall a, b | 0 <= a < b < |pts[1..]|
      ensures pts[1..][a].index <= pts[1..][b].index
    {
      assert pts[1..][a] == pts[a + 1] && pts[1..][b] == pts[b + 1];
    }
  }

  lemma {:induction false} SortedCons(x: SwingPoint, pts: seq<SwingPoint>)
    requires SortedByIndex(pts) && (|pts| > 0 ==> x.index <= pts[0].index)
    ensures SortedByIndex([x] + pts)
  {
    var r := [x] + pts;
    forall a, b | 0 <= a < b < |r|
      ensures r[a].index <= r[b].index
    {
      if a == 0 {
        assert r[b] == pts[b - 1];
        assert pts[0].index <= pts[b - 1].index || b == 1;
      } else {
        assert r[a] == pts[a - 1] && r[b] == pts[b - 1];
      }
    }
  }

  /** The merged swing list is sorted by index and is a rearrangement of the
      two lists. */
  lemma {:induction false} MergeIsSortedPermutation(highs: seq<SwingPoint>, lows: seq<SwingPoint>)
    requires SortedByIndex(highs) && SortedByIndex(lows)
    ensures SortedByIndex(MergeByIndex(highs, lows))
    ensures multiset(MergeByIndex(highs, lows)) == multiset(highs + lows)
    ensures |MergeByIndex(highs, lows)| == |highs| + |lows|
  {
    MergeSorted(highs, lows);
    assert |multiset(MergeByIndex(highs, lows))| == |multiset(highs + lows)|;
  }

  /** The BOS test for the merged swing `curr` and the swing just before it,
      whatever that swing's kind. */
  function BosAt(trend: Trend, prev: SwingPoint, curr: SwingPoint): Option<BosEvent> {
    if trend == Defined(Bullish) && curr.kind == HighSwing then
      if curr.price > prev.price then Some(BosEvent(Bullish, curr.price, curr.time)) else None
    else if trend == Defined(Bearish) && curr.kind == LowSwing then
      if curr.price < prev.price then Some(BosEvent(Bearish, curr.price, curr.time)) else None
    else None
  }

  function ChochAt(prev: SwingPoint, curr: SwingPoint): Option<ChochEvent> {
    if curr.kind != prev.kind then Some(ChochEvent(prev.kind, curr.kind, curr.price, curr.time)) else None
  }

  /** BOS events of merged positions 1 .. k-1, in detection order. */
  function BosUpTo(swings: seq<SwingPoint>, trend: Trend, k: nat): seq<BosEvent>
    requires k <= |swings|
  {
    if k <= 1 then [] else BosUpTo(swings, trend, k - 1) + BosAt(trend, swings[k - 2], swings[k - 1]).ToSeq()
  }

  /** ChOCh events of merged positions 2 .. k-1: position 1 is never tested. */
  function ChochUpTo(swings: seq<SwingPoint>, k: nat): seq<ChochEvent>
    requires k <= |swings|
  {
    if k <= 2 then [] else ChochUpTo(swings, k - 1) + ChochAt(swings[k - 2], swings[k - 1]).ToSeq()
  }

  datatype StructureEvents = StructureEvents(bos: seq<BosEvent>, choch: seq<ChochEvent>)

  /** The events of a merged swing list under a structure trend, each list
      cut to its 5 most recent entries. */
  function EventsOf(swings: seq<SwingPoint>, trend: Trend): StructureEvents {
    StructureEvents(LastN(BosUpTo(swings, trend, |swings|), 5), LastN(ChochUpTo(swings, |swings|), 5))
  }

  /** The walk over the merged swing list: every position from 1 is tested
      for a BOS, every position from 2 for a ChOCh. */
  method ScanEvents(swings: seq<SwingPoint>, trend: Trend) returns (events: StructureEvents)
    ensures events == EventsOf(swings, trend)
  {
    var bos: seq<BosEvent> := [];
    var choch: seq<ChochEvent> := [];
    var i := 1;
    while i < |swings|
      invariant 1 <= i <= |swings| || (|swings| == 0 && i == 1)
      invariant bos == BosUpTo(swings, trend, if |swings| == 0 then 0 else i)
      invariant choch == ChochUpTo(swings, if |swings| == 0 then 0 else i)
    {
      var prev := swings[i - 1];
      var curr := swings[i];
      if trend == Defined(Bullish) && curr.kind == HighSwing {
        if curr.price > prev.price {
          bos := bos + [BosEvent(Bullish, curr.price, curr.time)];
        }
      } else if trend == Defined(Bearish) && curr.kind == LowSwing {
        if curr.price < prev.price {
          bos := bos + [BosEvent(Bearish, curr.price, curr.time)];
        }
      }
      if i >= 2 {
        if curr.kind != prev.kind {
          choch := choch + [ChochEvent(prev.kind, curr.kind, curr.price, curr.time)];
        }
      }
      i := i + 1;
    }
    events := StructureEvents(LastN(bos, 5), LastN(choch, 5));
  }

  /** detect_bos_choch: structure first, then the walk over the merged swings. */
  method DetectBosChoch(bars: seq<Bar>) returns (events: StructureEvents)
    ensures var ms := DetectMarketStructure(bars);
      events == EventsOf(MergeByIndex(ms.swingHighs, ms.swingLows), ms.trend)
  {
    var ms := DetectMarketStructure(bars);
    events := ScanEvents(MergeByIndex(ms.swingHighs, ms.swingLows), ms.trend);
  }

  lemma {:induction false} BosUpToFacts(swings: seq<SwingPoint>, trend: Trend, k: nat)
    requires k <= |swings|
    ensures forall e :: e in BosUpTo(swings, trend, k) ==> trend == Defined(e.direction) && e.direction != Neutral
    ensures trend == Undefined || trend == Defined(Neutral) ==> BosUpTo(swings, trend, k) == []
  {
    if k > 1 { BosUpToFacts(swings, trend, k - 1); }
  }

  /** A BOS is raised at merged position i exactly when the trend is BULLISH
      and swing i is a high above the swing just before it, or the trend is
      BEARISH and swing i is a low below it. */
  predicate BosRaisedAt(swings: seq<SwingPoint>, trend: Trend, i: int, b: BosEvent)
    requires 1 <= i < |swings|
  {
    (trend == Defined(Bullish) && swings[i].kind == HighSwing && swings[i].price > swings[i - 1].price &&
     b == BosEvent(Bullish, swings[i].price, swings[i].time)) ||
    (trend == Defined(Bearish) && swings[i].kind == LowSwing && swings[i].price < swings[i - 1].price &&
     b == BosEvent(Bearish, swings[i].price, swings[i].time))
  }

  lemma {:induction false} BosUpToExact(swings: seq<SwingPoint>, trend: Trend, k: nat, b: BosEvent)
    requires k <= |swings|
    ensures b in BosUpTo(swings, trend, k) <==> exists i :: 1 <= i < k && BosRaisedAt(swings, trend, i, b)
  {
    if k > 1 {
      BosUpToExact(swings, trend, k - 1, b);
      assert b in BosAt(trend, swings[k - 2], swings[k - 1]).ToSeq() <==> BosRaisedAt(swings, trend, k - 1, b);
    }
  }

  lemma {:induction false} ChochUpToExact(swings: seq<SwingPoint>, k: nat, e: ChochEvent)
    requires k <= |swings|
    ensures e in ChochUpTo(swings, k) <==>
      exists i :: 2 <= i < k && swings[i].kind != swings[i - 1].kind &&
        e == ChochEvent(swings[i - 1].kind, swings[i].kind, swings[i].price, swings[i].time)
  {
    if k > 2 { ChochUpToExact(swings, k - 1, e); }
  }

  /** What the event lists mean: at most 5 of each; no BOS unless the trend
      is BULLISH or BEARISH, and then every BOS points the trend's way; a
      BOS is exactly a merged position i >= 1 that breaks the swing just
      before it, whatever that swing's kind, in the trend's direction; a
      ChOCh is exactly a merged position i >= 2 whose swing kind differs from
      the one before (position 1 is skipped). */
  lemma {:induction false} EventsMeaning(swings: seq<SwingPoint>, trend: Trend, b: BosEvent, e: ChochEvent)
    ensures var ev := EventsOf(swings, trend);
      |ev.bos| <= 5 && |ev.choch| <= 5 &&
      (b in ev.bos ==> trend == Defined(b.direction) && b.direction != Neutral) &&
      (trend == Undefined || trend == Defined(Neutral) ==> ev.bos == []) &&
      (b in BosUpTo(swings, trend, |swings|) <==> exists i :: 1 <= i < |swings| && BosRaisedAt(swings, trend, i, b)) &&
      (e in ChochUpTo(swings, |swings|) <==>
        exists i :: 2 <= i < |swings| && swings[i].kind != swings[i - 1].kind &&
          e == ChochEvent(swings[i - 1].kind, swings[i].kind, swings[i].price, swings[i].time))
  {
    BosUpToFacts(swings, trend, |swings|);
    BosUpToExact(swings, trend, |swings|, b);
    ChochUpToExact(swings, |swings|, e);
    if b in EventsOf(swings, trend).bos {
      LastNMember(BosUpTo(swings, trend, |swings|), 5, b);
    }
  }

  /** An UNDEFINED structure carries no swings, so it produces no events of
      either kind. */
  lemma {:induction false} UndefinedHasNoEvents(bars: seq<Bar>)
    requires DetectMarketStructure(bars).trend == Undefined
    ensures var ms := DetectMarketStructure(bars);
      EventsOf(MergeByIndex(ms.swingHighs, ms.swingLows), ms.trend) == StructureEvents([], [])
  {
    var ms := DetectMarketStructure(bars);
    assert ms.swingHighs == [] && ms.swingLows == [];
  }
}
