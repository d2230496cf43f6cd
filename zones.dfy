/** Order blocks and fair value gaps (src/indicators/smc.py:
    identify_order_blocks, identify_fvg). */
module Zones {
  import opened Common

  /** SMCConfig.OB_MIN_BODY_PERCENTAGE */
  const MinBodyRatio: real := 0.6
  /** SMCConfig.OB_MIN_VOLUME_MULTIPLIER */
  const MinVolumeMultiplier: real := 1.5
  /** How many zones of each kind are kept, most recent first. */
  const MaxZones: nat := 10

  datatype BlockKind = BullishBlock | BearishBlock

  /** An order block: the body of the last opposite candle before a strong
      move. `tested` and `active` keep their initial values (0, true). */
  datatype OrderBlock = OrderBlock(start: real, end: real, time: int, kind: BlockKind,
                                   strength: real, tested: nat, active: bool)

  function BlockTime(b: OrderBlock): int { b.time }

  /** Mean volume of the five bars before `i`. */
  function MeanVolumeBefore(bars: seq<Bar>, i: nat): real
    requires 5 <= i <= |bars|
  {
    (bars[i - 5].volume + bars[i - 4].volume + bars[i - 3].volume + bars[i - 2].volume + bars[i - 1].volume) / 5.0
  }

  /** 1.5 when bar `i` has more than 1.5 times the mean volume of the five
      bars before it (only looked at from index 6 on), else 1.0. */
  function VolumeStrength(bars: seq<Bar>, i: nat): (r: real)
    requires i < |bars|
    ensures r == 1.0 || r == 1.5
    ensures r == 1.5 <==> i > 5 && bars[i].volume > MeanVolumeBefore(bars, i) * MinVolumeMultiplier
  {
    if i > 5 && bars[i].volume > MeanVolumeBefore(bars, i) * MinVolumeMultiplier then 1.5 else 1.0
  }

  predicate DownCandle(b: Bar) { b.close < b.open }
  predicate UpCandle(b: Bar) { b.close > b.open }

  /** A bullish block candidate: a down candle followed by an up candle whose
      body exceeds 1.5 times the first body. */
  predicate BullishSetup(cur: Bar, next: Bar) {
    DownCandle(cur) && UpCandle(next) && next.close - next.open > (cur.open - cur.close) * 1.5
  }

  /** The mirror: an up candle followed by a larger down candle. */
  predicate BearishSetup(cur: Bar, next: Bar) {
    UpCandle(cur) && DownCandle(next) && next.open - next.close > (cur.close - cur.open) * 1.5
  }

  /** The body of the first candle is at least 60% of its range. */
  predicate SolidBody(b: Bar) {
    DivAtLeast(Abs(b.close - b.open), b.high - b.low, MinBodyRatio)
  }

  /** The block detected at index `i`, if any (the bearish test runs only
      when the bullish setup fails). */
  function OrderBlockAt(bars: seq<Bar>, i: nat): Option<OrderBlock>
    requires i + 1 < |bars|
  {
    var cur := bars[i];
    var next := bars[i + 1];
    if BullishSetup(cur, next) then
      if SolidBody(cur) then
        Some(OrderBlock(MinR(cur.open, cur.close), MaxR(cur.open, cur.close), cur.time, BullishBlock,
                        0.8 * VolumeStrength(bars, i), 0, true))
      else None
    else if BearishSetup(cur, next) then
      if SolidBody(cur) then
        Some(OrderBlock(MinR(cur.open, cur.close), MaxR(cur.open, cur.close), cur.time, BearishBlock,
                        0.8 * VolumeStrength(bars, i), 0, true))
      else None
    else None
  }

  /** Blocks found at indices i, i + 1, ... up to the second-to-last bar, in
      scan order. */
  function OrderBlocksFrom(bars: seq<Bar>, i: nat): seq<OrderBlock>
    decreases |bars| - i
  {
    if i + 1 >= |bars| then []
    else OrderBlockAt(bars, i).ToSeq() + OrderBlocksFrom(bars, i + 1)
  }

  /** Every block of the scan, which starts at index 2. */
  function AllOrderBlocks(bars: seq<Bar>): seq<OrderBlock> {
    OrderBlocksFrom(bars, 2)
  }

  /** The volume boost of bar `i`, computed as the scan does. */
  method ScanVolumeStrength(bars: seq<Bar>, i: nat) returns (v: real)
    requires i < |bars|
    ensures v == VolumeStrength(bars, i)
  {
    v := 1.0;
    if i > 5 {
      var avgVolume := MeanVolumeBefore(bars, i);
      if bars[i].volume > avgVolume * MinVolumeMultiplier {
        v := 1.5;
      }
    }
  }

  /** One step of the scan: the block found at index `i`, if any. */
  method ScanBlockAt(bars: seq<Bar>, i: nat) returns (added: seq<OrderBlock>)
    requires i + 1 < |bars|
    ensures added == OrderBlockAt(bars, i).ToSeq()
  {
    var cur := bars[i];
    var next := bars[i + 1];
    added := [];
    if BullishSetup(cur, next) {
      if SolidBody(cur) {
        var volumeStrength := ScanVolumeStrength(bars, i);
        added := [OrderBlock(MinR(cur.open, cur.close), MaxR(cur.open, cur.close), cur.time,
                             BullishBlock, 0.8 * volumeStrength, 0, true)];
      }
    } else if BearishSetup(cur, next) {
      if SolidBody(cur) {
        var volumeStrength := ScanVolumeStrength(bars, i);
        added := [OrderBlock(MinR(cur.open, cur.close), MaxR(cur.open, cur.close), cur.time,
                             BearishBlock, 0.8 * volumeStrength, 0, true)];
      }
    }
  }

  /** identify_order_blocks: scan, then the 10 latest by timestamp. */
  method IdentifyOrderBlocks(bars: seq<Bar>) returns (blocks: seq<OrderBlock>)
    ensures blocks == Take(SortDesc(AllOrderBlocks(bars), BlockTime), MaxZones)
  {
    var found: seq<OrderBlock> := [];
    var i := 2;
    while i + 1 < |bars|
      invariant 2 <= i
      invariant found + OrderBlocksFrom(bars, i) == AllOrderBlocks(bars)
      decreases |bars| - i
    {
      var added := ScanBlockAt(bars, i);
      ghost var rest := OrderBlocksFrom(bars, i + 1);
      assert OrderBlocksFrom(bars, i) == added + rest;
      AppendAssoc(found, added, rest);
      found := found + added;
      i := i + 1;
    }
    assert OrderBlocksFrom(bars, i) == [];
    assert found == AllOrderBlocks(bars);
    blocks := Take(SortDesc(found, BlockTime), MaxZones);
  }

  /** What a block at one index is: the first candle's body (start strictly
      below end), that candle's timestamp, strength 0.8 or 1.2 (the latter
      exactly when the volume boost applies), active and untested; bullish
      exactly when the bullish setup holds with a solid body, bearish exactly
      when the bearish one does. */
  lemma {:induction false} OrderBlockAtMeaning(bars: seq<Bar>, i: nat)
    requires i + 1 < |bars|
    ensures var r := OrderBlockAt(bars, i);
      (r.Some? ==>
        r.value.start < r.value.end &&
        r.value.start == MinR(bars[i].open, bars[i].close) &&
        r.value.end == MaxR(bars[i].open, bars[i].close) &&
        r.value.time == bars[i].time &&
        r.value.active && r.value.tested == 0 &&
        (r.value.strength == 0.8 || r.value.strength == 1.2) &&
        (r.value.strength == 1.2 <==> i > 5 && bars[i].volume > MeanVolumeBefore(bars, i) * MinVolumeMultiplier)) &&
      (r.Some? && r.value.kind == BullishBlock <==> BullishSetup(bars[i], bars[i + 1]) && SolidBody(bars[i])) &&
      (r.Some? && r.value.kind == BearishBlock <==> BearishSetup(bars[i], bars[i + 1]) && SolidBody(bars[i]))
  {
  }

  lemma {:induction false} OrderBlocksFromMembers(bars: seq<Bar>, i: nat, b: OrderBlock)
    requires b in OrderBlocksFrom(bars, i)
    ensures exists j :: i <= j && j + 1 < |bars| && OrderBlockAt(bars, j) == Some(b)
    decreases |bars| - i
  {
    if i + 1 < |bars| {
      if OrderBlockAt(bars, i) != Some(b) {
        OrderBlocksFromMembers(bars, i + 1, b);
      }
    }
  }

  /** A block carries the timestamp of the bar it was detected at. */
  lemma {:induction false} OrderBlockAtTime(bars: seq<Bar>, i: nat)
    requires i + 1 < |bars|
    ensures OrderBlockAt(bars, i).Some? ==> OrderBlockAt(bars, i).value.time == bars[i].time
  {
  }

  lemma {:induction false} OrderBlocksFromTimes(bars: seq<Bar>, i: nat)
    requires forall a, c :: 0 <= a < c < |bars| ==> bars[a].time < bars[c].time
    ensures forall k :: 0 <= k < |OrderBlocksFrom(bars, i)| ==>
      i < |bars| && bars[i].time <= OrderBlocksFrom(bars, i)[k].time
    ensures forall a, c :: 0 <= a < c < |OrderBlocksFrom(bars, i)| ==>
      OrderBlocksFrom(bars, i)[a].time < OrderBlocksFrom(bars, i)[c].time
    decreases |bars| - i
  {
    if i + 1 < |bars| {
      OrderBlocksFromTimes(bars, i + 1);
      OrderBlockAtTime(bars, i);
      var rest := OrderBlocksFrom(bars, i + 1);
      var all := OrderBlocksFrom(bars, i);
      var head := OrderBlockAt(bars, i).ToSeq();
      assert all == head + rest;
      assert bars[i].time < bars[i + 1].time;
      forall k | 0 <= k < |all|
        ensures bars[i].time <= all[k].time
      {
        if k >= |head| {
          assert all[k] == rest[k - |head|];
          assert bars[i + 1].time <= rest[k - |head|].time;
        } else {
          assert all[k] == OrderBlockAt(bars, i).value;
        }
      }
    } else {
      assert OrderBlocksFrom(bars, i) == [];
    }
  }

  /** The returned blocks: at most 10, latest first, each one detected at
      some scan index (so each carries all the facts of
      OrderBlockAtMeaning); on a series with strictly increasing
      timestamps they are exactly the 10 most recent detections. */
  lemma {:induction false} OrderBlocksResult(bars: seq<Bar>, b: OrderBlock)
    ensures var r := Take(SortDesc(AllOrderBlocks(bars), BlockTime), MaxZones);
      |r| <= MaxZones && DescendingBy(r, BlockTime) &&
      (b in r ==> exists j :: 2 <= j && j + 1 < |bars| && OrderBlockAt(bars, j) == Some(b))
    ensures (forall a, c :: 0 <= a < c < |bars| ==> bars[a].time < bars[c].time) ==>
      Take(SortDesc(AllOrderBlocks(bars), BlockTime), MaxZones) == Take(Reverse(AllOrderBlocks(bars)), MaxZones)
  {
    var all := AllOrderBlocks(bars);
    SortDescSorted(all, BlockTime);
    var r := Take(SortDesc(all, BlockTime), MaxZones);
    if b in r {
      assert b in multiset(SortDesc(all, BlockTime));
      OrderBlocksFromMembers(bars, 2, b);
    }
    if forall a, c :: 0 <= a < c < |bars| ==> bars[a].time < bars[c].time {
      OrderBlocksFromTimes(bars, 2);
      SortDescOfIncreasing(all, BlockTime);
    }
  }

  // ------------------------------------------------------- fair value gaps

  /** A fair value gap: the price interval [start, end] a middle candle left
      uncovered by its neighbours, with how much of it the latest close has
      filled. */
  datatype FairValueGap = FairValueGap(start: real, end: real, time: int, filled: real, active: bool)

  function GapTime(g: FairValueGap): int { g.time }

  /** The gap detected around index `i`: bullish when the middle low clears
      both neighbours' highs, otherwise bearish when the middle high is below
      both neighbours' lows. */
  function GapAt(bars: seq<Bar>, i: nat): Option<FairValueGap>
    requires 1 <= i && i + 1 < |bars|
  {
    var prev := bars[i - 1];
    var cur := bars[i];
    var next := bars[i + 1];
    if cur.low > prev.high && cur.low > next.high then
      if cur.low - MaxR(prev.high, next.high) > 0.0 then
        Some(FairValueGap(MaxR(prev.high, next.high), cur.low, cur.time, 0.0, true))
      else None
    else if cur.high < prev.low && cur.high < next.low then
      if MinR(prev.low, next.low) - cur.high > 0.0 then
        Some(FairValueGap(cur.high, MinR(prev.low, next.low), cur.time, 0.0, true))
      else None
    else None
  }

  function GapsFrom(bars: seq<Bar>, i: nat): seq<FairValueGap>
    requires 1 <= i
    decreases |bars| - i
  {
    if i + 1 >= |bars| then []
    else GapAt(bars, i).ToSeq() + GapsFrom(bars, i + 1)
  }

  /** The fill of a gap against the latest close `price`: strictly inside,
      the filled fraction measured from `start`; at or beyond either edge,
      fully filled and inactive. */
  function ApplyFill(g: FairValueGap, price: real): FairValueGap {
    if g.start < price < g.end then
      g.(filled := Abs(price - g.start) / Abs(g.end - g.start))
    else if price >= g.end || price <= g.start then
      g.(filled := 1.0, active := false)
    else g
  }

  function FillAll(gaps: seq<FairValueGap>, price: real): (r: seq<FairValueGap>)
    ensures |r| == |gaps|
    ensures forall k :: 0 <= k < |gaps| ==> r[k] == ApplyFill(gaps[k], price)
  {
    if |gaps| == 0 then [] else [ApplyFill(gaps[0], price)] + FillAll(gaps[1..], price)
  }

  /** identify_fvg: None stands for the IndexError an empty frame raises when
      the latest close is read. */
  function FvgResult(bars: seq<Bar>): Option<seq<FairValueGap>> {
    if |bars| == 0 then None
    else Some(Take(SortDesc(FillAll(GapsFrom(bars, 1), bars[|bars| - 1].close), GapTime), MaxZones))
  }

  /** One step of the detection pass: the gap around index `i`, if any. */
  method ScanGapAt(bars: seq<Bar>, i: nat) returns (added: seq<FairValueGap>)
    requires 1 <= i && i + 1 < |bars|
    ensures added == GapAt(bars, i).ToSeq()
  {
    var prev := bars[i - 1];
    var cur := bars[i];
    var next := bars[i + 1];
    added := [];
    if cur.low > prev.high && cur.low > next.high {
      var gapStart := MaxR(prev.high, next.high);
      if cur.low - gapStart > 0.0 {
        added := [FairValueGap(gapStart, cur.low, cur.time, 0.0, true)];
      }
    } else if cur.high < prev.low && cur.high < next.low {
      var gapEnd := MinR(prev.low, next.low);
      if gapEnd - cur.high > 0.0 {
        added := [FairValueGap(cur.high, gapEnd, cur.time, 0.0, true)];
      }
    }
  }

  /** The detection pass of identify_fvg. */
  method DetectGaps(bars: seq<Bar>) returns (gaps: seq<FairValueGap>)
    ensures gaps == GapsFrom(bars, 1)
  {
    gaps := [];
    var i := 1;
    while i + 1 < |bars|
      invariant 1 <= i
      invariant gaps + GapsFrom(bars, i) == GapsFrom(bars, 1)
      decreases |bars| - i
    {
      var added := ScanGapAt(bars, i);
      assert GapsFrom(bars, i) == added + GapsFrom(bars, i + 1);
      gaps := gaps + added;
      i := i + 1;
    }
    assert GapsFrom(bars, i) == [];
    assert gaps == GapsFrom(bars, 1);
  }

  /** The fill pass of identify_fvg: every gap object is updated in place. */
  method FillGaps(detected: seq<FairValueGap>, price: real) returns (gaps: seq<FairValueGap>)
    ensures gaps == FillAll(detected, price)
  {
    gaps := detected;
    var k := 0;
    while k < |gaps|
      invariant 0 <= k <= |gaps| == |detected|
      invariant forall m :: 0 <= m < k ==> gaps[m] == ApplyFill(detected[m], price)
      invariant forall m :: k <= m < |gaps| ==> gaps[m] == detected[m]
    {
      gaps := gaps[k := ApplyFill(gaps[k], price)];
      k := k + 1;
    }
  }

  /** identify_fvg: detect, fill against the latest close, keep the 10
      latest. */
  method IdentifyFvg(bars: seq<Bar>) returns (result: Option<seq<FairValueGap>>)
    ensures result == FvgResult(bars)
  {
    if |bars| == 0 {
      return None;
    }
    var detected := DetectGaps(bars);
    var gaps := FillGaps(detected, bars[|bars| - 1].close);
    result := Some(Take(SortDesc(gaps, GapTime), MaxZones));
  }

  /** Where a detected gap sits: a bullish gap runs from the higher of the
      neighbours' highs up to the middle low, a bearish one from the middle
      high up to the lower of the neighbours' lows; either way start < end,
      the fill is 0 and the gap is active. */
  lemma {:induction false} GapAtMeaning(bars: seq<Bar>, i: nat)
    requires 1 <= i && i + 1 < |bars|
    ensures var r := GapAt(bars, i);
      var prev, cur, next := bars[i - 1], bars[i], bars[i + 1];
      (r.Some? <==>
        (cur.low > prev.high && cur.low > next.high) || (cur.high < prev.low && cur.high < next.low)) &&
      (r.Some? ==> (r.value.start < r.value.end && r.value.time == cur.time &&
        r.value.filled == 0.0 && r.value.active &&
        ((r.value.start == MaxR(prev.high, next.high) && r.value.end == cur.low) ||
         (r.value.start == cur.high && r.value.end == MinR(prev.low, next.low)))))
  {
  }

  /** The fill of a gap with start < end: always in [0, 1]; a gap stays
      active exactly while the price is strictly inside it, and is marked
      fully filled exactly when it does not. */
  lemma {:induction false} ApplyFillMeaning(g: FairValueGap, price: real)
    requires g.start < g.end && g.active
    ensures var f := ApplyFill(g, price);
      0.0 <= f.filled <= 1.0 &&
      (f.active <==> g.start < price < g.end) &&
      (f.active ==> 0.0 < f.filled < 1.0 && f.filled == (price - g.start) / (g.end - g.start)) &&
      (!f.active <==> f.filled == 1.0) &&
      f.start == g.start && f.end == g.end && f.time == g.time
  {
    if g.start < price < g.end {
      var d := g.end - g.start;
      var x := price - g.start;
      assert DivLess(x, d, 1.0) && DivGreater(x, d, 0.0);
    }
  }

  lemma {:induction false} GapsFromMembers(bars: seq<Bar>, i: nat, g: FairValueGap)
    requires 1 <= i && g in GapsFrom(bars, i)
    ensures exists j :: i <= j && j + 1 < |bars| && GapAt(bars, j) == Some(g)
    decreases |bars| - i
  {
    if i + 1 < |bars| {
      if GapAt(bars, i) != Some(g) {
        GapsFromMembers(bars, i + 1, g);
      }
    }
  }

  /** A detected gap, once filled against `price`, lies in start < end, has
      its fill in [0, 1] and is active exactly when the price is strictly
      inside it. */
  lemma {:induction false} FilledGapMeaning(bars: seq<Bar>, d: FairValueGap, price: real)
    requires d in GapsFrom(bars, 1)
    ensures var g := ApplyFill(d, price);
      g.start < g.end && 0.0 <= g.filled <= 1.0 && (g.active <==> g.start < price < g.end)
  {
    GapsFromMembers(bars, 1, d);
    var j :| 1 <= j && j + 1 < |bars| && GapAt(bars, j) == Some(d);
    GapAtMeaning(bars, j);
    ApplyFillMeaning(d, price);
  }

  /** The reported gaps: none (an error) exactly for an empty frame;
      otherwise at most 10, latest first, each one the gap detected around
      some bar after its fill against the last close, so its fill is in
      [0, 1] and it is active exactly when that close lies strictly inside
      it. */
  lemma {:induction false} FvgResultMeaning(bars: seq<Bar>, g: FairValueGap)
    ensures FvgResult(bars).None? <==> |bars| == 0
    ensures FvgResult(bars).Some? ==>
      var r := FvgResult(bars).value;
      var price := bars[|bars| - 1].close;
      |r| <= MaxZones && DescendingBy(r, GapTime) &&
      (g in r ==> g.start < g.end && 0.0 <= g.filled <= 1.0 && (g.active <==> g.start < price < g.end)) &&
      (g in r ==> exists j :: 1 <= j && j + 1 < |bars| && GapAt(bars, j).Some? && g == ApplyFill(GapAt(bars, j).value, price))
  {
    if |bars| > 0 {
      var price := bars[|bars| - 1].close;
      var detected := GapsFrom(bars, 1);
      var filled := FillAll(detected, price);
      TopSortedDesc(filled, GapTime, MaxZones, g);
      if g in FvgResult(bars).value {
        var k :| 0 <= k < |filled| && filled[k] == g;
        FilledGapMeaning(bars, detected[k], price);
        GapsFromMembers(bars, 1, detected[k]);
        var j :| 1 <= j && j + 1 < |bars| && GapAt(bars, j) == Some(detected[k]);
        assert g == ApplyFill(GapAt(bars, j).value, price);
      }
    }
  }
}
