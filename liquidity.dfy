/** Liquidity pools, stop hunts and the premium/discount range
    (src/indicators/smc.py: identify_liquidity_zones, detect_stop_hunts,
    calculate_premium_discount). */
module Liquidity {
  import opened Common
  import opened SwingDetection

  /** SMCConfig.LIQUIDITY_MIN_TOUCHES */
  const MinTouches: nat := 2
  /** Relative tolerance under which two prices count as equal (0.1%). */
  const Tolerance: real := 0.001

  datatype ZoneKind = Resistance | Support

  /** A pool of resting orders at `price`, touched `touches` times. */
  datatype LiquidityZone = LiquidityZone(price: real, kind: ZoneKind, strength: real, touches: nat)

  /** `abs(p - level) / level < 0.001` */
  predicate NearLevel(p: real, level: real) {
    DivLess(Abs(p - level), level, Tolerance)
  }

  /** Mean of two swing prices. */
  function Midpoint(a: real, b: real): real { (a + b) / 2.0 }

  /** Swings `i` and `j` are "equal": within 0.1% of their mean. */
  predicate EqualPair(pts: seq<SwingPoint>, i: nat, j: nat)
    requires i < |pts| && j < |pts|
  {
    DivLess(Abs(pts[i].price - pts[j].price), Midpoint(pts[i].price, pts[j].price), Tolerance)
  }

  /** The first `j' >= j` whose swing equals swing `i`. */
  function FirstMatch(pts: seq<SwingPoint>, i: nat, j: nat): (r: Option<nat>)
    requires i < |pts|
    ensures r.Some? ==> j <= r.value < |pts| && EqualPair(pts, i, r.value)
    ensures r.Some? ==> forall m :: j <= m < r.value ==> !EqualPair(pts, i, m)
    ensures r.None? ==> forall m :: j <= m < |pts| ==> !EqualPair(pts, i, m)
    decreases |pts| - j
  {
    if j >= |pts| then None
    else if EqualPair(pts, i, j) then Some(j)
    else FirstMatch(pts, i, j + 1)
  }

  /** Number of swings within 0.1% of `level`. */
  function Touches(pts: seq<SwingPoint>, level: real): (r: nat)
    ensures r <= |pts|
  {
    if |pts| == 0 then 0
    else Touches(pts[..|pts| - 1], level) + (if NearLevel(pts[|pts| - 1].price, level) then 1 else 0)
  }

  /** The zone (if any) opened by swing `i`: only its first equal partner
      is considered, and the level is their mean. */
  function ZoneAt(pts: seq<SwingPoint>, i: nat, kind: ZoneKind): Option<LiquidityZone>
    requires i < |pts|
  {
    match FirstMatch(pts, i, i + 1)
    case None => None
    case Some(j) =>
      var level := Midpoint(pts[i].price, pts[j].price);
      var t := Touches(pts, level);
      if t >= MinTouches then Some(LiquidityZone(level, kind, MinR(t as real / 5.0, 1.0), t)) else None
  }

  function ZonesFrom(pts: seq<SwingPoint>, kind: ZoneKind, i: nat): seq<LiquidityZone>
    decreases |pts| - i
  {
    if i + 1 >= |pts| then []
    else ZoneAt(pts, i, kind).ToSeq() + ZonesFrom(pts, kind, i + 1)
  }

  /** identify_liquidity_zones: equal highs give resistance zones, then equal
      lows give support zones. */
  function LiquidityZones(bars: seq<Bar>): seq<LiquidityZone> {
    ZonesFrom(Swings(bars, SwingLookback, SwingLookback, HighSwing), Resistance, 0) +
    ZonesFrom(Swings(bars, SwingLookback, SwingLookback, LowSwing), Support, 0)
  }

  /** The touch count of one level, as the generator expression computes it. */
  method CountTouches(pts: seq<SwingPoint>, level: real) returns (t: nat)
    ensures t == Touches(pts, level)
  {
    t := 0;
    var m := 0;
    while m < |pts|
      invariant 0 <= m <= |pts|
      invariant t == Touches(pts[..m], level)
    {
      assert pts[..m + 1][..m] == pts[..m];
      if NearLevel(pts[m].price, level) {
        t := t + 1;
      }
      m := m + 1;
    }
    assert pts[..m] == pts;
  }

  /** The inner loop: scan later swings and stop at the first equal one. */
  method FindMatch(pts: seq<SwingPoint>, i: nat) returns (m: Option<nat>)
    requires i < |pts|
    ensures m == FirstMatch(pts, i, i + 1)
  {
    var j := i + 1;
    while j < |pts|
      invariant i + 1 <= j <= |pts|
      invariant FirstMatch(pts, i, i + 1) == FirstMatch(pts, i, j)
      decreases |pts| - j
    {
      if EqualPair(pts, i, j) {
        return Some(j);
      }
      j := j + 1;
    }
    m := None;
  }

  /** One pass of the outer loop: the zone swing `i` opens, if any. */
  method ZoneStep(pts: seq<SwingPoint>, i: nat, kind: ZoneKind) returns (added: seq<LiquidityZone>)
    requires i < |pts|
    ensures added == ZoneAt(pts, i, kind).ToSeq()
  {
    added := [];
    var m := FindMatch(pts, i);
    if m.Some? {
      var level := Midpoint(pts[i].price, pts[m.value].price);
      var touches := CountTouches(pts, level);
      if touches >= MinTouches {
        added := [LiquidityZone(level, kind, MinR(touches as real / 5.0, 1.0), touches)];
      }
    }
  }

  /** The double loop over one swing list: for each swing, the first equal
      later swing decides whether a zone opens. */
  method ClusterSwings(pts: seq<SwingPoint>, kind: ZoneKind) returns (zones: seq<LiquidityZone>)
    ensures zones == ZonesFrom(pts, kind, 0)
  {
    zones := [];
    var i := 0;
    while i + 1 < |pts|
      invariant zones + ZonesFrom(pts, kind, i) == ZonesFrom(pts, kind, 0)
      decreases |pts| - i
    {
      var added := ZoneStep(pts, i, kind);
      ghost var rest := ZonesFrom(pts, kind, i + 1);
      assert ZonesFrom(pts, kind, i) == added + rest;
      AppendAssoc(zones, added, rest);
      zones := zones + added;
      i := i + 1;
    }
    assert ZonesFrom(pts, kind, i) == [];
    assert zones == ZonesFrom(pts, kind, 0);
  }

  method IdentifyLiquidityZones(bars: seq<Bar>) returns (zones: seq<LiquidityZone>)
    ensures zones == LiquidityZones(bars)
  {
    var highs, lows := IdentifySwingPoints(bars, None, None);
    var resistance := ClusterSwings(highs, Resistance);
    var support := ClusterSwings(lows, Support);
    zones := resistance + support;
  }

  /** The zone's level is the mean of an equal pair of swings, both at
      index `i` or later. */
  predicate PairLevel(z: LiquidityZone, pts: seq<SwingPoint>, i: nat) {
    exists a, b :: i <= a < b < |pts| && EqualPair(pts, a, b) && z.price == Midpoint(pts[a].price, pts[b].price)
  }

  /** At least two touches, strength min(touches / 5, 1), which lies in
      (0, 1]. */
  predicate WellCounted(z: LiquidityZone) {
    z.touches >= MinTouches && z.strength == MinR(z.touches as real / 5.0, 1.0) && 0.0 < z.strength <= 1.0
  }

  /** The zone swing `i` opens, if any, is of the scan's kind, well counted,
      and levelled on an equal pair starting at `i`. */
  lemma {:induction false} ZoneAtFacts(pts: seq<SwingPoint>, i: nat, kind: ZoneKind)
    requires i < |pts|
    ensures ZoneAt(pts, i, kind).Some? ==>
      var z := ZoneAt(pts, i, kind).value;
      z.kind == kind && z.touches <= |pts| && WellCounted(z) && PairLevel(z, pts, i)
  {
    if ZoneAt(pts, i, kind).Some? {
      var j := FirstMatch(pts, i, i + 1).value;
      assert EqualPair(pts, i, j);
    }
  }

  lemma {:induction false} PairLevelWeaken(z: LiquidityZone, pts: seq<SwingPoint>, i: nat)
    requires PairLevel(z, pts, i + 1)
    ensures PairLevel(z, pts, i)
  {
    var a, b :| i + 1 <= a < b < |pts| && EqualPair(pts, a, b) && z.price == Midpoint(pts[a].price, pts[b].price);
  }

  lemma {:induction false} ZonesFromFacts(pts: seq<SwingPoint>, kind: ZoneKind, i: nat)
    ensures |ZonesFrom(pts, kind, i)| <= if i + 1 >= |pts| then 0 else |pts| - 1 - i
    ensures forall k :: 0 <= k < |ZonesFrom(pts, kind, i)| ==>
      var z := ZonesFrom(pts, kind, i)[k];
      z.kind == kind && z.touches <= |pts| && WellCounted(z) && PairLevel(z, pts, i)
    decreases |pts| - i
  {
    if i + 1 < |pts| {
      ZonesFromFacts(pts, kind, i + 1);
      ZoneAtFacts(pts, i, kind);
      var here := ZoneAt(pts, i, kind).ToSeq();
      var rest := ZonesFrom(pts, kind, i + 1);
      var all := ZonesFrom(pts, kind, i);
      assert all == here + rest;
      forall k | 0 <= k < |all|
        ensures all[k].kind == kind && all[k].touches <= |pts| && WellCounted(all[k]) && PairLevel(all[k], pts, i)
      {
        if k < |here| {
          assert all[k] == here[k];
        } else {
          var z := rest[k - |here|];
          assert all[k] == z;
          PairLevelWeaken(z, pts, i);
        }
      }
    } else {
      assert ZonesFrom(pts, kind, i) == [];
    }
  }

  /** Every zone: at least two touches, strength min(touches / 5, 1) in
      (0, 1], its level the mean of two swings of its kind that lie within
      0.1% of each other; resistance zones come from swing highs and precede
      the support zones from swing lows; a list of n swings gives at most
      n - 1 zones. */
  lemma {:induction false} LiquidityZonesMeaning(bars: seq<Bar>)
    ensures var highs := Swings(bars, SwingLookback, SwingLookback, HighSwing);
      var lows := Swings(bars, SwingLookback, SwingLookback, LowSwing);
      var zs := LiquidityZones(bars);
      var nr := |ZonesFrom(highs, Resistance, 0)|;
      (nr == 0 || nr < |highs|) && (|zs| - nr == 0 || |zs| - nr < |lows|) &&
      (forall k :: 0 <= k < nr ==> zs[k].kind == Resistance && PairLevel(zs[k], highs, 0)) &&
      (forall k :: nr <= k < |zs| ==> zs[k].kind == Support && PairLevel(zs[k], lows, 0)) &&
      (forall k :: 0 <= k < |zs| ==> WellCounted(zs[k]))
  {
    ClusteredZones(Swings(bars, SwingLookback, SwingLookback, HighSwing),
                   Swings(bars, SwingLookback, SwingLookback, LowSwing));
  }

  /** The facts of LiquidityZonesMeaning for any two swing lists. */
  lemma {:induction false} ClusteredZones(highs: seq<SwingPoint>, lows: seq<SwingPoint>)
    ensures var zs := ZonesFrom(highs, Resistance, 0) + ZonesFrom(lows, Support, 0);
      var nr := |ZonesFrom(highs, Resistance, 0)|;
      (nr == 0 || nr < |highs|) && (|zs| - nr == 0 || |zs| - nr < |lows|) &&
      (forall k :: 0 <= k < nr ==> zs[k].kind == Resistance && PairLevel(zs[k], highs, 0)) &&
      (forall k :: nr <= k < |zs| ==> zs[k].kind == Support && PairLevel(zs[k], lows, 0)) &&
      (forall k :: 0 <= k < |zs| ==> WellCounted(zs[k]))
  {
    ZonesFromFacts(highs, Resistance, 0);
    ZonesFromFacts(lows, Support, 0);
    var r := ZonesFrom(highs, Resistance, 0);
    var s := ZonesFrom(lows, Support, 0);
    var zs := r + s;
    forall k | |r| <= k < |zs|
      ensures zs[k] == s[k - |r|]
    {
    }
  }

  lemma {:induction false} TouchesAtLeast(pts: seq<SwingPoint>, level: real, a: nat, b: nat, n: nat)
    requires a < b < |pts| && n <= |pts|
    requires NearLevel(pts[a].price, level) && NearLevel(pts[b].price, level)
    ensures Touches(pts[..n], level) >= (if a < n then 1 else 0) + (if b < n then 1 else 0)
  {
    if n > 0 {
      assert pts[..n][..n - 1] == pts[..n - 1];
      TouchesAtLeast(pts, level, a, b, n - 1);
    }
  }

  /** With positive prices the touch test never rejects a pair: both swings
      of an equal pair lie within 0.1% of their mean, so every swing that has
      an equal later swing opens a zone. */
  lemma {:induction false} EqualPairOpensZone(pts: seq<SwingPoint>, i: nat, kind: ZoneKind)
    requires i < |pts|
    requires forall k :: 0 <= k < |pts| ==> pts[k].price > 0.0
    ensures ZoneAt(pts, i, kind).Some? <==> FirstMatch(pts, i, i + 1).Some?
  {
    var m := FirstMatch(pts, i, i + 1);
    if m.Some? {
      var j := m.value;
      var p, q := pts[i].price, pts[j].price;
      var level := Midpoint(p, q);
      assert Abs(p - q) < Tolerance * level;
      assert Abs(p - level) == Abs(p - q) / 2.0;
      assert Abs(q - level) == Abs(p - q) / 2.0;
      TouchesAtLeast(pts, level, i, j, |pts|);
      assert pts[..|pts|] == pts;
    }
  }

  // ------------------------------------------------------------ stop hunts

  datatype HuntKind = BearishHunt | BullishHunt

  /** A wick through a liquidity level that closes back on the near side;
      `extreme` is the wick's high (bearish) or low (bullish). */
  datatype StopHunt = StopHunt(kind: HuntKind, level: real, extreme: real, close: real, time: int)

  /** The test of one bar against one zone. */
  function HuntAt(b: Bar, z: LiquidityZone): Option<StopHunt> {
    match z.kind
    case Resistance =>
      if b.high > z.price && b.close < z.price && DivGreater(b.high - b.close, b.high - b.low, 0.6)
      then Some(StopHunt(BearishHunt, z.price, b.high, b.close, b.time)) else None
    case Support =>
      if b.low < z.price && b.close > z.price && DivGreater(b.close - b.low, b.high - b.low, 0.6)
      then Some(StopHunt(BullishHunt, z.price, b.low, b.close, b.time)) else None
  }

  /** The hunts of one bar, zone by zone. */
  function HuntsOfBar(b: Bar, zones: seq<LiquidityZone>): seq<StopHunt> {
    if |zones| == 0 then []
    else
      HuntsOfBar(b, zones[..|zones| - 1]) + HuntAt(b, zones[|zones| - 1]).ToSeq()
  }

  /** The hunts of the first `k` bars, bar by bar. */
  function HuntsUpTo(bars: seq<Bar>, zones: seq<LiquidityZone>, k: nat): seq<StopHunt>
    requires k <= |bars|
  {
    if k == 0 then [] else HuntsUpTo(bars, zones, k - 1) + HuntsOfBar(bars[k - 1], zones)
  }

  /** The last 5 hunts of the bars against the given zones. */
  function HuntsAgainst(bars: seq<Bar>, zones: seq<LiquidityZone>): seq<StopHunt> {
    LastN(HuntsUpTo(bars, zones, |bars|), 5)
  }

  function StopHunts(bars: seq<Bar>): seq<StopHunt> {
    HuntsAgainst(bars, LiquidityZones(bars))
  }

  /** The inner loop of detect_stop_hunts: one bar against every zone. */
  method BarHunts(b: Bar, zones: seq<LiquidityZone>) returns (found: seq<StopHunt>)
    ensures found == HuntsOfBar(b, zones)
  {
    found := [];
    var z := 0;
    while z < |zones|
      invariant 0 <= z <= |zones|
      invariant found == HuntsOfBar(b, zones[..z])
    {
      assert zones[..z + 1][..z] == zones[..z];
      var h := HuntAt(b, zones[z]);
      if h.Some? {
        found := found + [h.value];
      }
      z := z + 1;
    }
    assert zones[..z] == zones;
  }

  /** detect_stop_hunts: every bar against every zone, the last 5 kept. */
  method DetectStopHunts(bars: seq<Bar>) returns (hunts: seq<StopHunt>)
    ensures hunts == StopHunts(bars)
  {
    var zones := IdentifyLiquidityZones(bars);
    var all: seq<StopHunt> := [];
    var i := 0;
    while i < |bars|
      invariant 0 <= i <= |bars|
      invariant all == HuntsUpTo(bars, zones, i)
    {
      var found := BarHunts(bars[i], zones);
      all := all + found;
      i := i + 1;
    }
    hunts := LastN(all, 5);
  }

  lemma {:induction false} HuntsOfBarFacts(b: Bar, zones: seq<LiquidityZone>, h: StopHunt)
    requires h in HuntsOfBar(b, zones)
    ensures exists z :: z in zones && HuntAt(b, z) == Some(h)
  {
    var p := zones[..|zones| - 1];
    if h in HuntsOfBar(b, p) {
      HuntsOfBarFacts(b, p, h);
      var z :| z in p && HuntAt(b, z) == Some(h);
      assert z in zones;
    } else {
      assert HuntAt(b, zones[|zones| - 1]) == Some(h);
    }
  }

  lemma {:induction false} HuntsUpToFacts(bars: seq<Bar>, zones: seq<LiquidityZone>, k: nat, h: StopHunt)
    requires k <= |bars| && h in HuntsUpTo(bars, zones, k)
    ensures exists i, z :: 0 <= i < k && z in zones && HuntAt(bars[i], z) == Some(h)
  {
    if h in HuntsUpTo(bars, zones, k - 1) {
      HuntsUpToFacts(bars, zones, k - 1, h);
    } else {
      HuntsOfBarFacts(bars[k - 1], zones, h);
    }
  }

  /** One bar against one zone: a hunt is a bar whose wick pierced the
      level and that closed back beyond it, the wick being more than 60% of
      the bar's range — above a resistance level for a bearish hunt, below a
      support level for a bullish one. */
  lemma {:induction false} HuntAtMeaning(b: Bar, z: LiquidityZone)
    ensures var r := HuntAt(b, z);
      (r.Some? ==> r.value.time == b.time && r.value.level == z.price && r.value.close == b.close) &&
      (r.Some? && r.value.kind == BearishHunt <==>
        z.kind == Resistance && b.high > z.price > b.close && DivGreater(b.high - b.close, b.high - b.low, 0.6)) &&
      (r.Some? && r.value.kind == BullishHunt <==>
        z.kind == Support && b.low < z.price < b.close && DivGreater(b.close - b.low, b.high - b.low, 0.6)) &&
      (r.Some? && r.value.kind == BearishHunt ==> r.value.extreme == b.high) &&
      (r.Some? && r.value.kind == BullishHunt ==> r.value.extreme == b.low)
  {
  }

  /** The reported hunts: at most 5, each produced by one of the bars
      against one of the zones (HuntAtMeaning says what that means). */
  lemma {:induction false} HuntsAgainstMeaning(bars: seq<Bar>, zones: seq<LiquidityZone>, h: StopHunt)
    ensures |HuntsAgainst(bars, zones)| <= 5
    ensures h in HuntsAgainst(bars, zones) ==>
      exists i, z :: 0 <= i < |bars| && z in zones && HuntAt(bars[i], z) == Some(h)
  {
    if h in HuntsAgainst(bars, zones) {
      LastNMember(HuntsUpTo(bars, zones, |bars|), 5, h);
      HuntsUpToFacts(bars, zones, |bars|, h);
    }
  }

  // ------------------------------------------------------ premium/discount

  datatype PriceZone = Premium | Discount | Equilibrium

  /** The Fibonacci levels between the range's high and low. */
  datatype FibLevels = FibLevels(high: real, premiumHigh: real, premiumLow: real, equilibrium: real,
                                 discountHigh: real, discountLow: real, low: real)

  datatype PremiumDiscount =
    | InsufficientData
    | Ranged(zone: PriceZone, sentiment: Sentiment, position: real, levels: FibLevels, price: real)

  /** Highest price among the swings (the first one of the list). */
  function MaxPrice(pts: seq<SwingPoint>): (r: real)
    requires |pts| > 0
    ensures exists k :: 0 <= k < |pts| && pts[k].price == r
    ensures forall k :: 0 <= k < |pts| ==> pts[k].price <= r
  {
    if |pts| == 1 then pts[0].price
    else MaxR(pts[0].price, MaxPrice(pts[1..]))
  }

  function MinPrice(pts: seq<SwingPoint>): (r: real)
    requires |pts| > 0
    ensures exists k :: 0 <= k < |pts| && pts[k].price == r
    ensures forall k :: 0 <= k < |pts| ==> pts[k].price >= r
  {
    if |pts| == 1 then pts[0].price
    else MinR(pts[0].price, MinPrice(pts[1..]))
  }

  function Levels(h: real, l: real): FibLevels {
    var r := h - l;
    FibLevels(h, h - r * 0.236, h - r * 0.382, h - r * 0.5, h - r * 0.618, h - r * 0.764, l)
  }

  /** The zone of `price` in the range between swing high `h` and swing low
      `l`. */
  function Classify(price: real, h: real, l: real): PremiumDiscount {
    var lv := Levels(h, l);
    var r := h - l;
    var position := if r > 0.0 then (price - l) / r else 0.5;
    if price > lv.premiumLow then Ranged(Premium, Bearish, position, lv, price)
    else if price < lv.discountHigh then Ranged(Discount, Bullish, position, lv, price)
    else Ranged(Equilibrium, Neutral, position, lv, price)
  }

  /** calculate_premium_discount over the default-lookback swings. */
  function PremiumDiscountOf(bars: seq<Bar>): PremiumDiscount {
    var highs := Swings(bars, SwingLookback, SwingLookback, HighSwing);
    var lows := Swings(bars, SwingLookback, SwingLookback, LowSwing);
    if |highs| == 0 || |lows| == 0 then InsufficientData
    else
      SwingsValid(bars, SwingLookback, SwingLookback, HighSwing);
      Classify(bars[|bars| - 1].close, MaxPrice(highs), MinPrice(lows))
  }

  /** The zones partition the price axis at the 61.8% and 38.2% levels and
      carry the contrarian sentiment (premium is bearish, discount bullish);
      when the range is positive the levels descend from high to low, the
      zone can be read off the position (premium above 0.618, discount below
      0.382), and the position lies in [0, 1] exactly when the price is
      inside the range; a non-positive range reports position 0.5. */
  lemma {:induction false} ClassifyMeaning(price: real, h: real, l: real)
    ensures var pd := Classify(price, h, l);
      pd.Ranged? && pd.levels.high == h && pd.levels.low == l && pd.price == price &&
      (pd.zone == Premium <==> price > pd.levels.premiumLow) &&
      (pd.zone == Discount <==> price <= pd.levels.premiumLow && price < pd.levels.discountHigh) &&
      (pd.zone == Premium <==> pd.sentiment == Bearish) &&
      (pd.zone == Discount <==> pd.sentiment == Bullish) &&
      (pd.zone == Equilibrium <==> pd.sentiment == Neutral) &&
      (h - l <= 0.0 ==> pd.position == 0.5) &&
      (h - l > 0.0 ==>
        pd.levels.high >= pd.levels.premiumHigh >= pd.levels.premiumLow >= pd.levels.equilibrium >=
          pd.levels.discountHigh >= pd.levels.discountLow >= pd.levels.low &&
        pd.position * (h - l) == price - l &&
        (pd.zone == Premium <==> pd.position > 0.618) &&
        (pd.zone == Discount <==> pd.position < 0.382) &&
        (0.0 <= pd.position <= 1.0 <==> l <= price <= h))
  {
    var r := h - l;
    if r > 0.0 {
      var pos := (price - l) / r;
      assert pos * r == price - l;
      assert price > h - r * 0.382 <==> pos > 0.618 by {
        assert price > h - r * 0.382 <==> price - l > 0.618 * r;
        assert DivGreater(price - l, r, 0.618) <==> pos > 0.618;
      }
      assert price < h - r * 0.618 <==> pos < 0.382 by {
        assert price < h - r * 0.618 <==> price - l < 0.382 * r;
        assert DivLess(price - l, r, 0.382) <==> pos < 0.382;
      }
      assert 0.0 <= pos <= 1.0 <==> l <= price <= h by {
        assert DivAtLeast(price - l, r, 0.0) <==> pos >= 0.0;
        assert DivGreater(price - l, r, 1.0) <==> pos > 1.0;
      }
    }
  }

  /** No swing high or no swing low means insufficient data; otherwise the
      range runs from the highest swing high to the lowest swing low and the
      price is the last close. */
  lemma {:induction false} PremiumDiscountMeaning(bars: seq<Bar>)
    ensures var highs := Swings(bars, SwingLookback, SwingLookback, HighSwing);
      var lows := Swings(bars, SwingLookback, SwingLookback, LowSwing);
      var pd := PremiumDiscountOf(bars);
      (pd.InsufficientData? <==> |highs| == 0 || |lows| == 0) &&
      (pd.Ranged? ==> (|bars| > 0 && pd.price == bars[|bars| - 1].close &&
        (forall k :: 0 <= k < |highs| ==> highs[k].price <= pd.levels.high) &&
        (exists k :: 0 <= k < |highs| && highs[k].price == pd.levels.high) &&
        (forall k :: 0 <= k < |lows| ==> lows[k].price >= pd.levels.low) &&
        (exists k :: 0 <= k < |lows| && lows[k].price == pd.levels.low)))
  {
    var highs := Swings(bars, SwingLookback, SwingLookback, HighSwing);
    var lows := Swings(bars, SwingLookback, SwingLookback, LowSwing);
    if |highs| > 0 && |lows| > 0 {
      SwingsValid(bars, SwingLookback, SwingLookback, HighSwing);
      ClassifyMeaning(bars[|bars| - 1].close, MaxPrice(highs), MinPrice(lows));
    }
  }
}
