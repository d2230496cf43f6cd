/** Swing-point detection (src/indicators/smc.py, identify_swing_points).
    A bar is a swing high when its high is strictly above every other high
    in the window [i - left, i + right]; a swing low mirrors this with lows
    and strict less-than. Ties disqualify a bar. */
module SwingDetection {
  import opened Common

  /** SMCConfig.SWING_LOOKBACK */
  const SwingLookback: nat := 5

  datatype SwingKind = HighSwing | LowSwing

  datatype SwingPoint = SwingPoint(index: nat, price: real, kind: SwingKind, time: int)

  /** `lookback or SWING_LOOKBACK`: a missing lookback and a lookback of 0
      both select the default. */
  function EffectiveLookback(requested: Option<nat>): (r: nat)
    ensures r > 0
    ensures requested == None || requested == Some(0) ==> r == SwingLookback
    ensures requested.Some? && requested.value > 0 ==> r == requested.value
  {
    match requested
    case Some(k) => if k == 0 then SwingLookback else k
    case None => SwingLookback
  }

  /** The price a swing of this kind is measured on. */
  function Extreme(b: Bar, kind: SwingKind): real {
    match kind
    case HighSwing => b.high
    case LowSwing => b.low
  }

  /** `a` is strictly more extreme than `b` for this kind. */
  predicate Beats(a: real, b: real, kind: SwingKind) {
    match kind
    case HighSwing => a > b
    case LowSwing => a < b
  }

  /** Index `i` has a full window of `left` bars before it and `right` after. */
  predicate InWindow(n: nat, i: nat, left: nat, right: nat) {
    left <= i && i + right < n
  }

  /** Bar `i` is strictly more extreme than bar `j`. */
  predicate Dominates(bars: seq<Bar>, i: nat, j: int, kind: SwingKind)
    requires i < |bars| && 0 <= j < |bars|
  {
    Beats(Extreme(bars[i], kind), Extreme(bars[j], kind), kind)
  }

  /** The defining property of a swing point at index `i`. */
  predicate IsSwing(bars: seq<Bar>, i: nat, left: nat, right: nat, kind: SwingKind) {
    InWindow(|bars|, i, left, right) &&
    forall j: int :: i - left <= j <= i + right && j != i ==> Dominates(bars, i, j, kind)
  }

  function PointAt(bars: seq<Bar>, i: nat, kind: SwingKind): SwingPoint
    requires i < |bars|
  {
    SwingPoint(i, Extreme(bars[i], kind), kind, bars[i].time)
  }

  /** The swing of `kind` at index `i`, if it is one. */
  function SwingAt(bars: seq<Bar>, i: nat, left: nat, right: nat, kind: SwingKind): seq<SwingPoint>
    requires i < |bars|
  {
    if IsSwing(bars, i, left, right, kind) then [PointAt(bars, i, kind)] else []
  }

  /** The swings of `kind` found by scanning indices `i`, `i + 1`, ... up to
      the last index with a full right window, in scan order. */
  function SwingsFrom(bars: seq<Bar>, left: nat, right: nat, kind: SwingKind, i: nat): seq<SwingPoint>
    decreases |bars| - i
  {
    if i + right >= |bars| then []
    else SwingAt(bars, i, left, right, kind) + SwingsFrom(bars, left, right, kind, i + 1)
  }

  /** All swings of `kind` (the scan starts at index `left`). */
  function Swings(bars: seq<Bar>, left: nat, right: nat, kind: SwingKind): seq<SwingPoint> {
    SwingsFrom(bars, left, right, kind, left)
  }

  /** A list of swing points of one kind taken from `bars`: each entry records
      its bar's index, extreme price and timestamp, and indices strictly
      increase. */
  predicate ValidSwings(bars: seq<Bar>, pts: seq<SwingPoint>, kind: SwingKind) {
    (forall k :: 0 <= k < |pts| ==>
      pts[k].index < |bars| && pts[k] == PointAt(bars, pts[k].index, kind)) &&
    (forall a, b :: 0 <= a < b < |pts| ==> pts[a].index < pts[b].index)
  }

  // ---------------------------------------------------------------- methods

  /** The inner scan of one candidate: stops at the first neighbour that
      ties or beats it. */
  method CheckSwing(bars: seq<Bar>, i: nat, left: nat, right: nat, kind: SwingKind) returns (isSwing: bool)
    requires InWindow(|bars|, i, left, right)
    ensures isSwing == IsSwing(bars, i, left, right, kind)
  {
    var current := Extreme(bars[i], kind);
    isSwing := true;
    var j: int := i - left;
    while j <= i + right
      invariant i - left <= j <= i + right + 1
      invariant isSwing
      invariant forall m: int :: i - left <= m < j && m != i ==> Dominates(bars, i, m, kind)
    {
      if j != i && !Beats(current, Extreme(bars[j], kind), kind) {
        assert !Dominates(bars, i, j, kind);
        isSwing := false;
        break;
      }
      j := j + 1;
    }
  }

  /** One candidate index: tested for a swing high, then for a swing low. */
  method ScanCandidate(bars: seq<Bar>, i: nat, left: nat, right: nat)
    returns (newHigh: seq<SwingPoint>, newLow: seq<SwingPoint>)
    requires InWindow(|bars|, i, left, right)
    ensures newHigh == SwingAt(bars, i, left, right, HighSwing)
    ensures newLow == SwingAt(bars, i, left, right, LowSwing)
  {
    newHigh, newLow := [], [];
    var isHigh := CheckSwing(bars, i, left, right, HighSwing);
    if isHigh {
      newHigh := [PointAt(bars, i, HighSwing)];
    }
    var isLow := CheckSwing(bars, i, left, right, LowSwing);
    if isLow {
      newLow := [PointAt(bars, i, LowSwing)];
    }
  }

  /** The scan invariant survives one more candidate. */
  lemma {:induction false} ScanStep(bars: seq<Bar>, left: nat, right: nat, kind: SwingKind, i: nat,
                                    found: seq<SwingPoint>, added: seq<SwingPoint>)
    requires i + right < |bars|
    requires found + SwingsFrom(bars, left, right, kind, i) == Swings(bars, left, right, kind)
    requires added == SwingAt(bars, i, left, right, kind)
    ensures (found + added) + SwingsFrom(bars, left, right, kind, i + 1) == Swings(bars, left, right, kind)
  {
    var rest := SwingsFrom(bars, left, right, kind, i + 1);
    assert SwingsFrom(bars, left, right, kind, i) == added + rest;
    assert found + (added + rest) == (found + added) + rest;
  }

  /** identify_swing_points: one pass over the candidate indices, testing
      each for a swing high and then a swing low. */
  method IdentifySwingPoints(bars: seq<Bar>, lookbackLeft: Option<nat>, lookbackRight: Option<nat>)
    returns (highs: seq<SwingPoint>, lows: seq<SwingPoint>)
    ensures highs == Swings(bars, EffectiveLookback(lookbackLeft), EffectiveLookback(lookbackRight), HighSwing)
    ensures lows == Swings(bars, EffectiveLookback(lookbackLeft), EffectiveLookback(lookbackRight), LowSwing)
  {
    var left := EffectiveLookback(lookbackLeft);
    var right := EffectiveLookback(lookbackRight);
    highs, lows := [], [];
    var i := left;
    while i + right < |bars|
      invariant left <= i
      invariant highs + SwingsFrom(bars, left, right, HighSwing, i) == Swings(bars, left, right, HighSwing)
      invariant lows + SwingsFrom(bars, left, right, LowSwing, i) == Swings(bars, left, right, LowSwing)
      decreases |bars| - i
    {
      var newHigh, newLow := ScanCandidate(bars, i, left, right);
      ScanStep(bars, left, right, HighSwing, i, highs, newHigh);
      ScanStep(bars, left, right, LowSwing, i, lows, newLow);
      highs := highs + newHigh;
      lows := lows + newLow;
      i := i + 1;
    }
    assert SwingsFrom(bars, left, right, HighSwing, i) == [] && SwingsFrom(bars, left, right, LowSwing, i) == [];
  }

  // ----------------------------------------------------------------- lemmas

  lemma {:induction false} SwingsFromValid(bars: seq<Bar>, left: nat, right: nat, kind: SwingKind, i: nat)
    ensures ValidSwings(bars, SwingsFrom(bars, left, right, kind, i), kind)
    ensures forall k :: 0 <= k < |SwingsFrom(bars, left, right, kind, i)| ==>
      i <= SwingsFrom(bars, left, right, kind, i)[k].index
    ensures forall k :: 0 <= k < |SwingsFrom(bars, left, right, kind, i)| ==>
      IsSwing(bars, SwingsFrom(bars, left, right, kind, i)[k].index, left, right, kind)
    decreases |bars| - i
  {
    var all := SwingsFrom(bars, left, right, kind, i);
    if i + right < |bars| {
      SwingsFromValid(bars, left, right, kind, i + 1);
      var here := SwingAt(bars, i, left, right, kind);
      var rest := SwingsFrom(bars, left, right, kind, i + 1);
      assert all == here + rest;
      forall k | 0 <= k < |all|
        ensures i <= all[k].index < |bars| && all[k] == PointAt(bars, all[k].index, kind)
        ensures IsSwing(bars, all[k].index, left, right, kind)
        ensures k >= |here| ==> all[k] == rest[k - |here|] && i < all[k].index
      {
      }
      forall a, b | 0 <= a < b < |all|
        ensures all[a].index < all[b].index
      {
        if a >= |here| {
          assert all[a] == rest[a - |here|] && all[b] == rest[b - |here|];
        }
      }
    } else {
      assert all == [];
    }
  }

  /** Both lists come out in strictly increasing index order, every entry
      is a genuine swing, and it carries its bar's price and timestamp. */
  lemma {:induction false} SwingsValid(bars: seq<Bar>, left: nat, right: nat, kind: SwingKind)
    ensures ValidSwings(bars, Swings(bars, left, right, kind), kind)
    ensures forall k :: 0 <= k < |Swings(bars, left, right, kind)| ==>
      IsSwing(bars, Swings(bars, left, right, kind)[k].index, left, right, kind)
  {
    SwingsFromValid(bars, left, right, kind, left);
  }

  lemma {:induction false} SwingsFromComplete(bars: seq<Bar>, left: nat, right: nat, kind: SwingKind, i: nat, m: nat)
    requires i <= m && IsSwing(bars, m, left, right, kind)
    ensures PointAt(bars, m, kind) in SwingsFrom(bars, left, right, kind, i)
    decreases |bars| - i
  {
    var here := SwingAt(bars, i, left, right, kind);
    var rest := SwingsFrom(bars, left, right, kind, i + 1);
    assert SwingsFrom(bars, left, right, kind, i) == here + rest;
    if i < m {
      SwingsFromComplete(bars, left, right, kind, i + 1, m);
    } else {
      assert here == [PointAt(bars, m, kind)];
    }
  }

  /** Every index satisfying the strict-window test is reported, and nothing
      else is: a bar is listed exactly when it is a swing. */
  lemma {:induction false} SwingsExact(bars: seq<Bar>, left: nat, right: nat, kind: SwingKind, m: nat)
    requires m < |bars|
    ensures PointAt(bars, m, kind) in Swings(bars, left, right, kind) <==> IsSwing(bars, m, left, right, kind)
  {
    if IsSwing(bars, m, left, right, kind) {
      SwingsFromComplete(bars, left, right, kind, left, m);
    } else {
      SwingsValid(bars, left, right, kind);
    }
  }

  /** A bar with a neighbour in its window that ties or beats it is never a
      swing; in particular ties disqualify. */
  lemma {:induction false} NeighbourDisqualifies(bars: seq<Bar>, i: nat, j: nat, left: nat, right: nat, kind: SwingKind)
    requires i < |bars| && j < |bars| && j != i
    requires i - left <= j <= i + right
    requires !Beats(Extreme(bars[i], kind), Extreme(bars[j], kind), kind)
    ensures !IsSwing(bars, i, left, right, kind)
  {
    assert !Dominates(bars, i, j, kind);
  }

  /** A series whose highs never fall has no swing high (the next bar always
      ties or beats it); so a steadily rising market yields no swing highs. */
  lemma {:induction false} RisingHighsHaveNoSwingHighs(bars: seq<Bar>, left: nat, right: nat)
    requires right > 0
    requires forall i :: 0 <= i < |bars| - 1 ==> bars[i].high <= bars[i + 1].high
    ensures Swings(bars, left, right, HighSwing) == []
  {
    SwingsValid(bars, left, right, HighSwing);
    var s := Swings(bars, left, right, HighSwing);
    if |s| > 0 {
      var i := s[0].index;
      NeighbourDisqualifies(bars, i, i + 1, left, right, HighSwing);
      assert false;
    }
  }

  /** A flat series (every bar's high equal, and every low equal) has no
      swing points of either kind. */
  lemma {:induction false} FlatSeriesHasNoSwings(bars: seq<Bar>, left: nat, right: nat, kind: SwingKind)
    requires right > 0
    requires forall i :: 0 <= i < |bars| ==> bars[i].high == bars[0].high && bars[i].low == bars[0].low
    ensures Swings(bars, left, right, kind) == []
  {
    SwingsValid(bars, left, right, kind);
    var s := Swings(bars, left, right, kind);
    if |s| > 0 {
      var i := s[0].index;
      NeighbourDisqualifies(bars, i, i + 1, left, right, kind);
      assert false;
    }
  }
}
