/** Shared value types of the market-analysis pipeline: OHLCV bars, the three
    sentiment classes, an optional value, and small sequence helpers that
    mirror Python slicing (`xs[-n:]`, `xs[:n]`, reversal). */
module Common {

  datatype Option<T> = None | Some(value: T)
  {
    function GetOr(default: T): T {
      match this
      case Some(v) => v
      case None => default
    }

    /** The value as a one-element list, or the empty list. */
    function ToSeq(): seq<T> {
      match this
      case Some(v) => [v]
      case None => []
    }
  }

  /** The three directional classes used by every fusing stage. */
  datatype Sentiment = Bullish | Bearish | Neutral

  /** One OHLCV bar; `time` is the bar's timestamp in seconds. */
  datatype Bar = Bar(time: int, open: real, high: real, low: real, close: real, volume: real)

  /** The shape the data cleaner gives every bar: positive prices, a high at
      or above the body, a low at or below it, and no negative volume. */
  predicate WellFormedBar(b: Bar) {
    b.open > 0.0 && b.close > 0.0 && b.low > 0.0 &&
    b.high >= b.open && b.high >= b.close &&
    b.low <= b.open && b.low <= b.close &&
    b.volume >= 0.0
  }

  /** A series the detectors accept: well-formed bars with strictly
      increasing timestamps. */
  predicate WellFormed(bars: seq<Bar>) {
    (forall i :: 0 <= i < |bars| ==> WellFormedBar(bars[i])) &&
    (forall i, j :: 0 <= i < j < |bars| ==> bars[i].time < bars[j].time)
  }

  function Abs(x: real): (r: real)
    ensures r >= 0.0 && (r == x || r == -x)
  {
    if x < 0.0 then -x else x
  }

  function MinR(a: real, b: real): (r: real)
    ensures r <= a && r <= b && (r == a || r == b)
  {
    if a <= b then a else b
  }

  function MaxR(a: real, b: real): (r: real)
    ensures r >= a && r >= b && (r == a || r == b)
  {
    if a >= b then a else b
  }

  /** `num / den > t` on floating-point values: a zero denominator gives
      +inf for a positive numerator, -inf for a negative one and NaN for zero,
      and NaN compares false. */
  predicate DivGreater(num: real, den: real, t: real)
    ensures den != 0.0 ==> (DivGreater(num, den, t) <==> num / den > t)
  {
    if den > 0.0 then num > t * den
    else if den < 0.0 then num < t * den
    else num > 0.0
  }

  /** `num / den >= t` on floating-point values (see DivGreater). */
  predicate DivAtLeast(num: real, den: real, t: real)
    ensures den != 0.0 ==> (DivAtLeast(num, den, t) <==> num / den >= t)
  {
    if den > 0.0 then num >= t * den
    else if den < 0.0 then num <= t * den
    else num > 0.0
  }

  /** `num / den < t` on floating-point values (see DivGreater). */
  predicate DivLess(num: real, den: real, t: real)
    ensures den != 0.0 ==> (DivLess(num, den, t) <==> num / den < t)
  {
    if den > 0.0 then num < t * den
    else if den < 0.0 then num > t * den
    else num < 0.0
  }

  /** Python's `xs[-n:]`: the last `n` elements, or all of them. */
  function LastN<T>(s: seq<T>, n: nat): (r: seq<T>)
    ensures |r| <= n && |r| <= |s|
    ensures |s| <= n ==> r == s
    ensures |s| > n ==> |r| == n
    ensures forall k :: 0 <= k < |r| ==> r[k] == s[|s| - |r| + k]
  {
    if |s| <= n then s else s[|s| - n..]
  }

  /** Concatenation regrouped to the right. */
  lemma {:induction false} AppendAssoc<T>(a: seq<T>, b: seq<T>, c: seq<T>)
    ensures a + b + c == a + (b + c)
  {
    assert forall k :: 0 <= k < |a + b + c| ==> (a + b + c)[k] == (a + (b + c))[k];
  }

  /** Membership in a concatenation is membership in either part. */
  lemma {:induction false} InConcat<T>(x: T, a: seq<T>, b: seq<T>)
    ensures x in a + b <==> x in a || x in b
  {
    if x in a + b {
      var k :| 0 <= k < |a + b| && (a + b)[k] == x;
      if k >= |a| {
        assert b[k - |a|] == x;
      }
    }
  }

  /** What LastN keeps comes from the list. */
  lemma {:induction false} LastNMember<T>(s: seq<T>, n: nat, x: T)
    requires x in LastN(s, n)
    ensures x in s
  {
    if |s| > n {
      assert s == s[..|s| - n] + LastN(s, n);
    }
  }

  /** Python's `xs[:n]`: the first `n` elements, or all of them. */
  function Take<T>(s: seq<T>, n: nat): (r: seq<T>)
    ensures |r| <= n && |r| <= |s|
    ensures |s| <= n ==> r == s
    ensures |s| > n ==> |r| == n
    ensures forall k :: 0 <= k < |r| ==> r[k] == s[k]
  {
    if |s| <= n then s else s[..n]
  }

  function Reverse<T>(s: seq<T>): (r: seq<T>)
    ensures |r| == |s|
    ensures forall k :: 0 <= k < |s| ==> r[k] == s[|s| - 1 - k]
  {
    if |s| == 0 then [] else Reverse(s[1..]) + [s[0]]
  }

  /** Number of positions of `s` holding `x` (Python's `list.count`). */
  function Count<T(==)>(s: seq<T>, x: T): (r: nat)
    ensures r <= |s|
  {
    if |s| == 0 then 0
    else Count(s[..|s| - 1], x) + (if s[|s| - 1] == x then 1 else 0)
  }

  lemma {:induction false} CountAppend<T>(s: seq<T>, y: T, x: T)
    ensures Count(s + [y], x) == Count(s, x) + (if y == x then 1 else 0)
  {
    assert (s + [y])[..|s|] == s;
  }

  /** Every element of a sequence is one value exactly when its count of that
      value is its length. */
  lemma {:induction false} CountAll<T>(s: seq<T>, x: T)
    ensures Count(s, x) == |s| <==> forall k :: 0 <= k < |s| ==> s[k] == x
  {
    if |s| > 0 {
      var p := s[..|s| - 1];
      CountAll(p, x);
      assert (forall k :: 0 <= k < |s| ==> s[k] == x) <==>
             (s[|s| - 1] == x && forall k :: 0 <= k < |p| ==> p[k] == x) by {
        assert forall k :: 0 <= k < |p| ==> p[k] == s[k];
      }
    }
  }

  /** `x` placed into a list already in descending key order, after every
      entry whose key is at least its own (so earlier equal keys stay first). */
  function InsertDesc<T>(x: T, s: seq<T>, key: T -> int): (r: seq<T>)
    ensures multiset(r) == multiset(s) + multiset{x}
    ensures |r| == |s| + 1
  {
    if |s| == 0 then [x]
    else if key(s[0]) >= key(x) then
      assert s == [s[0]] + s[1..];
      [s[0]] + InsertDesc(x, s[1..], key)
    else [x] + s
  }

  /** Python's stable `sorted(s, key=key, reverse=True)`: descending keys,
      equal keys in their original order. */
  function SortDesc<T>(s: seq<T>, key: T -> int): (r: seq<T>)
    ensures multiset(r) == multiset(s)
    ensures |r| == |s|
  {
    if |s| == 0 then []
    else
      assert s == s[..|s| - 1] + [s[|s| - 1]];
      InsertDesc(s[|s| - 1], SortDesc(s[..|s| - 1], key), key)
  }

  predicate DescendingBy<T>(s: seq<T>, key: T -> int) {
    forall a, b :: 0 <= a < b < |s| ==> key(s[a]) >= key(s[b])
  }

  lemma {:induction false} InsertDescSorted<T>(x: T, s: seq<T>, key: T -> int)
    requires DescendingBy(s, key)
    ensures DescendingBy(InsertDesc(x, s, key), key)
  {
    if |s| > 0 && key(s[0]) >= key(x) {
      InsertDescSorted(x, s[1..], key);
      var r := InsertDesc(x, s, key);
      forall b | 0 < b < |r| ensures key(r[0]) >= key(r[b]) {
        assert r[b] in multiset(s[1..]) + multiset{x};
      }
    }
  }

  /** The sorted list is in descending key order and a rearrangement of the
      input. */
  lemma {:induction false} SortDescSorted<T>(s: seq<T>, key: T -> int)
    ensures DescendingBy(SortDesc(s, key), key)
    ensures multiset(SortDesc(s, key)) == multiset(s)
  {
    if |s| > 0 {
      SortDescSorted(s[..|s| - 1], key);
      InsertDescSorted(s[|s| - 1], SortDesc(s[..|s| - 1], key), key);
    }
  }

  /** Reversal moves the last element to the front. */
  lemma {:induction false} ReverseSnoc<T>(s: seq<T>)
    requires |s| > 0
    ensures Reverse(s) == [s[|s| - 1]] + Reverse(s[..|s| - 1])
  {
    var r := Reverse(s);
    var q := [s[|s| - 1]] + Reverse(s[..|s| - 1]);
    forall k | 0 <= k < |r|
      ensures r[k] == q[k]
    {
      if k > 0 {
        assert q[k] == Reverse(s[..|s| - 1])[k - 1];
      }
    }
  }

  /** The first `n` entries in descending key order are in descending key
      order and are all entries of the input. */
  lemma {:induction false} TopSortedDesc<T>(s: seq<T>, key: T -> int, n: nat, x: T)
    ensures DescendingBy(Take(SortDesc(s, key), n), key)
    ensures x in Take(SortDesc(s, key), n) ==> x in s
  {
    var sorted := SortDesc(s, key);
    SortDescSorted(s, key);
    var top := Take(sorted, n);
    assert top == sorted[..|top|];
    if x in top {
      assert x in multiset(sorted);
    }
  }

  /** An entry whose key beats the head of a descending list goes first. */
  lemma {:induction false} InsertDescFront<T>(x: T, s: seq<T>, key: T -> int)
    requires |s| == 0 || key(s[0]) < key(x)
    ensures InsertDesc(x, s, key) == [x] + s
  {
  }

  /** When keys strictly increase along the input, sorting in descending
      order is plain reversal. */
  lemma {:induction false} SortDescOfIncreasing<T>(s: seq<T>, key: T -> int)
    requires forall a, b :: 0 <= a < b < |s| ==> key(s[a]) < key(s[b])
    ensures SortDesc(s, key) == Reverse(s)
  {
    if |s| > 0 {
      var p := s[..|s| - 1];
      var x := s[|s| - 1];
      assert forall a, b :: 0 <= a < b < |p| ==> key(p[a]) < key(p[b]);
      SortDescOfIncreasing(p, key);
      var rp := Reverse(p);
      if |p| > 0 {
        ReverseSnoc(p);
        assert rp[0] == s[|s| - 2];
        assert key(rp[0]) < key(x);
      }
      InsertDescFront(x, rp, key);
      ReverseSnoc(s);
    }
  }
}
