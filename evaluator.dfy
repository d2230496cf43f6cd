/** Prediction bookkeeping of the model evaluator (src/ml/evaluator.py):
    the statistics of the verified predictions and the rolling daily
    accuracy trend. */
module Evaluator {
  import opened Common
  import opened Signals

  const SecondsPerDay: int := 86400

  /** A stored prediction. Missing keys read as their `get` defaults: not
      verified, not correct, confidence 0; a sentiment other than the three
      classes, or none, is None. */
  datatype Prediction = Prediction(timestamp: Option<int>, verified: bool, correct: bool,
                                   confidence: Option<real>, sentiment: Option<Sentiment>)

  /** The verified predictions, in order. */
  function Verified(ps: seq<Prediction>): (r: seq<Prediction>)
    ensures |r| <= |ps|
    ensures forall k :: 0 <= k < |r| ==> r[k].verified
  {
    if |ps| == 0 then []
    else Verified(ps[..|ps| - 1]) + (if ps[|ps| - 1].verified then [ps[|ps| - 1]] else [])
  }

  function CorrectCount(vs: seq<Prediction>): (r: nat)
    ensures r <= |vs|
  {
    if |vs| == 0 then 0 else CorrectCount(vs[..|vs| - 1]) + (if vs[|vs| - 1].correct then 1 else 0)
  }

  function SentimentCount(vs: seq<Prediction>, s: Sentiment): (r: nat)
    ensures r <= |vs|
  {
    if |vs| == 0 then 0 else SentimentCount(vs[..|vs| - 1], s) + (if vs[|vs| - 1].sentiment == Some(s) then 1 else 0)
  }

  function ConfidenceSum(vs: seq<Prediction>): real {
    if |vs| == 0 then 0.0 else ConfidenceSum(vs[..|vs| - 1]) + vs[|vs| - 1].confidence.GetOr(0.0)
  }

  /** calculate_prediction_stats' result; ZeroStats is the four-key record
      of zeros returned when no prediction is verified. */
  datatype PredictionStats =
    | ZeroStats
    | Stats(total: nat, correct: nat, incorrect: nat, accuracy: real, avgConfidence: real,
            bullish: nat, bearish: nat, neutral: nat)

  /** calculate_prediction_stats. */
  function PredictionStatsOf(ps: seq<Prediction>): PredictionStats {
    var vs := Verified(ps);
    if |vs| == 0 then ZeroStats
    else
      var total := |vs|;
      var correct := CorrectCount(vs);
      Stats(total, correct, total - correct, Fraction(correct, total), ConfidenceSum(vs) / (total as real),
            SentimentCount(vs, Bullish), SentimentCount(vs, Bearish), SentimentCount(vs, Neutral))
  }

  /** No prediction lands in two sentiment classes. */
  lemma {:induction false} SentimentCountsBounded(vs: seq<Prediction>)
    ensures SentimentCount(vs, Bullish) + SentimentCount(vs, Bearish) + SentimentCount(vs, Neutral) <= |vs|
  {
    if |vs| > 0 {
      SentimentCountsBounded(vs[..|vs| - 1]);
    }
  }

  /** The statistics are zero exactly when nothing is verified; otherwise
      the total is the number of verified predictions, correct and
      incorrect partition it, the accuracy is the correct share (see
      Fraction), each sentiment count is the number of verified predictions
      of that class, and the three counts together stay within the total. */
  lemma {:induction false} PredictionStatsMeaning(ps: seq<Prediction>)
    ensures PredictionStatsOf(ps).ZeroStats? <==> |Verified(ps)| == 0
    ensures var st := PredictionStatsOf(ps);
      st.Stats? ==>
        st.total == |Verified(ps)| > 0 &&
        st.correct + st.incorrect == st.total &&
        st.correct == CorrectCount(Verified(ps)) &&
        st.accuracy == Fraction(st.correct, st.total) &&
        st.bullish == SentimentCount(Verified(ps), Bullish) &&
        st.bearish == SentimentCount(Verified(ps), Bearish) &&
        st.neutral == SentimentCount(Verified(ps), Neutral) &&
        st.bullish + st.bearish + st.neutral <= st.total
  {
    var vs := Verified(ps);
    SentimentCountsBounded(vs);
    if |vs| > 0 {
      var total := |vs|;
      var correct := CorrectCount(vs);
      assert PredictionStatsOf(ps) == Stats(total, correct, total - correct, Fraction(correct, total), ConfidenceSum(vs) / (total as real),
                                            SentimentCount(vs, Bullish), SentimentCount(vs, Bearish), SentimentCount(vs, Neutral));
    }
  }

  /** The average confidence is the mean of the verified predictions'
      confidences, a missing one read as 0: times the total it gives back
      their sum. */
  lemma {:induction false} AverageConfidenceMeaning(ps: seq<Prediction>)
    ensures var st := PredictionStatsOf(ps);
      st.Stats? ==> st.avgConfidence * (st.total as real) == ConfidenceSum(Verified(ps))
  {
    var vs := Verified(ps);
    if |vs| > 0 {
      var st := PredictionStatsOf(ps);
      assert st.avgConfidence == ConfidenceSum(vs) / (|vs| as real) && st.total == |vs|;
      MeanTimesCount(st.avgConfidence, ConfidenceSum(vs), st.total);
    }
  }

  /** A mean times the count gives back the sum. */
  lemma {:induction false} MeanTimesCount(mean: real, sum: real, n: nat)
    requires n > 0 && mean == sum / (n as real)
    ensures mean * (n as real) == sum
  {
  }

  // -------------------------------------------------------- accuracy trend

  /** Tallies of one day. */
  datatype Tally = Tally(correct: nat, total: nat)

  /** The day of a prediction (days since the epoch); one without a
      timestamp is dated `today`. */
  function Day(p: Prediction, today: int): int {
    match p.timestamp
    case Some(t) => t / SecondsPerDay
    case None => today
  }

  predicate GoodTallies(daily: map<int, Tally>) {
    forall d :: d in daily ==> 1 <= daily[d].total && daily[d].correct <= daily[d].total
  }

  /** The per-day tallies of the verified predictions. */
  function DailyOf(ps: seq<Prediction>, today: int): (daily: map<int, Tally>)
    ensures GoodTallies(daily)
  {
    if |ps| == 0 then map[]
    else DayStep(DailyOf(ps[..|ps| - 1], today), ps[|ps| - 1], today)
  }

  /** One prediction added to the per-day tallies, when it is verified. */
  function DayStep(prev: map<int, Tally>, p: Prediction, today: int): (daily: map<int, Tally>)
    requires GoodTallies(prev)
    ensures GoodTallies(daily)
  {
    if !p.verified then prev else Bump(prev, Day(p, today), if p.correct then 1 else 0)
  }

  /** Day `d` counted once more, `c` of that once correct. */
  function Bump(prev: map<int, Tally>, d: int, c: nat): map<int, Tally> {
    var t := if d in prev then prev[d] else Tally(0, 0);
    prev[d := Tally(t.correct + c, t.total + 1)]
  }

  /** The days of the verified predictions, each once, in first-seen order
      (the key order of the source's dictionary). */
  function DaysSeen(ps: seq<Prediction>, today: int): seq<int> {
    if |ps| == 0 then []
    else
      var prev := DaysSeen(ps[..|ps| - 1], today);
      var p := ps[|ps| - 1];
      if p.verified && Day(p, today) !in prev then prev + [Day(p, today)] else prev
  }

  predicate Distinct(s: seq<int>) {
    forall i, j :: 0 <= i < j < |s| ==> s[i] != s[j]
  }

  predicate Increasing(s: seq<int>) {
    forall i, j :: 0 <= i < j < |s| ==> s[i] < s[j]
  }

  /** The days seen are distinct and are exactly the days tallied. */
  lemma {:induction false} DaysSeenMeaning(ps: seq<Prediction>, today: int)
    ensures Distinct(DaysSeen(ps, today))
    ensures forall d :: d in DaysSeen(ps, today) <==> d in DailyOf(ps, today)
  {
    if |ps| > 0 {
      DaysSeenMeaning(ps[..|ps| - 1], today);
    }
  }

  /** `x` placed into an ascending list before the first larger entry. */
  function InsertAsc(x: int, s: seq<int>): (r: seq<int>)
    ensures multiset(r) == multiset(s) + multiset{x}
    ensures |r| == |s| + 1
  {
    if |s| == 0 then [x]
    else if s[0] < x then
      assert s == [s[0]] + s[1..];
      [s[0]] + InsertAsc(x, s[1..])
    else [x] + s
  }

  /** `sorted` on the days. */
  function SortAsc(s: seq<int>): (r: seq<int>)
    ensures multiset(r) == multiset(s)
    ensures |r| == |s|
  {
    if |s| == 0 then []
    else
      assert s == s[..|s| - 1] + [s[|s| - 1]];
      InsertAsc(s[|s| - 1], SortAsc(s[..|s| - 1]))
  }

  lemma {:induction false} InsertAscIncreasing(x: int, s: seq<int>)
    requires Increasing(s) && x !in s
    ensures Increasing(InsertAsc(x, s))
  {
    if |s| > 0 && s[0] < x {
      InsertAscIncreasing(x, s[1..]);
      var r := InsertAsc(x, s);
      forall b | 0 < b < |r| ensures r[0] < r[b] {
        assert r[b] in multiset(s[1..]) + multiset{x};
      }
    }
  }

  /** Distinct days sort into a strictly increasing list of the same days. */
  lemma {:induction false} SortAscIncreasing(s: seq<int>)
    requires Distinct(s)
    ensures Increasing(SortAsc(s))
    ensures forall d :: d in SortAsc(s) <==> d in s
  {
    if |s| > 0 {
      var init := s[..|s| - 1];
      var x := s[|s| - 1];
      SortAscIncreasing(init);
      assert x !in init;
      assert x !in multiset(SortAsc(init));
      InsertAscIncreasing(x, SortAsc(init));
    }
    assert forall d :: d in SortAsc(s) <==> d in multiset(SortAsc(s));
  }

  /** The summed tallies of the listed days that fall in [lo, hi]. */
  function WindowTally(dates: seq<int>, daily: map<int, Tally>, lo: int, hi: int): (t: Tally)
    requires forall k :: 0 <= k < |dates| ==> dates[k] in daily
    requires GoodTallies(daily)
    ensures t.correct <= t.total
  {
    if |dates| == 0 then Tally(0, 0)
    else
      var prev := WindowTally(dates[..|dates| - 1], daily, lo, hi);
      var d := dates[|dates| - 1];
      if lo <= d <= hi then Tally(prev.correct + daily[d].correct, prev.total + daily[d].total) else prev
  }

  /** One point of the trend. */
  datatype TrendPoint = TrendPoint(date: int, accuracy: real, correct: nat, total: nat)

  /** The point of day `d`, over the window [d - window, d] of `all`;
      none for an empty window. */
  function PointAt(d: int, all: seq<int>, daily: map<int, Tally>, window: int): seq<TrendPoint>
    requires forall k :: 0 <= k < |all| ==> all[k] in daily
    requires GoodTallies(daily)
  {
    var t := WindowTally(all, daily, d - window, d);
    if t.total > 0 then [TrendPoint(d, Fraction(t.correct, t.total), t.correct, t.total)] else []
  }

  /** The points for `dates`, in order. */
  function PointsOf(dates: seq<int>, all: seq<int>, daily: map<int, Tally>, window: int): seq<TrendPoint>
    requires forall k :: 0 <= k < |all| ==> all[k] in daily
    requires GoodTallies(daily)
  {
    if |dates| == 0 then []
    else PointsOf(dates[..|dates| - 1], all, daily, window) + PointAt(dates[|dates| - 1], all, daily, window)
  }

  /** An inverted window (a negative window length) tallies nothing. */
  lemma {:induction false} WindowEmpty(dates: seq<int>, daily: map<int, Tally>, lo: int, hi: int)
    requires forall k :: 0 <= k < |dates| ==> dates[k] in daily
    requires GoodTallies(daily)
    requires hi < lo
    ensures WindowTally(dates, daily, lo, hi) == Tally(0, 0)
  {
    if |dates| > 0 {
      WindowEmpty(dates[..|dates| - 1], daily, lo, hi);
    }
  }

  /** A listed day inside the window contributes its whole tally. */
  lemma {:induction false} WindowCoversDay(dates: seq<int>, daily: map<int, Tally>, lo: int, hi: int, d: int)
    requires forall k :: 0 <= k < |dates| ==> dates[k] in daily
    requires GoodTallies(daily)
    requires d in dates && lo <= d <= hi
    ensures WindowTally(dates, daily, lo, hi).total >= daily[d].total
  {
    var init := dates[..|dates| - 1];
    if d in init {
      WindowCoversDay(init, daily, lo, hi, d);
    } else {
      assert dates == init + [dates[|dates| - 1]];
    }
  }

  /** With a non-negative window every listed day yields exactly one point,
      dated that day, whose accuracy is its correct share of a non-empty
      window. */
  lemma {:induction false} PointsShape(dates: seq<int>, all: seq<int>, daily: map<int, Tally>, window: int)
    requires forall k :: 0 <= k < |all| ==> all[k] in daily
    requires GoodTallies(daily)
    requires forall k :: 0 <= k < |dates| ==> dates[k] in all
    requires window >= 0
    ensures var pts := PointsOf(dates, all, daily, window);
      |pts| == |dates| &&
      forall k :: 0 <= k < |pts| ==>
        pts[k].date == dates[k] && 0 < pts[k].total && pts[k].correct <= pts[k].total &&
        pts[k].accuracy == Fraction(pts[k].correct, pts[k].total)
  {
    if |dates| > 0 {
      var d := dates[|dates| - 1];
      PointsShape(dates[..|dates| - 1], all, daily, window);
      WindowCoversDay(all, daily, d - window, d, d);
    }
  }

  /** With a negative window no day yields a point. */
  lemma {:induction false} PointsNegativeWindow(dates: seq<int>, all: seq<int>, daily: map<int, Tally>, window: int)
    requires forall k :: 0 <= k < |all| ==> all[k] in daily
    requires GoodTallies(daily)
    requires window < 0
    ensures PointsOf(dates, all, daily, window) == []
  {
    if |dates| > 0 {
      var d := dates[|dates| - 1];
      PointsNegativeWindow(dates[..|dates| - 1], all, daily, window);
      WindowEmpty(all, daily, d - window, d);
    }
  }

  /** The verified predictions dated within [lo, hi], in order. */
  function DatedIn(ps: seq<Prediction>, today: int, lo: int, hi: int): (r: seq<Prediction>)
    ensures |r| <= |ps|
    ensures forall k :: 0 <= k < |r| ==> r[k].verified && lo <= Day(r[k], today) <= hi
  {
    if |ps| == 0 then []
    else
      var p := ps[|ps| - 1];
      DatedIn(ps[..|ps| - 1], today, lo, hi) + (if p.verified && lo <= Day(p, today) <= hi then [p] else [])
  }

  function Plus(a: Tally, b: Tally): Tally {
    Tally(a.correct + b.correct, a.total + b.total)
  }

  /** What one listed day adds to the window [lo, hi]. */
  function DayShare(d: int, daily: map<int, Tally>, lo: int, hi: int): Tally
    requires d in daily
  {
    if lo <= d <= hi then daily[d] else Tally(0, 0)
  }

  /** The list without its entry at `i`. */
  function Without(s: seq<int>, i: nat): (r: seq<int>)
    requires i < |s|
    ensures |r| == |s| - 1
    ensures forall k :: 0 <= k < |r| ==> r[k] == (if k < i then s[k] else s[k + 1])
  {
    s[..i] + s[i + 1..]
  }

  lemma {:induction false} WithoutDistinct(s: seq<int>, i: nat)
    requires i < |s| && Distinct(s)
    ensures Distinct(Without(s, i))
    ensures forall x :: x in Without(s, i) <==> x in s && x != s[i]
  {
    var r := Without(s, i);
    forall x ensures x in r <==> x in s && x != s[i] {
      if x in r {
        var k :| 0 <= k < |r| && r[k] == x;
        if k < i {
          assert s[k] == x;
        } else {
          assert s[k + 1] == x;
        }
      }
      if x in s && x != s[i] {
        var j :| 0 <= j < |s| && s[j] == x;
        if j < i {
          assert r[j] == x;
        } else {
          assert r[j - 1] == x;
        }
      }
    }
  }

  /** The window sum is the sum without one listed day, plus that day. */
  lemma {:induction false} WindowTallyRemove(dates: seq<int>, daily: map<int, Tally>, lo: int, hi: int, i: nat)
    requires forall k :: 0 <= k < |dates| ==> dates[k] in daily
    requires GoodTallies(daily)
    requires i < |dates|
    ensures WindowTally(dates, daily, lo, hi) == Plus(WindowTally(Without(dates, i), daily, lo, hi), DayShare(dates[i], daily, lo, hi))
  {
    var n := |dates| - 1;
    var init := dates[..n];
    if i == n {
      assert Without(dates, i) == init;
    } else {
      WindowTallyRemove(init, daily, lo, hi, i);
      var w := Without(dates, i);
      assert w[..|w| - 1] == Without(init, i);
      assert w[|w| - 1] == dates[n];
    }
  }

  /** Tallies that agree on the listed days give the same window sum. */
  lemma {:induction false} WindowTallyAgree(dates: seq<int>, a: map<int, Tally>, b: map<int, Tally>, lo: int, hi: int)
    requires forall k :: 0 <= k < |dates| ==> dates[k] in a && dates[k] in b && a[dates[k]] == b[dates[k]]
    requires GoodTallies(a) && GoodTallies(b)
    ensures WindowTally(dates, a, lo, hi) == WindowTally(dates, b, lo, hi)
  {
    if |dates| > 0 {
      WindowTallyAgree(dates[..|dates| - 1], a, b, lo, hi);
    }
  }

  /** What one prediction adds to the window [lo, hi]. */
  function PredShare(p: Prediction, today: int, lo: int, hi: int): Tally {
    if p.verified && lo <= Day(p, today) <= hi then Tally(if p.correct then 1 else 0, 1) else Tally(0, 0)
  }

  lemma {:induction false} CorrectSnoc(b: seq<Prediction>, p: Prediction)
    ensures CorrectCount(b + [p]) == CorrectCount(b) + (if p.correct then 1 else 0)
  {
    assert (b + [p])[..|b|] == b;
  }

  /** Filtering one more prediction adds exactly that prediction's share. */
  lemma {:induction false} DatedInStep(ps: seq<Prediction>, today: int, lo: int, hi: int)
    requires |ps| > 0
    ensures |DatedIn(ps, today, lo, hi)| == |DatedIn(ps[..|ps| - 1], today, lo, hi)| + PredShare(ps[|ps| - 1], today, lo, hi).total
    ensures CorrectCount(DatedIn(ps, today, lo, hi)) ==
            CorrectCount(DatedIn(ps[..|ps| - 1], today, lo, hi)) + PredShare(ps[|ps| - 1], today, lo, hi).correct
  {
    var b := DatedIn(ps[..|ps| - 1], today, lo, hi);
    var p := ps[|ps| - 1];
    if p.verified && lo <= Day(p, today) <= hi {
      assert DatedIn(ps, today, lo, hi) == b + [p];
      CorrectSnoc(b, p);
    } else {
      assert DatedIn(ps, today, lo, hi) == b;
    }
  }

  /** Bumping day `d` by one prediction, `c` of it correct, adds that
      prediction's share to the day's share of the window [lo, hi]. */
  lemma {:induction false} BumpShare(prev: map<int, Tally>, d: int, c: nat, lo: int, hi: int)
    ensures d in Bump(prev, d, c)
    ensures DayShare(d, Bump(prev, d, c), lo, hi) ==
            Plus(if d in prev then DayShare(d, prev, lo, hi) else Tally(0, 0), if lo <= d <= hi then Tally(c, 1) else Tally(0, 0))
  {
    var daily := Bump(prev, d, c);
    if lo <= d <= hi {
      if d in prev {
        var t := prev[d];
        assert daily[d] == Tally(t.correct + c, t.total + 1);
        assert DayShare(d, daily, lo, hi) == daily[d];
        assert DayShare(d, prev, lo, hi) == t;
      } else {
        assert daily[d] == Tally(c, 1);
        assert DayShare(d, daily, lo, hi) == daily[d];
      }
    } else {
      assert DayShare(d, daily, lo, hi) == Tally(0, 0);
      if d in prev {
        assert DayShare(d, prev, lo, hi) == Tally(0, 0);
      }
    }
  }

  /** A verified prediction creates its own day when needed and leaves every
      other day as it was. */
  lemma {:induction false} DayStepKeys(prev: map<int, Tally>, p: Prediction, today: int)
    requires GoodTallies(prev) && p.verified
    ensures var daily := DayStep(prev, p, today);
      Day(p, today) in daily &&
      (forall x :: x in prev ==> x in daily) &&
      (forall x :: x in daily && x != Day(p, today) ==> x in prev && daily[x] == prev[x])
  {
    assert DayStep(prev, p, today) == Bump(prev, Day(p, today), if p.correct then 1 else 0);
  }

  /** A verified prediction adds its own share to its day's share. */
  lemma {:induction false} DayStepShare(prev: map<int, Tally>, p: Prediction, today: int, lo: int, hi: int)
    requires GoodTallies(prev) && p.verified
    ensures var d := Day(p, today);
      var daily := DayStep(prev, p, today);
      d in daily &&
      DayShare(d, daily, lo, hi) == Plus(if d in prev then DayShare(d, prev, lo, hi) else Tally(0, 0), PredShare(p, today, lo, hi))
  {
    var d := Day(p, today);
    var c: nat := if p.correct then 1 else 0;
    assert DayStep(prev, p, today) == Bump(prev, d, c);
    assert PredShare(p, today, lo, hi) == if lo <= d <= hi then Tally(c, 1) else Tally(0, 0);
    BumpShare(prev, d, c, lo, hi);
  }

  /** After one day `d` = dates[i] was bumped, the other listed days agree
      on both tallies, and the list (with or without `d`) names exactly the
      days tallied before. */
  lemma {:induction false} StepKeySets(prev: map<int, Tally>, daily: map<int, Tally>, dates: seq<int>, i: nat)
    requires Distinct(dates) && i < |dates|
    requires forall x :: x in prev ==> x in daily
    requires forall x :: x in daily && x != dates[i] ==> x in prev && daily[x] == prev[x]
    requires forall k :: 0 <= k < |dates| ==> dates[k] in daily
    requires forall x :: x in daily ==> x in dates
    ensures var rest := Without(dates, i);
      (forall k :: 0 <= k < |rest| ==> rest[k] in daily && rest[k] in prev && daily[rest[k]] == prev[rest[k]]) &&
      Distinct(rest)
    ensures dates[i] in prev ==> (forall k :: 0 <= k < |dates| ==> dates[k] in prev) && (forall x :: x in prev ==> x in dates)
    ensures dates[i] !in prev ==>
      var rest := Without(dates, i);
      (forall k :: 0 <= k < |rest| ==> rest[k] in prev) && (forall x :: x in prev ==> x in rest)
  {
    var rest := Without(dates, i);
    WithoutDistinct(dates, i);
    forall k | 0 <= k < |rest|
      ensures rest[k] in daily && rest[k] in prev && daily[rest[k]] == prev[rest[k]]
    {
      assert rest[k] in dates && rest[k] != dates[i];
    }
    if dates[i] in prev {
      forall k | 0 <= k < |dates|
        ensures dates[k] in prev
      {
        if dates[k] != dates[i] {
          assert dates[k] in daily;
        }
      }
    } else {
      forall x | x in prev
        ensures x in rest
      {
        assert x in daily && x != dates[i];
      }
    }
  }

  /** Regrouping the window sums of one step. */
  lemma {:induction false} StepRegroup(a: Tally, r: Tally, dn: Tally, dp: Tally, sh: Tally, c0: nat, n0: nat)
    requires a == Plus(r, dn) && dn == Plus(dp, sh) && Plus(r, dp) == Tally(c0, n0)
    ensures a == Tally(c0 + sh.correct, n0 + sh.total)
  {
  }

  /** The window sum after a day already tallied was bumped by `sh`. */
  lemma {:induction false} OldDayStep(prev: map<int, Tally>, daily: map<int, Tally>, dates: seq<int>, i: nat,
                                      lo: int, hi: int, sh: Tally, c0: nat, n0: nat)
    requires GoodTallies(prev) && GoodTallies(daily)
    requires Distinct(dates) && i < |dates| && dates[i] in prev && dates[i] in daily
    requires forall x :: x in prev ==> x in daily
    requires forall x :: x in daily && x != dates[i] ==> x in prev && daily[x] == prev[x]
    requires forall k :: 0 <= k < |dates| ==> dates[k] in daily
    requires forall x :: x in daily ==> x in dates
    requires DayShare(dates[i], daily, lo, hi) == Plus(DayShare(dates[i], prev, lo, hi), sh)
    requires (forall k :: 0 <= k < |dates| ==> dates[k] in prev) && WindowTally(dates, prev, lo, hi) == Tally(c0, n0)
    ensures WindowTally(dates, daily, lo, hi) == Tally(c0 + sh.correct, n0 + sh.total)
  {
    var rest := Without(dates, i);
    StepKeySets(prev, daily, dates, i);
    WindowTallyRemove(dates, daily, lo, hi, i);
    WindowTallyRemove(dates, prev, lo, hi, i);
    WindowTallyAgree(rest, daily, prev, lo, hi);
    StepRegroup(WindowTally(dates, daily, lo, hi), WindowTally(rest, prev, lo, hi),
                DayShare(dates[i], daily, lo, hi), DayShare(dates[i], prev, lo, hi), sh, c0, n0);
  }

  /** The window sum after a new day was tallied with `sh`. */
  lemma {:induction false} NewDayStep(prev: map<int, Tally>, daily: map<int, Tally>, dates: seq<int>, i: nat,
                                      lo: int, hi: int, sh: Tally, c0: nat, n0: nat)
    requires GoodTallies(prev) && GoodTallies(daily)
    requires Distinct(dates) && i < |dates| && dates[i] !in prev && dates[i] in daily
    requires forall x :: x in prev ==> x in daily
    requires forall x :: x in daily && x != dates[i] ==> x in prev && daily[x] == prev[x]
    requires forall k :: 0 <= k < |dates| ==> dates[k] in daily
    requires forall x :: x in daily ==> x in dates
    requires DayShare(dates[i], daily, lo, hi) == sh
    requires var rest := Without(dates, i);
      (forall k :: 0 <= k < |rest| ==> rest[k] in prev) && WindowTally(rest, prev, lo, hi) == Tally(c0, n0)
    ensures WindowTally(dates, daily, lo, hi) == Tally(c0 + sh.correct, n0 + sh.total)
  {
    var rest := Without(dates, i);
    StepKeySets(prev, daily, dates, i);
    WindowTallyRemove(dates, daily, lo, hi, i);
    WindowTallyAgree(rest, daily, prev, lo, hi);
    StepRegroup(WindowTally(dates, daily, lo, hi), WindowTally(rest, prev, lo, hi),
                DayShare(dates[i], daily, lo, hi), Tally(0, 0), sh, c0, n0);
  }

  lemma {:induction false} ListedFirst(dates: seq<int>, m: map<int, Tally>)
    requires forall k :: 0 <= k < |dates| ==> dates[k] in m
    ensures |dates| > 0 ==> dates[0] in m
  {
  }

  /** Summed over any list naming each tallied day once, the window
      [lo, hi] counts exactly the verified predictions dated inside it, and
      the correct ones among them. */
  lemma {:induction false} WindowTallyCounts(ps: seq<Prediction>, today: int, dates: seq<int>, lo: int, hi: int)
    requires Distinct(dates)
    requires forall k :: 0 <= k < |dates| ==> dates[k] in DailyOf(ps, today)
    requires forall d :: d in DailyOf(ps, today) ==> d in dates
    ensures WindowTally(dates, DailyOf(ps, today), lo, hi) ==
            Tally(CorrectCount(DatedIn(ps, today, lo, hi)), |DatedIn(ps, today, lo, hi)|)
    decreases |ps|
  {
    var daily := DailyOf(ps, today);
    if |ps| == 0 {
      assert daily == map[];
      ListedFirst(dates, daily);
      assert DatedIn(ps, today, lo, hi) == [];
    } else {
      var init := ps[..|ps| - 1];
      var p := ps[|ps| - 1];
      var prev := DailyOf(init, today);
      var sh := PredShare(p, today, lo, hi);
      var c0 := CorrectCount(DatedIn(init, today, lo, hi));
      var n0 := |DatedIn(init, today, lo, hi)|;
      assert WindowTally(dates, daily, lo, hi) == Tally(c0 + sh.correct, n0 + sh.total) by {
        assert daily == DayStep(prev, p, today);
        if !p.verified {
          assert daily == prev;
          assert sh == Tally(0, 0);
          WindowTallyCounts(init, today, dates, lo, hi);
        } else {
          var d := Day(p, today);
          DayStepKeys(prev, p, today);
          DayStepShare(prev, p, today, lo, hi);
          var i :| 0 <= i < |dates| && dates[i] == d;
          StepKeySets(prev, daily, dates, i);
          if d in prev {
            WindowTallyCounts(init, today, dates, lo, hi);
            OldDayStep(prev, daily, dates, i, lo, hi, sh, c0, n0);
          } else {
            WindowTallyCounts(init, today, Without(dates, i), lo, hi);
            NewDayStep(prev, daily, dates, i, lo, hi, sh, c0, n0);
          }
        }
      }
      DatedInStep(ps, today, lo, hi);
    }
  }

  /** The point carries the window sum of its own day. */
  predicate CarriesWindow(q: TrendPoint, all: seq<int>, daily: map<int, Tally>, window: int)
    requires forall k :: 0 <= k < |all| ==> all[k] in daily
    requires GoodTallies(daily)
  {
    Tally(q.correct, q.total) == WindowTally(all, daily, q.date - window, q.date)
  }

  /** Each point carries the window sum of its own day. */
  lemma {:induction false} PointsWindows(dates: seq<int>, all: seq<int>, daily: map<int, Tally>, window: int)
    requires forall k :: 0 <= k < |all| ==> all[k] in daily
    requires GoodTallies(daily)
    ensures forall q :: q in PointsOf(dates, all, daily, window) ==> CarriesWindow(q, all, daily, window)
  {
    if |dates| > 0 {
      var init := dates[..|dates| - 1];
      PointsWindows(init, all, daily, window);
      var prev := PointsOf(init, all, daily, window);
      var d := dates[|dates| - 1];
      var here := PointAt(d, all, daily, window);
      var t := WindowTally(all, daily, d - window, d);
      assert here == if t.total > 0 then [TrendPoint(d, Fraction(t.correct, t.total), t.correct, t.total)] else [];
      assert PointsOf(dates, all, daily, window) == prev + here;
      forall q | q in here
        ensures CarriesWindow(q, all, daily, window)
      {
        assert q == TrendPoint(d, Fraction(t.correct, t.total), t.correct, t.total);
      }
    }
  }

  /** The trend's dates: the days tallied, ascending. */
  function TrendDates(ps: seq<Prediction>, today: int): seq<int> {
    SortAsc(DaysSeen(ps, today))
  }

  /** calculate_accuracy_trend. The source sorts the predictions by
      timestamp first; the tallies do not depend on that order, so it is
      not modelled. */
  function AccuracyTrend(ps: seq<Prediction>, window: int, today: int): seq<TrendPoint> {
    if |ps| == 0 then []
    else
      var daily := DailyOf(ps, today);
      var dates := TrendDates(ps, today);
      DaysSeenMeaning(ps, today);
      assert forall k :: 0 <= k < |dates| ==> dates[k] in multiset(DaysSeen(ps, today));
      PointsOf(dates, dates, daily, window)
  }

  /** The accumulation loop of calculate_accuracy_trend. */
  method TallyDays(ps: seq<Prediction>, today: int) returns (daily: map<int, Tally>, seen: seq<int>)
    ensures daily == DailyOf(ps, today) && seen == DaysSeen(ps, today)
  {
    daily, seen := map[], [];
    for i := 0 to |ps|
      invariant daily == DailyOf(ps[..i], today) && seen == DaysSeen(ps[..i], today)
    {
      assert ps[..i + 1][..i] == ps[..i];
      var p := ps[i];
      if p.verified {
        var day := Day(p, today);
        if day !in daily {
          daily := daily[day := Tally(0, 0)];
        }
        var t := daily[day];
        daily := daily[day := Tally(t.correct + (if p.correct then 1 else 0), t.total + 1)];
        if day !in seen {
          seen := seen + [day];
        }
      }
    }
    assert ps[..|ps|] == ps;
  }

  /** The window loop of calculate_accuracy_trend: one point per listed day. */
  method TrendPoints(dates: seq<int>, daily: map<int, Tally>, window: int) returns (trend: seq<TrendPoint>)
    requires forall k :: 0 <= k < |dates| ==> dates[k] in daily
    requires GoodTallies(daily)
    ensures trend == PointsOf(dates, dates, daily, window)
  {
    trend := [];
    for i := 0 to |dates|
      invariant trend == PointsOf(dates[..i], dates, daily, window)
    {
      assert dates[..i + 1][..i] == dates[..i];
      trend := trend + PointAt(dates[i], dates, daily, window);
    }
    assert dates[..|dates|] == dates;
  }

  method CalculateAccuracyTrend(ps: seq<Prediction>, window: int, today: int) returns (trend: seq<TrendPoint>)
    ensures trend == AccuracyTrend(ps, window, today)
  {
    if |ps| == 0 {
      return [];
    }
    var daily, seen := TallyDays(ps, today);
    var dates := SortAsc(seen);
    DaysSeenMeaning(ps, today);
    assert forall k :: 0 <= k < |dates| ==> dates[k] in multiset(seen);
    trend := TrendPoints(dates, daily, window);
  }

  /** A negative window gives an empty trend. */
  lemma {:induction false} NegativeWindowNoTrend(ps: seq<Prediction>, window: int, today: int)
    requires window < 0
    ensures AccuracyTrend(ps, window, today) == []
  {
    if |ps| > 0 {
      var daily := DailyOf(ps, today);
      var dates := TrendDates(ps, today);
      DaysSeenMeaning(ps, today);
      assert forall k :: 0 <= k < |dates| ==> dates[k] in multiset(DaysSeen(ps, today));
      PointsNegativeWindow(dates, dates, daily, window);
    }
  }

  /** The trend's dates are strictly increasing and are exactly the days
      on which a verified prediction falls. */
  lemma {:induction false} TrendDatesMeaning(ps: seq<Prediction>, today: int)
    ensures |TrendDates(ps, today)| == |DaysSeen(ps, today)|
    ensures Increasing(TrendDates(ps, today))
    ensures forall d :: d in TrendDates(ps, today) <==> d in DailyOf(ps, today)
  {
    DaysSeenMeaning(ps, today);
    SortAscIncreasing(DaysSeen(ps, today));
  }

  /** With a non-negative window the trend is the list of points of the
      trend dates. */
  lemma {:induction false} TrendPointsOfDates(ps: seq<Prediction>, window: int, today: int)
    requires |ps| > 0
    ensures forall k :: 0 <= k < |TrendDates(ps, today)| ==> TrendDates(ps, today)[k] in DailyOf(ps, today)
    ensures AccuracyTrend(ps, window, today) ==
            PointsOf(TrendDates(ps, today), TrendDates(ps, today), DailyOf(ps, today), window)
  {
    var dates := TrendDates(ps, today);
    var daily := DailyOf(ps, today);
    TrendDatesMeaning(ps, today);
    forall k | 0 <= k < |dates|
      ensures dates[k] in daily
    {
      assert dates[k] in dates;
    }
    assert AccuracyTrend(ps, window, today) == PointsOf(dates, dates, daily, window);
  }

  /** The point counts the verified predictions dated in its own window,
      and the correct ones among them. */
  predicate CountsWindow(q: TrendPoint, ps: seq<Prediction>, today: int, window: int) {
    q.total == |DatedIn(ps, today, q.date - window, q.date)| &&
    q.correct == CorrectCount(DatedIn(ps, today, q.date - window, q.date))
  }

  /** A point carrying its window sum counts its window. */
  lemma {:induction false} PointCounts(q: TrendPoint, ps: seq<Prediction>, today: int, window: int, dates: seq<int>)
    requires Distinct(dates)
    requires forall k :: 0 <= k < |dates| ==> dates[k] in DailyOf(ps, today)
    requires forall d :: d in DailyOf(ps, today) ==> d in dates
    requires CarriesWindow(q, dates, DailyOf(ps, today), window)
    ensures CountsWindow(q, ps, today, window)
  {
    WindowTallyCounts(ps, today, dates, q.date - window, q.date);
  }

  lemma {:induction false} TrendCounts(ps: seq<Prediction>, window: int, today: int)
    requires |ps| > 0
    ensures forall q :: q in AccuracyTrend(ps, window, today) ==> CountsWindow(q, ps, today, window)
  {
    var dates := TrendDates(ps, today);
    var daily := DailyOf(ps, today);
    TrendDatesMeaning(ps, today);
    TrendPointsOfDates(ps, window, today);
    PointsWindows(dates, dates, daily, window);
    assert Distinct(dates);
    forall q | q in AccuracyTrend(ps, window, today)
      ensures CountsWindow(q, ps, today, window)
    {
      PointCounts(q, ps, today, window, dates);
    }
  }

  /** Every point of the trend counts the verified predictions dated in
      [date - window, date], and the correct ones among them. */
  lemma {:induction false} TrendWindowCounts(ps: seq<Prediction>, window: int, today: int)
    ensures var tr := AccuracyTrend(ps, window, today);
      forall k :: 0 <= k < |tr| ==>
        tr[k].total == |DatedIn(ps, today, tr[k].date - window, tr[k].date)| &&
        tr[k].correct == CorrectCount(DatedIn(ps, today, tr[k].date - window, tr[k].date))
  {
    var tr := AccuracyTrend(ps, window, today);
    if |ps| == 0 {
      assert tr == [];
    } else {
      TrendCounts(ps, window, today);
      forall k | 0 <= k < |tr|
        ensures tr[k].total == |DatedIn(ps, today, tr[k].date - window, tr[k].date)|
        ensures tr[k].correct == CorrectCount(DatedIn(ps, today, tr[k].date - window, tr[k].date))
      {
        assert CountsWindow(tr[k], ps, today, window);
      }
    }
  }


  /** With a non-negative window the trend has one point per day on which a
      verified prediction falls, in strictly increasing date order, each
      point's accuracy being its correct share of a non-empty window, and
      that window holding exactly the verified predictions dated in
      [date - window, date]. */
  lemma {:induction false} TrendShape(ps: seq<Prediction>, window: int, today: int)
    requires window >= 0
    ensures var tr := AccuracyTrend(ps, window, today);
      |tr| == |DaysSeen(ps, today)| &&
      (forall i, j :: 0 <= i < j < |tr| ==> tr[i].date < tr[j].date) &&
      (forall k :: 0 <= k < |tr| ==>
        0 < tr[k].total && tr[k].correct <= tr[k].total && tr[k].accuracy == Fraction(tr[k].correct, tr[k].total)) &&
      forall k :: 0 <= k < |tr| ==>
        tr[k].total == |DatedIn(ps, today, tr[k].date - window, tr[k].date)| &&
        tr[k].correct == CorrectCount(DatedIn(ps, today, tr[k].date - window, tr[k].date))
  {
    TrendWindowCounts(ps, window, today);
    if |ps| > 0 {
      var dates := TrendDates(ps, today);
      TrendDatesMeaning(ps, today);
      TrendPointsOfDates(ps, window, today);
      PointsShape(dates, dates, DailyOf(ps, today), window);
    }
  }

  /** With a non-negative window every day on which a verified prediction
      falls has a point, and no other day does. */
  lemma {:induction false} TrendCoversDays(ps: seq<Prediction>, window: int, today: int)
    requires window >= 0
    ensures var tr := AccuracyTrend(ps, window, today);
      forall d :: d in DailyOf(ps, today) <==> exists k :: 0 <= k < |tr| && tr[k].date == d
  {
    var tr := AccuracyTrend(ps, window, today);
    if |ps| > 0 {
      var dates := TrendDates(ps, today);
      TrendDatesMeaning(ps, today);
      TrendPointsOfDates(ps, window, today);
      var daily := DailyOf(ps, today);
      PointsShape(dates, dates, daily, window);
      assert |tr| == |dates|;
      forall d
        ensures d in daily <==> exists k :: 0 <= k < |tr| && tr[k].date == d
      {
        if d in daily {
          assert d in dates;
          var k :| 0 <= k < |dates| && dates[k] == d;
          assert tr[k].date == d;
        }
        if exists k :: 0 <= k < |tr| && tr[k].date == d {
          var k :| 0 <= k < |tr| && tr[k].date == d;
          assert dates[k] == d;
        }
      }
    }
  }

  /** The daily tallies read only the verified predictions. */
  lemma {:induction false} DailyIgnoresUnverified(ps: seq<Prediction>, today: int)
    ensures DailyOf(Verified(ps), today) == DailyOf(ps, today)
  {
    if |ps| > 0 {
      var init := ps[..|ps| - 1];
      var p := ps[|ps| - 1];
      DailyIgnoresUnverified(init, today);
      if p.verified {
        var vs := Verified(ps);
        assert vs[..|vs| - 1] == Verified(init);
        assert DailyOf(vs, today) == DayStep(DailyOf(Verified(init), today), p, today);
      } else {
        assert Verified(ps) == Verified(init);
      }
    }
  }

  /** The days seen read only the verified predictions. */
  lemma {:induction false} DaysIgnoreUnverified(ps: seq<Prediction>, today: int)
    ensures DaysSeen(Verified(ps), today) == DaysSeen(ps, today)
  {
    if |ps| > 0 {
      var init := ps[..|ps| - 1];
      var p := ps[|ps| - 1];
      DaysIgnoreUnverified(init, today);
      if p.verified {
        var vs := Verified(ps);
        assert vs[..|vs| - 1] == Verified(init);
      } else {
        assert Verified(ps) == Verified(init);
      }
    }
  }

  /** Adding, removing or editing unverified predictions leaves the trend
      unchanged, as long as some prediction remains. */
  lemma {:induction false} TrendIgnoresUnverified(ps: seq<Prediction>, qs: seq<Prediction>, window: int, today: int)
    requires |ps| > 0 && |qs| > 0
    requires Verified(ps) == Verified(qs)
    ensures AccuracyTrend(ps, window, today) == AccuracyTrend(qs, window, today)
  {
    DailyIgnoresUnverified(ps, today);
    DailyIgnoresUnverified(qs, today);
    DaysIgnoreUnverified(ps, today);
    DaysIgnoreUnverified(qs, today);
  }
}
