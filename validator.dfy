/** The data validator (src/mt5/validator.py): the issue list of a raw
    OHLCV table, the cleaner that turns it into well-formed bars, gap
    detection, the quality score, and the validator's running counters. */
module Validator {
  import opened Common

  /** DataConfig.MAX_MISSING_PERCENTAGE. */
  const MaxMissingPercentage: real := 1.0

  /** More than this share (in percent) of zero-volume bars is suspicious. */
  const MaxZeroVolumePercentage: real := 5.0

  /** DataConfig.TIMEFRAME_MAP, in minutes. */
  const TimeframeMinutes: map<string, nat> :=
    map["M1" := 1, "M5" := 5, "M15" := 15, "M30" := 30, "H1" := 60,
        "H4" := 240, "D1" := 1440, "W1" := 10080, "MN1" := 43200]

  /** The expected spacing of bars, in seconds; an unknown timeframe is
      taken as one hour. */
  function ExpectedSeconds(tf: string): (r: int)
    ensures r >= 60
    ensures tf !in TimeframeMinutes ==> r == 3600
  {
    60 * (if tf in TimeframeMinutes then TimeframeMinutes[tf] else 60)
  }

  // ------------------------------------------------------------ raw tables

  datatype Column = OpenCol | HighCol | LowCol | CloseCol | VolumeCol

  const RequiredColumns: seq<Column> := [OpenCol, HighCol, LowCol, CloseCol, VolumeCol]
  const PriceColumns: seq<Column> := [OpenCol, HighCol, LowCol, CloseCol]

  /** One row as read, indexed by its timestamp in seconds; any cell may be
      missing (NaN). */
  datatype Row = Row(time: int, open: Option<real>, high: Option<real>, low: Option<real>,
                     close: Option<real>, volume: Option<real>)

  /** A table: the columns it has and its rows, in index order. */
  datatype Table = Table(columns: set<Column>, rows: seq<Row>)

  function Cell(r: Row, c: Column): Option<real> {
    match c
    case OpenCol => r.open
    case HighCol => r.high
    case LowCol => r.low
    case CloseCol => r.close
    case VolumeCol => r.volume
  }

  function Times(rows: seq<Row>): (r: seq<int>)
    ensures |r| == |rows|
    ensures forall k :: 0 <= k < |rows| ==> r[k] == rows[k].time
  {
    if |rows| == 0 then [] else Times(rows[..|rows| - 1]) + [rows[|rows| - 1].time]
  }

  /** A row-wise test the checks count. Comparisons with a missing cell are
      false, as comparisons with NaN are. */
  datatype Check = Missing(column: Column) | Below(lower: Column, upper: Column)
                 | NotPositive(column: Column) | NegativeVol | ZeroVol

  predicate Holds(r: Row, check: Check) {
    match check
    case Missing(c) => Cell(r, c).None?
    case Below(a, b) => Cell(r, a).Some? && Cell(r, b).Some? && Cell(r, a).value < Cell(r, b).value
    case NotPositive(c) => Cell(r, c).Some? && Cell(r, c).value <= 0.0
    case NegativeVol => r.volume.Some? && r.volume.value < 0.0
    case ZeroVol => r.volume.Some? && r.volume.value == 0.0
  }

  /** Number of rows the check holds on. */
  function CountWhere(rows: seq<Row>, check: Check): (r: nat)
    ensures r <= |rows|
  {
    if |rows| == 0 then 0
    else CountWhere(rows[..|rows| - 1], check) + (if Holds(rows[|rows| - 1], check) then 1 else 0)
  }

  lemma {:induction false} CountWhereZero(rows: seq<Row>, check: Check)
    ensures CountWhere(rows, check) == 0 <==> forall k :: 0 <= k < |rows| ==> !Holds(rows[k], check)
  {
    if |rows| > 0 {
      var init := rows[..|rows| - 1];
      CountWhereZero(init, check);
      assert forall k :: 0 <= k < |init| ==> init[k] == rows[k];
    }
  }

  // ---------------------------------------------------------------- issues

  /** The issues validate_ohlcv reports, as values; the message texts'
      percentages are not kept. */
  datatype Issue =
    | EmptyData
    | MissingColumns(columns: seq<Column>)
    | MissingValues(column: Column, count: nat)
    | MissingAboveThreshold(column: Column)
    | HighBelowLow(count: nat)
    | HighBelowOpen(count: nat)
    | HighBelowClose(count: nat)
    | LowAboveOpen(count: nat)
    | LowAboveClose(count: nat)
    | TimeGaps(count: nat)
    | NonPositive(column: Column, count: nat)
    | NegativeVolume(count: nat)
    | ZeroVolume(count: nat)

  /** The required columns the table lacks, in the required order. */
  function Absent(cols: seq<Column>, present: set<Column>): (r: seq<Column>)
    ensures |r| == 0 <==> forall k :: 0 <= k < |cols| ==> cols[k] in present
  {
    if |cols| == 0 then []
    else
      var init := cols[..|cols| - 1];
      assert forall k :: 0 <= k < |init| ==> init[k] == cols[k];
      Absent(init, present) + (if cols[|cols| - 1] in present then [] else [cols[|cols| - 1]])
  }

  /** A count's share of the rows, in percent, is above `limit`. */
  predicate ShareAbove(count: nat, total: nat, limit: real) {
    DivGreater(count as real * 100.0, total as real, limit)
  }

  function MissingFor(rows: seq<Row>, c: Column): seq<Issue> {
    var n := CountWhere(rows, Missing(c));
    if n == 0 then []
    else [MissingValues(c, n)] + (if ShareAbove(n, |rows|, MaxMissingPercentage) then [MissingAboveThreshold(c)] else [])
  }

  /** _check_missing_values: per column, its count of missing cells, and a
      second line when they exceed the allowed share. */
  function MissingValueIssues(rows: seq<Row>): seq<Issue> {
    MissingFor(rows, OpenCol) + MissingFor(rows, HighCol) + MissingFor(rows, LowCol) +
    MissingFor(rows, CloseCol) + MissingFor(rows, VolumeCol)
  }

  function Flag(n: nat, issue: Issue): seq<Issue> {
    if n > 0 then [issue] else []
  }

  /** _check_ohlc_consistency: one line per violated relation, in the order
      High < Low, High < Open, High < Close, Low > Open, Low > Close. */
  function ConsistencyIssues(rows: seq<Row>): seq<Issue> {
    var hl := CountWhere(rows, Below(HighCol, LowCol));
    var ho := CountWhere(rows, Below(HighCol, OpenCol));
    var hc := CountWhere(rows, Below(HighCol, CloseCol));
    var lo := CountWhere(rows, Below(OpenCol, LowCol));
    var lc := CountWhere(rows, Below(CloseCol, LowCol));
    Flag(hl, HighBelowLow(hl)) + Flag(ho, HighBelowOpen(ho)) + Flag(hc, HighBelowClose(hc)) +
    Flag(lo, LowAboveOpen(lo)) + Flag(lc, LowAboveClose(lc))
  }

  /** Number of consecutive pairs further apart than `limit`. */
  function LargeGapCount(times: seq<int>, limit: int): (r: nat)
    ensures |times| < 2 ==> r == 0
  {
    if |times| < 2 then 0
    else
      var n := |times|;
      LargeGapCount(times[..n - 1], limit) + (if times[n - 1] - times[n - 2] > limit then 1 else 0)
  }

  /** _check_time_gaps: one line counting the steps longer than three
      expected bar spacings. */
  function TimeGapIssues(rows: seq<Row>, tf: string): seq<Issue> {
    if |rows| < 2 then []
    else
      var n := LargeGapCount(Times(rows), 3 * ExpectedSeconds(tf));
      Flag(n, TimeGaps(n))
  }

  function NonPositiveFor(rows: seq<Row>, c: Column): seq<Issue> {
    var n := CountWhere(rows, NotPositive(c));
    Flag(n, NonPositive(c, n))
  }

  /** _check_value_ranges: per price column, its count of non-positive
      prices. */
  function ValueRangeIssues(rows: seq<Row>): seq<Issue> {
    NonPositiveFor(rows, OpenCol) + NonPositiveFor(rows, HighCol) +
    NonPositiveFor(rows, LowCol) + NonPositiveFor(rows, CloseCol)
  }

  /** _check_volume: negative volumes, then zero volumes when they are more
      than 5% of the bars. */
  function VolumeIssues(rows: seq<Row>): seq<Issue> {
    var neg := CountWhere(rows, NegativeVol);
    var zero := CountWhere(rows, ZeroVol);
    Flag(neg, NegativeVolume(neg)) +
    (if zero > 0 && ShareAbove(zero, |rows|, MaxZeroVolumePercentage) then [ZeroVolume(zero)] else [])
  }

  /** The two early returns of validate_ohlcv: an empty table, and one
      lacking a required column. */
  predicate EarlyExit(t: Table) {
    |t.rows| == 0 || |Absent(RequiredColumns, t.columns)| > 0
  }

  /** validate_ohlcv's issue list, the spike check left out. */
  function ValidationIssues(t: Table, tf: string): seq<Issue> {
    if |t.rows| == 0 then [EmptyData]
    else
      var absent := Absent(RequiredColumns, t.columns);
      if |absent| > 0 then [MissingColumns(absent)]
      else MissingValueIssues(t.rows) + ConsistencyIssues(t.rows) + TimeGapIssues(t.rows, tf) +
           ValueRangeIssues(t.rows) + VolumeIssues(t.rows)
  }

  /** A row with every cell present whose values form a well-formed bar. */
  predicate RowOk(r: Row) {
    r.open.Some? && r.high.Some? && r.low.Some? && r.close.Some? && r.volume.Some? &&
    WellFormedBar(Bar(r.time, r.open.value, r.high.value, r.low.value, r.close.value, r.volume.value))
  }

  predicate Complete(r: Row) {
    r.open.Some? && r.high.Some? && r.low.Some? && r.close.Some? && r.volume.Some?
  }

  predicate Consistent(r: Row) {
    !Holds(r, Below(HighCol, LowCol)) && !Holds(r, Below(HighCol, OpenCol)) && !Holds(r, Below(HighCol, CloseCol)) &&
    !Holds(r, Below(OpenCol, LowCol)) && !Holds(r, Below(CloseCol, LowCol))
  }

  predicate PricesInRange(r: Row) {
    !Holds(r, NotPositive(OpenCol)) && !Holds(r, NotPositive(HighCol)) &&
    !Holds(r, NotPositive(LowCol)) && !Holds(r, NotPositive(CloseCol))
  }

  /** The per-row checks pass exactly on a complete, well-formed row. */
  lemma {:induction false} RowOkMeaning(r: Row)
    ensures RowOk(r) <==> Complete(r) && Consistent(r) && PricesInRange(r) && !Holds(r, NegativeVol)
  {
  }

  lemma {:induction false} MissingSilent(rows: seq<Row>)
    ensures MissingValueIssues(rows) == [] <==> forall k :: 0 <= k < |rows| ==> Complete(rows[k])
  {
    CountWhereZero(rows, Missing(OpenCol));
    CountWhereZero(rows, Missing(HighCol));
    CountWhereZero(rows, Missing(LowCol));
    CountWhereZero(rows, Missing(CloseCol));
    CountWhereZero(rows, Missing(VolumeCol));
  }

  lemma {:induction false} ConsistencySilent(rows: seq<Row>)
    ensures ConsistencyIssues(rows) == [] <==> forall k :: 0 <= k < |rows| ==> Consistent(rows[k])
  {
    CountWhereZero(rows, Below(HighCol, LowCol));
    CountWhereZero(rows, Below(HighCol, OpenCol));
    CountWhereZero(rows, Below(HighCol, CloseCol));
    CountWhereZero(rows, Below(OpenCol, LowCol));
    CountWhereZero(rows, Below(CloseCol, LowCol));
  }

  lemma {:induction false} RangeSilent(rows: seq<Row>)
    ensures ValueRangeIssues(rows) == [] <==> forall k :: 0 <= k < |rows| ==> PricesInRange(rows[k])
  {
    CountWhereZero(rows, NotPositive(OpenCol));
    CountWhereZero(rows, NotPositive(HighCol));
    CountWhereZero(rows, NotPositive(LowCol));
    CountWhereZero(rows, NotPositive(CloseCol));
  }

  /** The row-wise part of the validation is silent exactly when every row
      is complete and well-formed. */
  lemma {:induction false} RowChecksSilent(rows: seq<Row>)
    ensures MissingValueIssues(rows) + ConsistencyIssues(rows) + ValueRangeIssues(rows) +
            Flag(CountWhere(rows, NegativeVol), NegativeVolume(CountWhere(rows, NegativeVol))) == [] <==>
            forall k :: 0 <= k < |rows| ==> RowOk(rows[k])
  {
    MissingSilent(rows);
    ConsistencySilent(rows);
    RangeSilent(rows);
    CountWhereZero(rows, NegativeVol);
    forall k | 0 <= k < |rows| {
      RowOkMeaning(rows[k]);
    }
  }

  /** validate_ohlcv finds nothing exactly when the table has rows and every
      column, every row is complete and well-formed, no step exceeds three
      bar spacings, and zero volumes are at most 5% of the bars. */
  lemma {:induction false} ValidIff(t: Table, tf: string)
    ensures ValidationIssues(t, tf) == [] <==>
      |t.rows| > 0 &&
      (forall k :: 0 <= k < |RequiredColumns| ==> RequiredColumns[k] in t.columns) &&
      (forall k :: 0 <= k < |t.rows| ==> RowOk(t.rows[k])) &&
      LargeGapCount(Times(t.rows), 3 * ExpectedSeconds(tf)) == 0 &&
      !(CountWhere(t.rows, ZeroVol) > 0 && ShareAbove(CountWhere(t.rows, ZeroVol), |t.rows|, MaxZeroVolumePercentage))
  {
    if |t.rows| > 0 && |Absent(RequiredColumns, t.columns)| == 0 {
      RowChecksSilent(t.rows);
    }
  }

  // ----------------------------------------------------------- the cleaner

  /** The set of timestamps of some rows. */
  function TimeSet(rows: seq<Row>): set<int> {
    if |rows| == 0 then {} else TimeSet(rows[..|rows| - 1]) + {rows[|rows| - 1].time}
  }

  lemma {:induction false} TimeSetMeaning(rows: seq<Row>)
    ensures forall t :: t in TimeSet(rows) <==> exists k :: 0 <= k < |rows| && rows[k].time == t
  {
    if |rows| > 0 {
      var init := rows[..|rows| - 1];
      TimeSetMeaning(init);
      assert forall k :: 0 <= k < |init| ==> init[k] == rows[k];
    }
  }

  /** The earliest row carrying timestamp `t`. */
  function FirstWith(rows: seq<Row>, t: int): Row
    requires t in TimeSet(rows)
  {
    var init := rows[..|rows| - 1];
    if t in TimeSet(init) then FirstWith(init, t) else rows[|rows| - 1]
  }

  /** `index.duplicated(keep='first')` removed: each timestamp's first row,
      in the original order. */
  function Dedupe(rows: seq<Row>): seq<Row> {
    if |rows| == 0 then []
    else
      var init := rows[..|rows| - 1];
      var last := rows[|rows| - 1];
      Dedupe(init) + (if last.time in TimeSet(init) then [] else [last])
  }

  predicate DistinctTimes(rows: seq<Row>) {
    forall i, j :: 0 <= i < j < |rows| ==> rows[i].time != rows[j].time
  }

  /** After removing duplicates the timestamps are the same set, each once,
      and the row kept for each is its first occurrence. */
  lemma {:induction false} DedupeKeepsFirst(rows: seq<Row>)
    ensures TimeSet(Dedupe(rows)) == TimeSet(rows)
    ensures DistinctTimes(Dedupe(rows))
    ensures forall k :: 0 <= k < |Dedupe(rows)| ==>
      Dedupe(rows)[k].time in TimeSet(rows) && Dedupe(rows)[k] == FirstWith(rows, Dedupe(rows)[k].time)
  {
    if |rows| > 0 {
      var init := rows[..|rows| - 1];
      var last := rows[|rows| - 1];
      DedupeKeepsFirst(init);
      var d := Dedupe(init);
      assert TimeSet(rows) == TimeSet(init) + {last.time};
      forall k | 0 <= k < |d| ensures FirstWith(rows, d[k].time) == FirstWith(init, d[k].time) {
      }
      if last.time in TimeSet(init) {
        assert Dedupe(rows) == d;
      } else {
        var e := d + [last];
        assert Dedupe(rows) == e;
        assert e[..|e| - 1] == d;
        assert TimeSet(e) == TimeSet(d) + {last.time};
        assert FirstWith(rows, last.time) == last;
        TimeSetMeaning(d);
        forall i, j | 0 <= i < j < |e| ensures e[i].time != e[j].time {
          if j == |e| - 1 {
            assert e[i] == d[i];
          }
        }
      }
    }
  }

  /** Rows with the same timestamps position by position have the same
      timestamp set. */
  lemma {:induction false} SameTimes(a: seq<Row>, b: seq<Row>)
    requires |a| == |b|
    requires forall k :: 0 <= k < |a| ==> a[k].time == b[k].time
    ensures TimeSet(a) == TimeSet(b)
  {
    if |a| > 0 {
      SameTimes(a[..|a| - 1], b[..|b| - 1]);
    }
  }

  /** A price column as a sequence of cells. */
  function ColumnOf(rows: seq<Row>, c: Column): (r: seq<Option<real>>)
    ensures |r| == |rows|
    ensures forall k :: 0 <= k < |rows| ==> r[k] == Cell(rows[k], c)
  {
    seq(|rows|, k requires 0 <= k < |rows| => Cell(rows[k], c))
  }

  /** `fillna(method='ffill')`: a missing cell takes the nearest present
      value above it. */
  function FillForward(col: seq<Option<real>>): (r: seq<Option<real>>)
    ensures |r| == |col|
  {
    if |col| == 0 then []
    else
      var prev := FillForward(col[..|col| - 1]);
      var last := col[|col| - 1];
      prev + [if last.Some? || |prev| == 0 then last else prev[|prev| - 1]]
  }

  /** `fillna(method='bfill')`: a missing cell takes the nearest present
      value below it. */
  function FillBackward(col: seq<Option<real>>): (r: seq<Option<real>>)
    ensures |r| == |col|
  {
    if |col| == 0 then []
    else
      var rest := FillBackward(col[1..]);
      [if col[0].Some? || |rest| == 0 then col[0] else rest[0]] + rest
  }

  function Fill(col: seq<Option<real>>): (r: seq<Option<real>>)
    ensures |r| == |col|
  {
    FillBackward(FillForward(col))
  }

  lemma {:induction false} ForwardKeeps(col: seq<Option<real>>, k: nat)
    requires k < |col| && col[k].Some?
    ensures FillForward(col)[k] == col[k]
  {
    if k < |col| - 1 {
      ForwardKeeps(col[..|col| - 1], k);
    }
  }

  lemma {:induction false} ForwardFrom(col: seq<Option<real>>, j: nat, k: nat)
    requires j <= k < |col| && col[j].Some?
    ensures FillForward(col)[k].Some?
  {
    if k == j {
      ForwardKeeps(col, k);
    } else if k == |col| - 1 {
      ForwardFrom(col[..|col| - 1], j, k - 1);
    } else {
      ForwardFrom(col[..|col| - 1], j, k);
    }
  }

  lemma {:induction false} BackwardKeeps(col: seq<Option<real>>, k: nat)
    requires k < |col| && col[k].Some?
    ensures FillBackward(col)[k] == col[k]
  {
    if k > 0 {
      BackwardKeeps(col[1..], k - 1);
    }
  }

  lemma {:induction false} BackwardUntil(col: seq<Option<real>>, k: nat, j: nat)
    requires k <= j < |col| && col[j].Some?
    ensures FillBackward(col)[k].Some?
  {
    if k == 0 {
      if col[0].None? {
        BackwardUntil(col[1..], 0, j - 1);
      }
    } else {
      BackwardUntil(col[1..], k - 1, j - 1);
    }
  }

  /** Forward filling copies the nearest present value above a gap. */
  lemma {:induction false} ForwardNearest(col: seq<Option<real>>, j: nat, k: nat)
    requires j <= k < |col| && col[j].Some?
    requires forall m :: j < m <= k ==> col[m].None?
    ensures FillForward(col)[k] == col[j]
  {
    if k == j {
      ForwardKeeps(col, k);
    } else if k == |col| - 1 {
      ForwardNearest(col[..|col| - 1], j, k - 1);
    } else {
      ForwardNearest(col[..|col| - 1], j, k);
    }
  }

  /** With nothing present up to `k`, forward filling leaves `k` missing. */
  lemma {:induction false} ForwardNone(col: seq<Option<real>>, k: nat)
    requires k < |col|
    requires forall m :: 0 <= m <= k ==> col[m].None?
    ensures FillForward(col)[k].None?
  {
    if k < |col| - 1 {
      ForwardNone(col[..|col| - 1], k);
    } else if k > 0 {
      ForwardNone(col[..|col| - 1], k - 1);
    }
  }

  /** Backward filling copies the nearest present value below a gap. */
  lemma {:induction false} BackwardNearest(col: seq<Option<real>>, k: nat, j: nat)
    requires k <= j < |col| && col[j].Some?
    requires forall m :: k <= m < j ==> col[m].None?
    ensures FillBackward(col)[k] == col[j]
  {
    if k == j {
      BackwardKeeps(col, k);
    } else if k == 0 {
      BackwardNearest(col[1..], 0, j - 1);
    } else {
      BackwardNearest(col[1..], k - 1, j - 1);
    }
  }

  /** Filling keeps every present value; a missing cell takes the nearest
      present value above it, and, when there is none above, the nearest
      present value below it; no cell stays missing as soon as the column
      has one present value. */
  lemma {:induction false} FillMeaning(col: seq<Option<real>>)
    ensures forall k :: 0 <= k < |col| && col[k].Some? ==> Fill(col)[k] == col[k]
    ensures forall j, k :: 0 <= j < k < |col| && col[j].Some? && (forall m :: j < m <= k ==> col[m].None?) ==>
      Fill(col)[k] == col[j]
    ensures forall k, j :: 0 <= k < j < |col| && col[j].Some? && (forall m :: 0 <= m < j ==> col[m].None?) ==>
      Fill(col)[k] == col[j]
    ensures (exists j :: 0 <= j < |col| && col[j].Some?) ==> forall k :: 0 <= k < |col| ==> Fill(col)[k].Some?
  {
    FillNearest(col);
    FillPresent(col);
  }

  lemma {:induction false} FillNearest(col: seq<Option<real>>)
    ensures forall j, k :: 0 <= j < k < |col| && col[j].Some? && (forall m :: j < m <= k ==> col[m].None?) ==>
      Fill(col)[k] == col[j]
    ensures forall k, j :: 0 <= k < j < |col| && col[j].Some? && (forall m :: 0 <= m < j ==> col[m].None?) ==>
      Fill(col)[k] == col[j]
  {
    var ff := FillForward(col);
    forall j, k | 0 <= j < k < |col| && col[j].Some? && (forall m :: j < m <= k ==> col[m].None?)
      ensures Fill(col)[k] == col[j]
    {
      ForwardNearest(col, j, k);
      BackwardKeeps(ff, k);
    }
    forall k, j | 0 <= k < j < |col| && col[j].Some? && (forall m :: 0 <= m < j ==> col[m].None?)
      ensures Fill(col)[k] == col[j]
    {
      ForwardKeeps(col, j);
      forall m | k <= m < j ensures ff[m].None? {
        ForwardNone(col, m);
      }
      BackwardNearest(ff, k, j);
    }
  }

  lemma {:induction false} FillPresent(col: seq<Option<real>>)
    ensures forall k :: 0 <= k < |col| && col[k].Some? ==> Fill(col)[k] == col[k]
    ensures (exists j :: 0 <= j < |col| && col[j].Some?) ==> forall k :: 0 <= k < |col| ==> Fill(col)[k].Some?
  {
    var ff := FillForward(col);
    forall k | 0 <= k < |col| && col[k].Some? ensures Fill(col)[k] == col[k] {
      ForwardKeeps(col, k);
      BackwardKeeps(ff, k);
    }
    if j :| 0 <= j < |col| && col[j].Some? {
      forall k | 0 <= k < |col| ensures Fill(col)[k].Some? {
        if k >= j {
          ForwardFrom(col, j, k);
          BackwardKeeps(ff, k);
        } else {
          ForwardKeeps(col, j);
          BackwardUntil(ff, k, j);
        }
      }
    }
  }

  /** The rows with their four price columns filled; volume is left as is. */
  function FillRows(rows: seq<Row>): (r: seq<Row>)
    ensures |r| == |rows|
  {
    var o, h, l, c := Fill(ColumnOf(rows, OpenCol)), Fill(ColumnOf(rows, HighCol)),
                      Fill(ColumnOf(rows, LowCol)), Fill(ColumnOf(rows, CloseCol));
    seq(|rows|, k requires 0 <= k < |rows| => Row(rows[k].time, o[k], h[k], l[k], c[k], rows[k].volume))
  }

  /** Row-wise `max` skipping missing cells; missing when all are. */
  function MaxSkip(a: Option<real>, b: Option<real>): (r: Option<real>)
    ensures r.Some? <==> a.Some? || b.Some?
    ensures a.Some? ==> r.Some? && r.value >= a.value
    ensures b.Some? ==> r.Some? && r.value >= b.value
    ensures r.Some? ==> r == a || r == b
  {
    if a.None? then b else if b.None? then a else Some(MaxR(a.value, b.value))
  }

  /** Row-wise `min` skipping missing cells; missing when all are. */
  function MinSkip(a: Option<real>, b: Option<real>): (r: Option<real>)
    ensures r.Some? <==> a.Some? || b.Some?
    ensures a.Some? ==> r.Some? && r.value <= a.value
    ensures b.Some? ==> r.Some? && r.value <= b.value
    ensures r.Some? ==> r == a || r == b
  {
    if a.None? then b else if b.None? then a else Some(MinR(a.value, b.value))
  }

  /** One filled row through the rest of clean_ohlcv: High becomes the
      largest and Low the smallest of open, high/low and close, the row is
      dropped unless its four prices are present and positive, and volume is
      filled with 0 and clipped at 0. */
  function CleanRow(r: Row): (b: Option<Bar>)
    ensures b.Some? <==> r.open.Some? && r.close.Some? && r.open.value > 0.0 && r.close.value > 0.0 &&
                         (r.low.Some? ==> r.low.value > 0.0)
    ensures b.Some? ==> WellFormedBar(b.value) && b.value.time == r.time
    ensures b.Some? ==> Some(b.value.open) == r.open && Some(b.value.close) == r.close
    ensures b.Some? ==> (b.value.high == b.value.open || b.value.high == b.value.close || Some(b.value.high) == r.high)
    ensures b.Some? && r.high.Some? ==> b.value.high >= r.high.value
    ensures b.Some? ==> (b.value.low == b.value.open || b.value.low == b.value.close || Some(b.value.low) == r.low)
    ensures b.Some? && r.low.Some? ==> b.value.low <= r.low.value
    ensures b.Some? ==> b.value.volume == MaxR(0.0, r.volume.GetOr(0.0))
  {
    var high := MaxSkip(MaxSkip(r.open, r.high), r.close);
    var low := MinSkip(MinSkip(r.open, r.low), r.close);
    if r.open.Some? && r.close.Some? && r.open.value > 0.0 && r.close.value > 0.0 && low.value > 0.0 then
      Some(Bar(r.time, r.open.value, high.value, low.value, r.close.value, MaxR(0.0, r.volume.GetOr(0.0))))
    else None
  }

  /** The rows CleanRow keeps, in order. */
  function KeepBars(rows: seq<Row>): (bars: seq<Bar>)
    ensures |bars| <= |rows|
  {
    if |rows| == 0 then []
    else
      var b := CleanRow(rows[|rows| - 1]);
      KeepBars(rows[..|rows| - 1]) + (if b.Some? then [b.value] else [])
  }

  /** clean_ohlcv: duplicates removed, prices filled, then row by row. */
  function Clean(rows: seq<Row>): seq<Bar> {
    KeepBars(FillRows(Dedupe(rows)))
  }

  function BarTimes(bars: seq<Bar>): set<int> {
    if |bars| == 0 then {} else BarTimes(bars[..|bars| - 1]) + {bars[|bars| - 1].time}
  }

  lemma {:induction false} BarTimesMeaning(bars: seq<Bar>)
    ensures forall k :: 0 <= k < |bars| ==> bars[k].time in BarTimes(bars)
  {
    if |bars| > 0 {
      BarTimesMeaning(bars[..|bars| - 1]);
    }
  }

  lemma {:induction false} KeepBarsSound(rows: seq<Row>)
    ensures forall k :: 0 <= k < |KeepBars(rows)| ==> WellFormedBar(KeepBars(rows)[k])
    ensures BarTimes(KeepBars(rows)) <= TimeSet(rows)
    ensures DistinctTimes(rows) ==> forall i, j :: 0 <= i < j < |KeepBars(rows)| ==> KeepBars(rows)[i].time != KeepBars(rows)[j].time
  {
    if |rows| > 0 {
      var init := rows[..|rows| - 1];
      KeepBarsSound(init);
      var prev := KeepBars(init);
      var b := CleanRow(rows[|rows| - 1]);
      assert TimeSet(rows) == TimeSet(init) + {rows[|rows| - 1].time};
      if b.None? {
        assert KeepBars(rows) == prev;
      } else {
        var e := prev + [b.value];
        assert KeepBars(rows) == e;
        assert e[..|e| - 1] == prev;
        assert BarTimes(e) == BarTimes(prev) + {b.value.time};
        if DistinctTimes(rows) {
          assert DistinctTimes(init) by {
            assert forall k :: 0 <= k < |init| ==> init[k] == rows[k];
          }
          TimeSetMeaning(init);
          assert b.value.time !in TimeSet(init);
          BarTimesMeaning(prev);
          forall i, j | 0 <= i < j < |e| ensures e[i].time != e[j].time {
            if j == |e| - 1 {
              assert e[i] == prev[i];
            }
          }
        }
      }
    }
  }

  /** KeepBars holds exactly the bars CleanRow makes of the rows, in order. */
  lemma {:induction false} KeepBarsFromRows(rows: seq<Row>)
    ensures forall k :: 0 <= k < |KeepBars(rows)| ==> exists j :: 0 <= j < |rows| && CleanRow(rows[j]) == Some(KeepBars(rows)[k])
    ensures forall j :: 0 <= j < |rows| && CleanRow(rows[j]).Some? ==> CleanRow(rows[j]).value in KeepBars(rows)
  {
    if |rows| > 0 {
      var init := rows[..|rows| - 1];
      var last := |rows| - 1;
      KeepBarsFromRows(init);
      var prev := KeepBars(init);
      var b := CleanRow(rows[last]);
      var e := KeepBars(rows);
      assert e == prev + (if b.Some? then [b.value] else []);
      forall k | 0 <= k < |e|
        ensures exists j :: 0 <= j < |rows| && CleanRow(rows[j]) == Some(e[k])
      {
        if k < |prev| {
          assert e[k] == prev[k];
          var j :| 0 <= j < |init| && CleanRow(init[j]) == Some(prev[k]);
          assert rows[j] == init[j];
        } else {
          assert CleanRow(rows[last]) == Some(e[k]);
        }
      }
      forall j | 0 <= j < |rows| && CleanRow(rows[j]).Some?
        ensures CleanRow(rows[j]).value in e
      {
        if j < last {
          assert rows[j] == init[j];
          assert CleanRow(init[j]).value in prev;
        }
      }
    } else {
      assert KeepBars(rows) == [];
    }
  }

  lemma {:induction false} FillRowsTimes(rows: seq<Row>)
    ensures forall k :: 0 <= k < |rows| ==> FillRows(rows)[k].time == rows[k].time
  {
  }

  /** What clean_ohlcv guarantees: every bar well-formed (positive prices,
      High at or above and Low at or below open and close, volume not
      negative), each timestamp once, and only timestamps of the input;
      the bars are exactly what CleanRow makes of the deduplicated, filled
      rows, so High is the largest and Low the smallest of a row's open,
      high/low and close, and every row with present, positive prices is
      kept. */
  lemma {:induction false} CleanGuarantees(rows: seq<Row>)
    ensures forall k :: 0 <= k < |Clean(rows)| ==> WellFormedBar(Clean(rows)[k])
    ensures forall i, j :: 0 <= i < j < |Clean(rows)| ==> Clean(rows)[i].time != Clean(rows)[j].time
    ensures BarTimes(Clean(rows)) <= TimeSet(rows)
    ensures var f := FillRows(Dedupe(rows));
      (forall k :: 0 <= k < |Clean(rows)| ==> exists j :: 0 <= j < |f| && CleanRow(f[j]) == Some(Clean(rows)[k])) &&
      (forall j :: 0 <= j < |f| && CleanRow(f[j]).Some? ==> CleanRow(f[j]).value in Clean(rows))
  {
    KeepBarsFromRows(FillRows(Dedupe(rows)));
    var d := Dedupe(rows);
    DedupeKeepsFirst(rows);
    var f := FillRows(d);
    FillRowsTimes(d);
    SameTimes(f, d);
    assert DistinctTimes(f);
    KeepBarsSound(f);
    assert Clean(rows) == KeepBars(f);
  }

  /** A cleaned series as a table with every column and every cell. */
  function AsTable(bars: seq<Bar>): (t: Table)
    ensures |t.rows| == |bars|
  {
    Table({OpenCol, HighCol, LowCol, CloseCol, VolumeCol},
          seq(|bars|, k requires 0 <= k < |bars| =>
            Row(bars[k].time, Some(bars[k].open), Some(bars[k].high), Some(bars[k].low), Some(bars[k].close), Some(bars[k].volume))))
  }

  /** A complete table of good rows can only draw time-gap and zero-volume
      issues. */
  lemma {:induction false} GoodRowsIssues(t: Table, tf: string)
    requires |t.rows| > 0 && Absent(RequiredColumns, t.columns) == []
    requires forall k :: 0 <= k < |t.rows| ==> RowOk(t.rows[k])
    ensures forall k :: 0 <= k < |ValidationIssues(t, tf)| ==>
      ValidationIssues(t, tf)[k].TimeGaps? || ValidationIssues(t, tf)[k].ZeroVolume?
  {
    var rows := t.rows;
    GoodRowsSilent(rows);
    VolumeIssuesZeroOnly(rows);
    TimeGapIssuesKind(rows, tf);
    var gaps, vol := TimeGapIssues(rows, tf), VolumeIssues(rows);
    IssuesOfCompleteTable(t, tf);
    var all: seq<Issue> := gaps + vol;
    forall k | 0 <= k < |all|
      ensures all[k].TimeGaps? || all[k].ZeroVolume?
    {
      if k >= |gaps| {
        assert all[k] == vol[k - |gaps|];
      }
    }
  }

  /** Rows that are all RowOk raise no missing-value, consistency or range
      line and have no negative volume. */
  lemma {:induction false} GoodRowsSilent(rows: seq<Row>)
    requires forall k :: 0 <= k < |rows| ==> RowOk(rows[k])
    ensures MissingValueIssues(rows) == [] && ConsistencyIssues(rows) == [] && ValueRangeIssues(rows) == []
    ensures CountWhere(rows, NegativeVol) == 0
  {
    forall k | 0 <= k < |rows|
      ensures Complete(rows[k]) && Consistent(rows[k]) && PricesInRange(rows[k]) && !Holds(rows[k], NegativeVol)
    {
      RowOkMeaning(rows[k]);
    }
    MissingSilent(rows);
    ConsistencySilent(rows);
    RangeSilent(rows);
    CountWhereZero(rows, NegativeVol);
  }

  /** When the row checks are silent, only the time and volume checks speak. */
  lemma {:induction false} IssuesOfCompleteTable(t: Table, tf: string)
    requires |t.rows| > 0 && Absent(RequiredColumns, t.columns) == []
    requires MissingValueIssues(t.rows) == [] && ConsistencyIssues(t.rows) == [] && ValueRangeIssues(t.rows) == []
    ensures ValidationIssues(t, tf) == TimeGapIssues(t.rows, tf) + VolumeIssues(t.rows)
  {
    var gaps := TimeGapIssues(t.rows, tf);
    var front := MissingValueIssues(t.rows) + ConsistencyIssues(t.rows);
    assert front == [];
    assert front + gaps == gaps;
    assert front + gaps + ValueRangeIssues(t.rows) == gaps;
  }

  /** Without negative volume, the volume check reports zero volume only. */
  lemma {:induction false} VolumeIssuesZeroOnly(rows: seq<Row>)
    requires CountWhere(rows, NegativeVol) == 0
    ensures forall k :: 0 <= k < |VolumeIssues(rows)| ==> VolumeIssues(rows)[k].ZeroVolume?
  {
  }

  /** The time check reports time gaps only. */
  lemma {:induction false} TimeGapIssuesKind(rows: seq<Row>, tf: string)
    ensures forall k :: 0 <= k < |TimeGapIssues(rows, tf)| ==> TimeGapIssues(rows, tf)[k].TimeGaps?
  {
  }

  lemma {:induction false} AsTableGood(bars: seq<Bar>)
    requires forall k :: 0 <= k < |bars| ==> WellFormedBar(bars[k])
    ensures Absent(RequiredColumns, AsTable(bars).columns) == []
    ensures forall k :: 0 <= k < |bars| ==> RowOk(AsTable(bars).rows[k])
  {
    var t := AsTable(bars);
    forall k | 0 <= k < |bars| ensures RowOk(t.rows[k]) {
      assert t.rows[k].open == Some(bars[k].open);
    }
  }

  /** Validating well-formed bars can only report time gaps and zero
      volume: no missing values, no inconsistent OHLC, no non-positive price
      and no negative volume. */
  lemma {:induction false} WellFormedRevalidates(bars: seq<Bar>, tf: string)
    requires |bars| > 0
    requires forall k :: 0 <= k < |bars| ==> WellFormedBar(bars[k])
    ensures forall k :: 0 <= k < |ValidationIssues(AsTable(bars), tf)| ==>
      ValidationIssues(AsTable(bars), tf)[k].TimeGaps? || ValidationIssues(AsTable(bars), tf)[k].ZeroVolume?
  {
    AsTableGood(bars);
    GoodRowsIssues(AsTable(bars), tf);
  }

  /** Validating cleaned data can only report time gaps and zero volume. */
  lemma {:induction false} CleanedRevalidates(rows: seq<Row>, tf: string)
    requires |Clean(rows)| > 0
    ensures forall k :: 0 <= k < |ValidationIssues(AsTable(Clean(rows)), tf)| ==>
      ValidationIssues(AsTable(Clean(rows)), tf)[k].TimeGaps? || ValidationIssues(AsTable(Clean(rows)), tf)[k].ZeroVolume?
  {
    CleanGuarantees(rows);
    WellFormedRevalidates(Clean(rows), tf);
  }

  // ------------------------------------------------------------------ gaps

  /** One gap: the bars around it and how many bars are missing. */
  datatype Gap = Gap(start: int, end: int, missing: int)

  /** detect_gaps on the timestamps: every step longer than two expected
      spacings, in order, with `int(step / spacing) - 1` bars missing. */
  function GapsOf(times: seq<int>, spacing: int): seq<Gap>
    requires spacing > 0
  {
    if |times| < 2 then []
    else
      var n := |times|;
      var d := times[n - 1] - times[n - 2];
      GapsOf(times[..n - 1], spacing) + (if d > 2 * spacing then [Gap(times[n - 2], times[n - 1], d / spacing - 1)] else [])
  }

  /** A reported gap spans two consecutive timestamps. */
  lemma {:induction false} GapStep(times: seq<int>, spacing: int, g: Gap) returns (i: nat)
    requires spacing > 0
    requires g in GapsOf(times, spacing)
    ensures 1 <= i < |times| && g.start == times[i - 1] && g.end == times[i]
  {
    var n := |times|;
    var init := times[..n - 1];
    var d := times[n - 1] - times[n - 2];
    var tail := if d > 2 * spacing then [Gap(times[n - 2], times[n - 1], d / spacing - 1)] else [];
    InConcat(g, GapsOf(init, spacing), tail);
    if g in GapsOf(init, spacing) {
      i := GapStep(init, spacing, g);
    } else {
      i := n - 1;
    }
  }

  /** The gaps number as many as the steps over two spacings, and each
      leaves at least one bar missing. */
  lemma {:induction false} GapsCounted(times: seq<int>, spacing: int)
    requires spacing > 0
    ensures |GapsOf(times, spacing)| == LargeGapCount(times, 2 * spacing)
    ensures forall g :: g in GapsOf(times, spacing) ==>
      g.end - g.start > 2 * spacing && g.missing == (g.end - g.start) / spacing - 1 && g.missing >= 1
  {
    if |times| >= 2 {
      GapsCounted(times[..|times| - 1], spacing);
      var d := times[|times| - 1] - times[|times| - 2];
      if d > 2 * spacing {
        assert d / spacing >= 2 by {
          assert d >= 2 * spacing;
        }
      }
    }
  }

  /** Every reported gap is a step between consecutive timestamps longer
      than two spacings with at least one bar missing; there are as many as
      such steps. */
  lemma {:induction false} GapsMeaning(times: seq<int>, spacing: int)
    requires spacing > 0
    ensures |GapsOf(times, spacing)| == LargeGapCount(times, 2 * spacing)
    ensures forall g :: g in GapsOf(times, spacing) ==>
      g.end - g.start > 2 * spacing && g.missing == (g.end - g.start) / spacing - 1 && g.missing >= 1
    ensures forall g :: g in GapsOf(times, spacing) ==>
      exists i :: 1 <= i < |times| && g.start == times[i - 1] && g.end == times[i]
  {
    GapsCounted(times, spacing);
    forall g | g in GapsOf(times, spacing)
      ensures exists i :: 1 <= i < |times| && g.start == times[i - 1] && g.end == times[i]
    {
      var i := GapStep(times, spacing, g);
    }
  }

  /** The time-gap check's steps (over three spacings) are all reported by
      detect_gaps (over two): each such step is a gap, so they number no
      more than the gaps. */
  lemma {:induction false} GapsCoverTimeGapCheck(times: seq<int>, spacing: int)
    requires spacing > 0
    ensures LargeGapCount(times, 3 * spacing) <= |GapsOf(times, spacing)|
    ensures forall i :: 1 <= i < |times| && times[i] - times[i - 1] > 3 * spacing ==>
      Gap(times[i - 1], times[i], (times[i] - times[i - 1]) / spacing - 1) in GapsOf(times, spacing)
  {
    GapCountsNest(times, spacing);
    GapsMeaning(times, spacing);
    forall i | 1 <= i < |times| && times[i] - times[i - 1] > 3 * spacing
      ensures Gap(times[i - 1], times[i], (times[i] - times[i - 1]) / spacing - 1) in GapsOf(times, spacing)
    {
      StepIsGap(times, spacing, i);
    }
  }

  /** Fewer steps exceed three spacings than two. */
  lemma {:induction false} GapCountsNest(times: seq<int>, spacing: int)
    requires spacing > 0
    ensures LargeGapCount(times, 3 * spacing) <= LargeGapCount(times, 2 * spacing)
  {
    if |times| >= 2 {
      GapCountsNest(times[..|times| - 1], spacing);
    }
  }

  /** A step over two spacings is reported as a gap. */
  lemma {:induction false} StepIsGap(times: seq<int>, spacing: int, i: nat)
    requires spacing > 0
    requires 1 <= i < |times| && times[i] - times[i - 1] > 2 * spacing
    ensures Gap(times[i - 1], times[i], (times[i] - times[i - 1]) / spacing - 1) in GapsOf(times, spacing)
  {
    var init := times[..|times| - 1];
    if i < |times| - 1 {
      StepIsGap(init, spacing, i);
    }
  }

  /** On increasing timestamps the gaps come in time order and do not
      overlap. */
  lemma {:induction false} GapsOrdered(times: seq<int>, spacing: int)
    requires spacing > 0
    requires forall i, j :: 0 <= i < j < |times| ==> times[i] < times[j]
    ensures forall a, b :: 0 <= a < b < |GapsOf(times, spacing)| ==>
      GapsOf(times, spacing)[a].end <= GapsOf(times, spacing)[b].start
    ensures forall g :: g in GapsOf(times, spacing) ==> g.end <= times[|times| - 1]
  {
    if |times| >= 2 {
      var init := times[..|times| - 1];
      GapsOrdered(init, spacing);
      var prev := GapsOf(init, spacing);
      assert forall g :: g in prev ==> g.end <= times[|times| - 2];
    }
  }

  // --------------------------------------------------------- quality score

  /** Points a message costs: the first of "missing values" (10), "high <
      low" (15), "spike" (5), "gap" (3), "negative" (10) its text contains;
      other messages cost nothing. */
  function Deduction(issue: Issue): (r: real)
    ensures r >= 0.0
  {
    match issue
    case MissingValues(_, _) => 10.0
    case MissingAboveThreshold(_) => 10.0
    case HighBelowLow(_) => 15.0
    case TimeGaps(_) => 3.0
    case NegativeVolume(_) => 10.0
    case _ => 0.0
  }

  function TotalDeduction(issues: seq<Issue>): (r: real)
    ensures r >= 0.0
  {
    if |issues| == 0 then 0.0 else TotalDeduction(issues[..|issues| - 1]) + Deduction(issues[|issues| - 1])
  }

  /** get_data_quality_score on a non-empty table's issues: 100 less the
      deductions, clamped to [0, 100]. */
  function ScoreOf(issues: seq<Issue>): real {
    MaxR(0.0, MinR(100.0, 100.0 - TotalDeduction(issues)))
  }

  lemma {:induction false} NoDeduction(issues: seq<Issue>)
    ensures TotalDeduction(issues) == 0.0 <==> forall k :: 0 <= k < |issues| ==> Deduction(issues[k]) == 0.0
  {
    if |issues| > 0 {
      var init := issues[..|issues| - 1];
      NoDeduction(init);
      assert forall k :: 0 <= k < |init| ==> init[k] == issues[k];
    }
  }

  /** The score lies in [0, 100] and is 100 exactly when no issue costs
      points; a valid table scores 100, and so does one lacking a required
      column, whose single issue costs nothing. */
  lemma {:induction false} QualityScoreMeaning(t: Table, tf: string)
    ensures 0.0 <= ScoreOf(ValidationIssues(t, tf)) <= 100.0
    ensures ScoreOf(ValidationIssues(t, tf)) == 100.0 <==>
      forall k :: 0 <= k < |ValidationIssues(t, tf)| ==> Deduction(ValidationIssues(t, tf)[k]) == 0.0
    ensures ValidationIssues(t, tf) == [] ==> ScoreOf(ValidationIssues(t, tf)) == 100.0
    ensures |t.rows| > 0 && |Absent(RequiredColumns, t.columns)| > 0 ==> ScoreOf(ValidationIssues(t, tf)) == 100.0
  {
    var issues := ValidationIssues(t, tf);
    NoDeduction(issues);
    if |t.rows| > 0 && |Absent(RequiredColumns, t.columns)| > 0 {
      assert issues == [MissingColumns(Absent(RequiredColumns, t.columns))];
      assert TotalDeduction(issues) == TotalDeduction([]) + 0.0;
    }
  }

  /** The deduction loop of get_data_quality_score. */
  method ScoreIssues(issues: seq<Issue>) returns (score: real)
    ensures score == ScoreOf(issues)
  {
    score := 100.0;
    for i := 0 to |issues|
      invariant score == 100.0 - TotalDeduction(issues[..i])
    {
      assert issues[..i + 1][..i] == issues[..i];
      score := score - Deduction(issues[i]);
    }
    assert issues[..|issues|] == issues;
    score := MaxR(0.0, MinR(100.0, score));
  }

  // ----------------------------------------------------------- the object

  /** DataValidator with its `stats` counters. */
  class DataValidator {
    var validations: nat
    var issuesFound: nat
    var cleanings: nat

    constructor()
      ensures validations == 0 && issuesFound == 0 && cleanings == 0
    {
      validations := 0;
      issuesFound := 0;
      cleanings := 0;
    }

    /** validate_ohlcv: every call is counted; the issues are added to the
        running total except on the two early returns. */
    method ValidateOhlcv(t: Table, tf: string) returns (valid: bool, issues: seq<Issue>)
      modifies this
      ensures issues == ValidationIssues(t, tf)
      ensures valid <==> |issues| == 0
      ensures validations == old(validations) + 1
      ensures issuesFound == old(issuesFound) + (if EarlyExit(t) then 0 else |issues|)
      ensures cleanings == old(cleanings)
    {
      validations := validations + 1;
      if |t.rows| == 0 {
        return false, [EmptyData];
      }
      var absent := Absent(RequiredColumns, t.columns);
      if |absent| > 0 {
        return false, [MissingColumns(absent)];
      }
      issues := MissingValueIssues(t.rows);
      issues := issues + ConsistencyIssues(t.rows);
      issues := issues + TimeGapIssues(t.rows, tf);
      issues := issues + ValueRangeIssues(t.rows);
      issues := issues + VolumeIssues(t.rows);
      if |issues| > 0 {
        issuesFound := issuesFound + |issues|;
      }
      valid := |issues| == 0;
    }

    /** clean_ohlcv: counted, and the cleaned bars. The source indexes all
        five columns after counting the call, so a table without one of
        them is counted and then fails (None). */
    method CleanOhlcv(t: Table) returns (bars: Option<seq<Bar>>)
      modifies this
      ensures Absent(RequiredColumns, t.columns) == [] ==> bars == Some(Clean(t.rows))
      ensures Absent(RequiredColumns, t.columns) != [] ==> bars == None
      ensures cleanings == old(cleanings) + 1
      ensures validations == old(validations) && issuesFound == old(issuesFound)
    {
      cleanings := cleanings + 1;
      if Absent(RequiredColumns, t.columns) != [] {
        return None;
      }
      bars := Some(Clean(t.rows));
    }

    /** detect_gaps: the consecutive pairs of timestamps more than two
        expected spacings apart; none for fewer than two rows. */
    method DetectGaps(t: Table, tf: string) returns (gaps: seq<Gap>)
      ensures gaps == GapsOf(Times(t.rows), ExpectedSeconds(tf))
    {
      var times := Times(t.rows);
      var spacing := ExpectedSeconds(tf);
      gaps := [];
      if |times| < 2 {
        return;
      }
      for i := 1 to |times|
        invariant gaps == GapsOf(times[..i], spacing)
      {
        var d := times[i] - times[i - 1];
        assert times[..i + 1][..i] == times[..i];
        if d > 2 * spacing {
          gaps := gaps + [Gap(times[i - 1], times[i], d / spacing - 1)];
        }
      }
      assert times[..|times|] == times;
    }

    /** get_data_quality_score: 0 for an empty table, which is not
        validated; otherwise the table is validated (and counted) and each
        issue's cost is deducted from 100. */
    method DataQualityScore(t: Table, tf: string) returns (score: real)
      modifies this
      ensures |t.rows| == 0 ==> score == 0.0 && validations == old(validations) && issuesFound == old(issuesFound)
      ensures |t.rows| > 0 ==> score == ScoreOf(ValidationIssues(t, tf)) && validations == old(validations) + 1
      ensures |t.rows| > 0 ==> issuesFound == old(issuesFound) + (if EarlyExit(t) then 0 else |ValidationIssues(t, tf)|)
      ensures cleanings == old(cleanings)
    {
      if |t.rows| == 0 {
        return 0.0;
      }
      var valid, issues := ValidateOhlcv(t, tf);
      score := ScoreIssues(issues);
    }
  }
}
