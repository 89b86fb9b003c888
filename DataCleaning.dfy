/**
 * Cleaning of raw OHLCV files in the ML pipeline: the aggregation map used
 * to resample trade data, the column normalisation of `_clean_df`, its row
 * rules (missing timestamps, ordering, duplicates, gap filling, zero and
 * negative rows), the column prefix, and the naming and grouping of the
 * per-symbol output files.
 *
 * A frame is given after parsing: timestamps are milliseconds (None where
 * `to_datetime` yields NaT), cells are reals (None for NaN). File reading
 * and writing, and the one-minute resampling, are outside the model.
 */
module DataCleaning {
  import opened Common

  // ------------------------------------------------------- _aggregate_trades

  datatype Agg = Mean | Sum | Last

  /** "price" is checked first, then "volume"; everything else keeps its last value. */
  function AggOf(col: string): Agg
  {
    if Contains(col, "price") then Mean else if Contains(col, "volume") then Sum else Last
  }

  function AggSpec(columns: seq<string>): map<string, Agg>
  {
    if columns == [] then map[]
    else AggSpec(columns[..|columns| - 1])[columns[|columns| - 1] := AggOf(columns[|columns| - 1])]
  }

  /** The loop of `_aggregate_trades` that fills `agg_map`. */
  method BuildAggMap(columns: seq<string>) returns (m: map<string, Agg>)
    ensures m == AggSpec(columns)
  {
    m := map[];
    var i := 0;
    while i < |columns|
      invariant 0 <= i <= |columns|
      invariant m == AggSpec(columns[..i])
    {
      var col := columns[i];
      if Contains(col, "price") {
        m := m[col := Mean];
      } else if Contains(col, "volume") {
        m := m[col := Sum];
      } else {
        m := m[col := Last];
      }
      assert columns[..i + 1][..i] == columns[..i];
      i := i + 1;
    }
    assert columns[..i] == columns;
  }

  /** Every column gets exactly one rule, the one its name selects. */
  lemma {:induction false} AggSpecRules(columns: seq<string>)
    ensures forall c :: c in AggSpec(columns) <==> c in columns
    ensures forall c :: c in AggSpec(columns) ==> AggSpec(columns)[c] == AggOf(c)
  {
    if columns != [] {
      var init := columns[..|columns| - 1];
      AggSpecRules(init);
      assert columns == init + [columns[|columns| - 1]];
    }
  }

  /** A column named like `volume_price` is averaged: the price test comes first. */
  lemma PriceBeforeVolume(col: string)
    requires Contains(col, "price")
    ensures AggOf(col) == Mean
  {
  }

  /** `KeyError` where `sort_values("timestamp")` finds no such column. */
  datatype Aggregation = Unchanged | NoTimestamp | Resampled(rules: map<string, Agg>)

  /** The columns left once `set_index("timestamp")` has taken the timestamp out. */
  function ValueColumns(columns: seq<string>): (r: seq<string>)
    ensures forall c :: c in r <==> c in columns && c != "timestamp"
  {
    Filter(columns, (c: string) => c != "timestamp")
  }

  /**
   * `_aggregate_trades`: a frame that is empty (no rows, or no columns) is
   * returned as it is; one without a timestamp column raises at the sort;
   * any other is resampled with the rules of its remaining columns.
   */
  method AggregateTrades(rows: nat, columns: seq<string>) returns (r: Aggregation)
    ensures rows == 0 || columns == [] ==> r == Unchanged
    ensures rows > 0 && columns != [] && "timestamp" !in columns ==> r == NoTimestamp
    ensures rows > 0 && "timestamp" in columns ==> r == Resampled(AggSpec(ValueColumns(columns)))
  {
    if rows == 0 || columns == [] {
      return Unchanged;
    }
    if "timestamp" !in columns {
      return NoTimestamp;
    }
    var m := BuildAggMap(ValueColumns(columns));
    r := Resampled(m);
  }

  /** The resampling rules cover exactly the non-timestamp columns, each with the rule its name selects. */
  lemma ResampledRules(columns: seq<string>)
    ensures forall c :: c in AggSpec(ValueColumns(columns)) <==> c in columns && c != "timestamp"
    ensures forall c :: c in AggSpec(ValueColumns(columns)) ==> AggSpec(ValueColumns(columns))[c] == AggOf(c)
  {
    AggSpecRules(ValueColumns(columns));
  }

  // ----------------------------------------------------------- columns

  /** The vendor column names `_clean_df` renames. */
  function Vendor(c: string): string
  {
    if c == "opening_price" then "open"
    else if c == "high_price" then "high"
    else if c == "low_price" then "low"
    else if c == "trade_price" then "close"
    else if c == "candle_acc_trade_volume" then "volume"
    else if c == "candle_date_time_utc" then "timestamp"
    else c
  }

  /** Renamed, then lower-cased. */
  function Normalize(columns: seq<string>): (r: seq<string>)
    ensures |r| == |columns|
    ensures forall i :: 0 <= i < |columns| ==> r[i] == Lower(Vendor(columns[i]))
  {
    if columns == [] then [] else [Lower(Vendor(columns[0]))] + Normalize(columns[1..])
  }

  /** `df.loc[:, ~df.columns.duplicated()]`: the first occurrence of each name stays. */
  function DedupColumns(columns: seq<string>): (r: seq<string>)
    ensures forall c :: c in r <==> c in columns
    ensures forall i, j :: 0 <= i < j < |r| ==> r[i] != r[j]
  {
    if columns == [] then []
    else
      var init := DedupColumns(columns[..|columns| - 1]);
      var last := columns[|columns| - 1];
      assert forall c :: c in columns <==> c in columns[..|columns| - 1] || c == last;
      if last in init then init else init + [last]
  }

  const Required: seq<string> := ["timestamp", "open", "high", "low", "close", "volume"]

  /** Missing required columns are created, then the required ones are moved to the front. */
  function WithRequired(columns: seq<string>): (r: seq<string>)
    ensures |r| >= |Required| && r[..|Required|] == Required
    ensures forall c :: c in r <==> c in Required || c in columns
  {
    Required + Filter(columns, c => c !in Required)
  }

  /** The new name of one column: `f"{prefix}_{c}"`, except for the timestamp or without a prefix. */
  function PrefixName(c: string, prefix: Option<string>): string
  {
    if prefix.None? || prefix.value == [] || c == "timestamp" then c else prefix.value + "_" + c
  }

  /** `df.rename(columns={c: f"{prefix}_{c}" for c in df.columns if c != "timestamp"})` under `if prefix:`. */
  function Prefixed(columns: seq<string>, prefix: Option<string>): (r: seq<string>)
    ensures |r| == |columns|
    ensures forall i :: 0 <= i < |columns| ==> r[i] == PrefixName(columns[i], prefix)
  {
    if columns == [] then [] else [PrefixName(columns[0], prefix)] + Prefixed(columns[1..], prefix)
  }

  /** The timestamp keeps its name, and so does every column when the prefix is absent or empty. */
  lemma PrefixKeeps(columns: seq<string>, prefix: Option<string>)
    ensures forall i :: 0 <= i < |columns| && columns[i] == "timestamp" ==> Prefixed(columns, prefix)[i] == "timestamp"
    ensures prefix.None? || prefix == Some([]) ==> Prefixed(columns, prefix) == columns
    ensures forall i :: 0 <= i < |columns| && columns[i] != "timestamp" && prefix.Some? && prefix.value != [] ==>
      Prefixed(columns, prefix)[i] == prefix.value + "_" + columns[i]
  {
  }

  /** The column list of the cleaned frame; every column has a single name, required ones first. */
  function CleanColumns(columns: seq<string>, prefix: Option<string>): seq<string>
  {
    Prefixed(WithRequired(DedupColumns(Normalize(columns))), prefix)
  }

  lemma CleanColumnsShape(columns: seq<string>)
    ensures var r := CleanColumns(columns, None);
      r[..6] == Required
      && forall c :: c in columns ==> Lower(Vendor(c)) in r
  {
    var n := Normalize(columns);
    forall c | c in columns ensures Lower(Vendor(c)) in n {
      var i :| 0 <= i < |columns| && columns[i] == c;
      assert n[i] == Lower(Vendor(c));
    }
    var w := WithRequired(DedupColumns(n));
    assert CleanColumns(columns, None) == w;
  }

  // ---------------------------------------------------------------- rows

  type Cell = Option<real>

  /** A parsed input row: the timestamp and the cells by normalised column name. */
  datatype RawRow = RawRow(stamp: Option<int>, values: map<string, Cell>)

  /** A row once its timestamp is known: the five OHLCV cells in column order. */
  datatype Row = Row(stamp: int, open: Cell, high: Cell, low: Cell, close: Cell, volume: Cell)

  /**
   * The raw frame: the column names as read, and the rows, whose cells are
   * keyed by normalised name (the merged cell where two columns normalise
   * to one name).
   */
  datatype RawFrame = RawFrame(columns: seq<string>, rows: seq<RawRow>)

  /** A present column reads the row's cell (NaN when it has none); an absent one is created as 0. */
  function CellOf(columns: seq<string>, r: RawRow, c: string): Cell
  {
    if c in columns then (if c in r.values then r.values[c] else None) else Some(0.0)
  }

  /** The five OHLCV cells of a raw row, once its timestamp is known. */
  function ToRow(columns: seq<string>, y: RawRow, stamp: int): Row
  {
    Row(stamp, CellOf(columns, y, "open"), CellOf(columns, y, "high"),
        CellOf(columns, y, "low"), CellOf(columns, y, "close"), CellOf(columns, y, "volume"))
  }

  function RawStamps(rows: seq<RawRow>): set<int> { set y | y in rows && y.stamp.Some? :: y.stamp.value }

  /** `dropna(subset=["timestamp"])`, keeping the five OHLCV cells of the remaining rows. */
  function DropMissing(columns: seq<string>, rows: seq<RawRow>): (r: seq<Row>)
    ensures |r| <= |rows|
    ensures Stamps(r) == RawStamps(rows)
  {
    if rows == [] then []
    else
      var y := rows[0];
      var rest := DropMissing(columns, rows[1..]);
      RawStampsCons(rows);
      if y.stamp.None? then rest
      else
        StampsCons(ToRow(columns, y, y.stamp.value), rest);
        [ToRow(columns, y, y.stamp.value)] + rest
  }

  lemma RawStampsCons(rows: seq<RawRow>)
    requires rows != []
    ensures RawStamps(rows) == (if rows[0].stamp.Some? then {rows[0].stamp.value} else {}) + RawStamps(rows[1..])
  {
    assert forall z :: z in rows <==> z == rows[0] || z in rows[1..];
  }

  function StampKey(r: Row): real { r.stamp as real }

  function Stamps(rows: seq<Row>): set<int> { set r | r in rows :: r.stamp }

  lemma StampsCons(x: Row, rest: seq<Row>)
    ensures Stamps([x] + rest) == {x.stamp} + Stamps(rest)
  {
    assert forall z :: z in [x] + rest <==> z == x || z in rest;
  }

  lemma StampsSub(a: seq<Row>, b: seq<Row>)
    requires forall x :: x in a ==> x in b
    ensures Stamps(a) <= Stamps(b)
  {
  }

  predicate SortedStamps(rows: seq<Row>)
  {
    forall i, j :: 0 <= i < j < |rows| ==> rows[i].stamp <= rows[j].stamp
  }

  lemma SortedStampsOf(rows: seq<Row>)
    requires SortedBy(rows, StampKey)
    ensures SortedStamps(rows)
  {
    forall i, j | 0 <= i < j < |rows| ensures rows[i].stamp <= rows[j].stamp {
      assert StampKey(rows[i]) <= StampKey(rows[j]);
    }
  }

  /** The first row of a sorted sequence has the least timestamp. */
  lemma SortedHead(rows: seq<Row>, x: Row)
    requires SortedStamps(rows) && x in rows
    ensures rows[0].stamp <= x.stamp
  {
  }

  lemma SortedTail(rows: seq<Row>)
    requires rows != [] && SortedStamps(rows)
    ensures SortedStamps(rows[1..])
  {
    forall i, j | 0 <= i < j < |rows[1..]| ensures rows[1..][i].stamp <= rows[1..][j].stamp {
      assert rows[1..][i] == rows[i + 1] && rows[1..][j] == rows[j + 1];
    }
  }

  lemma IncreasingTail(rows: seq<Row>)
    requires rows != [] && StrictlyIncreasing(rows)
    ensures StrictlyIncreasing(rows[1..]) && forall x :: x in rows[1..] ==> rows[0].stamp < x.stamp
  {
    forall i, j | 0 <= i < j < |rows[1..]| ensures rows[1..][i].stamp < rows[1..][j].stamp {
      assert rows[1..][i] == rows[i + 1] && rows[1..][j] == rows[j + 1];
    }
    forall x | x in rows[1..] ensures rows[0].stamp < x.stamp {
      var k :| 0 <= k < |rows[1..]| && rows[1..][k] == x;
      assert rows[k + 1] == x;
    }
  }

  /** A row below every timestamp of an increasing sequence can go in front of it. */
  lemma IncreasingCons(x: Row, d: seq<Row>)
    requires StrictlyIncreasing(d) && forall y :: y in d ==> x.stamp < y.stamp
    ensures StrictlyIncreasing([x] + d)
  {
    var r := [x] + d;
    forall i, j | 0 <= i < j < |r| ensures r[i].stamp < r[j].stamp {
      if i == 0 {
        assert r[j] == d[j - 1];
      } else {
        assert r[i] == d[i - 1] && r[j] == d[j - 1];
      }
    }
  }

  /** `drop_duplicates("timestamp", keep="last")`: a row stays iff no later row has its timestamp. */
  function DropDupLast(rows: seq<Row>): (r: seq<Row>)
    ensures forall x :: x in r ==> x in rows
    ensures Stamps(r) == Stamps(rows)
  {
    if rows == [] then []
    else
      var rest := DropDupLast(rows[1..]);
      assert forall z :: z in rows ==> z == rows[0] || z in rows[1..];
      StampsCons(rows[0], rows[1..]);
      assert rows == [rows[0]] + rows[1..];
      if rows[0].stamp in Stamps(rows[1..]) then rest
      else
        StampsCons(rows[0], rest);
        [rows[0]] + rest
  }

  predicate StrictlyIncreasing(rows: seq<Row>)
  {
    forall i, j :: 0 <= i < j < |rows| ==> rows[i].stamp < rows[j].stamp
  }

  /** After sorting, keeping the last of each timestamp leaves strictly increasing timestamps. */
  lemma {:induction false} DropDupSorted(rows: seq<Row>)
    requires SortedStamps(rows)
    ensures StrictlyIncreasing(DropDupLast(rows))
  {
    if rows != [] {
      var rest := rows[1..];
      SortedTail(rows);
      DropDupSorted(rest);
      var d := DropDupLast(rest);
      if rows[0].stamp !in Stamps(rest) {
        forall x | x in d ensures rows[0].stamp < x.stamp {
          assert x in rest;
          SortedHead(rows, x);
          assert x.stamp in Stamps(rest);
        }
        IncreasingCons(rows[0], d);
      }
    }
  }

  /** The last row with a given timestamp is kept: later duplicates win over earlier ones. */
  lemma {:induction false} DropDupKeepsLast(rows: seq<Row>, i: nat)
    requires i < |rows|
    requires forall j :: i < j < |rows| ==> rows[j].stamp != rows[i].stamp
    ensures rows[i] in DropDupLast(rows)
  {
    if i == 0 {
      assert rows[0].stamp !in Stamps(rows[1..]) by {
        forall x | x in rows[1..] ensures x.stamp != rows[0].stamp {
          var k :| 0 <= k < |rows[1..]| && rows[1..][k] == x;
          assert rows[k + 1] == x;
        }
      }
    } else {
      forall j | i - 1 < j < |rows[1..]| ensures rows[1..][j].stamp != rows[1..][i - 1].stamp {
        assert rows[1..][j] == rows[j + 1];
      }
      DropDupKeepsLast(rows[1..], i - 1);
    }
  }

  // ------------------------------------------------------------- gap filling

  /** `ffill()`: a missing cell takes the last present value before it. */
  function FFill(col: seq<Cell>, last: Cell): (r: seq<Cell>)
    ensures |r| == |col|
    ensures forall i :: 0 <= i < |col| && col[i].Some? ==> r[i] == col[i]
    ensures last.Some? ==> forall i :: 0 <= i < |r| ==> r[i].Some?
  {
    if col == [] then []
    else
      var v := if col[0].Some? then col[0] else last;
      [v] + FFill(col[1..], v)
  }

  /** `bfill()`: a missing cell takes the next present value after it. */
  function BFill(col: seq<Cell>): (r: seq<Cell>)
    ensures |r| == |col|
    ensures forall i :: 0 <= i < |col| && col[i].Some? ==> r[i] == col[i]
  {
    if col == [] then []
    else
      var rest := BFill(col[1..]);
      [if col[0].Some? then col[0] else if rest != [] then rest[0] else None] + rest
  }

  /** `ffill().bfill()` on one column. */
  function FillGaps(col: seq<Cell>): (r: seq<Cell>)
    ensures |r| == |col|
  {
    BFill(FFill(col, None))
  }

  /** After the first present value, forward filling leaves no gap. */
  lemma {:induction false} FFillAfter(col: seq<Cell>, last: Cell, k: nat)
    requires k < |col| && col[k].Some?
    ensures forall i :: k <= i < |col| ==> FFill(col, last)[i].Some?
  {
    if k > 0 {
      var v := if col[0].Some? then col[0] else last;
      FFillAfter(col[1..], v, k - 1);
      forall i | k <= i < |col| ensures FFill(col, last)[i].Some? {
        assert FFill(col, last)[i] == FFill(col[1..], v)[i - 1];
      }
    }
  }

  /** Backward filling fills everything before a present value. */
  lemma {:induction false} BFillBefore(col: seq<Cell>, k: nat)
    requires k < |col| && col[k].Some?
    ensures forall i :: 0 <= i <= k ==> BFill(col)[i].Some?
  {
    if k > 0 {
      BFillBefore(col[1..], k - 1);
      forall i | 0 <= i <= k ensures BFill(col)[i].Some? {
        if i > 0 {
          assert BFill(col)[i] == BFill(col[1..])[i - 1];
        }
      }
    }
  }

  /** A column with at least one value has no gap after `ffill().bfill()`; values already present stay. */
  lemma FillGapsComplete(col: seq<Cell>, k: nat)
    requires k < |col| && col[k].Some?
    ensures forall i :: 0 <= i < |col| ==> FillGaps(col)[i].Some?
    ensures forall i :: 0 <= i < |col| && col[i].Some? ==> FillGaps(col)[i] == col[i]
  {
    var f := FFill(col, None);
    FFillAfter(col, None, k);
    BFillBefore(f, k);
    forall i | 0 <= i < |col| ensures BFill(f)[i].Some? {
      if i > k {
        assert f[i].Some?;
      }
    }
  }

  function Column(rows: seq<Row>, field: Row -> Cell): (r: seq<Cell>)
    ensures |r| == |rows|
    ensures forall i :: 0 <= i < |rows| ==> r[i] == field(rows[i])
  {
    seq(|rows|, i requires 0 <= i < |rows| => field(rows[i]))
  }

  /** `fillna(0)` on the volume. */
  function ZeroFill(c: Cell): Cell { if c.Some? then c else Some(0.0) }

  /** Open, high, low and close are filled forward then backward, a missing volume becomes 0. */
  function FillRows(rows: seq<Row>): (r: seq<Row>)
    ensures |r| == |rows|
    ensures forall i :: 0 <= i < |rows| ==> r[i].stamp == rows[i].stamp && r[i].volume.Some?
  {
    var o := FillGaps(Column(rows, (x: Row) => x.open));
    var h := FillGaps(Column(rows, (x: Row) => x.high));
    var l := FillGaps(Column(rows, (x: Row) => x.low));
    var c := FillGaps(Column(rows, (x: Row) => x.close));
    seq(|rows|, i requires 0 <= i < |rows| => Row(rows[i].stamp, o[i], h[i], l[i], c[i], ZeroFill(rows[i].volume)))
  }

  // ------------------------------------------------------ zero and negative rows

  predicate IsZero(c: Cell) { c == Some(0.0) }

  /** All five OHLCV cells equal 0 (NaN compares unequal). */
  predicate AllZero(r: Row)
  {
    IsZero(r.open) && IsZero(r.high) && IsZero(r.low) && IsZero(r.close) && IsZero(r.volume)
  }

  /** `df[col] >= 0` for one cell: false for NaN. */
  predicate NonNeg(c: Cell) { c.Some? && c.value >= 0.0 }

  /** The k-th of the columns open, high, low, close, volume. */
  function CellAt(r: Row, k: nat): Cell
  {
    if k == 0 then r.open else if k == 1 then r.high else if k == 2 then r.low
    else if k == 3 then r.close else r.volume
  }

  predicate NonNegUpTo(r: Row, k: nat)
  {
    forall j :: 0 <= j < k ==> NonNeg(CellAt(r, j))
  }

  /** Rows kept by the first `k` per-column filters. */
  function KeptUpTo(rows: seq<Row>, k: nat): (r: seq<Row>)
    ensures forall x :: x in r <==> x in rows && NonNegUpTo(x, k)
  {
    Filter(rows, (x: Row) => NonNegUpTo(x, k))
  }

  /** Applying the filter of column `k` to the rows kept so far keeps the rows of `k + 1` filters. */
  lemma {:induction false} KeptStep(rows: seq<Row>, k: nat)
    ensures Filter(KeptUpTo(rows, k), (x: Row) => NonNeg(CellAt(x, k))) == KeptUpTo(rows, k + 1)
  {
    if rows != [] {
      KeptStep(rows[1..], k);
      var x := rows[0];
      assert NonNegUpTo(x, k + 1) <==> NonNegUpTo(x, k) && NonNeg(CellAt(x, k)) by {
        if NonNegUpTo(x, k) && NonNeg(CellAt(x, k)) {
          forall j | 0 <= j < k + 1 ensures NonNeg(CellAt(x, j)) {
          }
        }
      }
      var pre := if NonNegUpTo(x, k) then [x] else [];
      assert KeptUpTo(rows, k) == pre + KeptUpTo(rows[1..], k);
      FilterConcat(pre, KeptUpTo(rows[1..], k), (x: Row) => NonNeg(CellAt(x, k)));
    }
  }

  /** The loop that drops rows with a negative (or NaN) value, one column at a time. */
  method DropNegative(rows: seq<Row>) returns (kept: seq<Row>)
    ensures kept == KeptUpTo(rows, 5)
  {
    kept := rows;
    assert kept == KeptUpTo(rows, 0) by { FilterAll(rows, (x: Row) => NonNegUpTo(x, 0)); }
    var k := 0;
    while k < 5
      invariant 0 <= k <= 5
      invariant kept == KeptUpTo(rows, k)
    {
      KeptStep(rows, k);
      kept := Filter(kept, (x: Row) => NonNeg(CellAt(x, k)));
      k := k + 1;
    }
  }

  // ---------------------------------------------------------------- _clean_df

  datatype CleanFrame = CleanFrame(columns: seq<string>, rows: seq<Row>)

  /** `Raises` where the resampling step meets an index that is not made of timestamps. */
  datatype CleanResult = Raises | Cleaned(frame: CleanFrame)

  /** The rows after every rule up to the zero-row filter. */
  function Prepared(columns: seq<string>, rows: seq<RawRow>): seq<Row>
  {
    var present := DropMissing(columns, rows);
    var sorted := SortBy(present, StampKey);
    var unique := DropDupLast(sorted);
    var filled := FillRows(unique);
    Filter(filled, (x: Row) => !AllZero(x))
  }

  /** The result of `_clean_df` with the OHLCV rules. */
  function CleanedFrame(frame: RawFrame, prefix: Option<string>): CleanResult
  {
    var columns := DedupColumns(Normalize(frame.columns));
    if "timestamp" !in columns then Raises
    else
      var positive := KeptUpTo(Prepared(columns, frame.rows), 5);
      Cleaned(CleanFrame(CleanColumns(frame.columns, prefix), SortBy(DropDupLast(positive), StampKey)))
  }

  /**
   * `_clean_df(df, logger, ohlcv=True, prefix)` as a sequence of
   * reassignments of the frame: the columns are normalised once, and the
   * rows read by their normalised names.
   */
  method CleanDf(frame: RawFrame, prefix: Option<string>) returns (r: CleanResult)
    ensures r == CleanedFrame(frame, prefix)
  {
    var columns := DedupColumns(Normalize(frame.columns));
    if "timestamp" !in columns {
      return Raises;
    }
    var rows := DropMissing(columns, frame.rows);
    rows := SortBy(rows, StampKey);
    rows := DropDupLast(rows);
    rows := FillRows(rows);
    rows := Filter(rows, (x: Row) => !AllZero(x));
    rows := DropNegative(rows);
    rows := DropDupLast(rows);
    rows := SortBy(rows, StampKey);
    r := Cleaned(CleanFrame(CleanColumns(frame.columns, prefix), rows));
  }

  lemma {:induction false} SubseqIncreasing(rows: seq<Row>, keep: Row -> bool)
    requires StrictlyIncreasing(rows)
    ensures StrictlyIncreasing(Filter(rows, keep))
  {
    if rows != [] {
      IncreasingTail(rows);
      SubseqIncreasing(rows[1..], keep);
      if keep(rows[0]) {
        IncreasingCons(rows[0], Filter(rows[1..], keep));
      }
    }
  }

  lemma StrictIsChained(rows: seq<Row>)
    requires StrictlyIncreasing(rows)
    ensures ChainedBy(rows, StampKey)
  {
  }

  lemma {:induction false} DropDupIncreasing(rows: seq<Row>)
    requires StrictlyIncreasing(rows)
    ensures DropDupLast(rows) == rows
  {
    if rows != [] {
      var rest := rows[1..];
      IncreasingTail(rows);
      DropDupIncreasing(rest);
      assert rows[0].stamp !in Stamps(rest);
      assert rows == [rows[0]] + rest;
    }
  }

  /** The rows before the last two steps already have unique, increasing timestamps. */
  lemma PreparedIncreasing(columns: seq<string>, rows: seq<RawRow>)
    ensures StrictlyIncreasing(KeptUpTo(Prepared(columns, rows), 5))
  {
    var present := DropMissing(columns, rows);
    var sorted := SortBy(present, StampKey);
    SortedStampsOf(sorted);
    DropDupSorted(sorted);
    var unique := DropDupLast(sorted);
    var filled := FillRows(unique);
    assert StrictlyIncreasing(filled) by {
      forall i, j | 0 <= i < j < |filled| ensures filled[i].stamp < filled[j].stamp {
        assert filled[i].stamp == unique[i].stamp && filled[j].stamp == unique[j].stamp;
      }
    }
    var nz := Filter(filled, (x: Row) => !AllZero(x));
    SubseqIncreasing(filled, (x: Row) => !AllZero(x));
    SubseqIncreasing(nz, (x: Row) => NonNegUpTo(x, 5));
  }

  /** The second `drop_duplicates` and `sort_values` of `_clean_df` change nothing. */
  lemma FinalStepsNoOp(frame: RawFrame, prefix: Option<string>)
    requires "timestamp" in DedupColumns(Normalize(frame.columns))
    ensures CleanedFrame(frame, prefix).frame.rows == KeptUpTo(Prepared(DedupColumns(Normalize(frame.columns)), frame.rows), 5)
  {
    var positive := KeptUpTo(Prepared(DedupColumns(Normalize(frame.columns)), frame.rows), 5);
    PreparedIncreasing(DedupColumns(Normalize(frame.columns)), frame.rows);
    DropDupIncreasing(positive);
    StrictIsChained(positive);
    SortFixed(positive, StampKey);
  }

  /**
   * The cleaned rows have unique, increasing timestamps taken from input
   * rows, and no row is all zero or has a negative or missing OHLCV value.
   */
  lemma CleanedRows(frame: RawFrame, prefix: Option<string>)
    requires CleanedFrame(frame, prefix).Cleaned?
    ensures var out := CleanedFrame(frame, prefix).frame.rows;
      && StrictlyIncreasing(out)
      && (forall x :: x in out ==> !AllZero(x) && NonNegUpTo(x, 5))
      && Stamps(out) <= RawStamps(frame.rows)
  {
    var columns := DedupColumns(Normalize(frame.columns));
    FinalStepsNoOp(frame, prefix);
    PreparedIncreasing(columns, frame.rows);
    PreparedStamps(columns, frame.rows);
  }

  /** Every timestamp left after the row rules comes from an input row. */
  lemma PreparedStamps(columns: seq<string>, rows: seq<RawRow>)
    ensures Stamps(KeptUpTo(Prepared(columns, rows), 5)) <= RawStamps(rows)
  {
    var present := DropMissing(columns, rows);
    var sorted := SortBy(present, StampKey);
    var unique := DropDupLast(sorted);
    var filled := FillRows(unique);
    var nz := Filter(filled, (x: Row) => !AllZero(x));
    StampsSub(KeptUpTo(nz, 5), nz);
    StampsSub(nz, filled);
    FillStamps(unique);
    SortStamps(present);
  }

  lemma FillStamps(rows: seq<Row>)
    ensures Stamps(FillRows(rows)) <= Stamps(rows)
  {
    var filled := FillRows(rows);
    forall t | t in Stamps(filled) ensures t in Stamps(rows) {
      var x :| x in filled && x.stamp == t;
      var i :| 0 <= i < |filled| && filled[i] == x;
      assert rows[i] in rows;
    }
  }

  lemma SortStamps(rows: seq<Row>)
    ensures Stamps(SortBy(rows, StampKey)) == Stamps(rows)
  {
    var sorted := SortBy(rows, StampKey);
    forall x ensures x in sorted <==> x in rows {
      assert x in sorted <==> x in multiset(sorted);
      assert x in rows <==> x in multiset(rows);
    }
  }

  /**
   * Without a timestamp column (none normalises to that name) the column is
   * created as 0, and the resampling step raises on that integer index.
   */
  lemma NoTimestampRaises(frame: RawFrame, prefix: Option<string>)
    requires "timestamp" !in Normalize(frame.columns)
    ensures CleanedFrame(frame, prefix) == Raises
  {
  }

  // -------------------------------------------------- clean_symbol and main

  /** A raw file found under the input directory. */
  datatype RawFile = RawFile(stem: string, suffix: string, isFile: bool)

  function SymbolOfStem(stem: string): string { BeforeFirst(stem, '_') }

  /** `f"{symbol}_clean.parquet"`. */
  function OutputName(stem: string): (r: string)
    ensures r == SymbolOfStem(stem) + "_clean.parquet"
    ensures '_' !in SymbolOfStem(stem)
  {
    SymbolOfStem(stem) + "_clean.parquet"
  }

  datatype SymbolOutcome = NoFiles | NoData(symbol: string) | Failed | Written(name: string, frame: CleanFrame)

  /**
   * `clean_symbol`: nothing for an empty file list; otherwise the files
   * are read and concatenated (`loaded` is None when none could be read)
   * and cleaned, and the output is named after the first file.
   */
  function CleanSymbol(files: seq<RawFile>, loaded: Option<RawFrame>): (r: SymbolOutcome)
    ensures files == [] <==> r == NoFiles
    ensures r.Written? ==> r.name == OutputName(files[0].stem) && r.frame.rows != []
  {
    if files == [] then NoFiles
    else
      var symbol := SymbolOfStem(files[0].stem);
      if loaded.None? then NoData(symbol)
      else match CleanedFrame(loaded.value, None)
        case Raises => Failed
        case Cleaned(f) => if f.rows == [] then NoData(symbol) else Written(OutputName(files[0].stem), f)
  }

  predicate IsRawExt(suffix: string)
  {
    var s := Lower(suffix);
    s == ".csv" || s == ".xlsx" || s == ".xls" || s == ".parquet"
  }

  predicate Accepted(f: RawFile) { f.isFile && IsRawExt(f.suffix) }

  function FileMap(files: seq<RawFile>): map<string, seq<RawFile>>
  {
    if files == [] then map[]
    else
      var m := FileMap(files[..|files| - 1]);
      var f := files[|files| - 1];
      if !Accepted(f) then m
      else
        var sym := SymbolOfStem(f.stem);
        m[sym := (if sym in m then m[sym] else []) + [f]]
  }

  /** The grouping loop of `main` (`file_map.setdefault(symbol, []).append(file)`). */
  method GroupFiles(files: seq<RawFile>) returns (m: map<string, seq<RawFile>>)
    ensures m == FileMap(files)
  {
    m := map[];
    var i := 0;
    while i < |files|
      invariant 0 <= i <= |files|
      invariant m == FileMap(files[..i])
    {
      var f := files[i];
      assert files[..i + 1][..i] == files[..i];
      if f.isFile && IsRawExt(f.suffix) {
        var sym := SymbolOfStem(f.stem);
        var group := if sym in m then m[sym] else [];
        m := m[sym := group + [f]];
      }
      i := i + 1;
    }
    assert files[..i] == files;
  }

  predicate InGroup(f: RawFile, sym: string) { Accepted(f) && SymbolOfStem(f.stem) == sym }

  /** A symbol has a group iff some accepted file carries it. */
  lemma {:induction false} FileMapKeys(files: seq<RawFile>, sym: string)
    ensures sym in FileMap(files) <==> exists f :: f in files && InGroup(f, sym)
  {
    if files != [] {
      var init := files[..|files| - 1];
      var f := files[|files| - 1];
      FileMapKeys(init, sym);
      if InGroup(f, sym) {
        assert f in files;
      } else {
        assert sym in FileMap(files) <==> sym in FileMap(init);
        if exists g :: g in files && InGroup(g, sym) {
          var g :| g in files && InGroup(g, sym);
          assert g in init;
        }
      }
    }
  }

  /** Each group lists exactly the accepted files of its symbol, in the order they were found. */
  lemma {:induction false} FileMapGroups(files: seq<RawFile>, sym: string)
    requires sym in FileMap(files)
    ensures FileMap(files)[sym] == Filter(files, (f: RawFile) => InGroup(f, sym))
  {
    var init := files[..|files| - 1];
    var f := files[|files| - 1];
    assert files == init + [f];
    FilterConcat(init, [f], (g: RawFile) => InGroup(g, sym));
    if sym in FileMap(init) {
      FileMapGroups(init, sym);
    } else {
      FileMapKeys(init, sym);
      FilterNone(init, (g: RawFile) => InGroup(g, sym));
    }
  }

  lemma {:induction false} FilterNone<T(!new)>(s: seq<T>, keep: T -> bool)
    requires forall x :: x in s ==> !keep(x)
    ensures Filter(s, keep) == []
  {
    if s != [] {
      FilterNone(s[1..], keep);
    }
  }
}
