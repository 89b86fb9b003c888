/**
 * Forward-window labelling of the ML pipeline (`make_labels`): each row is
 * labelled 1, -1 or 0 from the highs and lows of the next `horizon` rows,
 * and the last `horizon` rows are labelled 0.
 */
module Labeling {
  import opened Common

  datatype Candle = Candle(high: real, low: real, close: real)

  const DefaultHorizon: nat := 30
  const DefaultThresh: real := 0.003

  /** Largest high in rows [lo, hi). */
  function MaxHigh(rows: seq<Candle>, lo: nat, hi: nat): real
    requires lo < hi <= |rows|
    decreases hi - lo
  {
    if lo + 1 == hi then rows[lo].high
    else
      var m := MaxHigh(rows, lo + 1, hi);
      if rows[lo].high >= m then rows[lo].high else m
  }

  /** Smallest low in rows [lo, hi). */
  function MinLow(rows: seq<Candle>, lo: nat, hi: nat): real
    requires lo < hi <= |rows|
    decreases hi - lo
  {
    if lo + 1 == hi then rows[lo].low
    else
      var m := MinLow(rows, lo + 1, hi);
      if rows[lo].low <= m then rows[lo].low else m
  }

  lemma {:induction false} MaxHighReaches(rows: seq<Candle>, lo: nat, hi: nat, x: real)
    requires lo < hi <= |rows|
    ensures MaxHigh(rows, lo, hi) >= x <==> exists j :: lo <= j < hi && rows[j].high >= x
    decreases hi - lo
  {
    if lo + 1 < hi { MaxHighReaches(rows, lo + 1, hi, x); }
  }

  lemma {:induction false} MinLowReaches(rows: seq<Candle>, lo: nat, hi: nat, x: real)
    requires lo < hi <= |rows|
    ensures MinLow(rows, lo, hi) <= x <==> exists j :: lo <= j < hi && rows[j].low <= x
    decreases hi - lo
  {
    if lo + 1 < hi { MinLowReaches(rows, lo + 1, hi, x); }
  }

  /** The label of row `i`, whose window is rows i+1 .. i+horizon. */
  function LabelAt(rows: seq<Candle>, horizon: nat, thresh: real, i: nat): int
    requires horizon > 0 && i + horizon < |rows|
  {
    var entry := rows[i].close;
    if MaxHigh(rows, i + 1, i + 1 + horizon) >= entry * (1.0 + thresh) then 1
    else if MinLow(rows, i + 1, i + 1 + horizon) <= entry * (1.0 - thresh) then -1
    else 0
  }

  /**
   * The labels, or None where the source raises: a non-empty frame shorter
   * than the horizon yields fewer labels than rows (the column assignment
   * fails), and a zero horizon on a non-empty frame takes the maximum of an
   * empty window. An empty frame never fails: it receives `horizon` zero
   * labels, the assignment growing the frame to that many rows.
   */
  predicate LabelsFail(n: nat, horizon: nat) { (0 < n < horizon) || (horizon == 0 && n > 0) }

  method MakeLabels(rows: seq<Candle>, horizon: nat, thresh: real) returns (r: Option<seq<int>>)
    ensures r.None? <==> LabelsFail(|rows|, horizon)
    ensures r.Some? && rows != [] ==> |r.value| == |rows|
    ensures rows == [] ==> r.Some? && |r.value| == horizon
    ensures r.Some? ==> forall i :: 0 <= i < |rows| - horizon ==> r.value[i] == LabelAt(rows, horizon, thresh, i)
    ensures r.Some? ==> forall i :: 0 <= i < |r.value| && |rows| - horizon <= i ==> r.value[i] == 0
  {
    var n := |rows|;
    if horizon == 0 && n > 0 {
      return None;
    }
    var labels: seq<int> := [];
    var i := 0;
    while i < n - horizon
      invariant n >= horizon ==> 0 <= i <= n - horizon
      invariant n < horizon ==> i == 0
      invariant |labels| == i
      invariant forall k :: 0 <= k < i ==> labels[k] == LabelAt(rows, horizon, thresh, k)
    {
      var entry := rows[i].close;
      var maxHigh := MaxHigh(rows, i + 1, i + 1 + horizon);
      var minLow := MinLow(rows, i + 1, i + 1 + horizon);
      if maxHigh >= entry * (1.0 + thresh) {
        labels := labels + [1];
      } else if minLow <= entry * (1.0 - thresh) {
        labels := labels + [-1];
      } else {
        labels := labels + [0];
      }
      i := i + 1;
    }
    var j := 0;
    while j < horizon
      invariant 0 <= j <= horizon
      invariant |labels| == i + j
      invariant forall k :: 0 <= k < i ==> labels[k] == LabelAt(rows, horizon, thresh, k)
      invariant forall k :: i <= k < i + j ==> labels[k] == 0
    {
      labels := labels + [0];
      j := j + 1;
    }
    if |labels| != n && n > 0 {
      return None;
    }
    r := Some(labels);
  }

  /** Label 1 exactly when some high in the window reaches close·(1+thresh). */
  lemma LabelUp(rows: seq<Candle>, horizon: nat, thresh: real, i: nat)
    requires horizon > 0 && i + horizon < |rows|
    ensures LabelAt(rows, horizon, thresh, i) == 1 <==>
      exists j :: i + 1 <= j < i + 1 + horizon && rows[j].high >= rows[i].close * (1.0 + thresh)
  {
    MaxHighReaches(rows, i + 1, i + 1 + horizon, rows[i].close * (1.0 + thresh));
  }

  /** Label -1 exactly when no high reaches the upper level and some low reaches the lower one. */
  lemma LabelDown(rows: seq<Candle>, horizon: nat, thresh: real, i: nat)
    requires horizon > 0 && i + horizon < |rows|
    ensures LabelAt(rows, horizon, thresh, i) == -1 <==>
      (forall j :: i + 1 <= j < i + 1 + horizon ==> rows[j].high < rows[i].close * (1.0 + thresh))
      && exists j :: i + 1 <= j < i + 1 + horizon && rows[j].low <= rows[i].close * (1.0 - thresh)
  {
    MaxHighReaches(rows, i + 1, i + 1 + horizon, rows[i].close * (1.0 + thresh));
    MinLowReaches(rows, i + 1, i + 1 + horizon, rows[i].close * (1.0 - thresh));
  }

  /** The six-row frame of the repository's labelling test: highs, lows, and a close of 100 throughout. */
  function SixRows(): seq<Candle>
  {
    [Candle(100.2, 100.0, 100.0), Candle(100.2, 99.0, 100.0),
     Candle(100.4, 99.8, 100.0), Candle(100.1, 99.9, 100.0),
     Candle(100.1, 99.9, 100.0), Candle(100.1, 99.9, 100.0)]
  }

  /**
   * With horizon 2 and threshold 0.003 the first four rows, those with a
   * full window, are labelled 1, 1, 0, 0. Row 1 is 1 because row 2's high
   * of 100.4 lies within its window.
   */
  lemma SixRowExample()
    ensures forall i :: 0 <= i < 4 ==> LabelAt(SixRows(), 2, 0.003, i) == [1, 1, 0, 0][i]
  {
    var rows := SixRows();
    assert MaxHigh(rows, 1, 3) == 100.4;
    assert MaxHigh(rows, 2, 4) == 100.4;
    assert MaxHigh(rows, 3, 5) == 100.1 && MinLow(rows, 3, 5) == 99.9;
    assert MaxHigh(rows, 4, 6) == 100.1 && MinLow(rows, 4, 6) == 99.9;
  }

  /**
   * The test expects -1 for row 1, but no low in that row's window comes
   * down to 99.7 (its close less 0.3 %), so the down rule cannot fire there
   * whatever the up rule says.
   */
  lemma SixRowTestExpectsDown()
    ensures LabelAt(SixRows(), 2, 0.003, 1) != -1
    ensures forall j :: 2 <= j < 4 ==> SixRows()[j].low > SixRows()[1].close * (1.0 - 0.003)
  {
    SixRowExample();
  }

  /** `make_labels` on the test's frame: the whole label column is [1, 1, 0, 0, 0, 0]. */
  method SixRowLabels() returns (r: Option<seq<int>>)
    ensures r == Some([1, 1, 0, 0, 0, 0])
  {
    r := MakeLabels(SixRows(), 2, 0.003);
    SixRowExample();
    var labels := r.value;
    assert labels[0] == 1 && labels[1] == 1 && labels[2] == 0 && labels[3] == 0;
    assert labels[4] == 0 && labels[5] == 0;
    assert labels == [1, 1, 0, 0, 0, 0];
  }

  /** An empty frame is not an error: with horizon 3 it receives the three zero labels. */
  method EmptyFrameLabels(thresh: real) returns (r: Option<seq<int>>)
    ensures r == Some([0, 0, 0])
  {
    r := MakeLabels([], 3, thresh);
    var labels := r.value;
    assert labels[0] == 0 && labels[1] == 0 && labels[2] == 0;
    assert labels == [0, 0, 0];
  }
}
