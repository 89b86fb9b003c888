/**
 * Chronological train/validation/test partition of the ML pipeline
 * (`_split_dataframe` with ratios 0.7 / 0.15 / 0.15) and the ordering step
 * of `process_file`, which sorts by the detected time column first.
 */
module Split {
  import opened Common
  import Frames

  /** Python slicing `s[a:b]` for non-negative bounds: clamped, and empty when a >= b. */
  function PySlice<T>(s: seq<T>, a: nat, b: nat): (r: seq<T>)
    ensures |r| == if Min(b, |s|) > Min(a, |s|) then Min(b, |s|) - Min(a, |s|) else 0
  {
    var lo := Min(a, |s|);
    var hi := Min(b, |s|);
    if lo < hi then s[lo..hi] else []
  }

  /** `int(n * 0.7)` and `int(n * (0.7 + 0.15))`, computed in exact arithmetic. */
  function RawTrainEnd(n: nat): nat { n * 7 / 10 }
  function RawValEnd(n: nat): nat { n * 85 / 100 }

  /** The clamping of the raw boundaries for n >= 3, n == 2 and n == 1. */
  function Ends(n: nat, rawTrain: nat, rawVal: nat): (nat, nat)
  {
    if n >= 3 then
      var t := Max(rawTrain, 1);
      var v := Max(rawVal, t + 1);
      (t, Min(v, n - 1))
    else (1, 1)
  }

  datatype Parts<T> = Parts(train: seq<T>, val: seq<T>, test: seq<T>)

  /** The partition for given raw boundaries; the input itself three times when empty. */
  function SplitAt<T>(rows: seq<T>, rawTrain: nat, rawVal: nat): Parts<T>
  {
    if |rows| == 0 then Parts(rows, rows, rows)
    else
      var (t, v) := Ends(|rows|, rawTrain, rawVal);
      Parts(PySlice(rows, 0, t), PySlice(rows, t, v), PySlice(rows, v, |rows|))
  }

  /** `_split_dataframe`. */
  function SplitDataFrame<T>(rows: seq<T>): Parts<T>
  {
    SplitAt(rows, RawTrainEnd(|rows|), RawValEnd(|rows|))
  }

  /** Raw boundaries in the form `int(n * ratio)` produces them, rounding included. */
  predicate PlausibleRaw(n: nat, rawTrain: nat, rawVal: nat)
  {
    rawTrain <= rawVal <= n && (n >= 3 ==> rawTrain <= n - 1)
  }

  lemma ExactRawPlausible(n: nat)
    ensures PlausibleRaw(n, RawTrainEnd(n), RawValEnd(n))
  {
  }

  /**
   * The parts are contiguous and concatenate back to the input, for any
   * plausible raw boundaries (so also for the ones floating point produces).
   */
  lemma SplitConcatenates<T>(rows: seq<T>, rawTrain: nat, rawVal: nat)
    requires PlausibleRaw(|rows|, rawTrain, rawVal)
    ensures var p := SplitAt(rows, rawTrain, rawVal);
      |rows| > 0 ==> p.train + p.val + p.test == rows
  {
    var n := |rows|;
    if n > 0 {
      var (t, v) := Ends(n, rawTrain, rawVal);
      assert t <= v <= n;
      var p := SplitAt(rows, rawTrain, rawVal);
      assert p.train == rows[..t] && p.val == rows[t..v] && p.test == rows[v..];
      assert rows[..t] + rows[t..v] + rows[v..] == rows;
    }
  }

  /** Sizes: train and test non-empty for n >= 3 (validation may be empty), 1/0/1 for n = 2, 1/0/0 for n = 1. */
  lemma SplitSizes<T>(rows: seq<T>, rawTrain: nat, rawVal: nat)
    requires PlausibleRaw(|rows|, rawTrain, rawVal)
    ensures var p := SplitAt(rows, rawTrain, rawVal);
      && (|rows| == 0 ==> p == Parts([], [], []))
      && (|rows| >= 3 ==> |p.train| >= 1 && |p.test| >= 1)
      && (|rows| == 2 ==> |p.train| == 1 && |p.val| == 0 && |p.test| == 1)
      && (|rows| == 1 ==> |p.train| == 1 && |p.val| == 0 && |p.test| == 0)
  {
  }

  /** Validation is empty at n = 3 with the exact ratios. */
  lemma ThreeRowsNoValidation<T>(rows: seq<T>)
    requires |rows| == 3
    ensures var p := SplitDataFrame(rows); |p.train| == 2 && p.val == [] && |p.test| == 1
  {
  }

  /** For larger frames the boundaries are the raw ones unless a clamp applies. */
  lemma SplitUsesRatios<T>(rows: seq<T>)
    requires |rows| >= 10
    ensures var p := SplitDataFrame(rows);
      |p.train| == |rows| * 7 / 10 && |p.train| + |p.val| == |rows| * 85 / 100
  {
    var n := |rows|;
    assert n * 7 / 10 >= 1;
    assert n * 85 / 100 >= n * 7 / 10 + 1;
    assert n * 85 / 100 <= n - 1;
  }

  // --------------------------------------------------------- process_file

  /** The ordering step of `process_file`: sort by the time column when one is detected. */
  function OrderForSplit<T>(rows: seq<T>, columns: seq<string>, time: T -> real): seq<T>
  {
    if Frames.DetectTimeColumn(columns).Some? then SortBy(rows, time) else rows
  }

  lemma SortedSlicesOrdered<T>(s: seq<T>, key: T -> real, a: nat, b: nat, c: nat, d: nat)
    requires SortedBy(s, key) && a <= b <= c <= d <= |s|
    ensures forall i, j :: 0 <= i < b - a && 0 <= j < d - c ==> key(s[a..b][i]) <= key(s[c..d][j])
  {
    forall i, j | 0 <= i < b - a && 0 <= j < d - c ensures key(s[a..b][i]) <= key(s[c..d][j]) {
      assert s[a..b][i] == s[a + i] && s[c..d][j] == s[c + j];
    }
  }

  /** With a time column, every training row precedes every validation row, which precedes every test row. */
  lemma PartsChronological<T>(rows: seq<T>, columns: seq<string>, time: T -> real)
    requires Frames.DetectTimeColumn(columns).Some?
    ensures var p := SplitDataFrame(OrderForSplit(rows, columns, time));
      && (forall i, j :: 0 <= i < |p.train| && 0 <= j < |p.val| ==> time(p.train[i]) <= time(p.val[j]))
      && (forall i, j :: 0 <= i < |p.val| && 0 <= j < |p.test| ==> time(p.val[i]) <= time(p.test[j]))
      && (forall i, j :: 0 <= i < |p.train| && 0 <= j < |p.test| ==> time(p.train[i]) <= time(p.test[j]))
  {
    assert OrderForSplit(rows, columns, time) == SortBy(rows, time);
    SortedSplitOrdered(SortBy(rows, time), time);
  }

  /** Splitting a frame sorted by `key` gives parts whose keys follow one another. */
  lemma SortedSplitOrdered<T>(s: seq<T>, key: T -> real)
    requires SortedBy(s, key)
    ensures var p := SplitDataFrame(s);
      && (forall i, j :: 0 <= i < |p.train| && 0 <= j < |p.val| ==> key(p.train[i]) <= key(p.val[j]))
      && (forall i, j :: 0 <= i < |p.val| && 0 <= j < |p.test| ==> key(p.val[i]) <= key(p.test[j]))
      && (forall i, j :: 0 <= i < |p.train| && 0 <= j < |p.test| ==> key(p.train[i]) <= key(p.test[j]))
  {
    var n := |s|;
    if n > 0 {
      var (t, v) := Ends(n, RawTrainEnd(n), RawValEnd(n));
      var p := SplitDataFrame(s);
      assert p.train == s[0..t] && p.val == s[t..v] && p.test == s[v..n];
      SortedSlicesOrdered(s, key, 0, t, t, v);
      SortedSlicesOrdered(s, key, t, v, v, n);
      SortedSlicesOrdered(s, key, 0, t, v, n);
    }
  }
}
