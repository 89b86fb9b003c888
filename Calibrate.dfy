/**
 * Threshold calibration of the ML pipeline: the label columns of a split,
 * the feature matrix handed to a model, thresholded predictions, and the
 * scan for the probability threshold with the best F1 score. The score
 * itself (and everything sklearn computes) is an abstract function.
 */
module Calibrate {
  import opened Common

  // --------------------------------------------------------------- columns

  /** One column of a split: its name, whether pandas sees it as numeric, its cells (None for NaN). */
  datatype Column = Column(name: string, numeric: bool, cells: seq<Option<real>>)

  predicate IsLabelName(name: string) { Contains(Lower(name), "label") }

  /** `_detect_label_columns`: the names whose lower-cased form contains "label", in column order. */
  function DetectLabelColumns(names: seq<string>): (r: seq<string>)
    ensures |r| <= |names|
    ensures forall c :: c in r <==> c in names && IsLabelName(c)
  {
    Filter(names, IsLabelName)
  }

  function Names(df: seq<Column>): seq<string>
  {
    if df == [] then [] else [df[0].name] + Names(df[1..])
  }

  /** `fillna(0)` on one column. */
  function FillNa(cells: seq<Option<real>>): (r: seq<real>)
    ensures |r| == |cells|
    ensures forall i :: 0 <= i < |cells| ==> r[i] == (if cells[i].Some? then cells[i].value else 0.0)
  {
    if cells == [] then []
    else [if cells[0].Some? then cells[0].value else 0.0] + FillNa(cells[1..])
  }

  /** A feature column after `fillna(0)`. */
  datatype Feature = Feature(name: string, values: seq<real>)

  predicate IsFeature(c: Column, target: string) { c.name != target && c.numeric }

  /** The feature matrix `_prepare_xy` builds: numeric non-label columns in order, NaN filled with 0. */
  function Features(df: seq<Column>, target: string): (r: seq<Feature>)
    ensures |r| <= |df|
  {
    if df == [] then []
    else
      (if IsFeature(df[0], target) then [Feature(df[0].name, FillNa(df[0].cells))] else [])
      + Features(df[1..], target)
  }

  /** The target cells of the first column named `target`; None where `df[label]` raises KeyError. */
  function Target(df: seq<Column>, target: string): (r: Option<seq<Option<real>>>)
    ensures r.None? <==> target !in Names(df)
  {
    if df == [] then None
    else if df[0].name == target then Some(df[0].cells)
    else Target(df[1..], target)
  }

  /**
   * `_prepare_xy`: drops the label column, then every non-numeric column one
   * at a time, then fills missing values.
   */
  method PrepareXY(df: seq<Column>, target: string) returns (r: Option<(seq<Feature>, seq<Option<real>>)>)
    ensures r.None? <==> target !in Names(df)
    ensures r.Some? ==> r.value.0 == Features(df, target) && Some(r.value.1) == Target(df, target)
  {
    var y := Target(df, target);
    if y.None? {
      return None;
    }
    var x: seq<Feature> := [];
    var i := 0;
    while i < |df|
      invariant 0 <= i <= |df|
      invariant Features(df, target) == x + Features(df[i..], target)
    {
      assert df[i..][0] == df[i] && df[i..][1..] == df[i + 1..];
      var col := df[i];
      if col.name != target && col.numeric {
        x := x + [Feature(col.name, FillNa(col.cells))];
      }
      i := i + 1;
    }
    assert df[i..] == [];
    assert x + [] == x;
    r := Some((x, y.value));
  }

  /** The feature matrix holds exactly the numeric non-label columns, none of them with a gap. */
  lemma {:induction false} FeaturesExact(df: seq<Column>, target: string)
    ensures forall f :: f in Features(df, target) ==> f.name != target
    ensures forall f :: f in Features(df, target) ==>
      exists c :: c in df && IsFeature(c, target) && f == Feature(c.name, FillNa(c.cells))
    ensures forall c :: c in df && IsFeature(c, target) ==> Feature(c.name, FillNa(c.cells)) in Features(df, target)
  {
    if df != [] {
      FeaturesExact(df[1..], target);
      assert forall c :: c in df <==> c == df[0] || c in df[1..];
    }
  }

  // ------------------------------------------------------------- thresholds

  /** `[1 if p >= thresh else 0 for p in probs]`. */
  function Predict(probs: seq<real>, thresh: real): (r: seq<int>)
    ensures |r| == |probs|
    ensures forall i :: 0 <= i < |probs| ==> (r[i] == 1 <==> probs[i] >= thresh) && (r[i] == 0 || r[i] == 1)
  {
    if probs == [] then [] else [if probs[0] >= thresh then 1 else 0] + Predict(probs[1..], thresh)
  }

  function Positives(preds: seq<int>): nat
  {
    if preds == [] then 0 else (if preds[0] == 1 then 1 else 0) + Positives(preds[1..])
  }

  /** A higher threshold never predicts more positives. */
  lemma {:induction false} PredictMonotone(probs: seq<real>, lo: real, hi: real)
    requires lo <= hi
    ensures Positives(Predict(probs, hi)) <= Positives(Predict(probs, lo))
  {
    if probs != [] {
      PredictMonotone(probs[1..], lo, hi);
    }
  }

  /** The x-th candidate threshold `x / 100`, for x in 1 .. 99. */
  function Candidate(x: int): real { x as real / 100.0 }

  /** The F1 score obtained at candidate x, for a given score function. */
  function Score(probs: seq<real>, f1: seq<int> -> real, x: int): real
  {
    f1(Predict(probs, Candidate(x)))
  }

  /**
   * `_find_best_threshold`: 0.5 when no candidate scores above 0; otherwise
   * the smallest candidate with the highest score (the comparison is strict,
   * so later ties never replace an earlier winner).
   */
  method FindBestThreshold(probs: seq<real>, f1: seq<int> -> real) returns (r: real)
    ensures (forall x :: 1 <= x <= 99 ==> Score(probs, f1, x) <= 0.0) ==> r == 0.5
    ensures (exists x :: 1 <= x <= 99 && Score(probs, f1, x) > 0.0) ==>
      exists k :: (1 <= k <= 99 && r == Candidate(k) && Score(probs, f1, k) > 0.0
        && (forall x :: 1 <= x <= 99 ==> Score(probs, f1, x) <= Score(probs, f1, k))
        && (forall x :: 1 <= x < k ==> Score(probs, f1, x) < Score(probs, f1, k)))
  {
    var bestThresh := 0.5;
    var bestF1 := 0.0;
    ghost var found := false;
    ghost var bestX := 0;
    var x := 1;
    while x < 100
      invariant 1 <= x <= 100
      invariant !found ==> bestThresh == 0.5 && bestF1 == 0.0
      invariant !found ==> forall y :: 1 <= y < x ==> Score(probs, f1, y) <= 0.0
      invariant found ==> 1 <= bestX < x && bestThresh == Candidate(bestX) && bestF1 == Score(probs, f1, bestX)
      invariant found ==> bestF1 > 0.0
      invariant found ==> forall y :: 1 <= y < x ==> Score(probs, f1, y) <= bestF1
      invariant found ==> forall y :: 1 <= y < bestX ==> Score(probs, f1, y) < bestF1
    {
      var t := x as real / 100.0;
      var preds := Predict(probs, t);
      var score := f1(preds);
      if score > bestF1 {
        bestF1 := score;
        bestThresh := t;
        bestX := x;
        found := true;
      }
      x := x + 1;
    }
    r := bestThresh;
  }
}
