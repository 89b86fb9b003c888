/**
 * Column-name rules shared by the ML pipeline scripts: choosing the time
 * column (identical in the backtest and split scripts), pairing buy/sell
 * label columns, and Python's ordering of strings used by `sorted`.
 */
module Frames {
  import opened Common

  // ------------------------------------------------------- string ordering

  /** Python `a < b` on strings: code point by code point, a proper prefix first. */
  predicate StrLess(a: string, b: string)
  {
    if a == [] then b != []
    else if b == [] then false
    else if a[0] < b[0] then true
    else a[0] == b[0] && StrLess(a[1..], b[1..])
  }

  lemma {:induction false} StrLessIrreflexive(a: string)
    ensures !StrLess(a, a)
  {
    if a != [] { StrLessIrreflexive(a[1..]); }
  }

  lemma {:induction false} StrLessTotal(a: string, b: string)
    requires a != b
    ensures StrLess(a, b) || StrLess(b, a)
  {
    if a != [] && b != [] && a[0] == b[0] {
      assert a == [a[0]] + a[1..] && b == [b[0]] + b[1..];
      StrLessTotal(a[1..], b[1..]);
    }
  }

  lemma {:induction false} StrLessTransitive(a: string, b: string, c: string)
    requires StrLess(a, b) && StrLess(b, c)
    ensures StrLess(a, c)
  {
    if a != [] && b != [] && c != [] && a[0] == b[0] == c[0] {
      StrLessTransitive(a[1..], b[1..], c[1..]);
    }
  }

  /** Strictly increasing: sorted with no duplicates. */
  predicate Increasing(s: seq<string>)
  {
    forall i :: 0 <= i < |s| - 1 ==> StrLess(s[i], s[i + 1])
  }

  function InsertUnique(x: string, s: seq<string>): (r: seq<string>)
    requires Increasing(s)
    ensures Increasing(r)
    ensures forall y :: y in r <==> y in s || y == x
    ensures r != [] && (r[0] == x || (s != [] && r[0] == s[0]))
  {
    if s == [] then [x]
    else if x == s[0] then s
    else if StrLess(x, s[0]) then [x] + s
    else
      StrLessTotal(x, s[0]);
      var rest := InsertUnique(x, s[1..]);
      assert rest[0] == x || rest[0] == s[1];
      var r := [s[0]] + rest;
      assert forall i :: 0 < i < |r| ==> r[i] == rest[i - 1];
      assert forall y :: y in s <==> y == s[0] || y in s[1..];
      r
  }

  /** `sorted(set(xs))`: the distinct strings of `xs` in increasing order. */
  function SortUnique(xs: seq<string>): (r: seq<string>)
    ensures Increasing(r)
    ensures forall x :: x in r <==> x in xs
  {
    if xs == [] then []
    else
      assert forall x :: x in xs <==> x == xs[0] || x in xs[1..];
      InsertUnique(xs[0], SortUnique(xs[1..]))
  }

  // ------------------------------------------------------------ label pairs

  /** The names after prefix `p` of the columns that start with `p`, in column order. */
  function Suffixes(columns: seq<string>, p: string): (r: seq<string>)
    ensures forall x :: x in r <==> p + x in columns
  {
    if columns == [] then []
    else
      var c := columns[0];
      var rest := Suffixes(columns[1..], p);
      var here := if IsPrefix(p, c) then [c[|p|..]] else [];
      assert forall x :: IsPrefix(p, c) && x == c[|p|..] <==> p + x == c by {
        forall x ensures IsPrefix(p, c) && x == c[|p|..] <==> p + x == c {
          if p + x == c { assert c[..|p|] == p && c[|p|..] == x; }
          if IsPrefix(p, c) && x == c[|p|..] { assert c == c[..|p|] + c[|p|..]; }
        }
      }
      here + rest
  }

  /** `_detect_label_pairs`: codes X with both `buy_label_X` and `sell_label_X`, sorted. */
  function LabelPairs(columns: seq<string>): (r: seq<string>)
    ensures Increasing(r)
    ensures forall x :: x in r <==> "buy_label_" + x in columns && "sell_label_" + x in columns
  {
    var buys := Suffixes(columns, "buy_label_");
    var sells := Suffixes(columns, "sell_label_");
    SortUnique(Common.Filter(buys, x => x in sells))
  }

  // ------------------------------------------------------------ time column

  const PreferredTimeColumns: seq<string> :=
    ["timestamp", "candle_date_time_utc", "candle_date_time_kst", "datetime"]

  predicate MentionsTime(c: string) { Contains(c, "time") || Contains(c, "date") }

  /** Column `k` is the first whose name contains "time" or "date". */
  predicate FirstTimeLike(columns: seq<string>, k: int)
  {
    0 <= k < |columns| && MentionsTime(columns[k]) && forall i :: 0 <= i < k ==> !MentionsTime(columns[i])
  }

  /** Columns whose name contains "time" or "date", in column order. */
  function TimeCandidates(columns: seq<string>): (r: seq<string>)
    ensures forall c :: c in r <==> c in columns && MentionsTime(c)
    ensures IsSubsequence(r, columns)
    ensures forall k :: FirstTimeLike(columns, k) ==> r != [] && r[0] == columns[k]
  {
    if columns == [] then []
    else
      var rest := TimeCandidates(columns[1..]);
      if MentionsTime(columns[0]) then
        assert ([columns[0]] + rest)[1..] == rest;
        assert forall k :: FirstTimeLike(columns, k) ==> k == 0;
        [columns[0]] + rest
      else
        assert forall k :: FirstTimeLike(columns, k) ==> FirstTimeLike(columns[1..], k - 1);
        rest
  }

  function FirstPresent(order: seq<string>, columns: seq<string>): (r: Option<string>)
    ensures r.Some? ==> r.value in order && r.value in columns
    ensures r.None? <==> forall c :: c in order ==> c !in columns
  {
    if order == [] then None
    else if order[0] in columns then Some(order[0])
    else FirstPresent(order[1..], columns)
  }

  /** `_detect_time_column`: the first preferred name present, else the first time-like column. */
  function DetectTimeColumn(columns: seq<string>): Option<string>
  {
    FirstPresent(PreferredTimeColumns + TimeCandidates(columns), columns)
  }

  lemma {:induction false} FirstPresentPrefers(order: seq<string>, columns: seq<string>, k: nat)
    requires k < |order| && order[k] in columns
    ensures FirstPresent(order, columns).Some?
    ensures exists j :: (0 <= j <= k && FirstPresent(order, columns) == Some(order[j])
      && forall i :: 0 <= i < j ==> order[i] !in columns)
  {
    if order[0] in columns {
      assert FirstPresent(order, columns) == Some(order[0]);
    } else {
      FirstPresentPrefers(order[1..], columns, k - 1);
      var j :| 0 <= j <= k - 1 && FirstPresent(order[1..], columns) == Some(order[1..][j])
        && forall i :: 0 <= i < j ==> order[1..][i] !in columns;
      assert FirstPresent(order, columns) == Some(order[j + 1]);
      forall i | 0 <= i < j + 1 ensures order[i] !in columns {
        if i > 0 { assert order[i] == order[1..][i - 1]; }
      }
    }
  }

  /** With no name of `skip` among the columns, the search goes on to what follows. */
  lemma {:induction false} FirstPresentSkips(skip: seq<string>, rest: seq<string>, columns: seq<string>)
    requires forall c :: c in skip ==> c !in columns
    ensures FirstPresent(skip + rest, columns) == FirstPresent(rest, columns)
  {
    if skip != [] {
      assert skip[0] in skip && (skip + rest)[0] == skip[0];
      assert (skip + rest)[1..] == skip[1..] + rest;
      assert FirstPresent(skip + rest, columns) == FirstPresent(skip[1..] + rest, columns);
      FirstPresentSkips(skip[1..], rest, columns);
    } else {
      assert skip + rest == rest;
    }
  }

  /**
   * The time column is a preferred name whenever one is present (the
   * earliest in the preference order), otherwise the first time-like column
   * in column order, and None exactly when there is neither.
   */
  lemma TimeColumnChoice(columns: seq<string>)
    ensures var r := DetectTimeColumn(columns);
      && (r.Some? ==> r.value in columns && (r.value in PreferredTimeColumns || MentionsTime(r.value)))
      && (r.None? <==> (forall c :: c in PreferredTimeColumns ==> c !in columns)
                       && (forall c :: c in columns ==> !MentionsTime(c)))
      && (forall k :: 0 <= k < |PreferredTimeColumns| && PreferredTimeColumns[k] in columns ==>
            exists j :: (0 <= j <= k && r == Some(PreferredTimeColumns[j])
              && forall i :: 0 <= i < j ==> PreferredTimeColumns[i] !in columns))
      && ((forall c :: c in PreferredTimeColumns ==> c !in columns) ==>
            forall k :: FirstTimeLike(columns, k) ==> r == Some(columns[k]))
  {
    var order := PreferredTimeColumns + TimeCandidates(columns);
    if forall c :: c in PreferredTimeColumns ==> c !in columns {
      FirstPresentSkips(PreferredTimeColumns, TimeCandidates(columns), columns);
      forall k | FirstTimeLike(columns, k) ensures DetectTimeColumn(columns) == Some(columns[k]) {
        assert TimeCandidates(columns)[0] in columns;
      }
    }
    forall k | 0 <= k < |PreferredTimeColumns| && PreferredTimeColumns[k] in columns
      ensures exists j :: (0 <= j <= k && DetectTimeColumn(columns) == Some(PreferredTimeColumns[j])
              && forall i :: 0 <= i < j ==> PreferredTimeColumns[i] !in columns)
    {
      assert order[k] == PreferredTimeColumns[k];
      FirstPresentPrefers(order, columns, k);
      var j :| 0 <= j <= k && FirstPresent(order, columns) == Some(order[j])
        && forall i :: 0 <= i < j ==> order[i] !in columns;
      assert order[j] == PreferredTimeColumns[j];
      forall i | 0 <= i < j ensures PreferredTimeColumns[i] !in columns {
        assert order[i] == PreferredTimeColumns[i];
      }
    }
  }
}
