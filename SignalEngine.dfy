/**
 * The rule-based signal engine (`f2_signal/signal_engine.py`): partial
 * candles are dropped, the latest 5-minute candle is paired with the
 * 1-minute candle of the same timestamp, and every enabled strategy's buy
 * and sell formula is evaluated on those rows. A buy needs its formula to
 * hold on both rows, a sell only on the 1-minute row; the buy trigger is
 * the triggered strategy with the least order.
 *
 * Formulas become Python text by substitution (`eval_formula`), which is
 * modelled rule by rule; the final `eval` is a parameter. Frames are given
 * already holding the indicator columns the engine computes; the clock is
 * the parameter `now`, in seconds.
 */
module SignalEngine {
  import opened Common
  import opened Rewrite
  import opened Formulas

  // ------------------------------------------------------------ indicator keys

  /** `ind_patterns`, in its order. */
  const IndKeys: seq<string> :=
    ["EMA", "RSI", "ATR", "MFI", "ADX", "MACD_line", "MACD_signal", "MACD_hist",
     "StochK", "StochD", "BB_upper", "BB_lower", "BB_mid",
     "BandWidth20", "Vol_MA20", "ATR_14_MA20", "VWAP", "Strength",
     "Tenkan", "Kijun", "SpanA", "SpanB", "Chikou",
     "DI_plus", "DI_minus", "PSAR",
     "MaxHigh5", "MaxHigh20", "MaxHigh60", "MaxHigh120",
     "MinLow5", "MinLow20", "MinLow60", "MinLow120"]

  /** Keys whose column carries the period: `EMA_20`, `StochK_14`. */
  predicate PeriodColumnKey(key: string)
  {
    key == "EMA" || key == "RSI" || key == "ATR" || key == "MFI" || key == "ADX" || IsPrefix("Stoch", key)
  }

  function IndColumn(key: string, period: string): string
  {
    if PeriodColumnKey(key) then key + "_" + period else key
  }

  /**
   * One match of `key\(([0-9]+)(?:,(-?[0-9]+))?\)`, by position: it starts
   * at `start`, its period of `plen` digits at `open`, and its offset has
   * `olen` characters, 0 when there is none.
   */
  datatype Hit = Hit(start: nat, open: nat, plen: nat, olen: nat)

  function HitEnd(h: Hit): nat
  {
    h.open + h.plen + (if h.olen == 0 then 1 else h.olen + 2)
  }

  predicate HitIn(s: string, h: Hit) { h.start < h.open && HitEnd(h) <= |s| }

  /** `m.group(0)`. */
  function HitText(s: string, h: Hit): string
    requires HitIn(s, h)
  {
    s[h.start..HitEnd(h)]
  }

  /** `m.group(1)`. */
  function HitPeriod(s: string, h: Hit): string
    requires HitIn(s, h)
  {
    s[h.open..h.open + h.plen]
  }

  /** `m.group(2)`: None when the optional group did not take part. */
  function HitOffset(s: string, h: Hit): Option<string>
    requires HitIn(s, h)
  {
    if h.olen == 0 then None else Some(s[h.open + h.plen + 1..h.open + h.plen + 1 + h.olen])
  }

  /** `),` or `,offset)` after the period, which ends at `k`: the length of the offset, 0 for none. */
  function OffsetAfter(s: string, k: nat): (r: Option<nat>)
    requires k < |s|
    ensures r.Some? && r.value > 0 ==> k + r.value + 1 < |s|
  {
    if s[k] == ')' then Some(0)
    else if s[k] == ',' then
      var n := SignedRun(s, k + 1);
      if n > 0 && k + 1 + n < |s| && s[k + 1 + n] == ')' then Some(n) else None
    else None
  }

  /** The match of the indicator pattern starting at `i`, if any. */
  function IndAt(key: string, s: string, i: nat): (r: Option<Hit>)
    ensures r.Some? ==> r.value.start == i && HitIn(s, r.value)
  {
    if !At(key + "(", s, i) then None
    else
      var j := i + |key| + 1;
      var d := DigitRun(s, j);
      if d == 0 || j + d >= |s| then None
      else
        var off := OffsetAfter(s, j + d);
        if off.None? then None else Some(Hit(i, j, d, off.value))
  }

  /** `re.finditer` of the indicator pattern: leftmost, non-overlapping, left to right. */
  function IndHits(key: string, s: string, i: nat): (r: seq<Hit>)
    ensures forall k :: 0 <= k < |r| ==> HitIn(s, r[k])
    decreases |s| - i
  {
    if i >= |s| then []
    else match IndAt(key, s, i)
      case Some(h) => [h] + IndHits(key, s, HitEnd(h))
      case None => IndHits(key, s, i + 1)
  }

  /** The text a hit becomes: "0" for an offset other than "0", a missing column or NaN; else the value. */
  function IndRep(key: string, row: Row, show: Show, s: string, h: Hit): string
    requires HitIn(s, h)
  {
    var col := IndColumn(key, HitPeriod(s, h));
    var off := HitOffset(s, h);
    if (off.Some? && off.value != "0" && off.value != "") || col !in row || row[col].NaN? then "0"
    else show(row[col].v)
  }

  /**
   * `expr = re.sub(re.escape(m.group(0)), replacement_val, expr)` for each
   * hit in turn; the hits were found in the text `s` the loop started from.
   */
  function ReplaceHits(expr: string, key: string, s: string, hits: seq<Hit>, row: Row, show: Show): string
    requires forall k :: 0 <= k < |hits| ==> HitIn(s, hits[k])
    decreases |hits|
  {
    if hits == [] then expr
    else ReplaceHits(Replace(expr, HitText(s, hits[0]), IndRep(key, row, show, s, hits[0])), key, s, hits[1..], row, show)
  }

  /** A plain key's value: NaN becomes "0". */
  function PlainRep(c: Cell, show: Show): string { if c.NaN? then "0" else show(c.v) }

  /**
   * Which text decides whether a key is substituted: the formula as
   * written (what the engine checks), or the normalised expression.
   */
  datatype KeyCheck = OnFormula | OnExpr

  function Guard(check: KeyCheck, formula: string, expr: string): string
  {
    if check == OnFormula then formula else expr
  }

  /** One iteration of the loop over `ind_patterns`. */
  function KeyStep(check: KeyCheck, formula: string, key: string, expr: string, row: Row, show: Show): string
  {
    var guard := Guard(check, formula, expr);
    if !Contains(guard, key) then expr
    else if Contains(guard, key + "(") then ReplaceHits(expr, key, expr, IndHits(key, expr, 0), row, show)
    else if key in row then Replace(expr, key, PlainRep(row[key], show))
    else expr
  }

  function KeysPass(check: KeyCheck, formula: string, keys: seq<string>, expr: string, row: Row, show: Show): string
    decreases |keys|
  {
    if keys == [] then expr
    else KeysPass(check, formula, keys[1..], KeyStep(check, formula, keys[0], expr, row, show), row, show)
  }

  // ------------------------------------------------------------ eval_formula

  /** `_repl` of the base-field pass: offset "0" reads the row (0 when the column is missing), any other offset 0. */
  function BaseValue(row: Row, show: Show, col: string, off: string): string
  {
    if off == "0" || off == "+0" || off == "" then GetText(row, col, show) else show(0.0)
  }

  function BaseRep(row: Row, show: Show): string -> string -> string
  {
    col => off => BaseValue(row, show, col, off)
  }

  /** The `Entry`, `EntryPrice` and `Peak` placeholders, added when the formula mentions `Entry`. */
  function EntryReplacements(formula: string, show: Show): seq<(string, string)>
  {
    if Contains(formula, "Entry") || Contains(formula, "EntryPrice") then
      [("EntryPrice", show(0.0)), ("Entry", show(0.0)), ("Peak", show(0.0))]
    else []
  }

  /** The expression handed to `eval`, or None where building `replacements` raises KeyError. */
  function Substituted(check: KeyCheck, formula: string, row: Row, show: Show): Option<string>
  {
    var expr := BasePass(Normalise(formula), BaseFields, BaseRep(row, show));
    if !HasBaseColumns(row) then None
    else
      var e := KeysPass(check, formula, IndKeys, expr, row, show);
      Some(Symbols(ReplaceAll(e, BaseReplacements(row, show) + EntryReplacements(formula, show))))
  }

  /** `eval_formula`: None where it raises, else the truth of the evaluated expression. */
  function EvalFormula(check: KeyCheck, formula: string, row: Row, show: Show, evaluate: Evaluate): Option<bool>
  {
    match Substituted(check, formula, row, show)
    case None => None
    case Some(e) => Some(Truth(evaluate, e))
  }

  /** The loop over `base_fields`. */
  method RunBasePass(expr0: string, fields: seq<(string, string)>, rep: string -> string -> string) returns (expr: string)
    ensures expr == BasePass(expr0, fields, rep)
  {
    expr := expr0;
    var i := 0;
    while i < |fields|
      invariant 0 <= i <= |fields|
      invariant BasePass(expr0, fields, rep) == BasePass(expr, fields[i..], rep)
    {
      assert fields[i..][1..] == fields[i + 1..];
      expr := Sub(BaseMatcher(fields[i].0, rep(fields[i].1)), expr);
      i := i + 1;
    }
    assert fields[i..] == [];
  }

  /** The loop over the finditer matches of one key. */
  method RunReplaceHits(expr0: string, key: string, s: string, hits: seq<Hit>, row: Row, show: Show) returns (expr: string)
    requires forall k :: 0 <= k < |hits| ==> HitIn(s, hits[k])
    ensures expr == ReplaceHits(expr0, key, s, hits, row, show)
  {
    expr := expr0;
    var h := 0;
    while h < |hits|
      invariant 0 <= h <= |hits|
      invariant ReplaceHits(expr0, key, s, hits, row, show) == ReplaceHits(expr, key, s, hits[h..], row, show)
    {
      assert hits[h..][1..] == hits[h + 1..];
      expr := Replace(expr, HitText(s, hits[h]), IndRep(key, row, show, s, hits[h]));
      h := h + 1;
    }
    assert hits[h..] == [];
  }

  /** The loop over `ind_patterns`. */
  method RunKeysPass(check: KeyCheck, formula: string, keys: seq<string>, expr0: string, row: Row, show: Show)
    returns (expr: string)
    ensures expr == KeysPass(check, formula, keys, expr0, row, show)
  {
    expr := expr0;
    var i := 0;
    while i < |keys|
      invariant 0 <= i <= |keys|
      invariant KeysPass(check, formula, keys, expr0, row, show) == KeysPass(check, formula, keys[i..], expr, row, show)
    {
      assert keys[i..][1..] == keys[i + 1..];
      var key := keys[i];
      var guard := if check == OnFormula then formula else expr;
      if Contains(guard, key) {
        if Contains(guard, key + "(") {
          expr := RunReplaceHits(expr, key, expr, IndHits(key, expr, 0), row, show);
        } else if key in row {
          expr := Replace(expr, key, PlainRep(row[key], show));
        }
      }
      i := i + 1;
    }
    assert keys[i..] == [];
  }

  /** The loop over `replacements`. */
  method RunReplaceAll(expr0: string, pairs: seq<(string, string)>) returns (expr: string)
    ensures expr == ReplaceAll(expr0, pairs)
  {
    expr := expr0;
    var i := 0;
    while i < |pairs|
      invariant 0 <= i <= |pairs|
      invariant ReplaceAll(expr0, pairs) == ReplaceAll(expr, pairs[i..])
    {
      assert pairs[i..][1..] == pairs[i + 1..];
      expr := Replace(expr, pairs[i].0, pairs[i].1);
      i := i + 1;
    }
    assert pairs[i..] == [];
  }

  /** `eval_formula`, its passes run as loops. */
  method RunEvalFormula(check: KeyCheck, formula: string, row: Row, show: Show, evaluate: Evaluate)
    returns (r: Option<bool>)
    ensures r == EvalFormula(check, formula, row, show, evaluate)
  {
    var expr := RunBasePass(Normalise(formula), BaseFields, BaseRep(row, show));
    if !HasBaseColumns(row) {
      SubstitutedRaises(check, formula, row, show);
      return None;
    }
    expr := RunKeysPass(check, formula, IndKeys, expr, row, show);
    expr := RunReplaceAll(expr, BaseReplacements(row, show) + EntryReplacements(formula, show));
    r := Some(Truth(evaluate, Symbols(expr)));
  }

  // ------------------------------------------------------------ what eval_formula does

  lemma SubstitutedRaises(check: KeyCheck, formula: string, row: Row, show: Show)
    ensures Substituted(check, formula, row, show).None? <==> !HasBaseColumns(row)
  {
  }

  /** A row lacking one of the five price columns raises; with all five, `eval_formula` returns. */
  lemma EvalRaisesIffMissingColumn(check: KeyCheck, formula: string, row: Row, show: Show, evaluate: Evaluate)
    ensures EvalFormula(check, formula, row, show, evaluate).None? <==> !HasBaseColumns(row)
  {
    SubstitutedRaises(check, formula, row, show);
  }

  /** An expression `eval` cannot evaluate makes the formula false. */
  lemma EvalErrorIsFalse(check: KeyCheck, formula: string, row: Row, show: Show, evaluate: Evaluate, e: string)
    requires Substituted(check, formula, row, show) == Some(e) && evaluate(e) == None
    ensures EvalFormula(check, formula, row, show, evaluate) == Some(false)
  {
    EvalOfSome(check, formula, row, show, evaluate, e);
  }

  lemma EvalOfSome(check: KeyCheck, formula: string, row: Row, show: Show, evaluate: Evaluate, e: string)
    requires Substituted(check, formula, row, show) == Some(e)
    ensures EvalFormula(check, formula, row, show, evaluate) == Some(Truth(evaluate, e))
  {
  }

  /** The pieces of `key(p,o)` as it occurs at `i`. */
  lemma OffsetPieces(key: string, s: string, i: nat, p: string, o: string)
    requires At(key + "(" + p + "," + o + ")", s, i)
    ensures At(key + "(", s, i) && At(p, s, i + |key| + 1) && At(o, s, i + |key| + 2 + |p|)
    ensures s[i + |key| + 1 + |p|] == ',' && s[i + |key| + 2 + |p| + |o|] == ')'
  {
    AtSplit(key + "(" + p + "," + o, ")", s, i);
    AtSplit(key + "(" + p + ",", o, s, i);
    AtSplit(key + "(" + p, ",", s, i);
    AtSplit(key + "(", p, s, i);
    AtChar(',', s, i + |key| + 1 + |p|);
    AtChar(')', s, i + |key| + 2 + |p| + |o|);
  }

  /** `key(p,o)` is matched with period `p` and offset `o`. */
  lemma IndReadsOffset(key: string, s: string, i: nat, p: string, o: string)
    requires At(key + "(" + p + "," + o + ")", s, i) && Digits(p) && SignedDigits(o)
    ensures IndAt(key, s, i) == Some(Hit(i, i + |key| + 1, |p|, |o|))
    ensures var h := Hit(i, i + |key| + 1, |p|, |o|);
      HitIn(s, h) && HitPeriod(s, h) == p && HitOffset(s, h) == Some(o)
  {
    var j := i + |key| + 1;
    OffsetPieces(key, s, i, p, o);
    IndReadsOffsetPieces(key, s, i, j, p, o);
    HitParts(s, Hit(i, j, |p|, |o|), p, o);
  }

  /** The same, from the pieces of the match: `key(` at `i`, then `p` at `j`, a comma, `o` and `)`. */
  lemma IndReadsOffsetPieces(key: string, s: string, i: nat, j: nat, p: string, o: string)
    requires j == i + |key| + 1 && Digits(p) && SignedDigits(o)
    requires At(key + "(", s, i) && At(p, s, j) && At(o, s, j + |p| + 1)
    requires j + |p| + 1 + |o| < |s| && s[j + |p|] == ',' && s[j + |p| + 1 + |o|] == ')'
    ensures IndAt(key, s, i) == Some(Hit(i, j, |p|, |o|))
  {
    DigitsAt(s, j, p);
    SignedRunOver(s, j + |p| + 1, o);
    IndReadsRuns(key, s, i, j, |p|, |o|);
  }

  lemma HitParts(s: string, h: Hit, p: string, o: string)
    requires HitIn(s, h) && h.plen == |p| && h.olen == |o| > 0
    requires At(p, s, h.open) && At(o, s, h.open + h.plen + 1)
    ensures HitPeriod(s, h) == p && HitOffset(s, h) == Some(o)
  {
  }

  lemma IndReadsRuns(key: string, s: string, i: nat, j: nat, d: nat, n: nat)
    requires j == i + |key| + 1 && At(key + "(", s, i) && j + d + 1 + n < |s|
    requires 0 < d == DigitRun(s, j) && s[j + d] == ','
    requires 0 < n == SignedRun(s, j + d + 1) && s[j + d + 1 + n] == ')'
    ensures IndAt(key, s, i) == Some(Hit(i, j, d, n))
  {
    ReadsOffsetAfter(s, j + d, n);
    IndAtUnfolds(key, s, i, d, n);
  }

  lemma DigitsAt(s: string, j: nat, p: string)
    requires At(p, s, j) && Digits(p) && j + |p| < |s| && !IsDigit(s[j + |p|])
    ensures DigitRun(s, j) == |p|
  {
    forall k | j <= k < j + |p| ensures IsDigit(s[k]) {
      assert s[j..j + |p|][k - j] == s[k];
    }
    DigitRunOver(s, j, |p|);
  }

  lemma IndAtUnfolds(key: string, s: string, i: nat, d: nat, n: nat)
    requires At(key + "(", s, i) && i + |key| + 1 + d < |s| && d > 0
    requires DigitRun(s, i + |key| + 1) == d && OffsetAfter(s, i + |key| + 1 + d) == Some(n)
    ensures IndAt(key, s, i) == Some(Hit(i, i + |key| + 1, d, n))
  {
  }

  lemma ReadsOffsetAfter(s: string, k: nat, n: nat)
    requires k + 1 + n < |s| && s[k] == ',' && n > 0 && SignedRun(s, k + 1) == n && s[k + 1 + n] == ')'
    ensures OffsetAfter(s, k) == Some(n)
  {
  }

  /** `key(p)` is matched with period `p` and no offset. */
  lemma IndReadsPlain(key: string, s: string, i: nat, p: string)
    requires At(key + "(" + p + ")", s, i) && Digits(p)
    ensures IndAt(key, s, i) == Some(Hit(i, i + |key| + 1, |p|, 0))
    ensures var h := Hit(i, i + |key| + 1, |p|, 0);
      HitIn(s, h) && HitPeriod(s, h) == p && HitOffset(s, h) == None
  {
    var j := i + |key| + 1;
    assert |key + "("| == |key| + 1 && |key + "(" + p| == |key| + 1 + |p|;
    AtSplit(key + "(" + p, ")", s, i);
    AtSplit(key + "(", p, s, i);
    AtChar(')', s, j + |p|);
    IndReadsPlainPieces(key, s, i, j, p, |p|);
  }

  lemma IndReadsPlainPieces(key: string, s: string, i: nat, j: nat, p: string, d: nat)
    requires j == i + |key| + 1 && d == |p|
    requires At(key + "(", s, i) && At(p, s, j) && j + d < |s| && s[j + d] == ')'
    requires Digits(p)
    ensures IndAt(key, s, i) == Some(Hit(i, j, d, 0))
    ensures s[j..j + d] == p
  {
    DigitsAt(s, j, p);
    IndAtUnfolds(key, s, i, d, 0);
  }

  /** An indicator written with an offset other than "0" becomes "0", whatever the row holds. */
  lemma OffsetIndicatorIsZero(key: string, s: string, i: nat, p: string, o: string, row: Row, show: Show)
    requires At(key + "(" + p + "," + o + ")", s, i) && Digits(p) && SignedDigits(o) && o != "0"
    ensures IndAt(key, s, i).Some? && IndRep(key, row, show, s, IndAt(key, s, i).value) == "0"
  {
    IndReadsOffset(key, s, i, p, o);
  }

  /**
   * An indicator written without an offset takes the value of its column
   * (`EMA_20` for `EMA(20)`), and "0" when the column is missing or NaN.
   */
  lemma CurrentIndicatorValue(key: string, s: string, i: nat, p: string, row: Row, show: Show)
    requires At(key + "(" + p + ")", s, i) && Digits(p)
    ensures IndAt(key, s, i).Some?
    ensures var col := IndColumn(key, p);
      IndRep(key, row, show, s, IndAt(key, s, i).value)
        == if col in row && row[col].Num? then show(row[col].v) else "0"
  {
    IndReadsPlain(key, s, i, p);
  }

  // ------------------------------------------------------------ passes over absent names

  lemma {:induction false} KeysPassSkips(check: KeyCheck, formula: string, keys: seq<string>, expr: string, row: Row, show: Show)
    requires forall k :: 0 <= k < |keys| ==> !Contains(Guard(check, formula, expr), keys[k])
    ensures KeysPass(check, formula, keys, expr, row, show) == expr
    decreases |keys|
  {
    if keys != [] {
      assert !Contains(Guard(check, formula, expr), keys[0]);
      assert forall k :: 0 <= k < |keys[1..]| ==> keys[1..][k] == keys[k + 1];
      KeysPassSkips(check, formula, keys[1..], expr, row, show);
    }
  }

  lemma {:induction false} KeysPassSplit(check: KeyCheck, formula: string, a: seq<string>, b: seq<string>, expr: string, row: Row, show: Show)
    ensures KeysPass(check, formula, a + b, expr, row, show)
      == KeysPass(check, formula, b, KeysPass(check, formula, a, expr, row, show), row, show)
    decreases |a|
  {
    if a != [] {
      assert (a + b)[0] == a[0];
      assert (a + b)[1..] == a[1..] + b;
      KeysPassSplit(check, formula, a[1..], b, KeyStep(check, formula, a[0], expr, row, show), row, show);
    } else {
      assert a + b == b;
    }
  }

  lemma {:induction false} ReplaceAllSplit(expr: string, a: seq<(string, string)>, b: seq<(string, string)>)
    ensures ReplaceAll(expr, a + b) == ReplaceAll(ReplaceAll(expr, a), b)
    decreases |a|
  {
    if a != [] {
      assert (a + b)[0] == a[0];
      assert (a + b)[1..] == a[1..] + b;
      ReplaceAllSplit(Replace(expr, a[0].0, a[0].1), a[1..], b);
    } else {
      assert a + b == b;
    }
  }

  /** Base pass over text without a parenthesis: nothing changes. */
  lemma {:induction false} BasePassNoParen(expr: string, fields: seq<(string, string)>, rep: string -> string -> string)
    requires '(' !in expr
    ensures BasePass(expr, fields, rep) == expr
    decreases |fields|
  {
    if fields != [] {
      AbsentByChar(expr, fields[0].0 + "(", '(');
      BaseAbsent(fields[0].0, rep(fields[0].1), expr);
      BasePassNoParen(expr, fields[1..], rep);
    }
  }

  lemma SymbolsAbsent(expr: string)
    requires '×' !in expr && '≤' !in expr && '≥' !in expr
    ensures Symbols(expr) == expr
  {
    AbsentByChar(expr, "×", '×');
    ReplaceAbsent(expr, "×", "*");
    AbsentByChar(expr, "≤", '≤');
    ReplaceAbsent(expr, "≤", "<=");
    AbsentByChar(expr, "≥", '≥');
    ReplaceAbsent(expr, "≥", ">=");
  }

  /** A character that no rendered number holds and the tail lacks is missing from both together. */
  lemma NotInShown(show: Show, x: Cell, tail: string, c: char)
    requires ShowsNumbers(show) && !NumericChar(c) && c !in tail
    ensures c !in CellText(x, show) + tail
  {
    var t := CellText(x, show);
    forall k | 0 <= k < |t + tail| ensures (t + tail)[k] != c {
      if k < |t| {
        if x.Num? {
          assert NumericChar(show(x.v)[k]);
        } else {
          assert NumericChar(t[k]);
        }
      } else {
        assert (t + tail)[k] == tail[k - |t|];
      }
    }
  }

  // ------------------------------------------------------------ which text the key check reads

  /** A formula using the moving average of volume written as a call. */
  const VolumeFormula := "MA(Vol,20) > 0"

  /** A formula starting with the only `MA(Vol,20)` call is normalised to the column name. */
  lemma NormaliseLeadingVolume(rest: string)
    requires 'M' !in rest && '(' !in rest
    ensures Normalise("MA(Vol,20)" + rest) == "Vol_MA20" + rest
  {
    AbsentByChar(rest, "MA(Vol,20)", 'M');
    ReplaceLeading("MA(Vol,20)", rest, "Vol_MA20");
    var e := "Vol_MA20" + rest;
    assert '(' !in e by {
      forall k | 0 <= k < |e| ensures e[k] != '(' {
        if k >= 8 {
          assert e[k] == rest[k - 8];
        }
      }
    }
    AbsentByChar(e, "MA(ATR(14),20)", '(');
    ReplaceAbsent(e, "MA(ATR(14),20)", "ATR_14_MA20");
  }

  lemma VolumeFormulaNormalised()
    ensures Normalise(VolumeFormula) == "Vol_MA20" + " > 0"
  {
    assert VolumeFormula == "MA(Vol,20)" + " > 0";
    NormaliseLeadingVolume(" > 0");
  }

  lemma VolumeFormulaBase(row: Row, show: Show)
    ensures BasePass(Normalise(VolumeFormula), BaseFields, BaseRep(row, show)) == "Vol_MA20" + " > 0"
  {
    VolumeFormulaNormalised();
    assert '(' !in "Vol_MA20" + " > 0";
    BasePassNoParen("Vol_MA20" + " > 0", BaseFields, BaseRep(row, show));
  }

  /** The formula mentions no `Entry`, so no entry placeholders are added. */
  lemma VolumeFormulaNoEntry(show: Show)
    ensures EntryReplacements(VolumeFormula, show) == []
  {
    AbsentByChar(VolumeFormula, "Entry", 'E');
    AbsentByChar(VolumeFormula, "EntryPrice", 'E');
  }

  /** For each key, one of its characters: `Witness[k] in IndKeys[k]`. */
  const Witness := "ERTFDCCCSSBBBB_TWSTKSSCDDPaaaaiiii"

  predicate WitnessChar(c: char)
  {
    c == 'E' || c == 'R' || c == 'T' || c == 'F' || c == 'D' || c == 'C' || c == 'S' || c == 'B'
    || c == 'W' || c == 'K' || c == 'P' || c == 'a' || c == 'i' || c == '_'
  }

  lemma WitnessInKey()
    ensures |Witness| == |IndKeys|
    ensures forall k :: 0 <= k < |IndKeys| ==> Witness[k] in IndKeys[k] && WitnessChar(Witness[k])
    ensures forall k :: 0 <= k < 14 ==> Witness[k] != '_'
  {
  }

  /** Text lacking the witnesses of a range of keys contains none of them. */
  lemma KeysAbsentByWitness(s: string, lo: nat, hi: nat)
    requires lo <= hi <= |IndKeys|
    requires forall k :: lo <= k < hi ==> Witness[k] !in s
    ensures forall k :: lo <= k < hi ==> !Contains(s, IndKeys[k])
  {
    WitnessInKey();
    forall k | lo <= k < hi ensures !Contains(s, IndKeys[k]) {
      AbsentByChar(s, IndKeys[k], Witness[k]);
    }
  }

  /** The characters of the example formula; its normalised form adds `_`. */
  predicate ExampleChar(c: char)
  {
    c == 'M' || c == 'A' || c == '(' || c == 'V' || c == 'o' || c == 'l' || c == ',' || c == '2' || c == '0'
    || c == ')' || c == ' ' || c == '>'
  }

  lemma VolumeFormulaNoKey()
    ensures forall k :: 0 <= k < |IndKeys| ==> !Contains(VolumeFormula, IndKeys[k])
  {
    var f := VolumeFormula;
    assert forall j :: 0 <= j < |f| ==> ExampleChar(f[j]);
    WitnessInKey();
    KeysAbsentByWitness(VolumeFormula, 0, |IndKeys|);
  }

  /** A character no capital letter equals is missing from text without capitals. */
  lemma UpperMissing(e: string, c: char)
    requires NoUpper(e) && IsUpper(c)
    ensures c !in e
  {
  }

  /** Text without capitals is left alone by the replacement of the five base names. */
  lemma BaseNamesSkipped(e: string, row: Row, show: Show)
    requires NoUpper(e) && HasBaseColumns(row)
    ensures ReplaceAll(e, BaseReplacements(row, show)) == e
  {
    var pairs := BaseReplacements(row, show);
    forall k | 0 <= k < |pairs| ensures !Contains(e, pairs[k].0) {
      assert pairs[k].0 != [] && IsUpper(pairs[k].0[0]);
      UpperMissing(e, pairs[k].0[0]);
      AbsentByChar(e, pairs[k].0, pairs[k].0[0]);
    }
    ReplaceAllAbsent(e, pairs);
  }

  /** `Vol` at the head of text otherwise free of base names becomes the volume. */
  lemma BaseNamesLeadingVol(rest: string, row: Row, show: Show)
    requires HasBaseColumns(row)
    requires 'C' !in rest && 'O' !in rest && 'H' !in rest && 'L' !in rest && 'V' !in rest
    ensures ReplaceAll("Vol" + rest, BaseReplacements(row, show)) == CellText(row["volume"], show) + rest
  {
    var e := "Vol" + rest;
    var pairs := BaseReplacements(row, show);
    forall c | c == 'C' || c == 'O' || c == 'H' || c == 'L' ensures c !in e {
      forall k | 0 <= k < |e| ensures e[k] != c {
        if k >= 3 {
          assert e[k] == rest[k - 3];
        }
      }
    }
    AbsentByChar(e, "Close", 'C');
    ReplaceAbsent(e, "Close", pairs[0].1);
    AbsentByChar(e, "Open", 'O');
    ReplaceAbsent(e, "Open", pairs[1].1);
    AbsentByChar(e, "High", 'H');
    ReplaceAbsent(e, "High", pairs[2].1);
    AbsentByChar(e, "Low", 'L');
    ReplaceAbsent(e, "Low", pairs[3].1);
    AbsentByChar(rest, "Vol", 'V');
    ReplaceLeading("Vol", rest, pairs[4].1);
    var v := pairs[4].1 + rest;
    assert ReplaceAll(e, pairs) == ReplaceAll(e, pairs[1..]);
    assert ReplaceAll(e, pairs[1..]) == ReplaceAll(e, pairs[2..]) by {
      assert pairs[1..][1..] == pairs[2..];
    }
    assert ReplaceAll(e, pairs[2..]) == ReplaceAll(e, pairs[3..]) by {
      assert pairs[2..][1..] == pairs[3..];
    }
    assert ReplaceAll(e, pairs[3..]) == ReplaceAll(e, pairs[4..]) by {
      assert pairs[3..][1..] == pairs[4..];
    }
    assert ReplaceAll(e, pairs[4..]) == ReplaceAll(v, []) by {
      assert pairs[4..][0] == pairs[4] && pairs[4..][1..] == [];
    }
  }

  /** The symbols pass leaves a rendered number followed by plain text alone. */
  lemma SymbolsSkipShown(show: Show, x: Cell, tail: string)
    requires ShowsNumbers(show) && '×' !in tail && '≤' !in tail && '≥' !in tail
    ensures Symbols(CellText(x, show) + tail) == CellText(x, show) + tail
  {
    NotInShown(show, x, tail, '×');
    NotInShown(show, x, tail, '≤');
    NotInShown(show, x, tail, '≥');
    SymbolsAbsent(CellText(x, show) + tail);
  }

  /** What `eval_formula` builds, given what its first two passes produce. */
  lemma SubstitutedFrom(check: KeyCheck, formula: string, row: Row, show: Show, e0: string, e1: string)
    requires HasBaseColumns(row)
    requires BasePass(Normalise(formula), BaseFields, BaseRep(row, show)) == e0
    requires KeysPass(check, formula, IndKeys, e0, row, show) == e1
    ensures Substituted(check, formula, row, show)
      == Some(Symbols(ReplaceAll(e1, BaseReplacements(row, show) + EntryReplacements(formula, show))))
  {
  }

  /**
   * As written: the keys are looked for in the formula, where `Vol_MA20` is
   * spelt `MA(Vol,20)`, so the column is never read; `Vol` is then replaced
   * inside the normalised name, leaving text that is not an expression.
   */
  lemma KeyCheckOnFormulaMissesAverage(row: Row, show: Show)
    requires HasBaseColumns(row) && ShowsNumbers(show)
    ensures Substituted(OnFormula, VolumeFormula, row, show) == Some(CellText(row["volume"], show) + "_MA20 > 0")
  {
    var e0 := "Vol_MA20" + " > 0";
    VolumeFormulaBase(row, show);
    VolumeFormulaNoKey();
    KeysPassSkips(OnFormula, VolumeFormula, IndKeys, e0, row, show);
    SubstitutedFrom(OnFormula, VolumeFormula, row, show, e0, e0);
    VolumeNameReplaced(row, show);
  }

  /** The last two passes over the normalised name: `Vol` is replaced inside `Vol_MA20`. */
  lemma VolumeNameReplaced(row: Row, show: Show)
    requires HasBaseColumns(row) && ShowsNumbers(show)
    ensures Symbols(ReplaceAll("Vol_MA20" + " > 0", BaseReplacements(row, show) + EntryReplacements(VolumeFormula, show)))
      == CellText(row["volume"], show) + "_MA20 > 0"
  {
    VolumeReplacements(row, show);
    VolumeNameSplits();
    BaseNamesLeadingVol("_MA20 > 0", row, show);
    SymbolsSkipShown(show, row["volume"], "_MA20 > 0");
  }

  lemma VolumeNameSplits()
    ensures "Vol_MA20" + " > 0" == "Vol" + "_MA20 > 0"
    ensures 'C' !in "_MA20 > 0" && 'O' !in "_MA20 > 0" && 'H' !in "_MA20 > 0" && 'L' !in "_MA20 > 0" && 'V' !in "_MA20 > 0"
    ensures '×' !in "_MA20 > 0" && '≤' !in "_MA20 > 0" && '≥' !in "_MA20 > 0"
  {
  }

  /** Every key of `ind_patterns` starts with a capital letter. */
  lemma IndKeysUpper()
    ensures UpperInitials(IndKeys)
  {
  }

  /** `ind_patterns` around `Vol_MA20`, its fifteenth key. */
  lemma KeysSplitAtVolume()
    ensures IndKeys == IndKeys[..14] + [IndKeys[14]] + IndKeys[15..]
    ensures IndKeys[14] == "Vol_MA20"
    ensures UpperInitials(IndKeys[15..])
  {
    assert IndKeys == IndKeys[..14] + IndKeys[14..];
    assert IndKeys[14..] == [IndKeys[14]] + IndKeys[15..];
    IndKeysUpper();
    assert forall k :: 0 <= k < |IndKeys[15..]| ==> IndKeys[15..][k] == IndKeys[15 + k];
  }

  lemma KeysPassAround(check: KeyCheck, formula: string, a: seq<string>, key: string, b: seq<string>,
                       expr: string, row: Row, show: Show)
    ensures KeysPass(check, formula, a + [key] + b, expr, row, show)
      == KeysPass(check, formula, b, KeyStep(check, formula, key, KeysPass(check, formula, a, expr, row, show), row, show), row, show)
  {
    KeysPassSplit(check, formula, a + [key], b, expr, row, show);
    KeysPassSplit(check, formula, a, [key], expr, row, show);
    assert [key][1..] == [];
  }

  /** Checked on the normalised text, `Vol_MA20` is found and replaced by the column's value. */
  lemma VolumeKeyStep(row: Row, show: Show)
    requires "Vol_MA20" in row && row["Vol_MA20"].Num?
    ensures KeyStep(OnExpr, VolumeFormula, "Vol_MA20", "Vol_MA20" + " > 0", row, show)
      == show(row["Vol_MA20"].v) + " > 0"
  {
    var e0 := "Vol_MA20" + " > 0";
    VolumeKeyLiterals();
    FindFirst(e0, "Vol_MA20", 0);
    AbsentByChar(e0, "Vol_MA20" + "(", '(');
    AbsentByChar(" > 0", "Vol_MA20", 'V');
    ReplaceLeading("Vol_MA20", " > 0", PlainRep(row["Vol_MA20"], show));
  }

  lemma VolumeKeyLiterals()
    ensures ("Vol_MA20" + " > 0")[0..|"Vol_MA20"|] == "Vol_MA20"
    ensures '(' in "Vol_MA20" + "(" && '(' !in "Vol_MA20" + " > 0" && 'V' !in " > 0"
  {
    assert ("Vol_MA20" + " > 0")[0..8] == "Vol_MA20";
  }

  /** The keys before `Vol_MA20` do not occur in the normalised text. */
  lemma VolumeTextLacksEarlyKeys()
    ensures forall k :: 0 <= k < |IndKeys[..14]| ==> !Contains(Guard(OnExpr, VolumeFormula, "Vol_MA20" + " > 0"), IndKeys[..14][k])
  {
    var e0 := "Vol_MA20" + " > 0";
    assert forall j :: 0 <= j < |e0| ==> ExampleChar(e0[j]) || e0[j] == '_';
    WitnessInKey();
    KeysAbsentByWitness(e0, 0, 14);
  }

  /** The keys after `Vol_MA20` do not occur in a rendered number followed by ` > 0`. */
  lemma ShownLacksLateKeys(show: Show, x: real)
    requires ShowsNumbers(show)
    ensures forall k :: 0 <= k < |IndKeys[15..]| ==> !Contains(Guard(OnExpr, VolumeFormula, show(x) + " > 0"), IndKeys[15..][k])
  {
    ComparisonLiterals();
    ShownNoUpper(show, x, " > 0");
    KeysSplitAtVolume();
    NoUpperAbsent(IndKeys[15..], show(x) + " > 0");
  }

  /** The key pass of the corrected engine on the example. */
  lemma VolumeKeysOnExpr(row: Row, show: Show)
    requires "Vol_MA20" in row && row["Vol_MA20"].Num? && ShowsNumbers(show)
    ensures KeysPass(OnExpr, VolumeFormula, IndKeys, "Vol_MA20" + " > 0", row, show) == show(row["Vol_MA20"].v) + " > 0"
  {
    var e0 := "Vol_MA20" + " > 0";
    var v := show(row["Vol_MA20"].v) + " > 0";
    KeysSplitAtVolume();
    KeysPassAround(OnExpr, VolumeFormula, IndKeys[..14], "Vol_MA20", IndKeys[15..], e0, row, show);
    VolumeTextLacksEarlyKeys();
    KeysPassSkips(OnExpr, VolumeFormula, IndKeys[..14], e0, row, show);
    VolumeKeyStep(row, show);
    ShownLacksLateKeys(show, row["Vol_MA20"].v);
    KeysPassSkips(OnExpr, VolumeFormula, IndKeys[15..], v, row, show);
  }

  lemma ComparisonLiterals()
    ensures NoUpper(" > 0") && '×' !in " > 0" && '≤' !in " > 0" && '≥' !in " > 0"
  {
  }

  /** The last two passes leave a rendered number followed by ` > 0` alone. */
  lemma ShownValueKept(row: Row, show: Show, x: real)
    requires HasBaseColumns(row) && ShowsNumbers(show)
    ensures Symbols(ReplaceAll(show(x) + " > 0", BaseReplacements(row, show) + EntryReplacements(VolumeFormula, show)))
      == show(x) + " > 0"
  {
    ComparisonLiterals();
    ShownNoUpper(show, x, " > 0");
    NamesKept(row, show, show(x) + " > 0");
    SymbolsSkipShown(show, Num(x), " > 0");
  }

  lemma NamesKept(row: Row, show: Show, e: string)
    requires HasBaseColumns(row) && NoUpper(e)
    ensures ReplaceAll(e, BaseReplacements(row, show) + EntryReplacements(VolumeFormula, show)) == e
  {
    VolumeReplacements(row, show);
    BaseNamesSkipped(e, row, show);
  }

  /** The volume formula names no entry price, so only the base columns are replaced. */
  lemma VolumeReplacements(row: Row, show: Show)
    requires HasBaseColumns(row)
    ensures BaseReplacements(row, show) + EntryReplacements(VolumeFormula, show) == BaseReplacements(row, show)
  {
    VolumeFormulaNoEntry(show);
  }

  /** Corrected: with the keys looked for in the normalised text, the average is read from its column. */
  lemma KeyCheckOnExprReadsAverage(row: Row, show: Show)
    requires HasBaseColumns(row) && "Vol_MA20" in row && row["Vol_MA20"].Num? && ShowsNumbers(show)
    ensures Substituted(OnExpr, VolumeFormula, row, show) == Some(show(row["Vol_MA20"].v) + " > 0")
  {
    var e0 := "Vol_MA20" + " > 0";
    var x := row["Vol_MA20"].v;
    VolumeFormulaBase(row, show);
    VolumeKeysOnExpr(row, show);
    SubstitutedFrom(OnExpr, VolumeFormula, row, show, e0, show(x) + " > 0");
    ShownValueKept(row, show, x);
  }

  /** As written, the formula is false whenever `eval` rejects the mangled name, whatever the average is. */
  lemma KeyCheckOnFormulaIsFalse(row: Row, show: Show, evaluate: Evaluate)
    requires HasBaseColumns(row) && ShowsNumbers(show)
    requires evaluate(CellText(row["volume"], show) + "_MA20 > 0") == None
    ensures EvalFormula(OnFormula, VolumeFormula, row, show, evaluate) == Some(false)
  {
    KeyCheckOnFormulaMissesAverage(row, show);
    EvalErrorIsFalse(OnFormula, VolumeFormula, row, show, evaluate, CellText(row["volume"], show) + "_MA20 > 0");
  }

  /** Corrected, the formula holds exactly when the evaluated comparison on the average does. */
  lemma KeyCheckOnExprEvaluates(row: Row, show: Show, evaluate: Evaluate)
    requires HasBaseColumns(row) && "Vol_MA20" in row && row["Vol_MA20"].Num? && ShowsNumbers(show)
    ensures EvalFormula(OnExpr, VolumeFormula, row, show, evaluate)
      == Some(evaluate(show(row["Vol_MA20"].v) + " > 0") == Some(true))
  {
    KeyCheckOnExprReadsAverage(row, show);
    EvalOfSome(OnExpr, VolumeFormula, row, show, evaluate, show(row["Vol_MA20"].v) + " > 0");
  }
}
