/**
 * The ML signal engine (`f2_ml_buy_signal/03_buy_signal_engine/signal_engine.py`):
 * `f2_signal` reports only the ML buy decision, and `eval_formula` keeps the
 * old formula language for compatibility. Unlike the rule-based engine,
 * `Field(off)` and `Ind(period, off)` read earlier or later rows of
 * `data_df`, `Entry` and `Peak` come from arguments, and plain keys are
 * replaced at word boundaries only.
 *
 * As in the rule-based engine, `str(float(x))` is the parameter `show` and
 * the final `eval` the parameter `evaluate`; `data_row.name` is the
 * parameter `pos`.
 */
module MlSignalEngine {
  import opened Common
  import opened Rewrite
  import opened Formulas
  import SignalEngine
  import F2Signal
  import MlBuySignal

  // ------------------------------------------------------------ f2_signal

  /**
   * `f2_signal`: the 1-minute frame sorted by time is handed to the ML check
   * when `calc_buy` is set; there is never a sell and never a trigger.
   */
  function MlF2Signal(df1: seq<F2Signal.Candle>, symbol: string, calcBuy: bool,
                      ml: seq<F2Signal.Candle> -> bool): F2Signal.Signal
  {
    var buy := if calcBuy then ml(F2Signal.SortFrame(df1)) else false;
    F2Signal.Signal(symbol, buy, false, [], [])
  }

  /** The result's shape: only buy_signal varies, and it is the ML answer exactly when `calc_buy` is set. */
  lemma MlF2SignalShape(df1: seq<F2Signal.Candle>, symbol: string, calcBuy: bool, ml: seq<F2Signal.Candle> -> bool)
    ensures var r := MlF2Signal(df1, symbol, calcBuy, ml);
      r.symbol == symbol && !r.sell && r.buyTriggers == [] && r.sellTriggers == []
      && (r.buy <==> calcBuy && ml(F2Signal.SortFrame(df1)))
      && (!calcBuy ==> r == F2Signal.AllFalse(symbol))
  {
  }

  /** With `check_buy_signal_df` as the check, fewer than 30 candles never buy. */
  lemma MlF2SignalShortFrame(df1: seq<F2Signal.Candle>, symbol: string, calcBuy: bool,
                             prepare: seq<F2Signal.Candle> -> seq<MlBuySignal.Sample>, prob: MlBuySignal.Prob)
    requires |df1| < 30
    ensures MlF2Signal(df1, symbol, calcBuy,
                       f => MlBuySignal.CheckBuySignalDf(f, prepare, prob)) == F2Signal.AllFalse(symbol)
  {
    assert |F2Signal.SortFrame(df1)| == |df1|;
  }

  // ------------------------------------------------------------ where a value is read

  /**
   * The arguments that say where values come from: the current row, the
   * optional frame `data_df`, the row's position `pos` in it, and the
   * optional `entry` and `peak`.
   */
  datatype Ctx = Ctx(row: Row, data: Option<seq<Row>>, pos: int, entry: Option<real>, peak: Option<real>)

  /**
   * The cell of column `col` at offset `off`: the current row for offset 0,
   * else row `pos + off` of `data_df` when that index is in range; None when
   * there is no such row or column.
   */
  function CellAt(ctx: Ctx, off: int, col: string): Option<Cell>
  {
    if off == 0 then (if col in ctx.row then Some(ctx.row[col]) else None)
    else if ctx.data.Some? && 0 <= ctx.pos + off < |ctx.data.value| then
      var r := ctx.data.value[ctx.pos + off];
      if col in r then Some(r[col]) else None
    else None
  }

  /** `_repl` of the base-field pass: `str(float(val))`, 0 where nothing is found. */
  function BaseText(ctx: Ctx, show: Show, col: string, off: string): string
  {
    match CellAt(ctx, SignedValue(off), col)
    case None => show(0.0)
    case Some(c) => CellText(c, show)
  }

  function MlBaseRep(ctx: Ctx, show: Show): string -> string -> string
  {
    col => off => BaseText(ctx, show, col, off)
  }

  /**
   * `Field(o)` at position `i` of the text is replaced by the value of the
   * row at offset `o`: the current row for `o` = 0, the row `pos + o` of
   * `data_df` when that index exists, and 0 otherwise.
   */
  lemma MlBaseReads(fld: string, col: string, ctx: Ctx, show: Show, s: string, i: nat, o: string)
    requires i < |s| && At(fld + "(" + o + ")", s, i) && SignedDigits(o)
    ensures var m := BaseMatcher(fld, MlBaseRep(ctx, show)(col));
      var off := SignedValue(o);
      var data := ctx.data;
      SubFrom(m, s, i) == BaseText(ctx, show, col, o) + SubFrom(m, s, i + |fld| + 2 + |o|)
      && (off == 0 ==> BaseText(ctx, show, col, o) == GetText(ctx.row, col, show))
      && (off != 0 && data.Some? && 0 <= ctx.pos + off < |data.value| ==>
            BaseText(ctx, show, col, o) == GetText(data.value[ctx.pos + off], col, show))
      && (off != 0 && !(data.Some? && 0 <= ctx.pos + off < |data.value|) ==>
            BaseText(ctx, show, col, o) == show(0.0))
  {
    var rep := MlBaseRep(ctx, show)(col);
    BaseReadsRep(fld, rep, s, i, o);
    assert rep(o) == BaseText(ctx, show, col, o);
  }

  // ------------------------------------------------------------ indicator calls

  /** `ind_patterns` of this engine, in its order. */
  const MlIndKeys: seq<string> :=
    ["EMA", "RSI", "ATR", "MFI", "ADX", "MACD_line", "MACD_signal", "MACD_hist",
     "StochK", "StochD", "BB_upper", "BB_lower", "BB_mid",
     "BandWidth20", "BandWidth20_min20", "Vol_MA20", "ATR_14_MA20", "BuyQty_5m", "SellQty_5m",
     "VWAP", "Strength", "Tenkan", "Kijun", "SpanA", "SpanB", "Chikou",
     "DI_plus", "DI_minus", "PSAR",
     "MaxHigh5", "MaxHigh20", "MaxHigh60", "MaxHigh120",
     "MinLow5", "MinLow20", "MinLow60", "MinLow120"]

  /** Length of the run of characters other than `(` and `)` at `i`, what a greedy `[^()]*` takes. */
  function ArgRun(s: string, i: nat): (r: nat)
    requires i <= |s|
    ensures i + r <= |s|
    ensures forall k :: i <= k < i + r ==> s[k] != '(' && s[k] != ')'
    ensures i + r == |s| || s[i + r] == '(' || s[i + r] == ')'
    decreases |s| - i
  {
    if i < |s| && s[i] != '(' && s[i] != ')' then 1 + ArgRun(s, i + 1) else 0
  }

  /** One match of `key\(([^()]*)\)`: it starts at `start`, and its argument text of `len` characters at `open`. */
  datatype Call = Call(start: nat, open: nat, len: nat)

  function CallEnd(c: Call): nat { c.open + c.len + 1 }

  predicate CallIn(s: string, c: Call) { c.start < c.open && CallEnd(c) <= |s| }

  /** `m.group(0)`. */
  function CallText(s: string, c: Call): string
    requires CallIn(s, c)
  {
    s[c.start..CallEnd(c)]
  }

  /** `m.group(1)`. */
  function CallArgs(s: string, c: Call): string
    requires CallIn(s, c)
  {
    s[c.open..c.open + c.len]
  }

  /** The match of the call pattern starting at `i`, if any. */
  function CallAt(key: string, s: string, i: nat): (r: Option<Call>)
    ensures r.Some? ==> r.value.start == i && CallIn(s, r.value)
  {
    if !At(key + "(", s, i) then None
    else
      var j := i + |key| + 1;
      var n := ArgRun(s, j);
      if j + n < |s| && s[j + n] == ')' then Some(Call(i, j, n)) else None
  }

  /** `re.finditer` of the call pattern: leftmost, non-overlapping, left to right. */
  function Calls(key: string, s: string, i: nat): (r: seq<Call>)
    ensures forall k :: 0 <= k < |r| ==> CallIn(s, r[k])
    decreases |s| - i
  {
    if i >= |s| then []
    else match CallAt(key, s, i)
      case Some(c) => [c] + Calls(key, s, CallEnd(c))
      case None => Calls(key, s, i + 1)
  }

  /** The text after the first comma (`split(',')[1:]` joined back). */
  function AfterComma(g: string): string
    requires ',' in g
  {
    g[|BeforeFirst(g, ',')| + 1..]
  }

  /** `params[0]`: the stripped text before the first comma. */
  function Period(g: string): string { Strip(BeforeFirst(g, ',')) }

  /** The offset of a call: `int(params[1])` when there is a second parameter matching `-?\d+`, else 0. */
  function CallOffset(g: string): int
  {
    if ',' in g then
      var p1 := Strip(BeforeFirst(AfterComma(g), ','));
      if SignedDigits(p1) then SignedValue(p1) else 0
    else 0
  }

  /** A single parameter means offset 0. */
  lemma OffsetWithoutComma(g: string)
    requires ',' !in g
    ensures CallOffset(g) == 0 && BeforeFirst(g, ',') == g
  {
    BeforeFirstNoSep(g, ',');
  }

  /** `p,o` with an integer `o` has offset `int(o)`; with anything else there the offset is 0. */
  lemma OffsetOfSecond(p: string, o: string)
    requires ',' !in p && ',' !in o
    ensures SignedDigits(Strip(o)) ==> CallOffset(p + "," + o) == SignedValue(Strip(o))
    ensures !SignedDigits(Strip(o)) ==> CallOffset(p + "," + o) == 0
    ensures Period(p + "," + o) == Strip(p)
  {
    var g := p + "," + o;
    BeforeFirstNoSep(p, ',');
    BeforeFirstNoSep(o, ',');
    BeforeFirstSplit(p, o);
    assert ',' in g by { assert g[|p|] == ','; }
    assert AfterComma(g) == o by { assert g[|p| + 1..] == o; }
  }

  /** The text before the first comma of `p,o` is `p`. */
  lemma {:induction false} BeforeFirstSplit(p: string, o: string)
    requires ',' !in p
    ensures BeforeFirst(p + "," + o, ',') == p
    decreases |p|
  {
    if p != [] {
      BeforeFirstSplit(p[1..], o);
      assert (p + "," + o)[1..] == p[1..] + "," + o;
    }
  }

  /** The text a call becomes: "0" for a missing row or column or NaN, else the value. */
  function CellValueText(c: Option<Cell>, show: Show): string
  {
    if c.None? || c.value.NaN? then "0" else show(c.value.v)
  }

  function CallRep(key: string, ctx: Ctx, show: Show, s: string, c: Call): string
    requires CallIn(s, c)
  {
    var g := CallArgs(s, c);
    CellValueText(CellAt(ctx, CallOffset(g), SignalEngine.IndColumn(key, Period(g))), show)
  }

  /** A call renders the cell of its column at its offset; a missing or NaN value renders "0". */
  lemma CallRepReads(key: string, ctx: Ctx, show: Show, s: string, c: Call)
    requires CallIn(s, c)
    ensures var g := CallArgs(s, c); var cell := CellAt(ctx, CallOffset(g), SignalEngine.IndColumn(key, Period(g)));
      (cell.None? || cell.value.NaN? ==> CallRep(key, ctx, show, s, c) == "0")
      && (cell.Some? && cell.value.Num? ==> CallRep(key, ctx, show, s, c) == show(cell.value.v))
  {
  }

  /** `expr = re.sub(re.escape(m.group(0)), replacement_val, expr)` for each call in turn. */
  function ReplaceCalls(expr: string, key: string, s: string, calls: seq<Call>, ctx: Ctx, show: Show): string
    requires forall k :: 0 <= k < |calls| ==> CallIn(s, calls[k])
    decreases |calls|
  {
    if calls == [] then expr
    else ReplaceCalls(Replace(expr, CallText(s, calls[0]), CallRep(key, ctx, show, s, calls[0])), key, s, calls[1..], ctx, show)
  }

  // ------------------------------------------------------------ plain keys

  /** The value of a plain key; SellQty_5m is guarded against division by zero. */
  function PlainText(key: string, c: Cell, show: Show): string
  {
    if key == "SellQty_5m" then
      var v := if c.NaN? then "0" else show(c.v);
      "(" + v + " if " + v + " != 0 else 1e-8)"
    else if c.NaN? then "0" else show(c.v)
  }

  /** A NaN or zero SellQty_5m becomes the guard `(z if z != 0 else 1e-8)`, which is 1e-8. */
  lemma SellQtyGuard(c: Cell, show: Show)
    requires c.NaN? || c.v == 0.0
    ensures var z := if c.NaN? then "0" else show(0.0);
      PlainText("SellQty_5m", c, show) == "(" + z + " if " + z + " != 0 else 1e-8)"
  {
  }

  /** A plain key is replaced at word boundaries only: an occurrence inside a longer name is left alone. */
  lemma PlainNeedsBoundary(key: string, rep: string, s: string)
    requires forall i :: 0 <= i < |s| ==> !BoundedAt(key, s, i)
    ensures Sub(WordMatcher(key, rep), s) == s
  {
    SubFromNoMatch(WordMatcher(key, rep), s, 0);
  }

  /** A bounded occurrence is replaced, with the text before it unchanged. */
  lemma PlainAtBoundary(key: string, rep: string, s: string, i: nat)
    requires key != [] && i < |s| && BoundedAt(key, s, i)
    requires forall k :: 0 <= k < i ==> !BoundedAt(key, s, k)
    ensures Sub(WordMatcher(key, rep), s) == s[..i] + rep + SubFrom(WordMatcher(key, rep), s, i + |key|)
  {
    var m := WordMatcher(key, rep);
    StepReplaces(m, s, i);
    SubAtLeftmost(m, s, i, rep, SubFrom(m, s, i + |key|));
  }

  // ------------------------------------------------------------ eval_formula

  /** One iteration of the loop over `ind_patterns`: calls first, then the plain key when the row has it. */
  function KeyStep(key: string, expr: string, ctx: Ctx, show: Show): string
  {
    if !Contains(expr, key) then expr
    else
      var e1 := if Contains(expr, key + "(") then ReplaceCalls(expr, key, expr, Calls(key, expr, 0), ctx, show) else expr;
      if key in ctx.row then Sub(WordMatcher(key, PlainText(key, ctx.row[key], show)), e1) else e1
  }

  function KeysPass(keys: seq<string>, expr: string, ctx: Ctx, show: Show): string
    decreases |keys|
  {
    if keys == [] then expr else KeysPass(keys[1..], KeyStep(keys[0], expr, ctx, show), ctx, show)
  }

  /** `Entry`/`EntryPrice` when the formula mentions `Entry`, and `Peak` when it mentions `Peak`; each defaults to 0. */
  function ArgReplacements(formula: string, ctx: Ctx, show: Show): seq<(string, string)>
  {
    var entry := show(if ctx.entry.Some? then ctx.entry.value else 0.0);
    var peak := show(if ctx.peak.Some? then ctx.peak.value else 0.0);
    (if Contains(formula, "Entry") || Contains(formula, "EntryPrice") then [("EntryPrice", entry), ("Entry", entry)] else [])
      + (if Contains(formula, "Peak") then [("Peak", peak)] else [])
  }

  /** `Entry` and `Peak` take the arguments, or 0 when they are absent; unmentioned ones are not replaced. */
  lemma ArgReplacementsOf(formula: string, ctx: Ctx, show: Show)
    ensures var r := ArgReplacements(formula, ctx, show);
      var entry := show(if ctx.entry.Some? then ctx.entry.value else 0.0);
      var peak := show(if ctx.peak.Some? then ctx.peak.value else 0.0);
      (Contains(formula, "Entry") ==> ("EntryPrice", entry) in r && ("Entry", entry) in r)
      && (Contains(formula, "Peak") ==> ("Peak", peak) in r)
      && (!Contains(formula, "Entry") && !Contains(formula, "EntryPrice") && !Contains(formula, "Peak") ==> r == [])
      && (forall k :: 0 <= k < |r| ==> r[k].0 in {"EntryPrice", "Entry", "Peak"})
  {
  }

  /** The expression handed to `eval`, or None where building `replacements` raises KeyError. */
  function Substituted(formula: string, ctx: Ctx, show: Show): Option<string>
  {
    var expr := BasePass(Normalise(formula), BaseFields, MlBaseRep(ctx, show));
    if !HasBaseColumns(ctx.row) then None
    else
      var e := KeysPass(MlIndKeys, expr, ctx, show);
      Some(Symbols(ReplaceAll(e, BaseReplacements(ctx.row, show) + ArgReplacements(formula, ctx, show))))
  }

  /** `eval_formula`: None where it raises, else the truth of the evaluated expression. */
  function EvalFormula(formula: string, ctx: Ctx, show: Show, evaluate: Evaluate): Option<bool>
  {
    match Substituted(formula, ctx, show)
    case None => None
    case Some(e) => Some(Truth(evaluate, e))
  }

  /** The current row lacking a base column raises KeyError; otherwise an expression `eval` rejects is false. */
  lemma EvalOutcomes(formula: string, ctx: Ctx, show: Show, evaluate: Evaluate)
    ensures EvalFormula(formula, ctx, show, evaluate).None? <==> !HasBaseColumns(ctx.row)
    ensures var e := Substituted(formula, ctx, show);
      e.Some? && evaluate(e.value) == None ==> EvalFormula(formula, ctx, show, evaluate) == Some(false)
  {
    SubstitutedRaises(formula, ctx, show);
    var e := Substituted(formula, ctx, show);
    if e.Some? {
      EvalOfSome(formula, ctx, show, evaluate, e.value);
    }
  }

  lemma SubstitutedRaises(formula: string, ctx: Ctx, show: Show)
    ensures Substituted(formula, ctx, show).None? <==> !HasBaseColumns(ctx.row)
  {
  }

  lemma EvalOfSome(formula: string, ctx: Ctx, show: Show, evaluate: Evaluate, e: string)
    requires Substituted(formula, ctx, show) == Some(e)
    ensures EvalFormula(formula, ctx, show, evaluate) == Some(Truth(evaluate, e))
  {
  }

  // ------------------------------------------------------------ eval_formula, step by step

  /** The loop over the finditer matches of one key. */
  method RunReplaceCalls(expr0: string, key: string, s: string, calls: seq<Call>, ctx: Ctx, show: Show)
    returns (expr: string)
    requires forall k :: 0 <= k < |calls| ==> CallIn(s, calls[k])
    ensures expr == ReplaceCalls(expr0, key, s, calls, ctx, show)
  {
    expr := expr0;
    var h := 0;
    while h < |calls|
      invariant 0 <= h <= |calls|
      invariant ReplaceCalls(expr0, key, s, calls, ctx, show) == ReplaceCalls(expr, key, s, calls[h..], ctx, show)
    {
      assert calls[h..][1..] == calls[h + 1..];
      expr := Replace(expr, CallText(s, calls[h]), CallRep(key, ctx, show, s, calls[h]));
      h := h + 1;
    }
    assert calls[h..] == [];
  }

  /** The loop over `ind_patterns`. */
  method RunKeysPass(keys: seq<string>, expr0: string, ctx: Ctx, show: Show) returns (expr: string)
    ensures expr == KeysPass(keys, expr0, ctx, show)
  {
    expr := expr0;
    var i := 0;
    while i < |keys|
      invariant 0 <= i <= |keys|
      invariant KeysPass(keys, expr0, ctx, show) == KeysPass(keys[i..], expr, ctx, show)
    {
      assert keys[i..][1..] == keys[i + 1..];
      var key := keys[i];
      if Contains(expr, key) {
        if Contains(expr, key + "(") {
          expr := RunReplaceCalls(expr, key, expr, Calls(key, expr, 0), ctx, show);
        }
        if key in ctx.row {
          expr := Sub(WordMatcher(key, PlainText(key, ctx.row[key], show)), expr);
        }
      }
      i := i + 1;
    }
    assert keys[i..] == [];
  }

  /** `eval_formula`, its passes run as loops. */
  method RunEvalFormula(formula: string, ctx: Ctx, show: Show, evaluate: Evaluate) returns (r: Option<bool>)
    ensures r == EvalFormula(formula, ctx, show, evaluate)
  {
    var expr := SignalEngine.RunBasePass(Normalise(formula), BaseFields, MlBaseRep(ctx, show));
    if !HasBaseColumns(ctx.row) {
      return None;
    }
    expr := RunKeysPass(MlIndKeys, expr, ctx, show);
    expr := SignalEngine.RunReplaceAll(expr, BaseReplacements(ctx.row, show) + ArgReplacements(formula, ctx, show));
    r := Some(Truth(evaluate, Symbols(expr)));
  }
}
