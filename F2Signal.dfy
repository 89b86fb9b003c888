/**
 * The strategy scan of `f2_signal` (`f2_signal/signal_engine.py`): both
 * frames are sorted by time, a partial last candle is dropped (a 1-minute
 * candle younger than 60 s, a 5-minute one younger than 300 s), the latest
 * 5-minute candle is paired with the last 1-minute candle of the same
 * timestamp, and every enabled strategy's formulas are evaluated on those
 * two rows.
 *
 * The clock is the parameter `now` (seconds); timestamps are seconds. As
 * written, line 76 raises before any of this (`EngineAsWritten`); `Engine`
 * reads the clock as intended. The indicator columns the engine adds to the
 * frames (lines 101-255) are already in each candle's row. The strategy list and the settings file
 * are parameters. Formulas are evaluated by `EvalFormula`, with the key check
 * on the raw formula as written and on the normalised expression corrected
 * (see `SignalEngine.KeyCheckOnExprReadsAverage`).
 */
module F2Signal {
  import opened Common
  import opened Formulas
  import opened SignalEngine

  // ------------------------------------------------------------ frames

  /** One candle: its timestamp and the row of columns it carries. */
  datatype Candle = Candle(ts: real, row: Row)

  function CandleTs(c: Candle): real { c.ts }

  /** `df.sort_values(by="timestamp")`. */
  function SortFrame(frame: seq<Candle>): seq<Candle> { SortBy(frame, CandleTs) }

  /** Drops the last candle when it is younger than `span` seconds. */
  function DropPartial(frame: seq<Candle>, now: real, span: real): (r: seq<Candle>)
  {
    if frame != [] && now - frame[|frame| - 1].ts < span then frame[..|frame| - 1] else frame
  }

  /** Only a fresh last candle is dropped, and nothing else changes. */
  lemma DropPartialDropsFreshLast(frame: seq<Candle>, now: real, span: real)
    ensures var r := DropPartial(frame, now, span);
      (|r| < |frame| <==> frame != [] && now - frame[|frame| - 1].ts < span)
      && (|r| < |frame| ==> |r| == |frame| - 1)
      && (forall i :: 0 <= i < |r| ==> r[i] == frame[i])
      && |r| <= |frame|
  {
  }

  /** The position of the last candle stamped `ts` (`df1[df1["timestamp"] == ts].iloc[-1]`). */
  function LastAt(frame: seq<Candle>, ts: real): (r: Option<nat>)
    ensures r.Some? ==> r.value < |frame| && frame[r.value].ts == ts
    ensures r.Some? ==> forall j :: r.value < j < |frame| ==> frame[j].ts != ts
    ensures r.None? ==> forall j :: 0 <= j < |frame| ==> frame[j].ts != ts
    decreases |frame|
  {
    if frame == [] then None
    else if frame[|frame| - 1].ts == ts then Some(|frame| - 1)
    else LastAt(frame[..|frame| - 1], ts)
  }

  // ------------------------------------------------------------ strategies and settings

  /**
   * One entry of the strategy list: its code and, when the key is present,
   * its formula levels and single formulas.
   */
  datatype Strat = Strat(code: string, buyLevels: Option<seq<string>>, buyFormula: Option<string>,
                         sellLevels: Option<seq<string>>, sellFormula: Option<string>)

  /** One entry of the settings file. */
  type Setting = map<string, Json>

  /** `STRATEGY_SETTINGS.get(code, {"on": True, "order": 999})`. */
  function SettingFor(settings: map<string, Setting>, code: string): Setting
  {
    if code in settings then settings[code] else map["on" := JBool(true), "order" := JNum(999.0)]
  }

  /** `settings.get("on", True)` is truthy. */
  predicate IsOn(s: Setting) { Truthy(Get(s, "on", JBool(true))) }

  /** `settings.get("order", 999)` as a sort key; a value that is not a number counts as 999. */
  function OrderOf(s: Setting): real
  {
    match Get(s, "order", JNum(999.0))
    case JNum(n) => n
    case JBool(b) => if b then 1.0 else 0.0
    case _ => 999.0
  }

  /** A strategy without settings is on, with order 999. */
  lemma MissingSettingsDefault(settings: map<string, Setting>, code: string)
    requires code !in settings
    ensures IsOn(SettingFor(settings, code)) && OrderOf(SettingFor(settings, code)) == 999.0
  {
  }

  /** `{s["short_code"]: s for s in _settings}`: a later entry for a code replaces an earlier one. */
  function SettingsOf(entries: seq<(string, Setting)>): (m: map<string, Setting>)
    decreases |entries|
  {
    if entries == [] then map[]
    else SettingsOf(entries[..|entries| - 1])[entries[|entries| - 1].0 := entries[|entries| - 1].1]
  }

  /** A code maps to the setting of its last entry; codes without an entry are absent. */
  lemma {:induction false} SettingsOfLastWins(entries: seq<(string, Setting)>, code: string)
    ensures code in SettingsOf(entries) <==> exists i :: 0 <= i < |entries| && entries[i].0 == code
    ensures forall i :: (0 <= i < |entries| && entries[i].0 == code
      && (forall j :: i < j < |entries| ==> entries[j].0 != code)) ==> SettingsOf(entries)[code] == entries[i].1
    decreases |entries|
  {
    if entries != [] {
      var init := entries[..|entries| - 1];
      SettingsOfLastWins(init, code);
      assert forall i :: 0 <= i < |init| ==> init[i] == entries[i];
      if entries[|entries| - 1].0 != code {
        if exists i :: 0 <= i < |entries| && entries[i].0 == code {
          var i :| 0 <= i < |entries| && entries[i].0 == code;
          assert init[i].0 == code;
        }
      }
    }
  }

  /** The default setting of the strategy at position `i`. */
  function DefaultSetting(code: string, i: nat): Setting
  {
    map["short_code" := JText(code, None), "on" := JBool(true), "order" := JNum((i + 1) as real)]
  }

  /** The defaults when the settings file is missing: every strategy on, in list order from 1. */
  function DefaultEntries(strats: seq<Strat>): (r: seq<(string, Setting)>)
    ensures |r| == |strats|
    ensures forall i :: 0 <= i < |strats| ==> r[i] == (strats[i].code, DefaultSetting(strats[i].code, i))
  {
    if strats == [] then []
    else
      var n := |strats| - 1;
      DefaultEntries(strats[..n]) + [(strats[n].code, DefaultSetting(strats[n].code, n))]
  }

  /** A default setting is on, with order its position plus one. */
  lemma DefaultSettingOrder(code: string, i: nat)
    ensures IsOn(DefaultSetting(code, i)) && OrderOf(DefaultSetting(code, i)) == (i + 1) as real
  {
    var e := DefaultSetting(code, i);
    assert "on" in e && e["on"] == JBool(true);
    assert "order" in e && e["order"] == JNum((i + 1) as real);
  }

  /** Without a settings file, a strategy with a code of its own is on with order its position plus one. */
  lemma DefaultOrders(strats: seq<Strat>, i: nat)
    requires i < |strats| && forall j :: 0 <= j < |strats| && j != i ==> strats[j].code != strats[i].code
    ensures IsOn(SettingFor(SettingsOf(DefaultEntries(strats)), strats[i].code))
    ensures OrderOf(SettingFor(SettingsOf(DefaultEntries(strats)), strats[i].code)) == (i + 1) as real
  {
    var es := DefaultEntries(strats);
    var code := strats[i].code;
    SettingsOfLastWins(es, code);
    assert SettingsOf(es)[code] == DefaultSetting(code, i);
    DefaultSettingOrder(code, i);
  }

  // ------------------------------------------------------------ one strategy

  /** Which formula a strategy offers: none, the chosen one, or an empty levels list (IndexError). */
  datatype Pick = NoFormula | Picked(formula: string) | EmptyLevels

  /** `levels[0]` when the levels key is present, else the single formula when present. */
  function PickFormula(levels: Option<seq<string>>, formula: Option<string>): (p: Pick)
    ensures levels.Some? && levels.value != [] ==> p == Picked(levels.value[0])
    ensures levels == Some([]) <==> p.EmptyLevels?
    ensures levels.None? ==> (p.NoFormula? <==> formula.None?) && (formula.Some? ==> p == Picked(formula.value))
  {
    if levels.Some? then (if levels.value == [] then EmptyLevels else Picked(levels.value[0]))
    else if formula.Some? then Picked(formula.value)
    else NoFormula
  }

  /** What one iteration of the strategy loop does. */
  datatype Outcome = Skips | Raises | Evaluates(buy: bool, sell: bool, buyFormula: string, sellFormula: string)

  /**
   * A formula holds on a row; `eval_formula` raising counts as false, as the
   * scan catches it. `check` says where the key check looks: `OnFormula` as
   * written, `OnExpr` corrected.
   */
  predicate Holds(check: KeyCheck, formula: string, row: Row, show: Show, evaluate: Evaluate)
  {
    EvalFormula(check, formula, row, show, evaluate) == Some(true)
  }

  /** Whether a formula holds on a row: what the scan asks of `eval_formula`. */
  type Test = (string, Row) -> bool

  function FormulaTest(check: KeyCheck, show: Show, evaluate: Evaluate): Test
  {
    (formula: string, row: Row) => Holds(check, formula, row, show, evaluate)
  }

  function StratStep(st: Strat, settings: map<string, Setting>, r1: Row, r5: Row, holds: Test): Outcome
  {
    if !IsOn(SettingFor(settings, st.code)) then Skips
    else
      var b := PickFormula(st.buyLevels, st.buyFormula);
      if b.EmptyLevels? then Raises
      else
        var s := PickFormula(st.sellLevels, st.sellFormula);
        if s.EmptyLevels? then Raises
        else if b.NoFormula? || s.NoFormula? then Skips
        else Evaluates(holds(b.formula, r1) && holds(b.formula, r5),
                       holds(s.formula, r1), b.formula, s.formula)
  }

  /** A strategy whose setting is off is skipped. */
  lemma OffIsSkipped(st: Strat, settings: map<string, Setting>, r1: Row, r5: Row, holds: Test)
    requires st.code in settings && "on" in settings[st.code] && !Truthy(settings[st.code]["on"])
    ensures StratStep(st, settings, r1, r5, holds) == Skips
  {
  }

  /** A strategy lacking a buy or a sell formula is skipped, unless a levels list is empty. */
  lemma MissingFormulaIsSkipped(st: Strat, settings: map<string, Setting>, r1: Row, r5: Row, holds: Test)
    requires st.buyLevels != Some([]) && st.sellLevels != Some([])
    requires (st.buyLevels.None? && st.buyFormula.None?) || (st.sellLevels.None? && st.sellFormula.None?)
    ensures StratStep(st, settings, r1, r5, holds) == Skips
  {
  }

  /** An enabled strategy with non-empty levels is evaluated on their first entries, whatever its single formulas are. */
  lemma LevelsPreferred(st: Strat, settings: map<string, Setting>, r1: Row, r5: Row, holds: Test)
    requires IsOn(SettingFor(settings, st.code))
    requires st.buyLevels.Some? && st.buyLevels.value != [] && st.sellLevels.Some? && st.sellLevels.value != []
    ensures var o := StratStep(st, settings, r1, r5, holds);
      o.Evaluates? && o.buyFormula == st.buyLevels.value[0] && o.sellFormula == st.sellLevels.value[0]
  {
  }

  /** A buy needs its formula on both rows; a sell reads the 1-minute row only. */
  lemma BuyNeedsBothRows(st: Strat, settings: map<string, Setting>, r1: Row, r5: Row, r5b: Row, holds: Test)
    requires StratStep(st, settings, r1, r5, holds).Evaluates?
    ensures var o := StratStep(st, settings, r1, r5, holds);
      (o.buy <==> holds(o.buyFormula, r1) && holds(o.buyFormula, r5))
      && (o.sell <==> holds(o.sellFormula, r1))
      && StratStep(st, settings, r1, r5b, holds).Evaluates?
      && StratStep(st, settings, r1, r5b, holds).sell == o.sell
  {
  }

  /** A row lacking a price column makes every formula false on it: the KeyError is caught. */
  lemma MissingColumnNeverHolds(check: KeyCheck, formula: string, row: Row, show: Show, evaluate: Evaluate)
    requires !HasBaseColumns(row)
    ensures !FormulaTest(check, show, evaluate)(formula, row)
  {
    EvalRaisesIffMissingColumn(check, formula, row, show, evaluate);
  }

  // ------------------------------------------------------------ the scan

  /** An entry of `triggered_buys`. */
  datatype Trigger = Trigger(code: string, formula: string, order: real)

  function TriggerOrder(t: Trigger): real { t.order }

  /** `triggered_buys` and `triggered_sells` (by code) so far. */
  datatype Tally = Tally(buys: seq<Trigger>, sells: seq<string>)

  /** The strategy loop from tally `t` onward; None where an empty levels list raises IndexError. */
  function ScanFrom(t: Tally, strats: seq<Strat>, settings: map<string, Setting>, r1: Row, r5: Row,
                    holds: Test): Option<Tally>
    decreases |strats|
  {
    if strats == [] then Some(t)
    else
      var st := strats[0];
      match StratStep(st, settings, r1, r5, holds)
      case Raises => None
      case Skips => ScanFrom(t, strats[1..], settings, r1, r5, holds)
      case Evaluates(b, s, bf, sf) =>
        var t' := Tally(t.buys + (if b then [Trigger(st.code, bf, OrderOf(SettingFor(settings, st.code)))] else []),
                        t.sells + (if s then [st.code] else []));
        ScanFrom(t', strats[1..], settings, r1, r5, holds)
  }

  /** The buy trigger a strategy adds, as a one-element or empty list. */
  function BuyOf(st: Strat, settings: map<string, Setting>, r1: Row, r5: Row, holds: Test): seq<Trigger>
  {
    var o := StratStep(st, settings, r1, r5, holds);
    if o.Evaluates? && o.buy then [Trigger(st.code, o.buyFormula, OrderOf(SettingFor(settings, st.code)))] else []
  }

  /** The sell code a strategy adds. */
  function SellOf(st: Strat, settings: map<string, Setting>, r1: Row, r5: Row, holds: Test): seq<string>
  {
    var o := StratStep(st, settings, r1, r5, holds);
    if o.Evaluates? && o.sell then [st.code] else []
  }

  /** Every buy trigger of the list, in list order: the reference the scan is measured against. */
  function AllBuys(strats: seq<Strat>, settings: map<string, Setting>, r1: Row, r5: Row, holds: Test): seq<Trigger>
    decreases |strats|
  {
    if strats == [] then [] else BuyOf(strats[0], settings, r1, r5, holds) + AllBuys(strats[1..], settings, r1, r5, holds)
  }

  function AllSells(strats: seq<Strat>, settings: map<string, Setting>, r1: Row, r5: Row, holds: Test): seq<string>
    decreases |strats|
  {
    if strats == [] then [] else SellOf(strats[0], settings, r1, r5, holds) + AllSells(strats[1..], settings, r1, r5, holds)
  }

  predicate Raising(st: Strat, settings: map<string, Setting>, r1: Row, r5: Row, holds: Test)
  {
    StratStep(st, settings, r1, r5, holds).Raises?
  }

  /**
   * The scan raises exactly when some enabled strategy has an empty levels
   * list; otherwise it appends every strategy's buy and sell, in list order.
   */
  lemma ScanCollects(t: Tally, strats: seq<Strat>, settings: map<string, Setting>, r1: Row, r5: Row, holds: Test)
    ensures ScanFrom(t, strats, settings, r1, r5, holds).None?
      <==> exists i :: 0 <= i < |strats| && Raising(strats[i], settings, r1, r5, holds)
    ensures ScanFrom(t, strats, settings, r1, r5, holds).Some? ==>
      ScanFrom(t, strats, settings, r1, r5, holds).value
        == Tally(t.buys + AllBuys(strats, settings, r1, r5, holds), t.sells + AllSells(strats, settings, r1, r5, holds))
  {
    ScanRaises(t, strats, settings, r1, r5, holds);
    ScanAppends(t, strats, settings, r1, r5, holds);
  }

  /** The raising half of `ScanCollects`. */
  lemma {:induction false} ScanRaises(t: Tally, strats: seq<Strat>, settings: map<string, Setting>, r1: Row, r5: Row,
                                      holds: Test)
    ensures ScanFrom(t, strats, settings, r1, r5, holds).None?
      <==> exists i :: 0 <= i < |strats| && Raising(strats[i], settings, r1, r5, holds)
    decreases |strats|
  {
    if strats != [] {
      RaisingShift(strats, settings, r1, r5, holds);
      if !Raising(strats[0], settings, r1, r5, holds) {
        ScanStep(t, strats, settings, r1, r5, holds);
        ScanRaises(Tally(t.buys + BuyOf(strats[0], settings, r1, r5, holds),
                         t.sells + SellOf(strats[0], settings, r1, r5, holds)),
                   strats[1..], settings, r1, r5, holds);
      }
    }
  }

  /** The collecting half of `ScanCollects`. */
  lemma {:induction false} ScanAppends(t: Tally, strats: seq<Strat>, settings: map<string, Setting>, r1: Row, r5: Row,
                                       holds: Test)
    ensures ScanFrom(t, strats, settings, r1, r5, holds).Some? ==>
      ScanFrom(t, strats, settings, r1, r5, holds).value
        == Tally(t.buys + AllBuys(strats, settings, r1, r5, holds), t.sells + AllSells(strats, settings, r1, r5, holds))
    decreases |strats|
  {
    if strats == [] {
      assert t.buys + [] == t.buys && t.sells + [] == t.sells;
    } else if !Raising(strats[0], settings, r1, r5, holds) {
      var rest := strats[1..];
      var b := BuyOf(strats[0], settings, r1, r5, holds);
      var s := SellOf(strats[0], settings, r1, r5, holds);
      var t' := Tally(t.buys + b, t.sells + s);
      ScanAppends(t', rest, settings, r1, r5, holds);
      ScanStep(t, strats, settings, r1, r5, holds);
      assert AllBuys(strats, settings, r1, r5, holds) == b + AllBuys(rest, settings, r1, r5, holds);
      assert AllSells(strats, settings, r1, r5, holds) == s + AllSells(rest, settings, r1, r5, holds);
      assert t.buys + (b + AllBuys(rest, settings, r1, r5, holds)) == t'.buys + AllBuys(rest, settings, r1, r5, holds);
      assert t.sells + (s + AllSells(rest, settings, r1, r5, holds)) == t'.sells + AllSells(rest, settings, r1, r5, holds);
    } else {
      assert ScanFrom(t, strats, settings, r1, r5, holds) == None;
    }
  }

  /** Some strategy of a non-empty list raises iff the first does or one of the rest does. */
  lemma RaisingShift(strats: seq<Strat>, settings: map<string, Setting>, r1: Row, r5: Row, holds: Test)
    requires strats != []
    ensures (exists i :: 0 <= i < |strats| && Raising(strats[i], settings, r1, r5, holds))
      <==> (Raising(strats[0], settings, r1, r5, holds)
             || exists i :: 0 <= i < |strats[1..]| && Raising(strats[1..][i], settings, r1, r5, holds))
  {
    var rest := strats[1..];
    if exists i :: 0 <= i < |strats| && Raising(strats[i], settings, r1, r5, holds) {
      var i :| 0 <= i < |strats| && Raising(strats[i], settings, r1, r5, holds);
      if i > 0 {
        assert rest[i - 1] == strats[i];
      }
    }
    if exists i :: 0 <= i < |rest| && Raising(rest[i], settings, r1, r5, holds) {
      var i :| 0 <= i < |rest| && Raising(rest[i], settings, r1, r5, holds);
      assert strats[i + 1] == rest[i];
    }
  }

  /** One strategy that does not raise adds its buy and its sell. */
  lemma ScanStep(t: Tally, strats: seq<Strat>, settings: map<string, Setting>, r1: Row, r5: Row, holds: Test)
    requires strats != [] && !Raising(strats[0], settings, r1, r5, holds)
    ensures ScanFrom(t, strats, settings, r1, r5, holds)
      == ScanFrom(Tally(t.buys + BuyOf(strats[0], settings, r1, r5, holds),
                        t.sells + SellOf(strats[0], settings, r1, r5, holds)),
                  strats[1..], settings, r1, r5, holds)
  {
    if StratStep(strats[0], settings, r1, r5, holds).Skips? {
      assert t.buys + [] == t.buys && t.sells + [] == t.sells;
    }
  }

  /** A code is among the sells exactly when that strategy's sell fires. */
  lemma {:induction false} AllSellsIff(strats: seq<Strat>, settings: map<string, Setting>, r1: Row, r5: Row,
                                       holds: Test, code: string)
    ensures code in AllSells(strats, settings, r1, r5, holds) <==>
      exists i :: 0 <= i < |strats| && strats[i].code == code
        && StratStep(strats[i], settings, r1, r5, holds).Evaluates?
        && StratStep(strats[i], settings, r1, r5, holds).sell
    decreases |strats|
  {
    if strats != [] {
      var rest := strats[1..];
      AllSellsIff(rest, settings, r1, r5, holds, code);
      assert forall i :: 1 <= i < |strats| ==> strats[i] == rest[i - 1];
      if exists i :: (0 <= i < |strats| && strats[i].code == code
                      && StratStep(strats[i], settings, r1, r5, holds).Evaluates?
                      && StratStep(strats[i], settings, r1, r5, holds).sell) {
        var i :| 0 <= i < |strats| && strats[i].code == code
          && StratStep(strats[i], settings, r1, r5, holds).Evaluates?
          && StratStep(strats[i], settings, r1, r5, holds).sell;
        if i > 0 {
          assert rest[i - 1] == strats[i];
        }
      }
    }
  }

  /** Each buy trigger comes from a strategy of the list whose buy fired, with that strategy's order. */
  lemma {:induction false} AllBuysFrom(strats: seq<Strat>, settings: map<string, Setting>, r1: Row, r5: Row,
                                       holds: Test)
    ensures forall t :: t in AllBuys(strats, settings, r1, r5, holds) ==>
      exists i :: 0 <= i < |strats| && strats[i].code == t.code
        && StratStep(strats[i], settings, r1, r5, holds).Evaluates?
        && StratStep(strats[i], settings, r1, r5, holds).buy
        && t.order == OrderOf(SettingFor(settings, t.code))
    decreases |strats|
  {
    if strats != [] {
      var rest := strats[1..];
      AllBuysFrom(rest, settings, r1, r5, holds);
      forall t | t in AllBuys(strats, settings, r1, r5, holds)
        ensures exists i :: (0 <= i < |strats| && strats[i].code == t.code
                             && StratStep(strats[i], settings, r1, r5, holds).Evaluates?
                             && StratStep(strats[i], settings, r1, r5, holds).buy
                             && t.order == OrderOf(SettingFor(settings, t.code)))
      {
        if t in BuyOf(strats[0], settings, r1, r5, holds) {
          assert strats[0].code == t.code;
        } else {
          assert t in AllBuys(rest, settings, r1, r5, holds);
          var i :| 0 <= i < |rest| && rest[i].code == t.code
            && StratStep(rest[i], settings, r1, r5, holds).Evaluates?
            && StratStep(rest[i], settings, r1, r5, holds).buy
            && t.order == OrderOf(SettingFor(settings, t.code));
          assert strats[i + 1] == rest[i];
        }
      }
    }
  }

  // ------------------------------------------------------------ the result

  /** The dict `f2_signal` returns. */
  datatype Signal = Signal(symbol: string, buy: bool, sell: bool, buyTriggers: seq<string>, sellTriggers: seq<string>)

  function AllFalse(symbol: string): Signal { Signal(symbol, false, false, [], []) }

  /** `triggered_buys.sort(key=order)` and its first entry's code. */
  function TopBuy(buys: seq<Trigger>): (r: seq<string>)
    ensures buys == [] ==> r == []
    ensures buys != [] ==> |r| == 1
  {
    if buys == [] then [] else [SortBy(buys, TriggerOrder)[0].code]
  }

  /** The signal of a completed tally. */
  function SignalOf(symbol: string, t: Tally): Signal
  {
    Signal(symbol, t.buys != [], t.sells != [], TopBuy(t.buys), t.sells)
  }

  /** The two rows the strategies are evaluated on, or none when the data is insufficient. */
  datatype Latest = NoData | Latest(r1: Row, r5: Row)

  /**
   * Sorts both frames, drops partial candles, and pairs the latest 5-minute
   * candle with the last 1-minute candle of its timestamp.
   */
  function LatestRows(df1: seq<Candle>, df5: seq<Candle>, now: real): Latest
  {
    var f1 := DropPartial(SortFrame(df1), now, 60.0);
    var f5 := DropPartial(SortFrame(df5), now, 300.0);
    if f1 == [] || f5 == [] then NoData
    else
      match LastAt(f1, f5[|f5| - 1].ts)
      case None => NoData
      case Some(k) => Latest(f1[k].row, f5[|f5| - 1].row)
  }

  /** `f2_signal` for a formula test `holds`; None where it raises. */
  function F2Signal(df1: seq<Candle>, df5: seq<Candle>, symbol: string, now: real, strats: seq<Strat>,
                    settings: map<string, Setting>, holds: Test): Option<Signal>
  {
    match LatestRows(df1, df5, now)
    case NoData => Some(AllFalse(symbol))
    case Latest(r1, r5) =>
      match ScanFrom(Tally([], []), strats, settings, r1, r5, holds)
      case None => None
      case Some(t) => Some(SignalOf(symbol, t))
  }

  // ------------------------------------------------------------ the clock

  /** A pandas `Timestamp`: seconds, and whether it carries a time zone. */
  datatype Stamp = Stamp(secs: real, aware: bool)

  /** `pd.Timestamp.utcnow()`: the clock, already aware of UTC. */
  function UtcNow(clock: real): Stamp { Stamp(clock, true) }

  /** `Timestamp.tz_localize("UTC")`: None where it raises TypeError, as it does on an aware timestamp. */
  function TzLocalize(t: Stamp): Option<Stamp>
  {
    if t.aware then None else Some(Stamp(t.secs, true))
  }

  /** Only a naive timestamp can be localized, and localizing keeps its instant. */
  lemma TzLocalizeNaiveOnly(t: Stamp)
    ensures TzLocalize(t).Some? <==> !t.aware
    ensures TzLocalize(t).Some? ==> TzLocalize(t).value.secs == t.secs && TzLocalize(t).value.aware
  {
  }

  /**
   * `f2_signal` as written, with `eval_formula` as its test: line 76 reads
   * the clock as `utcnow().tz_localize("UTC")` before anything else, and the
   * key check looks in the raw formula. None where it raises.
   */
  function EngineAsWritten(df1: seq<Candle>, df5: seq<Candle>, symbol: string, clock: real, strats: seq<Strat>,
                           settings: map<string, Setting>, show: Show, evaluate: Evaluate): Option<Signal>
  {
    match TzLocalize(UtcNow(clock))
    case None => None
    case Some(now) => F2Signal(df1, df5, symbol, now.secs, strats, settings, FormulaTest(OnFormula, show, evaluate))
  }

  /** As written, `f2_signal` raises on every call: `utcnow()` is already aware, so `tz_localize` refuses it. */
  lemma AsWrittenAlwaysRaises(df1: seq<Candle>, df5: seq<Candle>, symbol: string, clock: real, strats: seq<Strat>,
                              settings: map<string, Setting>, show: Show, evaluate: Evaluate)
    ensures EngineAsWritten(df1, df5, symbol, clock, strats, settings, show, evaluate) == None
  {
    TzLocalizeNaiveOnly(UtcNow(clock));
  }

  /**
   * `f2_signal` corrected: `now` is the clock read as an aware UTC
   * timestamp (`pd.Timestamp.now(tz="UTC")`), and the keys are checked in
   * the normalised expression.
   */
  function Engine(df1: seq<Candle>, df5: seq<Candle>, symbol: string, clock: real, strats: seq<Strat>,
                  settings: map<string, Setting>, show: Show, evaluate: Evaluate): Option<Signal>
  {
    F2Signal(df1, df5, symbol, clock, strats, settings, FormulaTest(OnExpr, show, evaluate))
  }

  /**
   * Corrected, an empty frame, or none left after the partial candles are
   * dropped, gives the all-false result the tests expect where the program
   * as written raises.
   */
  lemma CorrectedClockAnswers(df1: seq<Candle>, df5: seq<Candle>, symbol: string, clock: real, strats: seq<Strat>,
                              settings: map<string, Setting>, show: Show, evaluate: Evaluate)
    requires df1 == [] || df5 == []
    ensures Engine(df1, df5, symbol, clock, strats, settings, show, evaluate) == Some(AllFalse(symbol))
    ensures EngineAsWritten(df1, df5, symbol, clock, strats, settings, show, evaluate) == None
  {
    AsWrittenAlwaysRaises(df1, df5, symbol, clock, strats, settings, show, evaluate);
    InsufficientDataIsAllFalse(df1, df5, symbol, clock, strats, settings, FormulaTest(OnExpr, show, evaluate));
  }

  /** `f2_signal`, its strategy loop run step by step. */
  method RunF2Signal(df1: seq<Candle>, df5: seq<Candle>, symbol: string, now: real, strats: seq<Strat>,
                     settings: map<string, Setting>, holds: Test) returns (r: Option<Signal>)
    ensures r == F2Signal(df1, df5, symbol, now, strats, settings, holds)
  {
    var rows := RunLatestRows(df1, df5, now);
    if rows.NoData? {
      return Some(AllFalse(symbol));
    }
    var tally := RunScan(strats, settings, rows.r1, rows.r5, holds);
    if tally.None? {
      return None;
    }
    var buySignal := tally.value.buys != [];
    var top: seq<string> := [];
    if buySignal {
      var sorted := SortBy(tally.value.buys, TriggerOrder);
      top := [sorted[0].code];
    }
    r := Some(Signal(symbol, buySignal, tally.value.sells != [], top, tally.value.sells));
  }

  /** The frame handling at the head of `f2_signal`. */
  method RunLatestRows(df1: seq<Candle>, df5: seq<Candle>, now: real) returns (rows: Latest)
    ensures rows == LatestRows(df1, df5, now)
  {
    var f1 := RunDropPartial(SortFrame(df1), now, 60.0);
    var f5 := RunDropPartial(SortFrame(df5), now, 300.0);
    LatestRowsOf(df1, df5, now, f1, f5);
    if f1 == [] || f5 == [] {
      return NoData;
    }
    var latest5 := f5[|f5| - 1];
    var m := LastAt(f1, latest5.ts);
    if m.None? {
      return NoData;
    }
    rows := Latest(f1[m.value].row, latest5.row);
  }

  /** `LatestRows` in terms of the two trimmed frames. */
  lemma LatestRowsOf(df1: seq<Candle>, df5: seq<Candle>, now: real, f1: seq<Candle>, f5: seq<Candle>)
    requires f1 == DropPartial(SortFrame(df1), now, 60.0) && f5 == DropPartial(SortFrame(df5), now, 300.0)
    ensures f1 == [] || f5 == [] ==> LatestRows(df1, df5, now) == NoData
    ensures f1 != [] && f5 != [] ==>
      LatestRows(df1, df5, now) == (match LastAt(f1, f5[|f5| - 1].ts)
                                    case None => NoData
                                    case Some(k) => Latest(f1[k].row, f5[|f5| - 1].row))
  {
  }

  /** `if now - df.iloc[-1]["timestamp"] < span: df = df.iloc[:-1]`. */
  method RunDropPartial(frame: seq<Candle>, now: real, span: real) returns (r: seq<Candle>)
    ensures r == DropPartial(frame, now, span)
  {
    r := frame;
    if r != [] && now - r[|r| - 1].ts < span {
      r := r[..|r| - 1];
    }
  }

  /** The strategy loop of `f2_signal`; None where it raises. */
  method RunScan(strats: seq<Strat>, settings: map<string, Setting>, r1: Row, r5: Row, holds: Test)
    returns (r: Option<Tally>)
    ensures r == ScanFrom(Tally([], []), strats, settings, r1, r5, holds)
  {
    var buys: seq<Trigger> := [];
    var sells: seq<string> := [];
    var i := 0;
    while i < |strats|
      invariant 0 <= i <= |strats|
      invariant ScanFrom(Tally([], []), strats, settings, r1, r5, holds)
        == ScanFrom(Tally(buys, sells), strats[i..], settings, r1, r5, holds)
    {
      assert strats[i..][1..] == strats[i + 1..];
      var st := strats[i];
      var o := RunStratStep(st, settings, r1, r5, holds);
      if !o.Raises? {
        ScanStep(Tally(buys, sells), strats[i..], settings, r1, r5, holds);
      }
      i := i + 1;
      match o
      case Raises =>
        return None;
      case Skips =>
        assert buys + [] == buys && sells + [] == sells;
      case Evaluates(buy, sell, bf, _) =>
        assert buys + [] == buys && sells + [] == sells;
        if buy {
          buys := buys + [Trigger(st.code, bf, OrderOf(SettingFor(settings, st.code)))];
        }
        if sell {
          sells := sells + [st.code];
        }
    }
    assert strats[i..] == [];
    r := Some(Tally(buys, sells));
  }

  /** The body of the strategy loop for one strategy. */
  method RunStratStep(st: Strat, settings: map<string, Setting>, r1: Row, r5: Row, holds: Test)
    returns (o: Outcome)
    ensures o == StratStep(st, settings, r1, r5, holds)
  {
    var setting := SettingFor(settings, st.code);
    if !IsOn(setting) {
      return Skips;
    }
    var b := PickFormula(st.buyLevels, st.buyFormula);
    if b.EmptyLevels? {
      return Raises;
    }
    var s := PickFormula(st.sellLevels, st.sellFormula);
    if s.EmptyLevels? {
      return Raises;
    }
    if b.NoFormula? || s.NoFormula? {
      return Skips;
    }
    var buy1 := holds(b.formula, r1);
    var buy5 := holds(b.formula, r5);
    var sell1 := holds(s.formula, r1);
    o := Evaluates(buy1 && buy5, sell1, b.formula, s.formula);
  }

  /** The test `f2_signal` applies, with `eval_formula` run by its loops. */
  method RunFormulaTest(check: KeyCheck, show: Show, evaluate: Evaluate, formula: string, row: Row) returns (h: bool)
    ensures h == FormulaTest(check, show, evaluate)(formula, row)
  {
    var r := RunEvalFormula(check, formula, row, show, evaluate);
    h := r == Some(true);
  }

  // ------------------------------------------------------------ what f2_signal promises

  /** With either frame empty once partial candles are dropped, every flag is false and no trigger is listed. */
  lemma InsufficientDataIsAllFalse(df1: seq<Candle>, df5: seq<Candle>, symbol: string, now: real, strats: seq<Strat>,
                                   settings: map<string, Setting>, holds: Test)
    requires DropPartial(SortFrame(df1), now, 60.0) == [] || DropPartial(SortFrame(df5), now, 300.0) == []
    ensures F2Signal(df1, df5, symbol, now, strats, settings, holds) == Some(AllFalse(symbol))
  {
  }

  /** A single 1-minute candle younger than a minute is dropped, so the result is all false. */
  lemma FreshSingleCandleIsAllFalse(c: Candle, df5: seq<Candle>, symbol: string, now: real, strats: seq<Strat>,
                                    settings: map<string, Setting>, holds: Test)
    requires now - c.ts < 60.0
    ensures F2Signal([c], df5, symbol, now, strats, settings, holds) == Some(AllFalse(symbol))
  {
    var s := SortFrame([c]);
    assert multiset(s) == multiset{c};
    assert |s| == 1 && s[0] in multiset(s);
    InsufficientDataIsAllFalse([c], df5, symbol, now, strats, settings, holds);
  }

  /** Without a 1-minute candle at the latest 5-minute timestamp, the result is all false. */
  lemma NoMatchingCandleIsAllFalse(df1: seq<Candle>, df5: seq<Candle>, symbol: string, now: real, strats: seq<Strat>,
                                   settings: map<string, Setting>, holds: Test)
    requires var f1 := DropPartial(SortFrame(df1), now, 60.0); var f5 := DropPartial(SortFrame(df5), now, 300.0);
      f5 != [] && forall j :: 0 <= j < |f1| ==> f1[j].ts != f5[|f5| - 1].ts
    ensures F2Signal(df1, df5, symbol, now, strats, settings, holds) == Some(AllFalse(symbol))
  {
  }

  /**
   * When the scan completes: `buy_signal` is set iff some strategy's buy
   * fired and `buy_triggers` then names the earliest of those with the least
   * order; `sell_signal` is set iff some sell fired and `sell_triggers` lists
   * every fired sell in list order.
   */
  lemma SignalOfScan(symbol: string, strats: seq<Strat>, settings: map<string, Setting>, r1: Row, r5: Row,
                     holds: Test)
    requires ScanFrom(Tally([], []), strats, settings, r1, r5, holds).Some?
    ensures var buys := AllBuys(strats, settings, r1, r5, holds);
      var sig := SignalOf(symbol, ScanFrom(Tally([], []), strats, settings, r1, r5, holds).value);
      (sig.buy <==> buys != [])
      && (buys != [] ==> sig.buyTriggers == [buys[FirstMinIndex(buys, TriggerOrder)].code])
      && (!sig.buy ==> sig.buyTriggers == [])
      && sig.sellTriggers == AllSells(strats, settings, r1, r5, holds)
      && (sig.sell <==> sig.sellTriggers != [])
  {
    ScanCollects(Tally([], []), strats, settings, r1, r5, holds);
    var buys := AllBuys(strats, settings, r1, r5, holds);
    assert [] + buys == buys;
    assert [] + AllSells(strats, settings, r1, r5, holds) == AllSells(strats, settings, r1, r5, holds);
    if buys != [] {
      SortByHead(buys, TriggerOrder);
    }
  }

  /** The buy trigger has the least order among the fired buys, and every earlier fired buy has a greater one. */
  lemma TopBuyIsLeastOrder(buys: seq<Trigger>)
    requires buys != []
    ensures var k := FirstMinIndex(buys, TriggerOrder);
      TopBuy(buys) == [buys[k].code]
      && (forall j :: 0 <= j < |buys| ==> buys[k].order <= buys[j].order)
      && (forall j :: 0 <= j < k ==> buys[j].order > buys[k].order)
  {
    SortByHead(buys, TriggerOrder);
  }
}
