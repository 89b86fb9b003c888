/**
 * The simple autonomous trading loop of the helpers package: the strategy
 * settings loader, the price and rank filter over the market-signal list,
 * and one pass of the `while True` loop of `run_trading_bot`, which sells
 * positions queued for manual sale, reloads the configuration every 300
 * seconds, buys new tickers up to `max_concurrent_trades` and sells open
 * positions whose sell signal fires.
 *
 * Files, the exchange and the clock are inputs: the loaders' results, the
 * signal list, the buy and sell decisions and the outcome of each order are
 * parameters. The open positions are a Python dict, kept as a list of
 * (ticker, position) pairs in insertion order, the order in which the sell
 * loop visits them.
 */
module Bot {
  import opened Common
  import opened Strategies

  // ------------------------------------------------------------ settings

  /** `load_strategy_settings`' starting dict. */
  function DefaultSettings(): map<string, Json>
  {
    map["strategy" := JText("M-BREAK", None), "level" := JText("중도적", None)]
  }

  const FallbackPath := "config/config.json"

  /**
   * `load_strategy_settings(path)`: `present` says which files are present and
   * `read` what `json.load` returns for a file (None when opening or parsing
   * raises). A decoded value other than an object has no `get`, so it
   * raises before either key is assigned.
   */
  function LoadStrategySettings(path: string, present: string -> bool, read: string -> Option<Json>): map<string, Json>
  {
    var file := if present(path) then path else FallbackPath;
    var d := DefaultSettings();
    match read(file)
    case Some(JObject(data)) =>
      d["strategy" := Get(data, "strategy", d["strategy"])]["level" := Get(data, "level", d["level"])]
    case _ => d
  }

  /** Both keys are always present; each is the file's value when it has one, else the default. */
  lemma SettingsOverrideDefaults(path: string, present: string -> bool, read: string -> Option<Json>, data: map<string, Json>)
    requires read(if present(path) then path else FallbackPath) == Some(JObject(data))
    ensures LoadStrategySettings(path, present, read).Keys == {"strategy", "level"}
    ensures LoadStrategySettings(path, present, read)["strategy"]
      == if "strategy" in data then data["strategy"] else JText("M-BREAK", None)
    ensures LoadStrategySettings(path, present, read)["level"]
      == if "level" in data then data["level"] else JText("중도적", None)
  {
  }

  /** A file that cannot be read, or does not hold an object, leaves the defaults. */
  lemma UnreadableSettingsAreDefaults(path: string, present: string -> bool, read: string -> Option<Json>)
    requires !(read(if present(path) then path else FallbackPath).Some?
               && read(if present(path) then path else FallbackPath).value.JObject?)
    ensures LoadStrategySettings(path, present, read) == DefaultSettings()
  {
  }

  /**
   * A missing path reads config/config.json and nothing else; a present
   * path is read and config/config.json is never consulted.
   */
  lemma SettingsFileChoice(path: string, present: string -> bool, read1: string -> Option<Json>, read2: string -> Option<Json>)
    ensures !present(path) && read1(FallbackPath) == read2(FallbackPath)
      ==> LoadStrategySettings(path, present, read1) == LoadStrategySettings(path, present, read2)
    ensures present(path) && read1(path) == read2(path)
      ==> LoadStrategySettings(path, present, read1) == LoadStrategySettings(path, present, read2)
  {
  }

  // ------------------------------------------------------------ ticker filter

  /** One entry of the market-signal list: `float(price)` (None where it raises) and the coin as formatted. */
  datatype MarketSignal = MarketSignal(price: Option<real>, coin: string)

  /** `float(conf.get(key, 0) or 0)`: a falsy value is 0, anything else goes through `float`. */
  function Bound(conf: map<string, Json>, key: string): Option<real>
  {
    var v := Get(conf, key, JNum(0.0));
    if !Truthy(v) then Some(0.0) else FloatOf(v)
  }

  /** `int(conf.get("rank", 0) or 0)`. */
  function Rank(conf: map<string, Json>): Option<int>
  {
    var v := Get(conf, "rank", JNum(0.0));
    if !Truthy(v) then Some(0) else IntOf(v)
  }

  /** The two `continue` tests: a zero bound is skipped, and so is a negative maximum. */
  predicate InBand(price: real, minP: real, maxP: real)
  {
    !(minP != 0.0 && price < minP) && !(maxP != 0.0 && maxP > 0.0 && price > maxP)
  }

  /** The loop of `get_filtered_tickers` from `taken` on; None where `float(price)` raises. */
  function Collect(signals: seq<MarketSignal>, minP: real, maxP: real, rank: int, taken: seq<string>): Option<seq<string>>
    decreases |signals|
  {
    if signals == [] then Some(taken)
    else
      var s := signals[0];
      if s.price.None? then None
      else if !InBand(s.price.value, minP, maxP) then Collect(signals[1..], minP, maxP, rank, taken)
      else
        var next := taken + ["KRW-" + s.coin];
        if rank != 0 && |next| >= rank then Some(next)
        else Collect(signals[1..], minP, maxP, rank, next)
  }

  /** `get_filtered_tickers`, with the list `load_market_signals` returns as a parameter. */
  function FilteredTickers(conf: map<string, Json>, signals: seq<MarketSignal>): Option<seq<string>>
  {
    var minP := Bound(conf, "min_price");
    var maxP := Bound(conf, "max_price");
    var rank := Rank(conf);
    if minP.None? || maxP.None? || rank.None? then None
    else Collect(signals, minP.value, maxP.value, rank.value, [])
  }

  /** Every price converts. */
  predicate AllPriced(signals: seq<MarketSignal>)
  {
    forall i :: 0 <= i < |signals| ==> signals[i].price.Some?
  }

  /** Reference definition: the in-band coins as "KRW-" tickers, in input order. */
  function InBandTickers(signals: seq<MarketSignal>, minP: real, maxP: real): seq<string>
    requires AllPriced(signals)
  {
    if signals == [] then []
    else
      (if InBand(signals[0].price.value, minP, maxP) then ["KRW-" + signals[0].coin] else [])
      + InBandTickers(signals[1..], minP, maxP)
  }

  /** How many tickers a non-zero rank lets through: the rank itself, or one for a negative rank. */
  function Capped(s: seq<string>, rank: int): seq<string>
  {
    if rank == 0 then s else s[..Min(|s|, Max(rank, 1))]
  }

  /** The band test spelled as bounds: a zero minimum and a zero or negative maximum do not apply. */
  lemma InBandIff(price: real, minP: real, maxP: real)
    ensures InBand(price, minP, maxP) <==> (minP == 0.0 || price >= minP) && (maxP <= 0.0 || price <= maxP)
  {
  }

  lemma {:induction false} CollectIsCappedFilter(signals: seq<MarketSignal>, minP: real, maxP: real, rank: int, taken: seq<string>)
    requires AllPriced(signals)
    requires rank == 0 || |taken| < Max(rank, 1)
    ensures Collect(signals, minP, maxP, rank, taken) == Some(Capped(taken + InBandTickers(signals, minP, maxP), rank))
    decreases |signals|
  {
    if signals == [] {
      assert taken + [] == taken;
    } else {
      var s := signals[0];
      var rest := InBandTickers(signals[1..], minP, maxP);
      assert AllPriced(signals[1..]) by {
        forall i | 0 <= i < |signals[1..]| ensures signals[1..][i].price.Some? {
          assert signals[1..][i] == signals[i + 1];
        }
      }
      if !InBand(s.price.value, minP, maxP) {
        CollectIsCappedFilter(signals[1..], minP, maxP, rank, taken);
        assert [] + rest == rest;
      } else {
        var next := taken + ["KRW-" + s.coin];
        assert taken + (["KRW-" + s.coin] + rest) == next + rest;
        if rank != 0 && |next| >= rank {
          assert |next| == Max(rank, 1);
          assert (next + rest)[..|next|] == next;
        } else {
          CollectIsCappedFilter(signals[1..], minP, maxP, rank, next);
        }
      }
    }
  }

  /**
   * With every price convertible, the result is the in-band tickers in input
   * order, cut to `rank` of them when the rank is positive, to one when it
   * is negative, and not cut when it is zero.
   */
  lemma FilteredTickersIsCappedFilter(signals: seq<MarketSignal>, minP: real, maxP: real, rank: int)
    requires AllPriced(signals)
    ensures Collect(signals, minP, maxP, rank, []) == Some(Capped(InBandTickers(signals, minP, maxP), rank))
  {
    CollectIsCappedFilter(signals, minP, maxP, rank, []);
    assert [] + InBandTickers(signals, minP, maxP) == InBandTickers(signals, minP, maxP);
  }

  /** `get_filtered_tickers`: the loop with its `continue`s and its `break`; None where a conversion raises. */
  method GetFilteredTickers(conf: map<string, Json>, signals: seq<MarketSignal>) returns (r: Option<seq<string>>)
    ensures r == FilteredTickers(conf, signals)
  {
    var minP := Bound(conf, "min_price");
    var maxP := Bound(conf, "max_price");
    var rank := Rank(conf);
    if minP.None? || maxP.None? || rank.None? {
      return None;
    }
    var tickers: seq<string> := [];
    var i := 0;
    while i < |signals|
      invariant 0 <= i <= |signals|
      invariant FilteredTickers(conf, signals) == Collect(signals[i..], minP.value, maxP.value, rank.value, tickers)
    {
      var s := signals[i];
      assert signals[i..][1..] == signals[i + 1..];
      if s.price.None? {
        return None;
      }
      if InBand(s.price.value, minP.value, maxP.value) {
        tickers := tickers + ["KRW-" + s.coin];
        if rank.value != 0 && |tickers| >= rank.value {
          return Some(tickers);
        }
      }
      i := i + 1;
    }
    assert signals[i..] == [];
    r := Some(tickers);
  }

  // ------------------------------------------------------------ positions

  /** The dict stored per open position. */
  datatype Position = Position(buyPrice: real, qty: real, strategy: string, level: string)

  datatype Trade = Trade(ticker: string, pos: Position)

  function Tickers(ts: seq<Trade>): (r: seq<string>)
    ensures |r| == |ts|
    ensures forall i :: 0 <= i < |ts| ==> r[i] == ts[i].ticker
  {
    if ts == [] then [] else [ts[0].ticker] + Tickers(ts[1..])
  }

  /** Dict keys are distinct. */
  predicate Distinct(ts: seq<Trade>)
  {
    forall i, j :: 0 <= i < j < |ts| ==> ts[i].ticker != ts[j].ticker
  }

  /** `active_trades.pop(t, None)`. */
  function Without(ts: seq<Trade>, t: string): (r: seq<Trade>)
    ensures forall tr :: tr in r <==> tr in ts && tr.ticker != t
    ensures |r| <= |ts|
    ensures Distinct(ts) ==> Distinct(r)
  {
    if ts == [] then []
    else if ts[0].ticker == t then Without(ts[1..], t)
    else
      var rest := Without(ts[1..], t);
      assert Distinct(ts) ==> forall tr :: tr in rest ==> tr.ticker != ts[0].ticker by {
        if Distinct(ts) {
          forall tr | tr in rest ensures tr.ticker != ts[0].ticker {
            var k :| 0 <= k < |ts[1..]| && ts[1..][k] == tr;
            assert ts[k + 1] == tr;
          }
        }
      }
      [ts[0]] + rest
  }

  /** What a pass over the positions leaves, and whether a `smart_sell` raised and ended the iteration. */
  datatype Pass = Pass(trades: seq<Trade>, raised: bool)

  /** The manual-sell loop: only active tickers are sold, and each sold position is popped. */
  function ManualSells(ts: seq<Trade>, manual: seq<string>, sellFails: string -> bool): Pass
    decreases |manual|
  {
    if manual == [] then Pass(ts, false)
    else if manual[0] !in Tickers(ts) then ManualSells(ts, manual[1..], sellFails)
    else if sellFails(manual[0]) then Pass(ts, true)
    else ManualSells(Without(ts, manual[0]), manual[1..], sellFails)
  }

  /**
   * Manual sells never add a position; without an exception, exactly the
   * positions whose ticker was queued are gone.
   */
  lemma {:induction false} ManualSellsEffect(ts: seq<Trade>, manual: seq<string>, sellFails: string -> bool)
    requires Distinct(ts)
    ensures Distinct(ManualSells(ts, manual, sellFails).trades)
    ensures forall tr :: tr in ManualSells(ts, manual, sellFails).trades ==> tr in ts
    ensures |ManualSells(ts, manual, sellFails).trades| <= |ts|
    ensures !ManualSells(ts, manual, sellFails).raised ==>
      forall tr :: tr in ManualSells(ts, manual, sellFails).trades <==> tr in ts && tr.ticker !in manual
    decreases |manual|
  {
    if manual != [] {
      var m := manual[0];
      assert forall x :: x in manual <==> x == m || x in manual[1..] by {
        assert manual == [m] + manual[1..];
      }
      if m !in Tickers(ts) {
        ManualSellsEffect(ts, manual[1..], sellFails);
        forall tr | tr in ts ensures tr.ticker != m {
          var k :| 0 <= k < |ts| && ts[k] == tr;
          assert Tickers(ts)[k] == tr.ticker;
        }
      } else if !sellFails(m) {
        ManualSellsEffect(Without(ts, m), manual[1..], sellFails);
      }
    }
  }

  /** The buy loop over the filtered tickers, with the settings read from `strategy_conf` and `fund_conf`. */
  datatype Settings = Settings(filter: map<string, Json>, strategy: string, level: string,
                               maxConcurrent: int, risk: map<string, real>)

  /** Buy signal for (strategy, level, ticker); fill (price, qty) that `smart_buy` returns for a ticker. */
  type BuySignal = (string, string, string) -> bool
  type BuyFill = string -> (real, real)

  function BuyPass(ts: seq<Trade>, filtered: seq<string>, st: Settings, buySignal: BuySignal, buyFill: BuyFill): seq<Trade>
    decreases |filtered|
  {
    if filtered == [] then ts
    else
      var t := filtered[0];
      if t in Tickers(ts) then BuyPass(ts, filtered[1..], st, buySignal, buyFill)
      else if |ts| >= st.maxConcurrent then ts
      else if buySignal(st.strategy, st.level, t) && buyFill(t).1 > 0.0 then
        BuyPass(ts + [Trade(t, Position(buyFill(t).0, buyFill(t).1, st.strategy, st.level))], filtered[1..], st, buySignal, buyFill)
      else BuyPass(ts, filtered[1..], st, buySignal, buyFill)
  }

  /**
   * Buying keeps every open position where it was, never opens a second
   * position in a ticker, and stops at `max_concurrent_trades` positions.
   */
  lemma {:induction false} BuyPassKeeps(ts: seq<Trade>, filtered: seq<string>, st: Settings, buySignal: BuySignal, buyFill: BuyFill)
    requires Distinct(ts)
    ensures |ts| <= |BuyPass(ts, filtered, st, buySignal, buyFill)| <= Max(|ts|, st.maxConcurrent)
    ensures BuyPass(ts, filtered, st, buySignal, buyFill)[..|ts|] == ts
    ensures Distinct(BuyPass(ts, filtered, st, buySignal, buyFill))
    decreases |filtered|
  {
    if filtered != [] {
      var t := filtered[0];
      if t in Tickers(ts) || |ts| >= st.maxConcurrent {
        BuyPassKeeps(ts, filtered[1..], st, buySignal, buyFill);
      } else if buySignal(st.strategy, st.level, t) && buyFill(t).1 > 0.0 {
        var next := ts + [Trade(t, Position(buyFill(t).0, buyFill(t).1, st.strategy, st.level))];
        assert Distinct(next) by {
          forall i | 0 <= i < |ts| ensures ts[i].ticker != t {
            assert Tickers(ts)[i] == ts[i].ticker;
          }
        }
        BuyPassKeeps(next, filtered[1..], st, buySignal, buyFill);
        assert BuyPass(ts, filtered, st, buySignal, buyFill)[..|next|][..|ts|] == ts;
      } else {
        BuyPassKeeps(ts, filtered[1..], st, buySignal, buyFill);
      }
    }
  }

  /** A new position is in a filtered ticker whose buy signal fired and whose fill has a positive quantity. */
  lemma {:induction false} BuyPassNew(ts: seq<Trade>, filtered: seq<string>, st: Settings, buySignal: BuySignal, buyFill: BuyFill, i: nat)
    requires Distinct(ts)
    requires |ts| <= i < |BuyPass(ts, filtered, st, buySignal, buyFill)|
    ensures BuyPass(ts, filtered, st, buySignal, buyFill)[i].ticker in filtered
    ensures BuyPass(ts, filtered, st, buySignal, buyFill)[i]
      == Trade(BuyPass(ts, filtered, st, buySignal, buyFill)[i].ticker,
               Position(buyFill(BuyPass(ts, filtered, st, buySignal, buyFill)[i].ticker).0,
                        buyFill(BuyPass(ts, filtered, st, buySignal, buyFill)[i].ticker).1, st.strategy, st.level))
    ensures buyFill(BuyPass(ts, filtered, st, buySignal, buyFill)[i].ticker).1 > 0.0
    ensures buySignal(st.strategy, st.level, BuyPass(ts, filtered, st, buySignal, buyFill)[i].ticker)
    decreases |filtered|
  {
    var t := filtered[0];
    assert forall x :: x in filtered[1..] ==> x in filtered;
    if t in Tickers(ts) || |ts| >= st.maxConcurrent {
      BuyPassNew(ts, filtered[1..], st, buySignal, buyFill, i);
    } else if buySignal(st.strategy, st.level, t) && buyFill(t).1 > 0.0 {
      var next := ts + [Trade(t, Position(buyFill(t).0, buyFill(t).1, st.strategy, st.level))];
      assert Distinct(next) by {
        forall k | 0 <= k < |ts| ensures ts[k].ticker != t {
          assert Tickers(ts)[k] == ts[k].ticker;
        }
      }
      if i > |ts| {
        BuyPassNew(next, filtered[1..], st, buySignal, buyFill, i);
      } else {
        BuyPassKeeps(next, filtered[1..], st, buySignal, buyFill);
        assert BuyPass(ts, filtered, st, buySignal, buyFill)[..|next|][i] == next[i];
      }
    } else {
      BuyPassNew(ts, filtered[1..], st, buySignal, buyFill, i);
    }
  }

  /** Sell signal for an open position. */
  type SellSignal = (string, Position) -> bool

  /** The sell loop over the snapshot `pending` of the positions. */
  function SellPass(ts: seq<Trade>, pending: seq<Trade>, sellSignal: SellSignal, sellFails: string -> bool): Pass
    decreases |pending|
  {
    if pending == [] then Pass(ts, false)
    else if !sellSignal(pending[0].ticker, pending[0].pos) then SellPass(ts, pending[1..], sellSignal, sellFails)
    else if sellFails(pending[0].ticker) then Pass(ts, true)
    else SellPass(Without(ts, pending[0].ticker), pending[1..], sellSignal, sellFails)
  }

  /** The tickers of the snapshot whose sell signal fires. */
  function Signalled(pending: seq<Trade>, sellSignal: SellSignal): set<string>
  {
    if pending == [] then {}
    else
      (if sellSignal(pending[0].ticker, pending[0].pos) then {pending[0].ticker} else {})
      + Signalled(pending[1..], sellSignal)
  }

  /**
   * Selling never adds a position; when no sell raises, the positions left
   * are exactly those whose sell signal did not fire.
   */
  lemma {:induction false} SellPassEffect(ts: seq<Trade>, pending: seq<Trade>, sellSignal: SellSignal, sellFails: string -> bool)
    requires Distinct(ts)
    ensures Distinct(SellPass(ts, pending, sellSignal, sellFails).trades)
    ensures forall tr :: tr in SellPass(ts, pending, sellSignal, sellFails).trades ==> tr in ts
    ensures |SellPass(ts, pending, sellSignal, sellFails).trades| <= |ts|
    ensures !SellPass(ts, pending, sellSignal, sellFails).raised ==>
      forall tr :: tr in SellPass(ts, pending, sellSignal, sellFails).trades <==>
        tr in ts && tr.ticker !in Signalled(pending, sellSignal)
    ensures (forall t :: !sellFails(t)) ==> !SellPass(ts, pending, sellSignal, sellFails).raised
    decreases |pending|
  {
    if pending != [] {
      var p := pending[0];
      if !sellSignal(p.ticker, p.pos) {
        SellPassEffect(ts, pending[1..], sellSignal, sellFails);
      } else if !sellFails(p.ticker) {
        SellPassEffect(Without(ts, p.ticker), pending[1..], sellSignal, sellFails);
      }
    }
  }

  // ------------------------------------------------------------ one iteration

  /** Everything the loop reads from its environment in one iteration. */
  datatype Inputs = Inputs(
    now: real,
    reloaded: Settings,           // what the four loaders return if the reload is due
    signals: seq<MarketSignal>,   // `load_market_signals()`
    buySignal: BuySignal,
    buyFill: BuyFill,
    sellSignal: SellSignal,
    sellFails: string -> bool)    // whether `smart_sell` raises for a ticker

  datatype BotState = BotState(active: seq<Trade>, manualFile: seq<string>, settings: Settings, lastReload: real)

  /** `now - last_reload > 300`. */
  const ReloadInterval := 300.0

  /** One pass of the `while True` body; an exception ends the pass where it is raised. */
  function Iteration(s: BotState, inp: Inputs): BotState
  {
    var mp := ManualSells(s.active, s.manualFile, inp.sellFails);
    if mp.raised then s.(active := mp.trades)
    else
      var file := [];
      var reload := inp.now - s.lastReload > ReloadInterval;
      var st := if reload then inp.reloaded else s.settings;
      var last := if reload then inp.now else s.lastReload;
      match FilteredTickers(st.filter, inp.signals)
      case None => BotState(mp.trades, file, st, last)
      case Some(filtered) =>
        var bought := BuyPass(mp.trades, filtered, st, inp.buySignal, inp.buyFill);
        var sp := SellPass(bought, bought, inp.sellSignal, inp.sellFails);
        BotState(sp.trades, file, st, last)
  }

  /**
   * An iteration keeps the position tickers distinct and ends with no more
   * positions than it started with or `max_concurrent_trades`, whichever is
   * larger.
   */
  lemma IterationBounded(s: BotState, inp: Inputs)
    requires Distinct(s.active)
    ensures Distinct(Iteration(s, inp).active)
    ensures |Iteration(s, inp).active| <= Max(|s.active|, Iteration(s, inp).settings.maxConcurrent)
  {
    var mp := ManualSells(s.active, s.manualFile, inp.sellFails);
    ManualSellsEffect(s.active, s.manualFile, inp.sellFails);
    if !mp.raised {
      var reload := inp.now - s.lastReload > ReloadInterval;
      var st := if reload then inp.reloaded else s.settings;
      match FilteredTickers(st.filter, inp.signals)
      case None =>
      case Some(filtered) =>
        var bought := BuyPass(mp.trades, filtered, st, inp.buySignal, inp.buyFill);
        BuyPassKeeps(mp.trades, filtered, st, inp.buySignal, inp.buyFill);
        SellPassEffect(bought, bought, inp.sellSignal, inp.sellFails);
    }
  }

  /**
   * The queue file is emptied unless a manual sale raised; a raising sale
   * leaves the queue, the settings and the reload clock as they were.
   */
  lemma IterationQueue(s: BotState, inp: Inputs)
    ensures !ManualSells(s.active, s.manualFile, inp.sellFails).raised ==> Iteration(s, inp).manualFile == []
    ensures ManualSells(s.active, s.manualFile, inp.sellFails).raised ==>
      Iteration(s, inp) == s.(active := ManualSells(s.active, s.manualFile, inp.sellFails).trades)
  {
  }

  lemma {:induction false} ManualSellsNeverRaise(ts: seq<Trade>, manual: seq<string>, sellFails: string -> bool)
    requires forall t :: !sellFails(t)
    ensures !ManualSells(ts, manual, sellFails).raised
    decreases |manual|
  {
    if manual != [] {
      if manual[0] !in Tickers(ts) {
        ManualSellsNeverRaise(ts, manual[1..], sellFails);
      } else {
        ManualSellsNeverRaise(Without(ts, manual[0]), manual[1..], sellFails);
      }
    }
  }

  // ------------------------------------------------------------ the loop as written

  /**
   * `check_buy_signal` as the loop calls it, `check_buy_signal(strat, ticker,
   * level)`: the ticker lands in the level parameter and the level text in
   * the market parameter. `safe_eval` then tests each name with `in` on that
   * text, a substring test, and hands the text to `eval` as its locals,
   * which `eval` accepts: a text has a mapping subscript. Looking a name up
   * in it raises TypeError (a text is indexed by integers); a tree without
   * names never looks one up and evaluates as it would on any variables.
   */
  function SafeEvalOnText(expr: string, text: string, parse: Parser, evaluate: Evaluator): EvalOutcome
  {
    match parse(expr)
    case None => EvalError("invalid syntax")
    case Some(tree) =>
      match TextViolation(Walk([tree]), text)
      case Some(msg) => EvalError(msg)
      case None =>
        if HasName(Walk([tree])) then EvalError("string indices must be integers")
        else
          match evaluate(tree, map[])
          case None => EvalError("evaluation failed")
          case Some(b) => Evaluated(b)
  }

  function TextViolation(nodes: seq<Node>, text: string): Option<string>
  {
    if nodes == [] then None
    else if nodes[0].Call? then Some("function calls not allowed")
    else if nodes[0].Name? && !Contains(text, nodes[0].id) then Some("unknown variable " + nodes[0].id)
    else TextViolation(nodes[1..], text)
  }

  /** Some node of the walk is a name. */
  predicate HasName(nodes: seq<Node>)
  {
    nodes != [] && (nodes[0].Name? || HasName(nodes[1..]))
  }

  /** The formula's tree, if it parses, names at least one variable. */
  predicate NamesSomething(expr: string, parse: Parser)
  {
    parse(expr).Some? ==> HasName(Walk([parse(expr).value]))
  }

  function BuyCallAsWritten(specs: map<string, StrategySpec>, parse: Parser, evaluate: Evaluator): BuySignal
  {
    (strat: string, level: string, ticker: string) =>
      if strat !in specs then false
      else
        var formula := SelectFormula(specs[strat], Buy, ticker);
        formula != "" && SafeEvalOnText(Translate(formula), level, parse, evaluate) == Evaluated(true)
  }

  /**
   * As written, a formula that names any variable (every indicator formula
   * does) never gives a buy signal, whichever ticker and level: the loop
   * never buys on such a strategy.
   */
  lemma {:induction false} NeverBuysAsWritten(ts: seq<Trade>, filtered: seq<string>, st: Settings,
                                               specs: map<string, StrategySpec>, parse: Parser, evaluate: Evaluator,
                                               buyFill: BuyFill)
    requires st.strategy in specs ==>
      forall t :: t in filtered ==> NamesSomething(Translate(SelectFormula(specs[st.strategy], Buy, t)), parse)
    ensures BuyPass(ts, filtered, st, BuyCallAsWritten(specs, parse, evaluate), buyFill) == ts
    decreases |filtered|
  {
    if filtered != [] {
      var t := filtered[0];
      var signal := BuyCallAsWritten(specs, parse, evaluate);
      assert !signal(st.strategy, st.level, t) by {
        if st.strategy in specs {
          var formula := SelectFormula(specs[st.strategy], Buy, t);
          assert NamesSomething(Translate(formula), parse);
          assert SafeEvalOnText(Translate(formula), st.level, parse, evaluate).EvalError?;
        }
      }
      NeverBuysAsWritten(ts, filtered[1..], st, specs, parse, evaluate, buyFill);
    }
  }

  /**
   * As written, a formula without names (`1 > 0`, `True`) is evaluated
   * after all: a free ticker under the limit whose formula's tree has no
   * call and no name, and holds, is bought.
   */
  lemma NameFreeFormulaBuysAsWritten(ts: seq<Trade>, t: string, st: Settings, specs: map<string, StrategySpec>,
                                     parse: Parser, evaluate: Evaluator, buyFill: BuyFill, tree: Node)
    requires t !in Tickers(ts) && |ts| < st.maxConcurrent
    requires st.strategy in specs && SelectFormula(specs[st.strategy], Buy, t) != ""
    requires parse(Translate(SelectFormula(specs[st.strategy], Buy, t))) == Some(tree)
    requires TextViolation(Walk([tree]), st.level).None? && !HasName(Walk([tree]))
    requires evaluate(tree, map[]) == Some(true)
    requires buyFill(t).1 > 0.0
    ensures BuyPass(ts, [t], st, BuyCallAsWritten(specs, parse, evaluate), buyFill)
      == ts + [Trade(t, Position(buyFill(t).0, buyFill(t).1, st.strategy, st.level))]
  {
    var next := ts + [Trade(t, Position(buyFill(t).0, buyFill(t).1, st.strategy, st.level))];
    assert BuyCallAsWritten(specs, parse, evaluate)(st.strategy, st.level, t);
    assert [t][1..] == [];
    assert BuyPass(next, [], st, BuyCallAsWritten(specs, parse, evaluate), buyFill) == next;
  }

  /** The intended call: the configured level, and the ticker's market data. */
  function IntendedBuyCall(specs: map<string, StrategySpec>, markets: string -> map<string, real>,
                           parse: Parser, evaluate: Evaluator): BuySignal
  {
    (strat: string, level: string, ticker: string) => CheckBuySignal(specs, strat, level, markets(ticker), parse, evaluate)
  }

  /**
   * With the intended call, a ticker that has no position, fits under the
   * limit, whose formula at the configured level holds on its market data
   * and whose fill is positive is bought.
   */
  lemma IntendedCallBuys(ts: seq<Trade>, t: string, st: Settings, specs: map<string, StrategySpec>,
                         markets: string -> map<string, real>, parse: Parser, evaluate: Evaluator, buyFill: BuyFill)
    requires t !in Tickers(ts) && |ts| < st.maxConcurrent
    requires CheckBuySignal(specs, st.strategy, st.level, markets(t), parse, evaluate)
    requires buyFill(t).1 > 0.0
    ensures BuyPass(ts, [t], st, IntendedBuyCall(specs, markets, parse, evaluate), buyFill)
      == ts + [Trade(t, Position(buyFill(t).0, buyFill(t).1, st.strategy, st.level))]
  {
    var next := ts + [Trade(t, Position(buyFill(t).0, buyFill(t).1, st.strategy, st.level))];
    assert [t][1..] == [];
    assert BuyPass(next, [], st, IntendedBuyCall(specs, markets, parse, evaluate), buyFill) == next;
  }

  /** `check_sell_signal(short_code, level, market, risk_conf=None)`: three or four positional arguments bind. */
  const SellSignalParams := 4
  const SellSignalDefaults := 1

  predicate SellCallBinds(positional: nat)
  {
    SellSignalParams - SellSignalDefaults <= positional <= SellSignalParams
  }

  /**
   * The sell loop as written passes five positional arguments (strategy,
   * ticker, buy price, level, risk config), so the first open position
   * raises TypeError, which the loop's handler catches.
   */
  function SellPassAsWritten(ts: seq<Trade>, pending: seq<Trade>, sellSignal: SellSignal, sellFails: string -> bool): Pass
  {
    if pending == [] then Pass(ts, false)
    else if !SellCallBinds(5) then Pass(ts, true)
    else SellPass(ts, pending, sellSignal, sellFails)
  }

  /** As written, the sell loop never sells: any open position makes it raise before a sale. */
  lemma NeverSellsAsWritten(ts: seq<Trade>, sellSignal: SellSignal, sellFails: string -> bool)
    ensures SellPassAsWritten(ts, ts, sellSignal, sellFails) == Pass(ts, ts != [])
  {
  }

  /** The intended call: the position's strategy and level, with its buy price as the entry price of its market data. */
  function IntendedSellCall(specs: map<string, StrategySpec>, markets: string -> map<string, real>,
                            risk: map<string, real>, parse: Parser, evaluate: Evaluator): SellSignal
  {
    (ticker: string, pos: Position) =>
      CheckSellSignal(specs, pos.strategy, pos.level, markets(ticker)["entryprice" := pos.buyPrice],
                      Some(risk), map[], parse, evaluate)
  }

  /**
   * With the intended call, a position whose close has fallen to
   * buy price * (1 - max_dd) is sold, whatever its formula says, when no
   * sell raises.
   */
  lemma IntendedCallStopsLoss(ts: seq<Trade>, tr: Trade, specs: map<string, StrategySpec>,
                              markets: string -> map<string, real>, risk: map<string, real>,
                              parse: Parser, evaluate: Evaluator, sellFails: string -> bool)
    requires Distinct(ts) && tr in ts
    requires tr.pos.strategy in specs && SelectFormula(specs[tr.pos.strategy], Sell, tr.pos.level) != ""
    requires StopLoss(markets(tr.ticker)["entryprice" := tr.pos.buyPrice], risk)
    requires forall t :: !sellFails(t)
    ensures tr !in SellPass(ts, ts, IntendedSellCall(specs, markets, risk, parse, evaluate), sellFails).trades
  {
    var signal := IntendedSellCall(specs, markets, risk, parse, evaluate);
    StopLossSkipsFormula(specs, tr.pos.strategy, tr.pos.level, markets(tr.ticker)["entryprice" := tr.pos.buyPrice],
                         risk, parse, evaluate, parse, evaluate);
    assert signal(tr.ticker, tr.pos);
    SignalledContains(ts, tr, signal);
    SellPassEffect(ts, ts, signal, sellFails);
  }

  lemma {:induction false} SignalledContains(pending: seq<Trade>, tr: Trade, sellSignal: SellSignal)
    requires tr in pending && sellSignal(tr.ticker, tr.pos)
    ensures tr.ticker in Signalled(pending, sellSignal)
  {
    if pending[0] != tr {
      SignalledContains(pending[1..], tr, sellSignal);
    }
  }

  // ------------------------------------------------------------ the loop's state

  /** The loop's local state: `active_trades`, the manual-sell queue file, the loaded settings and `last_reload`. */
  class TradingBot {
    var active: seq<Trade>
    var manualFile: seq<string>
    var settings: Settings
    var lastReload: real

    predicate Valid()
      reads this
    {
      Distinct(active)
    }

    function State(): BotState
      reads this
    {
      BotState(active, manualFile, settings, lastReload)
    }

    /** The start of `run_trading_bot`: settings loaded, no position, the reload clock started. */
    constructor (loaded: Settings, now: real, queued: seq<string>)
      ensures Valid()
      ensures State() == BotState([], queued, loaded, now)
    {
      active := [];
      manualFile := queued;
      settings := loaded;
      lastReload := now;
    }

    method SellQueued(sellFails: string -> bool) returns (raised: bool)
      requires Valid()
      modifies this
      ensures Valid()
      ensures Pass(active, raised) == ManualSells(old(active), old(manualFile), sellFails)
      ensures manualFile == old(manualFile) && settings == old(settings) && lastReload == old(lastReload)
    {
      var manual := manualFile;
      var i := 0;
      while i < |manual|
        invariant 0 <= i <= |manual|
        invariant Valid()
        invariant ManualSells(old(active), manual, sellFails) == ManualSells(active, manual[i..], sellFails)
        invariant manualFile == old(manualFile) && settings == old(settings) && lastReload == old(lastReload)
      {
        var m := manual[i];
        assert manual[i..][1..] == manual[i + 1..];
        if m in Tickers(active) {
          if sellFails(m) {
            return true;
          }
          active := Without(active, m);
        }
        i := i + 1;
      }
      assert manual[i..] == [];
      raised := false;
    }

    method Buy(filtered: seq<string>, buySignal: BuySignal, buyFill: BuyFill)
      requires Valid()
      modifies this
      ensures Valid()
      ensures active == BuyPass(old(active), filtered, settings, buySignal, buyFill)
      ensures manualFile == old(manualFile) && settings == old(settings) && lastReload == old(lastReload)
    {
      BuyPassKeeps(active, filtered, settings, buySignal, buyFill);
      var i := 0;
      while i < |filtered|
        invariant 0 <= i <= |filtered|
        invariant Valid()
        invariant BuyPass(old(active), filtered, settings, buySignal, buyFill)
               == BuyPass(active, filtered[i..], settings, buySignal, buyFill)
        invariant manualFile == old(manualFile) && settings == old(settings) && lastReload == old(lastReload)
      {
        var ticker := filtered[i];
        assert filtered[i..][1..] == filtered[i + 1..];
        if ticker !in Tickers(active) {
          if |active| >= settings.maxConcurrent {
            return;
          }
          if buySignal(settings.strategy, settings.level, ticker) {
            var (price, qty) := buyFill(ticker);
            if qty > 0.0 {
              var next := active + [Trade(ticker, Position(price, qty, settings.strategy, settings.level))];
              BuyPassKeeps(next, [], settings, buySignal, buyFill);
              assert next[..|active|] == active;
              assert Distinct(next) by {
                forall k | 0 <= k < |active| ensures active[k].ticker != ticker {
                  assert Tickers(active)[k] == active[k].ticker;
                }
              }
              active := next;
            }
          }
        }
        i := i + 1;
      }
      assert filtered[i..] == [];
    }

    method Sell(sellSignal: SellSignal, sellFails: string -> bool) returns (raised: bool)
      requires Valid()
      modifies this
      ensures Valid()
      ensures Pass(active, raised) == SellPass(old(active), old(active), sellSignal, sellFails)
      ensures manualFile == old(manualFile) && settings == old(settings) && lastReload == old(lastReload)
    {
      var pending := active;
      var i := 0;
      while i < |pending|
        invariant 0 <= i <= |pending|
        invariant Valid()
        invariant SellPass(old(active), pending, sellSignal, sellFails) == SellPass(active, pending[i..], sellSignal, sellFails)
        invariant manualFile == old(manualFile) && settings == old(settings) && lastReload == old(lastReload)
      {
        var tr := pending[i];
        assert pending[i..][1..] == pending[i + 1..];
        if sellSignal(tr.ticker, tr.pos) {
          if sellFails(tr.ticker) {
            return true;
          }
          active := Without(active, tr.ticker);
        }
        i := i + 1;
      }
      assert pending[i..] == [];
      raised := false;
    }

    /** One pass of the loop body. */
    method Step(inp: Inputs)
      requires Valid()
      modifies this
      ensures Valid()
      ensures State() == Iteration(old(State()), inp)
    {
      var raised := SellQueued(inp.sellFails);
      if raised {
        return;
      }
      manualFile := [];
      if inp.now - lastReload > ReloadInterval {
        settings := inp.reloaded;
        lastReload := inp.now;
      }
      var filtered := GetFilteredTickers(settings.filter, inp.signals);
      if filtered.None? {
        return;
      }
      Buy(filtered.value, inp.buySignal, inp.buyFill);
      raised := Sell(inp.sellSignal, inp.sellFails);
    }
  }
}
