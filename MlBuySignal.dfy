/**
 * The lightweight ML buy signal (`f2_ml_buy_signal/02_ml_buy_signal.py`):
 * the chronological split, the train-and-predict decision, the per-symbol
 * check that combines the model with two indicator flags, and `run`, which
 * rewrites the realtime buy list from the monitoring list.
 *
 * The model fit, its probability and the indicator values are inputs; the
 * JSON files are given already parsed.
 */
module MlBuySignal {
  import opened Common

  // ------------------------------------------------------------ _split_df

  datatype Parts<T> = Parts(train: seq<T>, valid: seq<T>, test: seq<T>)

  /** `int(n * 0.7)` and `int(n * 0.2)`, in exact arithmetic. */
  function TrainSize(n: nat): nat { n * 7 / 10 }
  function ValidSize(n: nat): nat { n * 2 / 10 }

  /** `_split_df`: the first `int(0.7 n)` rows, the next `int(0.2 n)`, then the rest. */
  function SplitDf<T>(rows: seq<T>): (p: Parts<T>)
    ensures p.train + p.valid + p.test == rows
    ensures |p.train| == TrainSize(|rows|) && |p.valid| == ValidSize(|rows|)
  {
    var a := TrainSize(|rows|);
    var b := ValidSize(|rows|);
    Parts(rows[..a], rows[a..a + b], rows[a + b..])
  }

  /** The three parts are contiguous slices in order, and the test part holds at least a tenth of the rows. */
  lemma SplitDfContiguous<T>(rows: seq<T>)
    ensures var p := SplitDf(rows); var a := |p.train|; var b := |p.valid|;
      p.train == rows[..a] && p.valid == rows[a..a + b] && p.test == rows[a + b..]
      && 10 * |p.test| >= |rows|
  {
  }

  // ------------------------------------------------------------ _train_predict

  /** A labelled row: `positive` is `label == 1`; the features are not modelled. */
  datatype Sample = Sample(positive: bool)

  /** `train_df["label"].nunique() >= 2`. */
  predicate TwoClasses(s: seq<Sample>)
  {
    (exists i :: 0 <= i < |s| && s[i].positive) && (exists i :: 0 <= i < |s| && !s[i].positive)
  }

  /** The fitted model's probability of class 1 for the last row, given the training rows. */
  type Prob = (seq<Sample>, Sample) -> real

  /** `_train_predict`: no model without two classes in the training part; otherwise probability above one half. */
  function TrainPredict(df: seq<Sample>, prob: Prob): bool
  {
    var train := SplitDf(df).train;
    if train == [] || !TwoClasses(train) then false else prob(train, df[|df| - 1]) > 0.5
  }

  /** The training part fixes the answer: single-class training data never buys, and otherwise a buy is p > 0.5. */
  lemma TrainPredictDecides(df: seq<Sample>, prob: Prob)
    ensures var train := df[..TrainSize(|df|)];
      (!TwoClasses(train) ==> !TrainPredict(df, prob))
      && (TwoClasses(train) ==> (TrainPredict(df, prob) <==> prob(train, df[|df| - 1]) > 0.5))
  {
  }

  /** Fewer than two rows leave an empty training part, so there is no buy. */
  lemma ShortFrameNeverBuys(df: seq<Sample>, prob: Prob)
    requires |df| < 2
    ensures !TrainPredict(df, prob)
  {
    assert TrainSize(|df|) == 0;
  }

  // ------------------------------------------------------------ check_buy_signal_df

  /**
   * `check_buy_signal_df`: cleaning, features and labelling are `prepare`;
   * fewer than 30 rows or no labelled row left means no buy.
   */
  function CheckBuySignalDf<R>(df: seq<R>, prepare: seq<R> -> seq<Sample>, prob: Prob): bool
  {
    if |df| < 30 then false
    else
      var labelled := prepare(df);
      if labelled == [] then false else TrainPredict(labelled, prob)
  }

  /** The two early exits, and otherwise the decision of `_train_predict` on the labelled rows. */
  lemma CheckBuySignalDfExits<R>(df: seq<R>, prepare: seq<R> -> seq<Sample>, prob: Prob)
    ensures |df| < 30 ==> !CheckBuySignalDf(df, prepare, prob)
    ensures |df| >= 30 && prepare(df) == [] ==> !CheckBuySignalDf(df, prepare, prob)
    ensures CheckBuySignalDf(df, prepare, prob) ==>
      |df| >= 30 && TwoClasses(prepare(df)[..TrainSize(|prepare(df)|)])
  {
    if CheckBuySignalDf(df, prepare, prob) {
      TrainPredictDecides(prepare(df), prob);
    }
  }

  // ------------------------------------------------------------ check_buy_signal

  /** The three flags `check_buy_signal` returns. */
  datatype Flags = Flags(buy: bool, rsi: bool, trend: bool)

  /**
   * What `check_buy_signal` finds for a symbol: no model, no data, a failing
   * feature step, or the model's probability and the last row's rsi14, ema5
   * and ema20.
   */
  datatype Inputs = NoModel | NoData | FeaturesFail | Ready(prob: real, rsi14: real, ema5: real, ema20: real)

  function CheckBuySignal(inp: Inputs): Flags
  {
    match inp
    case Ready(p, rsi14, ema5, ema20) => Flags(p > 0.5, 40.0 < rsi14 < 60.0, ema5 > ema20)
    case _ => Flags(false, false, false)
  }

  /** Without a model or data every flag is false; otherwise rsi is 40 < rsi14 < 60 and trend is ema5 > ema20. */
  lemma CheckBuySignalFlags(inp: Inputs)
    ensures !inp.Ready? ==> CheckBuySignal(inp) == Flags(false, false, false)
    ensures inp.Ready? ==>
      (CheckBuySignal(inp).buy <==> inp.prob > 0.5)
      && (CheckBuySignal(inp).rsi <==> 40.0 < inp.rsi14 && inp.rsi14 < 60.0)
      && (CheckBuySignal(inp).trend <==> inp.ema5 > inp.ema20)
  {
  }

  // ------------------------------------------------------------ run

  /** An entry of the monitoring list: a dict with its `symbol`, or any other value with its `str()`. */
  datatype MonItem = MonDict(symbol: Option<string>) | MonOther(text: string)

  /** An entry of the existing buy list. */
  datatype BuyItem = BuyDict(symbol: Option<string>, buyCount: Option<Json>, pending: Json) | BuyOther

  /** An entry `run` writes to the buy list. */
  datatype Entry = Entry(symbol: string, ml: int, rsi: int, trend: int, buySignal: int, buyCount: Json, pending: int)

  /** `run`: NameError where the monitoring list could not be read, else the bought symbols and the new list. */
  datatype RunResult = NameError | Ran(results: seq<string>, updated: seq<Entry>)

  function Bit(b: bool): int { if b then 1 else 0 }

  /** The symbol of a monitoring entry, None when it is falsy. */
  function MonSymbol(item: MonItem): Option<string>
  {
    match item
    case MonDict(s) => if s.Some? && s.value != "" then s else None
    case MonOther(t) => if t != "" then Some(t) else None
  }

  /** The buy-list loop: `existing_counts[sym] = it.get("buy_count", 0)`; a later entry wins. */
  function CountsFrom(buyList: seq<BuyItem>): map<string, Json>
    decreases |buyList|
  {
    if buyList == [] then map[]
    else
      var m := CountsFrom(buyList[..|buyList| - 1]);
      match buyList[|buyList| - 1]
      case BuyDict(Some(sym), count, _) =>
        if sym != "" then m[sym := if count.Some? then count.value else JNum(0.0)] else m
      case _ => m
  }

  /** `existing_counts[sym] = 1` for every symbol of the sell list. */
  function ForceSold(counts: map<string, Json>, sellList: seq<string>): map<string, Json>
    decreases |sellList|
  {
    if sellList == [] then counts else ForceSold(counts[sellList[0] := JNum(1.0)], sellList[1..])
  }

  /** The pending set of the first buy-list loop, the one line 389 discards. */
  function ListPending(buyList: seq<BuyItem>): set<string>
    decreases |buyList|
  {
    if buyList == [] then {}
    else
      ListPending(buyList[..|buyList| - 1])
        + match buyList[|buyList| - 1]
          case BuyDict(Some(sym), _, p) => if sym != "" && Truthy(p) then {sym} else {}
          case _ => {}
  }

  /** `pending_set` as line 389 leaves it: the pending-symbols file, empty when it does not exist. */
  function PendingSet(pendingFile: Option<seq<string>>): set<string>
  {
    if pendingFile.Some? then set s | s in pendingFile.value else {}
  }

  function EntryFor(sym: string, f: Flags, counts: map<string, Json>, pending: set<string>): Entry
  {
    var final := f.buy && f.rsi && f.trend;
    Entry(sym, Bit(f.buy), Bit(f.rsi), Bit(f.trend), Bit(final), Get(counts, sym, JNum(0.0)), Bit(sym in pending))
  }

  /** The monitoring loop from `items` on. */
  function Process(items: seq<MonItem>, counts: map<string, Json>, pending: set<string>,
                   check: string -> Flags): (seq<string>, seq<Entry>)
    decreases |items|
  {
    if items == [] then ([], [])
    else
      var (rs, es) := Process(items[1..], counts, pending, check);
      match MonSymbol(items[0])
      case None => (rs, es)
      case Some(sym) =>
        var e := EntryFor(sym, check(sym), counts, pending);
        ((if e.buySignal == 1 then [sym] else []) + rs, [e] + es)
  }

  /**
   * `run` once its files are read: `monitoring` is None where the list could
   * not be read (then `data` is unbound), `Some([])` for a value that is not
   * a list.
   */
  function Run(monitoring: Option<seq<MonItem>>, buyList: seq<BuyItem>, pendingFile: Option<seq<string>>,
               sellList: seq<string>, check: string -> Flags): RunResult
  {
    if monitoring.None? then NameError
    else
      var counts := ForceSold(CountsFrom(buyList), sellList);
      var (rs, es) := Process(monitoring.value, counts, PendingSet(pendingFile), check);
      Ran(rs, es)
  }

  /** `run`, its loops run step by step. */
  method RunRun(monitoring: Option<seq<MonItem>>, buyList: seq<BuyItem>, pendingFile: Option<seq<string>>,
                sellList: seq<string>, check: string -> Flags) returns (r: RunResult)
    ensures r == Run(monitoring, buyList, pendingFile, sellList, check)
  {
    var counts, listPending := RunBuyListCounts(buyList);
    var pending := PendingSet(pendingFile);
    var i := 0;
    while i < |sellList|
      invariant 0 <= i <= |sellList|
      invariant ForceSold(CountsFrom(buyList), sellList) == ForceSold(counts, sellList[i..])
    {
      assert sellList[i..][1..] == sellList[i + 1..];
      counts := counts[sellList[i] := JNum(1.0)];
      i := i + 1;
    }
    assert sellList[i..] == [];
    if monitoring.None? {
      return NameError;
    }
    var rs, es := RunProcess(monitoring.value, counts, pending, check);
    r := Ran(rs, es);
  }

  /** The two buy-list loops: the counts, and the pending set the first one builds. */
  method RunBuyListCounts(buyList: seq<BuyItem>) returns (counts: map<string, Json>, listPending: set<string>)
    ensures counts == CountsFrom(buyList) && listPending == ListPending(buyList)
  {
    counts := map[];
    listPending := {};
    var i := 0;
    while i < |buyList|
      invariant 0 <= i <= |buyList|
      invariant counts == CountsFrom(buyList[..i]) && listPending == ListPending(buyList[..i])
    {
      assert buyList[..i + 1][..i] == buyList[..i];
      match buyList[i] {
        case BuyDict(Some(sym), count, p) =>
          if sym != "" {
            counts := counts[sym := if count.Some? then count.value else JNum(0.0)];
            if Truthy(p) {
              listPending := listPending + {sym};
            }
          }
        case _ =>
      }
      i := i + 1;
    }
    assert buyList[..i] == buyList;
  }

  /** The monitoring loop, appending to `results` and `updated`. */
  method RunProcess(items: seq<MonItem>, counts: map<string, Json>, pending: set<string>, check: string -> Flags)
    returns (results: seq<string>, updated: seq<Entry>)
    ensures (results, updated) == Process(items, counts, pending, check)
  {
    results := [];
    updated := [];
    var i := 0;
    assert items[0..] == items;
    while i < |items|
      invariant 0 <= i <= |items|
      invariant ProcessedUpTo(items, i, results, updated, counts, pending, check)
    {
      ProcessAdvance(items, i, results, updated, counts, pending, check);
      ghost var st := Step(items[i], counts, pending, check);
      var sym := MonSymbol(items[i]);
      if sym.Some? {
        var e := EntryFor(sym.value, check(sym.value), counts, pending);
        assert st == (if e.buySignal == 1 then [sym.value] else [], [e]);
        if e.buySignal == 1 {
          results := results + [sym.value];
        } else {
          assert results + [] == results;
        }
        updated := updated + [e];
      } else {
        assert results + [] == results && updated + [] == updated;
      }
      i := i + 1;
    }
    assert items[i..] == [];
    assert results + [] == results && updated + [] == updated;
  }

  /** After `i` items, `results` and `updated` followed by what the rest yields are the whole loop's outcome. */
  predicate ProcessedUpTo(items: seq<MonItem>, i: nat, results: seq<string>, updated: seq<Entry>,
                          counts: map<string, Json>, pending: set<string>, check: string -> Flags)
    requires i <= |items|
  {
    var p := Process(items, counts, pending, check);
    var r := Process(items[i..], counts, pending, check);
    p.0 == results + r.0 && p.1 == updated + r.1
  }

  /** What one monitored item adds: its symbol when its entry buys, and its entry; nothing without a symbol. */
  function Step(item: MonItem, counts: map<string, Json>, pending: set<string>, check: string -> Flags): (seq<string>, seq<Entry>)
  {
    match MonSymbol(item)
    case None => ([], [])
    case Some(sym) =>
      var e := EntryFor(sym, check(sym), counts, pending);
      (if e.buySignal == 1 then [sym] else [], [e])
  }

  /** One step of the monitoring loop: the first item's additions come before the rest's. */
  lemma ProcessHead(items: seq<MonItem>, counts: map<string, Json>, pending: set<string>, check: string -> Flags)
    requires items != []
    ensures var p := Process(items, counts, pending, check);
      var r := Process(items[1..], counts, pending, check);
      var st := Step(items[0], counts, pending, check);
      p.0 == st.0 + r.0 && p.1 == st.1 + r.1
  {
    var r := Process(items[1..], counts, pending, check);
    if MonSymbol(items[0]).None? {
      assert [] + r.0 == r.0 && [] + r.1 == r.1;
    }
  }

  /** One step of the monitoring loop keeps `ProcessedUpTo`. */
  lemma ProcessAdvance(items: seq<MonItem>, i: nat, results: seq<string>, updated: seq<Entry>,
                       counts: map<string, Json>, pending: set<string>, check: string -> Flags)
    requires i < |items| && ProcessedUpTo(items, i, results, updated, counts, pending, check)
    ensures var st := Step(items[i], counts, pending, check);
      ProcessedUpTo(items, i + 1, results + st.0, updated + st.1, counts, pending, check)
  {
    ProcessHead(items[i..], counts, pending, check);
    assert items[i..][1..] == items[i + 1..];
    var rest := Process(items[i + 1..], counts, pending, check);
    var st := Step(items[i], counts, pending, check);
    assert results + (st.0 + rest.0) == (results + st.0) + rest.0;
    assert updated + (st.1 + rest.1) == (updated + st.1) + rest.1;
  }

  // ------------------------------------------------------------ what run promises

  /**
   * Every written entry comes from a monitored symbol; its buy_signal is the
   * conjunction of the three flags, and a symbol is among the results exactly
   * when its entry's buy_signal is 1.
   */
  lemma {:induction false} ProcessEntries(items: seq<MonItem>, counts: map<string, Json>, pending: set<string>,
                                          check: string -> Flags)
    ensures var (rs, es) := Process(items, counts, pending, check);
      (forall e :: e in es ==>
        (exists k :: 0 <= k < |items| && MonSymbol(items[k]) == Some(e.symbol))
        && e == EntryFor(e.symbol, check(e.symbol), counts, pending)
        && (e.buySignal == 1 <==> check(e.symbol).buy && check(e.symbol).rsi && check(e.symbol).trend))
      && rs == BoughtSymbols(es)
    decreases |items|
  {
    if items != [] {
      var rest := items[1..];
      ProcessEntries(rest, counts, pending, check);
      assert forall k :: 0 <= k < |rest| ==> rest[k] == items[k + 1];
      var (rs, es) := Process(rest, counts, pending, check);
      match MonSymbol(items[0])
      case None =>
      case Some(sym) =>
        var e := EntryFor(sym, check(sym), counts, pending);
        BoughtCons(e, es);
    }
  }

  /** The symbols of the entries whose buy_signal is 1, in order. */
  function BoughtSymbols(es: seq<Entry>): seq<string>
    decreases |es|
  {
    if es == [] then [] else (if es[0].buySignal == 1 then [es[0].symbol] else []) + BoughtSymbols(es[1..])
  }

  lemma BoughtCons(e: Entry, es: seq<Entry>)
    ensures BoughtSymbols([e] + es) == (if e.buySignal == 1 then [e.symbol] else []) + BoughtSymbols(es)
  {
    assert ([e] + es)[1..] == es;
  }

  /** A symbol on the sell list is written with buy_count 1, whatever the buy list says. */
  lemma {:induction false} SoldCountIsOne(counts: map<string, Json>, sellList: seq<string>, sym: string)
    requires sym in sellList
    ensures Get(ForceSold(counts, sellList), sym, JNum(0.0)) == JNum(1.0)
    decreases |sellList|
  {
    if sellList[0] == sym {
      ForceSoldKeeps(counts[sym := JNum(1.0)], sellList[1..], sym);
    } else {
      SoldCountIsOne(counts[sellList[0] := JNum(1.0)], sellList[1..], sym);
    }
  }

  /** Marking sold symbols does not change a count that is already 1. */
  lemma {:induction false} ForceSoldKeeps(counts: map<string, Json>, sellList: seq<string>, sym: string)
    requires sym in counts && counts[sym] == JNum(1.0)
    ensures sym in ForceSold(counts, sellList) && ForceSold(counts, sellList)[sym] == JNum(1.0)
    decreases |sellList|
  {
    if sellList != [] {
      ForceSoldKeeps(counts[sellList[0] := JNum(1.0)], sellList[1..], sym);
    }
  }

  /** A symbol off the sell list keeps the count of the buy list. */
  lemma {:induction false} UnsoldCountKept(counts: map<string, Json>, sellList: seq<string>, sym: string)
    requires sym !in sellList
    ensures Get(ForceSold(counts, sellList), sym, JNum(0.0)) == Get(counts, sym, JNum(0.0))
    decreases |sellList|
  {
    if sellList != [] {
      UnsoldCountKept(counts[sellList[0] := JNum(1.0)], sellList[1..], sym);
    }
  }

  /** The count of the buy list is that of the symbol's last dict entry, 0 without a `buy_count`, and absent without an entry. */
  lemma {:induction false} CountsFromLast(buyList: seq<BuyItem>, sym: string, k: nat)
    requires sym != "" && k < |buyList| && buyList[k].BuyDict? && buyList[k].symbol == Some(sym)
    requires forall j :: k < j < |buyList| ==> !(buyList[j].BuyDict? && buyList[j].symbol == Some(sym))
    ensures var count := buyList[k].buyCount;
      sym in CountsFrom(buyList) && CountsFrom(buyList)[sym] == (if count.Some? then count.value else JNum(0.0))
    decreases |buyList|
  {
    if k < |buyList| - 1 {
      var init := buyList[..|buyList| - 1];
      CountsFromLast(init, sym, k);
    }
  }

  /**
   * Each entry `run` writes: buy_signal is ml ∧ rsi ∧ trend; buy_count is 1
   * for a symbol on the sell list and otherwise what the buy list holds (0
   * when absent); pending is 1 exactly when the symbol is in the
   * pending-symbols file.
   */
  lemma RunEntries(monitoring: seq<MonItem>, buyList: seq<BuyItem>, pendingFile: Option<seq<string>>,
                   sellList: seq<string>, check: string -> Flags)
    ensures var r := Run(Some(monitoring), buyList, pendingFile, sellList, check);
      r.Ran? && r.results == BoughtSymbols(r.updated)
      && forall e :: e in r.updated ==>
        (e.buySignal == 1 <==> check(e.symbol).buy && check(e.symbol).rsi && check(e.symbol).trend)
        && (e.symbol in sellList ==> e.buyCount == JNum(1.0))
        && (e.symbol !in sellList ==> e.buyCount == Get(CountsFrom(buyList), e.symbol, JNum(0.0)))
        && (e.pending == 1 <==> pendingFile.Some? && e.symbol in pendingFile.value)
  {
    var counts := ForceSold(CountsFrom(buyList), sellList);
    var pending := PendingSet(pendingFile);
    ProcessEntries(monitoring, counts, pending, check);
    var es := Process(monitoring, counts, pending, check).1;
    forall e | e in es
      ensures (e.symbol in sellList ==> e.buyCount == JNum(1.0))
        && (e.symbol !in sellList ==> e.buyCount == Get(CountsFrom(buyList), e.symbol, JNum(0.0)))
    {
      if e.symbol in sellList {
        SoldCountIsOne(CountsFrom(buyList), sellList, e.symbol);
      } else {
        UnsoldCountKept(CountsFrom(buyList), sellList, e.symbol);
      }
    }
  }

  /** Two buy lists that differ only in their `pending` flags. */
  predicate SameButPending(a: seq<BuyItem>, b: seq<BuyItem>)
  {
    |a| == |b| && forall k :: 0 <= k < |a| ==>
      a[k] == b[k] || (a[k].BuyDict? && b[k].BuyDict? && a[k].symbol == b[k].symbol && a[k].buyCount == b[k].buyCount)
  }

  lemma {:induction false} CountsIgnorePending(a: seq<BuyItem>, b: seq<BuyItem>)
    requires SameButPending(a, b)
    ensures CountsFrom(a) == CountsFrom(b)
    decreases |a|
  {
    if a != [] {
      var n := |a| - 1;
      assert SameButPending(a[..n], b[..n]);
      CountsIgnorePending(a[..n], b[..n]);
    }
  }

  /** The `pending` flags of the buy list do not change what `run` writes: line 389 overwrites the set they fill. */
  lemma PendingFlagsIgnored(monitoring: Option<seq<MonItem>>, a: seq<BuyItem>, b: seq<BuyItem>,
                            pendingFile: Option<seq<string>>, sellList: seq<string>, check: string -> Flags)
    requires SameButPending(a, b)
    ensures Run(monitoring, a, pendingFile, sellList, check) == Run(monitoring, b, pendingFile, sellList, check)
  {
    CountsIgnorePending(a, b);
  }

  /** Without a readable monitoring list, `run` raises NameError. */
  lemma UnreadableMonitoringRaises(buyList: seq<BuyItem>, pendingFile: Option<seq<string>>, sellList: seq<string>,
                                   check: string -> Flags)
    ensures Run(None, buyList, pendingFile, sellList, check) == NameError
  {
  }
}
