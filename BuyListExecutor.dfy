/**
 * The buy-list executor (`f2_ml_buy_signal/03_buy_signal_engine/buy_list_executor.py`):
 * it loads the realtime buy list, drops entries without a symbol and later
 * duplicates of a symbol, buys every entry with buy_signal 1 and buy_count 0
 * at the ticker price (or the best bid as a fallback), and marks each bought
 * symbol's entry with buy_count 1 before writing the list back.
 *
 * The file reads are the outcomes `attempt(k)` of the successive attempts;
 * the ticker and the order book are the parameters `ticker` and `bid`; the
 * orders sent to the executor are part of the result. The lock, the logging
 * and the sleep between attempts are not modelled.
 */
module BuyListExecutor {
  import opened Common
  import opened Rewrite

  // ------------------------------------------------------------ _load_buy_list

  /** One attempt at reading the file: PermissionError, another failure, or the parsed JSON. */
  datatype Attempt = Denied | Broken | Loaded(data: Json)

  /** Attempts `k` to 4: a denied attempt is retried, any other outcome ends the loop. */
  function LoadFrom(attempt: nat -> Attempt, k: nat): seq<Json>
    decreases 5 - k
  {
    if k >= 5 then []
    else match attempt(k)
      case Denied => LoadFrom(attempt, k + 1)
      case Broken => []
      case Loaded(d) => if d.JList? then d.items else []
  }

  /** `_load_buy_list`: [] for a missing file. */
  function LoadBuyList(present: bool, attempt: nat -> Attempt): seq<Json>
  {
    if present then LoadFrom(attempt, 0) else []
  }

  /** `_load_buy_list`, its retry loop run step by step. */
  method RunLoadBuyList(present: bool, attempt: nat -> Attempt) returns (r: seq<Json>)
    ensures r == LoadBuyList(present, attempt)
  {
    if !present {
      return [];
    }
    var k := 0;
    while k < 5
      invariant 0 <= k <= 5
      invariant LoadBuyList(present, attempt) == LoadFrom(attempt, k)
    {
      var a := attempt(k);
      if a.Loaded? {
        if a.data.JList? {
          return a.data.items;
        }
        return [];
      }
      if a.Broken? {
        return [];
      }
      k := k + 1;
    }
    r := [];
  }

  /** The load reads at most five attempts, and only a JSON list yields entries. */
  lemma LoadReadsFiveAttempts(present: bool, attempt: nat -> Attempt, other: nat -> Attempt)
    requires forall k :: 0 <= k < 5 ==> attempt(k) == other(k)
    ensures LoadBuyList(present, attempt) == LoadBuyList(present, other)
    ensures !present ==> LoadBuyList(present, attempt) == []
    ensures (forall k :: 0 <= k < 5 ==> attempt(k) == Denied) ==> LoadBuyList(present, attempt) == []
  {
    LoadFromAgrees(attempt, other, 0);
    if forall k :: 0 <= k < 5 ==> attempt(k) == Denied {
      AllDeniedIsEmpty(attempt, 0);
    }
  }

  lemma {:induction false} LoadFromAgrees(attempt: nat -> Attempt, other: nat -> Attempt, k: nat)
    requires forall j :: k <= j < 5 ==> attempt(j) == other(j)
    ensures LoadFrom(attempt, k) == LoadFrom(other, k)
    decreases 5 - k
  {
    if k < 5 {
      LoadFromAgrees(attempt, other, k + 1);
    }
  }

  lemma {:induction false} AllDeniedIsEmpty(attempt: nat -> Attempt, k: nat)
    requires forall j :: k <= j < 5 ==> attempt(j) == Denied
    ensures LoadFrom(attempt, k) == []
    decreases 5 - k
  {
    if k < 5 {
      AllDeniedIsEmpty(attempt, k + 1);
    }
  }

  /** A readable file holding something other than a list yields no entries. */
  lemma NonListIsEmpty(attempt: nat -> Attempt)
    requires attempt(0).Loaded? && !attempt(0).data.JList?
    ensures LoadBuyList(true, attempt) == []
  {
  }

  // ------------------------------------------------------------ deduplication

  /** `item.get("symbol")`; None where the entry is not a dict (AttributeError). */
  function SymbolOf(item: Json): Option<Json>
  {
    if item.JObject? then Some(Get(item.fields, "symbol", JNull)) else None
  }

  /** The deduplication loop from `items` on, with the symbols `seen` so far; None where it raises. */
  function DedupFrom(items: seq<Json>, seen: set<Json>): Option<seq<Json>>
    decreases |items|
  {
    if items == [] then Some([])
    else match SymbolOf(items[0])
      case None => None
      case Some(sym) =>
        if Truthy(sym) && sym !in seen then
          match DedupFrom(items[1..], seen + {sym})
          case None => None
          case Some(rest) => Some([items[0]] + rest)
        else DedupFrom(items[1..], seen)
  }

  /** What deduplication keeps are dicts. */
  lemma {:induction false} DedupDicts(items: seq<Json>, seen: set<Json>)
    requires DedupFrom(items, seen).Some?
    ensures AllDicts(DedupFrom(items, seen).value)
    decreases |items|
  {
    if items != [] {
      var sym := SymbolOf(items[0]).value;
      if Truthy(sym) && sym !in seen {
        DedupDicts(items[1..], seen + {sym});
      } else {
        DedupDicts(items[1..], seen);
      }
    }
  }

  /** The symbol of a dict entry, JNull when it has none. */
  function Sym(item: Json): Json
    requires item.JObject?
  {
    Get(item.fields, "symbol", JNull)
  }

  /** The symbols the entries carry, in order. */
  function Symbols(items: seq<Json>): (r: seq<Json>)
    requires forall k :: 0 <= k < |items| ==> items[k].JObject?
    ensures |r| == |items| && forall k :: 0 <= k < |items| ==> r[k] == Sym(items[k])
  {
    seq(|items|, k requires 0 <= k < |items| => Sym(items[k]))
  }

  predicate AllDicts(items: seq<Json>) { forall k :: 0 <= k < |items| ==> items[k].JObject? }

  /**
   * What deduplication promises of its result `d`: an ordered selection of
   * the entries; every kept entry has a symbol that is truthy and not in
   * `seen`; kept symbols are distinct; and an entry with a truthy symbol is
   * kept when no earlier entry and no member of `seen` has that symbol.
   */
  predicate Deduplicated(items: seq<Json>, seen: set<Json>, d: seq<Json>)
    requires AllDicts(items)
  {
    IsSubsequence(d, items) && AllDicts(d)
    && (forall k :: 0 <= k < |d| ==> Truthy(Sym(d[k])) && Sym(d[k]) !in seen)
    && DistinctSymbols(d)
    && FirstsKept(items, seen, d)
  }

  predicate FirstsKept(items: seq<Json>, seen: set<Json>, d: seq<Json>)
    requires AllDicts(items)
  {
    forall k :: (0 <= k < |items| && Truthy(Sym(items[k])) && Sym(items[k]) !in seen
                 && forall j :: 0 <= j < k ==> Sym(items[j]) != Sym(items[k]))
                ==> items[k] in d
  }

  /** Deduplication of dict entries never raises, and its result is `Deduplicated`. */
  lemma {:induction false} DedupKeepsFirst(items: seq<Json>, seen: set<Json>)
    requires AllDicts(items)
    ensures DedupFrom(items, seen).Some?
    ensures Deduplicated(items, seen, DedupFrom(items, seen).value)
    decreases |items|
  {
    if items != [] {
      var sym := Sym(items[0]);
      var rest := items[1..];
      assert AllDicts(rest);
      if Truthy(sym) && sym !in seen {
        DedupKeepsFirst(rest, seen + {sym});
        DedupTake(items, seen, DedupFrom(rest, seen + {sym}).value);
      } else {
        DedupKeepsFirst(rest, seen);
        DedupSkip(items, seen, DedupFrom(rest, seen).value);
      }
    }
  }

  /** A first entry with a new truthy symbol is kept in front of the rest's result. */
  lemma DedupTake(items: seq<Json>, seen: set<Json>, r: seq<Json>)
    requires AllDicts(items) && items != [] && Truthy(Sym(items[0])) && Sym(items[0]) !in seen
    requires Deduplicated(items[1..], seen + {Sym(items[0])}, r)
    ensures Deduplicated(items, seen, [items[0]] + r)
  {
    var sym := Sym(items[0]);
    var rest := items[1..];
    var d := [items[0]] + r;
    assert forall k :: 1 <= k < |d| ==> d[k] == r[k - 1];
    SubsequenceCons(items[0], r, rest);
    assert DistinctSymbols(d) by {
      forall j, k | 0 <= j < k < |d| ensures Sym(d[j]) != Sym(d[k]) {
        if j > 0 {
          assert Sym(d[j]) == Sym(r[j - 1]);
        }
      }
    }
    assert FirstsKept(items, seen, d) by {
      forall k | 0 <= k < |items| && Truthy(Sym(items[k])) && Sym(items[k]) !in seen
                 && forall j :: 0 <= j < k ==> Sym(items[j]) != Sym(items[k])
        ensures items[k] in d
      {
        if k > 0 {
          assert rest[k - 1] == items[k];
          assert forall j :: 0 <= j < k - 1 ==> rest[j] == items[j + 1];
          assert Sym(items[k]) != sym;
          assert items[k] in r;
        }
      }
    }
  }

  /** A first entry with a falsy or seen symbol is dropped. */
  lemma DedupSkip(items: seq<Json>, seen: set<Json>, r: seq<Json>)
    requires AllDicts(items) && items != [] && !(Truthy(Sym(items[0])) && Sym(items[0]) !in seen)
    requires Deduplicated(items[1..], seen, r)
    ensures Deduplicated(items, seen, r)
  {
    var rest := items[1..];
    SubsequenceSkip(items[0], r, rest);
    forall k | 0 <= k < |items| && Truthy(Sym(items[k])) && Sym(items[k]) !in seen
               && forall j :: 0 <= j < k ==> Sym(items[j]) != Sym(items[k])
      ensures items[k] in r
    {
      assert k != 0;
      assert rest[k - 1] == items[k];
      assert forall j :: 0 <= j < k - 1 ==> rest[j] == items[j + 1];
    }
  }

  lemma SubsequenceCons(x: Json, r: seq<Json>, rest: seq<Json>)
    requires IsSubsequence(r, rest)
    ensures IsSubsequence([x] + r, [x] + rest)
  {
    assert ([x] + r)[1..] == r && ([x] + rest)[1..] == rest;
  }

  lemma SubsequenceSkip(x: Json, r: seq<Json>, rest: seq<Json>)
    requires IsSubsequence(r, rest)
    ensures IsSubsequence(r, [x] + rest)
  {
    assert ([x] + rest)[1..] == rest;
  }

  /** The list is replaced by the deduplicated one only when lengths differ; with equal lengths they are equal anyway. */
  lemma {:induction false} SameLengthIsSame(d: seq<Json>, items: seq<Json>)
    requires IsSubsequence(d, items) && |d| == |items|
    ensures d == items
    decreases |items|
  {
    if items != [] {
      SubsequenceShorter(d, items[1..]);
      assert d != [] && d[0] == items[0];
      SameLengthIsSame(d[1..], items[1..]);
    }
  }

  lemma {:induction false} SubsequenceShorter(d: seq<Json>, items: seq<Json>)
    ensures IsSubsequence(d, items) ==> |d| <= |items|
    decreases |items|
  {
    if items != [] && d != [] {
      SubsequenceShorter(d[1..], items[1..]);
      SubsequenceShorter(d, items[1..]);
    }
  }

  // ------------------------------------------------------------ targets

  /** `int(b.get(key, 0)) == 1`, None where the conversion raises. */
  function FieldIs(item: Json, key: string, n: int): Option<bool>
    requires item.JObject?
  {
    match IntOf(Get(item.fields, key, JNum(0.0)))
    case None => None
    case Some(v) => Some(v == n)
  }

  /** Whether an entry is a target: buy_signal 1 and buy_count 0 (the count is read only after a 1). */
  function IsTarget(item: Json): Option<bool>
    requires item.JObject?
  {
    match FieldIs(item, "buy_signal", 1)
    case None => None
    case Some(false) => Some(false)
    case Some(true) => FieldIs(item, "buy_count", 0)
  }

  /** The `targets` comprehension; None where a conversion raises. */
  function Targets(items: seq<Json>): Option<seq<Json>>
    requires AllDicts(items)
    decreases |items|
  {
    if items == [] then Some([])
    else
      match IsTarget(items[0])
      case None => None
      case Some(t) =>
        match Targets(items[1..])
        case None => None
        case Some(rest) => Some((if t then [Get(items[0].fields, "symbol", JNull)] else []) + rest)
  }

  /** A symbol is a target exactly when one of its entries has buy_signal 1 and buy_count 0. */
  lemma {:induction false} TargetsExactly(items: seq<Json>, sym: Json)
    requires AllDicts(items) && Targets(items).Some?
    ensures sym in Targets(items).value <==>
      exists k :: 0 <= k < |items| && Get(items[k].fields, "symbol", JNull) == sym && IsTarget(items[k]) == Some(true)
    decreases |items|
  {
    if items != [] {
      TargetsExactly(items[1..], sym);
      assert forall k :: 1 <= k < |items| ==> items[k] == items[1..][k - 1];
      if exists k :: 0 <= k < |items| && Get(items[k].fields, "symbol", JNull) == sym && IsTarget(items[k]) == Some(true) {
        var k :| 0 <= k < |items| && Get(items[k].fields, "symbol", JNull) == sym && IsTarget(items[k]) == Some(true);
        if k > 0 {
          assert items[1..][k - 1] == items[k];
        }
      }
    }
  }

  // ------------------------------------------------------------ prices

  /** `{t["market"]: float(t.get("trade_price", 0)) for t in ticker_info}`: a later entry wins. */
  function PricesOf(quotes: seq<(Json, real)>): map<Json, real>
    decreases |quotes|
  {
    if quotes == [] then map[]
    else PricesOf(quotes[..|quotes| - 1])[quotes[|quotes| - 1].0 := quotes[|quotes| - 1].1]
  }

  /** The order-book fallback for the targets still without a price, from `targets` on. */
  function Fallback(prices: map<Json, real>, missing: seq<Json>, bid: Json -> Option<real>): map<Json, real>
    decreases |missing|
  {
    if missing == [] then prices
    else
      var sym := missing[0];
      var p := bid(sym);
      Fallback(if p.Some? && p.value > 0.0 then prices[sym := p.value] else prices, missing[1..], bid)
  }

  /** `[s for s in targets if s not in prices]`. */
  function Missing(targets: seq<Json>, prices: map<Json, real>): seq<Json>
  {
    Filter(targets, (s: Json) => s !in prices)
  }

  /** The prices the executor ends with; a failing ticker call leaves `prices` empty. */
  function Prices(targets: seq<Json>, ticker: seq<Json> -> Option<seq<(Json, real)>>, bid: Json -> Option<real>): map<Json, real>
  {
    var quoted := if ticker(targets).Some? then PricesOf(ticker(targets).value) else map[];
    Fallback(quoted, Missing(targets, quoted), bid)
  }

  /**
   * The fallback keeps every quoted price, and a symbol it adds is one of
   * the missing ones whose best bid is positive, priced at that bid.
   */
  lemma {:induction false} FallbackPrices(prices: map<Json, real>, missing: seq<Json>, bid: Json -> Option<real>,
                                          sym: Json)
    requires forall k :: 0 <= k < |missing| ==> missing[k] !in prices
    requires forall j, k :: 0 <= j < k < |missing| ==> missing[j] != missing[k]
    ensures var r := Fallback(prices, missing, bid);
      (sym in prices ==> sym in r && r[sym] == prices[sym])
      && (sym !in prices ==>
            (sym in r <==> sym in missing && bid(sym).Some? && bid(sym).value > 0.0)
            && (sym in r ==> r[sym] == bid(sym).value))
    decreases |missing|
  {
    if missing != [] {
      var s := missing[0];
      var p := bid(s);
      var next := if p.Some? && p.value > 0.0 then prices[s := p.value] else prices;
      assert forall k :: 0 <= k < |missing[1..]| ==> missing[1..][k] == missing[k + 1];
      FallbackPrices(next, missing[1..], bid, sym);
    }
  }

  // ------------------------------------------------------------ execute_buy_list

  /** An order handed to `oe.entry`: the symbol and the price of its signal dict. */
  datatype Order = Order(symbol: Json, price: real)

  /**
   * `execute_buy_list`: None where it raises; otherwise the executed
   * symbols, the orders sent, whether the client was used, and the list
   * written back (None when nothing is written).
   */
  datatype Outcome = Outcome(executed: seq<Json>, orders: seq<Order>, fetched: bool, written: Option<seq<Json>>)

  /** `it["buy_count"] = 1` on the first entry with symbol `sym`. */
  function MarkBought(items: seq<Json>, sym: Json): (r: seq<Json>)
    requires AllDicts(items)
    ensures |r| == |items| && AllDicts(r)
    decreases |items|
  {
    if items == [] then []
    else if Get(items[0].fields, "symbol", JNull) == sym then
      [JObject(items[0].fields["buy_count" := JNum(1.0)])] + items[1..]
    else [items[0]] + MarkBought(items[1..], sym)
  }

  /** The execution loop from `items` on, over the list `list` it marks. */
  function ExecFrom(items: seq<Json>, list: seq<Json>, prices: map<Json, real>): (seq<Order>, seq<Json>)
    requires AllDicts(items) && AllDicts(list)
    requires forall k :: 0 <= k < |items| ==> IsTarget(items[k]).Some?
    decreases |items|
  {
    if items == [] then ([], list)
    else
      var sym := Get(items[0].fields, "symbol", JNull);
      if FieldIs(items[0], "buy_signal", 1) != Some(true) || sym !in prices then ExecFrom(items[1..], list, prices)
      else
        var (os, l) := ExecFrom(items[1..], MarkBought(list, sym), prices);
        ([Order(sym, prices[sym])] + os, l)
  }

  function SymbolsOf(orders: seq<Order>): seq<Json>
  {
    seq(|orders|, k requires 0 <= k < |orders| => orders[k].symbol)
  }

  function Execute(present: bool, attempt: nat -> Attempt, ticker: seq<Json> -> Option<seq<(Json, real)>>,
                   bid: Json -> Option<real>): Option<Outcome>
  {
    match DedupFrom(LoadBuyList(present, attempt), {})
    case None => None
    case Some(list) =>
      assert AllDicts(list) by { DedupDicts(LoadBuyList(present, attempt), {}); }
      match Targets(list)
      case None => None
      case Some(targets) =>
        if targets == [] then Some(Outcome([], [], false, None))
        else
          var prices := Prices(targets, ticker, bid);
          assert forall k :: 0 <= k < |list| ==> IsTarget(list[k]).Some? by { TargetsParsed(list); }
          var (orders, written) := ExecFrom(list, list, prices);
          Some(Outcome(SymbolsOf(orders), orders, true, Some(written)))
  }

  /** A successful `targets` comprehension parsed every entry. */
  lemma {:induction false} TargetsParsed(items: seq<Json>)
    requires AllDicts(items) && Targets(items).Some?
    ensures forall k :: 0 <= k < |items| ==> IsTarget(items[k]).Some?
    decreases |items|
  {
    if items != [] {
      TargetsParsed(items[1..]);
      assert forall k :: 1 <= k < |items| ==> items[k] == items[1..][k - 1];
    }
  }

  // ------------------------------------------------------------ what execute_buy_list promises

  /** Without targets nothing is fetched, bought or written. */
  lemma NoTargetsNoCall(present: bool, attempt: nat -> Attempt, ticker: seq<Json> -> Option<seq<(Json, real)>>,
                        bid: Json -> Option<real>)
    requires var d := DedupFrom(LoadBuyList(present, attempt), {});
      d.Some? && AllDicts(d.value) && Targets(d.value) == Some([])
    ensures Execute(present, attempt, ticker, bid) == Some(Outcome([], [], false, None))
  {
  }

  /** A missing buy list has no targets. */
  lemma EmptyListDoesNothing(attempt: nat -> Attempt, ticker: seq<Json> -> Option<seq<(Json, real)>>,
                             bid: Json -> Option<real>)
    ensures Execute(false, attempt, ticker, bid) == Some(Outcome([], [], false, None))
  {
  }

  /** The entry with buy_count set to 1. */
  function Mark(item: Json): Json
    requires item.JObject?
  {
    JObject(item.fields["buy_count" := JNum(1.0)])
  }

  predicate DistinctSymbols(items: seq<Json>)
    requires AllDicts(items)
  {
    forall j, k :: 0 <= j < k < |items| ==> Sym(items[j]) != Sym(items[k])
  }

  /** With distinct symbols, marking affects exactly the entry with that symbol and keeps every symbol. */
  lemma {:induction false} MarkBoughtAt(list: seq<Json>, sym: Json)
    requires AllDicts(list) && DistinctSymbols(list)
    ensures var r := MarkBought(list, sym);
      Symbols(r) == Symbols(list)
      && forall k :: 0 <= k < |list| ==> r[k] == (if Sym(list[k]) == sym then Mark(list[k]) else list[k])
    decreases |list|
  {
    MarkBoughtEntries(list, sym);
    var r := MarkBought(list, sym);
    forall k | 0 <= k < |list| ensures Symbols(r)[k] == Symbols(list)[k] {
      assert Sym(Mark(list[k])) == Sym(list[k]);
    }
  }

  lemma {:induction false} MarkBoughtEntries(list: seq<Json>, sym: Json)
    requires AllDicts(list) && DistinctSymbols(list)
    ensures var r := MarkBought(list, sym);
      forall k :: 0 <= k < |list| ==> r[k] == (if Sym(list[k]) == sym then Mark(list[k]) else list[k])
    decreases |list|
  {
    if list != [] {
      var rest := list[1..];
      assert forall k :: 1 <= k < |list| ==> list[k] == rest[k - 1];
      if Sym(list[0]) != sym {
        MarkBoughtEntries(rest, sym);
      } else {
        forall k | 1 <= k < |list| ensures Sym(list[k]) != sym {
          assert Sym(list[0]) != Sym(list[k]);
        }
      }
    }
  }

  /** Whether some entry of `items` with symbol `sym` has buy_signal 1 and `sym` has a price. */
  predicate Bought(items: seq<Json>, prices: map<Json, real>, sym: Json)
    requires AllDicts(items)
  {
    exists j :: 0 <= j < |items| && Sym(items[j]) == sym && FieldIs(items[j], "buy_signal", 1) == Some(true)
      && sym in prices
  }

  /**
   * The executed symbols are exactly those with buy_signal 1 and a known
   * price, each ordered at that price; in the list written back exactly
   * their entries have buy_count 1 and every other entry is unchanged.
   */
  lemma {:induction false} ExecOutcome(items: seq<Json>, list: seq<Json>, prices: map<Json, real>)
    requires AllDicts(items) && AllDicts(list) && DistinctSymbols(list)
    requires forall k :: 0 <= k < |items| ==> IsTarget(items[k]).Some?
    ensures var (os, w) := ExecFrom(items, list, prices);
      (forall sym :: sym in SymbolsOf(os) <==> Bought(items, prices, sym))
      && (forall o :: o in os ==> o.symbol in prices && o.price == prices[o.symbol])
      && |w| == |list| && AllDicts(w)
      && forall k :: 0 <= k < |list| ==> w[k] == (if Bought(items, prices, Sym(list[k])) then Mark(list[k]) else list[k])
    decreases |items|, 1
  {
    if items != [] {
      var rest := items[1..];
      assert forall k :: 1 <= k < |items| ==> items[k] == rest[k - 1];
      var sym := Sym(items[0]);
      if FieldIs(items[0], "buy_signal", 1) != Some(true) || sym !in prices {
        ExecOutcome(rest, list, prices);
        BoughtSkip(items, prices);
      } else {
        ExecTake(items, list, prices);
      }
    }
  }

  /** `ExecOutcome` for an entry that executes: its symbol is ordered and marked, then the rest runs on the marked list. */
  lemma {:induction false} ExecTake(items: seq<Json>, list: seq<Json>, prices: map<Json, real>)
    requires AllDicts(items) && AllDicts(list) && DistinctSymbols(list)
    requires forall k :: 0 <= k < |items| ==> IsTarget(items[k]).Some?
    requires items != [] && FieldIs(items[0], "buy_signal", 1) == Some(true) && Sym(items[0]) in prices
    ensures var (os, w) := ExecFrom(items, list, prices);
      (forall sym :: sym in SymbolsOf(os) <==> Bought(items, prices, sym))
      && (forall o :: o in os ==> o.symbol in prices && o.price == prices[o.symbol])
      && |w| == |list| && AllDicts(w)
      && forall k :: 0 <= k < |list| ==> w[k] == (if Bought(items, prices, Sym(list[k])) then Mark(list[k]) else list[k])
    decreases |items|, 0
  {
    var rest := items[1..];
    assert forall k :: 1 <= k < |items| ==> items[k] == rest[k - 1];
    var sym := Sym(items[0]);
    var list' := MarkBought(list, sym);
    MarkBoughtAt(list, sym);
    assert DistinctSymbols(list') by {
      assert forall k :: 0 <= k < |list| ==> Sym(list'[k]) == Symbols(list')[k] == Symbols(list)[k] == Sym(list[k]);
    }
    ExecOutcome(rest, list', prices);
    var (os, w) := ExecFrom(rest, list', prices);
    var os' := [Order(sym, prices[sym])] + os;
    assert ExecFrom(items, list, prices) == (os', w);
    assert forall s :: s in SymbolsOf(os') <==> Bought(items, prices, s) by {
      assert SymbolsOf(os') == [sym] + SymbolsOf(os);
      BoughtTake(items, prices);
    }
    assert forall o :: o in os' ==> o.symbol in prices && o.price == prices[o.symbol];
    assert forall k :: 0 <= k < |list| ==> w[k] == (if Bought(items, prices, Sym(list[k])) then Mark(list[k]) else list[k]) by {
      BoughtTake(items, prices);
      forall k | 0 <= k < |list|
        ensures w[k] == (if Bought(items, prices, Sym(list[k])) then Mark(list[k]) else list[k])
      {
        assert Sym(list'[k]) == Symbols(list')[k] == Symbols(list)[k];
        if Sym(list[k]) == sym {
          MarkTwice(list[k]);
        }
      }
    }
  }

  /** Marking an entry twice is marking it once. */
  lemma MarkTwice(item: Json)
    requires item.JObject?
    ensures Mark(Mark(item)) == Mark(item)
  {
    assert Mark(Mark(item)).fields == Mark(item).fields;
  }

  /**
   * With targets, the client is used; the executed symbols are exactly those
   * of the deduplicated list with buy_signal 1 and a price; exactly their
   * entries are written back with buy_count 1.
   */
  lemma ExecuteBuys(present: bool, attempt: nat -> Attempt, ticker: seq<Json> -> Option<seq<(Json, real)>>,
                    bid: Json -> Option<real>)
    requires AllDicts(LoadBuyList(present, attempt))
    requires var d := DedupFrom(LoadBuyList(present, attempt), {});
      d.Some? && AllDicts(d.value) && Targets(d.value).Some? && Targets(d.value).value != []
    ensures var list := DedupFrom(LoadBuyList(present, attempt), {}).value;
      var prices := Prices(Targets(list).value, ticker, bid);
      var r := Execute(present, attempt, ticker, bid);
      r.Some? && r.value.fetched && r.value.written.Some?
      && (forall sym :: sym in r.value.executed <==> Bought(list, prices, sym))
      && |r.value.written.value| == |list|
      && forall k :: 0 <= k < |list| ==>
        r.value.written.value[k] == (if Bought(list, prices, Sym(list[k])) then Mark(list[k]) else list[k])
  {
    var list := DedupFrom(LoadBuyList(present, attempt), {}).value;
    DedupKeepsFirst(LoadBuyList(present, attempt), {});
    TargetsParsed(list);
    ExecOutcome(list, list, Prices(Targets(list).value, ticker, bid));
  }

  /** An entry that does not execute adds nothing to `Bought`. */
  lemma BoughtSkip(items: seq<Json>, prices: map<Json, real>)
    requires AllDicts(items) && items != []
    requires FieldIs(items[0], "buy_signal", 1) != Some(true) || Sym(items[0]) !in prices
    ensures forall s :: Bought(items, prices, s) <==> Bought(items[1..], prices, s)
  {
    var rest := items[1..];
    forall s ensures Bought(items, prices, s) <==> Bought(rest, prices, s) {
      if Bought(items, prices, s) {
        var j :| 0 <= j < |items| && Sym(items[j]) == s && FieldIs(items[j], "buy_signal", 1) == Some(true) && s in prices;
        assert j > 0 && rest[j - 1] == items[j];
      }
      if Bought(rest, prices, s) {
        var j :| 0 <= j < |rest| && Sym(rest[j]) == s && FieldIs(rest[j], "buy_signal", 1) == Some(true) && s in prices;
        assert items[j + 1] == rest[j];
      }
    }
  }

  lemma BoughtTake(items: seq<Json>, prices: map<Json, real>)
    requires AllDicts(items) && items != []
    requires FieldIs(items[0], "buy_signal", 1) == Some(true) && Sym(items[0]) in prices
    ensures forall s :: Bought(items, prices, s) <==> s == Sym(items[0]) || Bought(items[1..], prices, s)
  {
    var rest := items[1..];
    forall s ensures Bought(items, prices, s) <==> s == Sym(items[0]) || Bought(rest, prices, s) {
      if Bought(items, prices, s) && s != Sym(items[0]) {
        var j :| 0 <= j < |items| && Sym(items[j]) == s && FieldIs(items[j], "buy_signal", 1) == Some(true) && s in prices;
        assert j > 0 && rest[j - 1] == items[j];
      }
      if Bought(rest, prices, s) {
        var j :| 0 <= j < |rest| && Sym(rest[j]) == s && FieldIs(rest[j], "buy_signal", 1) == Some(true) && s in prices;
        assert items[j + 1] == rest[j];
      }
    }
  }

  /** The single-entry list of the executor's own example is bought at the ticker price and marked. */
  lemma SingleEntryExample(ticker: seq<Json> -> Option<seq<(Json, real)>>, bid: Json -> Option<real>)
    requires forall ts :: ticker(ts) == Some([(JText("KRW-BTC", None), 100.0)])
    ensures var btc := JText("KRW-BTC", None);
      var item := JObject(map["symbol" := btc, "buy_signal" := JNum(1.0), "buy_count" := JNum(0.0)]);
      Execute(true, (k: nat) => Loaded(JList([item])), ticker, bid)
        == Some(Outcome([btc], [Order(btc, 100.0)], true, Some([Mark(item)])))
  {
    var btc := JText("KRW-BTC", None);
    var item := JObject(map["symbol" := btc, "buy_signal" := JNum(1.0), "buy_count" := JNum(0.0)]);
    assert Sym(item) == btc && Truthy(btc);
    assert [item][1..] == [] && [item] + [] == [item] && [btc] + [] == [btc];
    assert DedupFrom([item][1..], {btc}) == Some([]);
    assert DedupFrom([item], {}) == Some([item]);
    assert IntOf(JNum(1.0)) == Some(1) && IntOf(JNum(0.0)) == Some(0);
    assert Get(item.fields, "buy_signal", JNum(0.0)) == JNum(1.0);
    assert Get(item.fields, "buy_count", JNum(0.0)) == JNum(0.0);
    assert IsTarget(item) == Some(true);
    assert Targets([item][1..]) == Some([]);
    assert Targets([item]) == Some([btc]);
    assert PricesOf([(btc, 100.0)]) == map[btc := 100.0];
    assert Missing([btc], map[btc := 100.0]) == [];
    assert ticker([btc]) == Some([(btc, 100.0)]);
    assert MarkBought([item], btc) == [Mark(item)];
    var prices := map[btc := 100.0];
    assert Prices([btc], ticker, bid) == prices;
    assert ExecFrom([item][1..], [Mark(item)], prices) == ([], [Mark(item)]);
    assert FieldIs(item, "buy_signal", 1) == Some(true) && btc in prices;
    assert [Order(btc, 100.0)] + [] == [Order(btc, 100.0)];
    assert ExecFrom([item], [item], prices) == ([Order(btc, 100.0)], [Mark(item)]);
    assert SymbolsOf([Order(btc, 100.0)]) == [btc];
  }

  // ------------------------------------------------------------ execute_buy_list, step by step

  /** Prepends the kept entries to what the rest of the loop yields. */
  function Kept(d: seq<Json>, rest: Option<seq<Json>>): Option<seq<Json>>
  {
    if rest.Some? then Some(d + rest.value) else None
  }

  /** The deduplication loop. */
  method RunDedup(items: seq<Json>) returns (r: Option<seq<Json>>)
    ensures r == DedupFrom(items, {})
  {
    var seen: set<Json> := {};
    var deduped: seq<Json> := [];
    var i := 0;
    assert Kept([], DedupFrom(items[0..], seen)) == DedupFrom(items, {}) by {
      assert items[0..] == items;
      var d := DedupFrom(items, {});
      assert d.Some? ==> [] + d.value == d.value;
    }
    while i < |items|
      invariant 0 <= i <= |items|
      invariant Kept(deduped, DedupFrom(items[i..], seen)) == DedupFrom(items, {})
    {
      assert items[i..][1..] == items[i + 1..];
      var item := items[i];
      if !item.JObject? {
        return None;
      }
      var symbol := Get(item.fields, "symbol", JNull);
      if Truthy(symbol) && symbol !in seen {
        ghost var rest := DedupFrom(items[i + 1..], seen + {symbol});
        assert rest.Some? ==> deduped + ([item] + rest.value) == (deduped + [item]) + rest.value;
        deduped := deduped + [item];
        seen := seen + {symbol};
      }
      i := i + 1;
    }
    assert deduped + [] == deduped;
    r := Some(deduped);
  }

  /** The order-book fallback loop over the targets still without a price. */
  method RunFallback(prices0: map<Json, real>, missing: seq<Json>, bid: Json -> Option<real>)
    returns (prices: map<Json, real>)
    ensures prices == Fallback(prices0, missing, bid)
  {
    prices := prices0;
    var i := 0;
    while i < |missing|
      invariant 0 <= i <= |missing|
      invariant Fallback(prices0, missing, bid) == Fallback(prices, missing[i..], bid)
    {
      assert missing[i..][1..] == missing[i + 1..];
      var p := bid(missing[i]);
      if p.Some? && p.value > 0.0 {
        prices := prices[missing[i] := p.value];
      }
      i := i + 1;
    }
  }

  /** The inner loop: `it["buy_count"] = 1` on the first entry with the symbol, then `break`. */
  method RunMarkBought(list: seq<Json>, sym: Json) returns (r: seq<Json>)
    requires AllDicts(list)
    ensures r == MarkBought(list, sym)
  {
    var k := 0;
    assert list[..0] + MarkBought(list[0..], sym) == MarkBought(list, sym) by {
      assert list[..0] == [] && list[0..] == list;
    }
    while k < |list|
      invariant 0 <= k <= |list|
      invariant list[..k] + MarkBought(list[k..], sym) == MarkBought(list, sym)
    {
      if Get(list[k].fields, "symbol", JNull) == sym {
        MarkBoughtHit(list, sym, k);
        return list[..k] + [Mark(list[k])] + list[k + 1..];
      }
      MarkBoughtStep(list, sym, k);
      k := k + 1;
    }
    assert list[..k] == list && list[k..] == [];
    r := list;
  }

  /** Passing an entry with another symbol. */
  lemma MarkBoughtStep(list: seq<Json>, sym: Json, k: nat)
    requires AllDicts(list) && k < |list| && Sym(list[k]) != sym
    ensures list[..k] + MarkBought(list[k..], sym) == list[..k + 1] + MarkBought(list[k + 1..], sym)
  {
    assert list[k..][1..] == list[k + 1..] && list[k..][0] == list[k];
    assert MarkBought(list[k..], sym) == [list[k]] + MarkBought(list[k + 1..], sym);
    assert list[..k] + [list[k]] == list[..k + 1];
  }

  /** Marking the entry with the symbol. */
  lemma MarkBoughtHit(list: seq<Json>, sym: Json, k: nat)
    requires AllDicts(list) && k < |list| && Sym(list[k]) == sym
    ensures list[..k] + MarkBought(list[k..], sym) == list[..k] + [Mark(list[k])] + list[k + 1..]
  {
    assert list[k..][1..] == list[k + 1..] && list[k..][0] == list[k];
  }

  /** The execution loop over the deduplicated list. */
  method RunExec(list: seq<Json>, prices: map<Json, real>) returns (orders: seq<Order>, written: seq<Json>)
    requires AllDicts(list) && forall k :: 0 <= k < |list| ==> IsTarget(list[k]).Some?
    ensures (orders, written) == ExecFrom(list, list, prices)
  {
    orders := [];
    written := list;
    var i := 0;
    assert [] + ExecFrom(list[0..], list, prices).0 == ExecFrom(list, list, prices).0 by {
      assert list[0..] == list;
    }
    while i < |list|
      invariant 0 <= i <= |list| && AllDicts(written)
      invariant ExecFrom(list, list, prices)
        == (orders + ExecFrom(list[i..], written, prices).0, ExecFrom(list[i..], written, prices).1)
    {
      assert list[i..][1..] == list[i + 1..];
      var item := list[i];
      var symbol := Get(item.fields, "symbol", JNull);
      if FieldIs(item, "buy_signal", 1) == Some(true) && symbol in prices {
        var order := Order(symbol, prices[symbol]);
        ghost var rest := ExecFrom(list[i + 1..], MarkBought(written, symbol), prices);
        assert orders + ([order] + rest.0) == (orders + [order]) + rest.0;
        orders := orders + [order];
        written := RunMarkBought(written, symbol);
      }
      i := i + 1;
    }
    assert orders + [] == orders;
  }

  /** `execute_buy_list`, its loops run step by step. */
  method RunExecute(present: bool, attempt: nat -> Attempt, ticker: seq<Json> -> Option<seq<(Json, real)>>,
                    bid: Json -> Option<real>) returns (r: Option<Outcome>)
    ensures r == Execute(present, attempt, ticker, bid)
  {
    var loaded := RunLoadBuyList(present, attempt);
    var d := RunDedup(loaded);
    if d.None? {
      return None;
    }
    var list := d.value;
    DedupDicts(loaded, {});
    var targets := Targets(list);
    if targets.None? {
      return None;
    }
    if targets.value == [] {
      return Some(Outcome([], [], false, None));
    }
    var info := ticker(targets.value);
    var quoted := if info.Some? then PricesOf(info.value) else map[];
    var prices := RunFallback(quoted, Missing(targets.value, quoted), bid);
    TargetsParsed(list);
    var orders, written := RunExec(list, prices);
    r := Some(Outcome(SymbolsOf(orders), orders, true, Some(written)));
  }
}
