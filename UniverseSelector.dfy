/**
 * The universe selector: the top-volume scan over the KRW markets, the
 * per-ticker rows built from the ticker and orderbook endpoints, the three
 * filter stages (price and tick range, volatility, spread), the final cut to
 * `universe_size`, the cached universe with its file fallback, and the import
 * of account holdings as open positions.
 *
 * HTTP calls are parameters: `fetchTickers` is what the /ticker endpoint
 * returns for a chunk of market codes, `fetchBooks` what /orderbook returns
 * (an empty list where the request fails). Files are values of small
 * datatypes. Positions hold the fields `init_coin_positions` writes.
 */
module UniverseSelector {
  import opened Common
  import Ticks

  // ------------------------------------------------------------ configuration

  /** A configuration number; Python's `float("inf")` is `Infinity`. */
  datatype Number = Finite(value: real) | Infinity

  type Config = map<string, Number>

  /** The defaults `load_config` returns when the file is missing. */
  function DefaultConfig(): Config
  {
    map["min_price" := Number.Finite(0.0), "max_price" := Infinity, "min_volatility" := Number.Finite(0.0),
        "min_ticks" := Number.Finite(0.0), "max_spread" := Number.Finite(100.0), "volume_rank" := Number.Finite(50.0),
        "universe_size" := Number.Finite(5.0)]
  }

  datatype ConfigFile = MissingConfig | UnparsableConfig | ConfigText(cfg: Config)

  /** `load_config`: a missing file gives the defaults; a file that does not parse raises (None). */
  function LoadConfig(f: ConfigFile): (r: Option<Config>)
    ensures f.MissingConfig? ==> r == Some(DefaultConfig())
    ensures f.UnparsableConfig? <==> r.None?
  {
    match f
    case MissingConfig => Some(DefaultConfig())
    case UnparsableConfig => None
    case ConfigText(cfg) => Some(cfg)
  }

  function NumberGet(cfg: Config, key: string, default: Number): Number
  {
    if key in cfg then cfg[key] else default
  }

  /** `int(x)`: truncation; `int(inf)` raises OverflowError. */
  function IntOfNumber(n: Number): Option<int>
  {
    match n
    case Finite(v) => Some(Trunc(v))
    case Infinity => None
  }

  /** `a <= x` and `x <= b` against a configuration number. */
  predicate AtLeast(x: real, a: Number) { a.Finite? && a.value <= x }
  predicate AtMost(x: real, b: Number) { b.Infinity? || x <= b.value }

  // ------------------------------------------------------------ top volume

  /** One item of the /ticker response; absent numbers are None and read with the code's defaults. */
  datatype TickerItem = TickerItem(market: string, tradePrice: Option<real>, highPrice: Option<real>,
                                   lowPrice: Option<real>, prevClosingPrice: Option<real>,
                                   accTradePrice24h: Option<real>)

  type FetchTickers = seq<string> -> seq<TickerItem>

  function OrDefault(x: Option<real>, d: real): real { if x.Some? then x.value else d }

  /** `x.get("acc_trade_price_24h", 0)`. */
  function Volume(x: TickerItem): real { OrDefault(x.accTradePrice24h, 0.0) }

  /** The market codes of /market/all that start with "KRW-"; an absent code reads as "". */
  function KrwMarkets(markets: seq<string>): (r: seq<string>)
    ensures forall m :: m in r ==> IsPrefix("KRW-", m)
  {
    Filter(markets, (m: string) => IsPrefix("KRW-", m))
  }

  /** `range(0, len(s), 100)` chunks. */
  function ChunkEnd(n: nat): nat { Min(100, n) }

  /** The chunked requests of a list of market codes, results concatenated in chunk order. */
  function Chunked(s: seq<string>, fetchTickers: FetchTickers): seq<TickerItem>
    decreases |s|
  {
    if s == [] then [] else fetchTickers(s[..ChunkEnd(|s|)]) + Chunked(s[ChunkEnd(|s|)..], fetchTickers)
  }

  /** Descending by 24h trade value, ties in fetch order: `sorted(..., reverse=True)`. */
  function ByVolumeDesc(items: seq<TickerItem>): (r: seq<TickerItem>)
    ensures |r| == |items| && multiset(r) == multiset(items)
    ensures forall i, j :: 0 <= i < j < |r| ==> Volume(r[i]) >= Volume(r[j])
  {
    var r := SortBy(items, (x: TickerItem) => -Volume(x));
    assert forall i, j :: 0 <= i < j < |r| ==> -Volume(r[i]) <= -Volume(r[j]);
    r
  }

  function MarketsOf(items: seq<TickerItem>): (r: seq<string>)
    ensures |r| == |items| && forall i :: 0 <= i < |items| ==> r[i] == items[i].market
  {
    if items == [] then [] else [items[0].market] + MarketsOf(items[1..])
  }

  /** The items `get_top_volume_tickers(size)` keeps: an empty market list gives none. */
  function TopVolumeItems(markets: seq<string>, size: int, fetchTickers: FetchTickers): seq<TickerItem>
  {
    if markets == [] then []
    else Head(ByVolumeDesc(Chunked(KrwMarkets(markets), fetchTickers)), size)
  }

  function TopVolumeTickers(markets: seq<string>, size: int, fetchTickers: FetchTickers): seq<string>
  {
    MarketsOf(TopVolumeItems(markets, size, fetchTickers))
  }

  /** The endpoint answers only for the markets it was asked about. */
  ghost predicate AnswersAsked(fetchTickers: FetchTickers)
  {
    forall chunk: seq<string>, i :: 0 <= i < |fetchTickers(chunk)| ==> fetchTickers(chunk)[i].market in chunk
  }

  lemma {:induction false} ChunkedAnswers(s: seq<string>, fetchTickers: FetchTickers)
    requires AnswersAsked(fetchTickers)
    ensures forall x :: x in Chunked(s, fetchTickers) ==> x.market in s
    decreases |s|
  {
    if s != [] {
      var c := ChunkEnd(|s|);
      ChunkedAnswers(s[c..], fetchTickers);
      assert s == s[..c] + s[c..];
      forall x | x in Chunked(s, fetchTickers) ensures x.market in s {
        if x in fetchTickers(s[..c]) {
          var i :| 0 <= i < |fetchTickers(s[..c])| && fetchTickers(s[..c])[i] == x;
          assert x.market in s[..c];
        }
      }
    }
  }

  /**
   * The top tickers are at most `size` (when `size` is not negative), are
   * ordered by non-increasing trade value, and every item left out has a
   * trade value no larger than every item kept.
   */
  lemma TopVolumeIsTop(markets: seq<string>, size: int, fetchTickers: FetchTickers)
    ensures size >= 0 ==> |TopVolumeTickers(markets, size, fetchTickers)| <= size
    ensures var items := TopVolumeItems(markets, size, fetchTickers);
      forall i, j :: 0 <= i < j < |items| ==> Volume(items[i]) >= Volume(items[j])
    ensures markets != [] ==>
      var sorted := ByVolumeDesc(Chunked(KrwMarkets(markets), fetchTickers));
      var items := TopVolumeItems(markets, size, fetchTickers);
      forall i, j :: 0 <= i < |items| <= j < |sorted| ==> Volume(items[i]) >= Volume(sorted[j])
  {
  }

  /** When the endpoint answers only for what it is asked, every top ticker is a KRW- market. */
  lemma TopVolumeKrwOnly(markets: seq<string>, size: int, fetchTickers: FetchTickers)
    requires AnswersAsked(fetchTickers)
    ensures forall t :: t in TopVolumeTickers(markets, size, fetchTickers) ==> IsPrefix("KRW-", t)
  {
    if markets != [] {
      var krw := KrwMarkets(markets);
      var sorted := ByVolumeDesc(Chunked(krw, fetchTickers));
      var items := Head(sorted, size);
      ChunkedAnswers(krw, fetchTickers);
      forall t | t in MarketsOf(items) ensures IsPrefix("KRW-", t) {
        var i :| 0 <= i < |items| && MarketsOf(items)[i] == t;
        assert items[i] in multiset(sorted);
        assert items[i] in Chunked(krw, fetchTickers);
      }
    }
  }

  /** `get_top_volume_tickers`: the chunk loop with `extend`, then the sort and the cut. */
  method GetTopVolumeTickers(markets: seq<string>, size: int, fetchTickers: FetchTickers) returns (r: seq<string>)
    ensures r == TopVolumeTickers(markets, size, fetchTickers)
  {
    if markets == [] {
      return [];
    }
    var krw := KrwMarkets(markets);
    var info: seq<TickerItem> := [];
    var i := 0;
    while i < |krw|
      invariant 0 <= i <= |krw|
      invariant Chunked(krw, fetchTickers) == info + Chunked(krw[i..], fetchTickers)
    {
      var chunk := krw[i..][..ChunkEnd(|krw| - i)];
      var rest := Chunked(krw[i..][ChunkEnd(|krw| - i)..], fetchTickers);
      assert info + Chunked(krw[i..], fetchTickers) == (info + fetchTickers(chunk)) + rest;
      info := info + fetchTickers(chunk);
      assert krw[i..][ChunkEnd(|krw| - i)..] == krw[i + ChunkEnd(|krw| - i)..];
      i := i + ChunkEnd(|krw| - i);
    }
    assert krw[i..] == [];
    assert info + [] == info;
    r := MarketsOf(Head(ByVolumeDesc(info), size));
  }

  // ------------------------------------------------------------ rows

  datatype BookUnit = BookUnit(askPrice: Option<real>, bidPrice: Option<real>)

  /** One entry of the /orderbook response. */
  datatype Book = Book(market: string, units: seq<BookUnit>)

  type FetchBooks = seq<string> -> seq<Book>

  /** `{d.get("market", ""): d for d in books}.get(market)`: the last entry for the market wins. */
  function BookFor(books: seq<Book>, market: string): (r: Option<Book>)
    ensures r.Some? ==> r.value in books && r.value.market == market
    ensures r.None? ==> forall b :: b in books ==> b.market != market
  {
    if books == [] then None
    else
      match BookFor(books[1..], market)
      case Some(b) => Some(b)
      case None => if books[0].market == market then Some(books[0]) else None
  }

  /** The dict `apply_filters` appends per ticker item. */
  datatype Row = Row(symbol: string, price: real, volatility: real, tickRange: real, spread: real)

  /** `(ask - bid) / price * 100 if price else 0`. */
  function Spread(ask: real, bid: real, price: real): (r: real)
    ensures price == 0.0 ==> r == 0.0
    ensures price != 0.0 ==> r * price == (ask - bid) * 100.0
  {
    if price != 0.0 then (ask - bid) / price * 100.0 else 0.0
  }

  /** The ask and bid of the first unit, each falling back to the last price; the price itself without a book. */
  function Quotes(book: Option<Book>, price: real): (real, real)
  {
    if book.Some? && book.value.units != [] then
      (OrDefault(book.value.units[0].askPrice, price), OrDefault(book.value.units[0].bidPrice, price))
    else (price, price)
  }

  /** One row; None where a previous close of 0 divides by zero. */
  function RowOf(item: TickerItem, books: seq<Book>): Option<Row>
  {
    var price := OrDefault(item.tradePrice, 0.0);
    var high := OrDefault(item.highPrice, 0.0);
    var low := OrDefault(item.lowPrice, 0.0);
    var prev := OrDefault(item.prevClosingPrice, 1.0);
    if prev == 0.0 then None
    else
      var volatility := (high - low) / prev * 100.0;
      assert Ticks.UniverseTick(price) > 0.0 by { Ticks.UniverseTickTable(price); }
      var tickRange := (high - low) / Ticks.UniverseTick(price);
      var (ask, bid) := Quotes(BookFor(books, item.market), price);
      Some(Row(item.market, price, volatility, tickRange, Spread(ask, bid, price)))
  }

  /**
   * The spread is 0 at a zero price; with no orderbook entry for the market
   * (or one without units) both quotes are the price and the spread is 0.
   */
  lemma SpreadFallbacks(item: TickerItem, books: seq<Book>)
    requires RowOf(item, books).Some?
    ensures OrDefault(item.tradePrice, 0.0) == 0.0 ==> RowOf(item, books).value.spread == 0.0
    ensures (forall b :: b in books && b.market == item.market ==> b.units == []) ==> RowOf(item, books).value.spread == 0.0
    ensures RowOf(item, books).value.symbol == item.market
  {
  }

  type Rows = Option<seq<Row>>

  /** `a + rows` when no exception was raised. */
  function Prefixed(a: seq<Row>, rows: Rows): Rows
  {
    if rows.None? then None else Some(a + rows.value)
  }

  /** The inner loop over the items of one /ticker response. */
  function ItemRows(items: seq<TickerItem>, books: seq<Book>): Rows
    decreases |items|
  {
    if items == [] then Some([])
    else
      match RowOf(items[0], books)
      case None => None
      case Some(row) => Prefixed([row], ItemRows(items[1..], books))
  }

  /** The `info` list `apply_filters` builds, chunk by chunk. */
  function Info(tickers: seq<string>, fetchTickers: FetchTickers, fetchBooks: FetchBooks): Rows
    decreases |tickers|
  {
    if tickers == [] then Some([])
    else
      var chunk := tickers[..ChunkEnd(|tickers|)];
      match ItemRows(fetchTickers(chunk), fetchBooks(chunk))
      case None => None
      case Some(rows) => Prefixed(rows, Info(tickers[ChunkEnd(|tickers|)..], fetchTickers, fetchBooks))
  }

  lemma PrefixedAssoc(a: seq<Row>, b: seq<Row>, rows: Rows)
    ensures Prefixed(a, Prefixed(b, rows)) == Prefixed(a + b, rows)
  {
    if rows.Some? {
      assert a + (b + rows.value) == (a + b) + rows.value;
    }
  }

  lemma PrefixedEmpty(rows: Rows)
    ensures Prefixed([], rows) == rows
  {
    if rows.Some? {
      assert [] + rows.value == rows.value;
    }
  }

  method ChunkRows(items: seq<TickerItem>, books: seq<Book>) returns (r: Rows)
    ensures r == ItemRows(items, books)
  {
    var rows: seq<Row> := [];
    var i := 0;
    PrefixedEmpty(ItemRows(items, books));
    while i < |items|
      invariant 0 <= i <= |items|
      invariant ItemRows(items, books) == Prefixed(rows, ItemRows(items[i..], books))
    {
      assert items[i..][1..] == items[i + 1..];
      var row := RowOf(items[i], books);
      if row.None? {
        return None;
      }
      PrefixedAssoc(rows, [row.value], ItemRows(items[i + 1..], books));
      rows := rows + [row.value];
      i := i + 1;
    }
    assert items[i..] == [];
    assert rows + [] == rows;
    r := Some(rows);
  }

  /** The row-building loop of `apply_filters`: one batched ticker and orderbook request per chunk. */
  method BuildInfo(tickers: seq<string>, fetchTickers: FetchTickers, fetchBooks: FetchBooks) returns (r: Rows)
    ensures r == Info(tickers, fetchTickers, fetchBooks)
  {
    var info: seq<Row> := [];
    var i := 0;
    PrefixedEmpty(Info(tickers, fetchTickers, fetchBooks));
    while i < |tickers|
      invariant 0 <= i <= |tickers|
      invariant Info(tickers, fetchTickers, fetchBooks) == Prefixed(info, Info(tickers[i..], fetchTickers, fetchBooks))
    {
      var chunk := tickers[i..][..ChunkEnd(|tickers| - i)];
      assert tickers[i..][ChunkEnd(|tickers| - i)..] == tickers[i + ChunkEnd(|tickers| - i)..];
      var rows := ChunkRows(fetchTickers(chunk), fetchBooks(chunk));
      if rows.None? {
        return None;
      }
      PrefixedAssoc(info, rows.value, Info(tickers[i + ChunkEnd(|tickers| - i)..], fetchTickers, fetchBooks));
      info := info + rows.value;
      i := i + ChunkEnd(|tickers| - i);
    }
    assert tickers[i..] == [];
    assert info + [] == info;
    r := Some(info);
  }

  // ------------------------------------------------------------ filter stages

  predicate PriceStage(t: Row, cfg: Config)
  {
    AtLeast(t.price, NumberGet(cfg, "min_price", Number.Finite(0.0)))
    && AtMost(t.price, NumberGet(cfg, "max_price", Infinity))
    && AtLeast(t.tickRange, NumberGet(cfg, "min_ticks", Number.Finite(0.0)))
  }

  predicate VolatilityStage(t: Row, cfg: Config)
  {
    AtLeast(t.volatility, NumberGet(cfg, "min_volatility", Number.Finite(0.0)))
  }

  predicate SpreadStage(t: Row, cfg: Config)
  {
    AtMost(t.spread, NumberGet(cfg, "max_spread", Number.Finite(100.0)))
  }

  function PriceTest(cfg: Config): Row -> bool { t => PriceStage(t, cfg) }
  function VolatilityTest(cfg: Config): Row -> bool { t => VolatilityStage(t, cfg) }
  function SpreadTest(cfg: Config): Row -> bool { t => SpreadStage(t, cfg) }

  /** The price stage, then the volatility stage on what it kept. */
  function FirstTwoStages(info: seq<Row>, cfg: Config): seq<Row>
  {
    Filter(Filter(info, PriceTest(cfg)), VolatilityTest(cfg))
  }

  /** The three comprehensions, one after the other. */
  function Stages(info: seq<Row>, cfg: Config): seq<Row>
  {
    Filter(FirstTwoStages(info, cfg), SpreadTest(cfg))
  }

  predicate PassesAll(t: Row, cfg: Config)
  {
    PriceStage(t, cfg) && VolatilityStage(t, cfg) && SpreadStage(t, cfg)
  }

  function Symbols(rows: seq<Row>): (r: seq<string>)
    ensures |r| == |rows| && forall i :: 0 <= i < |rows| ==> r[i] == rows[i].symbol
  {
    if rows == [] then [] else [rows[0].symbol] + Symbols(rows[1..])
  }

  /** Each stage keeps a subsequence of the stage before it, so order is preserved. */
  lemma StagesKeepOrder(info: seq<Row>, cfg: Config)
    ensures IsSubsequence(Filter(info, PriceTest(cfg)), info)
    ensures IsSubsequence(FirstTwoStages(info, cfg), Filter(info, PriceTest(cfg)))
    ensures IsSubsequence(Stages(info, cfg), FirstTwoStages(info, cfg))
  {
    FilterIsSubsequence(info, PriceTest(cfg));
    FilterIsSubsequence(Filter(info, PriceTest(cfg)), VolatilityTest(cfg));
    FilterIsSubsequence(FirstTwoStages(info, cfg), SpreadTest(cfg));
  }

  function FirstTwoTest(cfg: Config): Row -> bool { t => PriceStage(t, cfg) && VolatilityStage(t, cfg) }
  function AllTests(cfg: Config): Row -> bool { t => PassesAll(t, cfg) }

  /** The three stages in a row keep, in input order, exactly the rows that pass all three tests. */
  lemma StagesAreOneFilter(info: seq<Row>, cfg: Config)
    ensures Stages(info, cfg) == Filter(info, AllTests(cfg))
  {
    FilterFilter(info, PriceTest(cfg), VolatilityTest(cfg), FirstTwoTest(cfg));
    FilterFilter(info, FirstTwoTest(cfg), SpreadTest(cfg), AllTests(cfg));
  }

  /** `apply_filters`: None where building a row raised. */
  function ApplyFilters(tickers: seq<string>, cfg: Config, fetchTickers: FetchTickers, fetchBooks: FetchBooks): Option<seq<string>>
  {
    match Info(tickers, fetchTickers, fetchBooks)
    case None => None
    case Some(info) => Some(Symbols(Stages(info, cfg)))
  }

  // ------------------------------------------------------------ selection

  /** `universe_size <= 0` keeps everything, otherwise the first `universe_size`. */
  function CutToSize(filtered: seq<string>, size: int): (r: seq<string>)
    ensures size <= 0 ==> r == filtered
    ensures size > 0 ==> r == filtered[..Min(size, |filtered|)]
  {
    if size <= 0 then filtered else Head(filtered, size)
  }

  /**
   * `select_universe(config)`: an absent or empty `config` loads the file;
   * None where loading, an `int` conversion or a row raises.
   */
  function SelectUniverse(config: Option<Config>, file: ConfigFile, markets: seq<string>,
                          fetchTickers: FetchTickers, fetchBooks: FetchBooks): Option<seq<string>>
  {
    var cfg := if config.Some? && config.value != map[] then Some(config.value) else LoadConfig(file);
    if cfg.None? then None
    else
      var rank := IntOfNumber(NumberGet(cfg.value, "volume_rank", Number.Finite(50.0)));
      if rank.None? then None
      else
        var tickers := TopVolumeTickers(markets, rank.value, fetchTickers);
        match ApplyFilters(tickers, cfg.value, fetchTickers, fetchBooks)
        case None => None
        case Some(filtered) =>
          var size := IntOfNumber(NumberGet(cfg.value, "universe_size", Number.Finite(0.0)));
          if size.None? then None else Some(CutToSize(filtered, size.value))
  }

  /**
   * The selected universe is the filtered list, cut to `universe_size` only
   * when it is positive, and every selected ticker passed all three stages.
   */
  lemma SelectUniverseShape(cfg: Config, file: ConfigFile, markets: seq<string>,
                            fetchTickers: FetchTickers, fetchBooks: FetchBooks, info: seq<Row>)
    requires cfg != map[]
    requires "volume_rank" in cfg && cfg["volume_rank"].Finite?
    requires "universe_size" in cfg && cfg["universe_size"].Finite?
    requires Info(TopVolumeTickers(markets, Trunc(cfg["volume_rank"].value), fetchTickers), fetchTickers, fetchBooks) == Some(info)
    ensures SelectUniverse(Some(cfg), file, markets, fetchTickers, fetchBooks)
      == Some(CutToSize(Symbols(Filter(info, AllTests(cfg))), Trunc(cfg["universe_size"].value)))
  {
    StagesAreOneFilter(info, cfg);
  }

  // ------------------------------------------------------------ the cached universe

  /** What config/current_universe.json holds. */
  datatype UniverseFile = NoUniverseFile | UnreadableUniverse | NotAList | TickerList(tickers: seq<string>)

  /** The module-level `_UNIVERSE` list and the file that backs it. */
  class UniverseCache {
    var universe: seq<string>
    var file: UniverseFile

    constructor (onDisk: UniverseFile)
      ensures universe == [] && file == onDisk
    {
      universe := [];
      file := onDisk;
    }

    /**
     * `update_universe` given what `select_universe` returned (None when it
     * raised, which leaves everything as it was); a failed file write is
     * swallowed and leaves the file as it was.
     */
    method UpdateUniverse(selected: Option<seq<string>>, writeSucceeds: bool)
      modifies this
      ensures selected.None? ==> universe == old(universe) && file == old(file)
      ensures selected.Some? ==> universe == selected.value
      ensures selected.Some? ==> file == if writeSucceeds then TickerList(selected.value) else old(file)
    {
      if selected.None? {
        return;
      }
      universe := selected.value;
      if writeSucceeds {
        file := TickerList(selected.value);
      }
    }

    /** `load_universe_from_file`: a list replaces the cache and is returned; anything else gives []. */
    method LoadUniverseFromFile() returns (r: seq<string>)
      modifies this
      ensures file == old(file)
      ensures r == if file.TickerList? then file.tickers else []
      ensures universe == if file.TickerList? then file.tickers else old(universe)
    {
      match file
      case TickerList(ts) =>
        universe := ts;
        r := ts;
      case _ =>
        r := [];
    }

    /** `get_universe`: a copy of a non-empty cache, else the file's list. */
    method GetUniverse() returns (r: seq<string>)
      modifies this
      ensures file == old(file)
      ensures old(universe) != [] ==> r == old(universe) && universe == old(universe)
      ensures old(universe) == [] ==> r == (if file.TickerList? then file.tickers else [])
      ensures old(universe) == [] ==> universe == (if file.TickerList? then file.tickers else [])
    {
      if universe != [] {
        r := universe;
      } else {
        r := LoadUniverseFromFile();
      }
    }
  }

  /** After an update whose file write succeeded, `get_universe` returns what was selected, even an empty list. */
  method UpdateThenGet(onDisk: UniverseFile, selected: seq<string>) returns (r: seq<string>)
    ensures r == selected
  {
    var cache := new UniverseCache(onDisk);
    cache.UpdateUniverse(Some(selected), true);
    r := cache.GetUniverse();
  }

  // ------------------------------------------------------------ importing holdings

  /** One entry of the accounts endpoint, with the code's defaults already applied. */
  datatype Account = Account(currency: string, balance: real, avgBuyPrice: real, unitCurrency: string)

  /** One position of config/coin_positions.json. */
  datatype PositionRecord = PositionRecord(symbol: string, entryTime: real, entryPrice: real, qty: real,
                                           pyramidCount: int, avgdownCount: int, status: string,
                                           origin: string, strategy: string)

  datatype PositionsFile = NoPositionsFile | UnreadablePositions | Positions(records: seq<PositionRecord>)

  /** The existing list: a missing or unreadable file reads as []. */
  function Existing(f: PositionsFile): seq<PositionRecord>
  {
    if f.Positions? then f.records else []
  }

  /** `{p.get("symbol") for p in existing if p.get("status") == "open"}`. */
  function OpenSymbols(existing: seq<PositionRecord>): (r: set<string>)
    ensures forall s :: s in r <==> exists i :: 0 <= i < |existing| && existing[i].symbol == s && existing[i].status == "open"
  {
    set i | 0 <= i < |existing| && existing[i].status == "open" :: existing[i].symbol
  }

  function SymbolOf(a: Account): string { a.unitCurrency + "-" + a.currency }

  /** The three `continue`s: KRW itself, holdings worth less than the threshold, symbols already open. */
  predicate Imports(a: Account, open: set<string>, threshold: real)
  {
    a.currency != "KRW" && !(a.balance * a.avgBuyPrice < threshold) && SymbolOf(a) !in open
  }

  function Imported(a: Account, now: real): PositionRecord
  {
    PositionRecord(SymbolOf(a), now, a.avgBuyPrice, a.balance, 0, 0, "open", "imported", "imported")
  }

  /** The `new_positions` list. */
  function NewPositions(accounts: seq<Account>, open: set<string>, threshold: real, now: real): seq<PositionRecord>
    decreases |accounts|
  {
    if accounts == [] then []
    else
      (if Imports(accounts[0], open, threshold) then [Imported(accounts[0], now)] else [])
      + NewPositions(accounts[1..], open, threshold, now)
  }

  /**
   * Every imported position is open, worth at least the threshold, not KRW
   * and not already open, with the account's balance and average price;
   * and every account that passes the three tests is imported.
   */
  lemma {:induction false} NewPositionsIff(accounts: seq<Account>, open: set<string>, threshold: real, now: real)
    ensures forall p :: p in NewPositions(accounts, open, threshold, now) ==>
      p.status == "open" && p.origin == "imported" && p.symbol !in open && p.qty * p.entryPrice >= threshold
    ensures forall a :: a in accounts && Imports(a, open, threshold) ==> Imported(a, now) in NewPositions(accounts, open, threshold, now)
    ensures forall p :: p in NewPositions(accounts, open, threshold, now) ==>
      exists a :: a in accounts && Imports(a, open, threshold) && p == Imported(a, now)
    decreases |accounts|
  {
    if accounts != [] {
      NewPositionsIff(accounts[1..], open, threshold, now);
      assert forall a :: a in accounts ==> a == accounts[0] || a in accounts[1..];
    }
  }

  class PositionStore {
    var file: PositionsFile

    constructor (onDisk: PositionsFile)
      ensures file == onDisk
    {
      file := onDisk;
    }

    /**
     * `init_coin_positions`: holdings worth at least `threshold` that are not
     * KRW and not already open are appended to the existing list; the file
     * is written only when something was imported; a failed account request
     * (None) changes nothing, and so does a failed write.
     */
    method InitCoinPositions(threshold: real, accounts: Option<seq<Account>>, now: real, writeSucceeds: bool)
      modifies this
      ensures accounts.None? ==> file == old(file)
      ensures accounts.Some? ==>
        var added := NewPositions(accounts.value, OpenSymbols(Existing(old(file))), threshold, now);
        file == if added != [] && writeSucceeds then Positions(Existing(old(file)) + added) else old(file)
    {
      if accounts.None? {
        return;
      }
      var existing := Existing(file);
      var open := OpenSymbols(existing);
      var coins := accounts.value;
      var added: seq<PositionRecord> := [];
      var i := 0;
      while i < |coins|
        invariant 0 <= i <= |coins|
        invariant file == old(file)
        invariant NewPositions(coins, open, threshold, now) == added + NewPositions(coins[i..], open, threshold, now)
      {
        assert coins[i..][1..] == coins[i + 1..];
        var coin := coins[i];
        if coin.currency != "KRW" && !(coin.balance * coin.avgBuyPrice < threshold) && SymbolOf(coin) !in open {
          assert added + NewPositions(coins[i..], open, threshold, now)
              == (added + [Imported(coin, now)]) + NewPositions(coins[i + 1..], open, threshold, now);
          added := added + [Imported(coin, now)];
        }
        i := i + 1;
      }
      assert coins[i..] == [];
      assert added + [] == added;
      if added != [] && writeSucceeds {
        file := Positions(existing + added);
      }
    }
  }

  /** Two holdings, one of them KRW and one below the threshold, import nothing and leave the file unwritten. */
  lemma NothingToImport(open: set<string>, now: real)
    ensures NewPositions([Account("KRW", 1000000.0, 1.0, "KRW"), Account("BTC", 0.0001, 10000.0, "KRW")],
                         open, 5000.0, now) == []
  {
    var accounts := [Account("KRW", 1000000.0, 1.0, "KRW"), Account("BTC", 0.0001, 10000.0, "KRW")];
    assert accounts[1..][1..] == [];
  }
}
