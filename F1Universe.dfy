/**
 * The older stand-alone universe module `f1_universe.py`. Its configuration,
 * tick table, top-volume scan and filter stages are those of the universe
 * selector and are reused from there; what differs is how a row gets its
 * quotes (one /orderbook request per ticker, whose first unit is indexed
 * without a guard) and the cache, which has no file behind it.
 *
 * `fetchBook(m)` is what /orderbook returns for the single market `m` (an
 * empty list where the request fails).
 */
module F1Universe {
  import opened Common
  import Ticks
  import opened UniverseSelector

  type FetchBook = string -> seq<Book>

  /**
   * The ask and bid `apply_filters` reads: the price for an empty response,
   * otherwise the first unit of the first entry, whatever market that entry
   * is for. An entry without units or a unit without a price raises (None).
   */
  function BookQuotes(resp: seq<Book>, price: real): (r: Option<(real, real)>)
    ensures resp == [] ==> r == Some((price, price))
    ensures resp != [] ==>
      (r.Some? <==> resp[0].units != [] && resp[0].units[0].askPrice.Some? && resp[0].units[0].bidPrice.Some?)
    ensures resp != [] && r.Some? ==> r.value == (resp[0].units[0].askPrice.value, resp[0].units[0].bidPrice.value)
  {
    if resp == [] then Some((price, price))
    else if resp[0].units == [] then None
    else
      var u := resp[0].units[0];
      if u.askPrice.None? || u.bidPrice.None? then None else Some((u.askPrice.value, u.bidPrice.value))
  }

  /** One row of `apply_filters`; None where a previous close of 0 divides by zero or the orderbook lookup raises. */
  function RowOf(item: TickerItem, fetchBook: FetchBook): Option<Row>
  {
    var price := OrDefault(item.tradePrice, 0.0);
    var high := OrDefault(item.highPrice, 0.0);
    var low := OrDefault(item.lowPrice, 0.0);
    var prev := OrDefault(item.prevClosingPrice, 1.0);
    if prev == 0.0 then None
    else
      var volatility := (high - low) / prev * 100.0;
      assert Ticks.UniverseTick(price) > 0.0 by { Ticks.UniverseTickTable(price); }
      var tickRange := (high - low) / Ticks.UniverseTick(price);
      match BookQuotes(fetchBook(item.market), price)
      case None => None
      case Some((ask, bid)) => Some(Row(item.market, price, volatility, tickRange, Spread(ask, bid, price)))
  }

  /**
   * Where the orderbook response for the market is a non-empty list whose
   * first entry has no units, this row raises, while the selector's guarded
   * lookup on the same response falls back to the price.
   */
  lemma EmptyUnitsRaise(item: TickerItem, fetchBook: FetchBook)
    requires OrDefault(item.prevClosingPrice, 1.0) != 0.0
    requires fetchBook(item.market) != [] && fetchBook(item.market)[0].units == []
    requires forall b :: b in fetchBook(item.market) ==> b.units == []
    ensures RowOf(item, fetchBook) == None
    ensures UniverseSelector.RowOf(item, fetchBook(item.market)).Some?
    ensures UniverseSelector.RowOf(item, fetchBook(item.market)).value.spread == 0.0
  {
    UniverseSelector.SpreadFallbacks(item, fetchBook(item.market));
  }

  /**
   * With a one-entry response for the market whose first unit carries both
   * prices, the row is the one the selector builds from the same response.
   */
  lemma RowAgreesWithSelector(item: TickerItem, fetchBook: FetchBook, units: seq<BookUnit>)
    requires fetchBook(item.market) == [Book(item.market, units)]
    requires units != [] && units[0].askPrice.Some? && units[0].bidPrice.Some?
    ensures RowOf(item, fetchBook) == UniverseSelector.RowOf(item, fetchBook(item.market))
  {
    var resp := fetchBook(item.market);
    assert BookFor(resp, item.market) == Some(resp[0]) by {
      assert resp[1..] == [];
    }
  }

  /** An empty orderbook response (a failed request) leaves the spread at 0. */
  lemma EmptyResponseNoSpread(item: TickerItem, fetchBook: FetchBook)
    requires OrDefault(item.prevClosingPrice, 1.0) != 0.0
    requires fetchBook(item.market) == []
    ensures RowOf(item, fetchBook).Some? && RowOf(item, fetchBook).value.spread == 0.0
    ensures RowOf(item, fetchBook).value.symbol == item.market
  {
  }

  /** The rows of one /ticker response, in response order. */
  function ItemRows(items: seq<TickerItem>, fetchBook: FetchBook): Rows
    decreases |items|
  {
    if items == [] then Some([])
    else
      match RowOf(items[0], fetchBook)
      case None => None
      case Some(row) => Prefixed([row], ItemRows(items[1..], fetchBook))
  }

  /** The `info` list, chunk by chunk of 100 tickers. */
  function Info(tickers: seq<string>, fetchTickers: FetchTickers, fetchBook: FetchBook): Rows
    decreases |tickers|
  {
    if tickers == [] then Some([])
    else
      var chunk := tickers[..ChunkEnd(|tickers|)];
      match ItemRows(fetchTickers(chunk), fetchBook)
      case None => None
      case Some(rows) => Prefixed(rows, Info(tickers[ChunkEnd(|tickers|)..], fetchTickers, fetchBook))
  }

  /** A row is built for every item, in order, unless one of them raises. */
  lemma {:induction false} ItemRowsShape(items: seq<TickerItem>, fetchBook: FetchBook)
    ensures ItemRows(items, fetchBook).Some? <==> forall i :: 0 <= i < |items| ==> RowOf(items[i], fetchBook).Some?
    ensures ItemRows(items, fetchBook).Some? ==>
      |ItemRows(items, fetchBook).value| == |items|
      && forall i :: 0 <= i < |items| ==> ItemRows(items, fetchBook).value[i] == RowOf(items[i], fetchBook).value
    decreases |items|
  {
    if items != [] {
      ItemRowsShape(items[1..], fetchBook);
      assert forall i :: 1 <= i < |items| ==> items[1..][i - 1] == items[i];
    }
  }

  method ChunkRows(items: seq<TickerItem>, fetchBook: FetchBook) returns (r: Rows)
    ensures r == ItemRows(items, fetchBook)
  {
    var rows: seq<Row> := [];
    var i := 0;
    PrefixedEmpty(ItemRows(items, fetchBook));
    while i < |items|
      invariant 0 <= i <= |items|
      invariant ItemRows(items, fetchBook) == Prefixed(rows, ItemRows(items[i..], fetchBook))
    {
      assert items[i..][1..] == items[i + 1..];
      var row := RowOf(items[i], fetchBook);
      if row.None? {
        return None;
      }
      PrefixedAssoc(rows, [row.value], ItemRows(items[i + 1..], fetchBook));
      rows := rows + [row.value];
      i := i + 1;
    }
    assert items[i..] == [];
    assert rows + [] == rows;
    r := Some(rows);
  }

  /** The row-building loop of `apply_filters`: one /ticker request per chunk, one /orderbook request per item. */
  method BuildInfo(tickers: seq<string>, fetchTickers: FetchTickers, fetchBook: FetchBook) returns (r: Rows)
    ensures r == Info(tickers, fetchTickers, fetchBook)
  {
    var info: seq<Row> := [];
    var i := 0;
    PrefixedEmpty(Info(tickers, fetchTickers, fetchBook));
    while i < |tickers|
      invariant 0 <= i <= |tickers|
      invariant Info(tickers, fetchTickers, fetchBook) == Prefixed(info, Info(tickers[i..], fetchTickers, fetchBook))
    {
      var chunk := tickers[i..][..ChunkEnd(|tickers| - i)];
      assert tickers[i..][ChunkEnd(|tickers| - i)..] == tickers[i + ChunkEnd(|tickers| - i)..];
      var rows := ChunkRows(fetchTickers(chunk), fetchBook);
      if rows.None? {
        return None;
      }
      PrefixedAssoc(info, rows.value, Info(tickers[i + ChunkEnd(|tickers| - i)..], fetchTickers, fetchBook));
      info := info + rows.value;
      i := i + ChunkEnd(|tickers| - i);
    }
    assert tickers[i..] == [];
    assert info + [] == info;
    r := Some(info);
  }

  /** `apply_filters`: the selector's three stages over these rows; None where building a row raised. */
  function ApplyFilters(tickers: seq<string>, cfg: Config, fetchTickers: FetchTickers, fetchBook: FetchBook): Option<seq<string>>
  {
    match Info(tickers, fetchTickers, fetchBook)
    case None => None
    case Some(info) => Some(Symbols(Stages(info, cfg)))
  }

  /** The filtered symbols are, in row order, those of the rows that pass all three stages. */
  lemma ApplyFiltersKeepsPassing(tickers: seq<string>, cfg: Config, fetchTickers: FetchTickers, fetchBook: FetchBook,
                                 info: seq<Row>)
    requires Info(tickers, fetchTickers, fetchBook) == Some(info)
    ensures ApplyFilters(tickers, cfg, fetchTickers, fetchBook) == Some(Symbols(Filter(info, AllTests(cfg))))
    ensures IsSubsequence(Stages(info, cfg), info)
  {
    StagesAreOneFilter(info, cfg);
    FilterIsSubsequence(info, AllTests(cfg));
  }

  /** `select_universe(config)`: an absent or empty `config` loads the file; None where something raises. */
  function SelectUniverse(config: Option<Config>, file: ConfigFile, markets: seq<string>,
                          fetchTickers: FetchTickers, fetchBook: FetchBook): Option<seq<string>>
  {
    var cfg := if config.Some? && config.value != map[] then Some(config.value) else LoadConfig(file);
    if cfg.None? then None
    else
      var rank := IntOfNumber(NumberGet(cfg.value, "volume_rank", Number.Finite(50.0)));
      if rank.None? then None
      else
        var tickers := TopVolumeTickers(markets, rank.value, fetchTickers);
        match ApplyFilters(tickers, cfg.value, fetchTickers, fetchBook)
        case None => None
        case Some(filtered) =>
          var size := IntOfNumber(NumberGet(cfg.value, "universe_size", Number.Finite(0.0)));
          if size.None? then None else Some(CutToSize(filtered, size.value))
  }

  /**
   * The universe is the filtered list cut by `CutToSize`, which cuts only for
   * a positive `universe_size`; without that key nothing is cut.
   */
  lemma SelectUniverseCut(cfg: Config, file: ConfigFile, markets: seq<string>,
                          fetchTickers: FetchTickers, fetchBook: FetchBook, filtered: seq<string>)
    requires cfg != map[]
    requires "volume_rank" in cfg && cfg["volume_rank"].Finite?
    requires ApplyFilters(TopVolumeTickers(markets, Trunc(cfg["volume_rank"].value), fetchTickers), cfg,
                          fetchTickers, fetchBook) == Some(filtered)
    ensures "universe_size" in cfg && cfg["universe_size"].Finite? ==>
      SelectUniverse(Some(cfg), file, markets, fetchTickers, fetchBook)
        == Some(CutToSize(filtered, Trunc(cfg["universe_size"].value)))
    ensures "universe_size" !in cfg ==> SelectUniverse(Some(cfg), file, markets, fetchTickers, fetchBook) == Some(filtered)
  {
  }

  /** The module-level `_UNIVERSE` list; nothing else backs it. */
  class Cache {
    var universe: seq<string>

    constructor ()
      ensures universe == []
    {
      universe := [];
    }

    /** `update_universe` given what `select_universe` returned (None when it raised: nothing changes). */
    method UpdateUniverse(selected: Option<seq<string>>)
      modifies this
      ensures universe == if selected.Some? then selected.value else old(universe)
    {
      if selected.Some? {
        universe := selected.value;
      }
    }

    /** `get_universe`: a copy of the cache, even an empty one. */
    method GetUniverse() returns (r: seq<string>)
      ensures r == universe
    {
      r := universe;
    }
  }

  /** Before any update, `get_universe` returns the empty list. */
  method GetBeforeUpdate() returns (r: seq<string>)
    ensures r == []
  {
    var cache := new Cache();
    r := cache.GetUniverse();
  }

  /** After an update that selected a list, `get_universe` returns exactly that list, whatever came before. */
  method UpdateThenGet(earlier: Option<seq<string>>, selected: seq<string>) returns (r: seq<string>)
    ensures r == selected
  {
    var cache := new Cache();
    cache.UpdateUniverse(earlier);
    cache.UpdateUniverse(Some(selected));
    r := cache.GetUniverse();
  }
}
