/**
 * The coin list for ML data collection (`f1_universe/01.coin_conditions.py`):
 * the KRW markets, each kept when it has at least one recent candle, a
 * non-empty ticker, a price inside one of two bands and enough 24h trade
 * value.
 *
 * HTTP responses are parameters: `candles(m)` is the number of one-minute
 * candles the endpoint returns for `m`, `tickers(m)` the /ticker response
 * for `m` (an empty list where the request fails), a ticker being a dict of
 * numbers. The band limits are module constants in the source that its tests
 * reassign, so they are a `Conditions` value here.
 */
module CoinConditions {
  import opened Common

  datatype Conditions = Conditions(price1Min: real, price1Max: real, price2Min: real, price2Max: real,
                                   tradeValueMin: real)

  /** PRICE1_MIN .. TRADE_VALUE_MIN as shipped. */
  const Shipped := Conditions(1000.0, 3333.0, 10000.0, 33333.0, 1400000000.0)

  /** One /ticker dict; `{}` is the empty map. */
  type Ticker = map<string, real>

  /** `d.get(key, 0)` as a float. */
  function GetOr0(t: Ticker, key: string): real { if key in t then t[key] else 0.0 }

  /** One entry of /market/all, whose "market" may be missing. */
  datatype MarketEntry = MarketEntry(market: Option<string>)

  function MarketName(d: MarketEntry): string { if d.market.Some? then d.market.value else "" }

  function IsKrw(d: MarketEntry): bool { IsPrefix("KRW-", MarketName(d)) }

  function NamesOf(ds: seq<MarketEntry>): (r: seq<string>)
    ensures |r| == |ds| && forall i :: 0 <= i < |ds| ==> r[i] == MarketName(ds[i])
  {
    if ds == [] then [] else [MarketName(ds[0])] + NamesOf(ds[1..])
  }

  /** `fetch_markets`: the names of the KRW- entries, in response order. */
  function FetchMarkets(data: seq<MarketEntry>): seq<string>
  {
    NamesOf(Filter(data, IsKrw))
  }

  /** Every listed market is a KRW- market of the response, and every KRW- market of the response is listed. */
  lemma FetchMarketsKrwOnly(data: seq<MarketEntry>)
    ensures forall m :: m in FetchMarkets(data) ==> IsPrefix("KRW-", m)
    ensures forall d :: d in data && IsKrw(d) ==> MarketName(d) in FetchMarkets(data)
  {
    var kept := Filter(data, IsKrw);
    forall m | m in FetchMarkets(data) ensures IsPrefix("KRW-", m) {
      var i :| 0 <= i < |kept| && NamesOf(kept)[i] == m;
      assert kept[i] in kept;
    }
    forall d | d in data && IsKrw(d) ensures MarketName(d) in FetchMarkets(data) {
      assert d in kept;
      var i :| 0 <= i < |kept| && kept[i] == d;
      assert NamesOf(kept)[i] == MarketName(d);
    }
  }

  /** `fetch_ticker`: the first element of the response, or `{}` for an empty one. */
  function FetchTicker(resp: seq<Ticker>): (r: Ticker)
    ensures resp == [] ==> r == map[]
    ensures resp != [] ==> r == resp[0]
  {
    if resp == [] then map[] else resp[0]
  }

  /** The two inclusive price bands. */
  predicate InRange(c: Conditions, price: real)
  {
    (c.price1Min <= price <= c.price1Max) || (c.price2Min <= price <= c.price2Max)
  }

  /** Whether `filter_coins` keeps a market. */
  predicate Selected(c: Conditions, market: string, candles: string -> nat, tickers: string -> seq<Ticker>)
  {
    var t := FetchTicker(tickers(market));
    candles(market) >= 1 && t != map[]
    && InRange(c, GetOr0(t, "trade_price")) && GetOr0(t, "acc_trade_price_24h") >= c.tradeValueMin
  }

  function SelectedTest(c: Conditions, candles: string -> nat, tickers: string -> seq<Ticker>): string -> bool
  {
    m => Selected(c, m, candles, tickers)
  }

  /** What `filter_coins` returns. */
  function FilterCoins(c: Conditions, markets: seq<string>, candles: string -> nat, tickers: string -> seq<Ticker>): seq<string>
  {
    Filter(markets, SelectedTest(c, candles, tickers))
  }

  /** `filter_coins`: the loop that appends each market passing all the checks. */
  method RunFilterCoins(c: Conditions, markets: seq<string>, candles: string -> nat, tickers: string -> seq<Ticker>)
    returns (selected: seq<string>)
    ensures selected == FilterCoins(c, markets, candles, tickers)
  {
    selected := [];
    var i := 0;
    while i < |markets|
      invariant 0 <= i <= |markets|
      invariant FilterCoins(c, markets, candles, tickers) == selected + Filter(markets[i..], SelectedTest(c, candles, tickers))
    {
      assert markets[i..][1..] == markets[i + 1..];
      var market := markets[i];
      ghost var kept := SelectedTest(c, candles, tickers)(market);
      assert Filter(markets[i..], SelectedTest(c, candles, tickers))
        == (if kept then [market] else []) + Filter(markets[i + 1..], SelectedTest(c, candles, tickers));
      i := i + 1;
      if candles(market) < 1 {
        assert !kept;
        continue;
      }
      var ticker := FetchTicker(tickers(market));
      if ticker == map[] {
        assert !kept;
        continue;
      }
      var price := GetOr0(ticker, "trade_price");
      var volume := GetOr0(ticker, "acc_trade_price_24h");
      var inRange := (c.price1Min <= price <= c.price1Max) || (c.price2Min <= price <= c.price2Max);
      if !inRange || volume < c.tradeValueMin {
        assert !kept;
        continue;
      }
      assert kept;
      selected := selected + [market];
    }
    assert markets[i..] == [];
  }

  /**
   * A market is selected iff it is an input market with a candle, a non-empty
   * ticker, a price in one of the bands, and at least the minimum trade value.
   */
  lemma FilterCoinsIff(c: Conditions, markets: seq<string>, candles: string -> nat, tickers: string -> seq<Ticker>, m: string)
    ensures m in FilterCoins(c, markets, candles, tickers) <==>
      m in markets && candles(m) >= 1 && FetchTicker(tickers(m)) != map[]
      && InRange(c, GetOr0(FetchTicker(tickers(m)), "trade_price"))
      && GetOr0(FetchTicker(tickers(m)), "acc_trade_price_24h") >= c.tradeValueMin
  {
  }

  /** The selection keeps the input order. */
  lemma FilterCoinsKeepsOrder(c: Conditions, markets: seq<string>, candles: string -> nat, tickers: string -> seq<Ticker>)
    ensures IsSubsequence(FilterCoins(c, markets, candles, tickers), markets)
  {
    FilterIsSubsequence(markets, SelectedTest(c, candles, tickers));
  }

  /** A market without candles, or with an empty ticker, is never selected. */
  lemma SkipsWithoutData(c: Conditions, markets: seq<string>, candles: string -> nat, tickers: string -> seq<Ticker>, m: string)
    requires candles(m) == 0 || tickers(m) == [] || tickers(m)[0] == map[]
    ensures m !in FilterCoins(c, markets, candles, tickers)
  {
  }

  /** `select_coins`: the filter over the listed markets; only KRW- markets come out. */
  lemma SelectCoinsKrwOnly(c: Conditions, data: seq<MarketEntry>, candles: string -> nat, tickers: string -> seq<Ticker>)
    ensures forall m :: m in FilterCoins(c, FetchMarkets(data), candles, tickers) ==> IsPrefix("KRW-", m)
  {
    FetchMarketsKrwOnly(data);
  }

  // ------------------------------------------------------------ the two test scenarios

  function ExampleCandles(): string -> nat { m => 6 }

  function ExampleTickers(): string -> seq<Ticker>
  {
    m => if m == "KRW-AAA" then [map["trade_price" := 1500.0, "acc_trade_price_24h" := 2000000000.0]]
         else if m == "KRW-BBB" then [map["trade_price" := 5000.0, "acc_trade_price_24h" := 2000000000.0]]
         else [map[]]
  }

  /** With the first band narrowed to 1000..3000, AAA at 1500 is kept, BBB at 5000 and the BTC- market are not. */
  lemma ExampleSelectsAaa()
    ensures FilterCoins(Shipped.(price1Max := 3000.0), ["KRW-AAA", "KRW-BBB", "BTC-ETH"], ExampleCandles(), ExampleTickers())
      == ["KRW-AAA"]
  {
    var c := Shipped.(price1Max := 3000.0);
    var test := SelectedTest(c, ExampleCandles(), ExampleTickers());
    var s := ["KRW-AAA", "KRW-BBB", "BTC-ETH"];
    var aaa := FetchTicker(ExampleTickers()("KRW-AAA"));
    assert aaa == map["trade_price" := 1500.0, "acc_trade_price_24h" := 2000000000.0];
    assert GetOr0(aaa, "trade_price") == 1500.0 && GetOr0(aaa, "acc_trade_price_24h") == 2000000000.0;
    assert test("KRW-AAA");
    assert !test("KRW-BBB");
    assert !test("BTC-ETH");
    assert s[1..][1..][1..] == [];
  }

  function Price20000(): string -> seq<Ticker>
  {
    m => [map["trade_price" := 20000.0, "acc_trade_price_24h" := 2000000000.0]]
  }

  /** Setting the second band to [0, 0] excludes a price of 20000. */
  lemma SecondBandDisabled()
    ensures FilterCoins(Conditions(1000.0, 3000.0, 0.0, 0.0, 1400000000.0), ["KRW-AAA"], ExampleCandles(), Price20000()) == []
  {
    var test := SelectedTest(Conditions(1000.0, 3000.0, 0.0, 0.0, 1400000000.0), ExampleCandles(), Price20000());
    assert !test("KRW-AAA");
    assert ["KRW-AAA"][1..] == [];
  }

  /** The same market at 20000 is kept with the shipped second band. */
  lemma SecondBandShipped()
    ensures FilterCoins(Shipped, ["KRW-AAA"], ExampleCandles(), Price20000()) == ["KRW-AAA"]
  {
    var test := SelectedTest(Shipped, ExampleCandles(), Price20000());
    var t := FetchTicker(Price20000()("KRW-AAA"));
    assert GetOr0(t, "trade_price") == 20000.0;
    assert GetOr0(t, "acc_trade_price_24h") == 2000000000.0;
    assert test("KRW-AAA");
    assert ["KRW-AAA"][1..] == [];
  }
}
