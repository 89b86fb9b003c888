/**
 * The request side of the 1-minute candle collector
 * (`upbit_coin_data/collector.py`): a sliding-window rate limiter over
 * monotonic timestamps, a request retried at most five times, the KRW market
 * listing and the price filter over the latest trade prices.
 *
 * The clock is explicit: `Acquire(now, later)` takes the monotonic time read
 * before the purge and the one read after the sleep. HTTP replies are
 * parameters, one per attempt.
 */
module Collector {
  import opened Common
  import CoinConditions

  const RateLimit: int := 10
  const Period: real := 1.0

  predicate Nondecreasing(s: seq<real>)
  {
    forall i, j :: 0 <= i < j < |s| ==> s[i] <= s[j]
  }

  // ------------------------------------------------------------ the rate limiter

  /** The purge loop of `acquire`: front timestamps go while they are more than `period` older than `now`. */
  function Purged(s: seq<real>, now: real, period: real): (r: seq<real>)
    ensures |r| <= |s| && r == s[|s| - |r|..]
    decreases |s|
  {
    if s != [] && now - s[0] > period then Purged(s[1..], now, period) else s
  }

  /**
   * Everything dropped was strictly older than `period`; the first timestamp
   * kept is not, so one exactly `period` old stays.
   */
  lemma {:induction false} PurgedDrops(s: seq<real>, now: real, period: real)
    ensures forall i :: 0 <= i < |s| - |Purged(s, now, period)| ==> now - s[i] > period
    ensures Purged(s, now, period) != [] ==> now - Purged(s, now, period)[0] <= period
    ensures s != [] && now - s[0] <= period ==> Purged(s, now, period) == s
    decreases |s|
  {
    if s != [] && now - s[0] > period {
      PurgedDrops(s[1..], now, period);
      assert forall i :: 1 <= i < |s| ==> s[1..][i - 1] == s[i];
    }
  }

  /** With nondecreasing timestamps, every timestamp left after the purge lies within `period` of `now`. */
  lemma PurgedWindow(s: seq<real>, now: real, period: real)
    requires Nondecreasing(s)
    ensures forall c :: c in Purged(s, now, period) ==> now - c <= period
  {
    PurgedDrops(s, now, period);
    var p := Purged(s, now, period);
    if p != [] {
      var k := |s| - |p|;
      assert p[0] == s[k];
      forall i | 0 <= i < |p| ensures now - p[i] <= period {
        assert p[i] == s[k + i];
        assert s[k] <= s[k + i];
      }
    }
  }

  /**
   * The sleep of `acquire` after the purge: `period - (now - oldest)` when
   * the window is full and that is positive, else none. With no timestamps
   * left and `max_calls <= 0`, `self.calls[0]` raises (None).
   */
  function SleepFor(p: seq<real>, now: real, maxCalls: int, period: real): (r: Option<real>)
    ensures r.None? <==> |p| >= maxCalls && p == []
    ensures r.Some? ==> r.value >= 0.0
    ensures r.Some? && r.value > 0.0 ==> |p| >= maxCalls && r.value == period - (now - p[0])
    ensures |p| < maxCalls ==> r == Some(0.0)
  {
    if |p| < maxCalls then Some(0.0)
    else if p == [] then None
    else if period - (now - p[0]) > 0.0 then Some(period - (now - p[0]))
    else Some(0.0)
  }

  lemma AppendedInOrder(s: seq<real>, now: real, later: real)
    requires Nondecreasing(s)
    requires forall i :: 0 <= i < |s| ==> s[i] <= now
    requires now <= later
    ensures Nondecreasing(s + [later])
  {
  }

  /** After the sleep a full window's oldest call is at least `period` in the past. */
  lemma FullWindowWaits(p: seq<real>, now: real, maxCalls: int, period: real, later: real)
    requires p != [] && |p| >= maxCalls
    requires SleepFor(p, now, maxCalls, period).Some?
    requires now + SleepFor(p, now, maxCalls, period).value <= later
    ensures later - p[0] >= period
  {
  }

  /** The `RateLimiter` class: a deque of call timestamps, oldest first. */
  class RateLimiter {
    const maxCalls: int
    const period: real
    var calls: seq<real>

    predicate Valid()
      reads this
    {
      Nondecreasing(calls)
    }

    constructor (maxCalls: int, period: real)
      ensures this.maxCalls == maxCalls && this.period == period
      ensures calls == [] && Valid()
    {
      this.maxCalls := maxCalls;
      this.period := period;
      calls := [];
    }

    /**
     * `acquire` at monotonic time `now`; `later` is the clock after the
     * sleep, so at least `now` plus the time slept. Exactly one timestamp
     * is appended, without a second purge, and the deque stays ordered.
     * When the window was full, the new call comes at least `period` after
     * the oldest call still in it.
     */
    method Acquire(now: real, later: real) returns (slept: Option<real>)
      requires Valid()
      requires forall i :: 0 <= i < |calls| ==> calls[i] <= now
      requires var w := SleepFor(Purged(calls, now, period), now, maxCalls, period);
        w.Some? ==> now + w.value <= later
      modifies this
      ensures Valid()
      ensures slept == SleepFor(Purged(old(calls), now, period), now, maxCalls, period)
      ensures slept.None? ==> calls == Purged(old(calls), now, period)
      ensures slept.Some? ==> calls == Purged(old(calls), now, period) + [later]
      ensures slept.Some? && |Purged(old(calls), now, period)| >= maxCalls && Purged(old(calls), now, period) != [] ==>
        later - Purged(old(calls), now, period)[0] >= period
    {
      while calls != [] && now - calls[0] > period
        invariant Purged(calls, now, period) == Purged(old(calls), now, period)
        invariant Nondecreasing(calls)
        invariant forall i :: 0 <= i < |calls| ==> calls[i] <= now
        decreases |calls|
      {
        calls := calls[1..];
      }
      assert calls == Purged(old(calls), now, period);
      slept := SleepFor(calls, now, maxCalls, period);
      if slept.None? {
        return;
      }
      AppendedInOrder(calls, now, later);
      if |calls| >= maxCalls {
        FullWindowWaits(calls, now, maxCalls, period, later);
      }
      calls := calls + [later];
    }
  }

  // ------------------------------------------------------------ the retried request

  const MaxAttempts: nat := 5

  /** What one attempt of `_request` meets: an exception, or a status with a body that may fail to parse. */
  datatype Reply = Raised | Answered(status: int, body: Option<Json>)

  /** An attempt returns when the status is below 400 (neither 429 nor 5xx, and `raise_for_status` passes) and the body parses. */
  predicate Succeeds(r: Reply)
  {
    r.Answered? && r.status < 400 && r.body.Some?
  }

  /** The first of attempts `k` .. 4 that succeeds. */
  function FirstSuccess(replies: nat -> Reply, k: nat): (r: Option<nat>)
    ensures r.Some? ==> k <= r.value < MaxAttempts && Succeeds(replies(r.value))
    ensures r.Some? ==> forall j :: k <= j < r.value ==> !Succeeds(replies(j))
    ensures r.None? ==> forall j :: k <= j < MaxAttempts ==> !Succeeds(replies(j))
    decreases MaxAttempts - k
  {
    if k >= MaxAttempts then None
    else if Succeeds(replies(k)) then Some(k)
    else FirstSuccess(replies, k + 1)
  }

  /** `_request`: the body of the first successful attempt and the number of attempts (one `acquire` each); [] after five failures. */
  function Request(replies: nat -> Reply): (Json, nat)
  {
    match FirstSuccess(replies, 0)
    case Some(k) => (replies(k).body.value, k + 1)
    case None => (JList([]), MaxAttempts)
  }

  /** The retry loop of `_request`. */
  method RunRequest(replies: nat -> Reply) returns (r: Json, attempts: nat)
    ensures (r, attempts) == Request(replies)
  {
    attempts := 0;
    while attempts < MaxAttempts
      invariant 0 <= attempts <= MaxAttempts
      invariant FirstSuccess(replies, 0) == FirstSuccess(replies, attempts)
    {
      var reply := replies(attempts);
      attempts := attempts + 1;
      if reply.Answered? && (reply.status == 429 || reply.status >= 500) {
        continue;
      }
      if reply.Raised? || reply.status >= 400 || reply.body.None? {
        continue;
      }
      return reply.body.value, attempts;
    }
    r := JList([]);
  }

  /**
   * At most five attempts; after five failures the result is the empty list;
   * a 429 or a 5xx reply is always retried.
   */
  lemma RequestBounded(replies: nat -> Reply)
    ensures 1 <= Request(replies).1 <= MaxAttempts
    ensures (forall j :: 0 <= j < MaxAttempts ==> !Succeeds(replies(j))) ==> Request(replies) == (JList([]), MaxAttempts)
    ensures forall j :: 0 <= j < Request(replies).1 - 1 ==> !Succeeds(replies(j))
    ensures forall j :: 0 <= j < MaxAttempts && replies(j).Answered? && (replies(j).status == 429 || replies(j).status >= 500) ==>
      Request(replies).1 != j + 1 || FirstSuccess(replies, 0).None?
  {
    match FirstSuccess(replies, 0)
    case Some(k) =>
    case None =>
      assert FirstSuccess(replies, 0) == None;
  }

  /** When the first attempt that succeeds is number `k + 1`, its body is returned after exactly `k + 1` acquires. */
  lemma RequestReturnsFirstSuccess(replies: nat -> Reply, k: nat)
    requires k < MaxAttempts && Succeeds(replies(k))
    requires forall j :: 0 <= j < k ==> !Succeeds(replies(j))
    ensures Request(replies) == (replies(k).body.value, k + 1)
  {
  }

  // ------------------------------------------------------------ markets and prices

  /** `get_krw_markets` filters the listing as `fetch_markets` does: KRW- names only, all of them. */
  lemma KrwMarketsOnly(data: seq<CoinConditions.MarketEntry>)
    ensures forall m :: m in CoinConditions.FetchMarkets(data) ==> IsPrefix("KRW-", m)
    ensures forall d :: d in data && CoinConditions.IsKrw(d) ==> CoinConditions.MarketName(d) in CoinConditions.FetchMarkets(data)
  {
    CoinConditions.FetchMarketsKrwOnly(data);
  }

  /** One /ticker item as `get_prices` reads it. */
  datatype PriceItem = PriceItem(market: Option<string>, tradePrice: Option<real>)

  function KeyOf(x: PriceItem): string { if x.market.Some? then x.market.value else "" }
  function PriceOf(x: PriceItem): real { if x.tradePrice.Some? then x.tradePrice.value else 0.0 }

  /** `prices[market] = price` for each item in turn. */
  function PutAll(d: seq<(string, real)>, items: seq<PriceItem>): seq<(string, real)>
    decreases |items|
  {
    if items == [] then d else PutAll(Put(d, KeyOf(items[0]), PriceOf(items[0])), items[1..])
  }

  /** The items of every chunk of 100 markets, in order. */
  function ChunkedItems(markets: seq<string>, fetch: seq<string> -> seq<PriceItem>): seq<PriceItem>
    decreases |markets|
  {
    if markets == [] then []
    else fetch(markets[..Min(100, |markets|)]) + ChunkedItems(markets[Min(100, |markets|)..], fetch)
  }

  /** `get_prices`. */
  function Prices(markets: seq<string>, fetch: seq<string> -> seq<PriceItem>): seq<(string, real)>
  {
    PutAll([], ChunkedItems(markets, fetch))
  }

  lemma {:induction false} PutAllDistinct(d: seq<(string, real)>, items: seq<PriceItem>)
    requires DistinctKeys(d)
    ensures DistinctKeys(PutAll(d, items))
    decreases |items|
  {
    if items != [] {
      PutKeepsDistinct(d, KeyOf(items[0]), PriceOf(items[0]));
      PutAllDistinct(Put(d, KeyOf(items[0]), PriceOf(items[0])), items[1..]);
    }
  }

  lemma {:induction false} PutAllAbsent(d: seq<(string, real)>, items: seq<PriceItem>, q: string)
    requires forall j :: 0 <= j < |items| ==> KeyOf(items[j]) != q
    ensures Lookup(PutAll(d, items), q) == Lookup(d, q)
    decreases |items|
  {
    if items != [] {
      LookupPut(d, KeyOf(items[0]), PriceOf(items[0]), q);
      assert forall j :: 0 <= j < |items[1..]| ==> items[1..][j] == items[j + 1];
      PutAllAbsent(Put(d, KeyOf(items[0]), PriceOf(items[0])), items[1..], q);
    }
  }

  /** A market's price is that of the last item for it: later chunks overwrite earlier ones. */
  lemma {:induction false} LastItemWins(d: seq<(string, real)>, items: seq<PriceItem>, i: nat)
    requires i < |items|
    requires forall j :: i < j < |items| ==> KeyOf(items[j]) != KeyOf(items[i])
    ensures Lookup(PutAll(d, items), KeyOf(items[i])) == Some(PriceOf(items[i]))
    decreases |items|
  {
    var p := Put(d, KeyOf(items[0]), PriceOf(items[0]));
    assert forall j :: 0 <= j < |items[1..]| ==> items[1..][j] == items[j + 1];
    if i == 0 {
      LookupPut(d, KeyOf(items[0]), PriceOf(items[0]), KeyOf(items[0]));
      PutAllAbsent(p, items[1..], KeyOf(items[0]));
    } else {
      LastItemWins(p, items[1..], i - 1);
    }
  }

  predicate InPriceBand(p: real, minPrice: real, maxPrice: real) { minPrice <= p <= maxPrice }

  function BandTest(minPrice: real, maxPrice: real): ((string, real)) -> bool
  {
    (e: (string, real)) => InPriceBand(e.1, minPrice, maxPrice)
  }

  /** The comprehension of `filter_by_price` over `prices.items()`, in insertion order. */
  function FilterByPrice(prices: seq<(string, real)>, minPrice: real, maxPrice: real): seq<string>
  {
    Keys(Filter(prices, BandTest(minPrice, maxPrice)))
  }

  /** The defaults of `filter_by_price`. */
  const MinPrice: real := 500.0
  const MaxPrice: real := 25000.0

  /** A market is kept iff its (last) price lies in [min_price, max_price], both ends included. */
  lemma FilterByPriceIff(markets: seq<string>, fetch: seq<string> -> seq<PriceItem>, minPrice: real, maxPrice: real, m: string)
    ensures m in FilterByPrice(Prices(markets, fetch), minPrice, maxPrice) <==>
      Lookup(Prices(markets, fetch), m).Some? && InPriceBand(Lookup(Prices(markets, fetch), m).value, minPrice, maxPrice)
  {
    var prices := Prices(markets, fetch);
    PutAllDistinct([], ChunkedItems(markets, fetch));
    var kept := Filter(prices, BandTest(minPrice, maxPrice));
    if m in Keys(kept) {
      var i :| 0 <= i < |kept| && Keys(kept)[i] == m;
      assert kept[i] in prices;
      LookupIn(prices, m, kept[i].1);
    }
    if Lookup(prices, m).Some? && InPriceBand(Lookup(prices, m).value, minPrice, maxPrice) {
      LookupIn(prices, m, Lookup(prices, m).value);
      var e := (m, Lookup(prices, m).value);
      assert e in kept;
      var i :| 0 <= i < |kept| && kept[i] == e;
      assert Keys(kept)[i] == m;
    }
  }

  /** With the defaults, a price of exactly 500 or exactly 25000 is kept. */
  lemma DefaultBandInclusive()
    ensures FilterByPrice([("KRW-A", 500.0), ("KRW-B", 25000.0), ("KRW-C", 499.0), ("KRW-D", 25001.0)], MinPrice, MaxPrice)
      == ["KRW-A", "KRW-B"]
  {
    var s: seq<(string, real)> := [("KRW-A", 500.0), ("KRW-B", 25000.0), ("KRW-C", 499.0), ("KRW-D", 25001.0)];
    assert s[1..][1..][1..][1..] == [];
    assert Filter(s, BandTest(MinPrice, MaxPrice)) == [("KRW-A", 500.0), ("KRW-B", 25000.0)];
  }
}
