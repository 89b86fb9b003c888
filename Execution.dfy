/**
 * The hybrid order helpers (`smart_buy`, `smart_sell`): each attempt reads
 * the orderbook, skips when the spread exceeds an optional limit, sends a
 * market order when the spread is within the slippage allowance and an
 * IOC-style limit order one tick inside the book otherwise, and after the
 * retries are spent falls back to one market order.
 *
 * The exchange is an explicit script: `attempts(k)` (for a sell,
 * `attempts(part, k)`) is what the orderbook and the order placed in
 * attempt `k` answer, and `fallback` answers the final market order. The fill
 * polling (`is_filled`, `check_filled_amount`) is folded into the volume a
 * reply reports; sleeps and alerts are not modelled.
 */
module Execution {
  import opened Common
  import opened Ticks

  datatype Order =
    | MarketBuy(krw: real)
    | LimitBuy(price: real, volume: real)
    | MarketSell(volume: real)
    | LimitSell(price: real, volume: real)

  /**
   * The exchange's answer to one order: an exception with its message, an
   * order that is done with the price and volume the answer reports (None
   * where the key is absent), or a limit order left open. A market order's
   * answer is never open; `Open` there reads as an answer without price or
   * volume.
   */
  datatype Reply = Rejected(message: string) | Done(price: Option<real>, volume: Option<real>) | Open

  /** The orderbook read at the start of an attempt. */
  datatype Book = BookFailed(message: string) | Book(ask: real, bid: real)

  datatype Attempt = Attempt(book: Book, reply: Reply)

  function OrElse(x: Option<real>, d: real): real { if x.Some? then x.value else d }

  /** The spread formula of `_fetch_spread`. */
  function Spread(ask: real, bid: real): (r: real)
    requires ask != 0.0
    ensures r * ask == ask - bid
  {
    (ask - bid) / ask
  }

  /** The errors after which the helpers give up at once. */
  predicate BalanceError(msg: string) { Contains(msg, "잔액") || Contains(msg, "balance") }

  /** The message of Python's float ZeroDivisionError, which is not a balance error. */
  const DivisionMessage: string := "float division by zero"

  // ------------------------------------------------------------ smart_buy

  datatype BuyParams = BuyParams(totalKrw: real, slippage: real, maxRetries: int, slippageLimit: Option<real>)

  /** The result of one attempt: a final (price, volume), or a retry; either way with the orders it sent. */
  datatype BuyStep = Bought(price: real, volume: real, orders: seq<Order>) | BuyRetry(orders: seq<Order>)

  function FailedBuy(msg: string, orders: seq<Order>): BuyStep
  {
    if BalanceError(msg) then Bought(0.0, 0.0, orders) else BuyRetry(orders)
  }

  /** The market-order branch: the reported price (else the ask) and volume (else krw / price). */
  function MarketBought(p: BuyParams, ask: real, reply: Reply): BuyStep
  {
    var orders := [MarketBuy(p.totalKrw)];
    match reply
    case Rejected(msg) => FailedBuy(msg, orders)
    case Done(pr, vo) =>
      var price := OrElse(pr, ask);
      Bought(price, OrElse(vo, p.totalKrw / (if price == 0.0 then 1.0 else price)), orders)
    case Open => Bought(ask, p.totalKrw / (if ask == 0.0 then 1.0 else ask), orders)
  }

  /** One pass of the `smart_buy` loop body. */
  function BuyAttempt(p: BuyParams, a: Attempt): BuyStep
  {
    match a.book
    case BookFailed(msg) => FailedBuy(msg, [])
    case Book(ask, bid) =>
      if ask == 0.0 then FailedBuy(DivisionMessage, [])
      else if p.slippageLimit.Some? && Spread(ask, bid) > p.slippageLimit.value then Bought(0.0, 0.0, [])
      else if Spread(ask, bid) <= p.slippage then MarketBought(p, ask, a.reply)
      else
        var limitPrice := ask - ExecutionTick(ask);
        if limitPrice == 0.0 then FailedBuy(DivisionMessage, [])
        else
          var vol := p.totalKrw / limitPrice;
          var orders := [LimitBuy(limitPrice, vol)];
          (match a.reply
           case Rejected(msg) => FailedBuy(msg, orders)
           case Done(_, filled) => Bought(limitPrice, OrElse(filled, vol), orders)
           case Open => BuyRetry(orders))
  }

  datatype BuyResult = BuyResult(price: real, volume: real, orders: seq<Order>)

  /** The final market order once every attempt has been spent. */
  function FallbackBuy(p: BuyParams, reply: Reply): BuyResult
  {
    var orders := [MarketBuy(p.totalKrw)];
    match reply
    case Rejected(_) => BuyResult(0.0, 0.0, orders)
    case Done(pr, vo) => BuyResult(OrElse(pr, 0.0), OrElse(vo, 0.0), orders)
    case Open => BuyResult(0.0, 0.0, orders)
  }

  function Retries(n: int): nat { if n > 0 then n else 0 }

  /** `smart_buy` from attempt `k` on. */
  function BuyFrom(k: nat, p: BuyParams, attempts: nat -> Attempt, fallback: Reply): BuyResult
    decreases Retries(p.maxRetries) - k
  {
    if k >= Retries(p.maxRetries) then FallbackBuy(p, fallback)
    else match BuyAttempt(p, attempts(k))
      case Bought(price, vol, orders) => BuyResult(price, vol, orders)
      case BuyRetry(orders) => After(orders, BuyFrom(k + 1, p, attempts, fallback))
  }

  /** A result preceded by the orders of earlier attempts. */
  function After(orders: seq<Order>, r: BuyResult): BuyResult
  {
    BuyResult(r.price, r.volume, orders + r.orders)
  }

  method SmartBuy(p: BuyParams, attempts: nat -> Attempt, fallback: Reply)
    returns (price: real, volume: real, orders: seq<Order>)
    ensures BuyResult(price, volume, orders) == BuyFrom(0, p, attempts, fallback)
  {
    orders := [];
    var k: nat := 0;
    while k < Retries(p.maxRetries)
      invariant k <= Retries(p.maxRetries)
      invariant BuyFrom(0, p, attempts, fallback) == After(orders, BuyFrom(k, p, attempts, fallback))
      decreases Retries(p.maxRetries) - k
    {
      var step := BuyAttempt(p, attempts(k));
      match step
      case Bought(pr, vo, sent) =>
        return pr, vo, orders + sent;
      case BuyRetry(sent) =>
        assert orders + (sent + BuyFrom(k + 1, p, attempts, fallback).orders)
            == (orders + sent) + BuyFrom(k + 1, p, attempts, fallback).orders;
        orders := orders + sent;
        k := k + 1;
    }
    var last := FallbackBuy(p, fallback);
    return last.price, last.volume, orders + last.orders;
  }

  /** A spread above the limit skips the buy: (0, 0) and no order at all. */
  lemma BuySkipsWideSpread(p: BuyParams, attempts: nat -> Attempt, fallback: Reply)
    requires p.maxRetries > 0
    requires attempts(0).book.Book? && attempts(0).book.ask != 0.0
    requires p.slippageLimit.Some?
    requires Spread(attempts(0).book.ask, attempts(0).book.bid) > p.slippageLimit.value
    ensures BuyFrom(0, p, attempts, fallback) == BuyResult(0.0, 0.0, [])
  {
  }

  /** Within the slippage allowance a market order for the whole amount is sent. */
  lemma NarrowSpreadBuysAtMarket(p: BuyParams, a: Attempt)
    requires a.book.Book? && a.book.ask != 0.0
    requires !(p.slippageLimit.Some? && Spread(a.book.ask, a.book.bid) > p.slippageLimit.value)
    requires Spread(a.book.ask, a.book.bid) <= p.slippage
    ensures BuyAttempt(p, a).orders == [MarketBuy(p.totalKrw)]
  {
  }

  /** Otherwise a limit order one tick below the ask, for total_krw / limit price. */
  lemma WideSpreadBuysOneTickBelow(p: BuyParams, a: Attempt)
    requires a.book.Book? && a.book.ask != 0.0
    requires !(p.slippageLimit.Some? && Spread(a.book.ask, a.book.bid) > p.slippageLimit.value)
    requires Spread(a.book.ask, a.book.bid) > p.slippage
    requires a.book.ask - ExecutionTick(a.book.ask) != 0.0
    ensures BuyAttempt(p, a).orders
         == [LimitBuy(a.book.ask - ExecutionTick(a.book.ask), p.totalKrw / (a.book.ask - ExecutionTick(a.book.ask)))]
  {
  }

  /**
   * An exception whose message mentions the balance: the order-book read
   * fails with one, or a market or limit order is rejected with one (the
   * limit price being non-zero, so that the division before it succeeds).
   */
  predicate BalanceFailure(p: BuyParams, a: Attempt)
  {
    match a.book
    case BookFailed(msg) => BalanceError(msg)
    case Book(ask, _) =>
      ask != 0.0 && a.reply.Rejected? && BalanceError(a.reply.message)
      && (Spread(ask, a.book.bid) <= p.slippage || ask - ExecutionTick(ask) != 0.0)
  }

  /**
   * A balance error ends the buy at once with (0, 0): no later attempt and
   * no fallback order follows the orders the failing attempt sent.
   */
  lemma BalanceErrorStopsBuy(k: nat, p: BuyParams, attempts: nat -> Attempt, fallback: Reply)
    requires k < Retries(p.maxRetries) && BalanceFailure(p, attempts(k))
    ensures BuyAttempt(p, attempts(k)).Bought?
    ensures var r := BuyFrom(k, p, attempts, fallback);
      r.price == 0.0 && r.volume == 0.0 && r.orders == BuyAttempt(p, attempts(k)).orders
    ensures attempts(k).book.BookFailed? ==> BuyAttempt(p, attempts(k)).orders == []
  {
  }

  /**
   * When every attempt asks for a retry, the orders sent are those of the
   * attempts followed by exactly one market order for the whole amount.
   */
  lemma {:induction false} ExhaustedBuyFallsBack(k: nat, p: BuyParams, attempts: nat -> Attempt, fallback: Reply)
    requires k <= Retries(p.maxRetries)
    requires forall j :: k <= j < Retries(p.maxRetries) ==> BuyAttempt(p, attempts(j)).BuyRetry?
    ensures BuyFrom(k, p, attempts, fallback).orders
         == RetryOrders(k, p, attempts) + [MarketBuy(p.totalKrw)]
    decreases Retries(p.maxRetries) - k
  {
    if k < Retries(p.maxRetries) {
      ExhaustedBuyFallsBack(k + 1, p, attempts, fallback);
    }
  }

  /** The orders of attempts `k` onwards, each of which asked for a retry. */
  function RetryOrders(k: nat, p: BuyParams, attempts: nat -> Attempt): seq<Order>
    decreases Retries(p.maxRetries) - k
  {
    if k >= Retries(p.maxRetries) then []
    else BuyAttempt(p, attempts(k)).orders + RetryOrders(k + 1, p, attempts)
  }

  // ------------------------------------------------------------ smart_sell

  datatype SellParams = SellParams(quantity: real, slippage: real, maxRetries: int, split: int, slippageLimit: Option<real>)

  /** One execution: the price it was booked at and the quantity sold. */
  datatype Fill = Fill(price: real, qty: real)

  /** The running figures of `smart_sell`, with the executions and orders behind them. */
  datatype SellState = SellState(avgPrice: real, sold: real, fills: seq<Fill>, orders: seq<Order>)

  const Start: SellState := SellState(0.0, 0.0, [], [])

  /** The running average update `((avg * sold) + price * qty) / (sold + qty)` and `sold += qty`. */
  function Record(st: SellState, price: real, qty: real): SellState
    requires st.sold + qty != 0.0
  {
    SellState((st.avgPrice * st.sold + price * qty) / (st.sold + qty), st.sold + qty,
              st.fills + [Fill(price, qty)], st.orders)
  }

  /**
   * The result of one attempt: the part is sold, or the next attempt follows
   * (with the part size it will use), or `smart_sell` returns.
   */
  datatype SellStep = PartSold(st: SellState) | SellRetry(st: SellState, part: real) | SellReturn(st: SellState)

  function FailedSell(msg: string, st: SellState, part: real): SellStep
  {
    if BalanceError(msg) then SellReturn(st) else SellRetry(st, part)
  }

  /**
   * Booking a fill of `qty` inside the `try`: a zero total divides by zero and
   * counts as a failed attempt, after which the loop goes on with `part`.
   */
  function Booked(st: SellState, price: real, qty: real, part: real): SellStep
  {
    if st.sold + qty == 0.0 then FailedSell(DivisionMessage, st, part) else PartSold(Record(st, price, qty))
  }

  /** One pass of the inner `smart_sell` loop for a part of size `part`. */
  function SellAttempt(st: SellState, part: real, p: SellParams, a: Attempt): SellStep
  {
    match a.book
    case BookFailed(msg) => FailedSell(msg, st, part)
    case Book(ask, bid) =>
      if ask == 0.0 then FailedSell(DivisionMessage, st, part)
      else if p.slippageLimit.Some? && Spread(ask, bid) > p.slippageLimit.value then SellReturn(st)
      else if Spread(ask, bid) <= p.slippage then
        var st1 := st.(orders := st.orders + [MarketSell(part)]);
        (match a.reply
         case Rejected(msg) => FailedSell(msg, st1, part)
         case Done(pr, vo) => Booked(st1, OrElse(pr, bid), OrElse(vo, part), part)
         case Open => Booked(st1, bid, part, part))
      else
        var limitPrice := bid + ExecutionTick(bid);
        var st1 := st.(orders := st.orders + [LimitSell(limitPrice, part)]);
        (match a.reply
         case Rejected(msg) => FailedSell(msg, st1, part)
         case Done(_, filled) =>
           // the filled amount is assigned to `part` itself
           var q := OrElse(filled, part);
           Booked(st1, limitPrice, q, q)
         case Open => SellRetry(st1, part))
  }

  datatype TriesEnd = TriesSold(st: SellState) | TriesReturn(st: SellState) | TriesExhausted(st: SellState, part: real)

  /** The inner loop for part `i`, from attempt `k` on. */
  function SellTries(k: nat, st: SellState, part: real, p: SellParams, attempts: (nat, nat) -> Attempt, i: nat): TriesEnd
    decreases Retries(p.maxRetries) - k
  {
    if k >= Retries(p.maxRetries) then TriesExhausted(st, part)
    else match SellAttempt(st, part, p, attempts(i, k))
      case PartSold(st1) => TriesSold(st1)
      case SellReturn(st1) => TriesReturn(st1)
      case SellRetry(st1, part1) => SellTries(k + 1, st1, part1, p, attempts, i)
  }

  /**
   * The size of the next part, `remain / (split - sold / remain)` with
   * `remain` the original quantity (it is never reduced); None where that
   * divides by zero.
   */
  function PartSize(p: SellParams, sold: real): Option<real>
  {
    if p.split > 1 then
      if p.quantity == 0.0 then None
      else
        var d := p.split as real - sold / p.quantity;
        if d == 0.0 then None else Some(p.quantity / d)
    else Some(p.quantity)
  }

  /** The end of `smart_sell`: the (avg_price, sold) it returns, or an exception outside any `try`. */
  datatype SellOutcome = Returned(st: SellState) | SellRaised(orders: seq<Order>)

  /** The for-else fallback market order for one part. */
  function FallbackSell(st: SellState, part: real, reply: Reply): Option<SellState>
  {
    var st1 := st.(orders := st.orders + [MarketSell(part)]);
    match reply
    case Rejected(_) => None
    case Done(pr, vo) =>
      var price := OrElse(pr, 0.0);
      var qty := OrElse(vo, part);
      if st1.sold + qty == 0.0 then None else Some(Record(st1, price, qty))
    case Open => if st1.sold + part == 0.0 then None else Some(Record(st1, 0.0, part))
  }

  function FallbackOrders(st: SellState, part: real): seq<Order>
  {
    st.orders + [MarketSell(part)]
  }

  /** `smart_sell` from part `i` on. */
  function SellFrom(i: nat, st: SellState, p: SellParams, attempts: (nat, nat) -> Attempt, fallback: nat -> Reply): SellOutcome
    decreases Retries(p.split) - i
  {
    if i >= Retries(p.split) then Returned(st)
    else match PartSize(p, st.sold)
      case None => SellRaised(st.orders)
      case Some(part) =>
        (match SellTries(0, st, part, p, attempts, i)
         case TriesReturn(st1) => Returned(st1)
         case TriesSold(st1) => SellFrom(i + 1, st1, p, attempts, fallback)
         case TriesExhausted(st1, part1) =>
           (match FallbackSell(st1, part1, fallback(i))
            case None => SellRaised(FallbackOrders(st1, part1))
            case Some(st2) => SellFrom(i + 1, st2, p, attempts, fallback)))
  }

  method SmartSell(p: SellParams, attempts: (nat, nat) -> Attempt, fallback: nat -> Reply)
    returns (avgPrice: real, sold: real, raised: bool, orders: seq<Order>)
    ensures raised <==> SellFrom(0, Start, p, attempts, fallback).SellRaised?
    ensures raised ==> orders == SellFrom(0, Start, p, attempts, fallback).orders
    ensures !raised ==> var st := SellFrom(0, Start, p, attempts, fallback).st;
      avgPrice == st.avgPrice && sold == st.sold && orders == st.orders
  {
    avgPrice, sold, orders := 0.0, 0.0, [];
    var fills: seq<Fill> := [];
    var i: nat := 0;
    while i < Retries(p.split)
      invariant i <= Retries(p.split)
      invariant SellFrom(0, Start, p, attempts, fallback)
             == SellFrom(i, SellState(avgPrice, sold, fills, orders), p, attempts, fallback)
      decreases Retries(p.split) - i
    {
      var size := PartSize(p, sold);
      if size.None? {
        return avgPrice, sold, true, orders;
      }
      var part := size.value;
      ghost var firstPart := part;
      var atPart := SellState(avgPrice, sold, fills, orders);
      var k: nat := 0;
      var filled := false;
      while k < Retries(p.maxRetries)
        invariant k <= Retries(p.maxRetries)
        invariant SellTries(0, atPart, firstPart, p, attempts, i)
               == SellTries(k, SellState(avgPrice, sold, fills, orders), part, p, attempts, i)
        decreases Retries(p.maxRetries) - k
      {
        var step := SellAttempt(SellState(avgPrice, sold, fills, orders), part, p, attempts(i, k));
        match step
        case SellReturn(st) =>
          return st.avgPrice, st.sold, false, st.orders;
        case PartSold(st) =>
          avgPrice, sold, orders := st.avgPrice, st.sold, st.orders;
          fills := st.fills;
          filled := true;
          break;
        case SellRetry(st, nextPart) =>
          avgPrice, sold, orders := st.avgPrice, st.sold, st.orders;
          fills := st.fills;
          part := nextPart;
          k := k + 1;
      }
      if !filled {
        var last := FallbackSell(SellState(avgPrice, sold, fills, orders), part, fallback(i));
        if last.None? {
          return avgPrice, sold, true, orders + [MarketSell(part)];
        }
        avgPrice, sold, orders := last.value.avgPrice, last.value.sold, last.value.orders;
        fills := last.value.fills;
      }
      i := i + 1;
    }
    raised := false;
  }

  // ------------------------------------------------------------ smart_sell: properties

  function SoldOf(fills: seq<Fill>): real
  {
    if fills == [] then 0.0 else SoldOf(fills[..|fills| - 1]) + fills[|fills| - 1].qty
  }

  function Proceeds(fills: seq<Fill>): real
  {
    if fills == [] then 0.0 else Proceeds(fills[..|fills| - 1]) + fills[|fills| - 1].price * fills[|fills| - 1].qty
  }

  /** `sold` is the total of the executions and `avg_price * sold` their total proceeds. */
  predicate Books(st: SellState)
  {
    st.sold == SoldOf(st.fills) && st.avgPrice * st.sold == Proceeds(st.fills)
  }

  lemma RecordBooks(st: SellState, price: real, qty: real)
    requires Books(st) && st.sold + qty != 0.0
    ensures Books(Record(st, price, qty))
  {
    var r := Record(st, price, qty);
    assert r.fills[..|r.fills| - 1] == st.fills;
    var d := st.sold + qty;
    assert r.avgPrice * d == st.avgPrice * st.sold + price * qty;
  }

  lemma BookedBooks(st: SellState, price: real, qty: real, part: real)
    requires Books(st)
    ensures Books(Booked(st, price, qty, part).st)
  {
    if st.sold + qty != 0.0 {
      RecordBooks(st, price, qty);
    }
  }

  /** One attempt keeps the books: every state it leaves has `sold` and `avg_price` matching its executions. */
  /** Orders do not touch the books. */
  lemma OrderKeepsBooks(st: SellState, o: Order)
    requires Books(st)
    ensures Books(st.(orders := st.orders + [o]))
  {
  }

  /** One attempt keeps the books: every state it leaves has `sold` and `avg_price` matching its executions. */
  lemma SellAttemptBooks(st: SellState, part: real, p: SellParams, a: Attempt)
    requires Books(st)
    ensures Books(SellAttempt(st, part, p, a).st)
  {
    match a.book
    case BookFailed(_) =>
    case Book(ask, bid) =>
      if ask != 0.0 && !(p.slippageLimit.Some? && Spread(ask, bid) > p.slippageLimit.value) {
        if Spread(ask, bid) <= p.slippage {
          var st1 := st.(orders := st.orders + [MarketSell(part)]);
          OrderKeepsBooks(st, MarketSell(part));
          match a.reply
          case Rejected(_) =>
          case Done(pr, vo) => BookedBooks(st1, OrElse(pr, bid), OrElse(vo, part), part);
          case Open => BookedBooks(st1, bid, part, part);
        } else {
          var limitPrice := bid + ExecutionTick(bid);
          var st1 := st.(orders := st.orders + [LimitSell(limitPrice, part)]);
          OrderKeepsBooks(st, LimitSell(limitPrice, part));
          match a.reply
          case Rejected(_) =>
          case Done(_, filled) =>
            var q := OrElse(filled, part);
            BookedBooks(st1, limitPrice, q, q);
          case Open =>
        }
      }
  }

  lemma {:induction false} SellTriesBooks(k: nat, st: SellState, part: real, p: SellParams, attempts: (nat, nat) -> Attempt, i: nat)
    requires Books(st)
    ensures Books(SellTries(k, st, part, p, attempts, i).st)
    decreases Retries(p.maxRetries) - k
  {
    if k < Retries(p.maxRetries) {
      SellAttemptBooks(st, part, p, attempts(i, k));
      match SellAttempt(st, part, p, attempts(i, k))
      case PartSold(_) =>
      case SellReturn(_) =>
      case SellRetry(st1, part1) => SellTriesBooks(k + 1, st1, part1, p, attempts, i);
    }
  }

  lemma FallbackBooks(st: SellState, part: real, reply: Reply)
    requires Books(st)
    requires FallbackSell(st, part, reply).Some?
    ensures Books(FallbackSell(st, part, reply).value)
  {
    var st1 := st.(orders := st.orders + [MarketSell(part)]);
    match reply
    case Done(pr, vo) => RecordBooks(st1, OrElse(pr, 0.0), OrElse(vo, part));
    case Open => RecordBooks(st1, 0.0, part);
  }

  lemma {:induction false} SellFromBooks(i: nat, st: SellState, p: SellParams, attempts: (nat, nat) -> Attempt, fallback: nat -> Reply)
    requires Books(st)
    requires SellFrom(i, st, p, attempts, fallback).Returned?
    ensures Books(SellFrom(i, st, p, attempts, fallback).st)
    decreases Retries(p.split) - i
  {
    if i < Retries(p.split) {
      var part := PartSize(p, st.sold).value;
      SellTriesBooks(0, st, part, p, attempts, i);
      match SellTries(0, st, part, p, attempts, i)
      case TriesReturn(_) =>
      case TriesSold(st1) => SellFromBooks(i + 1, st1, p, attempts, fallback);
      case TriesExhausted(st1, part1) =>
        FallbackBooks(st1, part1, fallback(i));
        SellFromBooks(i + 1, FallbackSell(st1, part1, fallback(i)).value, p, attempts, fallback);
    }
  }

  /** Booked figures are the total and the volume-weighted average price of the executions. */
  lemma BooksAverage(st: SellState)
    requires Books(st)
    ensures st.sold == SoldOf(st.fills)
    ensures st.sold != 0.0 ==> st.avgPrice == Proceeds(st.fills) / st.sold
  {
  }

  /**
   * Whatever the exchange answers, the (avg_price, sold) that `smart_sell`
   * returns is the volume-weighted average of its executions and their total.
   */
  lemma SellReturnsWeightedAverage(p: SellParams, attempts: (nat, nat) -> Attempt, fallback: nat -> Reply, st: SellState)
    requires SellFrom(0, Start, p, attempts, fallback) == Returned(st)
    ensures st.sold == SoldOf(st.fills)
    ensures st.sold != 0.0 ==> st.avgPrice == Proceeds(st.fills) / st.sold
  {
    SellFromBooks(0, Start, p, attempts, fallback);
    BooksAverage(st);
  }

  /** A spread above the limit on the very first attempt returns (0, 0) without an order. */
  lemma SellSkipsWideSpread(p: SellParams, attempts: (nat, nat) -> Attempt, fallback: nat -> Reply)
    requires p.split > 0 && p.maxRetries > 0 && PartSize(p, 0.0).Some?
    requires attempts(0, 0).book.Book? && attempts(0, 0).book.ask != 0.0
    requires p.slippageLimit.Some?
    requires Spread(attempts(0, 0).book.ask, attempts(0, 0).book.bid) > p.slippageLimit.value
    ensures SellFrom(0, Start, p, attempts, fallback) == Returned(Start)
  {
  }

  /** Without the spread guard, a wide spread sends a limit sell one tick above the bid for the whole part. */
  lemma WideSpreadSellsOneTickAbove(st: SellState, part: real, p: SellParams, a: Attempt)
    requires a.book.Book? && a.book.ask != 0.0
    requires !(p.slippageLimit.Some? && Spread(a.book.ask, a.book.bid) > p.slippageLimit.value)
    requires Spread(a.book.ask, a.book.bid) > p.slippage
    ensures SellAttempt(st, part, p, a).st.orders
         == st.orders + [LimitSell(a.book.bid + ExecutionTick(a.book.bid), part)]
  {
  }

  /** A split of zero or less sends nothing and returns (0, 0). */
  lemma NoSplitSellsNothing(p: SellParams, attempts: (nat, nat) -> Attempt, fallback: nat -> Reply)
    requires p.split <= 0
    ensures SellFrom(0, Start, p, attempts, fallback) == Returned(Start)
  {
  }

  /** An exchange that fills every market order in full at a spread of zero. */
  function FullFills(): (nat, nat) -> Attempt
  {
    (_, _) => Attempt(Book(100.0, 100.0), Done(None, None))
  }

  /**
   * As written, the part size divides the original quantity by
   * `split - sold / quantity`: selling 1.0 in two parts with every order
   * filled sends 0.5 and then 2/3, and reports 7/6 sold.
   */
  lemma SplitOversells()
    ensures var p := SellParams(1.0, 0.001, 3, 2, None);
      var r := SellFrom(0, Start, p, FullFills(), _ => Open);
      r.Returned? && r.st.sold == 7.0 / 6.0 && r.st.sold > p.quantity
      && r.st.orders == [MarketSell(0.5), MarketSell(2.0 / 3.0)]
  {
    var p := SellParams(1.0, 0.001, 3, 2, None);
    var a := FullFills();
    assert a(0, 0) == Attempt(Book(100.0, 100.0), Done(None, None));
    assert a(1, 0) == Attempt(Book(100.0, 100.0), Done(None, None));
    assert Spread(100.0, 100.0) == 0.0;
    assert PartSize(p, 0.0) == Some(0.5);
    var st1 := Record(Start.(orders := [MarketSell(0.5)]), 100.0, 0.5);
    assert SellAttempt(Start, 0.5, p, a(0, 0)) == PartSold(st1);
    assert SellTries(0, Start, 0.5, p, a, 0) == TriesSold(st1);
    assert st1.sold == 0.5;
    assert PartSize(p, 0.5) == Some(2.0 / 3.0);
    var st2 := Record(st1.(orders := [MarketSell(0.5), MarketSell(2.0 / 3.0)]), 100.0, 2.0 / 3.0);
    assert SellAttempt(st1, 2.0 / 3.0, p, a(1, 0)) == PartSold(st2);
    assert SellTries(0, st1, 2.0 / 3.0, p, a, 1) == TriesSold(st2);
    assert SellFrom(2, st2, p, a, _ => Open) == Returned(st2);
  }

  /** The intended part size: what is left, spread over the parts still to come. */
  function EvenPartSize(quantity: real, split: int, i: nat, sold: real): (r: real)
    requires i < split
    ensures i == split - 1 ==> sold + r == quantity
  {
    (quantity - sold) / (split - i) as real
  }

  /** No part of the intended rule sells beyond the quantity while fills stay within their orders. */
  lemma EvenPartsNeverOversell(quantity: real, split: int, i: nat, sold: real)
    requires i < split && 0.0 <= sold <= quantity
    ensures sold <= sold + EvenPartSize(quantity, split, i, sold) <= quantity
  {
    var d := (split - i) as real;
    assert d >= 1.0;
    assert EvenPartSize(quantity, split, i, sold) * d == quantity - sold;
  }

  /** The total sold from part `i` on when every part fills in full under the intended rule. */
  function EvenSold(quantity: real, split: int, i: nat, sold: real): real
    decreases split - i
  {
    if i >= split then sold else EvenSold(quantity, split, i + 1, sold + EvenPartSize(quantity, split, i, sold))
  }

  /** Under the intended rule, parts that fill in full add up to exactly the quantity. */
  lemma {:induction false} EvenPartsSellExactly(quantity: real, split: int, i: nat, sold: real)
    requires i < split
    ensures EvenSold(quantity, split, i, sold) == quantity
    decreases split - i
  {
    if i + 1 < split {
      EvenPartsSellExactly(quantity, split, i + 1, sold + EvenPartSize(quantity, split, i, sold));
    }
  }

  /** With the default split of 1 both rules give the whole quantity. */
  lemma UnsplitRulesAgree(p: SellParams)
    requires p.split == 1
    ensures PartSize(p, 0.0) == Some(EvenPartSize(p.quantity, p.split, 0, 0.0))
  {
  }
}
