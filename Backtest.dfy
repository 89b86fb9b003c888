/**
 * The threshold backtest of the ML pipeline: a one-position trade simulator
 * over a price series and per-row buy/sell probabilities, and the count, win
 * rate and compounded ROI computed from the resulting trades.
 *
 * A row index is kept in every trade beside the timestamp the source records,
 * so that the ordering of trades can be stated.
 */
module Backtest {
  import opened Common

  /** One row of the test frame: the time column and the close price. */
  datatype Bar = Bar(time: int, close: real)

  datatype Trade = Trade(entryRow: nat, exitRow: nat,
                         entryTime: int, exitTime: int,
                         entryPrice: real, exitPrice: real)

  /** Probabilities predicted for every row and the two calibrated thresholds. */
  datatype Signals = Signals(buyProbs: seq<real>, sellProbs: seq<real>,
                             buyThresh: real, sellThresh: real)

  predicate Fits(bars: seq<Bar>, sig: Signals)
  {
    |sig.buyProbs| == |bars| && |sig.sellProbs| == |bars|
  }

  predicate Opens(sig: Signals, i: nat)
    requires i < |sig.buyProbs|
  {
    sig.buyProbs[i] >= sig.buyThresh
  }

  predicate Closes(sig: Signals, i: nat)
    requires i < |sig.sellProbs|
  {
    sig.sellProbs[i] >= sig.sellThresh
  }

  function MakeTrade(bars: seq<Bar>, entry: nat, exit: nat): Trade
    requires entry < |bars| && exit < |bars|
  {
    Trade(entry, exit, bars[entry].time, bars[exit].time, bars[entry].close, bars[exit].close)
  }

  /** Closed trades so far and the entry row of the open position, if any. */
  datatype SimState = SimState(trades: seq<Trade>, open: Option<nat>)

  /** One iteration of the loop body, including its `continue` after an entry. */
  function Step(bars: seq<Bar>, sig: Signals, s: SimState, i: nat): SimState
    requires Fits(bars, sig) && i < |bars|
    requires s.open.Some? ==> s.open.value < |bars|
  {
    if s.open.None? && Opens(sig, i) then SimState(s.trades, Some(i))
    else if s.open.Some? && Closes(sig, i) then
      SimState(s.trades + [MakeTrade(bars, s.open.value, i)], None)
    else s
  }

  /** The state after the first `k` rows. */
  function Prefix(bars: seq<Bar>, sig: Signals, k: nat): (s: SimState)
    requires Fits(bars, sig) && k <= |bars|
    ensures s.open.Some? ==> s.open.value < k
  {
    if k == 0 then SimState([], None) else Step(bars, sig, Prefix(bars, sig, k - 1), k - 1)
  }

  /** The trades `_simulate_trades` returns: a position left open is closed on the last row. */
  function Simulate(bars: seq<Bar>, sig: Signals): seq<Trade>
    requires Fits(bars, sig)
  {
    var s := Prefix(bars, sig, |bars|);
    if s.open.Some? then s.trades + [MakeTrade(bars, s.open.value, |bars| - 1)] else s.trades
  }

  method SimulateTrades(bars: seq<Bar>, sig: Signals) returns (trades: seq<Trade>)
    requires Fits(bars, sig)
    ensures trades == Simulate(bars, sig)
  {
    trades := [];
    var position: Option<nat> := None;
    var i := 0;
    while i < |bars|
      invariant 0 <= i <= |bars|
      invariant Prefix(bars, sig, i) == SimState(trades, position)
    {
      if position.None? && sig.buyProbs[i] >= sig.buyThresh {
        position := Some(i);
        i := i + 1;
        continue;
      }
      if position.Some? && sig.sellProbs[i] >= sig.sellThresh {
        var entry := position.value;
        trades := trades + [Trade(entry, i, bars[entry].time, bars[i].time, bars[entry].close, bars[i].close)];
        position := None;
      }
      i := i + 1;
    }
    if position.Some? {
      var entry := position.value;
      var last := |bars| - 1;
      trades := trades + [Trade(entry, last, bars[entry].time, bars[last].time, bars[entry].close, bars[last].close)];
    }
  }

  // ------------------------------------------------------------ trade order

  /** First row after the last closed trade. */
  function FreeFrom(trades: seq<Trade>): nat
  {
    if trades == [] then 0 else trades[|trades| - 1].exitRow + 1
  }

  predicate TradeFromBars(bars: seq<Bar>, t: Trade)
  {
    t.entryRow <= t.exitRow < |bars|
    && t.entryTime == bars[t.entryRow].time && t.exitTime == bars[t.exitRow].time
    && t.entryPrice == bars[t.entryRow].close && t.exitPrice == bars[t.exitRow].close
  }

  /** A trade closed inside the loop: it opened on a buy signal and closed on the first sell signal after it. */
  predicate ClosedTrade(bars: seq<Bar>, sig: Signals, t: Trade, k: nat)
    requires Fits(bars, sig) && k <= |bars|
  {
    TradeFromBars(bars, t) && t.entryRow < t.exitRow < k
    && Opens(sig, t.entryRow) && Closes(sig, t.exitRow)
    && forall r :: t.entryRow < r < t.exitRow ==> !Closes(sig, r)
  }

  /** No buy signal in rows [lo, hi). */
  predicate Quiet(sig: Signals, lo: nat, hi: nat)
    requires hi <= |sig.buyProbs|
  {
    forall r :: lo <= r < hi ==> !Opens(sig, r)
  }

  /** The trades are in row order, separated, and each opened on the first buy signal after the previous exit. */
  predicate Chronological(sig: Signals, trades: seq<Trade>, n: nat)
    requires n <= |sig.buyProbs|
  {
    && (forall j :: 0 <= j < |trades| ==> trades[j].entryRow <= trades[j].exitRow < n)
    && (forall j :: 0 < j < |trades| ==>
          trades[j - 1].exitRow < trades[j].entryRow
          && Quiet(sig, trades[j - 1].exitRow + 1, trades[j].entryRow))
    && (trades != [] ==> Quiet(sig, 0, trades[0].entryRow))
  }

  ghost predicate PrefixInv(bars: seq<Bar>, sig: Signals, s: SimState, k: nat)
    requires Fits(bars, sig) && k <= |bars|
  {
    && (forall j :: 0 <= j < |s.trades| ==> ClosedTrade(bars, sig, s.trades[j], k))
    && Chronological(sig, s.trades, k)
    && (s.open.None? ==> Quiet(sig, FreeFrom(s.trades), k))
    && (s.open.Some? ==>
          var e := s.open.value;
          FreeFrom(s.trades) <= e < k && Opens(sig, e) && Quiet(sig, FreeFrom(s.trades), e)
          && forall r :: e < r < k ==> !Closes(sig, r))
  }

  lemma FreeFromPrefixes(trades: seq<Trade>, t: Trade)
    ensures (trades + [t])[..|trades|] == trades
    ensures FreeFrom(trades + [t]) == t.exitRow + 1
    ensures forall j :: 0 <= j <= |trades| ==> (trades + [t])[..j] == trades[..j]
  {
  }

  lemma StepOpenInv(bars: seq<Bar>, sig: Signals, s: SimState, k: nat)
    requires Fits(bars, sig) && k < |bars|
    requires s.open.None? && Opens(sig, k)
    requires PrefixInv(bars, sig, s, k)
    ensures PrefixInv(bars, sig, SimState(s.trades, Some(k)), k + 1)
  {
    forall j | 0 <= j < |s.trades| ensures ClosedTrade(bars, sig, s.trades[j], k + 1) {
      assert ClosedTrade(bars, sig, s.trades[j], k);
    }
  }

  lemma StepKeepInv(bars: seq<Bar>, sig: Signals, s: SimState, k: nat)
    requires Fits(bars, sig) && k < |bars|
    requires s.open.Some? ==> s.open.value < k && !Closes(sig, k)
    requires s.open.None? ==> !Opens(sig, k)
    requires PrefixInv(bars, sig, s, k)
    ensures PrefixInv(bars, sig, s, k + 1)
  {
    forall j | 0 <= j < |s.trades| ensures ClosedTrade(bars, sig, s.trades[j], k + 1) {
      assert ClosedTrade(bars, sig, s.trades[j], k);
    }
  }

  lemma {:induction false} StepCloseInv(bars: seq<Bar>, sig: Signals, s: SimState, k: nat)
    requires Fits(bars, sig) && k < |bars|
    requires s.open.Some? && s.open.value < k && Closes(sig, k)
    requires PrefixInv(bars, sig, s, k)
    ensures PrefixInv(bars, sig, SimState(s.trades + [MakeTrade(bars, s.open.value, k)], None), k + 1)
  {
    var t := MakeTrade(bars, s.open.value, k);
    FreeFromPrefixes(s.trades, t);
    var ts := s.trades + [t];
    assert ClosedTrade(bars, sig, t, k + 1);
    forall j | 0 <= j < |ts| ensures ClosedTrade(bars, sig, ts[j], k + 1) {
      if j < |s.trades| {
        assert ts[j] == s.trades[j];
        assert ClosedTrade(bars, sig, s.trades[j], k);
      }
    }
    AppendChronological(sig, s.trades, t, k + 1);
  }

  lemma AppendChronological(sig: Signals, trades: seq<Trade>, t: Trade, n: nat)
    requires n <= |sig.buyProbs|
    requires Chronological(sig, trades, n)
    requires FreeFrom(trades) <= t.entryRow <= t.exitRow < n
    requires Quiet(sig, FreeFrom(trades), t.entryRow)
    ensures Chronological(sig, trades + [t], n)
  {
    var ts := trades + [t];
    forall j | 0 < j < |ts|
      ensures ts[j - 1].exitRow < ts[j].entryRow && Quiet(sig, ts[j - 1].exitRow + 1, ts[j].entryRow)
    {
      if j == |trades| {
        assert ts[j - 1] == trades[|trades| - 1] && ts[j] == t;
      } else {
        assert ts[j - 1] == trades[j - 1] && ts[j] == trades[j];
      }
    }
    forall j | 0 <= j < |ts| ensures ts[j].entryRow <= ts[j].exitRow < n {
      if j < |trades| { assert ts[j] == trades[j]; }
    }
  }

  lemma StepInv(bars: seq<Bar>, sig: Signals, s: SimState, k: nat)
    requires Fits(bars, sig) && k < |bars|
    requires s.open.Some? ==> s.open.value < k
    requires PrefixInv(bars, sig, s, k)
    ensures PrefixInv(bars, sig, Step(bars, sig, s, k), k + 1)
  {
    if s.open.None? && Opens(sig, k) {
      StepOpenInv(bars, sig, s, k);
    } else if s.open.Some? && Closes(sig, k) {
      StepCloseInv(bars, sig, s, k);
    } else {
      StepKeepInv(bars, sig, s, k);
    }
  }

  lemma {:induction false} PrefixInvariant(bars: seq<Bar>, sig: Signals, k: nat)
    requires Fits(bars, sig) && k <= |bars|
    ensures PrefixInv(bars, sig, Prefix(bars, sig, k), k)
  {
    if k > 0 {
      PrefixInvariant(bars, sig, k - 1);
      StepInv(bars, sig, Prefix(bars, sig, k - 1), k - 1);
    }
  }

  /**
   * What `_simulate_trades` promises: trades come from the bars, are in row
   * order without overlap, and each opens on the first buy signal after the
   * previous exit. Every trade but possibly the last closed on the first sell
   * signal after its entry row (never on the entry row itself); the last one
   * either did so or was closed on the final row with no sell signal after
   * its entry. After the last trade's exit no buy signal occurs.
   */
  lemma {:induction false} SimulateCharacterized(bars: seq<Bar>, sig: Signals)
    requires Fits(bars, sig)
    ensures var ts := Simulate(bars, sig);
      && Chronological(sig, ts, |bars|)
      && (forall j :: 0 <= j < |ts| ==> TradeFromBars(bars, ts[j]) && Opens(sig, ts[j].entryRow))
      && (forall j :: 0 <= j < |ts| - 1 ==> ClosedTrade(bars, sig, ts[j], |bars|))
      && (ts != [] ==>
            var t := ts[|ts| - 1];
            ClosedTrade(bars, sig, t, |bars|)
            || (t.exitRow == |bars| - 1 && forall r :: t.entryRow < r < |bars| ==> !Closes(sig, r)))
      && Quiet(sig, FreeFrom(ts), |bars|)
  {
    var n := |bars|;
    PrefixInvariant(bars, sig, n);
    var s := Prefix(bars, sig, n);
    if s.open.Some? {
      var t := MakeTrade(bars, s.open.value, n - 1);
      FreeFromPrefixes(s.trades, t);
      var ts := s.trades + [t];
      assert ts == Simulate(bars, sig);
      AppendChronological(sig, s.trades, t, n);
      forall j | 0 <= j < |ts| ensures TradeFromBars(bars, ts[j]) && Opens(sig, ts[j].entryRow) {
        if j < |s.trades| { assert ts[j] == s.trades[j]; }
      }
      forall j | 0 <= j < |ts| - 1 ensures ClosedTrade(bars, sig, ts[j], n) {
        assert ts[j] == s.trades[j];
      }
    }
  }

  /** At most one position at a time: a trade's holding rows never meet another trade's. */
  lemma NoOverlap(bars: seq<Bar>, sig: Signals, i: nat, j: nat)
    requires Fits(bars, sig)
    requires i < j < |Simulate(bars, sig)|
    ensures Simulate(bars, sig)[i].exitRow < Simulate(bars, sig)[j].entryRow
  {
    var ts := Simulate(bars, sig);
    SimulateCharacterized(bars, sig);
    var k := i;
    while k < j - 1
      invariant i <= k <= j - 1
      invariant ts[i].exitRow < ts[k + 1].entryRow
    {
      assert ts[k + 1].entryRow <= ts[k + 1].exitRow by { assert TradeFromBars(bars, ts[k + 1]); }
      assert ts[k + 1].exitRow < ts[k + 2].entryRow;
      k := k + 1;
    }
  }

  /** A position opened on the last row is closed at its own price. */
  lemma OpenOnLastRow(bars: seq<Bar>, sig: Signals)
    requires Fits(bars, sig) && |bars| > 0
    requires Prefix(bars, sig, |bars|).open == Some(|bars| - 1)
    ensures var ts := Simulate(bars, sig);
      ts != [] && ts[|ts| - 1].entryPrice == ts[|ts| - 1].exitPrice
  {
  }

  // ------------------------------------------------------------------- KPIs

  /** The `return` the source stores with a trade. */
  function ReturnOf(t: Trade): real
    requires t.entryPrice != 0.0
  {
    (t.exitPrice - t.entryPrice) / t.entryPrice
  }

  predicate PricedTrades(trades: seq<Trade>)
  {
    forall j :: 0 <= j < |trades| ==> trades[j].entryPrice != 0.0
  }

  /** Final equity multiple: the last element of `cumprod(1 + rets)`. */
  function Growth(trades: seq<Trade>): real
    requires PricedTrades(trades)
  {
    if trades == [] then 1.0
    else Growth(trades[..|trades| - 1]) * (1.0 + ReturnOf(trades[|trades| - 1]))
  }

  function Wins(trades: seq<Trade>): (w: nat)
    requires PricedTrades(trades)
    ensures w <= |trades|
  {
    if trades == [] then 0
    else Wins(trades[..|trades| - 1]) + (if ReturnOf(trades[|trades| - 1]) > 0.0 then 1 else 0)
  }

  datatype Kpis = Kpis(roi: real, winRate: real, trades: nat)

  function ComputeKpis(trades: seq<Trade>): (k: Kpis)
    requires PricedTrades(trades)
    ensures trades == [] ==> k == Kpis(0.0, 0.0, 0)
    ensures k.trades == |trades|
    ensures 0.0 <= k.winRate <= 100.0
  {
    if trades == [] then Kpis(0.0, 0.0, 0)
    else Kpis((Growth(trades) - 1.0) * 100.0,
              100.0 * (Wins(trades) as real) / (|trades| as real),
              |trades|)
  }

  lemma {:induction false} GrowthAppend(a: seq<Trade>, b: seq<Trade>)
    requires PricedTrades(a) && PricedTrades(b)
    ensures PricedTrades(a + b)
    ensures Growth(a + b) == Growth(a) * Growth(b)
    decreases |b|
  {
    if b != [] {
      var b' := b[..|b| - 1];
      assert (a + b)[..|a + b| - 1] == a + b';
      GrowthAppend(a, b');
    } else {
      assert a + b == a;
    }
  }

  lemma {:induction false} WinsAppend(a: seq<Trade>, b: seq<Trade>)
    requires PricedTrades(a) && PricedTrades(b)
    ensures PricedTrades(a + b)
    ensures Wins(a + b) == Wins(a) + Wins(b)
    decreases |b|
  {
    if b != [] {
      var b' := b[..|b| - 1];
      assert (a + b)[..|a + b| - 1] == a + b';
      WinsAppend(a, b');
    } else {
      assert a + b == a;
    }
  }

  /** Winning every trade gives a 100% win rate; losing every one gives 0%. */
  lemma {:induction false} WinRateExtremes(trades: seq<Trade>)
    requires PricedTrades(trades) && trades != []
    ensures (forall j :: 0 <= j < |trades| ==> ReturnOf(trades[j]) > 0.0) ==> ComputeKpis(trades).winRate == 100.0
    ensures (forall j :: 0 <= j < |trades| ==> ReturnOf(trades[j]) <= 0.0) ==> ComputeKpis(trades).winRate == 0.0
  {
    WinsBounds(trades);
  }

  lemma {:induction false} WinsBounds(trades: seq<Trade>)
    requires PricedTrades(trades)
    ensures (forall j :: 0 <= j < |trades| ==> ReturnOf(trades[j]) > 0.0) ==> Wins(trades) == |trades|
    ensures (forall j :: 0 <= j < |trades| ==> ReturnOf(trades[j]) <= 0.0) ==> Wins(trades) == 0
  {
    if trades != [] {
      var p := trades[..|trades| - 1];
      assert forall j :: 0 <= j < |p| ==> p[j] == trades[j];
      WinsBounds(p);
    }
  }

  /** A single trade's ROI is its return in percent. */
  lemma SingleTradeRoi(t: Trade)
    requires t.entryPrice != 0.0
    ensures ComputeKpis([t]).roi == ReturnOf(t) * 100.0
  {
    assert [t][..0] == [];
    assert Growth([t]) == 1.0 * (1.0 + ReturnOf(t));
  }
}
