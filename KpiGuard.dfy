/**
 * The KPI guard of the order layer (`KPIGuard`): it remembers the outcome of
 * every closed trade and raises an alert when the recent win rate or the
 * recent average PnL falls below its threshold. Alert delivery and logging
 * are not modelled; `Check` returns the alerts it would send.
 */
module KpiGuard {
  import opened Common

  /** The three settings `check` reads; None when the key is absent from the config. */
  datatype KpiConfig = KpiConfig(winMinN: Option<int>, winThreshold: Option<real>, pnlThreshold: Option<real>)

  function WinMinN(c: KpiConfig): int { if c.winMinN.Some? then c.winMinN.value else 100 }
  function WinThreshold(c: KpiConfig): real { if c.winThreshold.Some? then c.winThreshold.value else 0.55 }
  function PnlThreshold(c: KpiConfig): real { if c.pnlThreshold.Some? then c.pnlThreshold.value else -5.0 }

  /** What one `check` does: the alerts it sends (with the figure reported), or a ZeroDivisionError. */
  datatype KpiOutcome = Alerts(winRate: Option<real>, avgPnl: Option<real>) | DivisionByZero

  function SumInt(s: seq<int>): int
  {
    if s == [] then 0 else SumInt(s[..|s| - 1]) + s[|s| - 1]
  }

  function SumReal(s: seq<real>): real
  {
    if s == [] then 0.0 else SumReal(s[..|s| - 1]) + s[|s| - 1]
  }

  /** Python's `s[-n:]`, for any integer `n`. */
  function Window<T>(s: seq<T>, n: int): (r: seq<T>)
    ensures n > 0 ==> r == s[|s| - Min(n, |s|)..]
    ensures n == 0 ==> r == s
  {
    if n > 0 then s[|s| - Min(n, |s|)..]
    else if n == 0 then s
    else s[Min(-n, |s|)..]
  }

  /** The win-rate half of `check`: None when it is not evaluated. */
  function WinRateOf(win: seq<int>, n: int): Option<real>
    requires n != 0
  {
    if |win| >= n then Some(SumInt(Window(win, n)) as real / n as real) else None
  }

  /** The PnL half of `check`: None when there is no history. */
  function AvgPnlOf(pnl: seq<real>, n: int): Option<real>
    requires n > 0
  {
    if pnl == [] then None else Some(SumReal(Window(pnl, n)) / Min(|pnl|, n) as real)
  }

  /** `check()`: the win rate over the last `WIN_MIN_N` trades, then the average PnL. */
  function KpiCheck(win: seq<int>, pnl: seq<real>, c: KpiConfig): KpiOutcome
  {
    var n := WinMinN(c);
    if n == 0 then DivisionByZero
    else
      var rate := WinRateOf(win, n);
      var winAlert := if rate.Some? && rate.value < WinThreshold(c) then rate else None;
      if pnl == [] then Alerts(winAlert, None)
      else
        var avg := SumReal(Window(pnl, n)) / Min(|pnl|, n) as real;
        Alerts(winAlert, if avg <= PnlThreshold(c) then Some(avg) else None)
  }

  /** Entries of `win_history` are the 1s and 0s `record_trade` appends. */
  predicate ZeroOne(s: seq<int>)
  {
    forall i :: 0 <= i < |s| ==> s[i] == 0 || s[i] == 1
  }

  lemma {:induction false} SumZeroOne(s: seq<int>)
    requires ZeroOne(s)
    ensures 0 <= SumInt(s) <= |s|
  {
    if s != [] {
      SumZeroOne(s[..|s| - 1]);
    }
  }

  /** Over a 0/1 history, the evaluated win rate is a fraction in [0, 1]. */
  lemma WinRateIsFraction(win: seq<int>, n: int)
    requires ZeroOne(win) && n > 0 && |win| >= n
    ensures WinRateOf(win, n).Some?
    ensures 0.0 <= WinRateOf(win, n).value <= 1.0
  {
    var w := Window(win, n);
    assert ZeroOne(w) by {
      forall i | 0 <= i < |w| ensures w[i] == 0 || w[i] == 1 {
        assert w[i] == win[|win| - n + i];
      }
    }
    SumZeroOne(w);
    assert |w| == n;
    FractionBounds(SumInt(w), n);
  }

  lemma FractionBounds(k: int, n: int)
    requires 0 <= k <= n && n > 0
    ensures 0.0 <= k as real / n as real <= 1.0
  {
    assert k as real <= n as real;
    assert k as real / n as real <= n as real / n as real;
  }

  /**
   * With a positive `WIN_MIN_N`, a win-rate alert is sent iff at least that
   * many trades are recorded and the rate over the last of them is below
   * the threshold.
   */
  lemma WinAlertIff(win: seq<int>, pnl: seq<real>, c: KpiConfig)
    requires WinMinN(c) > 0
    ensures KpiCheck(win, pnl, c).Alerts?
    ensures KpiCheck(win, pnl, c).winRate.Some? <==>
      |win| >= WinMinN(c)
      && SumInt(win[|win| - WinMinN(c)..]) as real / WinMinN(c) as real < WinThreshold(c)
  {
  }

  /**
   * With a positive `WIN_MIN_N`, a PnL alert is sent iff some PnL is recorded
   * and the average of the last min(len, WIN_MIN_N) entries is at most the
   * threshold.
   */
  lemma PnlAlertIff(win: seq<int>, pnl: seq<real>, c: KpiConfig)
    requires WinMinN(c) > 0
    ensures KpiCheck(win, pnl, c).Alerts?
    ensures KpiCheck(win, pnl, c).avgPnl.Some? <==>
      pnl != [] && AvgPnlOf(pnl, WinMinN(c)).value <= PnlThreshold(c)
    ensures pnl != [] ==>
      AvgPnlOf(pnl, WinMinN(c)).value
        == SumReal(pnl[|pnl| - Min(|pnl|, WinMinN(c))..]) / Min(|pnl|, WinMinN(c)) as real
  {
  }

  /** `WIN_MIN_N` of 0 makes every check divide by zero, even before any trade. */
  lemma ZeroWindowRaises(win: seq<int>, pnl: seq<real>, c: KpiConfig)
    requires WinMinN(c) == 0
    ensures KpiCheck(win, pnl, c) == DivisionByZero
  {
  }

  /** With the defaults, 100 straight losses raise the win-rate alert. */
  lemma LossStreakAlerts(pnl: seq<real>)
    ensures KpiCheck(seq(100, _ => 0), pnl, KpiConfig(None, None, None)).Alerts?
    ensures KpiCheck(seq(100, _ => 0), pnl, KpiConfig(None, None, None)).winRate == Some(0.0)
  {
    var win: seq<int> := seq(100, _ => 0);
    assert ZeroOne(win);
    SumZeroOne(win);
    assert Window(win, 100) == win;
    SumZeros(win);
  }

  lemma {:induction false} SumZeros(s: seq<int>)
    requires forall i :: 0 <= i < |s| ==> s[i] == 0
    ensures SumInt(s) == 0
  {
    if s != [] {
      SumZeros(s[..|s| - 1]);
    }
  }

  class Guard {
    const config: KpiConfig
    var winHistory: seq<int>
    var pnlHistory: seq<real>

    /** One entry per recorded trade in each history, wins as 1 and losses as 0. */
    predicate Valid()
      reads this
    {
      |winHistory| == |pnlHistory| && ZeroOne(winHistory)
    }

    constructor (c: KpiConfig)
      ensures Valid() && config == c
      ensures winHistory == [] && pnlHistory == []
    {
      config := c;
      winHistory := [];
      pnlHistory := [];
    }

    /** `record_trade`: exactly one entry appended to each history. */
    method RecordTrade(win: bool, pnl: real)
      requires Valid()
      modifies this
      ensures Valid()
      ensures winHistory == old(winHistory) + [if win then 1 else 0]
      ensures pnlHistory == old(pnlHistory) + [pnl]
    {
      winHistory := winHistory + [if win then 1 else 0];
      pnlHistory := pnlHistory + [pnl];
    }

    /** `check`: reads both histories and changes neither. */
    method Check() returns (r: KpiOutcome)
      ensures r == KpiCheck(winHistory, pnlHistory, config)
    {
      var n := if config.winMinN.Some? then config.winMinN.value else 100;
      var threshold := if config.winThreshold.Some? then config.winThreshold.value else 0.55;
      if n == 0 {
        return DivisionByZero;
      }
      var winAlert := None;
      if |winHistory| >= n {
        var rate := SumInt(Window(winHistory, n)) as real / n as real;
        if rate < threshold {
          winAlert := Some(rate);
        }
      }
      if pnlHistory == [] {
        return Alerts(winAlert, None);
      }
      var count := Min(|pnlHistory|, n);
      var avg := SumReal(Window(pnlHistory, n)) / count as real;
      var pnlTh := if config.pnlThreshold.Some? then config.pnlThreshold.value else -5.0;
      r := Alerts(winAlert, if avg <= pnlTh then Some(avg) else None);
    }
  }
}
