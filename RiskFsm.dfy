/**
 * The risk manager (`RiskManager`): a state machine over ACTIVE, PAUSE and
 * HALT driven by the account losses it is given, per-symbol slippage
 * counters, a set of disabled symbols and a pause timer, with its limits read
 * from the hot-reloaded risk configuration.
 *
 * The clock is a parameter (one reading per call). The calls the manager
 * makes into the order layer (`close_all_positions`, `execute_sell`,
 * `update_from_risk_config`) are recorded, in order, in `commands`; logs,
 * the FSM journal and alerts are not modelled.
 */
module RiskFsm {
  import opened Common
  import opened Positions
  import opened ConfigReload

  datatype RiskState = ACTIVE | PAUSE | DISABLE | HALT

  /** The `order_executor` the manager was given, and whether it has a `position_manager`. */
  datatype Executor = NoExecutor | Executor(hasPositionManager: bool)

  /** A call from the manager into the order layer. */
  datatype Command =
    | CloseAll
    | Sell(pos: Position, reason: string, qty: Option<real>)
    | RefreshSizing

  predicate HasPositionManager(ex: Executor) { ex.Executor? && ex.hasPositionManager }

  /** `close_all_positions`: forwarded only when a position manager is reachable. */
  function CloseAllCalls(ex: Executor): seq<Command>
  {
    if HasPositionManager(ex) then [CloseAll] else []
  }

  /** Every field of the manager, as a value. */
  datatype Manager = Manager(
    state: RiskState,
    dailyLoss: real,
    mdd: real,
    monthlyMdd: real,
    slippageEvents: map<string, int>,
    openSymbols: set<string>,
    disabledSymbols: set<string>,
    pauseTimer: Option<real>,
    lastReloadCheck: real,
    commands: seq<Command>,
    config: ConfigState)

  /** The state `__init__` leaves behind, given the configuration its one reload produced. */
  function Initial(cfg: ConfigState): Manager
  {
    Manager(ACTIVE, 0.0, 0.0, 0.0, map[], {}, {}, None, 0.0, [], cfg)
  }

  /** The result of one call: the new state, whether it raised, and whether MAX_SYMBOLS was exceeded. */
  datatype Step = Step(after: Manager, raised: bool, warned: bool)

  /** The numeric value `abs()` and the comparisons see; None where they raise TypeError. */
  function NumberValue(v: Json): Option<real>
  {
    match v
    case JNum(n) => Some(n)
    case JBool(b) => Some(if b then 1.0 else 0.0)
    case _ => None
  }

  /**
   * `config.get(key, default)` as a number; None where it raises: a value
   * that is not a number, or a cache that is not a dict.
   */
  function Setting(cfg: ConfigState, key: string, default: real): Option<real>
  {
    match cfg.cache
    case JObject(fields) => if key in fields then NumberValue(fields[key]) else Some(default)
    case _ => None
  }

  /** Python truthiness of `pause_timer`. */
  predicate TimerSet(t: Option<real>) { t.Some? && t.value != 0.0 }

  // ------------------------------------------------------------ transitions

  /** `pause(minutes)` at time `now`. */
  function Paused(m: Manager, minutes: real, now: real, ex: Executor): Manager
  {
    if m.state == PAUSE then m
    else m.(state := PAUSE, pauseTimer := Some(now + minutes * 60.0),
            commands := m.commands + CloseAllCalls(ex))
  }

  /** `halt()`. */
  function Halted(m: Manager, ex: Executor): Manager
  {
    if m.state == HALT then m
    else m.(state := HALT, commands := m.commands + CloseAllCalls(ex))
  }

  predicate SellsPosition(p: Position, symbol: string)
  {
    p.symbol == symbol && p.status == "open"
  }

  /** The `execute_sell` calls `disable_symbol` makes for the listed positions, in list order. */
  function SellsFor(positions: seq<Position>, symbol: string): seq<Command>
  {
    if positions == [] then []
    else
      var p := positions[|positions| - 1];
      SellsFor(positions[..|positions| - 1], symbol)
        + (if SellsPosition(p, symbol) then [Sell(p, "risk_disable", p.qty)] else [])
  }

  /** `disable_symbol(symbol)` while the position manager holds `positions`. */
  function Disabled(m: Manager, symbol: string, positions: seq<Position>, ex: Executor): Manager
  {
    m.(disabledSymbols := m.disabledSymbols + {symbol},
       commands := m.commands + (if HasPositionManager(ex) then SellsFor(positions, symbol) else []))
  }

  function SlipCount(m: Manager, symbol: string): int
  {
    if symbol in m.slippageEvents then m.slippageEvents[symbol] else 0
  }

  /** `on_slippage(symbol)`: the counter moves first, the limit is read afterwards. */
  function Slipped(m: Manager, symbol: string, positions: seq<Position>, ex: Executor): Step
  {
    var count := SlipCount(m, symbol) + 1;
    var m1 := m.(slippageEvents := m.slippageEvents[symbol := count]);
    match Setting(m.config, "SLIP_FAIL_MAX", 5.0)
    case None => Step(m1, true, false)
    case Some(limit) =>
      Step(if count as real >= limit then Disabled(m1, symbol, positions, ex) else m1, false, false)
  }

  predicate Breached(x: real, limit: real) { x <= -Abs(limit) }

  /** `check_risk()`: daily loss, then 30-day MDD, then monthly MDD, then the symbol count. */
  function CheckedRisk(m: Manager, now: real, ex: Executor): Step
  {
    match Setting(m.config, "DAILY_LOSS_LIM", 2.5)
    case None => Step(m, true, false)
    case Some(daily) =>
      var m1 := if Breached(m.dailyLoss, daily) then Paused(m, 1440.0, now, ex) else m;
      (match Setting(m.config, "MDD_LIM", 7.0)
       case None => Step(m1, true, false)
       case Some(mddLimit) =>
         var m2 := if Breached(m.mdd, mddLimit) then Halted(m1, ex) else m1;
         (match Setting(m.config, "MONTHLY_MDD_LIM", 10.0)
          case None => Step(m2, true, false)
          case Some(monthlyLimit) =>
            var m3 := if Breached(m.monthlyMdd, monthlyLimit) then Halted(m2, ex) else m2;
            (match Setting(m.config, "MAX_SYMBOLS", 5.0)
             case None => Step(m3, true, false)
             case Some(maxSymbols) => Step(m3, false, |m.openSymbols| as real > maxSymbols))))
  }

  /** The first step of `periodic()`: leave PAUSE once its timer has passed. */
  function Resumed(m: Manager, now: real): Manager
  {
    if m.state == PAUSE && TimerSet(m.pauseTimer) && now > m.pauseTimer.value
    then m.(state := ACTIVE) else m
  }

  /** `hot_reload()`: the new configuration, and the sizing refresh on an update. */
  function HotReloaded(m: Manager, file: ConfigFile, parse: Parser, ex: Executor): (Manager, ReloadOutcome)
  {
    var r := Reloaded(m.config, file, parse);
    (m.(config := r.0,
        commands := m.commands + (if r.1 == Updated && ex.Executor? then [RefreshSizing] else [])),
     r.1)
  }

  /** `periodic()` at time `now`, with the config file as `file` shows it. */
  function PeriodicStep(m: Manager, now: real, file: ConfigFile, parse: Parser, ex: Executor): Step
  {
    var m1 := Resumed(m, now);
    if now - m.lastReloadCheck >= 1.0 then
      var r := HotReloaded(m1, file, parse, ex);
      if r.1 == Raised then Step(r.0, true, false)
      else CheckedRisk(r.0.(lastReloadCheck := now), now, ex)
    else CheckedRisk(m1, now, ex)
  }

  // ------------------------------------------------------------ properties

  /** Every limit `check_risk` reads is a number, so it raises nowhere. */
  predicate NumericLimits(cfg: ConfigState)
  {
    Setting(cfg, "DAILY_LOSS_LIM", 2.5).Some? && Setting(cfg, "MDD_LIM", 7.0).Some?
    && Setting(cfg, "MONTHLY_MDD_LIM", 10.0).Some? && Setting(cfg, "MAX_SYMBOLS", 5.0).Some?
  }

  predicate DailyBreached(m: Manager)
    requires NumericLimits(m.config)
  {
    Breached(m.dailyLoss, Setting(m.config, "DAILY_LOSS_LIM", 2.5).value)
  }

  predicate DrawdownBreached(m: Manager)
    requires NumericLimits(m.config)
  {
    Breached(m.mdd, Setting(m.config, "MDD_LIM", 7.0).value)
    || Breached(m.monthlyMdd, Setting(m.config, "MONTHLY_MDD_LIM", 10.0).value)
  }

  /** A breach of either drawdown limit ends the check in HALT, whatever the daily loss did first. */
  lemma DrawdownEndsInHalt(m: Manager, now: real, ex: Executor)
    requires NumericLimits(m.config) && DrawdownBreached(m)
    ensures !CheckedRisk(m, now, ex).raised
    ensures CheckedRisk(m, now, ex).after.state == HALT
  {
  }

  /**
   * A breach of the daily limit alone pauses for 1440 minutes, from any state
   * other than PAUSE, HALT included.
   */
  lemma DailyBreachPauses(m: Manager, now: real, ex: Executor)
    requires NumericLimits(m.config) && DailyBreached(m) && !DrawdownBreached(m)
    requires m.state != PAUSE
    ensures CheckedRisk(m, now, ex).after.state == PAUSE
    ensures CheckedRisk(m, now, ex).after.pauseTimer == Some(now + 86400.0)
    ensures CheckedRisk(m, now, ex).after.commands == m.commands + CloseAllCalls(ex)
  {
  }

  /** Within every limit, `check_risk` changes nothing. */
  lemma WithinLimitsUnchanged(m: Manager, now: real, ex: Executor)
    requires NumericLimits(m.config) && !DailyBreached(m) && !DrawdownBreached(m)
    ensures CheckedRisk(m, now, ex) == Step(m, false, |m.openSymbols| as real > Setting(m.config, "MAX_SYMBOLS", 5.0).value)
  {
  }

  lemma PausedCommutes(m: Manager, other: set<string>, minutes: real, now: real, ex: Executor)
    ensures Paused(m.(openSymbols := other), minutes, now, ex) == Paused(m, minutes, now, ex).(openSymbols := other)
  {
  }

  lemma HaltedCommutes(m: Manager, other: set<string>, ex: Executor)
    ensures Halted(m.(openSymbols := other), ex) == Halted(m, ex).(openSymbols := other)
  {
  }

  /** The number of open symbols only decides the warning: the resulting state never depends on it. */
  lemma OpenSymbolsOnlyWarn(m: Manager, other: set<string>, now: real, ex: Executor)
    ensures CheckedRisk(m.(openSymbols := other), now, ex).after
         == CheckedRisk(m, now, ex).after.(openSymbols := other)
    ensures CheckedRisk(m.(openSymbols := other), now, ex).raised == CheckedRisk(m, now, ex).raised
  {
    var daily := Setting(m.config, "DAILY_LOSS_LIM", 2.5);
    if daily.Some? {
      PausedCommutes(m, other, 1440.0, now, ex);
      var m1 := if Breached(m.dailyLoss, daily.value) then Paused(m, 1440.0, now, ex) else m;
      var mddLimit := Setting(m.config, "MDD_LIM", 7.0);
      if mddLimit.Some? {
        HaltedCommutes(m1, other, ex);
        var m2 := if Breached(m.mdd, mddLimit.value) then Halted(m1, ex) else m1;
        HaltedCommutes(m2, other, ex);
      }
    }
  }

  /**
   * A configuration file that holds valid JSON but not an object (a list, a
   * number) is accepted by the reload, which answers True, and then the
   * first read of a limit raises: `check_risk` raises with the manager
   * unchanged.
   */
  lemma NonObjectConfigBreaksCheck(m: Manager, now: real, file: ConfigFile, parse: Parser, ex: Executor)
    requires file.Present? && file.mtime != m.config.mtime
    requires parse(LoadText(file.lines)).Some? && !parse(LoadText(file.lines)).value.JObject?
    ensures HotReloaded(m, file, parse, ex).1 == Updated
    ensures HotReloaded(m, file, parse, ex).0.config.cache == parse(LoadText(file.lines)).value
    ensures CheckedRisk(HotReloaded(m, file, parse, ex).0, now, ex) == Step(HotReloaded(m, file, parse, ex).0, true, false)
  {
  }

  /** `check_risk` can pause or halt, but never makes the manager ACTIVE. */
  lemma CheckNeverActivates(m: Manager, now: real, ex: Executor)
    ensures CheckedRisk(m, now, ex).after.state == ACTIVE ==> m.state == ACTIVE
  {
  }

  /** `on_slippage` adds exactly one to that symbol's counter and touches no other counter. */
  lemma SlippageAddsOne(m: Manager, symbol: string, positions: seq<Position>, ex: Executor)
    ensures Slipped(m, symbol, positions, ex).after.slippageEvents
         == m.slippageEvents[symbol := SlipCount(m, symbol) + 1]
  {
  }

  /** With a numeric limit, the symbol ends up disabled iff it was already, or its counter reached the limit. */
  lemma SlippageDisablesIff(m: Manager, symbol: string, positions: seq<Position>, ex: Executor)
    requires Setting(m.config, "SLIP_FAIL_MAX", 5.0).Some?
    ensures !Slipped(m, symbol, positions, ex).raised
    ensures symbol in Slipped(m, symbol, positions, ex).after.disabledSymbols <==>
      symbol in m.disabledSymbols || (SlipCount(m, symbol) + 1) as real >= Setting(m.config, "SLIP_FAIL_MAX", 5.0).value
  {
  }

  /** Every sell `disable_symbol` issues is for an open position of that symbol, with its own quantity. */
  lemma {:induction false} SellsForSound(positions: seq<Position>, symbol: string)
    ensures |SellsFor(positions, symbol)| <= |positions|
    ensures forall c :: c in SellsFor(positions, symbol) ==>
      c.Sell? && c.pos in positions && SellsPosition(c.pos, symbol) && c.reason == "risk_disable" && c.qty == c.pos.qty
  {
    if positions != [] {
      var init := positions[..|positions| - 1];
      SellsForSound(init, symbol);
      assert forall p :: p in init ==> p in positions;
    }
  }

  /** Every open position of that symbol is sold. */
  lemma {:induction false} SellsForComplete(positions: seq<Position>, symbol: string, p: Position)
    requires p in positions && SellsPosition(p, symbol)
    ensures Sell(p, "risk_disable", p.qty) in SellsFor(positions, symbol)
  {
    var last := positions[|positions| - 1];
    var init := positions[..|positions| - 1];
    if p != last {
      assert positions == init + [last];
      assert p in init;
      SellsForComplete(init, symbol, p);
    }
  }

  /** `periodic` reaches ACTIVE only from ACTIVE, or from PAUSE with a set timer that has passed. */
  lemma PeriodicResumesOnlyFromPause(m: Manager, now: real, file: ConfigFile, parse: Parser, ex: Executor)
    ensures PeriodicStep(m, now, file, parse, ex).after.state == ACTIVE ==>
      m.state == ACTIVE || (m.state == PAUSE && TimerSet(m.pauseTimer) && now > m.pauseTimer.value)
  {
    var m1 := Resumed(m, now);
    if now - m.lastReloadCheck >= 1.0 {
      var r := HotReloaded(m1, file, parse, ex);
      if r.1 != Raised {
        CheckNeverActivates(r.0.(lastReloadCheck := now), now, ex);
      }
    } else {
      CheckNeverActivates(m1, now, ex);
    }
  }

  /**
   * HALT is not final: a daily-loss breach alone pauses a halted manager, and
   * once the 24 hours have passed and the loss has recovered, `periodic`
   * returns it to ACTIVE.
   */
  lemma HaltLeftThroughPause(m: Manager, now: real, later: real, recovered: real, parse: Parser, ex: Executor)
    requires m.state == HALT && NumericLimits(m.config)
    requires DailyBreached(m) && !DrawdownBreached(m)
    requires !Breached(recovered, Setting(m.config, "DAILY_LOSS_LIM", 2.5).value)
    requires now >= 0.0 && later > now + 86400.0
    ensures CheckedRisk(m, now, ex).after.state == PAUSE
    ensures PeriodicStep(CheckedRisk(m, now, ex).after.(dailyLoss := recovered), later, Missing, parse, ex).after.state == ACTIVE
  {
    DailyBreachPauses(m, now, ex);
    var paused := CheckedRisk(m, now, ex).after.(dailyLoss := recovered);
    assert paused.config == m.config && paused.mdd == m.mdd && paused.monthlyMdd == m.monthlyMdd;
    var resumed := Resumed(paused, later);
    assert resumed.state == ACTIVE;
    if later - paused.lastReloadCheck >= 1.0 {
      WithinLimitsUnchanged(HotReloaded(resumed, Missing, parse, ex).0.(lastReloadCheck := later), later, ex);
    } else {
      WithinLimitsUnchanged(resumed, later, ex);
    }
  }

  // ------------------------------------------------------------ the class

  class RiskManager {
    const executor: Executor
    const config: RiskConfig
    var state: RiskState
    var dailyLoss: real
    var mdd: real
    var monthlyMdd: real
    var slippageEvents: map<string, int>
    var openSymbols: set<string>
    var disabledSymbols: set<string>
    var pauseTimer: Option<real>
    var lastReloadCheck: real
    var commands: seq<Command>

    function View(): Manager
      reads this, config
    {
      Manager(state, dailyLoss, mdd, monthlyMdd, slippageEvents, openSymbols, disabledSymbols,
              pauseTimer, lastReloadCheck, commands, config.State())
    }

    /** `__init__`: ACTIVE, zero losses, no counters, no symbols, no timer, after one config reload. */
    constructor (file: ConfigFile, parse: Parser, ex: Executor)
      requires Reloaded(Fresh, file, parse).1 != Raised
      ensures executor == ex && fresh(config)
      ensures View() == Initial(Reloaded(Fresh, file, parse).0)
    {
      executor := ex;
      config := new RiskConfig(file, parse);
      state := ACTIVE;
      dailyLoss := 0.0;
      mdd := 0.0;
      monthlyMdd := 0.0;
      slippageEvents := map[];
      openSymbols := {};
      disabledSymbols := {};
      pauseTimer := None;
      lastReloadCheck := 0.0;
      commands := [];
    }

    method CloseAllPositions()
      modifies this
      ensures View() == old(View()).(commands := old(commands) + CloseAllCalls(executor))
    {
      if HasPositionManager(executor) {
        commands := commands + [CloseAll];
      }
    }

    /** `update_account`: the three loss figures and the set of open symbols are replaced. */
    method UpdateAccount(accountPnl: real, newMdd: real, newMonthlyMdd: real, symbols: seq<string>)
      modifies this
      ensures View() == old(View()).(dailyLoss := accountPnl, mdd := newMdd,
                                     monthlyMdd := newMonthlyMdd, openSymbols := set s | s in symbols)
    {
      dailyLoss := accountPnl;
      mdd := newMdd;
      monthlyMdd := newMonthlyMdd;
      openSymbols := set s | s in symbols;
    }

    method OnSlippage(symbol: string, positions: seq<Position>) returns (raised: bool)
      modifies this
      ensures View() == Slipped(old(View()), symbol, positions, executor).after
      ensures raised == Slipped(old(View()), symbol, positions, executor).raised
    {
      var count := (if symbol in slippageEvents then slippageEvents[symbol] else 0) + 1;
      slippageEvents := slippageEvents[symbol := count];
      var limit := Setting(config.State(), "SLIP_FAIL_MAX", 5.0);
      if limit.None? {
        return true;
      }
      if count as real >= limit.value {
        DisableSymbol(symbol, positions);
      }
      raised := false;
    }

    method Pause(minutes: real, now: real)
      modifies this
      ensures View() == Paused(old(View()), minutes, now, executor)
    {
      if state == PAUSE {
        return;
      }
      CloseAllPositions();
      state := PAUSE;
      pauseTimer := Some(now + minutes * 60.0);
    }

    /** `disable_symbol`: sells the open positions of `symbol` it finds in `positions`, then disables it. */
    method DisableSymbol(symbol: string, positions: seq<Position>)
      modifies this
      ensures View() == Disabled(old(View()), symbol, positions, executor)
    {
      if HasPositionManager(executor) {
        var sells := [];
        for i := 0 to |positions|
          invariant sells == SellsFor(positions[..i], symbol)
        {
          assert positions[..i + 1][..i] == positions[..i];
          var pos := positions[i];
          if pos.symbol == symbol && pos.status == "open" {
            sells := sells + [Sell(pos, "risk_disable", pos.qty)];
          }
        }
        assert positions[..|positions|] == positions;
        commands := commands + sells;
      }
      disabledSymbols := disabledSymbols + {symbol};
    }

    function IsSymbolDisabled(symbol: string): (r: bool)
      reads this
      ensures r <==> symbol in disabledSymbols
    {
      symbol in disabledSymbols
    }

    method Halt()
      modifies this
      ensures View() == Halted(old(View()), executor)
    {
      if state == HALT {
        return;
      }
      CloseAllPositions();
      state := HALT;
    }

    method CheckRisk(now: real) returns (raised: bool, warned: bool)
      modifies this
      ensures View() == CheckedRisk(old(View()), now, executor).after
      ensures raised == CheckedRisk(old(View()), now, executor).raised
      ensures warned == CheckedRisk(old(View()), now, executor).warned
    {
      var daily := Setting(config.State(), "DAILY_LOSS_LIM", 2.5);
      if daily.None? {
        return true, false;
      }
      if dailyLoss <= -Abs(daily.value) {
        Pause(1440.0, now);
      }
      var mddLimit := Setting(config.State(), "MDD_LIM", 7.0);
      if mddLimit.None? {
        return true, false;
      }
      if mdd <= -Abs(mddLimit.value) {
        Halt();
      }
      var monthlyLimit := Setting(config.State(), "MONTHLY_MDD_LIM", 10.0);
      if monthlyLimit.None? {
        return true, false;
      }
      if monthlyMdd <= -Abs(monthlyLimit.value) {
        Halt();
      }
      var maxSymbols := Setting(config.State(), "MAX_SYMBOLS", 5.0);
      if maxSymbols.None? {
        return true, false;
      }
      return false, |openSymbols| as real > maxSymbols.value;
    }

    method HotReload(file: ConfigFile, parse: Parser) returns (outcome: ReloadOutcome)
      modifies this, config
      ensures (View(), outcome) == HotReloaded(old(View()), file, parse, executor)
    {
      ghost var before := old(View());
      outcome := config.Reload(file, parse);
      if outcome == Updated && executor.Executor? {
        commands := commands + [RefreshSizing];
      }
      ghost var r := Reloaded(before.config, file, parse);
      assert outcome == r.1;
      assert View() == before.(config := r.0, commands := before.commands + (if r.1 == Updated && executor.Executor? then [RefreshSizing] else []));
    }

    method Periodic(now: real, file: ConfigFile, parse: Parser) returns (raised: bool, warned: bool)
      modifies this, config
      ensures View() == PeriodicStep(old(View()), now, file, parse, executor).after
      ensures raised == PeriodicStep(old(View()), now, file, parse, executor).raised
      ensures warned == PeriodicStep(old(View()), now, file, parse, executor).warned
    {
      if state == PAUSE && pauseTimer.Some? && pauseTimer.value != 0.0 && now > pauseTimer.value {
        state := ACTIVE;
      }
      if now - lastReloadCheck >= 1.0 {
        var outcome := HotReload(file, parse);
        if outcome == Raised {
          return true, false;
        }
        lastReloadCheck := now;
      }
      raised, warned := CheckRisk(now);
    }
  }
}
