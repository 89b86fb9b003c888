# Upbit trading bot: a Dafny model of its decision logic

This project models the sequential decision logic of an Upbit
crypto-trading bot, stated and proved in Dafny. The bot is written in
Python, with a small JavaScript dashboard. The model covers:

- **The ML pipeline:**
  - the threshold backtest and its KPIs;
  - forward-window labelling;
  - the chronological train/validation/test split;
  - strategy selection;
  - threshold calibration;
  - the formula rewriting of the strategy loader, and the `and`/`or` fold of compiled formulas;
  - OHLCV cleaning.
- **Risk and KPI state:**
  - the risk manager's ACTIVE/PAUSE/HALT machine;
  - the hot-reloaded risk configuration;
  - the KPI guard;
  - the in-memory position manager.
- **Orders and the universe:**
  - Upbit tick sizes;
  - the smart buy/sell decisions;
  - universe selection (both selectors);
  - coin conditions;
  - the rate limiter and retry loop of the data collector.
- **Signals:**
  - the strategy loop and formula substitutions of both signal engines;
  - the ML buy signal and the buy-list executor;
  - the three-flag buy signal package;
  - the signal loop;
  - the strategy helpers, the logger and the bot loop.
- **The dashboard:**
  - the Flask handlers of `app.py`;
  - the three client scripts `main.js`, `dashboard.js` and `strategy.js`.

Most Dafny modules model one source file each. The exceptions:

- `Common` and `Rewrite` hold shared helpers, and `Formulas` holds the
  rewrite passes the two signal engines share;
- `Frames` holds the column-name rules that the backtest and split scripts
  share, and Python's string order;
- `StrategyLoader` and `CompileFormula` split
  `f5_ml_pipeline/strategy_loader.py` between them: the text rewrite, then
  the tree transform and the loading;
- `ConvertExamples` holds only worked examples of that rewrite.

Code that works by changing state becomes a class or a method with loops.
Each method is proved against a specification function, and the
properties are proved as lemmas about those functions.

What the code cannot see is passed in as a parameter:

- network replies;
- file contents and parsed JSON;
- model probabilities and F1 scores;
- the clock;
- `float()` / `parseFloat` conversions;
- the final `eval` of a formula;
- string rendering.

Numbers are `real`s. Where the source's integer or float behaviour
matters, it is written out: truncation toward zero, floor division, and
NaN and the infinities.

## Model

| member | source | states |
|---|---|---|
| Backtest.SimulateTrades | f5_ml_pipeline/09_backtest.py:70-120 | the trade loop computes exactly the trades of the one-position state machine `Simulate` |
| Backtest.Prefix | f5_ml_pipeline/09_backtest.py:81-103 | after any number of rows the open position, if any, was entered on an earlier row |
| Backtest.SimulateCharacterized | f5_ml_pipeline/09_backtest.py:81-117 | trades are in row order without overlap; each opens on a buy signal (the first after the previous exit) and closes on the first later sell signal, or at the last row when none comes; no buy signal is left unused after the last trade |
| Backtest.PrefixInvariant | f5_ml_pipeline/09_backtest.py:81-103 | the loop invariant: the trades so far are chronological, priced from the bars, and closed on the first sell signal after entry |
| Backtest.AppendChronological | f5_ml_pipeline/09_backtest.py:83-103 | a trade that starts after the previous exit, with no buy signal in between, keeps the list chronological |
| Backtest.NoOverlap | f5_ml_pipeline/09_backtest.py:83-117 | each trade's exit row is before the next trade's entry row: at most one position at a time |
| Backtest.OpenOnLastRow | f5_ml_pipeline/09_backtest.py:105-117 | a position opened on the last row is closed at its own price, so entry equals exit |
| Backtest.ComputeKpis | f5_ml_pipeline/09_backtest.py:122-152 | no trades gives all zeros; the trade count is the number of trades and the win rate lies in [0, 100] |
| Backtest.Wins | f5_ml_pipeline/09_backtest.py:140-141 | the number of winning trades is at most the number of trades |
| Backtest.GrowthAppend | f5_ml_pipeline/09_backtest.py:142-143 | the compounded growth of two runs of trades is the product of their growths |
| Backtest.WinsAppend | f5_ml_pipeline/09_backtest.py:140-141 | wins over two runs of trades add up |
| Backtest.WinsBounds | f5_ml_pipeline/09_backtest.py:140-141 | all trades winning gives wins = count; none winning gives 0 |
| Backtest.WinRateExtremes | f5_ml_pipeline/09_backtest.py:140-141 | all winning trades give a 100 % win rate, all losing ones 0 % |
| Backtest.SingleTradeRoi | f5_ml_pipeline/09_backtest.py:142-145 | one trade's ROI is its return times 100 |
| Frames.SortUnique | f5_ml_pipeline/09_backtest.py:39-43 | `sorted(set(xs))`: strictly increasing, with exactly the elements of `xs` |
| Frames.Suffixes | f5_ml_pipeline/09_backtest.py:41-42 | the suffixes are exactly the names that follow the prefix in some column |
| Frames.LabelPairs | f5_ml_pipeline/09_backtest.py:39-43 | label codes are exactly those with both a `buy_label_X` and a `sell_label_X` column, in increasing order |
| Frames.TimeCandidates | f5_ml_pipeline/09_backtest.py:27 | the candidates are exactly the columns whose name contains "time" or "date", kept in column order, so the first candidate is the first such column |
| Frames.FirstPresent | f5_ml_pipeline/09_backtest.py:28-36 | the chosen name is in the order and among the columns; None exactly when no name of the order is a column |
| Frames.FirstPresentPrefers | f5_ml_pipeline/09_backtest.py:28-36 | a present name wins unless an earlier one in the order is present |
| Frames.TimeColumnChoice | f5_ml_pipeline/09_backtest.py:25-36 | the preferred names win in the order timestamp, candle_date_time_utc, candle_date_time_kst, datetime; else the first time-like column in column order; None exactly when neither exists |
| Labeling.MakeLabels | f5_ml_pipeline/04_labeling.py:41-68 | fails exactly in two cases: a non-empty frame shorter than the horizon (the column assignment gets too few labels), or a zero horizon on a non-empty frame (the maximum of an empty window). An empty frame gets `horizon` zero labels. Otherwise there is one label per row: the forward-window label for row i, and 0 for the last `horizon` rows |
| Labeling.EmptyFrameLabels | f5_ml_pipeline/04_labeling.py:53-67 | an empty frame with horizon 3 gets the labels [0, 0, 0] instead of an error |
| Labeling.MaxHighReaches | f5_ml_pipeline/04_labeling.py:55 | the window maximum reaches x exactly when some high in the window does |
| Labeling.MinLowReaches | f5_ml_pipeline/04_labeling.py:56 | the window minimum is at most x exactly when some low in the window is |
| Labeling.LabelUp | f5_ml_pipeline/04_labeling.py:53-58 | label 1 exactly when some high in the next `horizon` rows reaches close·(1+thresh) |
| Labeling.LabelDown | f5_ml_pipeline/04_labeling.py:57-60 | label -1 exactly when no high reaches the up level and some low reaches close·(1−thresh): 1 wins when both hold |
| Labeling.SixRowExample | f5_ml_pipeline/04_labeling.py:53-62 | on the test's six rows (tests/test_labeling.py:24-35), horizon 2 and thresh 0.003, the four rows with a full window are labelled 1, 1, 0, 0 |
| Labeling.SixRowTestExpectsDown | tests/test_labeling.py:36 | the -1 the test expects at row 1 cannot come from the code: no low in that row's window reaches 99.7 |
| Labeling.SixRowLabels | f5_ml_pipeline/04_labeling.py:41-68 | `make_labels` on the test's frame gives the label column [1, 1, 0, 0, 0, 0] |
| Split.PySlice | f5_ml_pipeline/05_split.py:59-62 | Python's clamped slicing: the length is the clamped difference |
| Split.ExactRawPlausible | f5_ml_pipeline/05_split.py:45-46 | the exact boundaries floor(0.7n) and floor(0.85n) lie within the row count |
| Split.SplitConcatenates | f5_ml_pipeline/05_split.py:59-62 | train + val + test is the input, in order, for any raw boundaries within [0, n] |
| Split.SplitSizes | f5_ml_pipeline/05_split.py:41-57 | empty input gives three empty parts; n ≥ 3 gives non-empty train and test; n = 2 gives 1/0/1; n = 1 gives 1/0/0 |
| Split.ThreeRowsNoValidation | f5_ml_pipeline/05_split.py:47-51 | three rows give an empty validation part (2/0/1) |
| Split.SplitUsesRatios | f5_ml_pipeline/05_split.py:20-22 | for n ≥ 10 the train part has floor(0.7n) rows and train+val floor(0.85n) |
| Split.SortedSlicesOrdered | f5_ml_pipeline/05_split.py:73-78 | slices of a sorted sequence taken left to right are ordered against each other |
| Split.PartsChronological | f5_ml_pipeline/05_split.py:73-78 | after sorting by the detected time column, every train row precedes every validation row, which precedes every test row |
| SelectStrategies.ToFloat | f5_ml_pipeline/10_select_best_strategies.py:66-71 | a convertible value becomes its float, anything else the default |
| SelectStrategies.AbsValue | f5_ml_pipeline/10_select_best_strategies.py:79 | `abs()` is defined for numbers and booleans only, and gives their magnitude |
| SelectStrategies.Take | f5_ml_pipeline/10_select_best_strategies.py:132 | `[:n]` keeps min(n, len) records |
| SelectStrategies.SelectStrategies | f5_ml_pipeline/10_select_best_strategies.py:90-132 | the loop over summary files computes exactly `Selection` |
| SelectStrategies.CandidatesOrigin | f5_ml_pipeline/10_select_best_strategies.py:98-111 | the candidates are exactly the records kept from the files, and no file failed |
| SelectStrategies.CandidatesFail | f5_ml_pipeline/10_select_best_strategies.py:98-111 | the selection fails exactly when some file raises |
| SelectStrategies.KeptRecordPasses | f5_ml_pipeline/10_select_best_strategies.py:98-111 | a kept record passes the criteria; its symbol is the stem before the first "_", its mdd is a magnitude of at most 0.10, and its params are the params file or {} |
| SelectStrategies.TakeSortedIsBest | f5_ml_pipeline/10_select_best_strategies.py:130-132 | the first n of the sorted list are sorted, drawn from the candidates, and at least as good as every candidate left out |
| SelectStrategies.SelectionIsTopN | f5_ml_pipeline/10_select_best_strategies.py:105-132 | min(TOP_N, candidates) records, sharpe descending, each one kept from a file, none worse than a candidate left out |
| SelectStrategies.NoFilesNoSelection | f5_ml_pipeline/10_select_best_strategies.py:90-132 | no summary files select nothing |
| SelectStrategies.BuildMonitoringList | f5_ml_pipeline/10_select_best_strategies.py:135-153 | the loop computes exactly `MonitoringList` |
| SelectStrategies.MonitoringListFaithful | f5_ml_pipeline/10_select_best_strategies.py:139-147 | no more entries than records; every entry has a symbol and comes from a record; every record with a symbol has an entry |
| SelectStrategies.PassingSummaryExample | tests/test_select_best_strategies.py:18-30 | the test's example summary passes the criteria |
| SelectStrategies.KeptWhenPasses | f5_ml_pipeline/10_select_best_strategies.py:97-111 | a file whose summary passes with a numeric drawdown is kept, under the stem before the first "_" and with its parameters, or {} without a parameter file |
| SelectStrategies.SelectionExample | tests/test_select_best_strategies.py:18-52 | with TOP_N = 1 the example selects exactly symbol "AAA" with params {"p": 1} |
| Calibrate.DetectLabelColumns | f5_ml_pipeline/08_calibrate.py:25-27 | the label columns are exactly those whose lower-cased name contains "label" |
| Calibrate.FillNa | f5_ml_pipeline/08_calibrate.py:37 | every missing cell becomes 0, every other cell is kept |
| Calibrate.Features | f5_ml_pipeline/08_calibrate.py:30-38 | at most one feature per column |
| Calibrate.Target | f5_ml_pipeline/08_calibrate.py:38 | the target is missing exactly when the label column is absent |
| Calibrate.PrepareXY | f5_ml_pipeline/08_calibrate.py:30-38 | the column loop fails exactly when the label is absent, else gives the features and the target |
| Calibrate.FeaturesExact | f5_ml_pipeline/08_calibrate.py:30-38 | the features are exactly the numeric non-label columns, with missing cells filled with 0 |
| Calibrate.Predict | f5_ml_pipeline/08_calibrate.py:45 | a prediction is 1 exactly when p ≥ threshold, else 0 |
| Calibrate.PredictMonotone | f5_ml_pipeline/08_calibrate.py:45-56 | a higher threshold never predicts more positives |
| Calibrate.FindBestThreshold | f5_ml_pipeline/08_calibrate.py:51-61 | 0.5 when no candidate 0.01..0.99 has F1 > 0; otherwise the smallest candidate reaching the maximum F1 |
| StrategyLoader.ShiftNone | f5_ml_pipeline/strategy_loader.py:17-20 | no offset, or an empty one, leaves the column unchanged |
| StrategyLoader.ShiftZero | f5_ml_pipeline/strategy_loader.py:17-20 | an offset of 0 or -0 leaves the column unchanged |
| StrategyLoader.ShiftSign | f5_ml_pipeline/strategy_loader.py:21 | offsets n and -n give the same `.shift(n)` |
| StrategyLoader.ShiftBy | f5_ml_pipeline/strategy_loader.py:17-21 | any non-zero offset v appends `.shift(abs(v))` |
| StrategyLoader.SignedValues | f5_ml_pipeline/strategy_loader.py:21 | `int()` of a digit run and of its negation |
| StrategyLoader.OffsetTail | f5_ml_pipeline/strategy_loader.py:28-57 | the optional `,offset)` tail of a pattern ends inside the text |
| StrategyLoader.MatchAt | f5_ml_pipeline/strategy_loader.py:28-57 | a pattern matches only where its literal lead starts |
| StrategyLoader.ApplyPatterns | f5_ml_pipeline/strategy_loader.py:58-59 | the loop applies the patterns in list order, each over the whole text |
| StrategyLoader.ApplyNames | f5_ml_pipeline/strategy_loader.py:76-77 | the loop replaces the simple names in table order, at word boundaries |
| StrategyLoader.Convert | f5_ml_pipeline/strategy_loader.py:24-82 | `_convert` is patterns, then simple names, then the MaxHigh/MinLow rewrites |
| StrategyLoader.PatternStep | f5_ml_pipeline/strategy_loader.py:58-59 | one pattern's substitution is one step of the loop |
| StrategyLoader.NameStep | f5_ml_pipeline/strategy_loader.py:76-77 | one simple name's substitution is one step of the loop |
| StrategyLoader.PatternAbsent | f5_ml_pipeline/strategy_loader.py:58-59 | a pattern whose lead has a character absent from the text changes nothing |
| StrategyLoader.WordAbsent | f5_ml_pipeline/strategy_loader.py:76-77 | a name with a character absent from the text changes nothing |
| StrategyLoader.ParenFree | f5_ml_pipeline/strategy_loader.py:28-59 | text without "(" is untouched by the patterns |
| StrategyLoader.NoUpperConverted | f5_ml_pipeline/strategy_loader.py:24-82 | text without capital letters (such as an already converted formula) is unchanged by `_convert` |
| ConvertExamples.EmaExample | f5_ml_pipeline/strategy_loader.py:28-31 | `EMA(20,-1)` becomes `df['ema_20'].shift(1)` |
| ConvertExamples.MaVolExample | f5_ml_pipeline/strategy_loader.py:33-40 | `MA(Vol,20)` becomes `df['ma_vol_20']`, untouched by the later `Vol(` pattern |
| ConvertExamples.EntryPriceExample | f5_ml_pipeline/strategy_loader.py:62-75 | `EntryPrice` becomes `_get_col(df,'entry_price',df['close'])`, and the `Entry` pass does not touch it again |
| ConvertExamples.HighInsideWord | f5_ml_pipeline/strategy_loader.py:62-77 | `High` inside `MaxHigh5` is not at a word boundary |
| ConvertExamples.MaxHighExample | f5_ml_pipeline/strategy_loader.py:79-80 | `MaxHigh5` becomes `df['max_high_5']` |
| CompileFormula.FoldValues | f5_ml_pipeline/strategy_loader.py:91-98 | the accumulator loop builds the left fold ((v1 op v2) op …) |
| CompileFormula.LeftFoldIsChain | f5_ml_pipeline/strategy_loader.py:94-98 | the accumulator fold is the left-nested chain |
| CompileFormula.FoldSnoc | f5_ml_pipeline/strategy_loader.py:96-97 | one more value wraps the fold so far in one more operator |
| CompileFormula.ChainNoBoolOp | f5_ml_pipeline/strategy_loader.py:91-98 | folding values free of `and`/`or` leaves none |
| CompileFormula.TransformNoBoolOp | f5_ml_pipeline/strategy_loader.py:91-101 | after the transform no `and`/`or` node is left anywhere |
| CompileFormula.ChainEval | f5_ml_pipeline/strategy_loader.py:91-98 | the `&` chain is true exactly when all values are, the `\|` chain when any is |
| CompileFormula.TransformEval | f5_ml_pipeline/strategy_loader.py:91-101 | the transform keeps the boolean value of every formula |
| CompileFormula.TransformIdentity | f5_ml_pipeline/strategy_loader.py:91-101 | a formula without `and`/`or` is unchanged |
| CompileFormula.LoadStrategies | f5_ml_pipeline/strategy_loader.py:86-120 | raises (None) exactly when some record lacks `short_code`, `buy_formula` or `sell_formula` (KeyError), or has a converted formula that does not parse (the SyntaxError of `ast.parse`); otherwise the loop computes exactly `Loaded` of the records' strategies |
| CompileFormula.LoadedKeys | f5_ml_pipeline/strategy_loader.py:114-119 | there is one entry per short_code that appears in the data |
| CompileFormula.LoadedLastWins | f5_ml_pipeline/strategy_loader.py:114-119 | the last strategy with a given short_code decides its buy and sell functions |
| DataCleaning.BuildAggMap | f5_ml_pipeline/22_data_cleaning.py:15-33 | the column loop builds exactly the aggregation map `AggSpec` |
| DataCleaning.AggSpecRules | f5_ml_pipeline/22_data_cleaning.py:25-31 | the map has exactly the frame's columns; "price" columns get mean (checked first), "volume" columns sum, all others last |
| DataCleaning.PriceBeforeVolume | f5_ml_pipeline/22_data_cleaning.py:26-29 | a column containing both "price" and "volume" is averaged |
| DataCleaning.AggregateTrades | f5_ml_pipeline/22_data_cleaning.py:15-33 | a frame without rows or without columns comes back unchanged; one without a timestamp column raises at the sort; any other is resampled with the map of its non-timestamp columns |
| DataCleaning.ResampledRules | f5_ml_pipeline/22_data_cleaning.py:21-31 | after `set_index("timestamp")` the map has exactly the other columns, each with the rule its name selects |
| DataCleaning.Normalize | f5_ml_pipeline/22_data_cleaning.py:106-116 | each column is renamed by the vendor map, then lower-cased |
| DataCleaning.DedupColumns | f5_ml_pipeline/22_data_cleaning.py:117-122 | duplicated column names are merged: the same names, each once |
| DataCleaning.WithRequired | f5_ml_pipeline/22_data_cleaning.py:130-134 | the six required columns come first, created where missing, followed by the others |
| DataCleaning.PrefixKeeps | f5_ml_pipeline/22_data_cleaning.py:212-213 | the prefix goes in front of every column except timestamp; no prefix, or an empty one, renames nothing |
| DataCleaning.CleanColumnsShape | f5_ml_pipeline/22_data_cleaning.py:106-134 | the cleaned columns start with the required six and include every normalised input column |
| DataCleaning.DropMissing | f5_ml_pipeline/22_data_cleaning.py:124-152 | rows without a parsable timestamp are dropped, and every timestamp that was present survives |
| DataCleaning.DropDupLast | f5_ml_pipeline/22_data_cleaning.py:157-203 | dropping duplicate timestamps keeps rows of the input and loses no timestamp |
| DataCleaning.DropDupSorted | f5_ml_pipeline/22_data_cleaning.py:154-157 | after sorting by timestamp, dropping duplicates leaves strictly increasing timestamps |
| DataCleaning.DropDupKeepsLast | f5_ml_pipeline/22_data_cleaning.py:157 | keep="last": the last row of each timestamp is kept |
| DataCleaning.FillGapsComplete | f5_ml_pipeline/22_data_cleaning.py:162-165 | `ffill().bfill()` of a column with any value leaves no gap, and keeps every value that was present |
| DataCleaning.FillRows | f5_ml_pipeline/22_data_cleaning.py:160-167 | filling keeps the row count and timestamps, and leaves no missing volume |
| DataCleaning.KeptUpTo | f5_ml_pipeline/22_data_cleaning.py:189-195 | the rows that survive the per-column `>= 0` filters are exactly those non-negative in each column so far |
| DataCleaning.DropNegative | f5_ml_pipeline/22_data_cleaning.py:189-195 | the filter loop over the five OHLCV columns keeps exactly the rows with no negative value |
| DataCleaning.CleanDf | f5_ml_pipeline/22_data_cleaning.py:83-220 | the cleaning method computes exactly `CleanedFrame`: the raw names normalised once, then the row rules, the column order and the prefix |
| DataCleaning.PreparedIncreasing | f5_ml_pipeline/22_data_cleaning.py:150-195 | after the row rules the timestamps are strictly increasing |
| DataCleaning.FinalStepsNoOp | f5_ml_pipeline/22_data_cleaning.py:202-206 | the final de-duplication and sort change nothing |
| DataCleaning.CleanedRows | f5_ml_pipeline/22_data_cleaning.py:150-206 | the cleaned rows have strictly increasing timestamps, none all zero or negative; without the left-out resample, only timestamps from the input |
| DataCleaning.NoTimestampRaises | f5_ml_pipeline/22_data_cleaning.py:130-172 | a frame with no column normalising to timestamp gets a timestamp column of 0, and the resample on line 172 raises on that index |
| DataCleaning.OutputName | f5_ml_pipeline/22_data_cleaning.py:327-328 | the output is named by the stem before its first "_", followed by `_clean.parquet` |
| DataCleaning.CleanSymbol | f5_ml_pipeline/22_data_cleaning.py:322-343 | no files does nothing; a written file carries that name and has rows |
| DataCleaning.GroupFiles | f5_ml_pipeline/22_data_cleaning.py:350-355 | the grouping loop builds exactly `FileMap` |
| DataCleaning.FileMapKeys | f5_ml_pipeline/22_data_cleaning.py:350-355 | a symbol has a group exactly when some raw file belongs to it |
| DataCleaning.FileMapGroups | f5_ml_pipeline/22_data_cleaning.py:350-355 | each group holds exactly that symbol's files, in listing order |
| RiskFsm.RiskManager.constructor | f4_riskManager/risk_manager.py:35-48 | a new manager is ACTIVE with zero losses, no timers, no slippage and no disabled symbols, over a freshly loaded configuration |
| RiskFsm.RiskManager.CloseAllPositions | f4_riskManager/risk_manager.py:58-62 | closing is delegated to the executor's position manager when there is one; the state is otherwise unchanged |
| RiskFsm.RiskManager.UpdateAccount | f4_riskManager/risk_manager.py:64-75 | the three account figures (`daily_loss`, `mdd`, `monthly_mdd`) are replaced, and the open symbols become a set |
| RiskFsm.RiskManager.OnSlippage | f4_riskManager/risk_manager.py:77-87 | the symbol's slippage count goes up by one, and the symbol is disabled once it reaches SLIP_FAIL_MAX |
| RiskFsm.SlippageAddsOne | f4_riskManager/risk_manager.py:79 | each slippage event adds exactly one to that symbol's count and leaves the others |
| RiskFsm.SlippageDisablesIff | f4_riskManager/risk_manager.py:85-87 | after the event the symbol is disabled exactly when it already was or its count reached the limit |
| RiskFsm.RiskManager.Pause | f4_riskManager/risk_manager.py:112-125 | a paused manager is left alone; otherwise positions are closed, the state becomes PAUSE and the timer is now + minutes·60 |
| RiskFsm.RiskManager.DisableSymbol | f4_riskManager/risk_manager.py:127-140 | the symbol's open positions are sold with reason "risk_disable", and it joins the disabled set |
| RiskFsm.SellsForSound | f4_riskManager/risk_manager.py:133-135 | every sell issued is for an open position of that symbol, at its full quantity |
| RiskFsm.SellsForComplete | f4_riskManager/risk_manager.py:133-135 | every open position of that symbol is sold |
| RiskFsm.RiskManager.IsSymbolDisabled | f4_riskManager/risk_manager.py:142-144 | true exactly for the disabled symbols |
| RiskFsm.RiskManager.Halt | f4_riskManager/risk_manager.py:146-158 | a halted manager is left alone; otherwise positions are closed and the state becomes HALT |
| RiskFsm.RiskManager.CheckRisk | f4_riskManager/risk_manager.py:89-110 | one risk check is the transition `CheckedRisk`: daily loss pauses, either MDD halts, too many open symbols only warns |
| RiskFsm.DrawdownEndsInHalt | f4_riskManager/risk_manager.py:98-152 | a breached 30-day or monthly MDD always ends in HALT, whatever the daily loss |
| RiskFsm.DailyBreachPauses | f4_riskManager/risk_manager.py:95-119 | a daily-loss breach with no MDD breach pauses for 86400 seconds and closes all positions |
| RiskFsm.WithinLimitsUnchanged | f4_riskManager/risk_manager.py:89-110 | within every limit the check changes nothing, and warns only about the symbol count |
| RiskFsm.OpenSymbolsOnlyWarn | f4_riskManager/risk_manager.py:104-106 | the open-symbol count never changes the state: it only decides the warning |
| RiskFsm.CheckNeverActivates | f4_riskManager/risk_manager.py:89-110 | a risk check never makes a paused or halted manager ACTIVE |
| RiskFsm.NonObjectConfigBreaksCheck | f4_riskManager/risk_manager.py:89-95 | a configuration file holding a JSON list or number is stored by the reload, which reports an update, and the next `check_risk` then raises with the manager unchanged |
| RiskFsm.RiskManager.HotReload | f4_riskManager/risk_manager.py:161-175 | the configuration reloads as `RiskConfig.reload`, and an update refreshes the executor's sizing |
| RiskFsm.RiskManager.Periodic | f4_riskManager/risk_manager.py:177-190 | one tick: resume an expired pause, reload when a second has passed since the last check, then check the risk |
| RiskFsm.PeriodicResumesOnlyFromPause | f4_riskManager/risk_manager.py:177-190 | a tick ends ACTIVE only from ACTIVE, or from PAUSE with a set timer that has passed |
| RiskFsm.HaltLeftThroughPause | f4_riskManager/risk_manager.py:95-180 | a daily-loss breach moves even a HALT manager to PAUSE, and a tick after the day, with the loss recovered, makes it ACTIVE |
| ConfigReload.CutComment | f4_riskManager/risk_config.py:20-21 | `line.split("//", 1)[0]`: the prefix of the line before its first "//", without any "//"; a line without one is kept |
| ConfigReload.StripComments | f4_riskManager/risk_config.py:18-22 | the read loop cuts each line at its first comment |
| ConfigReload.LoadText | f4_riskManager/risk_config.py:23-24 | the text parsed is the stripped lines joined by newlines, or "{}" when that is empty |
| ConfigReload.EmptyTextIsEmptyObject | f4_riskManager/risk_config.py:24 | an empty file, or a single comment line, parses as `{}` |
| ConfigReload.TwoCommentLinesNotDefaulted | f4_riskManager/risk_config.py:23-24 | two comment-only lines join to "\n", which is not replaced by "{}" |
| ConfigReload.CommentDropped | f4_riskManager/risk_config.py:20-21 | a line with a comment keeps only what precedes it, and no "//" is left |
| ConfigReload.MissingKeepsCache | f4_riskManager/risk_config.py:28-29 | a missing file reports no update and keeps the cache |
| ConfigReload.ReloadUpdatesIff | f4_riskManager/risk_config.py:26-35 | the cache is replaced exactly when the file exists, its mtime differs and it parses; then cache and mtime are the new ones |
| ConfigReload.ReloadIdempotent | f4_riskManager/risk_config.py:26-35 | reloading an unchanged file again reports no update |
| ConfigReload.RiskConfig.constructor | f4_riskManager/risk_config.py:9-13 | a new configuration is the first reload from an empty cache with mtime 0 |
| ConfigReload.RiskConfig.Reload | f4_riskManager/risk_config.py:24-35 | the method performs the `Reloaded` transition; whatever JSON value the file holds, object or not, is stored as the cache |
| ConfigReload.RiskConfig.Get | f4_riskManager/risk_config.py:37-38 | when the cache is a dict, a cached key gives its value and any other key the default; a cache that is not a dict raises (AttributeError of `.get`) |
| KpiGuard.Window | f3_order/kpi_guard.py:30-36 | `s[-n:]`: the last min(n, len) items; `s[-0:]` is the whole list |
| KpiGuard.WinRateIsFraction | f3_order/kpi_guard.py:29-30 | with at least WIN_MIN_N trades the win rate is computed and lies in [0, 1] |
| KpiGuard.WinAlertIff | f3_order/kpi_guard.py:29-34 | the win-rate alert fires exactly when there are WIN_MIN_N trades and the last WIN_MIN_N win fraction is below WIN_THRESHOLD |
| KpiGuard.PnlAlertIff | f3_order/kpi_guard.py:35-41 | the PnL alert fires exactly when there is a trade and the average PnL of the last min(len, WIN_MIN_N) is at most PNL_THRESHOLD |
| KpiGuard.ZeroWindowRaises | f3_order/kpi_guard.py:29-30 | WIN_MIN_N = 0 makes the check divide by zero |
| KpiGuard.LossStreakAlerts | f3_order/kpi_guard.py:27-34 | one hundred losses with the defaults give a 0 win rate and the alert |
| KpiGuard.Guard.constructor | f3_order/kpi_guard.py:17-20 | a new guard has empty histories |
| KpiGuard.Guard.RecordTrade | f3_order/kpi_guard.py:43-45 | a trade appends 1 or 0 to the win history and its PnL to the PnL history, and keeps them the same length |
| KpiGuard.Guard.Check | f3_order/kpi_guard.py:23-41 | the check reports the alerts of `KpiCheck` over the histories |
| Positions.NewPosition | f3_order/position_manager.py:25-33 | a new position takes the order's symbol, price and quantity at the current time, with zero pyramid and average-down counts, open |
| Positions.PositionManager.constructor | f3_order/position_manager.py:16-21 | a new manager has no positions |
| Positions.PositionManager.OpenPosition | f3_order/position_manager.py:23-35 | opening appends exactly one new position |
| Positions.PositionManager.HoldLoop | f3_order/position_manager.py:37-47 | the hold loop checks each position once, in order, and changes none |
| Ticks.ExecutionTickTable | helpers/execution.py:44-59 | the order helpers' tick is 0.01, 0.1, 1, 5, 10, 50, 100 or 500 by bracket, and 1000 from 2 000 000 up |
| Ticks.UniverseTickTable | f1_universe/universe_selector.py:84-100 | the universe selector's tick is positive, and 100 then 500 for the top brackets |
| Ticks.ExecutionTickPositive | helpers/execution.py:44-59 | every price has a positive tick |
| Ticks.TicksMonotone | helpers/execution.py:44-59 | a higher price never has a smaller tick, in either table |
| Ticks.TablesDiffer | helpers/execution.py:54-59 | the two tables agree below 2 000 000; above it the order helpers use 1000 and the selector 500 |
| Execution.Spread | helpers/execution.py:68 | the spread is the ask-bid gap as a fraction of the ask |
| Execution.SmartBuy | helpers/execution.py:102-161 | the retry loop computes exactly `BuyFrom`: its price, volume and the orders placed |
| Execution.BuySkipsWideSpread | helpers/execution.py:114-121 | a spread above slippage_limit returns (0, 0) and places no order |
| Execution.NarrowSpreadBuysAtMarket | helpers/execution.py:122-134 | a spread within the slippage buys at market for the whole amount |
| Execution.WideSpreadBuysOneTickBelow | helpers/execution.py:135-138 | a wider spread places a limit buy one tick below the ask, for the amount divided by that price |
| Execution.BalanceErrorStopsBuy | helpers/execution.py:110-149 | an exception mentioning the balance, from the order-book read or from a rejected market or limit order, stops the buy with (0, 0): no later attempt and no fallback order follow |
| Execution.ExhaustedBuyFallsBack | helpers/execution.py:111-155 | when every attempt asks for a retry, a final market buy for the full amount follows them |
| Execution.SmartSell | helpers/execution.py:164-239 | the split and retry loops compute exactly `SellFrom`: average price, quantity sold, and the orders placed |
| Execution.SellReturnsWeightedAverage | helpers/execution.py:201-235 | the price returned is the fill-weighted average, and the quantity the sum of the fills |
| Execution.SellSkipsWideSpread | helpers/execution.py:182-189 | a first spread above slippage_limit sells nothing |
| Execution.WideSpreadSellsOneTickAbove | helpers/execution.py:207-209 | a wide spread places a limit sell one tick above the bid |
| Execution.NoSplitSellsNothing | helpers/execution.py:177 | split ≤ 0 runs no part and sells nothing |
| Execution.SplitOversells | helpers/execution.py:178 | as written: quantity 1 in 2 parts filled in full sells 7/6, more than the position |
| Execution.EvenPartSize | helpers/execution.py:178 | corrected part size: the last part sells exactly what remains |
| Execution.EvenPartsNeverOversell | helpers/execution.py:178 | with the corrected size no part pushes the total sold past the quantity |
| Execution.EvenPartsSellExactly | helpers/execution.py:177-178 | with the corrected size full fills sell exactly the quantity |
| Execution.UnsplitRulesAgree | helpers/execution.py:178 | with split = 1 both rules sell the whole quantity in one part |
| Strategies.KeepWordChars | helpers/strategies.py:32 | `re.sub("[^a-zA-Z0-9_]", "")` keeps only word characters, and leaves a word unchanged |
| Strategies.Sanitize | helpers/strategies.py:30-32 | a sanitized token has only lower-case letters, digits and `_` |
| Strategies.SanitizeKeepsSafe | helpers/strategies.py:30-32 | an already safe name is its own sanitization |
| Strategies.SanitizeIdempotent | helpers/strategies.py:30-32 | sanitizing twice gives the same as once |
| Strategies.TranslateToken | helpers/strategies.py:36-43 | a whole token is translated as a keyword kept or a sanitized name |
| Strategies.NoLetterUnchanged | helpers/strategies.py:36-43 | text without a letter is not rewritten |
| Strategies.TranslateSpaced | helpers/strategies.py:36-43 | tokens separated by a space are translated independently |
| Strategies.TokenExample | helpers/strategies.py:36-43 | a non-keyword token translates to its lower-cased word characters |
| Strategies.TranslateEma5 | helpers/strategies.py:34-43 | `EMA(5)` translates to `ema5` |
| Strategies.KeywordsKept | helpers/strategies.py:37-41 | `True` is kept as is |
| Strategies.Violation | helpers/strategies.py:48-52 | the walk reports no violation exactly when every node visited is allowed |
| Strategies.WalkAllowedIff | helpers/strategies.py:48-52 | every node of the breadth-first walk is allowed exactly when the whole tree is safe: no call, no unknown name |
| Strategies.SafeEvalChecksFirst | helpers/strategies.py:45-54 | an unsafe tree raises before evaluation; a safe one gives the evaluation's value or its failure |
| Strategies.CallRejected | helpers/strategies.py:49-50 | a call anywhere is rejected with "function calls not allowed" |
| Strategies.LevelIndex | helpers/strategies.py:21-124 | aggressive levels map to 0, conservative to 2, every other level to 1 |
| Strategies.SelectFormulaOrder | helpers/strategies.py:118-127 | a non-empty formula wins; else the level's conditions joined by " and "; else "" |
| Strategies.UnknownLevelIsModerate | helpers/strategies.py:124-126 | an unknown level uses the middle list of conditions |
| Strategies.BuySignalIff | helpers/strategies.py:129-144 | a buy signal exactly when the strategy is known, its formula non-empty, and the translated formula parses, is safe and evaluates to true |
| Strategies.StopLossSkipsFormula | helpers/strategies.py:161-167 | a stop-loss hit sells without parsing or evaluating the formula |
| Strategies.NoStopLossWithoutEntry | helpers/strategies.py:163-166 | no entry price, or no max_dd_per_coin, means no stop-loss |
| Strategies.NoFormulaNoSignal | helpers/strategies.py:131-160 | an unknown strategy or an empty formula gives neither signal |
| Logger.Pushed | helpers/logger.py:13-58 | `appendleft` on the bounded deque keeps min(len + 1, 100) entries |
| Logger.PushedShape | helpers/logger.py:13-58 | the new entry comes first; the oldest entry is dropped only when the deque is full |
| Logger.PushAllNewestFirst | helpers/logger.py:13-58 | after a run of logs the deque holds the newest first, cut at 100 |
| Logger.RecentLogsAreNewestFirst | helpers/logger.py:13-31 | from empty, the deque is the logs reversed, at most 100 of them |
| Logger.UpdateKeepsKeyOrder | helpers/logger.py:30 | `dict.update` keeps the existing keys first, in their order |
| Logger.LookupUpdate | helpers/logger.py:30 | after `update` a key has the data's value when the data has it, else its old value |
| Logger.TradeEntryShape | helpers/logger.py:29-30 | a trade entry starts with time and type, which the data may override, and has every data field |
| Logger.RecentLogs.constructor | helpers/logger.py:13 | the deque starts empty |
| Logger.RecentLogs.AppendLeft | helpers/logger.py:13-31 | the new entry goes in front, and the deque never holds more than 100 |
| Logger.RecentLogs.LogTrade | helpers/logger.py:27-35 | the trade entry is pushed, and the CSV row is written only when the write succeeds; a failure is swallowed |
| Logger.RecentLogs.LogConfigChange | helpers/logger.py:43-62 | the entry with time, category, key, before and after is pushed; a failed write is swallowed |
| Logger.RecentLogs.GetRecentLogs | helpers/logger.py:38-40 | the first min(limit, len) entries, newest first |
| Bot.SettingsOverrideDefaults | helpers/bot.py:27-38 | a readable settings object overrides "strategy" and "level", each defaulting to M-BREAK and 중도적 |
| Bot.UnreadableSettingsAreDefaults | helpers/bot.py:31-37 | a file that does not parse as an object leaves the defaults |
| Bot.SettingsFileChoice | helpers/bot.py:30 | the settings come from the given path when it exists, else from config/config.json |
| Bot.InBandIff | helpers/bot.py:50-53 | a price passes exactly when each bound is disabled (0, or ≤ 0 for max) or met |
| Bot.FilteredTickersIsCappedFilter | helpers/bot.py:41-57 | the ticker loop gives the in-band signals' tickers, in order, cut at the rank when it is non-zero |
| Bot.GetFilteredTickers | helpers/bot.py:41-57 | the method computes exactly `FilteredTickers` |
| Bot.Without | helpers/bot.py:85-142 | `pop` removes exactly that ticker's trade and keeps the tickers distinct |
| Bot.ManualSellsEffect | helpers/bot.py:73-87 | after the manual pass the trades are the old ones minus the queued tickers, still distinct |
| Bot.BuyPassKeeps | helpers/bot.py:99-123 | the buy pass keeps the old trades in front and never grows past max_concurrent_trades |
| Bot.BuyPassNew | helpers/bot.py:99-123 | every new trade is a filtered ticker with a buy signal and a positive fill, recorded at its fill price with the strategy and level |
| Bot.SellPassEffect | helpers/bot.py:125-142 | the sell pass removes exactly the trades with a sell signal, keeps the rest, and raises only when a sell fails |
| Bot.IterationBounded | helpers/bot.py:70-146 | one loop iteration keeps the trades distinct and within max_concurrent_trades |
| Bot.IterationQueue | helpers/bot.py:73-145 | a completed manual pass empties the queue; an exception in it ends the iteration with only the trades sold so far removed |
| Bot.ManualSellsNeverRaise | helpers/bot.py:73-87 | without failing sells the manual pass does not raise |
| Bot.NeverBuysAsWritten | helpers/bot.py:107 | as written, the arguments `(strat, ticker, level)` make the market the level text. A formula that names any variable then never signals, through the substring name test or the TypeError of a name lookup in a text (helpers/strategies.py:48-54), so the loop never buys on it |
| Bot.NameFreeFormulaBuysAsWritten | helpers/strategies.py:45-54 | as written, a formula whose tree has no call and no name (`1 > 0`, `True`) is still evaluated with the text as its locals, and a free ticker under the limit is bought when it holds |
| Bot.IntendedCallBuys | helpers/bot.py:99-123 | corrected: a free ticker with a buy signal and a positive fill is added as a new trade |
| Bot.NeverSellsAsWritten | helpers/bot.py:126-132 | as written: five arguments to a four-parameter function raise on the first open trade, so nothing is ever sold |
| Bot.IntendedCallStopsLoss | helpers/bot.py:125-142 | corrected: a trade whose close has fallen past max_dd_per_coin below its buy price is sold and removed |
| Bot.TradingBot.constructor | helpers/bot.py:62-67 | the bot starts with no trades, the loaded settings and the reload time now |
| Bot.TradingBot.SellQueued | helpers/bot.py:73-85 | the manual-sell loop performs the `ManualSells` pass |
| Bot.TradingBot.Buy | helpers/bot.py:99-123 | the buy loop performs the `BuyPass` |
| Bot.TradingBot.Sell | helpers/bot.py:125-142 | the sell loop performs the `SellPass` |
| Bot.TradingBot.Step | helpers/bot.py:70-146 | one loop iteration performs `Iteration` |
| UniverseSelector.LoadConfig | f1_universe/universe_selector.py:44-70 | a missing file gives the built-in defaults; only an unparsable file fails |
| UniverseSelector.KrwMarkets | f1_universe/universe_selector.py:111-113 | only KRW- markets are kept |
| UniverseSelector.ByVolumeDesc | f1_universe/universe_selector.py:121-124 | the ticker items sorted by 24-hour trade value, descending: a permutation of the items |
| UniverseSelector.TopVolumeIsTop | f1_universe/universe_selector.py:103-127 | at most `size` names; volume descending; none ranked below one left out |
| UniverseSelector.TopVolumeKrwOnly | f1_universe/universe_selector.py:111-125 | where the API answers only for the markets asked, every top-volume name is a KRW- market |
| UniverseSelector.GetTopVolumeTickers | f1_universe/universe_selector.py:103-127 | the chunk loop of 100 markets per request computes exactly `TopVolumeTickers` |
| UniverseSelector.BookFor | f1_universe/universe_selector.py:144-157 | the order book looked up is one for that market, present exactly when the reply has one |
| UniverseSelector.Spread | f1_universe/universe_selector.py:163 | the spread is (ask − bid)/price · 100, or 0 for a zero price |
| UniverseSelector.SpreadFallbacks | f1_universe/universe_selector.py:157-163 | a zero price, or a book without units, gives a spread of 0; the row is named by the market |
| UniverseSelector.ChunkRows | f1_universe/universe_selector.py:146-173 | the per-item loop builds exactly the rows `ItemRows` |
| UniverseSelector.BuildInfo | f1_universe/universe_selector.py:130-173 | the chunk loop builds exactly `Info` |
| UniverseSelector.StagesKeepOrder | f1_universe/universe_selector.py:175-199 | each filter stage keeps a subsequence of the one before |
| UniverseSelector.StagesAreOneFilter | f1_universe/universe_selector.py:175-199 | the three stages together keep exactly the rows passing all tests |
| UniverseSelector.CutToSize | f1_universe/universe_selector.py:221 | universe_size ≤ 0 keeps all; otherwise the first universe_size |
| UniverseSelector.SelectUniverseShape | f1_universe/universe_selector.py:202-225 | the universe is the symbols of the rows passing all filters, cut to universe_size |
| UniverseSelector.UniverseCache.constructor | f1_universe/universe_selector.py:40 | the in-memory universe starts empty |
| UniverseSelector.UniverseCache.UpdateUniverse | f1_universe/universe_selector.py:228-239 | the cache becomes the selection, and the file too when the write succeeds |
| UniverseSelector.UniverseCache.LoadUniverseFromFile | f1_universe/universe_selector.py:242-256 | a list on disk becomes the cache and is returned; anything else returns [] and keeps the cache |
| UniverseSelector.UniverseCache.GetUniverse | f1_universe/universe_selector.py:242-264 | a non-empty cache is returned and kept; from an empty one, a list on file is returned and becomes the cache, anything else returns [] and leaves the cache empty |
| UniverseSelector.UpdateThenGet | f1_universe/universe_selector.py:228-264 | whatever is on disk, a get after an update returns the selection |
| UniverseSelector.OpenSymbols | f1_universe/universe_selector.py:314 | the symbols of exactly the open position records |
| UniverseSelector.NewPositionsIff | f1_universe/universe_selector.py:317-340 | an account is imported exactly when it is not KRW, is worth at least the threshold and is not already open; each import is an open "imported" position |
| UniverseSelector.PositionStore.InitCoinPositions | f1_universe/universe_selector.py:285-349 | a failed account fetch changes nothing; otherwise the new positions are appended to the file when there are any and the write succeeds |
| UniverseSelector.NothingToImport | f1_universe/universe_selector.py:318-324 | KRW cash and a holding worth 1 KRW are not imported |
| F1Universe.BookQuotes | f1_universe.py:144-151 | an empty reply uses the price for both quotes; otherwise the first unit's ask and bid, failing where they are missing |
| F1Universe.EmptyUnitsRaise | f1_universe.py:147-149 | a book without units raises here, where the selector's version uses a 0 spread |
| F1Universe.RowAgreesWithSelector | f1_universe.py:134-162 | with a complete book both versions build the same row |
| F1Universe.EmptyResponseNoSpread | f1_universe.py:150-152 | no order book gives a spread of 0 |
| F1Universe.ItemRowsShape | f1_universe.py:134-162 | the rows exist exactly when every item's row does, one per item in order |
| F1Universe.ChunkRows | f1_universe.py:134-162 | the per-item loop builds exactly `ItemRows` |
| F1Universe.BuildInfo | f1_universe.py:129-162 | the chunk loop builds exactly `Info` |
| F1Universe.ApplyFiltersKeepsPassing | f1_universe.py:126-188 | the filtered names are the symbols of the rows passing all three stages, in order |
| F1Universe.SelectUniverseCut | f1_universe.py:191-214 | the universe is the filtered list cut to universe_size, or all of it when none is set |
| F1Universe.Cache.constructor | f1_universe.py:35 | the universe starts empty |
| F1Universe.Cache.UpdateUniverse | f1_universe.py:217-223 | a selection replaces the universe; a failed one keeps it |
| F1Universe.Cache.GetUniverse | f1_universe.py:226-229 | the universe is returned as cached |
| F1Universe.GetBeforeUpdate | f1_universe.py:35-229 | before any update the universe is empty |
| F1Universe.UpdateThenGet | f1_universe.py:217-229 | a get after an update returns the selection |
| CoinConditions.FetchMarketsKrwOnly | f1_universe/01.coin_conditions.py:63-67 | the market list is exactly the KRW- markets of the response |
| CoinConditions.FetchTicker | f1_universe/01.coin_conditions.py:77-81 | the first element of the ticker response, or {} for an empty one |
| CoinConditions.RunFilterCoins | f1_universe/01.coin_conditions.py:84-102 | the market loop computes exactly `FilterCoins` |
| CoinConditions.FilterCoinsIff | f1_universe/01.coin_conditions.py:19-102 | a market is kept exactly when it has a candle and a ticker, its price is in one of the two inclusive bands, and its 24-hour value reaches TRADE_VALUE_MIN |
| CoinConditions.FilterCoinsKeepsOrder | f1_universe/01.coin_conditions.py:84-102 | the kept markets are in input order |
| CoinConditions.SkipsWithoutData | f1_universe/01.coin_conditions.py:89-93 | a market without candles or ticker data is skipped |
| CoinConditions.SelectCoinsKrwOnly | f1_universe/01.coin_conditions.py:105-108 | every selected coin is a KRW- market |
| CoinConditions.ExampleSelectsAaa | f1_universe/01.coin_conditions.py:94-100 | with the first band at 1000..3000, a market at 1500 is kept; one at 5000 and a BTC- market are not |
| CoinConditions.SecondBandDisabled | f1_universe/01.coin_conditions.py:96-97 | setting the second band to [0, 0] excludes a price of 20000 |
| CoinConditions.SecondBandShipped | f1_universe/01.coin_conditions.py:21-97 | the shipped second band keeps a price of 20000 |
| Collector.Purged | upbit_coin_data/collector.py:65-66 | purging drops a prefix of the call times |
| Collector.PurgedDrops | upbit_coin_data/collector.py:65-66 | exactly the calls older than the period, counted from the front, are dropped |
| Collector.PurgedWindow | upbit_coin_data/collector.py:65-66 | with ordered call times, every call left is within the period |
| Collector.SleepFor | upbit_coin_data/collector.py:67-70 | with fewer than max_calls calls there is no wait; with more, the wait is period − (now − oldest) when positive; an empty deque with max_calls ≤ 0 raises |
| Collector.FullWindowWaits | upbit_coin_data/collector.py:67-71 | after the wait, the new call is at least a period after the oldest one kept |
| Collector.RateLimiter.constructor | upbit_coin_data/collector.py:56-59 | a limiter starts without calls |
| Collector.RateLimiter.Acquire | upbit_coin_data/collector.py:62-71 | the old calls are purged, the wait is `SleepFor`, the new call time is appended, and the call times stay ordered |
| Collector.FirstSuccess | upbit_coin_data/collector.py:79-90 | the first attempt that succeeds, with none before it |
| Collector.RunRequest | upbit_coin_data/collector.py:77-94 | the retry loop computes exactly `Request` |
| Collector.RequestBounded | upbit_coin_data/collector.py:79-94 | at most five attempts; five failures return []; every attempt before the last failed; a 429 or 5xx reply is never the one returned |
| Collector.RequestReturnsFirstSuccess | upbit_coin_data/collector.py:79-90 | the first successful reply's body is returned |
| Collector.KrwMarketsOnly | upbit_coin_data/collector.py:97-99 | the markets are exactly the KRW- ones |
| Collector.PutAllDistinct | upbit_coin_data/collector.py:107-108 | the price dictionary has each market once |
| Collector.LastItemWins | upbit_coin_data/collector.py:107-108 | the last ticker item of a market decides its price |
| Collector.FilterByPriceIff | upbit_coin_data/collector.py:112-117 | a market is selected exactly when it has a price within [min_price, max_price] |
| Collector.DefaultBandInclusive | upbit_coin_data/collector.py:112-115 | the default band 500..25000 is inclusive at both ends |
| Formulas.BaseLeftmost | f2_signal/signal_engine.py:372-381 | at the leftmost `Field(offset)` the base pass keeps the text before it and emits the offset's rendering |
| Formulas.BaseAbsent | f2_signal/signal_engine.py:372-381 | a field whose `Field(` does not occur is left alone by its pass |
| Formulas.BaseReadsRep | f2_signal/signal_engine.py:373-381 | wherever the pass meets `Field(o)` with a signed integer `o`, it emits the replacement for `o` and carries on after it |
| Formulas.ReplaceAllAbsent | f2_signal/signal_engine.py:460-461 | replacing names none of which occurs changes nothing |
| SignalEngine.IndHits | f2_signal/signal_engine.py:425-427 | every finditer match of the indicator pattern lies inside the text |
| SignalEngine.IndReadsOffset | f2_signal/signal_engine.py:425-429 | `key(p,o)` is matched with period p and offset o |
| SignalEngine.IndReadsPlain | f2_signal/signal_engine.py:425-429 | `key(p)` is matched with period p and no offset |
| SignalEngine.OffsetIndicatorIsZero | f2_signal/signal_engine.py:442-451 | an indicator with an offset other than "0" becomes "0", whatever the row holds |
| SignalEngine.CurrentIndicatorValue | f2_signal/signal_engine.py:430-453 | an indicator without an offset takes its column's value (`EMA_20` for `EMA(20)`), or "0" when that is missing or NaN |
| SignalEngine.BasePassNoParen | f2_signal/signal_engine.py:372-381 | text without a parenthesis is not changed by the base pass |
| SignalEngine.RunBasePass | f2_signal/signal_engine.py:372-381 | the loop over base_fields computes exactly `BasePass` |
| SignalEngine.RunReplaceHits | f2_signal/signal_engine.py:427-454 | the loop over the matches of one key computes exactly `ReplaceHits` |
| SignalEngine.RunKeysPass | f2_signal/signal_engine.py:412-458 | the loop over ind_patterns computes exactly `KeysPass` |
| SignalEngine.RunReplaceAll | f2_signal/signal_engine.py:460-461 | the loop over the replacements computes exactly `ReplaceAll` |
| SignalEngine.RunEvalFormula | f2_signal/signal_engine.py:353-480 | `eval_formula` with its passes run as loops computes exactly `EvalFormula` |
| SignalEngine.EvalRaisesIffMissingColumn | f2_signal/signal_engine.py:387-393 | `eval_formula` raises exactly when the row lacks one of the five price columns |
| SignalEngine.EvalErrorIsFalse | f2_signal/signal_engine.py:468-480 | an expression `eval` cannot evaluate makes the formula false |
| SignalEngine.NormaliseLeadingVolume | f2_signal/signal_engine.py:361-362 | `MA(Vol,20)` is normalised to `Vol_MA20` |
| SignalEngine.VolumeFormulaNoEntry | f2_signal/signal_engine.py:395-398 | a formula without `Entry` gets no entry placeholders |
| SignalEngine.KeyCheckOnFormulaMissesAverage | f2_signal/signal_engine.py:413 | as written: the key check reads the raw formula, where `Vol_MA20` is spelt `MA(Vol,20)`, so the name is left for the `Vol` replacement to mangle |
| SignalEngine.KeyCheckOnFormulaIsFalse | f2_signal/signal_engine.py:413-480 | as written: `MA(Vol,20) > 0` is false whenever the mangled text does not evaluate, whatever the average |
| SignalEngine.VolumeKeyStep | f2_signal/signal_engine.py:455-458 | checked on the normalised text, `Vol_MA20` is replaced by the column's value |
| SignalEngine.KeyCheckOnExprReadsAverage | f2_signal/signal_engine.py:413 | corrected: checking the keys in the normalised text reads the average from its column |
| SignalEngine.KeyCheckOnExprEvaluates | f2_signal/signal_engine.py:412-480 | corrected: the formula holds exactly when the comparison on the average evaluates to true |
| F2Signal.DropPartialDropsFreshLast | f2_signal/signal_engine.py:77-90 | only a last candle younger than the span (60 s or 300 s) is dropped, and nothing else changes |
| F2Signal.LastAt | f2_signal/signal_engine.py:260-272 | the chosen 1-minute candle is the last one stamped with the latest 5-minute timestamp, None when there is none |
| F2Signal.MissingSettingsDefault | f2_signal/signal_engine.py:279 | a strategy without settings is on, with order 999 |
| F2Signal.SettingsOfLastWins | f2_signal/signal_engine.py:51 | a short_code maps to its last settings entry; codes without one are absent |
| F2Signal.DefaultEntries | f2_signal/signal_engine.py:44-48 | without a settings file, one entry per strategy, on, in list order |
| F2Signal.DefaultSettingOrder | f2_signal/signal_engine.py:44-48 | the default entry of position i is on with order i + 1 |
| F2Signal.DefaultOrders | f2_signal/signal_engine.py:44-51 | without a settings file a strategy whose code is its own is on with its position plus one as order |
| F2Signal.PickFormula | f2_signal/signal_engine.py:284-292 | the first of the levels list when that key is present, else the single formula when present |
| F2Signal.OffIsSkipped | f2_signal/signal_engine.py:280-281 | a strategy switched off adds no trigger |
| F2Signal.MissingFormulaIsSkipped | f2_signal/signal_engine.py:294-298 | a strategy lacking a buy or a sell formula is skipped |
| F2Signal.LevelsPreferred | f2_signal/signal_engine.py:284-292 | non-empty levels win over the single formulas |
| F2Signal.BuyNeedsBothRows | f2_signal/signal_engine.py:302-323 | a buy needs its formula true on both the 1-minute and the 5-minute row; a sell reads only the 1-minute row |
| F2Signal.MissingColumnNeverHolds | f2_signal/signal_engine.py:302-317 | a row lacking a price column makes every formula false, with either key check: the KeyError is caught |
| F2Signal.ScanCollects | f2_signal/signal_engine.py:278-326 | the scan raises exactly when an enabled strategy has an empty levels list; otherwise it collects every strategy's buy and sell, in list order |
| F2Signal.AllSellsIff | f2_signal/signal_engine.py:321-348 | a code is among the sell triggers exactly when that strategy's sell fired |
| F2Signal.AllBuysFrom | f2_signal/signal_engine.py:318-320 | each buy trigger comes from a listed strategy whose buy fired, with its order |
| F2Signal.TopBuy | f2_signal/signal_engine.py:327-331 | the stable sort by order names the first fired buy of least order |
| F2Signal.TopBuyIsLeastOrder | f2_signal/signal_engine.py:329-330 | the chosen buy has the least order, and every fired buy before it a greater one |
| F2Signal.TzLocalizeNaiveOnly | f2_signal/signal_engine.py:76 | `tz_localize` succeeds exactly on a naive timestamp, and keeps its instant |
| F2Signal.AsWrittenAlwaysRaises | f2_signal/signal_engine.py:76 | as written, `utcnow()` is already aware, so `tz_localize` raises and `f2_signal` never returns, whatever its inputs |
| F2Signal.CorrectedClockAnswers | f2_signal/signal_engine.py:76-100 | corrected, an empty frame answers all false with no triggers, where the code as written raises |
| F2Signal.RunF2Signal | f2_signal/signal_engine.py:61-351 | corrected clock: given the aware UTC time `now`, the method computes exactly `F2Signal` |
| F2Signal.RunLatestRows | f2_signal/signal_engine.py:69-272 | corrected clock: given `now`, the frame handling computes exactly the pair of rows `LatestRows` |
| F2Signal.RunDropPartial | f2_signal/signal_engine.py:77-90 | the method computes exactly `DropPartial` |
| F2Signal.RunScan | f2_signal/signal_engine.py:278-326 | the strategy loop computes exactly `Scan`, None where it raises |
| F2Signal.RunStratStep | f2_signal/signal_engine.py:279-323 | the loop body computes exactly `StratStep` for one strategy |
| F2Signal.RunFormulaTest | f2_signal/signal_engine.py:302-317 | the formula test, with `eval_formula` as loops, computes exactly `FormulaTest` for either key check: the raw formula as written (line 413), the normalised expression corrected |
| F2Signal.InsufficientDataIsAllFalse | f2_signal/signal_engine.py:92-100 | corrected clock: either frame empty after the drop gives all flags false and no triggers |
| F2Signal.FreshSingleCandleIsAllFalse | f2_signal/signal_engine.py:77-100 | corrected clock: a single 1-minute candle younger than a minute is dropped, so the result is all false |
| F2Signal.NoMatchingCandleIsAllFalse | f2_signal/signal_engine.py:260-271 | corrected clock: without a 1-minute candle at the latest 5-minute timestamp the result is all false |
| F2Signal.SignalOfScan | f2_signal/signal_engine.py:327-349 | buy_signal exactly when some buy fired, naming the least-order one; sell_signal exactly when some sell fired, listing all in order |
| MlSignalEngine.MlF2SignalShape | f2_ml_buy_signal/03_buy_signal_engine/signal_engine.py:24-45 | the ML engine never sells and names no triggers; buy_signal is the ML answer on the sorted frame exactly when calc_buy is set |
| MlSignalEngine.MlF2SignalShortFrame | f2_ml_buy_signal/03_buy_signal_engine/signal_engine.py:36 | with `check_buy_signal_df` as the model, fewer than 30 candles never buy |
| MlSignalEngine.MlBaseReads | f2_ml_buy_signal/03_buy_signal_engine/signal_engine.py:69-86 | `Field(o)` becomes the current row's value for offset 0, the value of row `pos + o` when that row exists, and "0.0" otherwise |
| MlSignalEngine.ArgRun | f2_ml_buy_signal/03_buy_signal_engine/signal_engine.py:142 | the greedy `[^()]*` run: no parenthesis inside, stopped at one or at the end |
| MlSignalEngine.CallAt | f2_ml_buy_signal/03_buy_signal_engine/signal_engine.py:142-143 | a call match found at `i` starts there and lies inside the text |
| MlSignalEngine.Calls | f2_ml_buy_signal/03_buy_signal_engine/signal_engine.py:143 | every finditer match lies inside the text |
| Common.Strip | f2_ml_buy_signal/03_buy_signal_engine/signal_engine.py:145 | stripping never lengthens the text and leaves no whitespace at either end |
| Common.StripPadding | f2_ml_buy_signal/03_buy_signal_engine/signal_engine.py:145 | whitespace added at either end is stripped again |
| Common.StripKeeps | f2_ml_buy_signal/03_buy_signal_engine/signal_engine.py:145 | text without surrounding whitespace is its own strip |
| Common.IntOf | f2_ml_buy_signal/03_buy_signal_engine/buy_list_executor.py:83 | Python `int()`: a float truncates toward zero, a boolean is 0 or 1, a string is read as `IntOfText`, null, a list or a dict raise |
| Common.IntOfStripped | f2_ml_buy_signal/03_buy_signal_engine/buy_list_executor.py:83 | a stripped text converts exactly when it is an optional sign and digits with single underscores between digits |
| Common.IntOfText | helpers/bot.py:45 | `int()` of a string is the conversion of its stripped text |
| Common.IntOfTextPadding | helpers/bot.py:45 | surrounding whitespace never changes what `int()` gives |
| Common.IntOfDigits | f2_ml_buy_signal/03_buy_signal_engine/buy_list_executor.py:83 | a plain run of digits is read as its decimal value |
| Common.IntOfTextSign | f2_ml_buy_signal/03_buy_signal_engine/buy_list_executor.py:83 | a '+' keeps the value of an accepted body and a '-' negates it |
| Common.IntOfTextUnderscore | f2_ml_buy_signal/03_buy_signal_engine/buy_list_executor.py:83 | an underscore between two digit runs is dropped: the text reads as the digits of both runs |
| Common.IntOfTextUnderscoreExample | f2_ml_buy_signal/03_buy_signal_engine/buy_list_executor.py:83 | `int("1_0")` is 10 |
| Common.IntOfTextRefuses | f2_ml_buy_signal/03_buy_signal_engine/buy_list_executor.py:83 | `int()` raises on "3.0", "1e2", "1__0", "_1" and "1_" |
| Rewrite.SignedDigitsAreInts | f2_ml_buy_signal/03_buy_signal_engine/buy_list_executor.py:83 | a signed digit run converts to its `SignedValue`, and a rendered natural number converts back to itself |
| MlSignalEngine.OffsetWithoutComma | f2_ml_buy_signal/03_buy_signal_engine/signal_engine.py:145-149 | a single parameter means offset 0 and is itself the period |
| MlSignalEngine.OffsetOfSecond | f2_ml_buy_signal/03_buy_signal_engine/signal_engine.py:145-149 | `p,o` has offset `int(o)` when `o` is an integer and 0 otherwise, and period `p` stripped |
| MlSignalEngine.BeforeFirstSplit | f2_ml_buy_signal/03_buy_signal_engine/signal_engine.py:145-146 | the text before the first comma of `p,o` is `p` |
| MlSignalEngine.CallRepReads | f2_ml_buy_signal/03_buy_signal_engine/signal_engine.py:150-169 | a call is replaced by the cell of its column at its offset, and by "0" when that cell is missing or NaN |
| MlSignalEngine.SellQtyGuard | f2_ml_buy_signal/03_buy_signal_engine/signal_engine.py:171-174 | a NaN or zero SellQty_5m becomes the guarded expression that evaluates to 1e-8 |
| MlSignalEngine.PlainNeedsBoundary | f2_ml_buy_signal/03_buy_signal_engine/signal_engine.py:177 | a key that never occurs at word boundaries leaves the text unchanged |
| MlSignalEngine.PlainAtBoundary | f2_ml_buy_signal/03_buy_signal_engine/signal_engine.py:177 | the first bounded occurrence is replaced and the text before it kept |
| MlSignalEngine.ArgReplacementsOf | f2_ml_buy_signal/03_buy_signal_engine/signal_engine.py:88-98 | Entry and EntryPrice take `entry`, Peak takes `peak`, 0 when absent, and only when the formula mentions them |
| MlSignalEngine.EvalOutcomes | f2_ml_buy_signal/03_buy_signal_engine/signal_engine.py:88-188 | the call raises (KeyError) exactly when the current row lacks a base column; otherwise an expression `eval` rejects gives false |
| MlSignalEngine.RunReplaceCalls | f2_ml_buy_signal/03_buy_signal_engine/signal_engine.py:144-169 | the loop over one key's matches computes exactly `ReplaceCalls` |
| MlSignalEngine.RunKeysPass | f2_ml_buy_signal/03_buy_signal_engine/signal_engine.py:139-177 | the loop over `ind_patterns` computes exactly `KeysPass` |
| MlSignalEngine.RunEvalFormula | f2_ml_buy_signal/03_buy_signal_engine/signal_engine.py:48-188 | the method computes exactly `EvalFormula` |
| MlBuySignal.SplitDf | f2_ml_buy_signal/02_ml_buy_signal.py:186-194 | the three parts concatenate to the frame, with `int(0.7 n)` training and `int(0.2 n)` validation rows |
| MlBuySignal.SplitDfContiguous | f2_ml_buy_signal/02_ml_buy_signal.py:186-194 | the parts are contiguous slices in order, and the test part keeps at least a tenth of the rows |
| MlBuySignal.TrainPredictDecides | f2_ml_buy_signal/02_ml_buy_signal.py:197-230 | training data without both labels never buys; otherwise the model buys exactly when its probability for the last row exceeds 0.5 |
| MlBuySignal.ShortFrameNeverBuys | f2_ml_buy_signal/02_ml_buy_signal.py:189-212 | a frame of fewer than two rows leaves no training rows, so it never buys |
| MlBuySignal.CheckBuySignalDfExits | f2_ml_buy_signal/02_ml_buy_signal.py:326-338 | fewer than 30 rows, or no labelled rows, never buy; a buy implies two training classes |
| MlBuySignal.CheckBuySignalFlags | f2_ml_buy_signal/02_ml_buy_signal.py:285-323 | without a model or data all three flags are false; otherwise buy is p > 0.5, rsi is 40 < rsi14 < 60 and trend is ema5 > ema20 |
| MlBuySignal.RunRun | f2_ml_buy_signal/02_ml_buy_signal.py:341-438 | the method, its loops run step by step, computes exactly `Run` |
| MlBuySignal.RunBuyListCounts | f2_ml_buy_signal/02_ml_buy_signal.py:378-394 | the buy-list loops compute exactly the counts and the pending set they build |
| MlBuySignal.RunProcess | f2_ml_buy_signal/02_ml_buy_signal.py:405-438 | the monitoring loop computes exactly `Process` |
| MlBuySignal.ProcessEntries | f2_ml_buy_signal/02_ml_buy_signal.py:405-431 | every written entry is for a monitored symbol, carries its own flags, and has buy_signal 1 exactly when all three flags hold; results lists exactly those symbols |
| MlBuySignal.BoughtCons | f2_ml_buy_signal/02_ml_buy_signal.py:430-431 | an entry adds its symbol to the results exactly when its buy_signal is 1 |
| MlBuySignal.SoldCountIsOne | f2_ml_buy_signal/02_ml_buy_signal.py:402-403 | a symbol of the sell list is written with buy_count 1 |
| MlBuySignal.ForceSoldKeeps | f2_ml_buy_signal/02_ml_buy_signal.py:402-403 | forcing sold symbols keeps a count that is already 1 |
| MlBuySignal.UnsoldCountKept | f2_ml_buy_signal/02_ml_buy_signal.py:402-403 | a symbol off the sell list keeps the buy list's count |
| MlBuySignal.CountsFromLast | f2_ml_buy_signal/02_ml_buy_signal.py:390-394 | a symbol's count comes from its last dict entry in the buy list, 0 when that entry has no buy_count |
| MlBuySignal.RunEntries | f2_ml_buy_signal/02_ml_buy_signal.py:341-438 | each written entry: buy_signal is the conjunction of the flags; buy_count is 1 for a sold symbol and otherwise the buy list's (0 when absent); pending is 1 exactly when the pending file names it |
| MlBuySignal.CountsIgnorePending | f2_ml_buy_signal/02_ml_buy_signal.py:378-394 | the counts do not depend on the buy list's pending flags |
| MlBuySignal.PendingFlagsIgnored | f2_ml_buy_signal/02_ml_buy_signal.py:385-389 | the buy list's pending flags never change what `run` writes, because line 389 replaces the set they fill |
| MlBuySignal.UnreadableMonitoringRaises | f2_ml_buy_signal/02_ml_buy_signal.py:349-407 | an unreadable monitoring list leaves `data` unbound, so `run` raises NameError |
| BuyListExecutor.RunLoadBuyList | f2_ml_buy_signal/03_buy_signal_engine/buy_list_executor.py:35-53 | the retry loop computes exactly `LoadBuyList` |
| BuyListExecutor.LoadReadsFiveAttempts | f2_ml_buy_signal/03_buy_signal_engine/buy_list_executor.py:36-53 | only the first five attempts matter; a missing file or five denied attempts give an empty list |
| BuyListExecutor.LoadFromAgrees | f2_ml_buy_signal/03_buy_signal_engine/buy_list_executor.py:39-51 | attempts that agree from `k` to 4 give the same list |
| BuyListExecutor.AllDeniedIsEmpty | f2_ml_buy_signal/03_buy_signal_engine/buy_list_executor.py:46-53 | attempts all denied from `k` on give up with an empty list |
| BuyListExecutor.NonListIsEmpty | f2_ml_buy_signal/03_buy_signal_engine/buy_list_executor.py:43-53 | a readable file that holds no list yields no entries |
| BuyListExecutor.DedupDicts | f2_ml_buy_signal/03_buy_signal_engine/buy_list_executor.py:69-75 | everything deduplication keeps is a dict |
| BuyListExecutor.Symbols | f2_ml_buy_signal/03_buy_signal_engine/buy_list_executor.py:72 | one symbol per entry, in order |
| BuyListExecutor.DedupKeepsFirst | f2_ml_buy_signal/03_buy_signal_engine/buy_list_executor.py:69-75 | on dicts it never raises, and keeps, in order, exactly the first entry of each truthy symbol not yet seen; kept symbols are distinct |
| BuyListExecutor.DedupTake | f2_ml_buy_signal/03_buy_signal_engine/buy_list_executor.py:73-75 | an entry with a new truthy symbol is kept in front of the rest |
| BuyListExecutor.DedupSkip | f2_ml_buy_signal/03_buy_signal_engine/buy_list_executor.py:73 | an entry with a falsy or seen symbol is dropped |
| BuyListExecutor.SameLengthIsSame | f2_ml_buy_signal/03_buy_signal_engine/buy_list_executor.py:76-77 | replacing the list only when lengths differ loses nothing: a selection of equal length is the list itself |
| BuyListExecutor.SubsequenceShorter | f2_ml_buy_signal/03_buy_signal_engine/buy_list_executor.py:69-77 | a selection is never longer than the list |
| BuyListExecutor.TargetsExactly | f2_ml_buy_signal/03_buy_signal_engine/buy_list_executor.py:80-84 | a symbol is a target exactly when one of its entries has buy_signal 1 and buy_count 0 |
| BuyListExecutor.FallbackPrices | f2_ml_buy_signal/03_buy_signal_engine/buy_list_executor.py:103-113 | the fallback keeps every ticker price and adds exactly the missing targets whose best bid is positive, at that bid |
| BuyListExecutor.MarkBought | f2_ml_buy_signal/03_buy_signal_engine/buy_list_executor.py:138-142 | marking keeps the length and every entry a dict |
| BuyListExecutor.TargetsParsed | f2_ml_buy_signal/03_buy_signal_engine/buy_list_executor.py:80-84 | a target list that was built means every entry's fields converted |
| BuyListExecutor.NoTargetsNoCall | f2_ml_buy_signal/03_buy_signal_engine/buy_list_executor.py:86-88 | without targets nothing is fetched, bought or written |
| BuyListExecutor.EmptyListDoesNothing | f2_ml_buy_signal/03_buy_signal_engine/buy_list_executor.py:36-88 | a missing buy list has no targets, so nothing happens |
| BuyListExecutor.MarkBoughtAt | f2_ml_buy_signal/03_buy_signal_engine/buy_list_executor.py:138-142 | with distinct symbols, marking sets buy_count 1 on exactly the entry of that symbol and keeps every symbol |
| BuyListExecutor.MarkBoughtEntries | f2_ml_buy_signal/03_buy_signal_engine/buy_list_executor.py:138-142 | with distinct symbols only the entry with that symbol is marked |
| BuyListExecutor.MarkTwice | f2_ml_buy_signal/03_buy_signal_engine/buy_list_executor.py:140 | marking twice is marking once |
| BuyListExecutor.ExecOutcome | f2_ml_buy_signal/03_buy_signal_engine/buy_list_executor.py:117-142 | the executed symbols are exactly those of entries with buy_signal 1 and a price, each ordered at its price; exactly their entries are written back with buy_count 1, every other entry unchanged |
| BuyListExecutor.ExecTake | f2_ml_buy_signal/03_buy_signal_engine/buy_list_executor.py:126-142 | an entry that executes is ordered at its price and marked, then the rest runs on the marked list |
| BuyListExecutor.ExecuteBuys | f2_ml_buy_signal/03_buy_signal_engine/buy_list_executor.py:56-151 | with targets, prices are fetched; executed symbols are exactly the priced entries with buy_signal 1, and exactly their entries are written back marked |
| BuyListExecutor.BoughtSkip | f2_ml_buy_signal/03_buy_signal_engine/buy_list_executor.py:119-125 | an entry that does not execute adds no executed symbol |
| BuyListExecutor.BoughtTake | f2_ml_buy_signal/03_buy_signal_engine/buy_list_executor.py:126-137 | an entry that executes adds exactly its own symbol |
| BuyListExecutor.SingleEntryExample | f2_ml_buy_signal/03_buy_signal_engine/buy_list_executor.py:56-151 | a one-entry list with buy_signal 1 and buy_count 0 is bought at the ticker price and written back marked |
| BuyListExecutor.RunDedup | f2_ml_buy_signal/03_buy_signal_engine/buy_list_executor.py:69-75 | the deduplication loop computes exactly `DedupFrom` |
| BuyListExecutor.RunFallback | f2_ml_buy_signal/03_buy_signal_engine/buy_list_executor.py:103-113 | the order-book loop computes exactly `Fallback` |
| BuyListExecutor.RunMarkBought | f2_ml_buy_signal/03_buy_signal_engine/buy_list_executor.py:138-142 | the inner loop with its break computes exactly `MarkBought` |
| BuyListExecutor.MarkBoughtStep | f2_ml_buy_signal/03_buy_signal_engine/buy_list_executor.py:138-139 | an entry of another symbol is passed over |
| BuyListExecutor.MarkBoughtHit | f2_ml_buy_signal/03_buy_signal_engine/buy_list_executor.py:139-142 | the entry of that symbol is marked and the loop stops |
| BuyListExecutor.RunExec | f2_ml_buy_signal/03_buy_signal_engine/buy_list_executor.py:117-142 | the execution loop computes exactly `ExecFrom` |
| BuyListExecutor.RunExecute | f2_ml_buy_signal/03_buy_signal_engine/buy_list_executor.py:56-151 | the whole procedure computes exactly `Execute` |
| F2BuySignal.FlagsMeaning | f2_buy_signal/__init__.py:63-82 | signal1 is the truthiness of buy_signal, signal2 holds exactly when rsi14 converts to a number strictly between 40 and 60, signal3 exactly when ema5 and ema20 convert and ema5 is greater |
| F2BuySignal.MissingColumnsAreFalse | f2_buy_signal/__init__.py:65-80 | a missing buy_signal, rsi14 or ema column leaves its flag false |
| F2BuySignal.LastRowDecides | f2_buy_signal/__init__.py:53-63 | only the last row of the prediction file decides the flags |
| F2BuySignal.LessIsStrict | f2_buy_signal/__init__.py:70-78 | float comparison is a strict order on numbers, and NaN compares with nothing |
| F2BuySignal.Target | f2_buy_signal/__init__.py:10-18 | a name resolves exactly when it is one of the three submodules, to that module of `f2_ml_buy_signal` |
| F2BuySignal.OnlyThreeResolve | f2_buy_signal/__init__.py:10-18 | exactly 01_buy_indicator, 02_ml_buy_signal and 03_buy_signal_engine resolve |
| F2BuySignal.Package.constructor | f2_buy_signal/__init__.py:10-21 | the package starts with no aliases and no settings |
| F2BuySignal.Package.GetAttr | f2_buy_signal/__init__.py:13-18 | a submodule is registered under the package's own name and returned; any other name raises and changes nothing |
| F2BuySignal.Package.ReloadStrategySettings | f2_buy_signal/__init__.py:25-33 | the settings become the loaded JSON, or [] when reading failed |
| F2BuySignal.Reloaded | f2_buy_signal/__init__.py:29-33 | [] exactly when reading failed, else the loaded value |
| CheckSignals.ToBoolTruncates | f2_buy_signal/check_signals.py:9-11 | a number is true exactly when its magnitude reaches 1, because `int` truncates toward zero |
| CheckSignals.ToBoolFallsBack | f2_buy_signal/check_signals.py:12-13 | text that is not a finite number is true when non-empty; a missing value is false |
| CheckSignals.HalfIsFalse | f2_buy_signal/check_signals.py:9-11 | "0.5" reads as false |
| CheckSignals.AsDict | f2_buy_signal/check_signals.py:39-43 | the result has exactly the keys signal1, signal2 and signal3, and each holds its own flag |
| CheckSignals.RunCheckSignals | f2_buy_signal/check_signals.py:30-45 | the reader loop computes exactly `CheckSignals` |
| CheckSignals.LastRowDecides | f2_buy_signal/check_signals.py:34-43 | only the last row decides the flags |
| CheckSignals.UnusableFileIsAllFalse | f2_buy_signal/check_signals.py:37-45 | an unreadable file or one without rows gives three false flags |
| CheckSignals.LatestRowExample | f2_buy_signal/check_signals.py:30-43 | of two rows, the later one (signals 1, 0, 1) decides: signal1 and signal3 true, signal2 false |
| SignalLoop.NoDataNoSignal | signal_loop.py:82-85 | no frame, or an empty one, returns None and forwards nothing |
| SignalLoop.SignalOfData | signal_loop.py:91-108 | with data the one signal forwarded is the one returned: a buy exactly when the symbol has no open position and all three flags hold, never a sell, no triggers, and the last close as price when the frame has a close column |
| SignalLoop.FilterEmpty | signal_loop.py:92-95 | a filter keeps nothing exactly when no element passes |
| SignalLoop.ForwardFailureIsLogged | signal_loop.py:104-108 | a failure to forward logs one error and changes neither the result nor what was sent |
| SignalLoop.DedupeFromKeeps | signal_loop.py:160 | `dict.fromkeys` keeps each symbol not yet seen once, in order of first occurrence: distinct, a subsequence, and with the same members |
| SignalLoop.DedupeDistinct | signal_loop.py:160 | a list without repeats comes back unchanged |
| SignalLoop.DedupeAppend | signal_loop.py:160 | deduping `a + b` is deduping `a`, then the symbols of `b` not in `a` |
| SignalLoop.Imported | signal_loop.py:155-159 | every open imported position's symbol is listed, and every symbol listed is that of an open imported position |
| SignalLoop.UniverseIsMerge | signal_loop.py:152-160 | the selection is used only when the current universe is empty; the result is distinct, has exactly the base and imported symbols, and starts with a distinct base in its order |
| SignalLoop.RunDedupe | signal_loop.py:160 | the `seen`-set loop computes exactly `Dedupe` |
| SignalLoop.Upper | signal_loop.py:142 | upper-casing keeps the length |
| SignalLoop.ScanAll | signal_loop.py:172-177 | one outcome per universe symbol, in order, each that symbol's `process_symbol` |
| SignalLoop.StatusGates | signal_loop.py:142-151 | off: manage positions, sleep, and stop only if asked; on: stop if asked before anything else, otherwise scan |
| SignalLoop.LowerCaseOnRuns | signal_loop.py:142-143 | the status is compared after upper-casing, so "on" scans |
| SignalLoop.OnIterationRaises | signal_loop.py:162 | as written, every ON iteration that is not stopping raises before any symbol is processed |
| SignalLoop.ScanProcessesUniverse | signal_loop.py:152-177 | corrected, an ON iteration processes each universe symbol once in order, and forwards a signal exactly for the symbols with data |
| SignalLoop.RunScan | signal_loop.py:172-177 | the `for symbol in universe` loop computes exactly `ScanAll` |
| SignalLoop.ScanAllSnoc | signal_loop.py:172-177 | one more symbol adds its own outcome at the end |
| SignalLoop.RunIterate | signal_loop.py:141-179 | one iteration computes exactly the corrected `Iterate` |
| WebApp.InitialSettingsValid | app.py:51-71 | the initial settings are not running and carry every key `get_status` reads |
| WebApp.GetStatus | app.py:102-105 | the status has exactly the keys running and updated, copied from the settings |
| WebApp.SellWithoutCoinChangesNothing | app.py:535-551 | a falsy coin changes no position, alert or setting, answers the 500 error and records "Invalid coin" |
| WebApp.SellRemovesTheCoin | app.py:538-548 | a truthy coin removes exactly the positions of that coin, keeping the others in order, puts its alert first and answers 200 |
| WebApp.FilterKeeps | app.py:543 | the comprehension keeps exactly the elements that pass |
| WebApp.SellOverRecordWithoutCoin | app.py:543-551 | a position lacking `coin` makes `p['coin']` raise: nothing changes and the reply is the 500 error |
| WebApp.BuyAppendsOne | app.py:555-572 | a truthy coin appends one six-field position for it and puts its alert first; a falsy one changes nothing and answers 500 |
| WebApp.SaveSettingsFailsAfterMerge | app.py:463-470 | as written, a dict body is merged into the settings and the reply is still the 500 error, with the NameError recorded |
| WebApp.SaveSettingsMerges | app.py:458-470 | corrected, a non-dict body changes nothing and fails; a dict overrides its keys, keeps every other setting, stamps updated and answers with the status |
| WebApp.StartBotNeverSucceeds | app.py:410-422 | as written, running becomes true and the reply is always "봇 시작 실패" |
| WebApp.StartBotMarksRunning | app.py:409-422 | corrected, running becomes true whatever happens; the reply is an error exactly when the trader's start raised, and otherwise carries the running status |
| WebApp.StopBotClearsRunning | app.py:428-440 | running becomes false; as written the reply is always "봇 중지 실패", corrected exactly when the trader's stop raised |
| WebApp.SaveRejectsMissingBody | app.py:612-627 | no JSON body answers 400 and changes nothing; with a body the data are saved, and the reply is 500 as written and 200 corrected |
| WebApp.Dashboard.constructor | app.py:51-118 | the module globals at import: initial settings, the given positions, no alerts |
| WebApp.Dashboard.Set | app.py:112-118 | the globals take the given state |
| WebApp.Dashboard.PostManualSell | app.py:533-551 | the handler's new globals and reply are exactly `ManualSell` |
| WebApp.Dashboard.PostManualBuy | app.py:553-572 | the handler's new globals and reply are exactly `ManualBuy` |
| WebApp.Dashboard.PostSaveSettings | app.py:456-470 | the handler's new globals and reply are exactly the corrected `SaveSettings` |
| WebApp.Dashboard.PostStartBot | app.py:405-422 | the handler's new globals and reply are exactly the corrected `StartBot` |
| WebApp.Dashboard.PostStopBot | app.py:424-440 | the handler's new globals and reply are exactly the corrected `StopBot` |
| WebApp.Dashboard.PostSave | app.py:609-627 | the handler's new globals and reply are exactly the corrected `Save` |
| WebApp.Dashboard.Status | app.py:598-606 | `/api/status` has exactly the keys running and updated, holding the settings' running flag and update time |
| MainJs.Entries | static/js/main.js:161-201 | a list is rendered exactly when no entry is null (reading a property of null throws); each object entry gives its own fields |
| MainJs.ConfirmModal.constructor | static/js/main.js:13-29 | the modal starts hidden and without listeners |
| MainJs.ConfirmModal.Open | static/js/main.js:13-29 | opening shows the message with exactly the two button listeners |
| MainJs.ConfirmModal.Press | static/js/main.js:18-27 | a press answers as `showConfirm` does, removes both listeners and hides the modal |
| MainJs.ConfirmRound | static/js/main.js:13-29 | a whole dialog answers true exactly when OK was pressed, and leaves the modal hidden without listeners |
| MainJs.ConfirmAnswers | static/js/main.js:13-29 | with the modal the answer is whether OK was pressed; without it, the browser's `confirm` answer |
| MainJs.CallApiOutcomes | static/js/main.js:53-67 | the request is sent as given; a network error or non-JSON reply (or null) shows the connection alert and yields nothing; an object reply is returned, its truthy message shown |
| MainJs.FromEntriesLast | static/js/main.js:108-110 | `Object.fromEntries` holds a key exactly when an entry has it, with the last entry's value |
| MainJs.LastValueCons | static/js/main.js:108-110 | the last value of a key in `e + rest` is the rest's, or `e`'s when the rest has none |
| MainJs.OverlayValue | static/js/main.js:111-113 | copying the dataset over the form gives each non-api key its last dataset value, else the form's |
| MainJs.OverlayApi | static/js/main.js:111-113 | the api key is never copied from the dataset |
| MainJs.PayloadFields | static/js/main.js:106-114 | the request body holds the dataset's values over the form's for every key but api, which only the form supplies |
| MainJs.RunPayload | static/js/main.js:106-114 | the payload loop computes exactly `Payload` |
| MainJs.DeclinedSendsNothing | static/js/main.js:102-105 | a declined confirmation sends nothing |
| MainJs.StatusReloadOnlyAfterSave | static/js/main.js:114-121 | a click posts the payload first, and then reloads the status exactly when the URL is a save URL and the reply's result is success |
| MainJs.LoadedButtonSendsTwice | static/js/main.js:38-121 | a button present at load posts twice: once through its own listener with only its form's fields, then through the delegated handler with the payload |
| MainJs.LoadedButtonIgnoresConfirmation | static/js/main.js:38-105 | declining the confirmation still leaves the request of the button's own listener |
| MainJs.PositionRows | static/js/main.js:161-186 | one numbered position row per entry, numbered from 1, with its coin |
| MainJs.BalanceRow | static/js/main.js:237-256 | a balance row shows the entry's coin, and its pnl followed by " %" |
| MainJs.BalanceRows | static/js/main.js:234-260 | one balance row per entry, in list order, each built from its own entry |
| MainJs.SignalRows | static/js/main.js:277-293 | one numbered signal row per entry with its coin |
| MainJs.AlertLines | static/js/main.js:188-201 | no alerts show the waiting line; otherwise one line per alert |
| MainJs.Lines | static/js/main.js:188-201 | one line per alert, in order |
| MainJs.RefreshRoute | static/js/main.js:206-217 | balances reload the balance table, signals the buy monitor, any other kind is emitted exactly when a socket exists |
| MainJs.ReloadRendersOnSuccess | static/js/main.js:220-275 | a success reply renders the listed objects, one per entry |
| MainJs.ReloadFailures | static/js/main.js:220-275 | a failed fetch shows the connection alert; a non-success reply shows its truthy message and otherwise nothing |
| MainJs.MissingTableNeverThrows | static/js/main.js:161-175 | with no table body on the page a parsed reply never raises the connection alert; with the table, a non-array payload does |
| MainJs.TextContent | static/js/main.js:74-84 | a missing or null value leaves the element's text empty; any other value is converted as a template literal would |
| MainJs.StatusTexts | static/js/main.js:296-315 | a success status shows 실행중 or 정지 by the truthiness of running, and the update time |
| MainJs.FormatNumberCases | static/js/main.js:317-321 | a number is formatted by the locale, anything else shown as it is |
| MainJs.AccountTexts | static/js/main.js:323-338 | cash and total are formatted with " 원", pnl shown with " %" |
| MainJs.Page.UpdatePositions | static/js/main.js:161-186 | the position table shows the numbered rows when it exists and no entry is null; otherwise nothing changes |
| MainJs.Page.UpdateAlerts | static/js/main.js:188-201 | the alert box and list show the alert lines; a null entry or a missing box throws and leaves them |
| MainJs.Page.OnNotification | static/js/main.js:70-88 | a notification's truthy message is shown and its text (empty for a missing or null message) prepended to both alert views; a null payload throws and changes nothing |
| MainJs.Page.Refresh | static/js/main.js:206-217 | a refresh sends exactly the request or emit its route names |
| MainJs.Page.ShowReload | static/js/main.js:220-232 | a reload outcome shows its error message, the connection alert, or nothing |
| MainJs.Page.ReloadBalances | static/js/main.js:220-260 | fetches the balances and renders them into the position table, or shows the failure; a non-array payload throws only when the table is on the page |
| MainJs.Page.ReloadBuyMonitorTable | static/js/main.js:263-293 | fetches the signals and renders them into the signal table, or shows the failure; a non-array payload throws only when the table is on the page |
| MainJs.Page.LoadStatus | static/js/main.js:296-315 | fetches the status and writes its two texts where the elements exist; a failure shows the connection alert or the reply's message |
| MainJs.Page.ReloadAccount | static/js/main.js:323-338 | fetches the account and writes cash, total and pnl where the elements exist; a fetch failure only logs to the console |
| MainJs.BalancesReplacePositions | static/js/main.js:161-260 | after the balances reload, the position table holds exactly one balance row per balance, whatever positions it held |
| DashboardJs.LogRows | static/js/dashboard.js:6-23 | one row per log, in order |
| DashboardJs.LogTableOfList | static/js/dashboard.js:6-23 | an array of log objects renders one row per log; an empty one the placeholder |
| DashboardJs.EmptyCells | static/js/dashboard.js:13-20 | a missing action, coin, price or amount shows as an empty cell, a null price as `formatNumber(null)` |
| DashboardJs.PushedKeepsNewest | static/js/dashboard.js:41-45 | a new log goes first, the earlier ones follow in order, and at most twenty are kept |
| DashboardJs.LogBoard.constructor | static/js/dashboard.js:1-4 | the list starts empty |
| DashboardJs.LogBoard.Render | static/js/dashboard.js:6-23 | the table shows `updateLogTable`'s rows when it exists and rendering does not throw; otherwise it is unchanged |
| DashboardJs.LogBoard.LoadLogs | static/js/dashboard.js:25-35 | a success reply replaces the list by its logs and renders them; another reply changes nothing; a thrown error is logged to the console |
| DashboardJs.LogBoard.OnLog | static/js/dashboard.js:41-45 | the log is put first, the list cut to twenty and rendered; a list that is not an array throws and nothing changes |
| DashboardJs.LogsStayBounded | static/js/dashboard.js:41-45 | whatever logs arrive, the list stays an array of at most twenty with the newest first |
| StrategyJs.Defaults | static/js/strategy.js:17-29 | the stub has one inactive, moderate/moderate strategy per name, priorities 1, 2, … in order |
| StrategyJs.DefaultTable | static/js/strategy.js:17-29 | without fetched data the table holds the twenty-five stub strategies, all inactive, already in priority order |
| StrategyJs.EmptyListIsKept | static/js/strategy.js:15-17 | a fetched empty array is truthy and is kept, so no stub replaces it |
| StrategyJs.MakeRows | static/js/strategy.js:39-52 | one row per strategy, in order, each showing that strategy's fields |
| StrategyJs.Toggled | static/js/strategy.js:54-59 | every row's active box takes the toggle's state; nothing else changes |
| StrategyJs.SavedPriority | static/js/strategy.js:72 | a priority that reads as a non-zero number is saved as it is; an empty, unreadable or zero one as 99 |
| StrategyJs.SavedRows | static/js/strategy.js:67-74 | one saved record per table row, in order, with the row's fields and its time stamp |
| StrategyJs.RenderThenSave | static/js/strategy.js:36-74 | rendering then saving gives every loaded strategy once, sorted by priority, with the toggle's active state and its priority (99 for 0) |
| StrategyJs.StrategyPage.ApplyToggleAll | static/js/strategy.js:54-59 | every row takes the toggle's state; nothing else on the page changes |
| StrategyJs.StrategyPage.ChangeToggleAll | static/js/strategy.js:61 | changing the toggle sets every row's active box to the new state |
| StrategyJs.StrategyPage.RenderTable | static/js/strategy.js:36-42 | the array is sorted in place by priority and the table shows its rows with the toggle applied and the new save time |
| StrategyJs.StrategyPage.Init | static/js/strategy.js:11-31 | the page fetches the list once and shows the fetched strategies, or the stub when there are none, sorted |
| StrategyJs.StrategyPage.Save | static/js/strategy.js:66-83 | the table's rows are posted; a success alerts, dispatches the same rows and stamps the time; a failure alerts 저장 실패; a rejected fetch changes nothing else |
| StrategyJs.StrategyPage.Restore | static/js/strategy.js:85-96 | a declined dialog sends nothing; an accepted one posts the restore, and on success re-renders the fetched list and alerts 복원 완료, on failure alerts 복원 실패 |
| StrategyJs.ToggleOverridesLoaded | static/js/strategy.js:41-59 | after a render every row's active box shows the toggle, whatever the loaded strategies said |

## Left out

- I/O is left out: file reads and writes, HTTP and Upbit calls, sockets, Telegram, logging and `sleep`. Their results are parameters, and writes are recorded as values.
- Threads, locks and timers are left out; every operation runs to completion in one step. This covers the universe selector's and the collector's background threads, the buy-list executor's lock, and the signal loop's sleep.
- Training, model files and the pipeline run of `f2_ml_buy_signal/02_ml_buy_signal.py` (`run_pipeline_for_symbol`) are not modelled. Their probabilities and prepared frames are parameters.
- The indicator computation of `f2_signal/signal_engine.py` (lines 101-255) is not modelled. Indicator values are row entries given to the strategy loop.
- The final `eval` of a rewritten formula is a parameter (`evaluate`), as is the rendering of a number into formula text (`show`).
- Floating point is left out; numbers are exact reals. `int(n * 0.7)` in the splits can be one less than the exact floor for some n (90, for instance). The split lemmas hold for any boundaries in range and are instantiated with the exact floor.
- `pandas.sort_values` is modelled by a stable sort, so among rows with one timestamp the data cleaning keeps the last input row.
- DataCleaning: the one-minute resample of `_clean_df` is not modelled. It has no decision logic beyond pandas.
- Strategies: `df_to_market` (`helpers/strategies.py:56-116`) is not modelled. It copies the last rows of an indicator frame into a dict, and the market data is a parameter of the signal checks instead.
- CompileFormula.LoadStrategies: the record fields are modelled as strings. A formula that is not a string, which makes `_convert` raise TypeError, is not modelled.
- Labeling.MakeLabels: for an empty frame, only the `horizon` zero labels are modelled. The rows the assignment adds to the frame, empty in every other column, are not, because the model returns the label column alone.
- CleanDf: `CleanedFrame` leaves out the one-minute resample of line 172 and the conversions of the other columns to numbers (lines 136-148). Only the OHLCV cells of each row are kept.
- CleanedRows: the one-minute resample (line 172 of `f5_ml_pipeline/22_data_cleaning.py`) is left out. So "only timestamps from the input" holds for the model only; the program adds a row for every missing minute, filled from its neighbours.
- Time zones are left out (`ensure_kst`, `_as_utc`). Timestamps are plain numbers, already normalised. Only the awareness of the clock read at line 76 of `f2_signal/signal_engine.py` is modelled, because it decides whether `f2_signal` raises.
- Strings are handled as ASCII only. `strip`, `upper`, `lower` and `\d` match only ASCII characters, while Python's match Unicode.
- F2Signal.OrderOf: instead of raising on a mixed-type comparison during the sort, an `order` setting that is not a number sorts as 999.
- A strategy formula that is JSON null is treated like a missing one.
- Strategy-list entries that are not dicts are not modelled, because the loaders index them as dicts.
- WebApp.ManualSell: the coin comparison is equality of JSON values, so Python's cross-type equality (`1 == True`) is not modelled.
- Position records are assumed to hold a string symbol. The `imported` positions of the signal loop come from a list that is empty in practice, and are a parameter.
- The risk manager's `order_fail_count` and `ws_fail_count` attributes are not modelled: they are read (`f4_riskManager/risk_manager.py:107-110`) but never set.
- The risk manager in the signal loop is always None there, so its calls are left out of that loop.
- `fetch_ohlcv` is a parameter.
- `reload_strategy_settings` of the ML signal engine is a placeholder with no effect, and is left out.
- `apply_strategy` and the other routes of `app.py` outside the handlers listed above are not part of this model.
- Buy-list execution checks only `buy_signal`, never `buy_count`. The model follows the code.
- In the scripts, the page's `fetchJsonRetry` is not defined in `main.js`, `dashboard.js` or `strategy.js`; its result is the parameter `reply`.
- In the scripts, `String`, `parseFloat`, `toLocaleString`, unary `+` and `JSON.stringify` are parameters.
- In the scripts, `Object.entries` order is taken as given.
- Bootstrap modals are left out, apart from their listeners and visibility.
- Also left out of the scripts: the drag layout (`initDragLayout`, `static/js/main.js:131-152`), the styling of the position dots, the wait cursor, tooltips and the `data-alert` handler. None affects the data shown.
- An unhandled promise rejection is modelled as "nothing more happens".
- The confirmation dialog is modelled with one outstanding dialog at a time.
- The strategy page assumes the fetched JSON is a well-typed list of strategies. The endpoint's reply is a dict (`tests/test_app_endpoints.py:228-230`), for which `renderTable` clears the table and then throws; that outcome is not modelled.
- SelectStrategies.Selection: sorts the candidates by their sharpe converted to a number. The program sorts by the raw stored value (`f5_ml_pipeline/10_select_best_strategies.py:116` and `:130`), so a string sharpe that passes the criteria raises TypeError against a numeric one and is ordered lexicographically against other strings ("9.0" above "10.0"). Neither is modelled, because the sort is modelled over a numeric key.
- RiskFsm.RiskManager.constructor: requires the first configuration reload not to raise. A construction that raises is not modelled.
- ConfigReload.RiskConfig.constructor: requires the first reload not to raise. A construction that raises is not modelled.
- RunF2Signal: states `f2_signal` with the clock read as intended. As written, line 76 of `f2_signal/signal_engine.py` raises TypeError on every call (`F2Signal.AsWrittenAlwaysRaises`, under Findings).
- RunLatestRows: as written, this frame handling is never reached, because line 76 raises first.
- InsufficientDataIsAllFalse: holds for the corrected clock read; as written, line 76 raises before the empty check.
- FreshSingleCandleIsAllFalse: holds for the corrected clock read; as written, line 76 raises before the partial-candle drop.
- NoMatchingCandleIsAllFalse: holds for the corrected clock read; as written, line 76 raises before the candle lookup.

## Findings

| source | as written | input that shows it | evidently intended | confidence | as-written member | corrected member |
|---|---|---|---|---|---|---|
| helpers/execution.py:178 | each part of a split sell is `remain / (split - sold / remain)`, and `remain` never decreases | quantity 1, split 2, both limit orders filled in full: parts 0.5 and 2/3, so 7/6 is sold | each part sells an even share of what is left, and the parts sum to the quantity | high, not executed | Execution.SplitOversells | Execution.EvenPartSize, Execution.EvenPartsNeverOversell, Execution.EvenPartsSellExactly |
| helpers/bot.py:107 | `check_buy_signal(strat, ticker, level)` against the signature `(short_code, level, market)` | any free ticker with a strategy whose formula names an indicator: the level string is passed as the market, the formula fails the name test or raises TypeError, and no buy happens (only a name-free formula such as `1 > 0` can still buy) | pass the level, then the ticker's market data | high, not executed | Bot.NeverBuysAsWritten | Bot.IntendedCallBuys |
| helpers/bot.py:126-132 | `check_sell_signal` called with five arguments; the function takes four | any open trade: the call raises a TypeError, and the loop's handler drops the rest of the iteration | call it with the strategy, the level, the market data carrying the buy price as `entryprice`, and the risk settings, so a stop-loss sells | high, not executed | Bot.NeverSellsAsWritten | Bot.IntendedCallStopsLoss |
| f2_signal/signal_engine.py:413 | indicator keys are looked up in the raw `formula`, not in the rewritten `expr` | formula `MA(Vol,20) > 0`: `Vol_MA20` is absent from the raw text, so `Vol` is then replaced inside `Vol_MA20` and the expression never evaluates | look up keys in `expr`, so the average's value is substituted | medium, not executed | SignalEngine.KeyCheckOnFormulaMissesAverage, SignalEngine.KeyCheckOnFormulaIsFalse | SignalEngine.KeyCheckOnExprReadsAverage, SignalEngine.KeyCheckOnExprEvaluates |
| app.py:417,436,464,622 | `update_timestamp()` is called but never defined in `app.py` | any start, stop, settings save or `/save` with a valid body: the state changes, then a NameError gives the 500 reply | stamp the settings' `updated` time and answer with success | high, not executed | WebApp.SaveSettingsFailsAfterMerge, WebApp.StartBotNeverSucceeds | WebApp.SaveSettingsMerges, WebApp.StartBotMarksRunning, WebApp.StopBotClearsRunning, WebApp.SaveRejectsMissingBody |
| f2_signal/signal_engine.py:76 | `now = pd.Timestamp.utcnow().tz_localize("UTC")`; `utcnow()` already carries UTC, and `tz_localize` refuses an aware timestamp | any call, e.g. the 30-candle frames of tests/test_signal.py:41-48, which the test expects to return a dict of signal keys: TypeError before the frames are looked at | read the clock as an aware UTC timestamp (`pd.Timestamp.now(tz="UTC")`) and go on as the rest of the function does | high, not executed | F2Signal.AsWrittenAlwaysRaises | F2Signal.CorrectedClockAnswers, F2Signal.InsufficientDataIsAllFalse |
| tests/test_labeling.py:36 | the test expects the labels [1, -1, 0, 0, 0, 0] | the test's own frame: row 1's window (rows 2 and 3) has the high 100.4, above 100.3, and no low at or below 99.7 | `make_labels` is consistent with its own rule; the test's expectation should be [1, 1, 0, 0, 0, 0] | medium, not executed | Labeling.SixRowTestExpectsDown | Labeling.SixRowLabels |
| signal_loop.py:162 | `position_manager.sync_with_universe(universe)`, a method `PositionManager` does not define | any ON iteration that is not stopping: AttributeError before any symbol is processed | sync (here a no-op) and then process each universe symbol | medium, not executed | SignalLoop.OnIterationRaises | SignalLoop.ScanProcessesUniverse |
