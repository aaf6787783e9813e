# oneFinger backtest core in Dafny

This project models the core of the oneFinger A-share backtester. The Python code lives
under `src/`.

- **`BacktestEngine`** (src/core/engine.py) replays daily bars against a strategy's
  buy/sell signals. It works with a cash account and a per-symbol ledger of lots
  (`open_trades`). A buy is sized in whole board lots of 100 shares after a 5% haircut.
  A sell consumes lots first-in-first-out and writes one `TradeRecord` per lot it
  touches. One mark-to-market equity sample is taken per bar. Every open position is
  liquidated at the last close. The engine then reports the return, the annualised mean
  return, the Sharpe ratio, the maximum drawdown, the win rate and the profit/loss ratio.
- **`MACrossStrategy`** (src/strategy/ma_cross.py) emits golden- and death-cross
  signals from two rolling means of the closes.
- **`RSIStrategy`** (src/strategy/rsi.py) emits oversold and overbought crossings of a
  rolling-mean RSI.
- **The record models**: bars (src/models/ohlcv.py), orders and trades
  (src/models/order.py), positions and the account (src/models/account.py).

The modules follow the source layout:

| file | module | models |
|---|---|---|
| `wrappers.dfy` | `Wrappers` | `Option` and `Result` |
| `ohlcv.dfy` | `Ohlcv` | bars and bar series |
| `order.dfy` | `Orders` | orders and fills |
| `account.dfy` | `Accounts` | positions and the `Account` class |
| `signals.dfy` | `Signals` | the strategy signal record |
| `results.dfy` | `Results` | trade records, metrics, the backtest result |
| `rolling.dfy` | `Rolling` | sums and pandas' trailing rolling mean, with NaN as `None` |
| `ledger.dfy` | `Ledger` | lots, holdings, board-lot sizing, FIFO consumption, the trade records |
| `simulation.dfy` | `Simulation` | every state change of a run, as functions on an `EngineState` value |
| `engine.dfy` | `Engine` | the `BacktestEngine` class |
| `metrics.dfy` | `Metrics` | returns, risk figures, drawdown, win rate, profit/loss ratio |
| `ma_cross.dfy` | `MaCross` | the crossover strategy |
| `rsi.dfy` | `Rsi` | the RSI strategy |

The engine and the two strategies are classes whose methods update their fields in
loops, as the Python does. Each method is proved equal to a specification function of
the old state. Buying, for example, satisfies `State() == BuyStep(old(State()), bar,
signal, Settings())`. The properties of a run are lemmas about those functions.

The main invariant of a run is `Simulation.Sound`:

- cash stays strictly positive;
- the total commission is non-negative;
- the `open_trades` keys and their insertion order agree;
- every holding's quantity is the sum of its lots, each a positive multiple of 100;
- the average cost times the quantity is the cost of the lots;
- trade identifiers run 1, 2, 3, … in ledger order.

Because cash stays positive, every equity sample is positive, so no period return
divides by zero.

Modelling choices:

- Prices, cash and rates are `real`; quantities are `int`.
- Dates are day numbers. Trade id `n` stands for the string `"t" + n`.
- Python's `int()` of a float is modelled as truncation toward zero (`Ledger.Trunc`).

## Model

| member | source | states |
|---|---|---|
| Ohlcv.PriceRange | src/models/ohlcv.py:17-19 | the range added to the low gives the high; it is non-negative exactly when high ≥ low, and for a valid bar it is at most the high |
| Ohlcv.IsUp | src/models/ohlcv.py:21-23 | a bar is up exactly when it does not close below its open, so a flat bar counts as up |
| Ohlcv.TotalBars | src/models/ohlcv.py:32-34 | the count is the number of bars and is 0 exactly for an empty series |
| Ohlcv.Length | src/models/ohlcv.py:36-37 | `len` agrees with `total_bars` |
| Ohlcv.At | src/models/ohlcv.py:39-40 | Python indexing: defined exactly for -len ≤ i < len; a non-negative index reads bars[i], a negative one counts from the end |
| Ohlcv.LastBar | src/models/ohlcv.py:39-40 | `data[-1]` of a non-empty series is its last bar |
| Ohlcv.AtValid | src/models/ohlcv.py:6-40 | every bar read out of a valid series satisfies the field constraints |
| Ohlcv.Closes | src/strategy/ma_cross.py:32 | the close column has one entry per bar, equal to that bar's close |
| Orders.IsBuy | src/models/order.py:26-28 | true exactly for the BUY side and false exactly for SELL |
| Orders.IsMarketOrder | src/models/order.py:30-32 | true exactly for MARKET orders and false exactly for LIMIT |
| Orders.GrossValue | src/models/order.py:42-44 | a valid fill's gross value is non-negative and is 0 exactly when the price is 0 |
| Orders.NetValue | src/models/order.py:46-51 | a buy's net exceeds its gross by the commission; a sell's falls short by it |
| Orders.BuyNetExceedsSellNet | src/models/order.py:42-51 | the same fill as a buy nets twice the commission more than as a sell, and buy net ≥ gross ≥ sell net |
| Accounts.MarketValue | src/models/account.py:10-11 | 0 for a flat position, non-negative at a non-negative price, and exactly the price per share held |
| Accounts.UnrealizedPnl | src/models/account.py:13-16 | 0 without shares; with shares it is positive exactly when the price is above the average cost, and 0 exactly when they are equal |
| Accounts.UnrealizedPnlIsValueOverCost | src/models/account.py:10-16 | for a valid position the paper gain is the market value less the value at average cost |
| Accounts.Account.constructor | src/models/account.py:19-29 | accepts capital > 0 and fee rate in [0, 0.01]; all the capital starts in cash, with no positions, frozen cash or commission |
| Accounts.Account.TotalValue | src/models/account.py:31-33 | the account's total value is its cash: positions are not counted |
| Accounts.Account.UpdateCash | src/models/account.py:35-36 | the cash moves by exactly the amount, and nothing else changes |
| Accounts.Account.GetPosition | src/models/account.py:38-41 | an existing position is returned unchanged; otherwise an empty one is inserted; every other entry is kept and only the symbol is added to the keys |
| Ledger.TruncBounds | src/core/engine.py:73 | `int()` drops the fractional part toward zero, within one unit of its argument |
| Ledger.BoardLotsQuantity | src/core/engine.py:95-107 | lots of whole board lots hold a multiple of 100 shares, which is 0 exactly when there are no lots |
| Ledger.AvgCostBlend | src/core/engine.py:193-197 | the recomputed average cost times the quantity is the cost of the lots; a flat holding has average cost 0 |
| Ledger.AvgCostRestoresInvariant | src/core/engine.py:180-181 | after a sell, recomputing the average cost re-establishes the ledger invariant, a flat holding included |
| Ledger.WholeLots | src/core/engine.py:74-75 | the rounded count is 0 or a positive multiple of 100 |
| Ledger.WholeLotsBounds | src/core/engine.py:74-75 | the rounding gives 0 exactly below one board lot, and otherwise the largest multiple of 100 within the count |
| Ledger.BuyQuantity | src/core/engine.py:73-75 | a buy asks for 0 shares or a positive multiple of 100 |
| Ledger.BuyQuantityBounds | src/core/engine.py:73-78 | the buy size is 0 exactly when less than one board lot is affordable after the haircut, else the largest multiple of 100 that is affordable |
| Ledger.SellQuantity | src/core/engine.py:117-120 | the sell size is at least one board lot or the whole holding; it never exceeds a holding; a partial sell is a multiple of 100 |
| Ledger.SellQuantityBounds | src/core/engine.py:117-120 | a partial sell is the requested fraction of the holding rounded down to whole board lots |
| Ledger.AddLot | src/core/engine.py:95-107 | the new lot joins the back of the queue and the quantity grows by its size |
| Ledger.AddLotValid | src/core/engine.py:95-107 | adding a lot of whole board lots keeps the ledger invariant and adds the lot's cost to the cost basis |
| Ledger.SellRecord | src/core/engine.py:151-166 | a record carries the lot's entry price and date, the sell's exit price and date, and the quantity drawn |
| Ledger.SellRecordFigures | src/core/engine.py:134-141 | a record's commission is the lot's entry commission plus the commission on the WHOLE sell quantity, and its pnl deducts both from the price difference |
| Ledger.FillRecords | src/core/engine.py:151-166 | one record per draw, in draw order, numbered consecutively |
| Ledger.ConsumeFifoUnfold | src/core/engine.py:130-174 | with shares still to sell, the oldest lot is drawn first, min(lot, remaining) shares, and its remainder, if any, is kept in front |
| Ledger.ConsumeFifoEmpty | src/core/engine.py:130-132 | with no lots or nothing left to sell, the loop emits nothing and keeps every lot |
| Ledger.SellLoopAdvance | src/core/engine.py:130-174 | one turn of the sell loop extends the draws and the kept lots toward the whole FIFO result |
| Ledger.SellLoopFinish | src/core/engine.py:130-174 | when the loop stops, the draws are all of them and the kept lots plus the unvisited ones are what remains |
| Ledger.FifoFillsTaken | src/core/engine.py:130-170 | drawing at most the holding from positive lots draws exactly the amount requested |
| Ledger.FillRecordsQuantity | src/core/engine.py:151-170 | the records sell what the draws take |
| Ledger.ConsumeFifoRecords | src/core/engine.py:130-174 | the records of a sell sum to the sell quantity and are numbered consecutively from the next id |
| Ledger.ConsumeFifoRest | src/core/engine.py:170-174 | the remaining lots are still whole board lots and hold exactly the shares not sold |
| Ledger.ConsumeFifoKeepsOrder | src/core/engine.py:172-174 | the remaining lots are the old ones with an exhausted prefix removed; the first survivor is the same lot (price, date, reason) with its quantity shrunk or kept, and later lots are untouched and in order |
| Ledger.ConsumeFifoCommissions | src/core/engine.py:135-162 | every record of a sell is priced at its exit price and charges the commission on the whole sell quantity |
| Ledger.LiquidationRecord | src/core/engine.py:211-235 | a liquidation record covers the whole lot from its own entry date and price to the liquidation date and price; its commission is the entry and exit commissions on the lot's quantity, its pnl the exit value less the entry value and that commission, and it is marked as closed by the end of the run |
| Ledger.LiquidationRecords | src/core/engine.py:211-235 | one liquidation record per lot, in lot order, numbered consecutively |
| Ledger.LiquidationRecordsQuantity | src/core/engine.py:211-237 | the liquidation records account for every share of the lots |
| Simulation.TradableIsExecutable | src/core/engine.py:71-73 | with a positive price and slippage in (-1, 1], the buy price is positive and the sell price non-negative |
| Simulation.BuyStep | src/core/engine.py:69-107 | a buy never touches the trade ledger and keeps the key order consistent with the table |
| Simulation.BuyOutcome | src/core/engine.py:73-107 | an unfilled buy changes nothing; a filled one buys a positive multiple of 100, pays price·q·(1+fee), adds exactly the commission, appends the lot and registers a new symbol last |
| Simulation.BuyUnaffordable | src/core/engine.py:80-84 | a buy whose cost with commission exceeds the cash changes nothing |
| Simulation.BuyFilled | src/core/engine.py:80-107 | a buy the cash covers debits the cost, books the commission and adds the lot |
| Simulation.BuyCostBelowCash | src/core/engine.py:73-84 | with a fee rate of at most 1%, the 5% haircut keeps the cost with commission strictly below the cash |
| Simulation.BuyKeepsCashPositive | src/core/engine.py:80-84 | a buy never spends all the cash and only adds commission |
| Simulation.BuyKeepsHoldingsValid | src/core/engine.py:95-107 | a buy keeps every holding's ledger invariant |
| Simulation.BuyKeepsSound | src/core/engine.py:69-107 | a buy keeps the run invariant |
| Simulation.SellStep | src/core/engine.py:109-191 | a sell of an unheld or flat symbol changes nothing; otherwise only that symbol's holding changes, the keys and their order are kept, and records are only appended |
| Simulation.SellFilled | src/core/engine.py:111-123 | a sell of a held symbol with a positive size goes through |
| Simulation.SellThroughWritten | src/core/engine.py:116-181 | the sell's new state, given the price, size, commission, records and remaining lots computed along the way |
| Simulation.SellAccounting | src/core/engine.py:116-181 | the sell size is a positive multiple of 100 within the holding; cash is credited once with price·q less one commission; the holding shrinks by q |
| Simulation.SellRecords | src/core/engine.py:130-174 | the appended records sum to the sell size, continue the numbering and charge the whole-sell commission; the lots are consumed oldest first |
| Simulation.SellKeepsCashPositive | src/core/engine.py:176-178 | a sell never lowers the cash or the commission total |
| Simulation.SellKeepsHoldingValid | src/core/engine.py:172-181 | a sell keeps the sold holding's ledger invariant |
| Simulation.SellKeepsSound | src/core/engine.py:109-191 | a sell keeps the run invariant |
| Simulation.ApplyDay | src/core/engine.py:49-53 | a day's signals keep the key order consistent with the table |
| Simulation.ApplySignalKeepsSound | src/core/engine.py:50-53 | a BUY, SELL or ignored HOLD keeps the run invariant |
| Simulation.ApplyDayKeepsSound | src/core/engine.py:49-53 | a whole day of signals keeps the run invariant |
| Simulation.DaySignals | src/core/engine.py:38-47 | a signal is among a date's signals exactly when it is in the list and carries that date; a date no signal carries has none |
| Simulation.DaySignalsAppend | src/core/engine.py:39-43 | the grouping keeps list order: the signals of a date in a concatenation are those of the first part followed by those of the second |
| Simulation.DaySignalsSingle | src/core/engine.py:39-43 | a one-signal list contributes that signal to its own date only |
| Simulation.PositionsValueIsOpenQuantity | src/core/engine.py:63-67 | the positions are valued as the total open quantity times the one price |
| Simulation.Simulate | src/core/engine.py:35-57 | the equity curve starts at the initial capital and has one more sample than bars replayed |
| Simulation.SimulateSound | src/core/engine.py:45-57 | over valid bars and tradable signals the invariant holds after every bar and every equity sample is positive |
| Simulation.SimulateLast | src/core/engine.py:45-57 | each bar applies its date's signals in list order to the previous state, then appends its equity sample |
| Simulation.SimulatePrefix | src/core/engine.py:45-57 | later bars only extend the equity curve |
| Simulation.EquitySample | src/core/engine.py:55-57 | sample k+1 is the equity after the first k+1 bars at bar k's close |
| Simulation.EquityIsOpenQuantity | src/core/engine.py:55-67 | the equity is the cash plus the open quantity times the close |
| Simulation.EquityPositive | src/core/engine.py:56 | under the run invariant the equity at a non-negative price is positive |
| Simulation.LiquidateSymbol | src/core/engine.py:199-240 | liquidation never touches cash, commission or the key order |
| Simulation.LiquidateAll | src/core/engine.py:199-240 | liquidation keeps cash, commission, keys and key order, and only appends records |
| Simulation.LiquidateAllEffect | src/core/engine.py:199-240 | exactly the listed holdings are emptied; the others are untouched |
| Simulation.LiquidateAllNext | src/core/engine.py:200 | liquidating one more symbol of the key list is one more single-symbol liquidation |
| Simulation.LiquidateSymbolCases | src/core/engine.py:200-240 | an open holding is emptied and its lots recorded; a flat one is left alone |
| Simulation.CloseAllEmpties | src/core/engine.py:239-240 | after the forced liquidation every holding has quantity 0 and no lots |
| Simulation.LiquidationQuantity | src/core/engine.py:211-240 | one holding's records cover its open quantity |
| Simulation.LiquidatedQuantity | src/core/engine.py:199-240 | the records a liquidation appends cover exactly the open quantity |
| Simulation.LiquidationIsBatch | src/core/engine.py:220-235 | one holding's records are numbered on and priced at the close less slippage |
| Simulation.LiquidationNumbering | src/core/engine.py:220-235 | every appended record continues the numbering, is priced at the close less slippage and is marked as closed by the end of the run |
| Simulation.CloseAllKeepsSound | src/core/engine.py:199-240 | the forced liquidation keeps the run invariant |
| Simulation.DateOr | src/core/engine.py:267-268 | the explicit date when given, else the bar's date |
| Simulation.ResultOf | src/core/engine.py:242-279 | the result carries the ledger and the curve; its final value is the last (pre-liquidation) sample; drawdown ≥ 0 and win rate in [0, 1] |
| Simulation.ResultOfFields | src/core/engine.py:242-279 | the result's identity, dates and capital come from the data and settings; the total return is (final − capital)/capital; the metrics and the top-level copies agree |
| Simulation.RunSpec | src/core/engine.py:27-61 | a run fails exactly when the account validator rejects the settings, or else exactly when the bar list is empty |
| Simulation.RunOutcome | src/core/engine.py:27-61 | a valid run has len(bars)+1 positive samples from the initial capital, its final value is the last one, its drawdown lies in [0, 1] and its trade ids are sequential |
| Simulation.RunEndsFlat | src/core/engine.py:199-240 | after a run every holding is flat with no lots, the invariant holds, and the end-of-run records cover the quantity open after the last bar |
| Engine.GroupByDate | src/core/engine.py:38-43 | each date maps to its signals in list order, and a date missing from the table has none |
| Engine.BacktestEngine.constructor | src/core/engine.py:12-25 | the settings are stored; there is no account and every ledger is empty |
| Engine.BacktestEngine.Run | src/core/engine.py:27-61 | the returned result or error is `RunSpec` of the settings, bars and signals; a rejected account changes nothing, an empty bar list leaves freshly reset ledgers, and after a successful run the engine's completed trades and curve are the result's, every holding is flat with no lots and the run invariant holds |
| Engine.BacktestEngine.Finish | src/core/engine.py:59-61 | after the bar loop, liquidation brings the engine to `FinalState` with every holding flat, and the result is assembled from the resulting ledgers and the unchanged curve |
| Engine.BacktestEngine.ReplayBars | src/core/engine.py:45-57 | from a fresh account, the bar loop leaves the state and the curve of `Simulate` over every bar |
| Engine.BacktestEngine.ReplayBar | src/core/engine.py:46-57 | one bar's lookup in the date table and its pass extend the simulation by that bar |
| Engine.BacktestEngine.StepBar | src/core/engine.py:49-57 | one bar applies its signals as `ApplyDay` and appends exactly the equity of the new state at the close |
| Engine.BacktestEngine.ExecuteDay | src/core/engine.py:49-53 | the signal loop for one bar performs `ApplyDay` |
| Engine.BacktestEngine.ExecuteBuy | src/core/engine.py:69-107 | the buy performs `BuyStep` on the account, table and key order, and leaves the curve alone |
| Engine.BacktestEngine.ExecuteSell | src/core/engine.py:109-191 | the sell performs `SellStep` on the account, table, lots and ledger, and leaves the curve alone |
| Engine.BacktestEngine.FillSell | src/core/engine.py:117-191 | a sell past its guards performs `SellThrough`: proceeds net of commission credited, lots consumed oldest first, average cost recomputed |
| Engine.BacktestEngine.SellLots | src/core/engine.py:125-174 | the lot loop appends exactly the FIFO records and returns exactly the remaining lots |
| Engine.BacktestEngine.SellFromLot | src/core/engine.py:134-174 | one turn of the lot loop records its draw and keeps the loop invariant |
| Engine.BacktestEngine.CalculatePositionsValue | src/core/engine.py:63-67 | the total is the table's open quantity valued at the price |
| Engine.BacktestEngine.CloseAllPositions | src/core/engine.py:199-240 | the liquidation loop performs `CloseAll` |
| Engine.BacktestEngine.CloseSymbol | src/core/engine.py:201-240 | one symbol's pass performs `LiquidateSymbol` |
| Engine.BacktestEngine.CloseLots | src/core/engine.py:211-237 | the inner loop appends exactly the liquidation records of the lots |
| Engine.BacktestEngine.CalculateReturns | src/core/engine.py:281-286 | the loop returns `Returns` of the equity curve |
| Engine.BacktestEngine.CalculateMaxDrawdown | src/core/engine.py:299-313 | the running-peak loop returns `MaxDrawdown` of the curve |
| Engine.BacktestEngine.BuildResult | src/core/engine.py:242-279 | the result is `ResultOf` of the ledger and the curve |
| Metrics.Returns | src/core/engine.py:281-286 | one period return per consecutive pair of samples, none for an empty curve |
| Metrics.ReturnLinksSample | src/core/engine.py:284 | sample k grown by return k gives sample k+1 |
| Metrics.CompoundRun | src/core/engine.py:281-286 | compounding the first n returns from the first sample gives sample n |
| Metrics.ReturnsCompound | src/core/engine.py:281-286 | compounding all period returns from the first sample gives back the last sample |
| Metrics.FlatCurveZeroReturns | src/core/engine.py:281-286 | a flat curve has only zero returns |
| Metrics.RiskMetrics | src/core/engine.py:288-297 | no returns give all zeros; otherwise the volatility is the given volatility function's; with no positive volatility the Sharpe ratio is 0 |
| Metrics.RiskMetricsScaling | src/core/engine.py:292-295 | the annual return is 252 times the mean period return; with positive volatility, Sharpe × volatility is the annual return |
| Metrics.SharpeSign | src/core/engine.py:295 | with positive volatility the Sharpe ratio has the sign of the annual return |
| Metrics.ConstantReturnsAnnualise | src/core/engine.py:292-293 | equal period returns annualise to 252 times their value |
| Metrics.Peak | src/core/engine.py:304-308 | the running peak is at least the first sample and sample i |
| Metrics.PeakIsMaximum | src/core/engine.py:304-308 | the running peak bounds every sample so far and is one of them |
| Metrics.MaxDrawdownIsMaximum | src/core/engine.py:299-313 | the maximum drawdown is ≥ 0, bounds every sample's drawdown, and is 0 or attained at some sample |
| Metrics.DrawdownAtMostOne | src/core/engine.py:299-313 | with no negative sample the drawdown is at most 100% |
| Metrics.NonDecreasingNoDrawdown | src/core/engine.py:299-313 | a curve that never falls has no drawdown |
| Metrics.DrawdownExample | src/core/engine.py:299-313 | 100000 → 110000 → 99000 → 105000 has a maximum drawdown of 0.1 |
| Metrics.Wins | src/core/engine.py:247 | there are never more wins than trades |
| Metrics.WinsCount | src/core/engine.py:247 | every trade wins exactly when the count is the number of trades, and none wins exactly when it is 0 |
| Metrics.WinRate | src/core/engine.py:247-248 | the win rate lies in [0, 1] and is 0 without trades |
| Metrics.WinRateExtremes | src/core/engine.py:247-248 | the win rate is 1 exactly when there are trades and every one made money, and 0 exactly when none did |
| Metrics.Profits | src/core/engine.py:316 | the winning pnls are all positive, there is one per winning trade, and every winning trade's pnl is among them |
| Metrics.Defeats | src/core/engine.py:317 | losing trades and winning trades together never outnumber the trades |
| Metrics.Losses | src/core/engine.py:317 | the absolute losing pnls are all positive, there is one per losing trade, and every losing trade's absolute pnl is among them |
| Metrics.ProfitLossRatioSpec | src/core/engine.py:315-322 | the ratio is never negative, is 0 without wins, and is the average win without losses |
| Metrics.ProfitLossRatioOverTrades | src/core/engine.py:315-322 | the ratio is 0 when no trade has a positive pnl, and the average winning pnl when some trade won and none lost |
| Metrics.NoDefeats | src/core/engine.py:317 | trades none of which lost have no losses |
| Metrics.ProfitLossRatioExample | src/core/engine.py:315-322 | winners of 100 and 200 with no loser give 150 |
| Rolling.RollingMean | src/strategy/ma_cross.py:34-35 | the trailing mean is defined exactly once `window` values are available |
| Rolling.RollingColumn | src/strategy/ma_cross.py:34-35 | the column has one entry per position, defined exactly from position window−1 on |
| Rolling.RollingColumnAt | src/strategy/ma_cross.py:34-35 | column entry k is the trailing mean ending at k |
| Rolling.RollingMeanTimesWindow | src/strategy/ma_cross.py:34-35 | a defined mean times the window is the sum over the window |
| Rolling.MeanOfConstant | src/strategy/ma_cross.py:34-35 | over equal values the defined mean is that value |
| Rolling.StepWindowMean | src/strategy/ma_cross.py:34-35 | over values that step from c1 to c2, the mean weighs each by its count in the window |
| Rolling.SumOfSpikes | src/strategy/rsi.py:41-42 | a window sum of values that are zero except at two positions is what those positions contribute |
| Rolling.SumZeroOnlyIfAllZero | src/strategy/rsi.py:41-42 | a window of non-negative values sums to 0 only when every value is 0 |
| Rolling.MeanNonNegative | src/strategy/rsi.py:41-42 | the mean of non-negative values is non-negative |
| MaCross.CrossSignal | src/strategy/ma_cross.py:47-64 | BUY exactly when short ≤ long before and short > long now; otherwise SELL exactly on the mirror crossing; never HOLD |
| MaCross.BarSignal | src/strategy/ma_cross.py:48-63 | a signal carries the data's symbol, the bar's close and date, and the position ratio as strength |
| MaCross.ShortMa | src/strategy/ma_cross.py:34 | one short-window mean entry per bar |
| MaCross.LongMa | src/strategy/ma_cross.py:35 | one long-window mean entry per bar |
| MaCross.MaColumnsAt | src/strategy/ma_cross.py:34-35 | both columns hold the trailing means of the closes ending at each bar |
| MaCross.MaStep | src/strategy/ma_cross.py:38-67 | a bar with either mean undefined is skipped and keeps the memory; otherwise both means are stored; nothing is emitted without a stored pair; an emitted signal is a bar signal, never HOLD |
| MaCross.MaGenerate | src/strategy/ma_cross.py:28-30 | fewer bars than the long window emit nothing and keep the memory |
| MaCross.MaScanNext | src/strategy/ma_cross.py:38-67 | the loop over one more bar follows the source's branches: skip, BUY, SELL or only a memory update |
| MaCross.MaStepCrossing | src/strategy/ma_cross.py:42-64 | with a stored pair and both means defined, BUY exactly on a golden cross and SELL exactly on a death cross of the rolling means |
| MaCross.MaScanFromBars | src/strategy/ma_cross.py:37-69 | each signal comes from its own bar, in strictly increasing bar order, with that bar's close and date, so a bar has at most one signal |
| MaCross.FreshSilentUntilDefined | src/strategy/ma_cross.py:25-42 | a fresh strategy emits nothing through the first bar with both means defined |
| MaCross.ConstantStepSilent | src/strategy/ma_cross.py:42-64 | with constant closes a bar emits nothing |
| MaCross.ConstantScanSilent | src/strategy/ma_cross.py:42-64 | with constant closes the loop emits nothing, whatever the memory |
| MaCross.ConstantPricesNoSignals | src/strategy/ma_cross.py:28-69 | constant closes yield no signals |
| MaCross.MaScanPrefix | src/strategy/ma_cross.py:37-69 | scanning more bars only appends signals |
| MaCross.StepSeriesMeans | tests/strategy/test_ma_cross.py:24-30 | the 5- and 10-bar means just before and after a step in the closes |
| MaCross.StepSeriesMemory | tests/strategy/test_ma_cross.py:24-30 | ten flat bars emit nothing and store the flat means |
| MaCross.StepUpGivesBuy | tests/strategy/test_ma_cross.py:24-30 | ten closes of 10.0 then ten of 10.5, windows 5 and 10, give a BUY |
| MaCross.StepDownGivesSell | tests/strategy/test_ma_cross.py:33-39 | ten closes of 10.5 then ten of 10.0, windows 5 and 10, give a SELL |
| MaCross.MACrossStrategy.constructor | src/strategy/ma_cross.py:8-26 | the name is "ma_cross", the parameters are stored and no previous means are stored |
| MaCross.MACrossStrategy.GenerateSignals | src/strategy/ma_cross.py:28-69 | the signals and the stored means are `MaGenerate` of the bars from the old stored means |
| Rsi.Gains | src/strategy/rsi.py:37-38 | one non-negative gain per bar, 0 at the first bar |
| Rsi.Losses | src/strategy/rsi.py:37-39 | one non-negative loss per bar, 0 at the first bar |
| Rsi.GainLossParts | src/strategy/rsi.py:37-39 | past the first bar the gain and loss are the positive and negative parts of the change: at most one is non-zero and their difference is the change |
| Rsi.RsiValue | src/strategy/rsi.py:44-45 | undefined exactly when there is neither gain nor loss; otherwise in [0, 100], and 100 with gains and no losses |
| Rsi.RsiValueShare | src/strategy/rsi.py:44-45 | with some loss the RSI is the gains' share of all movement, in percent |
| Rsi.RsiClosedForm | src/strategy/rsi.py:44-45 | 100 − 100/(1 + g/l) equals 100g/(g+l), which lies in [0, 100] |
| Rsi.RsiAt | src/strategy/rsi.py:41-46 | undefined until `period` bars exist; whenever defined it lies in [0, 100] |
| Rsi.RsiColumn | src/strategy/rsi.py:41-46 | one entry per bar, undefined before the period fills, within [0, 100] when defined |
| Rsi.RsiColumnAt | src/strategy/rsi.py:41-46 | column entry k is the RSI of the window ending at bar k |
| Rsi.RsiSeries | src/strategy/rsi.py:46 | one RSI entry per bar |
| Rsi.RsiSeriesAt | src/strategy/rsi.py:46 | entry i is the RSI at bar i |
| Rsi.RsiExtremes | src/strategy/rsi.py:44-45 | a window with gains and no losses has RSI 100, one with losses and no gains has RSI 0, and one with neither has no RSI |
| Rsi.ThresholdSignal | src/strategy/rsi.py:58-75 | BUY exactly when the RSI rises through oversold; otherwise SELL exactly when it falls through overbought; never HOLD |
| Rsi.BarSignal | src/strategy/rsi.py:59-74 | a signal carries the data's symbol, the bar's close and date, and the position ratio as strength |
| Rsi.RsiStep | src/strategy/rsi.py:49-77 | a bar without RSI is skipped and keeps the stored value; otherwise its RSI is stored; nothing is emitted without a stored value; an emitted signal is a bar signal, never HOLD |
| Rsi.RsiGenerate | src/strategy/rsi.py:31-32 | fewer bars than the period emit nothing and keep the stored RSI |
| Rsi.RsiScanNext | src/strategy/rsi.py:49-77 | the loop over one more bar follows the source's branches: skip, BUY, SELL or only a store |
| Rsi.RsiStepCrossing | src/strategy/rsi.py:55-75 | with a stored RSI, BUY exactly on an upward crossing of oversold and SELL exactly on a downward crossing of overbought that is not a BUY |
| Rsi.RsiScanFromBars | src/strategy/rsi.py:48-79 | each signal comes from its own bar, in strictly increasing bar order, with that bar's close and date |
| Rsi.FreshSilentUntilFirstRsi | src/strategy/rsi.py:28-55 | a fresh strategy emits nothing before it has stored an RSI, nor at the bar that first stores one |
| Rsi.FlatNoRsi | src/strategy/rsi.py:37-51 | constant closes have no gain and no loss, so the RSI is never defined |
| Rsi.FlatScanSilent | src/strategy/rsi.py:49-51 | with constant closes the loop emits nothing and leaves the stored RSI alone |
| Rsi.FlatPricesNoSignals | tests/strategy/test_rsi.py:50-55 | a flat price series yields no signals and no stored RSI change |
| Rsi.NoRsiScanSilent | src/strategy/rsi.py:49-51 | bars without an RSI are skipped: the loop over them emits nothing and keeps the stored value |
| Rsi.RsiScanPrefix | src/strategy/rsi.py:49-78 | scanning more bars only appends signals |
| Rsi.ReboundMoves | tests/strategy/test_rsi.py:24-39 | the test series moves only at bar 20 and at bar 25, by the size of the excursion |
| Rsi.ReboundRsi | tests/strategy/test_rsi.py:24-39 | with period 14 the RSI is undefined on the flat start, 0 after the fall or 100 after the rise, and 50 on the bar the closes return |
| Rsi.ReboundScanBeforeTurn | tests/strategy/test_rsi.py:24-39 | before bar 25 nothing is emitted, and the stored RSI is 0 after the fall or 100 after the rise |
| Rsi.ReboundFirstSignal | tests/strategy/test_rsi.py:24-39 | the first signal is emitted at bar 25: a BUY after the dip, a SELL after the rise |
| Rsi.DipThenReboundGivesBuy | tests/strategy/test_rsi.py:24-30 | reproduces test_rsi_oversold_golden_cross: the dip and rebound yields a BUY |
| Rsi.RiseThenPullbackGivesSell | tests/strategy/test_rsi.py:33-39 | reproduces test_rsi_overbought_death_cross: the rise and pullback yields a SELL |
| Rsi.RSIStrategy.constructor | src/strategy/rsi.py:8-28 | the name is "rsi", the parameters are stored and no previous RSI is stored |
| Rsi.RSIStrategy.GenerateSignals | src/strategy/rsi.py:30-79 | the signals and the stored RSI are `RsiGenerate` of the bars from the old stored RSI |

## Left out

- Strategy call inside `run`: `BacktestEngine.Run` takes the strategy's signals and name
  as parameters instead of calling `generate_signals` (src/core/engine.py:37). Both
  strategy classes are modelled on their own.
- Volatility: `np.std(returns) * sqrt(252)` is a floating-point computation. It is a
  function parameter `volatilityOf`, and only the mean part and the zero guards of
  `_calculate_risk_metrics` are modelled.
- Rounding: `round()` of a record's pnl, pnl rate and commission (src/core/engine.py:159-162,
  228-231) is not modelled; records hold the exact values. Floats are modelled as exact
  reals throughout. Because the source counts wins and losses on the rounded pnl
  (src/core/engine.py:247, 316-317), a trade whose exact pnl lies strictly between -0.005
  and 0.005 is neither a win nor a loss there, while the model counts it as one or the
  other by the sign of its exact pnl.
- Reason strings: the reason and `position_decision` texts, and the stamping of
  `position_decision` on the remaining lots (src/core/engine.py:144-149, 183-191, 205-209),
  are not formatted. A record's reason is a `CloseReason` tag holding the signal's and the
  lot's own reasons, or `EndOfRun`. A holding's `reason` and `position_ratio` fields are
  dropped because the engine never reads them. The strategies' own reason texts, which
  format the moving averages (src/strategy/ma_cross.py:54, 63) and the RSI value with its
  level (src/strategy/rsi.py:65, 74), are likewise the fixed tags of `MaCross.CrossReason`
  and `Rsi.ThresholdReason`.
- Dates: ISO date strings and the date-keyed dictionary are day numbers and a `map<int, …>`.
- Record fields: the `position_ratio` and `avg_cost` arguments the engine passes to
  `TradeRecord` are dropped, because `TradeRecord` (src/models/result.py) declares neither.
- Unused state: the engine's `trades` list, `Account.positions` and `frozen_cash`, which
  the engine never uses.
- pandas: only the trailing `rolling(window).mean()`, the `diff`/`where` gain and loss
  columns, and NaN (as `None`) are modelled.
- Lot updates in place: `Engine.BacktestEngine.SellLots` builds the list of remaining lots
  instead of mutating the entry dictionaries inside `open_trades` in place. The resulting
  values are the same; aliasing between the iterated copy and the table is not modelled.
- Error paths: a zero signal price raises `ZeroDivisionError` at src/core/engine.py:73, and
  a zero equity sample would do the same at src/core/engine.py:284. These are not modelled
  as errors.
- Simulation.RunSpec: requires every signal to have a positive price and the slippage to
  lie in (-1, 1]. The source checks neither; they are what keeps cash positive and the
  returns defined. The other part of `Tradable`, a strength in [0, 1], is not an added
  restriction: the `Signal` model validates it on construction (src/strategy/base.py:20).
- Engine.BacktestEngine.Run: requires the same positive prices and slippage bound, for the
  same reason; the strength bound is again the `Signal` validator's own.
- Metrics.RiskMetrics: the volatility is whatever `volatilityOf` returns, so the model
  proves nothing about it being non-negative.
- Strategy validation: `validate_params` of src/strategy/base.py always returns true, so it
  has no counterpart. Parameters outside `ValidParams` (a window of 0, a position ratio
  outside [0, 1]) are excluded by the strategy constructors' preconditions. In the source,
  such a ratio would make `Signal` validation fail on the first emitted signal.
- HTTP API, data provider and front end (src/api, src/main.py, src/data, frontend) are not
  part of this model.
