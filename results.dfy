/** Output records of a backtest (src/models/result.py). */
module Results {
  import opened Wrappers

  datatype PerformanceMetrics = PerformanceMetrics(
    returnRate: real,
    annualReturn: real,
    volatility: real,
    sharpeRatio: real,
    maxDrawdown: real,
    winRate: real,
    profitLossRatio: real)

  /** What closed a lot: a sell signal (with the signal's and the lot's own reasons, from
      which the source formats its text) or the liquidation at the end of the run. */
  datatype CloseReason =
    | SignalExit(signalReason: Option<string>, lotReason: Option<string>)
    | EndOfRun

  /** One closed (part of a) lot. `tradeId` n stands for the identifier "t" + n. */
  datatype TradeRecord = TradeRecord(
    tradeId: nat,
    symbol: string,
    entryDate: int,
    entryPrice: real,
    exitDate: int,
    exitPrice: real,
    quantity: int,
    pnl: real,
    pnlRate: real,
    side: string,
    commission: real,
    reason: CloseReason)

  datatype BacktestResult = BacktestResult(
    symbol: string,
    strategyName: string,
    startDate: int,
    endDate: int,
    initialCapital: real,
    finalValue: real,
    totalReturn: real,
    metrics: PerformanceMetrics,
    totalTrades: nat,
    winRate: real,
    sharpeRatio: real,
    maxDrawdown: real,
    trades: seq<TradeRecord>,
    equityCurve: seq<real>)
}
