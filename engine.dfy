/** `BacktestEngine` of src/core/engine.py as a class whose methods update its fields in
    place, each proved to perform the matching state change of the Simulation module. */
module Engine {
  import opened Wrappers
  import opened Ohlcv
  import opened Signals
  import opened Results
  import opened Ledger
  import opened Metrics
  import opened Simulation
  import Accounts

  /** The `signals_by_date` table of `run`: each date maps to its signals in list order,
      and a date without an entry has none. */
  method GroupByDate(signals: seq<Signal>) returns (byDate: map<int, seq<Signal>>)
    ensures forall d :: d in byDate ==> byDate[d] == DaySignals(signals, d)
    ensures forall d :: d !in byDate ==> DaySignals(signals, d) == []
  {
    byDate := map[];
    var i := 0;
    while i < |signals|
      invariant 0 <= i <= |signals|
      invariant forall d :: d in byDate ==> byDate[d] == DaySignals(signals[..i], d)
      invariant forall d :: d !in byDate ==> DaySignals(signals[..i], d) == []
    {
      var signal := signals[i];
      var dateKey := signal.timestamp;
      if dateKey !in byDate {
        byDate := byDate[dateKey := []];
      }
      byDate := byDate[dateKey := byDate[dateKey] + [signal]];
      assert signals[..i + 1][..i] == signals[..i];
      i := i + 1;
    }
    assert signals[..i] == signals;
  }

  class BacktestEngine {
    const initialCapital: real
    const feeRate: real
    const slippage: real
    var account: Accounts.Account?
    var equityCurve: seq<real>
    var completedTrades: seq<TradeRecord>
    /** `open_trades`: the holding of each symbol ... */
    var openTrades: map<string, Holding>
    /** ... and the order in which its keys were inserted. */
    var symbols: seq<string>

    /** The defaults of the source are 100000, 0.0003 and 0; no account exists yet. */
    constructor (initialCapital: real, feeRate: real, slippage: real)
      ensures this.initialCapital == initialCapital && this.feeRate == feeRate
      ensures this.slippage == slippage
      ensures account == null && equityCurve == [] && completedTrades == []
      ensures openTrades == map[] && symbols == []
    {
      this.initialCapital := initialCapital;
      this.feeRate := feeRate;
      this.slippage := slippage;
      account := null;
      equityCurve := [];
      completedTrades := [];
      openTrades := map[];
      symbols := [];
    }

    /** The insertion order lists every key of `open_trades` once. */
    predicate Valid()
      reads this
    {
      KeysMatch(symbols, openTrades)
    }

    function Settings(): Config {
      Config(initialCapital, feeRate, slippage)
    }

    /** The part of the engine and its account that a run changes. */
    function State(): EngineState
      reads this, account
      requires account != null
    {
      EngineState(account.cash, account.totalCommission, symbols, openTrades, completedTrades)
    }

    /** `run`: a fresh account and empty ledgers, the signals grouped by date, then for
        each bar its day's signals in list order and one equity sample at the close;
        finally every holding is liquidated at the last bar and the result is built. The
        account validator rejects a bad capital or fee rate before anything else, and an
        empty bar list fails when the last bar is looked up. */
    method Run(data: BarData, signals: seq<Signal>, strategyName: string, volatilityOf: seq<real> -> real)
      returns (r: Result<BacktestResult, RunError>)
      requires ValidBarData(data) && -1.0 < slippage <= 1.0
      requires forall sig :: sig in signals ==> Tradable(sig)
      modifies this
      ensures r == RunSpec(Settings(), data, signals, strategyName, volatilityOf)
      ensures r == Err(InvalidAccount) ==>
                account == old(account) && symbols == old(symbols) && openTrades == old(openTrades)
                && completedTrades == old(completedTrades) && equityCurve == old(equityCurve)
      ensures r == Err(NoBars) ==>
                symbols == [] && openTrades == map[] && completedTrades == [] && equityCurve == [initialCapital]
      ensures r.Ok? ==> completedTrades == r.value.trades && equityCurve == r.value.equityCurve
      ensures r.Ok? ==> account != null && Sound(State())
      ensures r.Ok? ==> forall s :: s in openTrades ==> openTrades[s].quantity == 0 && openTrades[s].entries == []
    {
      if !Accounts.ValidAccountConfig(initialCapital, feeRate) {
        return Err(InvalidAccount);
      }
      account := new Accounts.Account(initialCapital, feeRate);
      completedTrades := [];
      openTrades := map[];
      symbols := [];
      equityCurve := [initialCapital];
      AllExecutable(signals, Settings());
      ReplayBars(data.bars, signals);
      if |data.bars| == 0 {
        return Err(NoBars);
      }
      var result := Finish(data, signals, strategyName, volatilityOf);
      return Ok(result);
    }

    /** The end of `run` after the bar loop: every open position is liquidated at the last
        close and the result is assembled from the ledgers and the curve. */
    method Finish(data: BarData, signals: seq<Signal>, strategyName: string, volatilityOf: seq<real> -> real)
      returns (result: BacktestResult)
      requires ValidConfig(Settings()) && ValidBarData(data) && |data.bars| > 0
      requires forall sig :: sig in signals ==> Tradable(sig) && Executable(sig, Settings())
      requires account != null && Valid()
      requires (State(), equityCurve) == Simulate(Settings(), data.bars, signals, |data.bars|)
      modifies this`openTrades, this`completedTrades
      ensures State() == FinalState(Settings(), data.bars, signals) && Sound(State())
      ensures forall s :: s in openTrades ==> openTrades[s].quantity == 0 && openTrades[s].entries == []
      ensures |equityCurve| > 0 && equityCurve[0] > 0.0 && NoZeroDivisor(equityCurve)
      ensures result == ResultOf(Settings(), data, strategyName, completedTrades, equityCurve, volatilityOf)
    {
      SimulateSound(Settings(), data.bars, signals, |data.bars|);
      PositiveNoZeroDivisor(equityCurve);
      CloseAllPositions(data.bars[|data.bars| - 1]);
      RunEndsFlat(Settings(), data.bars, signals);
      result := BuildResult(data, strategyName, volatilityOf);
    }

    /** The grouping of the signals by date and the bar loop of `run`, from a fresh
        account and empty ledgers. */
    method ReplayBars(bars: seq<Bar>, signals: seq<Signal>)
      requires account != null && State() == Initial(Settings()) && equityCurve == [initialCapital]
      requires forall sig :: sig in signals ==> Executable(sig, Settings())
      modifies this, account`cash, account`totalCommission
      ensures account == old(account) && Valid()
      ensures (State(), equityCurve) == Simulate(Settings(), bars, signals, |bars|)
    {
      var byDate := GroupByDate(signals);
      var i := 0;
      while i < |bars|
        invariant 0 <= i <= |bars|
        invariant account == old(account) && Valid()
        invariant (State(), equityCurve) == Simulate(Settings(), bars, signals, i)
      {
        ReplayBar(bars, signals, byDate, i);
        i := i + 1;
      }
    }

    /** The bar at index `i`: its signals looked up in the table, then one pass of the
        bar loop, which extends the replay of the first `i` bars by one. */
    method ReplayBar(bars: seq<Bar>, signals: seq<Signal>, byDate: map<int, seq<Signal>>, i: nat)
      requires i < |bars| && account != null && Valid()
      requires forall sig :: sig in signals ==> Executable(sig, Settings())
      requires forall d :: d in byDate ==> byDate[d] == DaySignals(signals, d)
      requires forall d :: d !in byDate ==> DaySignals(signals, d) == []
      requires (State(), equityCurve) == Simulate(Settings(), bars, signals, i)
      modifies this, account`cash, account`totalCommission
      ensures account == old(account) && Valid()
      ensures (State(), equityCurve) == Simulate(Settings(), bars, signals, i + 1)
    {
      var bar := bars[i];
      var daySignals := if bar.tradeDate in byDate then byDate[bar.tradeDate] else [];
      assert daySignals == DaySignals(signals, bar.tradeDate);
      SimulateLast(Settings(), bars, signals, i + 1);
      StepBar(bar, daySignals);
    }

    /** One pass of the bar loop of `run`: the day's signals, then one equity sample, the
        cash plus the open positions at the bar's close. */
    method StepBar(bar: Bar, daySignals: seq<Signal>)
      requires account != null && Valid()
      requires forall sig :: sig in daySignals ==> Executable(sig, Settings())
      modifies this, account`cash, account`totalCommission
      ensures account == old(account) && Valid()
      ensures State() == ApplyDay(old(State()), bar, daySignals, Settings())
      ensures equityCurve == old(equityCurve) + [Equity(State(), bar.closePrice)]
    {
      ExecuteDay(bar, daySignals);
      var positionsValue := CalculatePositionsValue(bar.closePrice);
      equityCurve := equityCurve + [account.cash + positionsValue];
    }

    /** The signal loop of `run` for one bar: buys and sells in list order; any other
        signal is passed over. */
    method ExecuteDay(bar: Bar, sigs: seq<Signal>)
      requires account != null && forall sig :: sig in sigs ==> Executable(sig, Settings())
      modifies this, account`cash, account`totalCommission
      ensures account == old(account) && equityCurve == old(equityCurve)
      ensures State() == ApplyDay(old(State()), bar, sigs, Settings())
    {
      var j := 0;
      while j < |sigs|
        invariant 0 <= j <= |sigs|
        invariant account == old(account) && equityCurve == old(equityCurve)
        invariant State() == ApplyDay(old(State()), bar, sigs[..j], Settings())
      {
        var signal := sigs[j];
        assert signal in sigs && sigs[..j + 1][..j] == sigs[..j];
        if signal.signalType == SignalType.Buy {
          ExecuteBuy(bar, signal);
        } else if signal.signalType == SignalType.Sell {
          ExecuteSell(bar, signal);
        }
        j := j + 1;
      }
      assert sigs[..j] == sigs;
    }

    /** `_execute_buy`. */
    method ExecuteBuy(bar: Bar, signal: Signal)
      requires account != null && BuyPrice(signal, Settings()) != 0.0
      modifies this, account`cash, account`totalCommission
      ensures account == old(account) && equityCurve == old(equityCurve)
      ensures State() == BuyStep(old(State()), bar, signal, Settings())
    {
      var symbol := signal.symbol;
      var price := BuyPrice(signal, Settings());
      var quantity := BuyQuantity(account.cash, price, signal.strength);
      if quantity <= 0 {
        return;
      }
      var commission := price * quantity as real * feeRate;
      var totalCost := price * quantity as real + commission;
      if account.cash < totalCost {
        BuyUnaffordable(old(State()), bar, signal, Settings(), price, quantity, totalCost);
        return;
      }
      BuyFilled(old(State()), bar, signal, Settings(), price, quantity, commission, totalCost);
      account.cash := account.cash - totalCost;
      account.totalCommission := account.totalCommission + commission;
      // A symbol bought for the first time gets an empty holding, inserted last.
      var pos := EmptyHolding;
      if symbol in openTrades {
        pos := openTrades[symbol];
      } else {
        symbols := symbols + [symbol];
      }
      // The lot is appended and the average cost blended in by `AddLot`.
      openTrades := openTrades[symbol := AddLot(pos, Lot(price, quantity, bar.tradeDate, signal.reason))];
    }

    /** `_execute_sell`. */
    method ExecuteSell(bar: Bar, signal: Signal)
      requires account != null
      modifies this, account`cash, account`totalCommission
      ensures account == old(account) && equityCurve == old(equityCurve)
      ensures State() == SellStep(old(State()), bar, signal, Settings())
    {
      var symbol := signal.symbol;
      if symbol !in openTrades || openTrades[symbol].quantity == 0 {
        return;
      }
      var sellQuantity := SellQuantity(openTrades[symbol].quantity, signal.strength);
      if sellQuantity <= 0 {
        return;
      }
      SellFilled(State(), bar, signal, Settings());
      FillSell(bar, signal, sellQuantity);
    }

    /** The part of `_execute_sell` past its guards: the account is credited, the lots are
        consumed oldest first and the holding keeps what is left of them. */
    method FillSell(bar: Bar, signal: Signal, sellQuantity: int)
      requires account != null && signal.symbol in openTrades
      requires sellQuantity == SellQuantity(openTrades[signal.symbol].quantity, signal.strength)
      modifies this`openTrades, this`completedTrades, account`cash, account`totalCommission
      ensures State() == SellThrough(old(State()), bar, signal, Settings())
    {
      var symbol := signal.symbol;
      ghost var st := State();
      var pos := openTrades[symbol];
      var price := SellPrice(signal.price, Settings());
      var ctx := SellContext(symbol, bar.tradeDate, price, sellQuantity, feeRate, signal.reason);
      ghost var consumed := ConsumeFifo(pos.entries, sellQuantity, |st.completed| + 1, ctx);
      var entries := SellLots(pos.entries, ctx);
      var commission := price * sellQuantity as real * feeRate;
      account.cash := account.cash + (price * sellQuantity as real - commission);
      account.totalCommission := account.totalCommission + commission;
      var reduced := Holding(pos.quantity - sellQuantity, pos.avgCost, entries);
      openTrades := openTrades[symbol := reduced.(avgCost := AvgCost(reduced))];
      SellThroughWritten(st, bar, signal, Settings(), price, sellQuantity, commission, consumed.0, consumed.1);
    }

    /** The loop of `_execute_sell` over the lots, oldest first: one record per lot it
        draws from, appended to the completed trades, and the lots that remain. */
    method SellLots(lots: seq<Lot>, ctx: SellContext) returns (entries: seq<Lot>)
      modifies this`completedTrades
      ensures var r := ConsumeFifo(lots, ctx.sellQuantity, |old(completedTrades)| + 1, ctx);
              completedTrades == old(completedTrades) + r.0 && entries == r.1
    {
      ghost var firstId := |completedTrades| + 1;
      ghost var whole := FifoFills(lots, ctx.sellQuantity);
      ghost var fills: seq<Fill> := [];
      var kept: seq<Lot> := [];
      var remaining := ctx.sellQuantity;
      var i := 0;
      SellLoopStart(lots, remaining);
      while i < |lots| && remaining > 0
        invariant completedTrades == old(completedTrades) + FillRecords(fills, firstId, ctx)
        invariant SellLoop(lots, i, remaining, fills, kept, whole)
      {
        remaining, fills, kept := SellFromLot(lots, i, remaining, ctx, old(completedTrades), firstId,
                                              fills, kept, whole);
        i := i + 1;
      }
      SellLoopFinish(lots, i, remaining, fills, kept, whole);
      entries := kept + lots[i..];
    }

    /** One turn of the sell loop: draws what it can from lot `i`, records the draw and
        keeps what is left of the lot. */
    method SellFromLot(lots: seq<Lot>, i: nat, remaining: int, ctx: SellContext,
                       ghost base: seq<TradeRecord>, ghost firstId: nat, ghost fills: seq<Fill>,
                       kept: seq<Lot>, ghost whole: (seq<Fill>, seq<Lot>))
      returns (nextRemaining: int, ghost nextFills: seq<Fill>, nextKept: seq<Lot>)
      requires i < |lots| && remaining > 0 && firstId == |base| + 1
      requires completedTrades == base + FillRecords(fills, firstId, ctx)
      requires SellLoop(lots, i, remaining, fills, kept, whole)
      modifies this`completedTrades
      ensures completedTrades == base + FillRecords(nextFills, firstId, ctx)
      ensures SellLoop(lots, i + 1, nextRemaining, nextFills, nextKept, whole)
    {
      var entry := lots[i];
      var entryQuantity := Min(entry.quantity, remaining);
      SellLoopAdvance(lots, i, remaining, fills, kept, whole);
      FillRecordsSnoc(fills, Fill(entry, entryQuantity), firstId, ctx);
      assert |completedTrades| + 1 == firstId + |fills|;
      var record := SellRecord(|completedTrades| + 1, ctx, entry, entryQuantity);
      assert completedTrades + [record] == base + (FillRecords(fills, firstId, ctx) + [record]);
      completedTrades := completedTrades + [record];
      nextFills := fills + [Fill(entry, entryQuantity)];
      nextRemaining := remaining - entryQuantity;
      // A lot sold out is dropped; a lot partly sold is kept with what is left of it.
      var left := entry.quantity - entryQuantity;
      nextKept := if left > 0 then kept + [entry.(quantity := left)] else kept;
    }

    /** `_calculate_positions_value`: the quantity of every open holding at one price,
        summed in the table's key order. */
    method CalculatePositionsValue(currentPrice: real) returns (total: real)
      requires Valid()
      ensures total == PositionsValue(symbols, openTrades, currentPrice)
    {
      total := 0.0;
      var i := 0;
      while i < |symbols|
        invariant 0 <= i <= |symbols|
        invariant total == PositionsValue(symbols[..i], openTrades, currentPrice)
      {
        var pos := openTrades[symbols[i]];
        assert symbols[..i + 1][..i] == symbols[..i];
        total := total + pos.quantity as real * currentPrice;
        i := i + 1;
      }
      assert symbols[..i] == symbols;
    }

    /** `_close_all_positions`: every open holding, in key order, is sold lot by lot at
        the bar's close less slippage, one record per lot, and is left empty. */
    method CloseAllPositions(bar: Bar)
      requires account != null && Valid()
      modifies this`openTrades, this`completedTrades
      ensures State() == CloseAll(old(State()), bar, Settings())
    {
      ghost var st0 := State();
      var i := 0;
      while i < |symbols|
        invariant 0 <= i <= |symbols|
        invariant State() == LiquidateAll(st0, symbols[..i], bar, Settings())
      {
        LiquidateAllNext(st0, symbols, i, bar, Settings());
        CloseSymbol(symbols[i], bar);
        i := i + 1;
      }
      assert symbols[..i] == symbols;
    }

    /** One pass of the loop of `_close_all_positions`: a holding with shares is sold at
        the bar's close less slippage, one record per lot, and emptied; any other holding
        is left as it is. */
    method CloseSymbol(symbol: string, bar: Bar)
      requires account != null && symbol in openTrades
      modifies this`openTrades, this`completedTrades
      ensures State() == LiquidateSymbol(old(State()), symbol, bar, Settings())
    {
      LiquidateSymbolCases(State(), symbol, bar, Settings());
      var pos := openTrades[symbol];
      if pos.quantity > 0 {
        var price := SellPrice(bar.closePrice, Settings());
        CloseLots(symbol, pos.entries, bar.tradeDate, price);
        openTrades := openTrades[symbol := pos.(quantity := 0, entries := [])];
      }
    }

    /** The inner loop of `_close_all_positions`: one record per lot, oldest first,
        numbered on from the ledger. */
    method CloseLots(symbol: string, lots: seq<Lot>, exitDate: int, price: real)
      modifies this`completedTrades
      ensures completedTrades
              == old(completedTrades)
                 + LiquidationRecords(lots, |old(completedTrades)| + 1, symbol, exitDate, price, feeRate)
    {
      ghost var c0 := completedTrades;
      ghost var spec := LiquidationRecords(lots, |c0| + 1, symbol, exitDate, price, feeRate);
      var j := 0;
      while j < |lots|
        invariant 0 <= j <= |lots|
        invariant completedTrades == c0 + spec[..j]
      {
        var record := LiquidationRecord(|completedTrades| + 1, symbol, exitDate, price, feeRate, lots[j]);
        assert spec[..j + 1] == spec[..j] + [record];
        completedTrades := completedTrades + [record];
        j := j + 1;
      }
      assert spec[..j] == spec;
    }

    /** `_calculate_returns`: one relative change per pair of consecutive samples. */
    method CalculateReturns() returns (periodReturns: seq<real>)
      requires NoZeroDivisor(equityCurve)
      ensures periodReturns == Returns(equityCurve)
    {
      ghost var spec := Returns(equityCurve);
      periodReturns := [];
      var i := 1;
      while i < |equityCurve|
        invariant 1 <= i <= |equityCurve| || (|equityCurve| == 0 && i == 1)
        invariant periodReturns == spec[..i - 1]
      {
        var ret := (equityCurve[i] - equityCurve[i - 1]) / equityCurve[i - 1];
        assert spec[..i] == spec[..i - 1] + [ret];
        periodReturns := periodReturns + [ret];
        i := i + 1;
      }
      assert spec[..|spec|] == spec;
    }

    /** `_calculate_max_drawdown`: a running peak and the largest fall from it. */
    method CalculateMaxDrawdown() returns (maxDrawdown: real)
      requires |equityCurve| > 0 ==> equityCurve[0] > 0.0
      ensures maxDrawdown == MaxDrawdown(equityCurve)
    {
      if |equityCurve| == 0 {
        return 0.0;
      }
      maxDrawdown := 0.0;
      var peak := equityCurve[0];
      var i := 0;
      while i < |equityCurve|
        invariant 0 <= i <= |equityCurve|
        invariant peak == Peak(equityCurve, if i == 0 then 0 else i - 1)
        invariant maxDrawdown == MaxDrawdownUpTo(equityCurve, i)
      {
        var value := equityCurve[i];
        if value > peak {
          peak := value;
        }
        assert peak == Peak(equityCurve, i) && peak >= equityCurve[0] > 0.0;
        var drawdown := (peak - value) / peak;
        if drawdown > maxDrawdown {
          maxDrawdown := drawdown;
        }
        i := i + 1;
      }
    }

    /** `_build_result`: the figures of the run from the ledger and the equity curve. */
    method BuildResult(data: BarData, strategyName: string, volatilityOf: seq<real> -> real)
      returns (result: BacktestResult)
      requires |data.bars| > 0 && initialCapital != 0.0
      requires |equityCurve| > 0 && equityCurve[0] > 0.0 && NoZeroDivisor(equityCurve)
      ensures result == ResultOf(Settings(), data, strategyName, completedTrades, equityCurve, volatilityOf)
    {
      var finalValue := equityCurve[|equityCurve| - 1];
      var totalReturn := (finalValue - initialCapital) / initialCapital;
      var trades := completedTrades;
      var winRate := WinRate(trades);
      var periodReturns := CalculateReturns();
      var risk := RiskMetrics(periodReturns, volatilityOf);
      var maxDrawdown := CalculateMaxDrawdown();
      var metrics := PerformanceMetrics(totalReturn, risk.annualReturn, risk.volatility, risk.sharpe,
                                        maxDrawdown, winRate, ProfitLossRatio(trades));
      result := BacktestResult(data.symbol, strategyName,
                               DateOr(data.startDate, data.bars[0].tradeDate),
                               DateOr(data.endDate, data.bars[|data.bars| - 1].tradeDate),
                               initialCapital, finalValue, totalReturn, metrics, |trades|,
                               winRate, risk.sharpe, maxDrawdown, trades, equityCurve);
    }
  }
}
