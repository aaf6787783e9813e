/** The state changes of `BacktestEngine` in src/core/engine.py, as functions on values:
    the engine class in engine.dfy is proved to perform exactly these. */
module Simulation {
  import opened Wrappers
  import opened Ohlcv
  import opened Signals
  import opened Results
  import opened Ledger
  import opened Metrics
  import Accounts

  /** The engine's constructor arguments. */
  datatype Config = Config(initialCapital: real, feeRate: real, slippage: real)

  /** What a run changes: the account's cash and commission, the `open_trades` table with
      its key order, and the closed-trade ledger. */
  datatype EngineState = EngineState(
    cash: real,
    totalCommission: real,
    symbols: seq<string>,
    book: map<string, Holding>,
    completed: seq<TradeRecord>)

  datatype RunError =
    /** The account validator rejects the capital or the fee rate. */
    | InvalidAccount
    /** `data.bars[-1]` on an empty bar list. */
    | NoBars

  function Initial(cfg: Config): EngineState {
    EngineState(cfg.initialCapital, 0.0, [], map[], [])
  }

  predicate Distinct(xs: seq<string>) {
    forall i, j :: 0 <= i < j < |xs| ==> xs[i] != xs[j]
  }

  /** `symbols` lists the keys of `book` once each, in insertion order. */
  predicate KeysMatch(symbols: seq<string>, book: map<string, Holding>) {
    && Distinct(symbols)
    && (forall s :: s in book ==> s in symbols)
    && (forall s :: s in symbols ==> s in book)
  }

  /** Trade identifiers run 1, 2, ... in ledger order. */
  predicate SequentialIds(recs: seq<TradeRecord>) {
    forall k :: 0 <= k < |recs| ==> recs[k].tradeId == k + 1
  }

  /** The invariant of a run: cash stays positive, commission non-negative, the table's
      keys and order agree, every holding satisfies the ledger invariant, and the trade
      identifiers are sequential. */
  predicate Sound(st: EngineState) {
    && st.cash > 0.0
    && st.totalCommission >= 0.0
    && KeysMatch(st.symbols, st.book)
    && (forall s :: s in st.book ==> ValidHolding(st.book[s]))
    && SequentialIds(st.completed)
  }

  /** Accepted engine settings: a valid account and a slippage in (-1, 1]. */
  predicate ValidConfig(cfg: Config) {
    Accounts.ValidAccountConfig(cfg.initialCapital, cfg.feeRate) && -1.0 < cfg.slippage <= 1.0
  }

  /** A signal the engine can act on: a valid strength and a positive reference price. */
  predicate Tradable(sig: Signal) {
    ValidSignal(sig) && sig.price > 0.0
  }

  function BuyPrice(sig: Signal, cfg: Config): real {
    sig.price * (1.0 + cfg.slippage)
  }

  function SellPrice(price: real, cfg: Config): real {
    price * (1.0 - cfg.slippage)
  }

  /** A buy divides by its effective price. */
  predicate Executable(sig: Signal, cfg: Config) {
    sig.signalType == SignalType.Buy ==> BuyPrice(sig, cfg) != 0.0
  }

  lemma TradableIsExecutable(sig: Signal, cfg: Config)
    requires Tradable(sig) && -1.0 < cfg.slippage <= 1.0
    ensures BuyPrice(sig, cfg) > 0.0 && SellPrice(sig.price, cfg) >= 0.0
    ensures Executable(sig, cfg)
  {
    assert 1.0 + cfg.slippage > 0.0;
    MulPositive(sig.price, 1.0 + cfg.slippage);
    assert BuyPrice(sig, cfg) == sig.price * (1.0 + cfg.slippage);
    MulNonNegative(sig.price, 1.0 - cfg.slippage);
  }

  lemma MulPositive(a: real, b: real)
    requires a > 0.0 && b > 0.0
    ensures a * b > 0.0
  {
  }

  lemma MulNonNegative(a: real, b: real)
    requires a >= 0.0 && b >= 0.0
    ensures a * b >= 0.0
  {
  }

  /** The size a buy asks for and whether the cash covers it with commission. */
  function BuyFills(st: EngineState, sig: Signal, cfg: Config): bool
    requires BuyPrice(sig, cfg) != 0.0
  {
    var price := BuyPrice(sig, cfg);
    var quantity := BuyQuantity(st.cash, price, sig.strength);
    quantity > 0 && st.cash >= price * quantity as real * (1.0 + cfg.feeRate)
  }

  /** `_execute_buy`. */
  function BuyStep(st: EngineState, bar: Bar, sig: Signal, cfg: Config): (r: EngineState)
    requires BuyPrice(sig, cfg) != 0.0
    ensures r.completed == st.completed
    ensures KeysMatch(st.symbols, st.book) ==> KeysMatch(r.symbols, r.book)
  {
    var symbol := sig.symbol;
    var price := BuyPrice(sig, cfg);
    var quantity := BuyQuantity(st.cash, price, sig.strength);
    if quantity <= 0 then st
    else
      var commission := price * quantity as real * cfg.feeRate;
      var totalCost := price * quantity as real + commission;
      if st.cash >= totalCost then
        var symbols := if symbol in st.book then st.symbols else st.symbols + [symbol];
        var pos := if symbol in st.book then st.book[symbol] else EmptyHolding;
        var lot := Lot(price, quantity, bar.tradeDate, sig.reason);
        var r := st.(cash := st.cash - totalCost,
                     totalCommission := st.totalCommission + commission,
                     symbols := symbols,
                     book := st.book[symbol := AddLot(pos, lot)]);
        assert KeysMatch(st.symbols, st.book) ==> KeysMatch(r.symbols, r.book) by {
          if KeysMatch(st.symbols, st.book) && symbol !in st.book {
            assert forall i :: 0 <= i < |st.symbols| ==> symbols[i] == st.symbols[i];
            assert symbols[|st.symbols|] == symbol;
          }
        }
        r
      else st
  }

  /** `_execute_sell`. A sell of a symbol without a holding or with a flat one changes
      nothing; otherwise the FIFO consumption decides the records and the remaining lots. */
  function SellStep(st: EngineState, bar: Bar, sig: Signal, cfg: Config): (r: EngineState)
    ensures sig.symbol !in st.book || st.book[sig.symbol].quantity == 0 ==> r == st
    ensures r.symbols == st.symbols && r.book.Keys == st.book.Keys
    ensures forall s :: s in st.book && s != sig.symbol ==> r.book[s] == st.book[s]
    ensures |st.completed| <= |r.completed| && r.completed[..|st.completed|] == st.completed
  {
    if sig.symbol !in st.book || st.book[sig.symbol].quantity == 0 then st
    else if SellQuantity(st.book[sig.symbol].quantity, sig.strength) <= 0 then st
    else SellThrough(st, bar, sig, cfg)
  }

  /** A sell that goes through: the account is credited with the proceeds net of the
      commission on the whole quantity, the FIFO consumption gives the records and the
      remaining lots, and the average cost is recomputed from those lots. */
  function SellThrough(st: EngineState, bar: Bar, sig: Signal, cfg: Config): EngineState
    requires sig.symbol in st.book
  {
    var symbol := sig.symbol;
    var pos := st.book[symbol];
    var price := SellPrice(sig.price, cfg);
    var sellQuantity := SellQuantity(pos.quantity, sig.strength);
    var ctx := SellContext(symbol, bar.tradeDate, price, sellQuantity, cfg.feeRate, sig.reason);
    var consumed := ConsumeFifo(pos.entries, sellQuantity, |st.completed| + 1, ctx);
    var commission := price * sellQuantity as real * cfg.feeRate;
    var reduced := Holding(pos.quantity - sellQuantity, pos.avgCost, consumed.1);
    st.(cash := st.cash + (price * sellQuantity as real - commission),
        totalCommission := st.totalCommission + commission,
        book := st.book[symbol := reduced.(avgCost := AvgCost(reduced))],
        completed := st.completed + consumed.0)
  }

  function ApplySignal(st: EngineState, bar: Bar, sig: Signal, cfg: Config): (r: EngineState)
    requires Executable(sig, cfg)
  {
    match sig.signalType
    case Buy => BuyStep(st, bar, sig, cfg)
    case Sell => SellStep(st, bar, sig, cfg)
    case Hold => st
  }

  /** A day's signals applied one after another in list order. */
  function ApplyDay(st: EngineState, bar: Bar, sigs: seq<Signal>, cfg: Config): (r: EngineState)
    requires forall sig :: sig in sigs ==> Executable(sig, cfg)
    ensures KeysMatch(st.symbols, st.book) ==> KeysMatch(r.symbols, r.book)
    decreases |sigs|
  {
    if sigs == [] then st
    else
      var last := sigs[|sigs| - 1];
      var before := ApplyDay(st, bar, sigs[..|sigs| - 1], cfg);
      ApplySignal(before, bar, last, cfg)
  }

  /** The signals of one date, in their original order: `signals_by_date.get(date, [])`. */
  function DaySignals(signals: seq<Signal>, date: int): (r: seq<Signal>)
    ensures forall sig :: sig in r ==> sig in signals && sig.timestamp == date
    ensures forall sig :: sig in signals && sig.timestamp == date ==> sig in r
    ensures (forall sig :: sig in signals ==> sig.timestamp != date) ==> r == []
    decreases |signals|
  {
    if signals == [] then []
    else
      var front, last := signals[..|signals| - 1], signals[|signals| - 1];
      assert signals == front + [last];
      DaySignals(front, date) + (if last.timestamp == date then [last] else [])
  }

  /** The signals of a date keep the list's order: those of a concatenation are those of
      the first part followed by those of the second. */
  lemma {:induction false} DaySignalsAppend(a: seq<Signal>, b: seq<Signal>, date: int)
    ensures DaySignals(a + b, date) == DaySignals(a, date) + DaySignals(b, date)
    decreases |b|
  {
    if b == [] {
      assert a + b == a;
    } else {
      var front, last := b[..|b| - 1], b[|b| - 1];
      assert (a + b)[..|a + b| - 1] == a + front;
      assert (a + b)[|a + b| - 1] == last;
      DaySignalsAppend(a, front, date);
    }
  }

  /** A single signal belongs to a date exactly when it carries that date. */
  lemma DaySignalsSingle(sig: Signal, date: int)
    ensures DaySignals([sig], date) == (if sig.timestamp == date then [sig] else [])
  {
    assert [sig][..0] == [];
  }

  /** `_calculate_positions_value`: quantity times price summed over the table. */
  function PositionsValue(symbols: seq<string>, book: map<string, Holding>, price: real): real
    decreases |symbols|
  {
    if symbols == [] then 0.0
    else
      var s := symbols[|symbols| - 1];
      PositionsValue(symbols[..|symbols| - 1], book, price)
        + (if s in book then book[s].quantity as real * price else 0.0)
  }

  /** Total open quantity over the table. */
  function OpenQuantity(symbols: seq<string>, book: map<string, Holding>): int
    decreases |symbols|
  {
    if symbols == [] then 0
    else
      var s := symbols[|symbols| - 1];
      OpenQuantity(symbols[..|symbols| - 1], book) + (if s in book then book[s].quantity else 0)
  }

  /** The positions are valued as the open quantity at the one price. */
  lemma {:induction false} PositionsValueIsOpenQuantity(symbols: seq<string>, book: map<string, Holding>, price: real)
    ensures PositionsValue(symbols, book, price) == OpenQuantity(symbols, book) as real * price
    decreases |symbols|
  {
    if symbols != [] {
      var s := symbols[|symbols| - 1];
      var front := symbols[..|symbols| - 1];
      PositionsValueIsOpenQuantity(front, book, price);
      var q := if s in book then book[s].quantity else 0;
      assert OpenQuantity(symbols, book) == OpenQuantity(front, book) + q;
      assert (OpenQuantity(front, book) + q) as real * price
          == OpenQuantity(front, book) as real * price + q as real * price;
    }
  }

  /** Mark-to-market value: cash plus the positions at `price`. */
  function Equity(st: EngineState, price: real): real {
    st.cash + PositionsValue(st.symbols, st.book, price)
  }

  /** The bar loop of `run` over the first `n` bars: the state after them and the equity
      curve, which starts with the initial capital and gains one sample per bar. */
  function Simulate(cfg: Config, bars: seq<Bar>, signals: seq<Signal>, n: nat): (r: (EngineState, seq<real>))
    requires n <= |bars|
    requires forall sig :: sig in signals ==> Executable(sig, cfg)
    ensures |r.1| == n + 1 && r.1[0] == cfg.initialCapital
    decreases n
  {
    if n == 0 then (Initial(cfg), [cfg.initialCapital])
    else
      var prev := Simulate(cfg, bars, signals, n - 1);
      var bar := bars[n - 1];
      var st := ApplyDay(prev.0, bar, DaySignals(signals, bar.tradeDate), cfg);
      (st, prev.1 + [Equity(st, bar.closePrice)])
  }

  /** A holding after forced liquidation. */
  function Emptied(h: Holding): Holding {
    if h.quantity > 0 then h.(quantity := 0, entries := []) else h
  }

  /** The records `_close_all_positions` writes for one holding: one per lot when the
      holding is open, none otherwise. */
  function Liquidation(h: Holding, first: nat, symbol: string, bar: Bar, cfg: Config): seq<TradeRecord> {
    if h.quantity > 0 then
      LiquidationRecords(h.entries, first, symbol, bar.tradeDate, SellPrice(bar.closePrice, cfg), cfg.feeRate)
    else []
  }

  /** `_close_all_positions` for one symbol: every lot of an open holding becomes a record
      at the close less slippage, and the holding is emptied; cash is not touched. */
  function LiquidateSymbol(st: EngineState, symbol: string, bar: Bar, cfg: Config): (r: EngineState)
    ensures r.cash == st.cash && r.totalCommission == st.totalCommission && r.symbols == st.symbols
  {
    if symbol in st.book then
      var pos := st.book[symbol];
      st.(completed := st.completed + Liquidation(pos, |st.completed| + 1, symbol, bar, cfg),
          book := st.book[symbol := Emptied(pos)])
    else st
  }

  /** Liquidation over `syms` in order: each listed holding is emptied, the others are
      untouched, and the cash, commission and key order are unchanged. */
  function LiquidateAll(st: EngineState, syms: seq<string>, bar: Bar, cfg: Config): (r: EngineState)
    ensures r.cash == st.cash && r.totalCommission == st.totalCommission && r.symbols == st.symbols
    ensures r.book.Keys == st.book.Keys
    ensures |st.completed| <= |r.completed| && r.completed[..|st.completed|] == st.completed
    decreases |syms|
  {
    if syms == [] then st
    else LiquidateSymbol(LiquidateAll(st, syms[..|syms| - 1], bar, cfg), syms[|syms| - 1], bar, cfg)
  }

  /** Liquidation over `syms` empties exactly the listed holdings. */
  lemma {:induction false} LiquidateAllEffect(st: EngineState, syms: seq<string>, bar: Bar, cfg: Config)
    ensures var r := LiquidateAll(st, syms, bar, cfg);
            forall s :: s in st.book ==>
              r.book[s] == (if s in syms then Emptied(st.book[s]) else st.book[s])
    decreases |syms|
  {
    if syms != [] {
      var init := syms[..|syms| - 1];
      var last := syms[|syms| - 1];
      LiquidateAllEffect(st, init, bar, cfg);
      var mid := LiquidateAll(st, init, bar, cfg);
      var r := LiquidateAll(st, syms, bar, cfg);
      assert r == LiquidateSymbol(mid, last, bar, cfg);
      assert forall s :: s in syms <==> s in init || s == last;
      forall s | s in st.book
        ensures r.book[s] == (if s in syms then Emptied(st.book[s]) else st.book[s])
      {
        if s == last {
          assert mid.book[s] == (if s in init then Emptied(st.book[s]) else st.book[s]);
          if s in init {
            assert Emptied(Emptied(st.book[s])) == Emptied(st.book[s]);
          }
        }
      }
    }
  }

  /** Liquidating one more symbol of the list is one more `LiquidateSymbol`. */
  lemma LiquidateAllNext(st: EngineState, syms: seq<string>, i: nat, bar: Bar, cfg: Config)
    requires i < |syms|
    ensures LiquidateAll(st, syms[..i + 1], bar, cfg)
            == LiquidateSymbol(LiquidateAll(st, syms[..i], bar, cfg), syms[i], bar, cfg)
  {
    assert syms[..i + 1][..i] == syms[..i];
  }

  /** `LiquidateSymbol` on a listed symbol, in the branch form of the source: an open
      holding is emptied and its lots recorded; a flat one is left as it is. */
  lemma LiquidateSymbolCases(st: EngineState, symbol: string, bar: Bar, cfg: Config)
    requires symbol in st.book
    ensures var pos := st.book[symbol];
            var r := LiquidateSymbol(st, symbol, bar, cfg);
            if pos.quantity > 0 then
              && r.book == st.book[symbol := pos.(quantity := 0, entries := [])]
              && r.completed == st.completed + LiquidationRecords(pos.entries, |st.completed| + 1, symbol,
                                                                  bar.tradeDate, SellPrice(bar.closePrice, cfg), cfg.feeRate)
            else r.book == st.book && r.completed == st.completed
  {
    var pos := st.book[symbol];
    if pos.quantity <= 0 {
      assert st.book[symbol := pos] == st.book;
      assert st.completed + [] == st.completed;
    }
  }

  function CloseAll(st: EngineState, bar: Bar, cfg: Config): EngineState {
    LiquidateAll(st, st.symbols, bar, cfg)
  }

  lemma MulLeft(a: real, b: real, c: real)
    requires a <= b && c >= 0.0
    ensures c * a <= c * b
  {
  }

  /** The 5% haircut keeps a buy strictly inside the cash: with a fee rate of at most 1%,
      price times quantity plus commission stays below the cash it was sized from. */
  lemma BuyCostBelowCash(cash: real, price: real, strength: real, feeRate: real, q: int)
    requires cash > 0.0 && price > 0.0 && 0.0 <= strength <= 1.0 && 0.0 <= feeRate <= 0.01
    requires 0 <= q && q as real <= cash / price * strength * BuyHaircut
    ensures price * q as real * (1.0 + feeRate) < cash
  {
    var m := cash / price;
    assert m * price == cash;
    assert m > 0.0;
    MulLeft(strength, 1.0, m);
    assert m * strength * BuyHaircut <= m * BuyHaircut;
    var x := q as real;
    assert x <= m * BuyHaircut;
    MulLeft(x, m * BuyHaircut, price);
    assert price * x <= cash * BuyHaircut;
    MulNonNegative(price, x);
    MulLeft(1.0 + feeRate, 1.01, price * x);
    assert price * x * (1.0 + feeRate) <= price * x * 1.01;
  }

  lemma EmptyHoldingValid()
    ensures ValidHolding(EmptyHolding)
  {
    assert EmptyHolding.entries == [];
  }

  /** `SellThrough` in terms of the figures a caller has already computed. */
  lemma SellThroughWritten(st: EngineState, bar: Bar, sig: Signal, cfg: Config,
                           price: real, q: int, commission: real, records: seq<TradeRecord>, rest: seq<Lot>)
    requires sig.symbol in st.book
    requires price == SellPrice(sig.price, cfg) && q == SellQuantity(st.book[sig.symbol].quantity, sig.strength)
    requires commission == price * q as real * cfg.feeRate
    requires var ctx := SellContext(sig.symbol, bar.tradeDate, price, q, cfg.feeRate, sig.reason);
             (records, rest) == ConsumeFifo(st.book[sig.symbol].entries, q, |st.completed| + 1, ctx)
    ensures var reduced := Holding(st.book[sig.symbol].quantity - q, st.book[sig.symbol].avgCost, rest);
            SellThrough(st, bar, sig, cfg)
              == st.(cash := st.cash + (price * q as real - commission),
                     totalCommission := st.totalCommission + commission,
                     book := st.book[sig.symbol := reduced.(avgCost := AvgCost(reduced))],
                     completed := st.completed + records)
  {
    var ctx := SellContext(sig.symbol, bar.tradeDate, price, q, cfg.feeRate, sig.reason);
    var consumed := ConsumeFifo(st.book[sig.symbol].entries, q, |st.completed| + 1, ctx);
    assert consumed.0 == records && consumed.1 == rest;
  }

  /** A buy that does not fill changes nothing; one that fills pays price times quantity
      plus commission out of the cash, books the commission and adds one lot of whole
      board lots to the symbol's holding. */
  lemma BuyOutcome(st: EngineState, bar: Bar, sig: Signal, cfg: Config)
    requires BuyPrice(sig, cfg) != 0.0
    ensures !BuyFills(st, sig, cfg) ==> BuyStep(st, bar, sig, cfg) == st
    ensures BuyFills(st, sig, cfg) ==>
              var r := BuyStep(st, bar, sig, cfg);
              var price := BuyPrice(sig, cfg);
              var q := BuyQuantity(st.cash, price, sig.strength);
              var h := if sig.symbol in st.book then st.book[sig.symbol] else EmptyHolding;
              && q >= BoardLot && q % BoardLot == 0
              && r.cash == st.cash - price * q as real * (1.0 + cfg.feeRate)
              && r.totalCommission == st.totalCommission + price * q as real * cfg.feeRate
              && r.book == st.book[sig.symbol := AddLot(h, Lot(price, q, bar.tradeDate, sig.reason))]
              && r.symbols == if sig.symbol in st.book then st.symbols else st.symbols + [sig.symbol]
  {
    if BuyFills(st, sig, cfg) {
      var price := BuyPrice(sig, cfg);
      var q := BuyQuantity(st.cash, price, sig.strength);
      assert price * q as real + price * q as real * cfg.feeRate == price * q as real * (1.0 + cfg.feeRate);
    }
  }

  /** A buy whose cost with commission exceeds the cash changes nothing; the figures are
      the ones a caller has already computed. */
  lemma BuyUnaffordable(st: EngineState, bar: Bar, sig: Signal, cfg: Config,
                        price: real, q: int, totalCost: real)
    requires price == BuyPrice(sig, cfg) && price != 0.0
    requires q == BuyQuantity(st.cash, price, sig.strength)
    requires totalCost == price * q as real + price * q as real * cfg.feeRate
    requires st.cash < totalCost
    ensures BuyStep(st, bar, sig, cfg) == st
  {
    if q > 0 {
      var commission := price * q as real * cfg.feeRate;
      assert !(st.cash >= price * q as real + commission);
    }
  }

  /** A buy the cash covers: what it pays, books and adds, in terms of the figures a
      caller has already computed. */
  lemma BuyFilled(st: EngineState, bar: Bar, sig: Signal, cfg: Config,
                  price: real, q: int, commission: real, totalCost: real)
    requires price == BuyPrice(sig, cfg) && price != 0.0
    requires q == BuyQuantity(st.cash, price, sig.strength) && q > 0
    requires commission == price * q as real * cfg.feeRate
    requires totalCost == price * q as real + commission && st.cash >= totalCost
    ensures var h := if sig.symbol in st.book then st.book[sig.symbol] else EmptyHolding;
            BuyStep(st, bar, sig, cfg)
              == st.(cash := st.cash - totalCost,
                     totalCommission := st.totalCommission + commission,
                     symbols := if sig.symbol in st.book then st.symbols else st.symbols + [sig.symbol],
                     book := st.book[sig.symbol := AddLot(h, Lot(price, q, bar.tradeDate, sig.reason))])
  {
    assert st.cash >= price * q as real + price * q as real * cfg.feeRate;
  }

  /** A sell of a held symbol with a positive size goes through. */
  lemma SellFilled(st: EngineState, bar: Bar, sig: Signal, cfg: Config)
    requires sig.symbol in st.book && st.book[sig.symbol].quantity != 0
    requires SellQuantity(st.book[sig.symbol].quantity, sig.strength) > 0
    ensures SellStep(st, bar, sig, cfg) == SellThrough(st, bar, sig, cfg)
  {
  }

  /** A buy keeps the run invariant: in particular the cash stays positive. */
  lemma BuyKeepsSound(st: EngineState, bar: Bar, sig: Signal, cfg: Config)
    requires Sound(st) && ValidConfig(cfg) && Tradable(sig)
    ensures BuyPrice(sig, cfg) != 0.0
    ensures Sound(BuyStep(st, bar, sig, cfg))
  {
    TradableIsExecutable(sig, cfg);
    BuyKeepsCashPositive(st, bar, sig, cfg);
    BuyKeepsHoldingsValid(st, bar, sig, cfg);
  }

  /** A buy never spends all the cash and only ever adds commission. */
  lemma BuyKeepsCashPositive(st: EngineState, bar: Bar, sig: Signal, cfg: Config)
    requires st.cash > 0.0 && st.totalCommission >= 0.0 && ValidConfig(cfg) && Tradable(sig)
    requires BuyPrice(sig, cfg) != 0.0
    ensures BuyStep(st, bar, sig, cfg).cash > 0.0
    ensures BuyStep(st, bar, sig, cfg).totalCommission >= 0.0
  {
    TradableIsExecutable(sig, cfg);
    BuyOutcome(st, bar, sig, cfg);
    if BuyFills(st, sig, cfg) {
      var price := BuyPrice(sig, cfg);
      var q := BuyQuantity(st.cash, price, sig.strength);
      var x := st.cash / price * sig.strength * BuyHaircut;
      assert x >= 0.0 by {
        MulPositive(st.cash, 1.0 / price);
        assert st.cash / price > 0.0;
        MulNonNegative(st.cash / price, sig.strength);
      }
      BuyCostBelowCash(st.cash, price, sig.strength, cfg.feeRate, q);
      MulNonNegative(price * q as real, cfg.feeRate);
    }
  }

  /** A buy adds a lot of whole board lots, which keeps every holding valid. */
  lemma BuyKeepsHoldingsValid(st: EngineState, bar: Bar, sig: Signal, cfg: Config)
    requires forall s :: s in st.book ==> ValidHolding(st.book[s])
    requires BuyPrice(sig, cfg) != 0.0
    ensures var r := BuyStep(st, bar, sig, cfg);
            forall s :: s in r.book ==> ValidHolding(r.book[s])
  {
    BuyOutcome(st, bar, sig, cfg);
    if BuyFills(st, sig, cfg) {
      var price := BuyPrice(sig, cfg);
      var q := BuyQuantity(st.cash, price, sig.strength);
      var h := if sig.symbol in st.book then st.book[sig.symbol] else EmptyHolding;
      EmptyHoldingValid();
      AddLotValid(h, Lot(price, q, bar.tradeDate, sig.reason));
    }
  }

  /** The guard of a sell that does something: the symbol is held with a non-zero
      quantity. */
  predicate Holds(st: EngineState, symbol: string) {
    symbol in st.book && st.book[symbol].quantity != 0
  }

  /** The lot part of the ledger invariant, without the cost part. */
  predicate LotsAgree(h: Holding) {
    BoardLots(h.entries) && h.quantity == LotsQuantity(h.entries)
  }

  /** A sell of a held symbol: its size, and what it credits and charges. The account
      is credited once for the whole quantity, net of one commission. */
  lemma SellAccounting(st: EngineState, bar: Bar, sig: Signal, cfg: Config)
    requires Holds(st, sig.symbol) && LotsAgree(st.book[sig.symbol]) && ValidSignal(sig)
    ensures var held := st.book[sig.symbol].quantity;
            var q := SellQuantity(held, sig.strength);
            var price := SellPrice(sig.price, cfg);
            var r := SellStep(st, bar, sig, cfg);
            && 0 < q <= held && q % BoardLot == 0
            && r.cash == st.cash + (price * q as real - price * q as real * cfg.feeRate)
            && r.totalCommission == st.totalCommission + price * q as real * cfg.feeRate
            && r.book[sig.symbol].quantity == held - q
  {
    var h := st.book[sig.symbol];
    BoardLotsQuantity(h.entries);
    var q := SellQuantity(h.quantity, sig.strength);
    assert 0 < q <= h.quantity && q % BoardLot == 0;
    var price := SellPrice(sig.price, cfg);
    var ctx := SellContext(sig.symbol, bar.tradeDate, price, q, cfg.feeRate, sig.reason);
    var consumed := ConsumeFifo(h.entries, q, |st.completed| + 1, ctx);
    SellFilled(st, bar, sig, cfg);
    SellThroughWritten(st, bar, sig, cfg, price, q, price * q as real * cfg.feeRate, consumed.0, consumed.1);
  }

  /** The records of that sell: one per touched lot, oldest lot first, numbered on from
      the ledger, together covering exactly the sold quantity, each charging the
      commission on the WHOLE sell quantity on top of its own entry commission. The
      remaining lots are the old ones with an exhausted prefix removed and at most the
      first survivor shrunk. */
  lemma SellRecords(st: EngineState, bar: Bar, sig: Signal, cfg: Config)
    requires Holds(st, sig.symbol) && LotsAgree(st.book[sig.symbol]) && ValidSignal(sig)
    ensures var h := st.book[sig.symbol];
            var q := SellQuantity(h.quantity, sig.strength);
            var price := SellPrice(sig.price, cfg);
            var r := SellStep(st, bar, sig, cfg);
            var recs := r.completed[|st.completed|..];
            && RecordsQuantity(recs) == q
            && (forall k :: 0 <= k < |recs| ==> recs[k].tradeId == |st.completed| + 1 + k)
            && ChargedOnWholeSell(recs, SellContext(sig.symbol, bar.tradeDate, price, q, cfg.feeRate, sig.reason))
            && Untouched(h.entries, r.book[sig.symbol].entries)
  {
    var h := st.book[sig.symbol];
    BoardLotsQuantity(h.entries);
    var q := SellQuantity(h.quantity, sig.strength);
    var ctx := SellContext(sig.symbol, bar.tradeDate, SellPrice(sig.price, cfg), q, cfg.feeRate, sig.reason);
    var consumed := ConsumeFifo(h.entries, q, |st.completed| + 1, ctx);
    var r := SellStep(st, bar, sig, cfg);
    assert r.completed == st.completed + consumed.0;
    assert r.completed[|st.completed|..] == consumed.0;
    assert r.book[sig.symbol].entries == consumed.1;
    ConsumeFifoRecords(h.entries, q, |st.completed| + 1, ctx);
    ConsumeFifoCommissions(h.entries, q, |st.completed| + 1, ctx);
    ConsumeFifoKeepsOrder(h.entries, q, |st.completed| + 1, ctx);
  }

  /** A sell keeps the run invariant. */
  lemma SellKeepsSound(st: EngineState, bar: Bar, sig: Signal, cfg: Config)
    requires Sound(st) && ValidConfig(cfg) && Tradable(sig)
    ensures Sound(SellStep(st, bar, sig, cfg))
  {
    if Holds(st, sig.symbol) {
      var h := st.book[sig.symbol];
      assert ValidHolding(h);
      assert LotsAgree(h);
      BoardLotsQuantity(h.entries);
      SellKeepsCashPositive(st, bar, sig, cfg);
      SellKeepsHoldingValid(st, bar, sig, cfg);
      SellRecords(st, bar, sig, cfg);
      var r := SellStep(st, bar, sig, cfg);
      assert forall s :: s in r.book ==> ValidHolding(r.book[s]) by {
        forall s | s in r.book ensures ValidHolding(r.book[s]) {
          if s != sig.symbol {
            assert r.book[s] == st.book[s];
          }
        }
      }
      assert SequentialIds(r.completed) by {
        forall k | 0 <= k < |r.completed| ensures r.completed[k].tradeId == k + 1 {
          if k >= |st.completed| {
            assert r.completed[k] == r.completed[|st.completed|..][k - |st.completed|];
          } else {
            assert r.completed[k] == r.completed[..|st.completed|][k];
          }
        }
      }
    }
  }

  lemma SellKeepsCashPositive(st: EngineState, bar: Bar, sig: Signal, cfg: Config)
    requires Holds(st, sig.symbol) && LotsAgree(st.book[sig.symbol])
    requires ValidConfig(cfg) && Tradable(sig)
    ensures SellStep(st, bar, sig, cfg).cash >= st.cash
    ensures SellStep(st, bar, sig, cfg).totalCommission >= st.totalCommission
  {
    TradableIsExecutable(sig, cfg);
    SellAccounting(st, bar, sig, cfg);
    var q := SellQuantity(st.book[sig.symbol].quantity, sig.strength);
    ProceedsNonNegative(SellPrice(sig.price, cfg), q, cfg.feeRate);
  }

  /** Selling `q` shares at a non-negative price with a fee rate in [0, 1] yields
      non-negative proceeds after a non-negative commission. */
  lemma ProceedsNonNegative(price: real, q: int, f: real)
    requires price >= 0.0 && q >= 0 && 0.0 <= f <= 1.0
    ensures price * q as real * f >= 0.0
    ensures price * q as real - price * q as real * f >= 0.0
  {
    var gross := price * q as real;
    assert gross >= 0.0 by {
      MulNonNegative(price, q as real);
    }
    FractionOfNonNegative(gross, f);
    assert price * q as real * f == gross * f;
    assert gross - gross * f >= 0.0;
  }

  lemma FractionOfNonNegative(x: real, f: real)
    requires x >= 0.0 && 0.0 <= f <= 1.0
    ensures 0.0 <= x * f <= x
  {
    MulLeft(f, 1.0, x);
    MulNonNegative(x, f);
  }

  lemma SellKeepsHoldingValid(st: EngineState, bar: Bar, sig: Signal, cfg: Config)
    requires Holds(st, sig.symbol) && LotsAgree(st.book[sig.symbol]) && ValidSignal(sig)
    ensures ValidHolding(SellStep(st, bar, sig, cfg).book[sig.symbol])
  {
    var h := st.book[sig.symbol];
    BoardLotsQuantity(h.entries);
    var q := SellQuantity(h.quantity, sig.strength);
    var ctx := SellContext(sig.symbol, bar.tradeDate, SellPrice(sig.price, cfg), q, cfg.feeRate, sig.reason);
    var consumed := ConsumeFifo(h.entries, q, |st.completed| + 1, ctx);
    ConsumeFifoRest(h.entries, q, |st.completed| + 1, ctx);
    var reduced := Holding(h.quantity - q, h.avgCost, consumed.1);
    assert SellStep(st, bar, sig, cfg).book[sig.symbol] == reduced.(avgCost := AvgCost(reduced));
    AvgCostRestoresInvariant(reduced);
  }

  lemma AllExecutable(signals: seq<Signal>, cfg: Config)
    requires forall sig :: sig in signals ==> Tradable(sig)
    requires -1.0 < cfg.slippage <= 1.0
    ensures forall sig :: sig in signals ==> Executable(sig, cfg)
  {
    forall sig | sig in signals ensures Executable(sig, cfg) {
      TradableIsExecutable(sig, cfg);
    }
  }

  lemma ApplySignalKeepsSound(st: EngineState, bar: Bar, sig: Signal, cfg: Config)
    requires Sound(st) && ValidConfig(cfg) && Tradable(sig) && Executable(sig, cfg)
    ensures Sound(ApplySignal(st, bar, sig, cfg))
  {
    match sig.signalType
    case Buy => BuyKeepsSound(st, bar, sig, cfg);
    case Sell => SellKeepsSound(st, bar, sig, cfg);
    case Hold =>
  }

  /** A whole day of signals keeps the run invariant. */
  lemma {:induction false} ApplyDayKeepsSound(st: EngineState, bar: Bar, sigs: seq<Signal>, cfg: Config)
    requires Sound(st) && ValidConfig(cfg)
    requires forall sig :: sig in sigs ==> Tradable(sig) && Executable(sig, cfg)
    ensures Sound(ApplyDay(st, bar, sigs, cfg))
    decreases |sigs|
  {
    if sigs != [] {
      var front := sigs[..|sigs| - 1];
      assert forall sig :: sig in front ==> sig in sigs;
      ApplyDayKeepsSound(st, bar, front, cfg);
      ApplySignalKeepsSound(ApplyDay(st, bar, front, cfg), bar, sigs[|sigs| - 1], cfg);
    }
  }

  lemma {:induction false} OpenQuantityNonNegative(symbols: seq<string>, book: map<string, Holding>)
    requires forall s :: s in book ==> ValidHolding(book[s])
    ensures OpenQuantity(symbols, book) >= 0
    decreases |symbols|
  {
    if symbols != [] {
      OpenQuantityNonNegative(symbols[..|symbols| - 1], book);
      var s := symbols[|symbols| - 1];
      if s in book {
        BoardLotsQuantity(book[s].entries);
      }
    }
  }

  /** Under the run invariant the equity at a non-negative price is positive. */
  lemma EquityPositive(st: EngineState, price: real)
    requires Sound(st) && price >= 0.0
    ensures Equity(st, price) > 0.0
  {
    PositionsValueIsOpenQuantity(st.symbols, st.book, price);
    OpenQuantityNonNegative(st.symbols, st.book);
    MulNonNegative(OpenQuantity(st.symbols, st.book) as real, price);
  }

  predicate AllPositive(xs: seq<real>) {
    forall k :: 0 <= k < |xs| ==> xs[k] > 0.0
  }

  predicate ValidBars(bars: seq<Bar>) {
    forall i :: 0 <= i < |bars| ==> ValidBar(bars[i])
  }

  /** Over valid bars and tradable signals the run invariant holds after every bar, and
      every equity sample is positive; so no period return divides by zero. */
  lemma {:induction false} SimulateSound(cfg: Config, bars: seq<Bar>, signals: seq<Signal>, n: nat)
    requires ValidConfig(cfg) && n <= |bars| && ValidBars(bars)
    requires forall sig :: sig in signals ==> Tradable(sig) && Executable(sig, cfg)
    ensures Sound(Simulate(cfg, bars, signals, n).0)
    ensures AllPositive(Simulate(cfg, bars, signals, n).1)
    decreases n
  {
    if n > 0 {
      SimulateSound(cfg, bars, signals, n - 1);
      var prev := Simulate(cfg, bars, signals, n - 1);
      var bar := bars[n - 1];
      var day := DaySignals(signals, bar.tradeDate);
      ApplyDayKeepsSound(prev.0, bar, day, cfg);
      var st := ApplyDay(prev.0, bar, day, cfg);
      assert ValidBar(bar);
      EquityPositive(st, bar.closePrice);
      var eq := prev.1 + [Equity(st, bar.closePrice)];
      assert Simulate(cfg, bars, signals, n) == (st, eq);
      forall k | 0 <= k < |eq| ensures eq[k] > 0.0 {
        if k < |prev.1| {
          assert eq[k] == prev.1[k];
        }
      }
    }
  }

  /** One step of the bar loop: the state after bar n-1's signals, and its equity sample. */
  lemma SimulateLast(cfg: Config, bars: seq<Bar>, signals: seq<Signal>, n: nat)
    requires 0 < n <= |bars|
    requires forall sig :: sig in signals ==> Executable(sig, cfg)
    ensures Simulate(cfg, bars, signals, n).0
              == ApplyDay(Simulate(cfg, bars, signals, n - 1).0, bars[n - 1],
                          DaySignals(signals, bars[n - 1].tradeDate), cfg)
    ensures Simulate(cfg, bars, signals, n).1
              == Simulate(cfg, bars, signals, n - 1).1
                 + [Equity(Simulate(cfg, bars, signals, n).0, bars[n - 1].closePrice)]
  {
  }

  /** Sample n is appended to the curve of the first n-1 bars. */
  lemma SimulateGrows(cfg: Config, bars: seq<Bar>, signals: seq<Signal>, n: nat)
    requires 0 < n <= |bars|
    requires forall sig :: sig in signals ==> Executable(sig, cfg)
    ensures Simulate(cfg, bars, signals, n).1[..n] == Simulate(cfg, bars, signals, n - 1).1
  {
    SimulateLast(cfg, bars, signals, n);
    var prev := Simulate(cfg, bars, signals, n - 1).1;
    PrefixOfAppend(prev, [Equity(Simulate(cfg, bars, signals, n).0, bars[n - 1].closePrice)], n);
  }

  lemma AppendAssoc<T>(a: seq<T>, b: seq<T>, c: seq<T>)
    ensures a + (b + c) == (a + b) + c
  {
  }

  lemma PrefixOfPrefix<T>(a: seq<T>, b: seq<T>, c: seq<T>, n: nat, m: nat)
    requires m <= n <= |a| && a[..n] == b && m <= |b| && b[..m] == c
    ensures a[..m] == c
  {
    assert a[..m] == a[..n][..m];
  }

  lemma PrefixOfAppend<T>(a: seq<T>, b: seq<T>, m: nat)
    requires m <= |a|
    ensures (a + b)[..m] == a[..m]
  {
  }

  lemma SuffixOfAppend<T>(a: seq<T>, b: seq<T>, m: nat)
    requires m <= |a|
    ensures (a + b)[m..] == a[m..] + b
  {
  }

  /** Later bars only extend the equity curve. */
  lemma {:induction false} SimulatePrefix(cfg: Config, bars: seq<Bar>, signals: seq<Signal>, n: nat, m: nat)
    requires m <= n <= |bars|
    requires forall sig :: sig in signals ==> Executable(sig, cfg)
    ensures Simulate(cfg, bars, signals, n).1[..m + 1] == Simulate(cfg, bars, signals, m).1
    decreases n
  {
    if n > m {
      SimulatePrefix(cfg, bars, signals, n - 1, m);
      SimulateGrows(cfg, bars, signals, n);
      PrefixOfPrefix(Simulate(cfg, bars, signals, n).1, Simulate(cfg, bars, signals, n - 1).1,
                     Simulate(cfg, bars, signals, m).1, n, m + 1);
    } else {
      WholePrefix(Simulate(cfg, bars, signals, n).1);
    }
  }

  lemma WholePrefix<T>(a: seq<T>)
    ensures a[..|a|] == a
  {
  }

  /** The last sample of the curve values the state after the last bar at its close. */
  lemma SimulateSample(cfg: Config, bars: seq<Bar>, signals: seq<Signal>, n: nat)
    requires 0 < n <= |bars|
    requires forall sig :: sig in signals ==> Executable(sig, cfg)
    ensures Simulate(cfg, bars, signals, n).1[n]
              == Equity(Simulate(cfg, bars, signals, n).0, bars[n - 1].closePrice)
  {
  }

  lemma PrefixElement<T>(a: seq<T>, b: seq<T>, i: nat)
    requires i < |a| && a[..i + 1] == b
    ensures a[i] == b[i]
  {
    assert a[i] == a[..i + 1][i];
  }

  /** Sample k+1 of the curve values the state after the first k+1 bars (which
      `SimulateLast` relates to bar k's signals) at bar k's close. */
  lemma EquitySample(cfg: Config, bars: seq<Bar>, signals: seq<Signal>, n: nat, k: nat)
    requires k < n <= |bars|
    requires forall sig :: sig in signals ==> Executable(sig, cfg)
    ensures Simulate(cfg, bars, signals, n).1[k + 1]
              == Equity(Simulate(cfg, bars, signals, k + 1).0, bars[k].closePrice)
  {
    SimulatePrefix(cfg, bars, signals, n, k + 1);
    PrefixElement(Simulate(cfg, bars, signals, n).1, Simulate(cfg, bars, signals, k + 1).1, k + 1);
    SimulateSample(cfg, bars, signals, k + 1);
  }

  /** Mark-to-market value is the cash plus the total open quantity at the price. */
  lemma EquityIsOpenQuantity(st: EngineState, price: real)
    ensures Equity(st, price) == st.cash + OpenQuantity(st.symbols, st.book) as real * price
  {
    PositionsValueIsOpenQuantity(st.symbols, st.book, price);
  }

  /** After the forced liquidation every holding of a sound state is flat with no lots. */
  lemma CloseAllEmpties(st: EngineState, bar: Bar, cfg: Config)
    requires Sound(st)
    ensures var r := CloseAll(st, bar, cfg);
            r.book.Keys == st.book.Keys &&
            forall s :: s in r.book ==> r.book[s].quantity == 0 && r.book[s].entries == []
  {
    var r := CloseAll(st, bar, cfg);
    LiquidateAllEffect(st, st.symbols, bar, cfg);
    forall s | s in r.book ensures r.book[s].quantity == 0 && r.book[s].entries == [] {
      assert s in st.symbols;
      assert ValidHolding(st.book[s]);
      BoardLotsQuantity(st.book[s].entries);
    }
  }

  /** The records of one holding cover its open quantity. */
  lemma LiquidationQuantity(h: Holding, first: nat, symbol: string, bar: Bar, cfg: Config)
    requires ValidHolding(h)
    ensures RecordsQuantity(Liquidation(h, first, symbol, bar, cfg)) == h.quantity
  {
    BoardLotsQuantity(h.entries);
    if h.quantity > 0 {
      LiquidationRecordsQuantity(h.entries, first, symbol, bar.tradeDate, SellPrice(bar.closePrice, cfg), cfg.feeRate);
    }
  }

  /** Liquidating one more open holding adds its quantity to the records. */
  lemma QuantityStep(st: EngineState, symbol: string, bar: Bar, cfg: Config, n: nat)
    requires n <= |st.completed| && symbol in st.book && ValidHolding(st.book[symbol])
    ensures var r := LiquidateSymbol(st, symbol, bar, cfg);
            n <= |r.completed| &&
            RecordsQuantity(r.completed[n..]) == RecordsQuantity(st.completed[n..]) + st.book[symbol].quantity
  {
    var added := Liquidation(st.book[symbol], |st.completed| + 1, symbol, bar, cfg);
    LiquidationQuantity(st.book[symbol], |st.completed| + 1, symbol, bar, cfg);
    AppendedQuantity(st.completed, added, n);
  }

  /** The records a liquidation appends cover exactly the open quantity. */
  lemma {:induction false} LiquidatedQuantity(st: EngineState, syms: seq<string>, bar: Bar, cfg: Config)
    requires Distinct(syms) && (forall s :: s in syms ==> s in st.book)
    requires forall s :: s in st.book ==> ValidHolding(st.book[s])
    ensures var r := LiquidateAll(st, syms, bar, cfg);
            RecordsQuantity(r.completed[|st.completed|..]) == OpenQuantity(syms, st.book)
    decreases |syms|
  {
    if syms == [] {
      assert st.completed[|st.completed|..] == [];
    } else {
      var init := syms[..|syms| - 1];
      var last := syms[|syms| - 1];
      assert Distinct(init);
      LiquidatedQuantity(st, init, bar, cfg);
      var mid := LiquidateAll(st, init, bar, cfg);
      assert last !in init;
      LiquidateAllEffect(st, init, bar, cfg);
      assert mid.book[last] == st.book[last];
      QuantityStep(mid, last, bar, cfg, |st.completed|);
    }
  }

  lemma {:induction false} RecordsAppend(a: seq<TradeRecord>, b: seq<TradeRecord>)
    ensures RecordsQuantity(a + b) == RecordsQuantity(a) + RecordsQuantity(b)
    decreases |a|
  {
    if a == [] {
      assert a + b == b;
    } else {
      assert (a + b)[1..] == a[1..] + b;
      RecordsAppend(a[1..], b);
    }
  }

  /** A batch of end-of-run records numbered on from `first`, at the liquidation price. */
  predicate LiquidationBatch(recs: seq<TradeRecord>, first: int, price: real) {
    forall k :: 0 <= k < |recs| ==>
      recs[k].tradeId == first + k && recs[k].exitPrice == price && recs[k].reason == EndOfRun
  }

  /** The records of one holding are numbered on from `first` at the close less slippage. */
  lemma LiquidationIsBatch(h: Holding, first: nat, symbol: string, bar: Bar, cfg: Config)
    ensures LiquidationBatch(Liquidation(h, first, symbol, bar, cfg), first, SellPrice(bar.closePrice, cfg))
  {
  }

  /** Liquidating one more symbol extends a numbered batch. */
  lemma NumberingStep(st: EngineState, symbol: string, bar: Bar, cfg: Config, n: nat)
    requires n <= |st.completed|
    requires LiquidationBatch(st.completed[n..], n + 1, SellPrice(bar.closePrice, cfg))
    ensures var r := LiquidateSymbol(st, symbol, bar, cfg);
            n <= |r.completed| && LiquidationBatch(r.completed[n..], n + 1, SellPrice(bar.closePrice, cfg))
  {
    if symbol in st.book {
      var added := Liquidation(st.book[symbol], |st.completed| + 1, symbol, bar, cfg);
      LiquidationIsBatch(st.book[symbol], |st.completed| + 1, symbol, bar, cfg);
      AppendedBatch(st.completed, added, n, SellPrice(bar.closePrice, cfg));
    }
  }

  /** Every record a liquidation appends is numbered on from the ledger, priced at the
      close less slippage and marked as closed by the end of the run. */
  lemma {:induction false} LiquidationNumbering(st: EngineState, syms: seq<string>, bar: Bar, cfg: Config)
    ensures var r := LiquidateAll(st, syms, bar, cfg);
            LiquidationBatch(r.completed[|st.completed|..], |st.completed| + 1, SellPrice(bar.closePrice, cfg))
    decreases |syms|
  {
    if syms == [] {
      assert st.completed[|st.completed|..] == [];
    } else {
      var init := syms[..|syms| - 1];
      LiquidationNumbering(st, init, bar, cfg);
      NumberingStep(LiquidateAll(st, init, bar, cfg), syms[|syms| - 1], bar, cfg, |st.completed|);
    }
  }

  lemma AppendedBatch(ledger: seq<TradeRecord>, added: seq<TradeRecord>, n: nat, price: real)
    requires n <= |ledger| && LiquidationBatch(ledger[n..], n + 1, price)
    requires LiquidationBatch(added, |ledger| + 1, price)
    ensures LiquidationBatch((ledger + added)[n..], n + 1, price)
  {
    SuffixOfAppend(ledger, added, n);
    BatchAppend(ledger[n..], added, n + 1, price);
  }

  lemma AppendedQuantity(ledger: seq<TradeRecord>, added: seq<TradeRecord>, n: nat)
    requires n <= |ledger|
    ensures RecordsQuantity((ledger + added)[n..]) == RecordsQuantity(ledger[n..]) + RecordsQuantity(added)
  {
    SuffixOfAppend(ledger, added, n);
    RecordsAppend(ledger[n..], added);
  }

  lemma BatchAppend(a: seq<TradeRecord>, b: seq<TradeRecord>, first: int, price: real)
    requires LiquidationBatch(a, first, price) && LiquidationBatch(b, first + |a|, price)
    ensures LiquidationBatch(a + b, first, price)
  {
    forall k | |a| <= k < |a + b| ensures (a + b)[k] == b[k - |a|] { }
  }

  /** Liquidation keeps the run invariant. */
  lemma CloseAllKeepsSound(st: EngineState, bar: Bar, cfg: Config)
    requires Sound(st)
    ensures Sound(CloseAll(st, bar, cfg))
  {
    var r := CloseAll(st, bar, cfg);
    CloseAllEmpties(st, bar, cfg);
    LiquidationNumbering(st, st.symbols, bar, cfg);
    forall s | s in r.book ensures ValidHolding(r.book[s]) {
      assert r.book[s].entries == [];
    }
    assert SequentialIds(r.completed) by {
      var added := r.completed[|st.completed|..];
      forall k | 0 <= k < |r.completed| ensures r.completed[k].tradeId == k + 1 {
        if k >= |st.completed| {
          assert r.completed[k] == added[k - |st.completed|];
        } else {
          assert r.completed[k] == r.completed[..|st.completed|][k];
        }
      }
    }
  }

  /** `data.start_date or data.bars[0].trade_date`: the explicit date unless it is absent. */
  function DateOr(d: Option<int>, fallback: int): (r: int)
    ensures d.Some? ==> r == d.value
    ensures d.None? ==> r == fallback
  {
    match d
    case Some(v) => v
    case None => fallback
  }

  /** `_build_result`: the result of a run from its closed trades and equity curve. The
      final value is the last equity sample, taken before the forced liquidation. */
  function ResultOf(cfg: Config, data: BarData, strategyName: string, trades: seq<TradeRecord>,
                    equity: seq<real>, volatilityOf: seq<real> -> real): (r: BacktestResult)
    requires |data.bars| > 0 && cfg.initialCapital != 0.0
    requires |equity| > 0 && equity[0] > 0.0 && NoZeroDivisor(equity)
    ensures r.trades == trades && r.equityCurve == equity && r.finalValue == equity[|equity| - 1]
    ensures r.maxDrawdown == MaxDrawdown(equity) && r.maxDrawdown >= 0.0
    ensures 0.0 <= r.winRate <= 1.0
  {
    var finalValue := equity[|equity| - 1];
    var totalReturn := (finalValue - cfg.initialCapital) / cfg.initialCapital;
    var winRate := WinRate(trades);
    var risk := RiskMetrics(Returns(equity), volatilityOf);
    var maxDrawdown := MaxDrawdown(equity);
    MaxDrawdownIsMaximum(equity, |equity|);
    var metrics := PerformanceMetrics(totalReturn, risk.annualReturn, risk.volatility, risk.sharpe,
                                      maxDrawdown, winRate, ProfitLossRatio(trades));
    BacktestResult(data.symbol, strategyName,
                   DateOr(data.startDate, data.bars[0].tradeDate),
                   DateOr(data.endDate, data.bars[|data.bars| - 1].tradeDate),
                   cfg.initialCapital, finalValue, totalReturn, metrics, |trades|,
                   winRate, risk.sharpe, maxDrawdown, trades, equity)
  }

  /** The result names the data and the strategy, takes its dates from the data or else
      from the first and last bar, and repeats each figure of its metrics in the field
      of the same name: the total return is the final value's change over the initial
      capital, and the win rate, Sharpe ratio and maximum drawdown agree in both places. */
  lemma ResultOfFields(cfg: Config, data: BarData, strategyName: string, trades: seq<TradeRecord>,
                       equity: seq<real>, volatilityOf: seq<real> -> real)
    requires |data.bars| > 0 && cfg.initialCapital != 0.0
    requires |equity| > 0 && equity[0] > 0.0 && NoZeroDivisor(equity)
    ensures var r := ResultOf(cfg, data, strategyName, trades, equity, volatilityOf);
            var risk := RiskMetrics(Returns(equity), volatilityOf);
            && r.symbol == data.symbol && r.strategyName == strategyName
            && r.startDate == DateOr(data.startDate, data.bars[0].tradeDate)
            && r.endDate == DateOr(data.endDate, data.bars[|data.bars| - 1].tradeDate)
            && r.initialCapital == cfg.initialCapital && r.totalTrades == |trades|
            && r.totalReturn == (r.finalValue - cfg.initialCapital) / cfg.initialCapital
            && r.metrics.returnRate == r.totalReturn
            && r.winRate == r.metrics.winRate == WinRate(trades)
            && r.metrics.annualReturn == risk.annualReturn && r.metrics.volatility == risk.volatility
            && r.sharpeRatio == r.metrics.sharpeRatio == risk.sharpe
            && r.maxDrawdown == r.metrics.maxDrawdown
            && r.metrics.profitLossRatio == ProfitLossRatio(trades)
  {
  }

  /** The engine state after the bar loop and the forced liquidation at the last bar. */
  function FinalState(cfg: Config, bars: seq<Bar>, signals: seq<Signal>): EngineState
    requires |bars| > 0
    requires forall sig :: sig in signals ==> Executable(sig, cfg)
  {
    CloseAll(Simulate(cfg, bars, signals, |bars|).0, bars[|bars| - 1], cfg)
  }

  lemma PositiveNoZeroDivisor(xs: seq<real>)
    requires AllPositive(xs)
    ensures NoZeroDivisor(xs)
  {
  }

  /** `run`: the account validator rejects a bad capital or fee rate first; an empty bar
      list fails at `data.bars[-1]`; otherwise the bar loop, the liquidation and the
      result. */
  function RunSpec(cfg: Config, data: BarData, signals: seq<Signal>, strategyName: string,
                   volatilityOf: seq<real> -> real): (r: Result<BacktestResult, RunError>)
    requires ValidBarData(data) && -1.0 < cfg.slippage <= 1.0
    requires forall sig :: sig in signals ==> Tradable(sig)
    ensures r == Err(InvalidAccount) <==> !Accounts.ValidAccountConfig(cfg.initialCapital, cfg.feeRate)
    ensures r == Err(NoBars) <==> Accounts.ValidAccountConfig(cfg.initialCapital, cfg.feeRate) && data.bars == []
  {
    if !Accounts.ValidAccountConfig(cfg.initialCapital, cfg.feeRate) then Err(InvalidAccount)
    else if |data.bars| == 0 then Err(NoBars)
    else
      AllExecutable(signals, cfg);
      var n := |data.bars|;
      SimulateSound(cfg, data.bars, signals, n);
      var curve := Simulate(cfg, data.bars, signals, n).1;
      PositiveNoZeroDivisor(curve);
      Ok(ResultOf(cfg, data, strategyName, FinalState(cfg, data.bars, signals).completed, curve, volatilityOf))
  }

  /** A run over at least one bar with a valid account succeeds. Its curve has one sample
      per bar after the initial capital, every sample is positive, the final value is the
      last sample, the drawdown lies in [0, 1] and the trade identifiers are sequential. */
  lemma RunOutcome(cfg: Config, data: BarData, signals: seq<Signal>, strategyName: string,
                   volatilityOf: seq<real> -> real)
    requires ValidBarData(data) && -1.0 < cfg.slippage <= 1.0
    requires forall sig :: sig in signals ==> Tradable(sig)
    requires Accounts.ValidAccountConfig(cfg.initialCapital, cfg.feeRate) && |data.bars| > 0
    ensures RunSpec(cfg, data, signals, strategyName, volatilityOf).Ok?
    ensures var res := RunSpec(cfg, data, signals, strategyName, volatilityOf).value;
            && |res.equityCurve| == |data.bars| + 1
            && res.equityCurve[0] == cfg.initialCapital
            && AllPositive(res.equityCurve)
            && res.finalValue == res.equityCurve[|data.bars|] && res.finalValue > 0.0
            && 0.0 <= res.maxDrawdown <= 1.0
            && SequentialIds(res.trades)
  {
    AllExecutable(signals, cfg);
    var n := |data.bars|;
    SimulateSound(cfg, data.bars, signals, n);
    var sim := Simulate(cfg, data.bars, signals, n);
    CloseAllKeepsSound(sim.0, data.bars[n - 1], cfg);
    DrawdownAtMostOne(sim.1, |sim.1|);
  }

  /** After a run every holding is flat with no lots left, the run invariant still holds,
      and the end-of-run records cover exactly the quantity open after the last bar. */
  lemma RunEndsFlat(cfg: Config, bars: seq<Bar>, signals: seq<Signal>)
    requires ValidConfig(cfg) && ValidBars(bars) && |bars| > 0
    requires forall sig :: sig in signals ==> Tradable(sig) && Executable(sig, cfg)
    ensures var fin := FinalState(cfg, bars, signals);
            && Sound(fin)
            && forall s :: s in fin.book ==> fin.book[s].quantity == 0 && fin.book[s].entries == []
    ensures var before := Simulate(cfg, bars, signals, |bars|).0;
            var fin := FinalState(cfg, bars, signals);
            RecordsQuantity(fin.completed[|before.completed|..]) == OpenQuantity(before.symbols, before.book)
  {
    var before := Simulate(cfg, bars, signals, |bars|).0;
    SimulateSound(cfg, bars, signals, |bars|);
    CloseAllKeepsSound(before, bars[|bars| - 1], cfg);
    CloseAllEmpties(before, bars[|bars| - 1], cfg);
    LiquidatedQuantity(before, before.symbols, bars[|bars| - 1], cfg);
  }
}
