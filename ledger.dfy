/** The per-symbol lot ledger `open_trades` of src/core/engine.py, as values: lots,
    holdings, board-lot sizing and first-in-first-out consumption. */
module Ledger {
  import opened Wrappers
  import opened Results

  /** Minimum tradable increment. */
  const BoardLot: int := 100
  /** Share of the affordable amount a buy may use, leaving room for the commission. */
  const BuyHaircut: real := 0.95

  /** One purchase still (partly) held. */
  datatype Lot = Lot(price: real, quantity: int, date: int, reason: Option<string>)

  /** An entry of `open_trades`: total quantity, average cost and the lots, oldest first. */
  datatype Holding = Holding(quantity: int, avgCost: real, entries: seq<Lot>)

  const EmptyHolding: Holding := Holding(0, 0.0, [])

  function Min(a: int, b: int): int {
    if a <= b then a else b
  }

  /** Python's `int()` of a float: truncation toward zero. */
  function Trunc(x: real): int {
    if x >= 0.0 then x.Floor else -((-x).Floor)
  }

  /** `Trunc` drops the fractional part, towards zero. */
  lemma TruncBounds(x: real)
    ensures x >= 0.0 ==> Trunc(x) >= 0 && Trunc(x) as real <= x < Trunc(x) as real + 1.0
    ensures x < 0.0 ==> Trunc(x) <= 0 && x <= Trunc(x) as real < x + 1.0
  {
  }

  function LotsQuantity(lots: seq<Lot>): int
    decreases |lots|
  {
    if lots == [] then 0 else lots[0].quantity + LotsQuantity(lots[1..])
  }

  /** Sum of price times quantity over the lots. */
  function LotsCost(lots: seq<Lot>): real
    decreases |lots|
  {
    if lots == [] then 0.0 else lots[0].price * lots[0].quantity as real + LotsCost(lots[1..])
  }

  /** Every lot holds a positive whole number of board lots. */
  predicate BoardLots(lots: seq<Lot>) {
    forall k :: 0 <= k < |lots| ==> lots[k].quantity > 0 && lots[k].quantity % BoardLot == 0
  }

  /** The ledger invariant: the quantity is the sum of the lots and the average cost times
      the quantity is their total cost. */
  predicate ValidHolding(h: Holding) {
    && BoardLots(h.entries)
    && h.quantity == LotsQuantity(h.entries)
    && h.avgCost * h.quantity as real == LotsCost(h.entries)
  }

  lemma {:induction false} LotsAppend(a: seq<Lot>, b: seq<Lot>)
    ensures LotsQuantity(a + b) == LotsQuantity(a) + LotsQuantity(b)
    ensures LotsCost(a + b) == LotsCost(a) + LotsCost(b)
    decreases |a|
  {
    if a == [] {
      assert a + b == b;
    } else {
      assert (a + b)[0] == a[0];
      assert (a + b)[1..] == a[1..] + b;
      LotsAppend(a[1..], b);
    }
  }

  /** Lots of whole board lots add up to a multiple of 100 that is zero only when there
      are no lots. */
  lemma {:induction false} BoardLotsQuantity(lots: seq<Lot>)
    requires BoardLots(lots)
    ensures LotsQuantity(lots) >= 0 && LotsQuantity(lots) % BoardLot == 0
    ensures LotsQuantity(lots) == 0 <==> lots == []
    decreases |lots|
  {
    if lots != [] {
      BoardLotsTail(lots);
      BoardLotsQuantity(lots[1..]);
    }
  }

  /** `_calculate_avg_cost`: total lot cost over the quantity, 0 for a flat holding. */
  function AvgCost(h: Holding): real {
    if h.quantity <= 0 then 0.0 else LotsCost(h.entries) / h.quantity as real
  }

  /** The average cost times the quantity gives back the cost of the lots; a flat holding
      has average cost 0. */
  lemma AvgCostBlend(h: Holding)
    ensures h.quantity > 0 && h.quantity == LotsQuantity(h.entries) ==>
              AvgCost(h) * h.quantity as real == LotsCost(h.entries)
    ensures h.quantity <= 0 ==> AvgCost(h) == 0.0
  {
    if h.quantity > 0 {
      var q := h.quantity as real;
      assert AvgCost(h) == LotsCost(h.entries) / q;
      assert (LotsCost(h.entries) / q) * q == LotsCost(h.entries);
    }
  }

  /** Recomputing the average cost of a holding whose quantity agrees with its board lots
      re-establishes the ledger invariant, a flat holding included. */
  lemma AvgCostRestoresInvariant(h: Holding)
    requires BoardLots(h.entries) && h.quantity == LotsQuantity(h.entries)
    ensures ValidHolding(h.(avgCost := AvgCost(h)))
  {
    BoardLotsQuantity(h.entries);
    AvgCostBlend(h);
  }

  /** A share count rounded down to whole board lots, or 0 when that is less than one
      board lot. */
  function WholeLots(maxQuantity: int): (q: int)
    ensures q == 0 || (q >= BoardLot && q % BoardLot == 0)
  {
    // `//` in Python and `/` in Dafny agree for a positive divisor: both round down.
    var quantity := (maxQuantity / BoardLot) * BoardLot;
    if quantity >= BoardLot then quantity else 0
  }

  /** The rounding gives nothing exactly when the count is below one board lot, and
      otherwise the largest whole number of board lots within the count. */
  lemma WholeLotsBounds(maxQuantity: int)
    ensures var q := WholeLots(maxQuantity);
            && (q == 0 <==> maxQuantity < BoardLot)
            && (q > 0 ==> q <= maxQuantity < q + BoardLot)
  {
    var lots := maxQuantity / BoardLot;
    assert maxQuantity == lots * BoardLot + maxQuantity % BoardLot;
    assert 0 <= maxQuantity % BoardLot < BoardLot;
    if maxQuantity >= BoardLot {
      assert lots >= 1;
      assert lots * BoardLot >= BoardLot;
    } else {
      assert lots * BoardLot < BoardLot;
    }
  }

  /** Shares a buy asks for: the affordable count after the 5% haircut, in whole board
      lots. */
  function BuyQuantity(cash: real, price: real, strength: real): (q: int)
    requires price != 0.0
    ensures q == 0 || (q >= BoardLot && q % BoardLot == 0)
  {
    WholeLots(Trunc(cash / price * strength * BuyHaircut))
  }

  /** A buy asks for nothing exactly when less than one board lot is affordable, and
      otherwise for the largest whole number of board lots within the affordable count. */
  lemma BuyQuantityBounds(cash: real, price: real, strength: real)
    requires price != 0.0
    ensures var q := BuyQuantity(cash, price, strength);
            var affordable := Trunc(cash / price * strength * BuyHaircut);
            && (q == 0 <==> affordable < BoardLot)
            && (q > 0 ==> q <= affordable < q + BoardLot)
  {
    var affordable := Trunc(cash / price * strength * BuyHaircut);
    assert BuyQuantity(cash, price, strength) == WholeLots(affordable);
    WholeLotsBounds(affordable);
  }

  /** Shares a sell disposes of: the requested fraction of the holding rounded down to
      whole board lots and capped at the holding, or the whole holding when that rounds
      below one board lot. */
  function SellQuantity(held: int, strength: real): (q: int)
    ensures q >= BoardLot || q == held
    ensures held >= 0 && strength >= 0.0 && strength <= 1.0 ==> q <= held
    ensures q != held ==> q % BoardLot == 0
  {
    var target := Trunc(held as real * strength);
    var quantity := (target / BoardLot) * BoardLot;
    var capped := Min(quantity, held);
    if capped >= BoardLot then capped else held
  }

  /** A partial sell is the requested share of the holding rounded down to board lots. */
  lemma SellQuantityBounds(held: int, strength: real)
    ensures var q := SellQuantity(held, strength);
            q >= BoardLot && q != held ==> q <= Trunc(held as real * strength) < q + BoardLot
  {
  }

  /** A buy's effect on the holding: the new lot goes to the back of the queue and the
      average cost is re-weighted. */
  function AddLot(h: Holding, lot: Lot): (r: Holding)
    ensures r.entries == h.entries + [lot]
    ensures r.quantity == h.quantity + lot.quantity
  {
    var totalShares := h.quantity + lot.quantity;
    var totalCostBasis := h.quantity as real * h.avgCost + lot.price * lot.quantity as real;
    Holding(totalShares, if totalShares > 0 then totalCostBasis / totalShares as real else 0.0,
            h.entries + [lot])
  }

  /** Adding a lot of whole board lots keeps the ledger invariant. */
  lemma AddLotValid(h: Holding, lot: Lot)
    requires ValidHolding(h)
    requires lot.quantity > 0 && lot.quantity % BoardLot == 0
    ensures ValidHolding(AddLot(h, lot))
    ensures LotsCost(AddLot(h, lot).entries) == LotsCost(h.entries) + lot.price * lot.quantity as real
  {
    var r := AddLot(h, lot);
    var added := lot.price * lot.quantity as real;
    assert LotsQuantity(r.entries) == r.quantity && LotsCost(r.entries) == LotsCost(h.entries) + added by {
      LotsAppend(h.entries, [lot]);
      assert LotsQuantity([lot]) == lot.quantity;
      assert LotsCost([lot]) == added;
    }
    assert BoardLots(r.entries);
    var total := (h.quantity + lot.quantity) as real;
    assert h.quantity >= 0 by {
      BoardLotsQuantity(h.entries);
    }
    var basis := h.quantity as real * h.avgCost + added;
    assert r.avgCost * total == basis by {
      assert r.avgCost == basis / total;
      DivTimes(basis, total);
    }
    assert basis == LotsCost(h.entries) + added by {
      assert h.quantity as real * h.avgCost == h.avgCost * h.quantity as real;
    }
  }

  lemma DivTimes(x: real, y: real)
    requires y != 0.0
    ensures (x / y) * y == x
  {
  }

  /** The constants of one sell: what every record it emits shares. */
  datatype SellContext = SellContext(
    symbol: string,
    exitDate: int,
    exitPrice: real,
    sellQuantity: int,
    feeRate: real,
    reason: Option<string>)

  /** The record for `take` shares of `lot`: its commission pairs the lot's own entry
      commission with the commission on the WHOLE sell quantity, and its pnl deducts both. */
  function SellRecord(id: nat, ctx: SellContext, lot: Lot, take: int): (t: TradeRecord)
    ensures t.tradeId == id && t.quantity == take && t.symbol == ctx.symbol
    ensures t.entryPrice == lot.price && t.entryDate == lot.date
    ensures t.exitPrice == ctx.exitPrice && t.exitDate == ctx.exitDate
  {
    var entryCommission := lot.price * take as real * ctx.feeRate;
    var sellCommission := ctx.exitPrice * ctx.sellQuantity as real * ctx.feeRate;
    var entryValue := lot.price * take as real;
    var sellValue := ctx.exitPrice * take as real;
    var pnl := sellValue - entryValue - entryCommission - sellCommission;
    var pnlRate := if entryValue > 0.0 then pnl / entryValue else 0.0;
    TradeRecord(id, ctx.symbol, lot.date, lot.price, ctx.exitDate, ctx.exitPrice, take, pnl,
                pnlRate, "long", entryCommission + sellCommission,
                SignalExit(ctx.reason, lot.reason))
  }

  /** A sell record charges the lot's entry commission plus the commission on the whole
      sell quantity, and its pnl is the sale less the cost less that commission. */
  lemma SellRecordFigures(id: nat, ctx: SellContext, lot: Lot, take: int)
    ensures var t := SellRecord(id, ctx, lot, take);
            && t.commission == (lot.price * take as real + ctx.exitPrice * ctx.sellQuantity as real) * ctx.feeRate
            && t.pnl == ctx.exitPrice * take as real - lot.price * take as real - t.commission
  {
  }

  /** One draw of the sell loop: `take` shares from `lot`. */
  datatype Fill = Fill(lot: Lot, take: int)

  /** The sell loop over the lots, oldest first: take min(lot, still to sell) from each,
      drop exhausted lots, shrink the one partly sold, and stop once nothing is left to
      sell. The result is the draws made and the lots that remain. */
  function FifoFills(lots: seq<Lot>, remaining: int): (r: (seq<Fill>, seq<Lot>))
    decreases |lots|
  {
    if lots == [] || remaining <= 0 then ([], lots)
    else
      var entry := lots[0];
      var entryQuantity := Min(entry.quantity, remaining);
      var sub := FifoFills(lots[1..], remaining - entryQuantity);
      var left := entry.quantity - entryQuantity;
      ([Fill(entry, entryQuantity)] + sub.0,
       (if left <= 0 then [] else [entry.(quantity := left)]) + sub.1)
  }

  /** One sell record per draw, in order, numbered from `nextId`. */
  function FillRecords(fills: seq<Fill>, nextId: nat, ctx: SellContext): (r: seq<TradeRecord>)
    ensures |r| == |fills|
    ensures forall k :: 0 <= k < |fills| ==>
              r[k] == SellRecord(nextId + k, ctx, fills[k].lot, fills[k].take)
    decreases |fills|
  {
    if fills == [] then []
    else [SellRecord(nextId, ctx, fills[0].lot, fills[0].take)] + FillRecords(fills[1..], nextId + 1, ctx)
  }

  /** The records of one more draw are those of the draws before it and its own. */
  lemma FillRecordsSnoc(fills: seq<Fill>, f: Fill, nextId: nat, ctx: SellContext)
    ensures FillRecords(fills + [f], nextId, ctx)
            == FillRecords(fills, nextId, ctx) + [SellRecord(nextId + |fills|, ctx, f.lot, f.take)]
  {
    var longer := FillRecords(fills + [f], nextId, ctx);
    var shorter := FillRecords(fills, nextId, ctx);
    assert forall k :: 0 <= k < |fills| ==> (fills + [f])[k] == fills[k];
    assert forall k :: 0 <= k < |fills| ==> longer[k] == shorter[k];
    assert longer == shorter + [SellRecord(nextId + |fills|, ctx, f.lot, f.take)];
  }

  /** The whole sell: the records of its draws, numbered from `nextId`, and the lots
      that remain. */
  function ConsumeFifo(lots: seq<Lot>, remaining: int, nextId: nat, ctx: SellContext)
    : (r: (seq<TradeRecord>, seq<Lot>))
  {
    var fills := FifoFills(lots, remaining);
    (FillRecords(fills.0, nextId, ctx), fills.1)
  }

  /** A sell with lots and shares left emits the first lot's record, keeps what is left
      of it, and goes on with the later lots and the shares still to sell. */
  lemma ConsumeFifoUnfold(lots: seq<Lot>, remaining: int, nextId: nat, ctx: SellContext)
    requires lots != [] && remaining > 0
    ensures var take := Min(lots[0].quantity, remaining);
            var left := lots[0].quantity - take;
            var r := ConsumeFifo(lots, remaining, nextId, ctx);
            var sub := ConsumeFifo(lots[1..], remaining - take, nextId + 1, ctx);
            && r.0 == [SellRecord(nextId, ctx, lots[0], take)] + sub.0
            && r.1 == (if left <= 0 then [] else [lots[0].(quantity := left)]) + sub.1
  {
    var take := Min(lots[0].quantity, remaining);
    var sub := FifoFills(lots[1..], remaining - take);
    var fills := FifoFills(lots, remaining);
    assert fills.0 == [Fill(lots[0], take)] + sub.0;
    assert fills.0[1..] == sub.0;
  }

  /** A sell with no lots or no shares left emits nothing and keeps every lot. */
  lemma ConsumeFifoEmpty(lots: seq<Lot>, remaining: int, nextId: nat, ctx: SellContext)
    requires lots == [] || remaining <= 0
    ensures ConsumeFifo(lots, remaining, nextId, ctx) == ([], lots)
  {
  }

  /** The sell loop before lot `i`: the draws made so far followed by those the rest of
      the loop makes are all of them, and likewise for the lots kept. */
  predicate SellLoop(lots: seq<Lot>, i: int, remaining: int, fills: seq<Fill>, kept: seq<Lot>,
                     whole: (seq<Fill>, seq<Lot>))
  {
    && 0 <= i <= |lots|
    && var rest := FifoFills(lots[i..], remaining);
       fills + rest.0 == whole.0 && kept + rest.1 == whole.1
  }

  /** The sell loop starts at the first lot with nothing drawn. */
  lemma SellLoopStart(lots: seq<Lot>, remaining: int)
    ensures SellLoop(lots, 0, remaining, [], [], FifoFills(lots, remaining))
  {
    assert lots[0..] == lots;
  }

  /** One turn of the sell loop: the lot's draw and its remainder, if any, extend the
      draws and kept lots gathered so far. */
  lemma SellLoopAdvance(lots: seq<Lot>, i: int, remaining: int, fills: seq<Fill>, kept: seq<Lot>,
                        whole: (seq<Fill>, seq<Lot>))
    requires SellLoop(lots, i, remaining, fills, kept, whole)
    requires i < |lots| && remaining > 0
    ensures var take := Min(lots[i].quantity, remaining);
            var left := lots[i].quantity - take;
            SellLoop(lots, i + 1, remaining - take, fills + [Fill(lots[i], take)],
                     if left > 0 then kept + [lots[i].(quantity := left)] else kept, whole)
  {
    assert lots[i..][1..] == lots[i + 1..];
    var take := Min(lots[i].quantity, remaining);
    var left := lots[i].quantity - take;
    var rest := FifoFills(lots[i + 1..], remaining - take);
    var fill := [Fill(lots[i], take)];
    var kept1 := if left <= 0 then [] else [lots[i].(quantity := left)];
    assert FifoFills(lots[i..], remaining) == (fill + rest.0, kept1 + rest.1);
    assert fills + (fill + rest.0) == (fills + fill) + rest.0;
    assert kept + (kept1 + rest.1) == (kept + kept1) + rest.1;
    if left <= 0 {
      assert kept + kept1 == kept;
    }
  }

  /** When the sell loop stops, the draws gathered are all of them and the lots kept,
      followed by the unvisited ones, are all that remain. */
  lemma SellLoopFinish(lots: seq<Lot>, i: int, remaining: int, fills: seq<Fill>, kept: seq<Lot>,
                       whole: (seq<Fill>, seq<Lot>))
    requires SellLoop(lots, i, remaining, fills, kept, whole)
    requires i == |lots| || remaining <= 0
    ensures fills == whole.0 && kept + lots[i..] == whole.1
  {
    assert FifoFills(lots[i..], remaining) == ([], lots[i..]);
    assert fills + [] == fills;
  }

  function RecordsQuantity(recs: seq<TradeRecord>): int
    decreases |recs|
  {
    if recs == [] then 0 else recs[0].quantity + RecordsQuantity(recs[1..])
  }

  /** Shares drawn over a list of draws. */
  function FillsTaken(fills: seq<Fill>): int
    decreases |fills|
  {
    if fills == [] then 0 else fills[0].take + FillsTaken(fills[1..])
  }

  /** Drawing `want` shares, at most the holding, from lots of positive size draws
      exactly `want`. */
  lemma {:induction false} FifoFillsTaken(lots: seq<Lot>, want: int)
    requires BoardLots(lots) && 0 <= want <= LotsQuantity(lots)
    ensures FillsTaken(FifoFills(lots, want).0) == want
    decreases |lots|
  {
    if lots != [] && want > 0 {
      var take := Min(lots[0].quantity, want);
      BoardLotsTail(lots);
      BoardLotsQuantity(lots[1..]);
      assert LotsQuantity(lots) == lots[0].quantity + LotsQuantity(lots[1..]);
      FifoFillsTaken(lots[1..], want - take);
      var fills := FifoFills(lots, want).0;
      assert fills == [Fill(lots[0], take)] + FifoFills(lots[1..], want - take).0;
      assert fills[1..] == FifoFills(lots[1..], want - take).0;
    } else if lots == [] {
      assert LotsQuantity(lots) == 0;
    }
  }

  /** The records of a list of draws sell what the draws take. */
  lemma {:induction false} FillRecordsQuantity(fills: seq<Fill>, nextId: nat, ctx: SellContext)
    ensures RecordsQuantity(FillRecords(fills, nextId, ctx)) == FillsTaken(fills)
    decreases |fills|
  {
    if fills != [] {
      var recs := FillRecords(fills, nextId, ctx);
      FillRecordsQuantity(fills[1..], nextId + 1, ctx);
      assert recs[1..] == FillRecords(fills[1..], nextId + 1, ctx);
      assert recs[0].quantity == fills[0].take;
    }
  }

  /** FIFO consumption of `want` shares (at most the holding) from board lots: the
      records, numbered consecutively from `nextId`, sum to `want`. */
  lemma ConsumeFifoRecords(lots: seq<Lot>, want: int, nextId: nat, ctx: SellContext)
    requires BoardLots(lots)
    requires 0 <= want <= LotsQuantity(lots)
    ensures var r := ConsumeFifo(lots, want, nextId, ctx);
            && RecordsQuantity(r.0) == want
            && (forall k :: 0 <= k < |r.0| ==> r.0[k].tradeId == nextId + k)
  {
    var fills := FifoFills(lots, want).0;
    FifoFillsTaken(lots, want);
    FillRecordsQuantity(fills, nextId, ctx);
  }

  /** The same consumption leaves board lots holding exactly the rest of the shares. */
  lemma {:induction false} ConsumeFifoRest(lots: seq<Lot>, want: int, nextId: nat, ctx: SellContext)
    requires BoardLots(lots)
    requires 0 <= want <= LotsQuantity(lots) && want % BoardLot == 0
    ensures var r := ConsumeFifo(lots, want, nextId, ctx);
            && BoardLots(r.1)
            && LotsQuantity(r.1) == LotsQuantity(lots) - want
    decreases |lots|
  {
    BoardLotsQuantity(lots);
    if lots != [] && want > 0 {
      var entry := lots[0];
      var take := Min(entry.quantity, want);
      BoardLotsTail(lots);
      BoardLotsQuantity(lots[1..]);
      assert LotsQuantity(lots) == entry.quantity + LotsQuantity(lots[1..]);
      var left := entry.quantity - take;
      BoardLotDifference(entry.quantity, take);
      BoardLotDifference(want, take);
      ConsumeFifoRest(lots[1..], want - take, nextId + 1, ctx);
      var r := ConsumeFifo(lots, want, nextId, ctx);
      var sub := ConsumeFifo(lots[1..], want - take, nextId + 1, ctx);
      var head := if left <= 0 then [] else [entry.(quantity := left)];
      ConsumeFifoUnfold(lots, want, nextId, ctx);
      LotsAppend(head, sub.1);
      BoardLotsAppend(head, sub.1);
    }
  }

  lemma BoardLotDifference(a: int, b: int)
    requires a % BoardLot == 0 && b % BoardLot == 0
    ensures (a - b) % BoardLot == 0
  {
    var x := a / BoardLot;
    var y := b / BoardLot;
    assert a - b == (x - y) * BoardLot;
  }

  lemma BoardLotsAppend(a: seq<Lot>, b: seq<Lot>)
    requires BoardLots(a) && BoardLots(b)
    ensures BoardLots(a + b)
  {
    forall k | |a| <= k < |a + b| ensures (a + b)[k] == b[k - |a|] { }
  }

  lemma BoardLotsTail(lots: seq<Lot>)
    requires lots != [] && BoardLots(lots)
    ensures BoardLots(lots[1..])
  {
    forall k | 0 <= k < |lots[1..]| ensures lots[1..][k] == lots[k + 1] { }
  }

  /** FIFO consumption leaves the later lots alone: the remaining lots are the original
      ones with a prefix dropped and at most the first survivor shrunk. */
  lemma {:induction false} ConsumeFifoKeepsOrder(lots: seq<Lot>, want: int, nextId: nat, ctx: SellContext)
    ensures Untouched(lots, ConsumeFifo(lots, want, nextId, ctx).1)
    decreases |lots|
  {
    if lots != [] && want > 0 {
      var entry := lots[0];
      var take := Min(entry.quantity, want);
      var r := ConsumeFifo(lots, want, nextId, ctx);
      var sub := ConsumeFifo(lots[1..], want - take, nextId + 1, ctx);
      var left := entry.quantity - take;
      ConsumeFifoUnfold(lots, want, nextId, ctx);
      if left > 0 {
        ConsumeFifoEmpty(lots[1..], want - take, nextId + 1, ctx);
        assert want - take <= 0;
        assert sub.1 == lots[1..];
        assert r.1 == [entry.(quantity := left)] + lots[1..];
        assert UntouchedFrom(lots, r.1, 0);
      } else {
        assert r.1 == sub.1;
        ConsumeFifoKeepsOrder(lots[1..], want - take, nextId + 1, ctx);
        UntouchedDrop(lots, sub.1);
      }
    } else {
      ConsumeFifoEmpty(lots, want, nextId, ctx);
      assert UntouchedFrom(lots, lots, 0);
    }
  }

  /** `rest` is `lots` with some exhausted prefix removed and, possibly, the first
      surviving lot shrunk: every later lot is unchanged and keeps its order. */
  ghost predicate Untouched(lots: seq<Lot>, rest: seq<Lot>) {
    exists k :: UntouchedFrom(lots, rest, k)
  }

  /** `rest` is `lots[k..]` with its first lot possibly shrunk. */
  predicate UntouchedFrom(lots: seq<Lot>, rest: seq<Lot>, k: int) {
    && 0 <= k <= |lots| && |rest| == |lots| - k
    && (forall j :: 0 < j < |rest| ==> rest[j] == lots[k + j])
    && (|rest| > 0 ==> rest[0] == lots[k].(quantity := rest[0].quantity)
                       && rest[0].quantity <= lots[k].quantity)
  }

  lemma UntouchedDrop(lots: seq<Lot>, rest: seq<Lot>)
    requires lots != [] && Untouched(lots[1..], rest)
    ensures Untouched(lots, rest)
  {
    var k :| UntouchedFrom(lots[1..], rest, k);
    assert forall j :: 0 < j < |rest| ==> rest[j] == lots[k + 1 + j];
    assert UntouchedFrom(lots, rest, k + 1);
  }

  /** The forced-liquidation record for a whole lot: unlike a sell, the exit commission
      is computed on this lot's own quantity. */
  function LiquidationRecord(id: nat, symbol: string, exitDate: int, price: real, feeRate: real, lot: Lot)
    : (t: TradeRecord)
    ensures t.tradeId == id && t.quantity == lot.quantity && t.symbol == symbol
    ensures t.entryPrice == lot.price && t.exitPrice == price && t.exitDate == exitDate
    ensures t.entryDate == lot.date
    ensures t.commission == (lot.price + price) * lot.quantity as real * feeRate
    ensures t.pnl == price * lot.quantity as real - lot.price * lot.quantity as real - t.commission
    ensures t.reason == EndOfRun
  {
    var entryCommission := lot.price * lot.quantity as real * feeRate;
    var sellCommission := price * lot.quantity as real * feeRate;
    var entryValue := lot.price * lot.quantity as real;
    var sellValue := price * lot.quantity as real;
    var pnl := sellValue - entryValue - entryCommission - sellCommission;
    var pnlRate := if entryValue > 0.0 then pnl / entryValue else 0.0;
    TradeRecord(id, symbol, lot.date, lot.price, exitDate, price, lot.quantity, pnl, pnlRate,
                "long", entryCommission + sellCommission, EndOfRun)
  }

  /** One liquidation record per lot, in lot order, numbered from `nextId`. */
  function LiquidationRecords(lots: seq<Lot>, nextId: nat, symbol: string, exitDate: int, price: real, feeRate: real)
    : (r: seq<TradeRecord>)
    ensures |r| == |lots|
    ensures forall k :: 0 <= k < |lots| ==>
              r[k] == LiquidationRecord(nextId + k, symbol, exitDate, price, feeRate, lots[k])
    decreases |lots|
  {
    if lots == [] then []
    else [LiquidationRecord(nextId, symbol, exitDate, price, feeRate, lots[0])]
         + LiquidationRecords(lots[1..], nextId + 1, symbol, exitDate, price, feeRate)
  }

  /** Liquidation records account for every share of the lots. */
  lemma {:induction false} LiquidationRecordsQuantity(lots: seq<Lot>, nextId: nat, symbol: string, exitDate: int, price: real, feeRate: real)
    ensures RecordsQuantity(LiquidationRecords(lots, nextId, symbol, exitDate, price, feeRate)) == LotsQuantity(lots)
    decreases |lots|
  {
    if lots != [] {
      var r := LiquidationRecords(lots, nextId, symbol, exitDate, price, feeRate);
      assert r[1..] == LiquidationRecords(lots[1..], nextId + 1, symbol, exitDate, price, feeRate);
      LiquidationRecordsQuantity(lots[1..], nextId + 1, symbol, exitDate, price, feeRate);
    }
  }

  /** Every record is priced at the sell's exit price, and its commission adds the
      commission on the whole sell quantity to the lot's own entry commission. */
  predicate ChargedOnWholeSell(recs: seq<TradeRecord>, ctx: SellContext) {
    forall k :: 0 <= k < |recs| ==>
      recs[k].exitPrice == ctx.exitPrice &&
      recs[k].commission == (recs[k].entryPrice * recs[k].quantity as real
                             + ctx.exitPrice * ctx.sellQuantity as real) * ctx.feeRate
  }

  lemma {:induction false} ConsumeFifoCommissions(lots: seq<Lot>, want: int, nextId: nat, ctx: SellContext)
    ensures ChargedOnWholeSell(ConsumeFifo(lots, want, nextId, ctx).0, ctx)
    decreases |lots|
  {
    if lots != [] && want > 0 {
      var take := Min(lots[0].quantity, want);
      var r := ConsumeFifo(lots, want, nextId, ctx);
      var sub := ConsumeFifo(lots[1..], want - take, nextId + 1, ctx);
      ConsumeFifoCommissions(lots[1..], want - take, nextId + 1, ctx);
      var t := SellRecord(nextId, ctx, lots[0], take);
      ConsumeFifoUnfold(lots, want, nextId, ctx);
      SellRecordCharged(nextId, ctx, lots[0], take);
      ChargedAppend([t], sub.0, ctx);
    }
  }

  lemma SellRecordCharged(id: nat, ctx: SellContext, lot: Lot, take: int)
    ensures ChargedOnWholeSell([SellRecord(id, ctx, lot, take)], ctx)
  {
    var t := SellRecord(id, ctx, lot, take);
    assert [t][0] == t;
  }

  lemma ChargedAppend(a: seq<TradeRecord>, b: seq<TradeRecord>, ctx: SellContext)
    requires ChargedOnWholeSell(a, ctx) && ChargedOnWholeSell(b, ctx)
    ensures ChargedOnWholeSell(a + b, ctx)
  {
    forall k | |a| <= k < |a + b| ensures (a + b)[k] == b[k - |a|] { }
  }
}
