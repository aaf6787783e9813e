/** Positions and the cash account (src/models/account.py). */
module Accounts {

  /** A holding of one instrument at an average cost. */
  datatype Position = Position(symbol: string, quantity: int, avgCost: real)

  /** The validator's constraints: quantity and average cost are non-negative. */
  predicate ValidPosition(p: Position) {
    p.quantity >= 0 && p.avgCost >= 0.0
  }

  /** Value of the holding at `price`. */
  function MarketValue(p: Position, price: real): (r: real)
    ensures p.quantity == 0 ==> r == 0.0
    ensures p.quantity > 0 && price >= 0.0 ==> r >= 0.0
    ensures p.quantity > 0 ==> r / p.quantity as real == price
  {
    p.quantity as real * price
  }

  /** Paper gain over the average cost; a flat position has none. */
  function UnrealizedPnl(p: Position, price: real): (r: real)
    ensures p.quantity <= 0 ==> r == 0.0
    ensures p.quantity > 0 ==> (r > 0.0 <==> price > p.avgCost)
    ensures p.quantity > 0 ==> (r == 0.0 <==> price == p.avgCost)
  {
    if p.quantity > 0 then (price - p.avgCost) * p.quantity as real else 0.0
  }

  /** For a valid position the paper gain is its market value less its cost basis. */
  lemma UnrealizedPnlIsValueOverCost(p: Position, price: real)
    requires ValidPosition(p)
    ensures UnrealizedPnl(p, price) == MarketValue(p, price) - MarketValue(p, p.avgCost)
  {
  }

  /** The constraints the validator puts on a new account: positive capital and a fee
      rate between 0 and 1%. An account that violates them is never constructed. */
  predicate ValidAccountConfig(initialCapital: real, feeRate: real) {
    initialCapital > 0.0 && 0.0 <= feeRate <= 0.01
  }

  class Account {
    const initialCapital: real
    const feeRate: real
    var cash: real
    var positions: map<string, Position>
    var frozenCash: real
    var totalCommission: real

    /** A new account starts with all of its capital in cash and nothing else. */
    constructor (initialCapital: real, feeRate: real)
      requires ValidAccountConfig(initialCapital, feeRate)
      ensures this.initialCapital == initialCapital && this.feeRate == feeRate
      ensures cash == initialCapital
      ensures positions == map[] && frozenCash == 0.0 && totalCommission == 0.0
    {
      this.initialCapital := initialCapital;
      this.feeRate := feeRate;
      cash := initialCapital;
      positions := map[];
      frozenCash := 0.0;
      totalCommission := 0.0;
    }

    /** The account's total value counts its cash only; positions are not valued. */
    function TotalValue(): (r: real)
      reads this
      ensures r == cash
    {
      cash
    }

    /** Adds `amount` (negative for a debit) to the cash and changes nothing else. */
    method UpdateCash(amount: real)
      modifies this`cash
      ensures cash == old(cash) + amount
    {
      cash := cash + amount;
    }

    /** Returns the position held for `symbol`, first inserting an empty one when there
        is none; no other entry of the table changes. */
    method GetPosition(symbol: string) returns (p: Position)
      modifies this`positions
      ensures symbol in old(positions) ==> positions == old(positions) && p == old(positions)[symbol]
      ensures symbol !in old(positions) ==>
                positions == old(positions)[symbol := Position(symbol, 0, 0.0)]
      ensures symbol in positions && p == positions[symbol]
      ensures forall s :: s in old(positions) ==> s in positions && positions[s] == old(positions)[s]
      ensures positions.Keys == old(positions).Keys + {symbol}
    {
      if symbol !in positions {
        positions := positions[symbol := Position(symbol, 0, 0.0)];
      }
      p := positions[symbol];
    }
  }
}
