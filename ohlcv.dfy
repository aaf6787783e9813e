/** Daily price bars (src/models/ohlcv.py). */
module Ohlcv {
  import opened Wrappers

  /** One daily OHLCV bar; the trade date is a day number. */
  datatype Bar = Bar(
    symbol: string,
    tradeDate: int,
    openPrice: real,
    highPrice: real,
    lowPrice: real,
    closePrice: real,
    volume: int,
    turnover: real,
    adjustment: string)

  /** The field constraints the record validator enforces on construction. */
  predicate ValidBar(b: Bar) {
    && b.openPrice >= 0.0
    && b.highPrice >= 0.0
    && b.lowPrice >= 0.0
    && b.closePrice >= 0.0
    && b.volume >= 0
    && b.turnover >= 0.0
  }

  /** Distance between the day's high and low. */
  function PriceRange(b: Bar): (r: real)
    ensures b.lowPrice + r == b.highPrice
    ensures r >= 0.0 <==> b.highPrice >= b.lowPrice
    ensures ValidBar(b) ==> r <= b.highPrice
  {
    b.highPrice - b.lowPrice
  }

  /** A bar is "up" when it closes at or above its open (a flat bar counts as up). */
  function IsUp(b: Bar): (r: bool)
    ensures r <==> !(b.closePrice < b.openPrice)
    ensures b.closePrice == b.openPrice ==> r
  {
    b.closePrice >= b.openPrice
  }

  /** An instrument's bar series with its optional requested date range. */
  datatype BarData = BarData(
    symbol: string,
    bars: seq<Bar>,
    startDate: Option<int>,
    endDate: Option<int>)

  predicate ValidBarData(d: BarData) {
    forall i :: 0 <= i < |d.bars| ==> ValidBar(d.bars[i])
  }

  /** `total_bars`: the number of bars. */
  function TotalBars(d: BarData): (n: nat)
    ensures n == |d.bars|
    ensures n == 0 <==> d.bars == []
  {
    |d.bars|
  }

  /** `len(data)` is defined through `total_bars`. */
  function Length(d: BarData): (n: nat)
    ensures n == TotalBars(d)
  {
    TotalBars(d)
  }

  /** `data[i]`, with Python's indexing: a negative index counts from the end and an
      index outside the series raises IndexError (here `None`). */
  function At(d: BarData, i: int): (b: Option<Bar>)
    ensures b.Some? <==> -(Length(d) as int) <= i < Length(d)
    ensures 0 <= i < Length(d) ==> b == Some(d.bars[i])
    ensures -(Length(d) as int) <= i < 0 ==> b == Some(d.bars[Length(d) + i])
  {
    if 0 <= i < |d.bars| then Some(d.bars[i])
    else if -|d.bars| <= i < 0 then Some(d.bars[|d.bars| + i])
    else None
  }

  /** `data[-1]` is the last bar. */
  lemma LastBar(d: BarData)
    requires d.bars != []
    ensures At(d, -1) == Some(d.bars[|d.bars| - 1])
  {
  }

  /** Every bar read out of a valid series is itself valid. */
  lemma AtValid(d: BarData, i: int)
    requires ValidBarData(d) && At(d, i).Some?
    ensures ValidBar(At(d, i).value)
  {
  }

  /** The closing prices of a bar list, in order (the strategies' `closes` column). */
  function Closes(bars: seq<Bar>): (c: seq<real>)
    ensures |c| == |bars|
    ensures forall k :: 0 <= k < |bars| ==> c[k] == bars[k].closePrice
  {
    seq(|bars|, k requires 0 <= k < |bars| => bars[k].closePrice)
  }
}
