/** The performance figures of `_build_result` and its helpers in src/core/engine.py:
    period returns, annualised risk, maximum drawdown, win rate and profit/loss ratio. */
module Metrics {
  import opened Rolling
  import opened Results

  /** Trading days per year used to annualise. */
  const AnnualFactor: real := 252.0

  /** Every sample that serves as a divisor of a period return is non-zero. */
  predicate NoZeroDivisor(curve: seq<real>) {
    forall k :: 0 <= k < |curve| - 1 ==> curve[k] != 0.0
  }

  /** `_calculate_returns`: the relative change between consecutive equity samples. */
  function Returns(curve: seq<real>): (r: seq<real>)
    requires NoZeroDivisor(curve)
    ensures |curve| == 0 ==> r == []
    ensures |curve| > 0 ==> |r| == |curve| - 1
  {
    if |curve| == 0 then []
    else seq(|curve| - 1, k requires 0 <= k < |curve| - 1 =>
                         (curve[k + 1] - curve[k]) / curve[k])
  }

  /** A value grown by one period return. */
  function ApplyReturn(value: real, rate: real): real {
    value * (1.0 + rate)
  }

  /** The `k`-th period return grows sample `k` into sample `k + 1`. */
  lemma ReturnLinksSample(curve: seq<real>, k: nat)
    requires NoZeroDivisor(curve) && k < |curve| - 1
    ensures ApplyReturn(curve[k], Returns(curve)[k]) == curve[k + 1]
  {
    var q := Returns(curve)[k];
    assert q == (curve[k + 1] - curve[k]) / curve[k];
    ChangeRestores(curve[k], curve[k + 1], q);
  }

  /** A relative change applied to its base gives back the new value. */
  lemma ChangeRestores(a: real, b: real, q: real)
    requires a != 0.0 && q == (b - a) / a
    ensures ApplyReturn(a, q) == b
  {
    assert q * a == b - a;
    assert a * (1.0 + q) == a + q * a;
  }

  /** `start` grown by the first `n` returns in turn. */
  function Compound(start: real, rs: seq<real>, n: nat): real
    requires n <= |rs|
    decreases n
  {
    if n == 0 then start else ApplyReturn(Compound(start, rs, n - 1), rs[n - 1])
  }

  /** Compounding the period returns from the first sample gives back the last one:
      the returns lose nothing of the equity curve. */
  lemma {:induction false} ReturnsCompound(curve: seq<real>)
    requires |curve| > 0 && NoZeroDivisor(curve)
    ensures Compound(curve[0], Returns(curve), |curve| - 1) == curve[|curve| - 1]
  {
    CompoundRun(curve, |curve| - 1);
  }

  /** Compounding the first `n` period returns from the first sample gives sample `n`. */
  lemma {:induction false} CompoundRun(curve: seq<real>, n: nat)
    requires NoZeroDivisor(curve) && n < |curve|
    ensures Compound(curve[0], Returns(curve), n) == curve[n]
    decreases n
  {
    if n > 0 {
      CompoundRun(curve, n - 1);
      ReturnLinksSample(curve, n - 1);
    }
  }

  /** A flat equity curve has only zero period returns. */
  lemma FlatCurveZeroReturns(curve: seq<real>, c: real)
    requires c != 0.0 && forall k :: 0 <= k < |curve| ==> curve[k] == c
    ensures NoZeroDivisor(curve)
    ensures forall k :: 0 <= k < |Returns(curve)| ==> Returns(curve)[k] == 0.0
  {
    var r := Returns(curve);
    forall k | 0 <= k < |r| ensures r[k] == 0.0 {
      ReturnLinksSample(curve, k);
      assert c * (1.0 + r[k]) == c;
    }
  }

  function Mean(xs: seq<real>): real
    requires |xs| > 0
  {
    Sum(xs) / |xs| as real
  }

  /** The triple `_calculate_risk_metrics` returns. */
  datatype Risk = Risk(annualReturn: real, volatility: real, sharpe: real)

  /** `_calculate_risk_metrics`: all zero without period returns; otherwise the mean return times
      252, the annualised volatility `volatilityOf` reports (numpy's population standard
      deviation times the square root of 252, not modelled), and their ratio when the
      volatility is positive, else 0. */
  function RiskMetrics(periodReturns: seq<real>, volatilityOf: seq<real> -> real): (r: Risk)
    ensures periodReturns == [] ==> r == Risk(0.0, 0.0, 0.0)
    ensures periodReturns != [] ==> r.volatility == volatilityOf(periodReturns)
    ensures r.volatility <= 0.0 ==> r.sharpe == 0.0
  {
    if periodReturns == [] then Risk(0.0, 0.0, 0.0)
    else
      var meanReturn := Mean(periodReturns) * AnnualFactor;
      var stdReturn := volatilityOf(periodReturns);
      Risk(meanReturn, stdReturn, if stdReturn > 0.0 then meanReturn / stdReturn else 0.0)
  }

  /** The annual return is 252 times the mean period return, and with a positive
      volatility the Sharpe ratio is the annual return per unit of volatility. */
  lemma RiskMetricsScaling(periodReturns: seq<real>, volatilityOf: seq<real> -> real)
    ensures var r := RiskMetrics(periodReturns, volatilityOf);
            && (periodReturns != [] ==>
                  r.annualReturn * |periodReturns| as real == Sum(periodReturns) * AnnualFactor)
            && (r.volatility > 0.0 ==> r.sharpe * r.volatility == r.annualReturn)
  {
    var r := RiskMetrics(periodReturns, volatilityOf);
    if periodReturns != [] {
      var n := |periodReturns| as real;
      var m := Sum(periodReturns) / n;
      assert m * n == Sum(periodReturns);
      assert r.annualReturn == m * AnnualFactor;
      assert r.annualReturn * n == (m * n) * AnnualFactor;
      if r.volatility > 0.0 {
        var q := r.annualReturn / r.volatility;
        assert q * r.volatility == r.annualReturn;
      }
    }
  }

  /** With a positive volatility the Sharpe ratio has the sign of the annual return. */
  lemma SharpeSign(periodReturns: seq<real>, volatilityOf: seq<real> -> real)
    requires RiskMetrics(periodReturns, volatilityOf).volatility > 0.0
    ensures var r := RiskMetrics(periodReturns, volatilityOf);
            (r.sharpe > 0.0 <==> r.annualReturn > 0.0) && (r.sharpe < 0.0 <==> r.annualReturn < 0.0)
  {
    var r := RiskMetrics(periodReturns, volatilityOf);
    RiskMetricsScaling(periodReturns, volatilityOf);
    assert r.sharpe * r.volatility == r.annualReturn;
    if r.sharpe > 0.0 { assert r.sharpe * r.volatility > 0.0; }
    if r.sharpe < 0.0 { assert r.sharpe * r.volatility < 0.0; }
  }

  /** Returns that are all the same value annualise to 252 times it. */
  lemma ConstantReturnsAnnualise(periodReturns: seq<real>, c: real, volatilityOf: seq<real> -> real)
    requires periodReturns != [] && forall k :: 0 <= k < |periodReturns| ==> periodReturns[k] == c
    ensures RiskMetrics(periodReturns, volatilityOf).annualReturn == c * AnnualFactor
  {
    SumConstant(periodReturns, c);
    var n := |periodReturns| as real;
    CancelFactor(Sum(periodReturns), n, c);
  }

  /** Dividing a multiple of `n` by `n` leaves the other factor. */
  lemma CancelFactor(x: real, n: real, c: real)
    requires n != 0.0 && x == n * c
    ensures x / n == c
  {
    var q := x / n;
    assert q * n == x;
    assert (q - c) * n == 0.0;
  }

  /** Running maximum of the equity curve up to and including sample `i`. */
  function Peak(curve: seq<real>, i: nat): (p: real)
    requires i < |curve|
    ensures curve[0] <= p && curve[i] <= p
    decreases i
  {
    if i == 0 then curve[0]
    else
      var before := Peak(curve, i - 1);
      if curve[i] > before then curve[i] else before
  }

  /** The running peak bounds every sample up to `i` and is one of them. */
  lemma {:induction false} PeakIsMaximum(curve: seq<real>, i: nat)
    requires i < |curve|
    ensures forall j :: 0 <= j <= i ==> curve[j] <= Peak(curve, i)
    ensures exists j :: 0 <= j <= i && Peak(curve, i) == curve[j]
    decreases i
  {
    if i > 0 {
      PeakIsMaximum(curve, i - 1);
      var j :| 0 <= j <= i - 1 && Peak(curve, i - 1) == curve[j];
      if curve[i] > Peak(curve, i - 1) {
        assert Peak(curve, i) == curve[i];
      } else {
        assert Peak(curve, i) == curve[j];
      }
    }
  }

  /** Relative fall of sample `i` from the running peak. */
  function Drawdown(curve: seq<real>, i: nat): real
    requires i < |curve| && curve[0] > 0.0
  {
    (Peak(curve, i) - curve[i]) / Peak(curve, i)
  }

  /** Largest drawdown over the first `n` samples, starting from 0. */
  function MaxDrawdownUpTo(curve: seq<real>, n: nat): real
    requires n <= |curve| && (n > 0 ==> curve[0] > 0.0)
    decreases n
  {
    if n == 0 then 0.0
    else
      var before := MaxDrawdownUpTo(curve, n - 1);
      var d := Drawdown(curve, n - 1);
      if d > before then d else before
  }

  /** `_calculate_max_drawdown`: 0 for an empty curve, else the largest drawdown. */
  function MaxDrawdown(curve: seq<real>): real
    requires |curve| > 0 ==> curve[0] > 0.0
  {
    MaxDrawdownUpTo(curve, |curve|)
  }

  /** The maximum drawdown is at least 0, bounds every sample's drawdown, and is either 0 or
      attained at some sample. */
  lemma {:induction false} MaxDrawdownIsMaximum(curve: seq<real>, n: nat)
    requires n <= |curve| && (n > 0 ==> curve[0] > 0.0)
    ensures MaxDrawdownUpTo(curve, n) >= 0.0
    ensures forall i :: 0 <= i < n ==> Drawdown(curve, i) <= MaxDrawdownUpTo(curve, n)
    ensures MaxDrawdownUpTo(curve, n) == 0.0 ||
            exists i :: 0 <= i < n && MaxDrawdownUpTo(curve, n) == Drawdown(curve, i)
    decreases n
  {
    if n > 0 {
      MaxDrawdownIsMaximum(curve, n - 1);
    }
  }

  /** With no negative samples the drawdown never exceeds 100%. */
  lemma {:induction false} DrawdownAtMostOne(curve: seq<real>, n: nat)
    requires n <= |curve| && (n > 0 ==> curve[0] > 0.0)
    requires forall k :: 0 <= k < |curve| ==> curve[k] >= 0.0
    ensures MaxDrawdownUpTo(curve, n) <= 1.0
    decreases n
  {
    if n > 0 {
      DrawdownAtMostOne(curve, n - 1);
      var p := Peak(curve, n - 1);
      assert p >= curve[0];
      FractionAtMostOne(p - curve[n - 1], p);
    }
  }

  lemma FractionAtMostOne(a: real, p: real)
    requires p > 0.0 && a <= p
    ensures a / p <= 1.0
  {
    var q := a / p;
    assert q * p == a;
  }

  /** An equity curve that never falls has no drawdown. */
  lemma {:induction false} NonDecreasingNoDrawdown(curve: seq<real>, n: nat)
    requires n <= |curve| && (n > 0 ==> curve[0] > 0.0)
    requires forall k :: 0 < k < |curve| ==> curve[k - 1] <= curve[k]
    ensures MaxDrawdownUpTo(curve, n) == 0.0
    decreases n
  {
    if n > 0 {
      NonDecreasingNoDrawdown(curve, n - 1);
      PeakOfNonDecreasing(curve, n - 1);
    }
  }

  lemma {:induction false} PeakOfNonDecreasing(curve: seq<real>, i: nat)
    requires i < |curve|
    requires forall k :: 0 < k < |curve| ==> curve[k - 1] <= curve[k]
    ensures Peak(curve, i) == curve[i]
    decreases i
  {
    if i > 0 {
      PeakOfNonDecreasing(curve, i - 1);
    }
  }

  /** A rise to 110000 and a fall to 99000 is a 10% drawdown; the later recovery does not
      change it. */
  lemma DrawdownExample()
    ensures MaxDrawdown([100000.0, 110000.0, 99000.0, 105000.0]) == 0.1
  {
    var c := [100000.0, 110000.0, 99000.0, 105000.0];
    assert Peak(c, 0) == 100000.0;
    assert Peak(c, 1) == 110000.0;
    assert Peak(c, 2) == 110000.0;
    assert Peak(c, 3) == 110000.0;
    assert Drawdown(c, 0) == 0.0;
    assert Drawdown(c, 1) == 0.0;
    assert Drawdown(c, 2) == 0.1;
    assert Drawdown(c, 3) == 5000.0 / 110000.0;
    assert MaxDrawdownUpTo(c, 1) == 0.0;
    assert MaxDrawdownUpTo(c, 2) == 0.0;
    assert MaxDrawdownUpTo(c, 3) == 0.1;
    assert MaxDrawdownUpTo(c, 4) == 0.1;
  }

  function Wins(trades: seq<TradeRecord>): (n: nat)
    ensures n <= |trades|
    decreases |trades|
  {
    if trades == [] then 0 else (if trades[0].pnl > 0.0 then 1 else 0) + Wins(trades[1..])
  }

  /** The share of closed trades with a positive pnl, 0 without trades. */
  function WinRate(trades: seq<TradeRecord>): (r: real)
    ensures 0.0 <= r <= 1.0
    ensures trades == [] ==> r == 0.0
  {
    if trades == [] then 0.0 else Wins(trades) as real / |trades| as real
  }

  /** The win rate is 1 exactly when every trade made money, and 0 exactly when none did. */
  lemma {:induction false} WinRateExtremes(trades: seq<TradeRecord>)
    ensures (WinRate(trades) == 1.0) <==> (trades != [] && forall k :: 0 <= k < |trades| ==> trades[k].pnl > 0.0)
    ensures (WinRate(trades) == 0.0) <==> (forall k :: 0 <= k < |trades| ==> trades[k].pnl <= 0.0)
  {
    WinsCount(trades);
    if trades != [] {
      RatioExtremes(Wins(trades) as real, |trades| as real);
    }
  }

  /** A share of a positive whole is 1 exactly for all of it and 0 exactly for none. */
  lemma RatioExtremes(part: real, whole: real)
    requires whole > 0.0
    ensures part / whole == 1.0 <==> part == whole
    ensures part / whole == 0.0 <==> part == 0.0
  {
    var q := part / whole;
    assert q * whole == part;
  }

  lemma {:induction false} WinsCount(trades: seq<TradeRecord>)
    ensures (Wins(trades) == |trades|) <==> (forall k :: 0 <= k < |trades| ==> trades[k].pnl > 0.0)
    ensures (Wins(trades) == 0) <==> (forall k :: 0 <= k < |trades| ==> trades[k].pnl <= 0.0)
    decreases |trades|
  {
    if trades != [] {
      WinsCount(trades[1..]);
      assert forall k :: 1 <= k < |trades| ==> trades[k] == trades[1..][k - 1];
    }
  }

  /** The pnls of the winning trades, in order: one per winning trade. */
  function Profits(trades: seq<TradeRecord>): (r: seq<real>)
    ensures forall k :: 0 <= k < |r| ==> r[k] > 0.0
    ensures |r| == Wins(trades)
    ensures forall k :: 0 <= k < |trades| && trades[k].pnl > 0.0 ==> trades[k].pnl in r
    decreases |trades|
  {
    if trades == [] then []
    else (if trades[0].pnl > 0.0 then [trades[0].pnl] else []) + Profits(trades[1..])
  }

  /** Number of trades with a negative pnl. */
  function Defeats(trades: seq<TradeRecord>): (n: nat)
    ensures n + Wins(trades) <= |trades|
    decreases |trades|
  {
    if trades == [] then 0 else (if trades[0].pnl < 0.0 then 1 else 0) + Defeats(trades[1..])
  }

  /** The absolute pnls of the losing trades, in order: one per losing trade. */
  function Losses(trades: seq<TradeRecord>): (r: seq<real>)
    ensures forall k :: 0 <= k < |r| ==> r[k] > 0.0
    ensures |r| == Defeats(trades)
    ensures forall k :: 0 <= k < |trades| && trades[k].pnl < 0.0 ==> -trades[k].pnl in r
    decreases |trades|
  {
    if trades == [] then []
    else (if trades[0].pnl < 0.0 then [-trades[0].pnl] else []) + Losses(trades[1..])
  }

  /** `_calculate_profit_loss_ratio`: the average win over the average loss, where a
      missing side averages to 0 (wins) or 1 (losses). */
  function ProfitLossRatio(trades: seq<TradeRecord>): real
  {
    var profits := Profits(trades);
    var losses := Losses(trades);
    var avgProfit := if profits != [] then Sum(profits) / |profits| as real else 0.0;
    var avgLoss := if losses != [] then Sum(losses) / |losses| as real else 1.0;
    if avgLoss > 0.0 then avgProfit / avgLoss else 0.0
  }

  /** The ratio is never negative, it is 0 without wins, and without losses it is the
      average win. */
  lemma ProfitLossRatioSpec(trades: seq<TradeRecord>)
    ensures ProfitLossRatio(trades) >= 0.0
    ensures Profits(trades) == [] ==> ProfitLossRatio(trades) == 0.0
    ensures Losses(trades) == [] && Profits(trades) != [] ==>
              ProfitLossRatio(trades) == Mean(Profits(trades))
  {
    var profits := Profits(trades);
    var losses := Losses(trades);
    var avgProfit := if profits != [] then Sum(profits) / |profits| as real else 0.0;
    var avgLoss := if losses != [] then Sum(losses) / |losses| as real else 1.0;
    assert avgProfit >= 0.0 by {
      if profits != [] {
        SumNonNegative(profits);
        QuotientNonNegative(Sum(profits), |profits| as real);
      }
    }
    assert avgLoss > 0.0 by {
      if losses != [] {
        SumPositive(losses);
        QuotientPositive(Sum(losses), |losses| as real);
      }
    }
    assert ProfitLossRatio(trades) == avgProfit / avgLoss;
    QuotientNonNegative(avgProfit, avgLoss);
    if losses == [] {
      assert avgProfit / 1.0 == avgProfit;
    }
  }

  /** The same in terms of the trades themselves: the ratio is 0 when no trade made money,
      and the average winning pnl when some trade made money and none lost any. */
  lemma ProfitLossRatioOverTrades(trades: seq<TradeRecord>)
    ensures (forall k :: 0 <= k < |trades| ==> trades[k].pnl <= 0.0) ==> ProfitLossRatio(trades) == 0.0
    ensures (exists k :: 0 <= k < |trades| && trades[k].pnl > 0.0)
            && (forall k :: 0 <= k < |trades| ==> trades[k].pnl >= 0.0) ==>
              Profits(trades) != [] && ProfitLossRatio(trades) == Mean(Profits(trades))
  {
    WinsCount(trades);
    ProfitLossRatioSpec(trades);
    if forall k :: 0 <= k < |trades| ==> trades[k].pnl >= 0.0 {
      NoDefeats(trades);
    }
  }

  lemma {:induction false} NoDefeats(trades: seq<TradeRecord>)
    requires forall k :: 0 <= k < |trades| ==> trades[k].pnl >= 0.0
    ensures Defeats(trades) == 0
    decreases |trades|
  {
    if trades != [] {
      assert forall k :: 0 <= k < |trades[1..]| ==> trades[1..][k] == trades[k + 1];
      NoDefeats(trades[1..]);
    }
  }

  lemma QuotientNonNegative(a: real, b: real)
    requires a >= 0.0 && b > 0.0
    ensures a / b >= 0.0
  {
    var q := a / b;
    assert q * b == a;
  }

  lemma QuotientPositive(a: real, b: real)
    requires a > 0.0 && b > 0.0
    ensures a / b > 0.0
  {
    var q := a / b;
    assert q * b == a;
  }

  lemma {:induction false} SumPositive(s: seq<real>)
    requires s != [] && forall k :: 0 <= k < |s| ==> s[k] > 0.0
    ensures Sum(s) > 0.0
  {
    SumNonNegative(s[1..]);
  }

  function ExampleRecord(id: nat, pnl: real): TradeRecord {
    TradeRecord(id, "000001", 0, 10.0, 1, 11.0, 100, pnl, 0.0, "long", 0.0, EndOfRun)
  }

  /** Two winners of 100 and 200 and no loser: the ratio is their average, 150. */
  lemma ProfitLossRatioExample()
    ensures ProfitLossRatio([ExampleRecord(1, 100.0), ExampleRecord(2, 200.0)]) == 150.0
  {
    var ts := [ExampleRecord(1, 100.0), ExampleRecord(2, 200.0)];
    assert ts[1..] == [ExampleRecord(2, 200.0)];
    assert Profits(ts) == [100.0, 200.0];
    assert Losses(ts) == [];
    assert Sum([100.0, 200.0]) == 300.0;
  }
}
