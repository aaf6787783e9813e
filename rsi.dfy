/** The RSI threshold-crossing strategy (src/strategy/rsi.py). */
module Rsi {
  import opened Wrappers
  import opened Ohlcv
  import opened Signals
  import opened Rolling

  datatype RsiParams = RsiParams(period: nat, oversold: real, overbought: real, positionRatio: real)

  /** A window of at least one bar, and a ratio the signal validator accepts. */
  predicate ValidParams(p: RsiParams) {
    p.period >= 1 && 0.0 <= p.positionRatio <= 1.0
  }

  /** Positive part of each close-to-close change; the first bar (whose change is NaN)
      counts as 0. */
  function Gains(closes: seq<real>): (g: seq<real>)
    ensures |g| == |closes|
    ensures |closes| > 0 ==> g[0] == 0.0
    ensures forall k :: 0 <= k < |closes| ==> g[k] >= 0.0
  {
    seq(|closes|, k requires 0 <= k < |closes| =>
      if k > 0 && closes[k] - closes[k - 1] > 0.0 then closes[k] - closes[k - 1] else 0.0)
  }

  /** Negative part, as a positive number, of each change; 0 for the first bar. */
  function Losses(closes: seq<real>): (l: seq<real>)
    ensures |l| == |closes|
    ensures |closes| > 0 ==> l[0] == 0.0
    ensures forall k :: 0 <= k < |closes| ==> l[k] >= 0.0
  {
    seq(|closes|, k requires 0 <= k < |closes| =>
      if k > 0 && closes[k] - closes[k - 1] < 0.0 then -(closes[k] - closes[k - 1]) else 0.0)
  }

  /** Past the first bar, the gain and the loss are the positive and negative parts of the
      change: at most one of them is non-zero and their difference is the change. */
  lemma GainLossParts(closes: seq<real>, k: nat)
    requires 0 < k < |closes|
    ensures var d := closes[k] - closes[k - 1];
            && Gains(closes)[k] == (if d > 0.0 then d else 0.0)
            && Losses(closes)[k] == (if d < 0.0 then -d else 0.0)
            && Gains(closes)[k] - Losses(closes)[k] == d
            && (Gains(closes)[k] == 0.0 || Losses(closes)[k] == 0.0)
  {
  }

  /** `100 - 100 / (1 + avgGain / avgLoss)` under floating-point rules: 0/0 is NaN (here
      `None`) and a positive gain over no loss is an infinite ratio, giving 100. */
  function RsiValue(avgGain: real, avgLoss: real): (r: Option<real>)
    requires avgGain >= 0.0 && avgLoss >= 0.0
    ensures r.None? <==> avgGain == 0.0 && avgLoss == 0.0
    ensures r.Some? ==> 0.0 <= r.value <= 100.0
    ensures avgLoss == 0.0 && avgGain > 0.0 ==> r == Some(100.0)
  {
    if avgLoss == 0.0 then
      (if avgGain == 0.0 then None else Some(100.0))
    else
      var rs := avgGain / avgLoss;
      RsiClosedForm(avgGain, avgLoss);
      Some(100.0 - 100.0 / (1.0 + rs))
  }

  /** With some loss in the window the RSI is the gains' share of all movement, in percent. */
  lemma RsiValueShare(avgGain: real, avgLoss: real)
    requires avgGain >= 0.0 && avgLoss > 0.0
    ensures RsiValue(avgGain, avgLoss) == Some(100.0 * avgGain / (avgGain + avgLoss))
  {
    RsiClosedForm(avgGain, avgLoss);
  }

  /** With some loss in the window, `100 - 100 / (1 + g / l)` is `100 g / (g + l)`. */
  lemma RsiClosedForm(g: real, l: real)
    requires g >= 0.0 && l > 0.0
    ensures 100.0 - 100.0 / (1.0 + g / l) == 100.0 * g / (g + l)
    ensures 0.0 <= 100.0 * g / (g + l) <= 100.0
  {
    var d := 1.0 + g / l;
    assert d * l == l + g;
    assert d > 0.0;
    var t := 100.0 / d;
    assert t * d == 100.0;
    assert t * (g + l) == (t * d) * l;
    var u := 100.0 - t;
    assert u * (g + l) == 100.0 * g;
    DivisionByProduct(u, 100.0 * g, g + l);
    assert g <= g + l;
    assert 100.0 * g <= 100.0 * (g + l);
    DivisionByProduct(100.0, 100.0 * (g + l), g + l);
  }

  /** `x` is `y / z` once `x * z == y` with `z` positive. */
  lemma DivisionByProduct(x: real, y: real, z: real)
    requires z > 0.0 && x * z == y
    ensures x == y / z
  {
  }

  /** The RSI column at bar `i`: undefined until `period` bars are available, and where
      the window saw no change at all. */
  function RsiAt(closes: seq<real>, period: nat, i: nat): (r: Option<real>)
    requires period >= 1 && i < |closes|
    ensures i + 1 < period ==> r.None?
    ensures r.Some? ==> 0.0 <= r.value <= 100.0
  {
    var g := RollingMean(Gains(closes), period, i);
    var l := RollingMean(Losses(closes), period, i);
    if g.None? || l.None? then None
    else
      MeanNonNegative(Gains(closes), period, i);
      MeanNonNegative(Losses(closes), period, i);
      RsiValue(g.value, l.value)
  }

  /** The first `n` entries of the RSI column, one per bar. */
  function RsiColumn(closes: seq<real>, period: nat, n: nat): (col: seq<Option<real>>)
    requires period >= 1 && n <= |closes|
    ensures |col| == n
    ensures forall k :: 0 <= k < n && k + 1 < period ==> col[k].None?
    ensures forall k :: 0 <= k < n && col[k].Some? ==> 0.0 <= col[k].value <= 100.0
    decreases n
  {
    if n == 0 then [] else RsiColumn(closes, period, n - 1) + [RsiAt(closes, period, n - 1)]
  }

  /** Entry `k` of the column is the RSI of the window ending at bar `k`. */
  lemma {:induction false} RsiColumnAt(closes: seq<real>, period: nat, n: nat, k: nat)
    requires period >= 1 && n <= |closes| && k < n
    ensures RsiColumn(closes, period, n)[k] == RsiAt(closes, period, k)
    decreases n
  {
    assert RsiColumn(closes, period, n) == RsiColumn(closes, period, n - 1) + [RsiAt(closes, period, n - 1)];
    if k < n - 1 {
      assert RsiColumn(closes, period, n)[k] == RsiColumn(closes, period, n - 1)[k];
      RsiColumnAt(closes, period, n - 1, k);
    }
  }

  /** The `rsi` column of the bars' closes. */
  function RsiSeries(data: BarData, p: RsiParams): (col: seq<Option<real>>)
    requires ValidParams(p)
    ensures |col| == |data.bars|
  {
    RsiColumn(Closes(data.bars), p.period, |data.bars|)
  }

  /** Entry `i` of the series is the RSI at bar `i`. */
  lemma RsiSeriesAt(data: BarData, p: RsiParams, i: nat)
    requires ValidParams(p) && i < |data.bars|
    ensures RsiSeries(data, p)[i] == RsiAt(Closes(data.bars), p.period, i)
  {
    RsiColumnAt(Closes(data.bars), p.period, |data.bars|, i);
  }

  /** BUY when the RSI rises through the oversold level; otherwise SELL when it falls
      through the overbought level. */
  function ThresholdSignal(prev: real, curr: real, p: RsiParams): (r: Option<SignalType>)
    ensures r == Some(Buy) <==> prev <= p.oversold && curr > p.oversold
    ensures r == Some(Sell) <==>
              !(prev <= p.oversold && curr > p.oversold) && prev >= p.overbought && curr < p.overbought
    ensures r != Some(Hold)
  {
    if prev <= p.oversold && curr > p.oversold then Some(Buy)
    else if prev >= p.overbought && curr < p.overbought then Some(Sell)
    else None
  }

  function ThresholdReason(kind: SignalType): string {
    if kind == Buy then "rsi oversold cross" else "rsi overbought cross"
  }

  /** The signal emitted at bar `i`: that bar's close and date, strength = position ratio. */
  function BarSignal(data: BarData, i: nat, kind: SignalType, ratio: real): (s: Signal)
    requires i < |data.bars|
    ensures s.symbol == data.symbol && s.signalType == kind && s.strength == ratio
    ensures s.price == data.bars[i].closePrice && s.timestamp == data.bars[i].tradeDate
  {
    Signal(data.symbol, kind, data.bars[i].closePrice, data.bars[i].tradeDate, ratio,
           Some(ThresholdReason(kind)))
  }

  /** One loop iteration at bar `i`: the signal, if any, and the stored RSI after it.
      A bar without an RSI is skipped and leaves the stored value alone. */
  function RsiStep(data: BarData, p: RsiParams, i: nat, prev: Option<real>)
    : (r: (Option<Signal>, Option<real>))
    requires ValidParams(p) && i < |data.bars|
    ensures RsiSeries(data, p)[i].None? ==> r == (None, prev)
    ensures RsiSeries(data, p)[i].Some? ==> r.1 == RsiSeries(data, p)[i]
    ensures prev.None? ==> r.0.None?
    ensures r.0.Some? ==>
              r.0.value.signalType != Hold
              && r.0.value == BarSignal(data, i, r.0.value.signalType, p.positionRatio)
  {
    var rsi := RsiSeries(data, p)[i];
    if rsi.None? then (None, prev)
    else
      var emitted :=
        if prev.Some? then
          match ThresholdSignal(prev.value, rsi.value, p)
          case Some(kind) => Some(BarSignal(data, i, kind, p.positionRatio))
          case None => None
        else None;
      (emitted, rsi)
  }

  function OptionToSeq<T>(o: Option<T>): seq<T> {
    if o.Some? then [o.value] else []
  }

  /** The loop run over the first `n` bars, starting from the stored RSI `m0`. */
  function RsiScan(data: BarData, p: RsiParams, n: nat, m0: Option<real>): (seq<Signal>, Option<real>)
    requires ValidParams(p) && n <= |data.bars|
    decreases n
  {
    if n == 0 then ([], m0)
    else
      var prev := RsiScan(data, p, n - 1, m0);
      var step := RsiStep(data, p, n - 1, prev.1);
      (prev.0 + OptionToSeq(step.0), step.1)
  }

  /** The scan over one more bar, in the branch form of the loop body: a bar without an
      RSI is skipped; otherwise a signal is emitted on a crossing of a stored RSI, and the
      bar's RSI is stored. */
  lemma RsiScanNext(data: BarData, p: RsiParams, i: nat, m0: Option<real>)
    requires ValidParams(p) && i < |data.bars|
    ensures var before := RsiScan(data, p, i, m0);
            var curr := RsiSeries(data, p)[i];
            var prev := before.1;
            RsiScan(data, p, i + 1, m0) ==
              if curr.None? then before
              else if prev.Some? && prev.value <= p.oversold && curr.value > p.oversold then
                (before.0 + [BarSignal(data, i, Buy, p.positionRatio)], curr)
              else if prev.Some? && prev.value >= p.overbought && curr.value < p.overbought then
                (before.0 + [BarSignal(data, i, Sell, p.positionRatio)], curr)
              else (before.0, curr)
  {
    var before := RsiScan(data, p, i, m0);
    var step := RsiStep(data, p, i, before.1);
    assert RsiScan(data, p, i + 1, m0) == (before.0 + OptionToSeq(step.0), step.1);
    var curr := RsiSeries(data, p)[i];
    if curr.None? {
      assert step == (None, before.1);
      assert before.0 + [] == before.0;
    } else if before.1.Some? {
      var kind := ThresholdSignal(before.1.value, curr.value, p);
      if kind.None? {
        assert step == (None, curr);
        assert before.0 + [] == before.0;
      } else {
        assert step == (Some(BarSignal(data, i, kind.value, p.positionRatio)), curr);
      }
    } else {
      assert step == (None, curr);
      assert before.0 + [] == before.0;
    }
  }

  /** `generate_signals`: nothing, and no change to the stored RSI, with fewer bars than
      the period; otherwise the loop over every bar. */
  function RsiGenerate(data: BarData, p: RsiParams, m0: Option<real>): (r: (seq<Signal>, Option<real>))
    requires ValidParams(p)
    ensures |data.bars| < p.period ==> r == ([], m0)
  {
    if |data.bars| < p.period then ([], m0) else RsiScan(data, p, |data.bars|, m0)
  }

  /** At a bar with an RSI and a stored previous one, BUY is emitted exactly on an upward
      crossing of the oversold level, else SELL exactly on a downward crossing of the
      overbought level. */
  lemma RsiStepCrossing(data: BarData, p: RsiParams, i: nat, prev: real)
    requires ValidParams(p) && i < |data.bars|
    requires RsiAt(Closes(data.bars), p.period, i).Some?
    ensures var curr := RsiAt(Closes(data.bars), p.period, i).value;
            var out := RsiStep(data, p, i, Some(prev)).0;
            var up := prev <= p.oversold && curr > p.oversold;
            && (out.Some? && out.value.signalType == Buy <==> up)
            && (out.Some? && out.value.signalType == Sell
                <==> !up && prev >= p.overbought && curr < p.overbought)
  {
    RsiSeriesAt(data, p, i);
  }

  /** Where the window saw gains and no losses the RSI is 100; where it saw losses and no
      gains it is 0. */
  lemma RsiExtremes(closes: seq<real>, period: nat, i: nat)
    requires period >= 1 && i < |closes| && i + 1 >= period
    ensures var g := RollingMean(Gains(closes), period, i).value;
            var l := RollingMean(Losses(closes), period, i).value;
            && (g > 0.0 && l == 0.0 ==> RsiAt(closes, period, i) == Some(100.0))
            && (g == 0.0 && l > 0.0 ==> RsiAt(closes, period, i) == Some(0.0))
            && (g == 0.0 && l == 0.0 <==> RsiAt(closes, period, i).None?)
  {
    MeanNonNegative(Gains(closes), period, i);
    MeanNonNegative(Losses(closes), period, i);
  }

  /** Every emitted signal comes from a distinct bar, in bar order, and carries that bar's
      close and date; hence at most one signal per bar. */
  lemma {:induction false} RsiScanFromBars(data: BarData, p: RsiParams, n: nat, m0: Option<real>)
    returns (idx: seq<nat>)
    requires ValidParams(p) && n <= |data.bars|
    ensures var sigs := RsiScan(data, p, n, m0).0;
            && |idx| == |sigs| <= n
            && (forall a, b :: 0 <= a < b < |idx| ==> idx[a] < idx[b])
            && (forall k :: 0 <= k < |idx| ==>
                  idx[k] < n && sigs[k].signalType != Hold
                  && sigs[k] == BarSignal(data, idx[k], sigs[k].signalType, p.positionRatio))
    decreases n
  {
    if n == 0 {
      idx := [];
    } else {
      var prevIdx := RsiScanFromBars(data, p, n - 1, m0);
      var prev := RsiScan(data, p, n - 1, m0);
      var step := RsiStep(data, p, n - 1, prev.1);
      var sigs := RsiScan(data, p, n, m0).0;
      assert sigs == prev.0 + OptionToSeq(step.0);
      if step.0.Some? {
        idx := prevIdx + [n - 1];
        forall k | 0 <= k < |idx|
          ensures idx[k] < n && sigs[k].signalType != Hold
          ensures sigs[k] == BarSignal(data, idx[k], sigs[k].signalType, p.positionRatio)
        {
          if k < |prevIdx| {
            assert sigs[k] == prev.0[k];
          } else {
            assert sigs[k] == step.0.value;
          }
        }
      } else {
        idx := prevIdx;
        assert sigs == prev.0;
      }
    }
  }

  /** A fresh strategy emits nothing until it has stored a first RSI: the bar that first
      has one only records it. */
  lemma {:induction false} FreshSilentUntilFirstRsi(data: BarData, p: RsiParams, n: nat)
    requires ValidParams(p) && n <= |data.bars|
    requires RsiScan(data, p, n, None).1.None?
    ensures RsiScan(data, p, n, None).0 == []
    ensures n < |data.bars| ==> RsiScan(data, p, n + 1, None).0 == []
    decreases n
  {
    if n > 0 {
      var prev := RsiScan(data, p, n - 1, None);
      assert prev.1.None? by {
        if prev.1.Some? {
          assert RsiStep(data, p, n - 1, prev.1).1.Some?;
        }
      }
      FreshSilentUntilFirstRsi(data, p, n - 1);
    }
  }

  /** Constant closes have no gain and no loss anywhere, so the RSI is never defined. */
  lemma FlatNoRsi(closes: seq<real>, period: nat, i: nat, c: real)
    requires period >= 1 && i < |closes|
    requires forall k :: 0 <= k < |closes| ==> closes[k] == c
    ensures RsiAt(closes, period, i).None?
  {
    if i + 1 >= period {
      assert forall k :: 0 <= k < |closes| ==> Gains(closes)[k] == 0.0 && Losses(closes)[k] == 0.0;
      MeanOfConstant(Gains(closes), period, i, 0.0);
      MeanOfConstant(Losses(closes), period, i, 0.0);
    }
  }

  /** Constant closes never yield an RSI (no gain, no loss), so nothing is emitted and
      the stored value is left as it was. */
  lemma {:induction false} FlatScanSilent(data: BarData, p: RsiParams, n: nat, m0: Option<real>, c: real)
    requires ValidParams(p) && n <= |data.bars|
    requires forall k :: 0 <= k < |data.bars| ==> data.bars[k].closePrice == c
    ensures RsiScan(data, p, n, m0) == ([], m0)
    decreases n
  {
    if n > 0 {
      FlatScanSilent(data, p, n - 1, m0, c);
      var i := n - 1;
      FlatNoRsi(Closes(data.bars), p.period, i, c);
      RsiSeriesAt(data, p, i);
      RsiScanNext(data, p, i, m0);
    }
  }

  lemma FlatPricesNoSignals(data: BarData, p: RsiParams, m0: Option<real>, c: real)
    requires ValidParams(p)
    requires forall k :: 0 <= k < |data.bars| ==> data.bars[k].closePrice == c
    ensures RsiGenerate(data, p, m0) == ([], m0)
  {
    if |data.bars| >= p.period {
      FlatScanSilent(data, p, |data.bars|, m0, c);
    }
  }

  /** Every bar of the first `n` without an RSI: the scan emits nothing and keeps the
      stored value. */
  lemma {:induction false} NoRsiScanSilent(data: BarData, p: RsiParams, n: nat, m0: Option<real>)
    requires ValidParams(p) && n <= |data.bars|
    requires forall k :: 0 <= k < n ==> RsiAt(Closes(data.bars), p.period, k).None?
    ensures RsiScan(data, p, n, m0) == ([], m0)
    decreases n
  {
    if n > 0 {
      NoRsiScanSilent(data, p, n - 1, m0);
      RsiSeriesAt(data, p, n - 1);
      RsiScanNext(data, p, n - 1, m0);
    }
  }

  /** Scanning more bars only appends signals. */
  lemma {:induction false} RsiScanPrefix(data: BarData, p: RsiParams, m: nat, n: nat, m0: Option<real>)
    requires ValidParams(p) && m <= n <= |data.bars|
    ensures RsiScan(data, p, m, m0).0 <= RsiScan(data, p, n, m0).0
    decreases n
  {
    if m < n {
      RsiScanPrefix(data, p, m, n - 1, m0);
    }
  }

  /** Twenty closes of 10, five of `away`, then ten of 10 again: a dip and rebound when
      `away` is 8, a rise and pullback when it is 12. */
  predicate ReboundSeries(data: BarData, away: real) {
    && |data.bars| == 35
    && forall k :: 0 <= k < 35 ==> data.bars[k].closePrice == (if 20 <= k < 25 then away else 10.0)
  }

  /** Such closes move only at bar 20 (away from 10) and at bar 25 (back to 10). */
  lemma ReboundMoves(data: BarData, away: real)
    requires ReboundSeries(data, away)
    ensures var g := Gains(Closes(data.bars));
            var l := Losses(Closes(data.bars));
            && (forall k :: 0 <= k < 35 && k != 20 && k != 25 ==> g[k] == 0.0 && l[k] == 0.0)
            && g[20] == l[25] == (if away > 10.0 then away - 10.0 else 0.0)
            && l[20] == g[25] == (if away < 10.0 then 10.0 - away else 0.0)
  {
    var closes := Closes(data.bars);
    forall k | 0 <= k < 35 && k != 20 && k != 25
      ensures Gains(closes)[k] == 0.0 && Losses(closes)[k] == 0.0
    {
      if k > 0 {
        assert closes[k] == closes[k - 1];
      }
    }
    GainLossParts(closes, 20);
    GainLossParts(closes, 25);
  }

  /** The RSI with period 14 over such closes: undefined on the flat start, 0 (after a
      fall) or 100 (after a rise) while the closes stay away, and 50 on the bar they
      return. */
  lemma ReboundRsi(data: BarData, away: real, i: nat)
    requires ReboundSeries(data, away) && (away == 8.0 || away == 12.0) && i < 35
    ensures i < 20 ==> RsiAt(Closes(data.bars), 14, i).None?
    ensures 20 <= i < 25 ==> RsiAt(Closes(data.bars), 14, i) == Some(if away < 10.0 then 0.0 else 100.0)
    ensures i == 25 ==> RsiAt(Closes(data.bars), 14, i) == Some(50.0)
  {
    var closes := Closes(data.bars);
    var g, l := Gains(closes), Losses(closes);
    ReboundMoves(data, away);
    if i + 1 >= 14 {
      var lo := i + 1 - 14;
      SumOfSpikes(g, lo, i + 1, 20, 25);
      SumOfSpikes(l, lo, i + 1, 20, 25);
      var gm, lm := Sum(g[lo..i + 1]) / 14.0, Sum(l[lo..i + 1]) / 14.0;
      assert RollingMean(g, 14, i) == Some(gm) && RollingMean(l, 14, i) == Some(lm);
      assert RsiAt(closes, 14, i) == RsiValue(gm, lm);
      if 20 <= i < 25 && away < 10.0 {
        assert gm == 0.0 && lm == 2.0 / 14.0;
        RsiValueShare(gm, lm);
      } else if i == 25 {
        assert gm == 2.0 / 14.0 && lm == 2.0 / 14.0;
        RsiValueShare(gm, lm);
      }
    }
  }

  /** Until bar 25 such closes emit nothing; from bar 20 on the stored RSI is 0 after a
      fall and 100 after a rise. */
  lemma {:induction false} ReboundScanBeforeTurn(data: BarData, p: RsiParams, away: real, n: nat)
    requires ValidParams(p) && p.period == 14 && p.oversold == 30.0 && p.overbought == 70.0
    requires ReboundSeries(data, away) && (away == 8.0 || away == 12.0) && 20 < n <= 25
    ensures RsiScan(data, p, n, None) == ([], Some(if away < 10.0 then 0.0 else 100.0))
    decreases n
  {
    var v := if away < 10.0 then 0.0 else 100.0;
    if n == 21 {
      forall k | 0 <= k < 20 ensures RsiAt(Closes(data.bars), 14, k).None? {
        ReboundRsi(data, away, k);
      }
      NoRsiScanSilent(data, p, 20, None);
    } else {
      ReboundScanBeforeTurn(data, p, away, n - 1);
    }
    ReboundRsi(data, away, n - 1);
    RsiSeriesAt(data, p, n - 1);
    RsiScanNext(data, p, n - 1, None);
    assert RsiScan(data, p, n - 1, None).0 + [] == [];
  }

  /** On the bar the closes return to 10 the RSI moves to 50: through the oversold level
      after a dip, giving a BUY, and through the overbought level after a rise, giving a
      SELL. That is the first signal of the run. */
  lemma ReboundFirstSignal(data: BarData, p: RsiParams, away: real)
    requires ValidParams(p) && p.period == 14 && p.oversold == 30.0 && p.overbought == 70.0
    requires ReboundSeries(data, away) && (away == 8.0 || away == 12.0)
    ensures var sigs := RsiGenerate(data, p, None).0;
            |sigs| > 0 && sigs[0] == BarSignal(data, 25, if away < 10.0 then Buy else Sell, p.positionRatio)
  {
    ReboundScanBeforeTurn(data, p, away, 25);
    ReboundRsi(data, away, 25);
    RsiSeriesAt(data, p, 25);
    RsiScanNext(data, p, 25, None);
    var kind := if away < 10.0 then Buy else Sell;
    assert RsiScan(data, p, 26, None).0 == [BarSignal(data, 25, kind, p.positionRatio)];
    RsiScanPrefix(data, p, 26, 35, None);
  }

  /** Twenty closes of 10, five of 8 and ten of 10 give a BUY with period 14 and levels
      30 and 70. */
  lemma DipThenReboundGivesBuy(data: BarData, p: RsiParams)
    requires ValidParams(p) && p.period == 14 && p.oversold == 30.0 && p.overbought == 70.0
    requires ReboundSeries(data, 8.0)
    ensures exists k :: 0 <= k < |RsiGenerate(data, p, None).0|
                        && RsiGenerate(data, p, None).0[k].signalType == Buy
  {
    ReboundFirstSignal(data, p, 8.0);
    assert RsiGenerate(data, p, None).0[0].signalType == Buy;
  }

  /** Twenty closes of 10, five of 12 and ten of 10 give a SELL with period 14 and levels
      30 and 70. */
  lemma RiseThenPullbackGivesSell(data: BarData, p: RsiParams)
    requires ValidParams(p) && p.period == 14 && p.oversold == 30.0 && p.overbought == 70.0
    requires ReboundSeries(data, 12.0)
    ensures exists k :: 0 <= k < |RsiGenerate(data, p, None).0|
                        && RsiGenerate(data, p, None).0[k].signalType == Sell
  {
    ReboundFirstSignal(data, p, 12.0);
    assert RsiGenerate(data, p, None).0[0].signalType == Sell;
  }

  class RSIStrategy {
    const name: string
    const period: nat
    const oversold: real
    const overbought: real
    const positionRatio: real
    var previousRsi: Option<real>

    constructor (period: nat, oversold: real, overbought: real, positionRatio: real)
      requires ValidParams(RsiParams(period, oversold, overbought, positionRatio))
      ensures name == "rsi"
      ensures Params() == RsiParams(period, oversold, overbought, positionRatio)
      ensures previousRsi == None
    {
      name := "rsi";
      this.period := period;
      this.oversold := oversold;
      this.overbought := overbought;
      this.positionRatio := positionRatio;
      previousRsi := None;
    }

    function Params(): RsiParams {
      RsiParams(period, oversold, overbought, positionRatio)
    }

    /** Scans the bars once, emitting threshold crossings and updating the stored RSI. */
    method GenerateSignals(data: BarData) returns (signals: seq<Signal>)
      requires ValidParams(Params())
      modifies this
      ensures (signals, previousRsi) == RsiGenerate(data, Params(), old(previousRsi))
    {
      if |data.bars| < period {
        return [];
      }
      var closes := Closes(data.bars);
      var rsi := RsiColumn(closes, period, |closes|);
      ghost var m0 := previousRsi;
      signals := [];
      var i := 0;
      while i < |closes|
        invariant 0 <= i <= |closes|
        invariant (signals, previousRsi) == RsiScan(data, Params(), i, m0)
      {
        RsiScanNext(data, Params(), i, m0);
        if rsi[i].Some? {
          var currRsi := rsi[i].value;
          if previousRsi.Some? {
            var prevRsi := previousRsi.value;
            if prevRsi <= oversold && currRsi > oversold {
              signals := signals + [BarSignal(data, i, Buy, positionRatio)];
            } else if prevRsi >= overbought && currRsi < overbought {
              signals := signals + [BarSignal(data, i, Sell, positionRatio)];
            }
          }
          previousRsi := Some(currRsi);
        }
        i := i + 1;
      }
    }
  }
}
