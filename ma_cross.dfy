/** The moving-average crossover strategy (src/strategy/ma_cross.py). */
module MaCross {
  import opened Wrappers
  import opened Ohlcv
  import opened Signals
  import opened Rolling

  datatype MaParams = MaParams(shortWindow: nat, longWindow: nat, positionRatio: real)

  /** Windows of at least one bar, and a ratio the signal validator accepts. */
  predicate ValidParams(p: MaParams) {
    p.shortWindow >= 1 && p.longWindow >= 1 && 0.0 <= p.positionRatio <= 1.0
  }

  /** The moving averages of the last bar that had both defined, kept between calls. */
  datatype MaMemory = MaMemory(prevShort: Option<real>, prevLong: Option<real>)

  const Fresh: MaMemory := MaMemory(None, None)

  /** Golden cross (BUY): the short average was at or below the long one and is now
      strictly above it. Death cross (SELL): the mirror image. */
  function CrossSignal(prevShort: real, prevLong: real, currShort: real, currLong: real)
    : (r: Option<SignalType>)
    ensures r == Some(Buy) <==> prevShort <= prevLong && currShort > currLong
    ensures r == Some(Sell) <==> prevShort >= prevLong && currShort < currLong
    ensures r.None? <==> !(currShort > currLong && prevShort <= prevLong)
                         && !(currShort < currLong && prevShort >= prevLong)
    ensures r != Some(Hold)
  {
    if prevShort <= prevLong && currShort > currLong then Some(Buy)
    else if prevShort >= prevLong && currShort < currLong then Some(Sell)
    else None
  }

  function CrossReason(kind: SignalType): string {
    if kind == Buy then "golden cross" else "death cross"
  }

  /** The signal emitted at bar `i`: that bar's close and date, strength = position ratio. */
  function BarSignal(data: BarData, i: nat, kind: SignalType, ratio: real): (s: Signal)
    requires i < |data.bars|
    ensures s.symbol == data.symbol && s.signalType == kind && s.strength == ratio
    ensures s.price == data.bars[i].closePrice && s.timestamp == data.bars[i].tradeDate
  {
    Signal(data.symbol, kind, data.bars[i].closePrice, data.bars[i].tradeDate, ratio,
           Some(CrossReason(kind)))
  }

  /** The `short_ma` column: rolling means of the closes over the short window. */
  function ShortMa(data: BarData, p: MaParams): (col: seq<Option<real>>)
    requires ValidParams(p)
    ensures |col| == |data.bars|
  {
    RollingColumn(Closes(data.bars), p.shortWindow, |data.bars|)
  }

  /** The `long_ma` column: rolling means of the closes over the long window. */
  function LongMa(data: BarData, p: MaParams): (col: seq<Option<real>>)
    requires ValidParams(p)
    ensures |col| == |data.bars|
  {
    RollingColumn(Closes(data.bars), p.longWindow, |data.bars|)
  }

  /** The two columns hold the rolling means of the closes ending at each bar. */
  lemma MaColumnsAt(data: BarData, p: MaParams, i: nat)
    requires ValidParams(p) && i < |data.bars|
    ensures ShortMa(data, p)[i] == RollingMean(Closes(data.bars), p.shortWindow, i)
    ensures LongMa(data, p)[i] == RollingMean(Closes(data.bars), p.longWindow, i)
  {
    RollingColumnAt(Closes(data.bars), p.shortWindow, |data.bars|, i);
    RollingColumnAt(Closes(data.bars), p.longWindow, |data.bars|, i);
  }

  /** One loop iteration at bar `i`: the signal it emits, if any, and the memory after it.
      A bar where either average is undefined is skipped and leaves the memory alone. */
  function MaStep(data: BarData, p: MaParams, i: nat, m: MaMemory): (r: (Option<Signal>, MaMemory))
    requires ValidParams(p) && i < |data.bars|
    ensures i + 1 < p.shortWindow || i + 1 < p.longWindow ==> r == (None, m)
    ensures i + 1 >= p.shortWindow && i + 1 >= p.longWindow ==>
              r.1 == MaMemory(ShortMa(data, p)[i], LongMa(data, p)[i])
              && r.1.prevShort.Some? && r.1.prevLong.Some?
    ensures m.prevShort.None? || m.prevLong.None? ==> r.0.None?
    ensures r.0.Some? ==>
              r.0.value.signalType != Hold
              && r.0.value == BarSignal(data, i, r.0.value.signalType, p.positionRatio)
  {
    var s := ShortMa(data, p)[i];
    var l := LongMa(data, p)[i];
    if s.None? || l.None? then (None, m)
    else
      var emitted :=
        if m.prevShort.Some? && m.prevLong.Some? then
          match CrossSignal(m.prevShort.value, m.prevLong.value, s.value, l.value)
          case Some(kind) => Some(BarSignal(data, i, kind, p.positionRatio))
          case None => None
        else None;
      (emitted, MaMemory(s, l))
  }

  function OptionToSeq<T>(o: Option<T>): seq<T> {
    if o.Some? then [o.value] else []
  }

  /** The loop run over the first `n` bars, starting from memory `m0`. */
  function MaScan(data: BarData, p: MaParams, n: nat, m0: MaMemory): (seq<Signal>, MaMemory)
    requires ValidParams(p) && n <= |data.bars|
    decreases n
  {
    if n == 0 then ([], m0)
    else
      var prev := MaScan(data, p, n - 1, m0);
      var step := MaStep(data, p, n - 1, prev.1);
      (prev.0 + OptionToSeq(step.0), step.1)
  }

  /** `generate_signals`: nothing, and no memory change, with fewer bars than the long
      window; otherwise the loop over every bar. */
  function MaGenerate(data: BarData, p: MaParams, m0: MaMemory): (r: (seq<Signal>, MaMemory))
    requires ValidParams(p)
    ensures |data.bars| < p.longWindow ==> r == ([], m0)
  {
    if |data.bars| < p.longWindow then ([], m0) else MaScan(data, p, |data.bars|, m0)
  }

  /** The scan over one more bar, in the branch form of the loop body. */
  lemma MaScanNext(data: BarData, p: MaParams, i: nat, m0: MaMemory)
    requires ValidParams(p) && i < |data.bars|
    ensures var before := MaScan(data, p, i, m0);
            var m := before.1;
            var s := ShortMa(data, p)[i];
            var l := LongMa(data, p)[i];
            MaScan(data, p, i + 1, m0) ==
              if s.None? || l.None? then before
              else if m.prevShort.Some? && m.prevLong.Some?
                      && m.prevShort.value <= m.prevLong.value && s.value > l.value then
                (before.0 + [BarSignal(data, i, Buy, p.positionRatio)], MaMemory(s, l))
              else if m.prevShort.Some? && m.prevLong.Some?
                      && m.prevShort.value >= m.prevLong.value && s.value < l.value then
                (before.0 + [BarSignal(data, i, Sell, p.positionRatio)], MaMemory(s, l))
              else (before.0, MaMemory(s, l))
  {
    var before := MaScan(data, p, i, m0);
    var m := before.1;
    var step := MaStep(data, p, i, m);
    assert MaScan(data, p, i + 1, m0) == (before.0 + OptionToSeq(step.0), step.1);
    var s := ShortMa(data, p)[i];
    var l := LongMa(data, p)[i];
    if s.None? || l.None? {
      assert step == (None, m);
      assert before.0 + [] == before.0;
    } else if m.prevShort.Some? && m.prevLong.Some? {
      var kind := CrossSignal(m.prevShort.value, m.prevLong.value, s.value, l.value);
      if kind.None? {
        assert step == (None, MaMemory(s, l));
        assert before.0 + [] == before.0;
      } else {
        assert step == (Some(BarSignal(data, i, kind.value, p.positionRatio)), MaMemory(s, l));
      }
    } else {
      assert step == (None, MaMemory(s, l));
      assert before.0 + [] == before.0;
    }
  }

  /** At a bar where both averages are defined and a previous pair is stored, BUY is
      emitted exactly on a golden cross and SELL exactly on a death cross; there is never
      more than one signal for the bar. */
  lemma MaStepCrossing(data: BarData, p: MaParams, i: nat, m: MaMemory)
    requires ValidParams(p) && i < |data.bars|
    requires i + 1 >= p.shortWindow && i + 1 >= p.longWindow
    requires m.prevShort.Some? && m.prevLong.Some?
    ensures var closes := Closes(data.bars);
            var s := RollingMean(closes, p.shortWindow, i).value;
            var l := RollingMean(closes, p.longWindow, i).value;
            var out := MaStep(data, p, i, m).0;
            && (out.Some? && out.value.signalType == Buy
                <==> m.prevShort.value <= m.prevLong.value && s > l)
            && (out.Some? && out.value.signalType == Sell
                <==> m.prevShort.value >= m.prevLong.value && s < l)
  {
    MaColumnsAt(data, p, i);
  }

  /** Every emitted signal comes from a distinct bar, in bar order, and carries that bar's
      close and date; hence at most one signal per bar. */
  lemma {:induction false} MaScanFromBars(data: BarData, p: MaParams, n: nat, m0: MaMemory)
    returns (idx: seq<nat>)
    requires ValidParams(p) && n <= |data.bars|
    ensures var sigs := MaScan(data, p, n, m0).0;
            && |idx| == |sigs| <= n
            && (forall a, b :: 0 <= a < b < |idx| ==> idx[a] < idx[b])
            && (forall k :: 0 <= k < |idx| ==>
                  idx[k] < n && sigs[k].signalType != Hold
                  && sigs[k] == BarSignal(data, idx[k], sigs[k].signalType, p.positionRatio))
    decreases n
  {
    if n == 0 {
      idx := [];
    } else {
      var prevIdx := MaScanFromBars(data, p, n - 1, m0);
      var prev := MaScan(data, p, n - 1, m0);
      var step := MaStep(data, p, n - 1, prev.1);
      var sigs := MaScan(data, p, n, m0).0;
      assert sigs == prev.0 + OptionToSeq(step.0);
      if step.0.Some? {
        idx := prevIdx + [n - 1];
        forall a, b | 0 <= a < b < |idx| ensures idx[a] < idx[b] {
          assert idx[a] == prevIdx[a] < n - 1;
        }
        forall k | 0 <= k < |idx|
          ensures idx[k] < n && sigs[k].signalType != Hold
          ensures sigs[k] == BarSignal(data, idx[k], sigs[k].signalType, p.positionRatio)
        {
          if k < |prevIdx| {
            assert sigs[k] == prev.0[k];
          } else {
            assert sigs[k] == step.0.value;
          }
        }
      } else {
        idx := prevIdx;
        assert sigs == prev.0;
      }
    }
  }

  /** A fresh strategy emits nothing up to and including the first bar at which both
      averages are defined (bar max(short, long) - 1); before that bar its memory stays
      empty. */
  lemma {:induction false} FreshSilentUntilDefined(data: BarData, p: MaParams, n: nat)
    requires ValidParams(p) && n <= |data.bars|
    requires n <= p.shortWindow || n <= p.longWindow
    ensures MaScan(data, p, n, Fresh).0 == []
    ensures n < p.shortWindow || n < p.longWindow ==> MaScan(data, p, n, Fresh).1 == Fresh
    decreases n
  {
    if n > 0 {
      FreshSilentUntilDefined(data, p, n - 1);
    }
  }

  /** With every close equal, the two averages agree wherever both are defined, so no
      strict crossing ever happens, whatever the stored memory. */
  lemma {:induction false} ConstantScanSilent(data: BarData, p: MaParams, n: nat, m0: MaMemory, c: real)
    requires ValidParams(p) && n <= |data.bars|
    requires forall k :: 0 <= k < |data.bars| ==> data.bars[k].closePrice == c
    ensures MaScan(data, p, n, m0).0 == []
    decreases n
  {
    if n > 0 {
      var prev := MaScan(data, p, n - 1, m0);
      assert prev.0 == [] by {
        ConstantScanSilent(data, p, n - 1, m0, c);
      }
      assert MaStep(data, p, n - 1, prev.1).0.None? by {
        ConstantStepSilent(data, p, n - 1, prev.1, c);
      }
    }
  }

  /** One bar of constant closes emits nothing. */
  lemma ConstantStepSilent(data: BarData, p: MaParams, i: nat, m: MaMemory, c: real)
    requires ValidParams(p) && i < |data.bars|
    requires forall k :: 0 <= k < |data.bars| ==> data.bars[k].closePrice == c
    ensures MaStep(data, p, i, m).0.None?
  {
    if i + 1 >= p.shortWindow && i + 1 >= p.longWindow {
      var closes := Closes(data.bars);
      MaColumnsAt(data, p, i);
      MeanOfConstant(closes, p.shortWindow, i, c);
      MeanOfConstant(closes, p.longWindow, i, c);
      if m.prevShort.Some? && m.prevLong.Some? {
        assert CrossSignal(m.prevShort.value, m.prevLong.value, c, c).None?;
      }
    }
  }

  lemma ConstantPricesNoSignals(data: BarData, p: MaParams, m0: MaMemory, c: real)
    requires ValidParams(p)
    requires forall k :: 0 <= k < |data.bars| ==> data.bars[k].closePrice == c
    ensures MaGenerate(data, p, m0).0 == []
  {
    if |data.bars| >= p.longWindow {
      ConstantScanSilent(data, p, |data.bars|, m0, c);
    }
  }

  /** Scanning more bars only appends signals. */
  lemma {:induction false} MaScanPrefix(data: BarData, p: MaParams, m: nat, n: nat, m0: MaMemory)
    requires ValidParams(p) && m <= n <= |data.bars|
    ensures MaScan(data, p, m, m0).0 <= MaScan(data, p, n, m0).0
    decreases n
  {
    if m < n {
      MaScanPrefix(data, p, m, n - 1, m0);
    }
  }

  /** Closes that step from `lo` (first ten bars) to `hi` (next ten), windows 5 and 10. */
  predicate StepSeries(data: BarData, lo: real, hi: real) {
    && |data.bars| == 20
    && (forall k :: 0 <= k < 10 ==> data.bars[k].closePrice == lo)
    && (forall k :: 10 <= k < 20 ==> data.bars[k].closePrice == hi)
  }

  /** The averages at bar 9, the last bar before the step, and at bar 10, the first after. */
  lemma StepSeriesMeans(data: BarData, lo: real, hi: real)
    requires StepSeries(data, lo, hi)
    ensures RollingMean(Closes(data.bars), 5, 9) == Some(lo)
    ensures RollingMean(Closes(data.bars), 10, 9) == Some(lo)
    ensures RollingMean(Closes(data.bars), 5, 10) == Some((4.0 * lo + hi) / 5.0)
    ensures RollingMean(Closes(data.bars), 10, 10) == Some((9.0 * lo + hi) / 10.0)
  {
    var closes := Closes(data.bars);
    assert forall k :: 0 <= k < 10 ==> closes[k] == lo;
    assert forall k :: 10 <= k < |closes| ==> closes[k] == hi;
    var zero, one, four, five, nine, ten := 0.0, 1.0, 4.0, 5.0, 9.0, 10.0;
    StepWindowMean(closes, 5, 9, 10, lo, hi, five, zero, five);
    var m := (five * lo + zero * hi) / five;
    assert RollingMean(closes, 5, 9) == Some(m) && m == lo;
    StepWindowMean(closes, 10, 9, 10, lo, hi, ten, zero, ten);
    m := (ten * lo + zero * hi) / ten;
    assert RollingMean(closes, 10, 9) == Some(m) && m == lo;
    StepWindowMean(closes, 5, 10, 10, lo, hi, four, one, five);
    m := (four * lo + one * hi) / five;
    assert RollingMean(closes, 5, 10) == Some(m) && m == (4.0 * lo + hi) / 5.0;
    StepWindowMean(closes, 10, 10, 10, lo, hi, nine, one, ten);
    m := (nine * lo + one * hi) / ten;
    assert RollingMean(closes, 10, 10) == Some(m) && m == (9.0 * lo + hi) / 10.0;
  }

  /** After bar 9, the first with both averages, nothing is emitted and the memory holds
      the all-`lo` averages. */
  lemma StepSeriesMemory(data: BarData, p: MaParams, lo: real, hi: real)
    requires ValidParams(p) && p.shortWindow == 5 && p.longWindow == 10
    requires StepSeries(data, lo, hi)
    ensures MaScan(data, p, 10, Fresh) == ([], MaMemory(Some(lo), Some(lo)))
  {
    FreshSilentUntilDefined(data, p, 9);
    MaColumnsAt(data, p, 9);
    StepSeriesMeans(data, lo, hi);
    var step := MaStep(data, p, 9, Fresh);
    assert step == (None, MaMemory(Some(lo), Some(lo)));
    assert MaScan(data, p, 10, Fresh) == ([] + OptionToSeq(step.0), step.1);
  }

  /** A step up of the closes gives a golden cross with windows 5 and 10. */
  lemma StepUpGivesBuy(data: BarData, p: MaParams)
    requires ValidParams(p) && p.shortWindow == 5 && p.longWindow == 10
    requires StepSeries(data, 10.0, 10.5)
    ensures exists k :: 0 <= k < |MaGenerate(data, p, Fresh).0|
                        && MaGenerate(data, p, Fresh).0[k].signalType == Buy
  {
    StepSeriesMemory(data, p, 10.0, 10.5);
    StepSeriesMeans(data, 10.0, 10.5);
    MaColumnsAt(data, p, 10);
    var step := MaStep(data, p, 10, MaMemory(Some(10.0), Some(10.0)));
    assert ShortMa(data, p)[10] == Some(10.1) && LongMa(data, p)[10] == Some(10.05);
    assert CrossSignal(10.0, 10.0, 10.1, 10.05) == Some(Buy);
    assert step.0 == Some(BarSignal(data, 10, Buy, p.positionRatio));
    assert MaScan(data, p, 11, Fresh).0 == [] + OptionToSeq(step.0);
    MaScanPrefix(data, p, 11, 20, Fresh);
    assert MaGenerate(data, p, Fresh).0[0].signalType == Buy;
  }

  /** A step down of the closes gives a death cross with windows 5 and 10. */
  lemma StepDownGivesSell(data: BarData, p: MaParams)
    requires ValidParams(p) && p.shortWindow == 5 && p.longWindow == 10
    requires StepSeries(data, 10.5, 10.0)
    ensures exists k :: 0 <= k < |MaGenerate(data, p, Fresh).0|
                        && MaGenerate(data, p, Fresh).0[k].signalType == Sell
  {
    StepSeriesMemory(data, p, 10.5, 10.0);
    StepSeriesMeans(data, 10.5, 10.0);
    MaColumnsAt(data, p, 10);
    var step := MaStep(data, p, 10, MaMemory(Some(10.5), Some(10.5)));
    assert ShortMa(data, p)[10] == Some(10.4) && LongMa(data, p)[10] == Some(10.45);
    assert CrossSignal(10.5, 10.5, 10.4, 10.45) == Some(Sell);
    assert step.0 == Some(BarSignal(data, 10, Sell, p.positionRatio));
    assert MaScan(data, p, 11, Fresh).0 == [] + OptionToSeq(step.0);
    MaScanPrefix(data, p, 11, 20, Fresh);
    assert MaGenerate(data, p, Fresh).0[0].signalType == Sell;
  }

  class MACrossStrategy {
    const name: string
    const shortWindow: nat
    const longWindow: nat
    const positionRatio: real
    var previousShortMa: Option<real>
    var previousLongMa: Option<real>

    constructor (shortWindow: nat, longWindow: nat, positionRatio: real)
      requires ValidParams(MaParams(shortWindow, longWindow, positionRatio))
      ensures name == "ma_cross"
      ensures Params() == MaParams(shortWindow, longWindow, positionRatio)
      ensures Memory() == Fresh
    {
      name := "ma_cross";
      this.shortWindow := shortWindow;
      this.longWindow := longWindow;
      this.positionRatio := positionRatio;
      previousShortMa := None;
      previousLongMa := None;
    }

    function Params(): MaParams {
      MaParams(shortWindow, longWindow, positionRatio)
    }

    function Memory(): MaMemory
      reads this
    {
      MaMemory(previousShortMa, previousLongMa)
    }

    /** Scans the bars once, emitting crossings and updating the stored averages. */
    method GenerateSignals(data: BarData) returns (signals: seq<Signal>)
      requires ValidParams(Params())
      modifies this
      ensures (signals, Memory()) == MaGenerate(data, Params(), old(Memory()))
    {
      if |data.bars| < longWindow {
        return [];
      }
      var closes := Closes(data.bars);
      var shortMa := RollingColumn(closes, shortWindow, |closes|);
      var longMa := RollingColumn(closes, longWindow, |closes|);
      ghost var m0 := Memory();
      signals := [];
      var i := 0;
      while i < |closes|
        invariant 0 <= i <= |closes|
        invariant (signals, Memory()) == MaScan(data, Params(), i, m0)
      {
        MaScanNext(data, Params(), i, m0);
        if shortMa[i].Some? && longMa[i].Some? {
          if previousShortMa.Some? && previousLongMa.Some? {
            var prevShort := previousShortMa.value;
            var currShort := shortMa[i].value;
            var currLong := longMa[i].value;
            if prevShort <= previousLongMa.value && currShort > currLong {
              signals := signals + [BarSignal(data, i, Buy, positionRatio)];
            } else if prevShort >= previousLongMa.value && currShort < currLong {
              signals := signals + [BarSignal(data, i, Sell, positionRatio)];
            }
          }
          previousShortMa := shortMa[i];
          previousLongMa := longMa[i];
        }
        i := i + 1;
      }
    }
  }
}
