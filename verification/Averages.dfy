/** The two forms of Wilder's smoothing in the repository against each other, and the range they smooth. */
module Averages {
  import opened Wrappers
  import opened Reals
  import opened Seqs
  import opened Wilder
  import opened Market
  import Dmi
  import FibFrames

  /** A step that takes one period's share off and adds the whole value keeps a sum; the step of the
      average is the same with everything divided by the period. */
  lemma DecayIsWilder(average: real, x: real, period: posint)
    ensures Dmi.Decay(average * period as real, period, x) == WilderNext(average, x, period) * period as real
  {
    var n := period as real;
    assert average * n / n == average;
    assert (average * (n - 1.0) + x) / n * n == average * (n - 1.0) + x;
    assert average * n - average == average * (n - 1.0);
  }

  /** One smoothing step is a weighted mean: it lies between the average and the new value, nearer the
      average the longer the period. */
  lemma StepLiesBetween(average: real, x: real, period: posint)
    ensures (WilderNext(average, x, period) - average) * period as real == x - average
    ensures Min(average, x) <= WilderNext(average, x, period) <= Max(average, x)
  {
    var n, next := period as real, WilderNext(average, x, period);
    assert next * n == average * (n - 1.0) + x;
    assert (next - average) * n == x - average;
    if x >= average {
      ScaleByPositive(n, next - average, 0.0);
      ScaleByPositive(n, x - average, next - average);
      ProductNonNegative(x - average, n - 1.0);
    } else {
      ScaleByPositive(n, 0.0, next - average);
      ScaleByPositive(n, next - average, x - average);
      ProductNonNegative(average - x, n - 1.0);
    }
  }

  /** The true range is the span of the bar and the close before it. */
  lemma RangeIsSpan(high: real, low: real, previousClose: real)
    requires low <= high
    ensures RangeFrom(high, low, previousClose) == Max(high, previousClose) - Min(low, previousClose)
  {
  }

  /** True ranges of bars lo..hi lie between these bounds. */
  ghost predicate RangesWithin(bars: seq<Bar>, n: nat, least: real, most: real)
    requires n <= |bars|
  {
    forall i :: 0 <= i < n ==> least <= TrueRange(bars, i) <= most
  }

  lemma {:induction false} RangeSumWithin(bars: seq<Bar>, n: nat, least: real, most: real)
    requires n <= |bars| && RangesWithin(bars, n, least, most)
    ensures least * n as real <= RangeSum(bars, n) <= most * n as real
  {
    hide TrueRange;
    if n > 0 {
      RangeSumWithin(bars, n - 1, least, most);
    }
  }

  /** The ATR lies between the least and the greatest true range so far; on bars of one range it is that
      range. */
  lemma {:induction false} AtrWithin(bars: seq<Bar>, period: posint, i: nat, least: real, most: real)
    requires period - 1 <= i < |bars| && RangesWithin(bars, i + 1, least, most)
    ensures WilderAtr(bars, period, i).Some? && least <= WilderAtr(bars, period, i).value <= most
  {
    hide TrueRange, WilderNext;
    if i == period - 1 {
      RangeSumWithin(bars, period, least, most);
      MeanWithin(RangeSum(bars, period), period, least, most);
    } else {
      AtrWithin(bars, period, i - 1, least, most);
      StepLiesBetween(WilderAtr(bars, period, i - 1).value, TrueRange(bars, i), period);
    }
  }

  lemma MeanWithin(sum: real, period: posint, least: real, most: real)
    requires least * period as real <= sum <= most * period as real
    ensures least <= sum / period as real <= most
  {
    var n := period as real;
    DivideBelow(sum, most, n);
    DivideBelow(-sum, -least, n);
    assert -sum / n == -(sum / n);
  }

  /** A step of the moving average takes it two parts in `span + 1` of the way to the close, and the
      average never leaves the range of the closes so far. */
  lemma {:induction false} EmaFollowsCloses(bars: seq<Bar>, span: posint, i: nat, least: real, most: real)
    requires i < |bars| && forall j :: 0 <= j <= i ==> least <= bars[j].close <= most
    ensures i == 0 ==> FibFrames.Ema(bars, span, 0) == bars[0].close
    ensures i > 0 ==>
      (FibFrames.Ema(bars, span, i) - FibFrames.Ema(bars, span, i - 1)) * (span as real + 1.0)
      == 2.0 * (bars[i].close - FibFrames.Ema(bars, span, i - 1))
    ensures least <= FibFrames.Ema(bars, span, i) <= most
  {
    if i > 0 {
      EmaFollowsCloses(bars, span, i - 1, least, most);
      var before, close := FibFrames.Ema(bars, span, i - 1), bars[i].close;
      NextEma(bars, span, i);
      hide FibFrames.Ema;
      assert least <= Min(before, close) && Max(before, close) <= most;
    }
  }

  lemma NextEma(bars: seq<Bar>, span: posint, i: nat)
    requires 0 < i < |bars|
    ensures
      var before, next, close := FibFrames.Ema(bars, span, i - 1), FibFrames.Ema(bars, span, i), bars[i].close;
      && (next - before) * (span as real + 1.0) == 2.0 * (close - before)
      && Min(before, close) <= next <= Max(before, close)
  {
    EmaStep(FibFrames.Ema(bars, span, i - 1), bars[i].close, span);
  }

  lemma EmaStep(average: real, x: real, span: posint)
    ensures
      var alpha := 2.0 / (span as real + 1.0);
      var next := alpha * x + (1.0 - alpha) * average;
      && (next - average) * (span as real + 1.0) == 2.0 * (x - average)
      && Min(average, x) <= next <= Max(average, x)
  {
    var m := span as real + 1.0;
    var alpha := 2.0 / m;
    assert alpha * m == 2.0;
    DivideBelow(2.0, 1.0, m);
    QuotientNonNegative(2.0, m);
    var next := alpha * x + (1.0 - alpha) * average;
    assert next - average == alpha * (x - average);
    assert alpha * (x - average) * m == alpha * m * (x - average);
    assert next - x == (1.0 - alpha) * (average - x);
    if x >= average {
      ProductNonNegative(alpha, x - average);
      ProductNonNegative(1.0 - alpha, x - average);
    } else {
      ProductNonNegative(alpha, average - x);
      ProductNonNegative(1.0 - alpha, average - x);
    }
  }
}
