/** Resampling, moving averages and RSI on prices seen in the mirror. */
module IndicatorMirror {
  import opened Wrappers
  import opened Reals
  import opened Wilder
  import opened Market
  import opened Htf
  import opened AsOfLookup
  import opened Mirror
  import opened FibFrames
  import Rsi

  // ------------------------------------------------------------ frames

  lemma TakeInFlips(r: seq<Bar>, b: Bar, start: int)
    ensures TakeIn(FlipBars(r), FlipBar(b), start) == FlipBars(TakeIn(r, b, start))
  {
  }

  lemma {:induction false} ResampleFlips(bars: seq<Bar>, period: posint, k: nat)
    requires k <= |bars|
    ensures Resample(FlipBars(bars), period, k) == FlipBars(Resample(bars, period, k))
  {
    hide TakeIn, Bucket, FlipBars;
    if k > 0 {
      ResampleFlips(bars, period, k - 1);
      TakeInFlips(Resample(bars, period, k - 1), bars[k - 1], Bucket(bars[k - 1].ts, period));
    }
  }

  lemma {:induction false} FirstFlips(bars: seq<Bar>, t: int, k: nat)
    requires k <= |bars|
    ensures FirstAtOrAfter(FlipBars(bars), t, k) == FirstAtOrAfter(bars, t, k)
  {
    if k > 0 {
      FirstFlips(bars, t, k - 1);
    }
  }

  // ------------------------------------------------------------ averages

  lemma {:induction false} EmaFlips(bars: seq<Bar>, span: posint, i: nat)
    requires i < |bars|
    ensures Ema(FlipBars(bars), span, i) == -Ema(bars, span, i)
  {
    if i > 0 {
      EmaFlips(bars, span, i - 1);
      var alpha := 2.0 / (span as real + 1.0);
      assert alpha * -bars[i].close == -(alpha * bars[i].close);
      assert (1.0 - alpha) * -Ema(bars, span, i - 1) == -((1.0 - alpha) * Ema(bars, span, i - 1));
    }
  }

  /** Rises become drops and drops rises, and so with their averages. */
  lemma MovesFlip(prices: seq<real>, period: posint)
    requires |prices| >= period + 1
    ensures Rsi.AverageGain(FlipPrices(prices), period) == Rsi.AverageLoss(prices, period)
    ensures Rsi.AverageLoss(FlipPrices(prices), period) == Rsi.AverageGain(prices, period)
  {
    hide WilderMean;
    assert Rsi.Rises(FlipPrices(prices)) == Rsi.Drops(prices);
    assert Rsi.Drops(FlipPrices(prices)) == Rsi.Rises(prices);
  }

  /** The shares of gain and loss add up to one hundred. */
  lemma SharesAddUp(gain: real, loss: real)
    requires gain > 0.0 && loss > 0.0
    ensures Rsi.Strength(gain, loss) + Rsi.Strength(loss, gain) == 100.0
  {
    Rsi.StrengthIsShare(gain, loss);
    Rsi.StrengthIsShare(loss, gain);
    QuotientsAdd(100.0 * gain, 100.0 * loss, gain + loss);
    DivideBack(100.0, 100.0 * gain + 100.0 * loss, gain + loss);
  }

  /** The neutral reading of prices that never moved makes this RSI its own mirror. */
  lemma ToRsiFlips(gain: real, loss: real)
    requires gain >= 0.0 && loss >= 0.0
    ensures ToRsi(loss, gain) == 100.0 - ToRsi(gain, loss)
  {
    if gain > 0.0 && loss > 0.0 {
      SharesAddUp(gain, loss);
    }
  }

  /** On every list of prices the Fib RSI in the mirror is one hundred less the RSI. */
  lemma RsiAfterFlips(prices: seq<real>, period: posint)
    ensures RsiAfter(FlipPrices(prices), period) == FlipRsi(RsiAfter(prices, period))
  {
    hide ToRsi;
    if |prices| >= period + 1 {
      MovesFlip(prices, period);
      ToRsiFlips(Rsi.AverageGain(prices, period), Rsi.AverageLoss(prices, period));
    }
  }

  /** The shared RSI is so exactly on lists on which some price moves: otherwise both read one hundred. */
  lemma ReadingFlipsExactly(prices: seq<real>, period: posint)
    requires period >= 2 && |prices| >= period + 1
    ensures Rsi.Reading(FlipPrices(prices), period) == FlipRsi(Rsi.Reading(prices, period)) <==>
      !NeverMoves(prices)
  {
    hide RsiAfter, Rsi.Reading;
    RsiAfterFlips(prices, period);
    RsiAgreesExactly(prices, period);
    RsiAgreesExactly(FlipPrices(prices), period);
    if !NeverMoves(prices) {
      var i :| 0 <= i < |prices| - 1 && prices[i] != prices[i + 1];
      assert FlipPrices(prices)[i] != FlipPrices(prices)[i + 1];
    }
  }

  lemma RsiOfFlips(bars: seq<Bar>)
    ensures RsiOf(FlipBars(bars)) == FlipRsi(RsiOf(bars))
  {
    hide RsiAfter;
    assert ClosesOf(FlipBars(bars)) == FlipPrices(ClosesOf(bars));
    RsiAfterFlips(ClosesOf(bars), RSI_PERIOD);
  }

  lemma PrefixFlips(bars: seq<Bar>, n: nat)
    requires n <= |bars|
    ensures FlipBars(bars)[..n] == FlipBars(bars[..n])
  {
  }

  lemma ConfirmedFlips(bars: seq<Bar>, period: posint, i: nat)
    requires i < |bars|
    ensures Confirmed(RsiOf, FlipBars(bars), period, i) == FlipRsi(Confirmed(RsiOf, bars, period, i))
  {
    hide Resample, FirstAtOrAfter, RsiOf, FlipBars;
    var htf := Resample(bars, period, |bars|);
    ResampleFlips(bars, period, |bars|);
    FirstFlips(htf, bars[i].ts + 1, |htf|);
    var n := Begun(htf, bars[i].ts);
    if n >= 2 {
      PrefixFlips(htf, n - 1);
      RsiOfFlips(htf[..n - 1]);
    }
  }
}
