/** The relative strength index with Wilder's smoothing (src/indicators/rsi.py). */
module Rsi {
  import opened Wrappers
  import opened Reals
  import opened Seqs
  import opened Wilder

  function Rise(prices: seq<real>, i: nat): real
    requires i + 1 < |prices|
  {
    Max(prices[i + 1] - prices[i], 0.0)
  }

  function Drop(prices: seq<real>, i: nat): real
    requires i + 1 < |prices|
  {
    Max(prices[i] - prices[i + 1], 0.0)
  }

  function Rises(prices: seq<real>): (r: seq<real>)
    requires |prices| > 0
    ensures |r| == |prices| - 1 && NonNegative(r) && forall i :: 0 <= i < |r| ==> r[i] == Rise(prices, i)
  {
    seq(|prices| - 1, i requires 0 <= i < |prices| - 1 => Rise(prices, i))
  }

  function Drops(prices: seq<real>): (r: seq<real>)
    requires |prices| > 0
    ensures |r| == |prices| - 1 && NonNegative(r) && forall i :: 0 <= i < |r| ==> r[i] == Drop(prices, i)
  {
    seq(|prices| - 1, i requires 0 <= i < |prices| - 1 => Drop(prices, i))
  }

  /** The reading from the two averages; the case without losses comes first. */
  function Strength(gain: real, loss: real): real
    requires gain >= 0.0 && loss >= 0.0
  {
    if loss == 0.0 then 100.0
    else if gain == 0.0 then 0.0
    else 100.0 - 100.0 / (1.0 + gain / loss)
  }

  function AverageGain(prices: seq<real>, period: posint): (r: real)
    requires |prices| >= period + 1
    ensures r >= 0.0
  {
    MeanNonNegative(Rises(prices), period, |prices| - 2);
    WilderMean(Rises(prices), period, |prices| - 2)
  }

  function AverageLoss(prices: seq<real>, period: posint): (r: real)
    requires |prices| >= period + 1
    ensures r >= 0.0
  {
    MeanNonNegative(Drops(prices), period, |prices| - 2);
    WilderMean(Drops(prices), period, |prices| - 2)
  }

  /** What `calculate_rsi` must return. */
  function Reading(prices: seq<real>, period: posint): Option<real>
  {
    if |prices| < period + 1 then None
    else Some(Strength(AverageGain(prices, period), AverageLoss(prices, period)))
  }

  /** `calculate_rsi`: the two running averages over one loop. */
  method CalculateRsi(prices: seq<real>, period: posint) returns (rsi: Option<real>)
    ensures rsi == Reading(prices, period)
  {
    if |prices| < period + 1 {
      return None;
    }
    var gains, losses := Rises(prices), Drops(prices);
    var gain, loss := Sum(gains[..period]) / period as real, Sum(losses[..period]) / period as real;
    for i := period to |gains|
      invariant gain == WilderMean(gains, period, i - 1) && loss == WilderMean(losses, period, i - 1)
    {
      gain, loss := WilderNext(gain, gains[i], period), WilderNext(loss, losses[i], period);
    }
    assert gain == AverageGain(prices, period) && loss == AverageLoss(prices, period);
    if loss == 0.0 {
      return Some(100.0);
    }
    if gain == 0.0 {
      return Some(0.0);
    }
    return Some(100.0 - 100.0 / (1.0 + gain / loss));
  }

  ghost predicate NeverFalls(prices: seq<real>)
  {
    forall i :: 0 <= i < |prices| - 1 ==> prices[i] <= prices[i + 1]
  }

  ghost predicate NeverRises(prices: seq<real>)
  {
    forall i :: 0 <= i < |prices| - 1 ==> prices[i] >= prices[i + 1]
  }

  /** The reading is the share of the average gain in both averages, once there is a loss. */
  lemma StrengthIsShare(gain: real, loss: real)
    requires gain >= 0.0 && loss > 0.0
    ensures Strength(gain, loss) == 100.0 * gain / (gain + loss)
  {
    if gain > 0.0 {
      var rs := gain / loss;
      QuotientNonNegative(gain, loss);
      assert (1.0 + rs) * loss == gain + loss;
      var q := 100.0 / (1.0 + rs);
      assert q * (1.0 + rs) == 100.0;
      assert q * (gain + loss) == 100.0 * loss by {
        assert q * (gain + loss) == q * ((1.0 + rs) * loss) == (q * (1.0 + rs)) * loss;
      }
      assert (100.0 - q) * (gain + loss) == 100.0 * gain;
      DivideBack(100.0 - q, 100.0 * gain, gain + loss);
    }
  }

  lemma AverageZero(prices: seq<real>, period: posint)
    requires period >= 2 && |prices| >= period + 1
    ensures AverageGain(prices, period) == 0.0 <==> NeverRises(prices)
    ensures AverageLoss(prices, period) == 0.0 <==> NeverFalls(prices)
  {
    var up, down := Rises(prices), Drops(prices);
    assert up[..|prices| - 1] == up && down[..|prices| - 1] == down;
    MeanZero(up, period, |prices| - 2);
    MeanZero(down, period, |prices| - 2);
    assert AllZero(up) <==> NeverRises(prices) by {
      assert forall i :: 0 <= i < |up| ==> (up[i] == 0.0 <==> prices[i] >= prices[i + 1]);
    }
    assert AllZero(down) <==> NeverFalls(prices) by {
      assert forall i :: 0 <= i < |down| ==> (down[i] == 0.0 <==> prices[i] <= prices[i + 1]);
    }
  }

  /** A percentage whose ends mean what they should: one hundred exactly when no price of the list
      falls, standing still included, and zero exactly when some price falls and none rises. */
  lemma ReadingBounds(prices: seq<real>, period: posint)
    requires period >= 2 && |prices| >= period + 1
    ensures
      var r := Reading(prices, period);
      && r.Some? && 0.0 <= r.value <= 100.0
      && (r.value == 100.0 <==> NeverFalls(prices))
      && (r.value == 0.0 <==> NeverRises(prices) && !NeverFalls(prices))
  {
    var gain, loss := AverageGain(prices, period), AverageLoss(prices, period);
    AverageZero(prices, period);
    if loss > 0.0 {
      StrengthIsShare(gain, loss);
      ShareBounds(gain, loss);
    }
  }

  lemma ShareBounds(gain: real, loss: real)
    requires gain >= 0.0 && loss > 0.0
    ensures 0.0 <= 100.0 * gain / (gain + loss) < 100.0
    ensures 100.0 * gain / (gain + loss) == 0.0 <==> gain == 0.0
  {
    var r := 100.0 * gain / (gain + loss);
    assert r * (gain + loss) == 100.0 * gain;
    QuotientNonNegative(100.0 * gain, gain + loss);
    DivideStrictlyBelow(100.0 * gain, 100.0, gain + loss);
  }

  /** Both precomputed lists read the last 51 prices up to a bar. */
  function Recent(prices: seq<real>): (r: seq<real>)
    ensures |r| == if |prices| > 51 then 51 else |prices|
  {
    if |prices| > 51 then prices[|prices| - 51..] else prices
  }
}
