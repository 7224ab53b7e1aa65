/** Wilder's moving average, of true ranges, of DX values, of gains and of losses. */
module Wilder {
  import opened Wrappers
  import opened Reals
  import opened Seqs

  /** One step of a Wilder average. */
  function WilderNext(average: real, x: real, period: posint): real
  {
    (average * (period - 1) as real + x) / period as real
  }

  /** The Wilder average at index `i` of a list: the plain mean of the first `period` values, then
      one step per value. */
  function WilderMean(x: seq<real>, period: posint, i: nat): real
    requires period - 1 <= i < |x|
  {
    if i == period - 1 then Sum(x[..period]) / period as real
    else WilderNext(WilderMean(x, period, i - 1), x[i], period)
  }

  lemma {:induction false} MeanOfPrefix(x: seq<real>, y: seq<real>, period: posint, i: nat)
    requires period - 1 <= i < |x| && i < |y| && forall j :: 0 <= j <= i ==> x[j] == y[j]
    ensures WilderMean(x, period, i) == WilderMean(y, period, i)
  {
    if i == period - 1 {
      assert x[..period] == y[..period];
    } else {
      MeanOfPrefix(x, y, period, i - 1);
    }
  }

  predicate NonNegative(x: seq<real>)
  {
    forall i :: 0 <= i < |x| ==> x[i] >= 0.0
  }

  lemma {:induction false} SumNonNegative(x: seq<real>)
    requires NonNegative(x)
    ensures Sum(x) >= 0.0
  {
    if x != [] {
      SumNonNegative(x[..|x| - 1]);
    }
  }

  /** Of values that are not negative a step gives zero only from zeros. */
  lemma WilderZero(a: real, x: real, period: posint)
    requires a >= 0.0 && x >= 0.0
    ensures WilderNext(a, x, period) >= 0.0
    ensures WilderNext(a, x, period) == 0.0 && period >= 2 ==> a == 0.0 && x == 0.0
  {
    var n := period as real;
    ProductNonNegative(a, n - 1.0);
    QuotientNonNegative(a * (n - 1.0) + x, n);
    if period >= 2 && a > 0.0 {
      ProductPositive(a, n - 1.0);
    }
  }

  predicate AllZero(x: seq<real>)
  {
    forall i :: 0 <= i < |x| ==> x[i] == 0.0
  }

  lemma {:induction false} SumZero(x: seq<real>)
    requires NonNegative(x)
    ensures Sum(x) == 0.0 <==> AllZero(x)
  {
    if x != [] {
      var y := x[..|x| - 1];
      SumNonNegative(y);
      SumZero(y);
      assert AllZero(x) <==> AllZero(y) && x[|x| - 1] == 0.0;
    }
  }

  /** An average of values that are not negative is zero exactly when all of them are. */
  lemma {:induction false} MeanZero(x: seq<real>, period: posint, i: nat)
    requires period >= 2 && period - 1 <= i < |x| && NonNegative(x)
    ensures WilderMean(x, period, i) == 0.0 <==> AllZero(x[..i + 1])
  {
    if i == period - 1 {
      SumNonNegative(x[..period]);
      SumZero(x[..period]);
      QuotientNonNegative(Sum(x[..period]), period as real);
    } else {
      MeanZero(x, period, i - 1);
      MeanNonNegative(x, period, i - 1);
      WilderZero(WilderMean(x, period, i - 1), x[i], period);
      assert AllZero(x[..i + 1]) <==> AllZero(x[..i]) && x[i] == 0.0 by {
        assert x[..i + 1] == x[..i] + [x[i]];
      }
    }
  }

  /** Averages of values that are not negative are not negative, for every period. */
  lemma {:induction false} MeanNonNegative(x: seq<real>, period: posint, i: nat)
    requires period - 1 <= i < |x| && NonNegative(x)
    ensures WilderMean(x, period, i) >= 0.0
  {
    if i == period - 1 {
      SumNonNegative(x[..period]);
      QuotientNonNegative(Sum(x[..period]), period as real);
    } else {
      MeanNonNegative(x, period, i - 1);
      WilderZero(WilderMean(x, period, i - 1), x[i], period);
    }
  }
}
