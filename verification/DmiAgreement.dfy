/** Exactly when the one-pass ADX series and the batch form agree. */
module DmiAgreement {
  import opened Wrappers
  import opened Reals
  import opened Seqs
  import opened Dmi
  import opened Wilder
  import opened DmiTheorems

  /** The first list index from `period` on at which the smoothed range is positive, or `n`. */
  function FirstRange(r: Raw, period: posint, n: nat): (f: nat)
    requires SameLength(r) && period <= n <= |r.tr|
    ensures period <= f <= n
  {
    if n == period then period
    else
      var f := FirstRange(r, period, n - 1);
      if f < n - 1 || Smooth(r.tr, period, n - 1) > 0.0 then f else n
  }

  function Zeros(j: nat): (z: seq<real>)
    ensures |z| == j && forall i :: 0 <= i < j ==> z[i] == 0.0
  {
    seq(j, _ => 0.0)
  }

  lemma NoRangeNoDx(r: Raw, period: posint, i: nat)
    requires SameLength(r) && period <= i < |r.tr| && Smooth(r.tr, period, i) == 0.0
    ensures DxAt(r, period, i) == 0.0
  {
  }

  /** The batch form skips exactly the indices before the first range, where the series counts a
      DX of zero. */
  lemma {:induction false} BatchIsSeriesTail(r: Raw, period: posint, n: nat)
    requires SameLength(r) && 2 <= period <= n <= |r.tr| && NonNegative(r.tr)
    ensures
      var f := FirstRange(r, period, n);
      && (forall i :: period <= i < f ==> Smooth(r.tr, period, i) == 0.0)
      && (forall i :: f <= i < n ==> Smooth(r.tr, period, i) > 0.0)
      && |DxBatch(r, period, n)| == n - f
      && DxSeries(r, period, n) == Zeros(f - period) + DxBatch(r, period, n)
  {
    hide DxAt, Smooth;
    if n > period {
      BatchIsSeriesTail(r, period, n - 1);
      var g := FirstRange(r, period, n - 1);
      SmoothNonNegative(r.tr, period, n - 1);
      if g < n - 1 {
        SmoothStaysPositive(r.tr, period, n - 2, n - 1);
      }
      if Smooth(r.tr, period, n - 1) == 0.0 {
        NoRangeNoDx(r, period, n - 1);
        assert Zeros(n - period) == Zeros(n - 1 - period) + [0.0];
      }
    }
  }

  /** On the inputs: the first range is the first index after `period` with a positive true range,
      unless the first `period` ranges already have a positive sum. The range at index `period`
      itself is never looked at. */
  lemma {:induction false} FirstRangeOnInputs(r: Raw, period: posint, n: nat)
    requires SameLength(r) && 2 <= period < n <= |r.tr| && NonNegative(r.tr)
    ensures
      var f := FirstRange(r, period, n);
      && (f == period <==> Sum(r.tr[..period]) > 0.0)
      && (f > period ==> f < n ==> r.tr[f] > 0.0)
      && (forall i :: period < i < f ==> r.tr[i] == 0.0)
  {
    BatchIsSeriesTail(r, period, n);
    SumNonNegative(r.tr[..period]);
    var f := FirstRange(r, period, n);
    assert Smooth(r.tr, period, period) == Sum(r.tr[..period]);
    forall i | period < i <= f && i < n
      ensures Smooth(r.tr, period, i) == r.tr[i]
    {
      assert Smooth(r.tr, period, i - 1) == 0.0;
      assert Smooth(r.tr, period, i) == Decay(Smooth(r.tr, period, i - 1), period, r.tr[i]);
    }
  }

  // ------------------------------------------------- leading zeros in a Wilder average

  lemma {:induction false} SumOfZeros(x: seq<real>)
    requires forall i :: 0 <= i < |x| ==> x[i] == 0.0
    ensures Sum(x) == 0.0
  {
    if x != [] {
      SumOfZeros(x[..|x| - 1]);
    }
  }

  lemma {:induction false} SumIsZeroOnlyOfZeros(x: seq<real>)
    requires NonNegative(x)
    ensures Sum(x) >= 0.0 && (Sum(x) == 0.0 <==> forall i :: 0 <= i < |x| ==> x[i] == 0.0)
  {
    if x != [] {
      SumIsZeroOnlyOfZeros(x[..|x| - 1]);
    }
  }

  lemma {:induction false} SumAfterZeros(j: nat, x: seq<real>)
    ensures Sum(Zeros(j) + x) == Sum(x)
  {
    if x == [] {
      SumOfZeros(Zeros(j));
      assert Zeros(j) + x == Zeros(j);
    } else {
      SumAfterZeros(j, x[..|x| - 1]);
      assert (Zeros(j) + x)[..j + |x| - 1] == Zeros(j) + x[..|x| - 1];
    }
  }

  lemma {:induction false} AdxOfZeros(x: seq<real>, period: posint, i: nat)
    requires period - 1 <= i < |x| && forall t :: 0 <= t <= i ==> x[t] == 0.0
    ensures WilderMean(x, period, i) == 0.0
  {
    if i == period - 1 {
      SumOfZeros(x[..period]);
    } else {
      AdxOfZeros(x, period, i - 1);
    }
  }

  /** One Wilder step from a value that is at most a partial sum over the period. */
  lemma NextBelowSum(b: real, s: real, d: real, period: posint)
    requires 0.0 <= b <= s / period as real && d >= 0.0
    ensures 0.0 <= WilderNext(b, d, period) <= (s + d) / period as real
  {
    var n := period as real;
    ProductNonNegative(b, n - 1.0);
    QuotientNonNegative(b * (n - 1.0) + d, n);
    assert b * n <= s by {
      ScaleByPositive(n, s / n, b);
    }
    DivideMonotone(b * (n - 1.0) + d, s + d, n);
  }

  lemma DivideMonotone(x: real, y: real, d: pos)
    requires x <= y
    ensures x / d <= y / d
  {
    DivideBelow(x, y / d, d);
  }

  /** After leading zeros the average of the first `c` values is at most their sum over the period. */
  lemma {:induction false} AdxBelowSum(x: seq<real>, period: posint, j: nat, c: nat)
    requires c <= |x| && period <= j + c && NonNegative(x)
    ensures 0.0 <= WilderMean(Zeros(j) + x, period, j + c - 1) <= Sum(x[..c]) / period as real
  {
    var z := Zeros(j) + x;
    SumIsZeroOnlyOfZeros(x[..c]);
    if j + c == period {
      SumAfterZeros(j, x[..c]);
      assert z[..period] == Zeros(j) + x[..c];
      QuotientNonNegative(Sum(x[..c]), period as real);
    } else if c == 0 {
      AdxOfZeros(z, period, j - 1);
    } else {
      AdxBelowSum(x, period, j, c - 1);
      assert x[..c][..c - 1] == x[..c - 1];
      NextBelowSum(WilderMean(z, period, j + c - 2), Sum(x[..c - 1]), x[c - 1], period);
    }
  }

  /** Two averages with the same next value are equal after it exactly when they were before. */
  lemma NextInjective(a: real, b: real, d: real, period: posint)
    requires period >= 2
    ensures WilderNext(a, d, period) == WilderNext(b, d, period) <==> a == b
  {
    var n := period as real;
    if WilderNext(a, d, period) == WilderNext(b, d, period) {
      assert a * (n - 1.0) + d == WilderNext(a, d, period) * n == b * (n - 1.0) + d;
      assert (a - b) * (n - 1.0) == 0.0;
    }
  }

  /** At the end of the first `period` values leading zeros have made no difference exactly when
      all but the last of them are zero. */
  lemma SeedUnchanged(x: seq<real>, period: posint, j: nat)
    requires period >= 2 && j >= 1 && period <= |x| && NonNegative(x)
    ensures WilderMean(Zeros(j) + x, period, j + period - 1) == WilderMean(x, period, period - 1)
       <==> forall i :: 0 <= i < period - 1 ==> x[i] == 0.0
  {
    var n, b := period as real, WilderMean(Zeros(j) + x, period, j + period - 2);
    var s, d := Sum(x[..period - 1]), x[period - 1];
    AdxBelowSum(x, period, j, period - 1);
    SumIsZeroOnlyOfZeros(x[..period - 1]);
    assert x[..period][..period - 1] == x[..period - 1];
    assert WilderMean(x, period, period - 1) == (s + d) / n;
    assert WilderMean(Zeros(j) + x, period, j + period - 1) == WilderNext(b, d, period);
    SeedStep(b, s, d, period);
    assert (forall i :: 0 <= i < period - 1 ==> x[i] == 0.0) <==> s == 0.0 by {
      assert forall i :: 0 <= i < period - 1 ==> x[..period - 1][i] == x[i];
    }
  }

  lemma SeedStep(b: real, s: real, d: real, period: posint)
    requires period >= 2 && s >= 0.0 && 0.0 <= b <= s / period as real
    ensures WilderNext(b, d, period) == (s + d) / period as real <==> s == 0.0
  {
    var n := period as real;
    assert b * n <= s by {
      ScaleByPositive(n, s / n, b);
    }
    if WilderNext(b, d, period) == (s + d) / n {
      assert b * (n - 1.0) + d == WilderNext(b, d, period) * n == s + d;
      assert b * n - b == s;
    }
    if s == 0.0 {
      assert b == 0.0;
    }
  }

  /** Leading zeros leave a Wilder average unchanged exactly when all but the last of the first
      `period` values after them are zero, however many more follow. */
  lemma {:induction false} LeadingZerosHarmless(x: seq<real>, period: posint, j: nat, m: nat)
    requires period >= 2 && j >= 1 && period <= m <= |x| && NonNegative(x)
    ensures WilderMean(Zeros(j) + x, period, j + m - 1) == WilderMean(x, period, m - 1)
       <==> forall i :: 0 <= i < period - 1 ==> x[i] == 0.0
  {
    if m == period {
      SeedUnchanged(x, period, j);
    } else {
      LeadingZerosHarmless(x, period, j, m - 1);
      assert (Zeros(j) + x)[j + m - 1] == x[m - 1];
      NextInjective(WilderMean(Zeros(j) + x, period, j + m - 2), WilderMean(x, period, m - 2), x[m - 1], period);
    }
  }

  // ----------------------------------------------------------------- agreement

  ghost predicate NonNegativeRaw(r: Raw)
    requires SameLength(r)
  {
    NonNegative(r.tr) && NonNegative(r.plus) && NonNegative(r.minus)
  }

  lemma RawIsNonNegative(p: Prices)
    requires Aligned(p)
    ensures NonNegativeRaw(RawOf(p, |p.highs|))
  {
  }

  lemma DxIsNonNegative(r: Raw, period: posint, n: nat)
    requires SameLength(r) && 2 <= period <= n <= |r.tr| && NonNegativeRaw(r)
    ensures NonNegative(DxBatch(r, period, n))
  {
    BatchIsSeriesTail(r, period, n);
    var f, dx := FirstRange(r, period, n), DxBatch(r, period, n);
    forall i | 0 <= i < |dx| ensures dx[i] >= 0.0 {
      assert dx[i] == DxSeries(r, period, n)[f - period + i] == DxAt(r, period, f + i);
      DxSign(r, period, f + i);
    }
  }

  /** DX is never negative, and zero exactly when both smoothed movements are equal. */
  lemma DxSign(r: Raw, period: posint, i: nat)
    requires SameLength(r) && period <= i < |r.tr| && NonNegativeRaw(r) && Smooth(r.tr, period, i) > 0.0
    ensures DxAt(r, period, i) >= 0.0
    ensures DxAt(r, period, i) == 0.0 <==> Smooth(r.plus, period, i) == Smooth(r.minus, period, i)
  {
    SmoothNonNegative(r.plus, period, i);
    SmoothNonNegative(r.minus, period, i);
    DxOfParts(Smooth(r.plus, period, i), Smooth(r.minus, period, i), Smooth(r.tr, period, i));
  }

  lemma DxOfParts(p: real, m: real, t: pos)
    requires p >= 0.0 && m >= 0.0
    ensures Dx(Di(p, t), Di(m, t)) >= 0.0
    ensures Dx(Di(p, t), Di(m, t)) == 0.0 <==> p == m
  {
    var a, b := Di(p, t), Di(m, t);
    QuotientNonNegative(100.0 * p, t);
    QuotientNonNegative(100.0 * m, t);
    assert a * t == 100.0 * p && b * t == 100.0 * m;
    assert a == b <==> p == m;
    if a + b != 0.0 {
      QuotientNonNegative(100.0 * Abs(a - b), a + b);
    }
  }

  /** The first `period - 1` DX values of the batch form are all zero. */
  ghost predicate QuietStart(r: Raw, period: posint, k: nat)
    requires SameLength(r) && period <= k <= |r.tr|
  {
    forall i :: 0 <= i < period - 1 && i < |DxBatch(r, period, k)| ==> DxBatch(r, period, k)[i] == 0.0
  }

  lemma PartReading(r: Raw, period: posint, k: nat)
    requires SameLength(r) && 2 <= period <= k <= |r.tr|
    ensures
      var b, dx := BatchReading(FirstPart(r, k), period), DxBatch(r, period, k);
      && (b.Some? <==> |dx| >= period)
      && (b.Some? ==> b.value.adx == WilderMean(dx, period, |dx| - 1))
  {
    hide WilderMean, DxAt, Smooth, DxBatch, LastDi;
    BatchOfPrefix(r, period, k, k);
  }

  lemma RawAgreement(r: Raw, period: posint, k: nat)
    requires SameLength(r) && NonNegativeRaw(r) && period >= 2 && 2 * period + 1 <= k <= |r.tr|
    requires |DxBatch(r, period, k)| >= period
    ensures SeriesAdx(r, period, k) == Some(WilderMean(DxBatch(r, period, k), period, |DxBatch(r, period, k)| - 1))
       <==> Sum(r.tr[..period]) > 0.0 || QuietStart(r, period, k)
  {
    hide WilderMean, DxAt, Smooth;
    var f, dx := FirstRange(r, period, k), DxBatch(r, period, k);
    BatchIsSeriesTail(r, period, k);
    FirstRangeOnInputs(r, period, k);
    MeanOfPrefix(DxSeries(r, period, k), DxSeries(r, period, |r.tr|), period, k - 1 - period);
    if f == period {
      assert DxSeries(r, period, k) == dx;
    } else {
      DxIsNonNegative(r, period, k);
      LeadingZerosHarmless(dx, period, f - period, |dx|);
    }
  }

  /** ADX agreement, exactly. The series holds an ADX from bar 2 * period + 1 on. The batch form on
      the bars up to `k` returns a reading exactly when `period` indices from the first range on
      have been seen, so from bar 2 * period on if the first `period` true ranges have a positive
      sum. Where both report, the two values are equal exactly when that sum is positive, or the
      first `period - 1` of the batch form's DX are zero. */
  lemma AdxAgreesExactly(p: Prices, period: posint, k: nat)
    requires Aligned(p) && period >= 2 && 2 * period <= k < |p.highs|
    ensures
      var r, b := RawOf(p, |p.highs|), AdxFull(UpTo(p, k), period);
      && (SeriesAdx(r, period, k).Some? <==> k > 2 * period)
      && (b.Some? <==> FirstRange(r, period, k) + period <= k)
      && (Sum(r.tr[..period]) > 0.0 ==> b.Some?)
      && (b.Some? && k > 2 * period ==>
            (SeriesAdx(r, period, k) == Some(b.value.adx) <==>
               Sum(r.tr[..period]) > 0.0 || QuietStart(r, period, k)))
  {
    hide RawOf, Smooth, WilderMean, DxAt, QuietStart;
    var r := RawOf(p, |p.highs|);
    RawIsNonNegative(p);
    BatchOnPrefix(p, period, k);
    PartReading(r, period, k);
    BatchIsSeriesTail(r, period, k);
    FirstRangeOnInputs(r, period, k);
    if |DxBatch(r, period, k)| >= period && k > 2 * period {
      RawAgreement(r, period, k);
    }
  }

  // ------------------------------------------------- the same on the bars themselves

  /** At no index of lo..hi has price moved out of the bar before on either side. */
  ghost predicate NoMovement(r: Raw, lo: nat, hi: nat)
    requires SameLength(r)
  {
    forall i :: lo <= i < hi && i < |r.tr| ==> r.plus[i] == 0.0 && r.minus[i] == 0.0
  }

  ghost predicate OneWay(r: Raw)
    requires SameLength(r)
  {
    forall i :: 0 <= i < |r.tr| ==> r.plus[i] == 0.0 || r.minus[i] == 0.0
  }

  lemma {:induction false} SmoothOfFlat(x: seq<real>, period: posint, i: nat)
    requires period <= i < |x| && forall t :: 0 <= t <= i && t != period ==> x[t] == 0.0
    ensures Smooth(x, period, i) == 0.0
  {
    if i == period {
      SumOfZeros(x[..period]);
    } else {
      SmoothOfFlat(x, period, i - 1);
    }
  }

  /** Before the first range nothing has moved, where movement never exceeds the range. */
  lemma FlatBeforeFirst(r: Raw, period: posint, n: nat)
    requires SameLength(r) && NonNegativeRaw(r) && Dominated(r) && 2 <= period < n <= |r.tr|
    requires FirstRange(r, period, n) > period
    ensures forall t :: 0 <= t < FirstRange(r, period, n) && t != period ==> r.plus[t] == 0.0 && r.minus[t] == 0.0
  {
    FirstRangeOnInputs(r, period, n);
    SumIsZeroOnlyOfZeros(r.tr[..period]);
    forall t | 0 <= t < period ensures r.tr[t] == 0.0 {
      assert r.tr[t] == r.tr[..period][t];
    }
  }

  /** After a flat start the first `c` DX values are zero exactly when the bars there do not move. */
  lemma {:induction false} QuietIsStill(r: Raw, period: posint, n: nat, c: nat)
    requires SameLength(r) && NonNegativeRaw(r) && Dominated(r) && OneWay(r) && 2 <= period < n <= |r.tr|
    requires FirstRange(r, period, n) > period && FirstRange(r, period, n) + c <= n
    ensures
      var f := FirstRange(r, period, n);
      (forall i :: f <= i < f + c ==> DxAt(r, period, i) == 0.0) <==> NoMovement(r, f, f + c)
  {
    hide DxAt;
    var f := FirstRange(r, period, n);
    if c > 0 {
      QuietIsStill(r, period, n, c - 1);
      if NoMovement(r, f, f + c - 1) {
        var i := f + c - 1;
        FlatBeforeFirst(r, period, n);
        SmoothOfFlat(r.plus, period, i - 1);
        SmoothOfFlat(r.minus, period, i - 1);
        BatchIsSeriesTail(r, period, n);
        DxSign(r, period, i);
        assert Smooth(r.plus, period, i) == r.plus[i] && Smooth(r.minus, period, i) == r.minus[i];
      }
    }
  }

  lemma QuietStartIsRange(r: Raw, period: posint, k: nat)
    requires SameLength(r) && NonNegativeRaw(r) && 2 <= period <= k <= |r.tr| && |DxBatch(r, period, k)| >= period
    ensures
      var f := FirstRange(r, period, k);
      && f + period <= k
      && (QuietStart(r, period, k) <==> forall i :: f <= i < f + period - 1 ==> DxAt(r, period, i) == 0.0)
  {
    hide Smooth, DxAt, DxBatch, DxSeries;
    var f, dx := FirstRange(r, period, k), DxBatch(r, period, k);
    BatchIsSeriesTail(r, period, k);
    forall i | f <= i < f + period - 1 ensures dx[i - f] == DxAt(r, period, i) {
      assert dx[i - f] == DxSeries(r, period, k)[i - period];
    }
    if QuietStart(r, period, k) {
      forall i | f <= i < f + period - 1 ensures DxAt(r, period, i) == 0.0 {
        assert dx[i - f] == 0.0;
      }
    }
    if forall i :: f <= i < f + period - 1 ==> DxAt(r, period, i) == 0.0 {
      forall i | 0 <= i < period - 1 ensures dx[i] == 0.0 {
        assert dx[f + i - f] == DxAt(r, period, f + i);
      }
    }
  }

  lemma MovesOneWay(p: Prices)
    requires Aligned(p)
    ensures OneWay(RawOf(p, |p.highs|))
  {
  }

  lemma ConditionOnBars(r: Raw, period: posint, k: nat)
    requires SameLength(r) && NonNegativeRaw(r) && Dominated(r) && OneWay(r) && 2 <= period < k <= |r.tr|
    requires FirstRange(r, period, k) + period <= k
    ensures
      var f := FirstRange(r, period, k);
      Sum(r.tr[..period]) > 0.0 || QuietStart(r, period, k) <==>
        Sum(r.tr[..period]) > 0.0 || NoMovement(r, f, f + period - 1)
  {
    hide Smooth, DxAt, DxBatch, DxSeries, Dominated, OneWay, NoMovement, QuietStart;
    FirstRangeOnInputs(r, period, k);
    BatchIsSeriesTail(r, period, k);
    if FirstRange(r, period, k) > period {
      QuietStartIsRange(r, period, k);
      QuietIsStill(r, period, k, period - 1);
    }
  }

  /** On valid bars the exact condition reads: the first `period` bars have moved at all, or the
      `period - 1` bars from the first range on show no directional movement. */
  lemma AdxAgreesOnBars(p: Prices, period: posint, k: nat)
    requires Aligned(p) && ValidPrices(p) && period >= 2 && 2 * period + 1 <= k < |p.highs|
    ensures
      var r, b := RawOf(p, |p.highs|), AdxFull(UpTo(p, k), period);
      var f := FirstRange(r, period, k);
      b.Some? ==>
        (SeriesAdx(r, period, k) == Some(b.value.adx) <==>
           Sum(r.tr[..period]) > 0.0 || NoMovement(r, f, f + period - 1))
  {
    hide RawOf, Dominated, NonNegativeRaw, OneWay, NoMovement, QuietStart, AdxFull, SeriesAdx, UpTo;
    var r := RawOf(p, |p.highs|);
    AdxAgreesExactly(p, period, k);
    RawIsNonNegative(p);
    PricesDominate(p);
    MovesOneWay(p);
    if AdxFull(UpTo(p, k), period).Some? {
      ConditionOnBars(r, period, k);
    }
  }
}
