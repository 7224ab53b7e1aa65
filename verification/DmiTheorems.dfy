/** The one-pass series against the batch form, and the bounds of both. */
module DmiTheorems {
  import opened Wrappers
  import opened Reals
  import opened Seqs
  import opened Dmi
  import opened Wilder

  /** The bars of a frame up to and including bar `k`. */
  function UpTo(p: Prices, k: nat): Prices
    requires Aligned(p) && k < |p.highs|
  {
    Prices(p.highs[..k + 1], p.lows[..k + 1], p.closes[..k + 1])
  }

  function FirstPart(r: Raw, m: nat): Raw
    requires SameLength(r) && m <= |r.tr|
  {
    Raw(r.tr[..m], r.plus[..m], r.minus[..m])
  }

  lemma {:induction false} RawOfPrefix(p: Prices, k: nat)
    requires Aligned(p) && k < |p.highs|
    ensures RawOf(UpTo(p, k), k + 1) == FirstPart(RawOf(p, |p.highs|), k)
  {
    hide RawOf;
    var a, b := RawOf(UpTo(p, k), k + 1), RawOf(p, |p.highs|);
    forall i | 0 <= i < k ensures a.tr[i] == b.tr[i] && a.plus[i] == b.plus[i] && a.minus[i] == b.minus[i] {
    }
    assert a.tr == b.tr[..k] && a.plus == b.plus[..k] && a.minus == b.minus[..k];
  }

  lemma {:induction false} SmoothOfPrefix(x: seq<real>, period: posint, m: nat, i: nat)
    requires period <= i < m <= |x|
    ensures Smooth(x[..m], period, i) == Smooth(x, period, i)
  {
    if i == period {
      assert x[..m][..period] == x[..period];
    } else {
      SmoothOfPrefix(x, period, m, i - 1);
    }
  }

  lemma PartAgrees(r: Raw, period: posint, m: nat, i: nat)
    requires SameLength(r) && period <= i < m <= |r.tr|
    ensures Smooth(FirstPart(r, m).tr, period, i) == Smooth(r.tr, period, i)
    ensures PlusDiAt(FirstPart(r, m), period, i) == PlusDiAt(r, period, i)
    ensures MinusDiAt(FirstPart(r, m), period, i) == MinusDiAt(r, period, i)
    ensures DxAt(FirstPart(r, m), period, i) == DxAt(r, period, i)
  {
    SmoothOfPrefix(r.tr, period, m, i);
    SmoothOfPrefix(r.plus, period, m, i);
    SmoothOfPrefix(r.minus, period, m, i);
  }

  lemma {:induction false} BatchOfPrefix(r: Raw, period: posint, m: nat, n: nat)
    requires SameLength(r) && period <= n <= m <= |r.tr|
    ensures DxBatch(FirstPart(r, m), period, n) == DxBatch(r, period, n)
    ensures LastDi(FirstPart(r, m), period, n) == LastDi(r, period, n)
  {
    if n > period {
      BatchOfPrefix(r, period, m, n - 1);
      PartAgrees(r, period, m, n - 1);
    }
  }

  lemma DecaySign(s: real, period: posint, x: real)
    requires s >= 0.0 && x >= 0.0
    ensures Decay(s, period, x) >= 0.0
    ensures s > 0.0 && period >= 2 ==> Decay(s, period, x) > 0.0
  {
    if period == 1 {
      assert s / period as real == s;
    } else {
      var n := period as real;
      DivideBelow(s, s / 2.0, n) by {
        assert s / 2.0 * n >= s by {
          ProductNonNegative(s / 2.0, n - 2.0);
        }
      }
    }
  }

  /** Once the smoothed range is positive it stays so, for periods of two or more. */
  lemma {:induction false} SmoothStaysPositive(x: seq<real>, period: posint, j: nat, i: nat)
    requires period >= 2 && period <= j <= i < |x| && NonNegative(x) && Smooth(x, period, j) > 0.0
    ensures Smooth(x, period, i) > 0.0
  {
    if j < i {
      SmoothStaysPositive(x, period, j, i - 1);
      DecaySign(Smooth(x, period, i - 1), period, x[i]);
    }
  }

  lemma {:induction false} SmoothNonNegative(x: seq<real>, period: posint, i: nat)
    requires period <= i < |x| && NonNegative(x)
    ensures Smooth(x, period, i) >= 0.0
  {
    if i == period {
      SumNonNegative(x[..period]);
    } else {
      SmoothNonNegative(x, period, i - 1);
      DecaySign(Smooth(x, period, i - 1), period, x[i]);
    }
  }

  lemma RangesNonNegative(p: Prices, n: nat)
    requires Aligned(p) && n <= |p.highs|
    ensures NonNegative(RawOf(p, n).tr)
  {
  }

  /** The batch form's last DI pair is the series' DI at the last index: a smoothed range that
      is zero there was zero throughout, and both then report zeros. */
  lemma {:induction false} LastDiIsLatest(r: Raw, period: posint, n: nat)
    requires SameLength(r) && 2 <= period < n <= |r.tr| && NonNegative(r.tr)
    ensures LastDi(r, period, n) == (PlusDiAt(r, period, n - 1), MinusDiAt(r, period, n - 1))
  {
    if Smooth(r.tr, period, n - 1) == 0.0 && n - 1 > period {
      LastDiIsLatest(r, period, n - 1);
      SmoothNonNegative(r.tr, period, n - 2);
      if Smooth(r.tr, period, n - 2) > 0.0 {
        SmoothStaysPositive(r.tr, period, n - 2, n - 1);
        assert false;
      }
    }
  }

  lemma FullReading(u: Prices, r: Raw, period: posint)
    requires Aligned(u) && 2 * period + 1 <= |u.highs| && r == RawOf(u, |u.highs|)
    ensures AdxFull(u, period) == BatchReading(r, period)
  {
    hide RawOf, BatchReading;
  }

  lemma {:induction false} BatchOnPrefix(p: Prices, period: posint, k: nat)
    requires Aligned(p) && 2 * period <= k < |p.highs|
    ensures AdxFull(UpTo(p, k), period) == BatchReading(FirstPart(RawOf(p, |p.highs|), k), period)
  {
    hide RawOf, BatchReading, AdxFull, FirstPart;
    RawOfPrefix(p, k);
    FullReading(UpTo(p, k), FirstPart(RawOf(p, |p.highs|), k), period);
  }

  lemma PartDi(r: Raw, period: posint, k: nat)
    requires SameLength(r) && NonNegative(r.tr) && 2 <= period < k <= |r.tr|
    requires BatchReading(FirstPart(r, k), period).Some?
    ensures
      var b := BatchReading(FirstPart(r, k), period).value;
      SeriesPlusDi(r, period, k) == Some(b.plusDi) && SeriesMinusDi(r, period, k) == Some(b.minusDi)
  {
    BatchOfPrefix(r, period, k, k);
    LastDiIsLatest(r, period, k);
  }

  /** DI agreement, whatever the prices: whenever the batch form on the bars up to `k` returns
      a reading, its DI pair is the one the series holds at bar `k`. */
  lemma {:induction false} SeriesDiIsBatchDi(p: Prices, period: posint, k: nat)
    requires Aligned(p) && period >= 2 && 2 * period <= k < |p.highs|
    requires AdxFull(UpTo(p, k), period).Some?
    ensures
      var r, b := RawOf(p, |p.highs|), AdxFull(UpTo(p, k), period).value;
      SeriesPlusDi(r, period, k) == Some(b.plusDi) && SeriesMinusDi(r, period, k) == Some(b.minusDi)
  {
    BatchOnPrefix(p, period, k);
    RangesNonNegative(p, |p.highs|);
    PartDi(RawOf(p, |p.highs|), period, k);
  }

  /** Four flat bars, one rise, one bar at the new price. */
  const FLAT_START := Prices([1.0, 1.0, 1.0, 1.0, 2.0, 2.0], [1.0, 1.0, 1.0, 1.0, 1.0, 2.0],
                             [1.0, 1.0, 1.0, 1.0, 2.0, 2.0])

  const FLAT_START_RAW := Raw([0.0, 0.0, 0.0, 1.0, 0.0], [0.0, 0.0, 0.0, 1.0, 0.0], [0.0, 0.0, 0.0, 0.0, 0.0])

  lemma FlatStartPoint(i: nat)
    requires i < 5
    ensures TrueRange(FLAT_START, i) == FLAT_START_RAW.tr[i]
    ensures PlusDm(FLAT_START, i) == FLAT_START_RAW.plus[i] && MinusDm(FLAT_START, i) == FLAT_START_RAW.minus[i]
  {
  }

  lemma FlatStartLists()
    ensures RawOf(FLAT_START, 6) == FLAT_START_RAW
  {
    hide RawOf, TrueRange, PlusDm, MinusDm;
    var r := RawOf(FLAT_START, 6);
    forall i | 0 <= i < 5
      ensures r.tr[i] == FLAT_START_RAW.tr[i]
      ensures r.plus[i] == FLAT_START_RAW.plus[i] && r.minus[i] == FLAT_START_RAW.minus[i]
    {
      FlatStartPoint(i);
    }
    assert r.tr == FLAT_START_RAW.tr && r.plus == FLAT_START_RAW.plus && r.minus == FLAT_START_RAW.minus;
  }

  lemma FlatStartSmooths()
    ensures DxAt(FLAT_START_RAW, 2, 2) == 0.0 && DxAt(FLAT_START_RAW, 2, 3) == DxAt(FLAT_START_RAW, 2, 4) == 100.0
    ensures Smooth(FLAT_START_RAW.tr, 2, 2) == 0.0
    ensures Smooth(FLAT_START_RAW.tr, 2, 3) == Smooth(FLAT_START_RAW.plus, 2, 3) == 1.0
    ensures Smooth(FLAT_START_RAW.tr, 2, 4) == Smooth(FLAT_START_RAW.plus, 2, 4) == 0.5
    ensures Smooth(FLAT_START_RAW.minus, 2, 4) == 0.0
  {
    var r := FLAT_START_RAW;
    assert r.tr[..2] == [0.0, 0.0] && r.plus[..2] == [0.0, 0.0] && r.minus[..2] == [0.0, 0.0];
    assert [0.0, 0.0][..1] == [0.0] && [0.0][..0] == [];
    assert Sum([0.0]) == 0.0 && Sum([0.0, 0.0]) == 0.0;
    assert Smooth(r.tr, 2, 2) == Smooth(r.plus, 2, 2) == Smooth(r.minus, 2, 2) == 0.0;
    assert Smooth(r.tr, 2, 3) == Smooth(r.plus, 2, 3) == 1.0 && Smooth(r.minus, 2, 3) == 0.0;
  }

  lemma FlatStartDx()
    ensures DxBatch(FLAT_START_RAW, 2, 5) == [100.0, 100.0] && DxSeries(FLAT_START_RAW, 2, 5) == [0.0, 100.0, 100.0]
  {
    hide DxAt, Smooth;
    var r := FLAT_START_RAW;
    FlatStartSmooths();
    assert DxBatch(r, 2, 3) == [] && DxBatch(r, 2, 4) == [100.0];
    assert DxSeries(r, 2, 3) == [0.0] && DxSeries(r, 2, 4) == [0.0, 100.0];
  }

  /** The condition on the first true ranges matters: after a flat start the batch form drops
      the undefined DX values and the series counts them as zero. */
  lemma FlatStartMakesAdxDiffer()
    ensures BatchReading(RawOf(FLAT_START, 6), 2) == Some(Reading(100.0, 100.0, 0.0))
    ensures SeriesAdx(RawOf(FLAT_START, 6), 2, 5) == Some(75.0)
  {
    hide DxAt, Smooth, DxBatch, DxSeries, RawOf;
    FlatStartLists();
    FlatStartSmooths();
    FlatStartDx();
    var a, b := [100.0, 100.0], [0.0, 100.0, 100.0];
    assert a[..2] == a && a[..1] == [100.0] && Sum([100.0]) == 100.0 && Sum(a) == 200.0;
    assert b[..2] == [0.0, 100.0] && [0.0, 100.0][..1] == [0.0] && Sum([0.0, 100.0]) == 100.0;
    assert WilderMean(a, 2, 1) == 100.0;
    assert WilderMean(b, 2, 1) == 50.0 && WilderMean(b, 2, 2) == WilderNext(50.0, 100.0, 2) == 75.0;
  }

  // ------------------------------------------------------------------- bounds

  /** Every close lies between the low and the high of its bar. */
  ghost predicate ValidPrices(p: Prices)
    requires Aligned(p)
  {
    forall i :: 0 <= i < |p.highs| ==> p.lows[i] <= p.closes[i] <= p.highs[i]
  }

  lemma MovementWithinRange(p: Prices, i: nat)
    requires Aligned(p) && ValidPrices(p) && i + 1 < |p.highs|
    ensures PlusDm(p, i) >= 0.0 && MinusDm(p, i) >= 0.0 && PlusDm(p, i) + MinusDm(p, i) <= TrueRange(p, i)
  {
    assert p.lows[i] <= p.closes[i] <= p.highs[i];
    assert p.lows[i + 1] <= p.closes[i + 1] <= p.highs[i + 1];
  }

  /** The directional parts never exceed the range. */
  ghost predicate Dominated(r: Raw)
    requires SameLength(r)
  {
    forall i :: 0 <= i < |r.tr| ==> 0.0 <= r.plus[i] && 0.0 <= r.minus[i] && r.plus[i] + r.minus[i] <= r.tr[i]
  }

  lemma {:induction false} SumDominated(a: seq<real>, b: seq<real>, c: seq<real>)
    requires |a| == |b| == |c|
    requires forall i :: 0 <= i < |a| ==> 0.0 <= a[i] && 0.0 <= b[i] && a[i] + b[i] <= c[i]
    ensures 0.0 <= Sum(a) && 0.0 <= Sum(b) && Sum(a) + Sum(b) <= Sum(c)
  {
    if a != [] {
      SumDominated(a[..|a| - 1], b[..|b| - 1], c[..|c| - 1]);
    }
  }

  lemma DecayMonotone(s: real, t: real, period: posint, x: real, y: real)
    requires s <= t && x <= y
    ensures Decay(s, period, x) <= Decay(t, period, y)
  {
    DecaySign(t - s, period, y - x);
    assert (t - s) / period as real == t / period as real - s / period as real;
  }

  lemma DecayAdds(s: real, t: real, period: posint, x: real, y: real)
    ensures Decay(s, period, x) + Decay(t, period, y) == Decay(s + t, period, x + y)
  {
    assert (s + t) / period as real == s / period as real + t / period as real;
  }

  /** Wilder smoothing keeps the parts non-negative and within the smoothed range. */
  lemma {:induction false} SmoothDominated(r: Raw, period: posint, i: nat)
    requires SameLength(r) && period <= i < |r.tr| && Dominated(r)
    ensures 0.0 <= Smooth(r.plus, period, i) && 0.0 <= Smooth(r.minus, period, i)
    ensures Smooth(r.plus, period, i) + Smooth(r.minus, period, i) <= Smooth(r.tr, period, i)
  {
    if i == period {
      SumDominated(r.plus[..period], r.minus[..period], r.tr[..period]);
    } else {
      SmoothDominated(r, period, i - 1);
      var a, b, c := Smooth(r.plus, period, i - 1), Smooth(r.minus, period, i - 1), Smooth(r.tr, period, i - 1);
      DecaySign(a, period, r.plus[i]);
      DecaySign(b, period, r.minus[i]);
      DecayAdds(a, b, period, r.plus[i], r.minus[i]);
      DecayMonotone(a + b, c, period, r.plus[i] + r.minus[i], r.tr[i]);
    }
  }

  lemma RatioBound(a: real, b: real, c: real)
    requires 0.0 <= a && 0.0 <= b && a + b <= c && c != 0.0
    ensures 0.0 <= Di(a, c) && 0.0 <= Di(b, c) && Di(a, c) + Di(b, c) <= 100.0
  {
    QuotientNonNegative(100.0 * a, c);
    QuotientNonNegative(100.0 * b, c);
    QuotientsAdd(100.0 * a, 100.0 * b, c);
    DivideBelow(100.0 * a + 100.0 * b, 100.0, c);
  }

  lemma DxBound(p: real, m: real)
    requires 0.0 <= p && 0.0 <= m
    ensures 0.0 <= Dx(p, m) <= 100.0
  {
    if p + m != 0.0 {
      QuotientNonNegative(100.0 * Abs(p - m), p + m);
      DivideBelow(100.0 * Abs(p - m), 100.0, p + m);
    }
  }

  lemma DiBounds(r: Raw, period: posint, i: nat)
    requires SameLength(r) && period <= i < |r.tr| && Dominated(r)
    ensures 0.0 <= PlusDiAt(r, period, i) && 0.0 <= MinusDiAt(r, period, i)
    ensures PlusDiAt(r, period, i) + MinusDiAt(r, period, i) <= 100.0
    ensures 0.0 <= DxAt(r, period, i) <= 100.0
  {
    SmoothDominated(r, period, i);
    if Smooth(r.tr, period, i) != 0.0 {
      RatioBound(Smooth(r.plus, period, i), Smooth(r.minus, period, i), Smooth(r.tr, period, i));
    }
    DxBound(PlusDiAt(r, period, i), MinusDiAt(r, period, i));
  }

  ghost predicate Percentages(x: seq<real>)
  {
    forall i :: 0 <= i < |x| ==> 0.0 <= x[i] <= 100.0
  }

  lemma {:induction false} SumOfPercentages(x: seq<real>)
    requires Percentages(x)
    ensures 0.0 <= Sum(x) <= 100.0 * |x| as real
  {
    if x != [] {
      SumOfPercentages(x[..|x| - 1]);
    }
  }

  lemma NextAdxBound(a: real, d: real, period: posint)
    requires 0.0 <= a <= 100.0 && 0.0 <= d <= 100.0
    ensures 0.0 <= WilderNext(a, d, period) <= 100.0
  {
    var m := (period - 1) as real;
    ProductNonNegative(a, m);
    ProductNonNegative(100.0 - a, m);
    assert a * m <= 100.0 * m by {
      assert (100.0 - a) * m == 100.0 * m - a * m;
    }
    QuotientNonNegative(a * m + d, period as real);
    DivideBelow(a * m + d, 100.0, period as real);
  }

  lemma AverageBound(sum: real, period: posint)
    requires 0.0 <= sum <= 100.0 * period as real
    ensures 0.0 <= sum / period as real <= 100.0
  {
    QuotientNonNegative(sum, period as real);
    DivideBelow(sum, 100.0, period as real);
  }

  lemma {:induction false} AdxBound(dx: seq<real>, period: posint, i: nat)
    requires period - 1 <= i < |dx| && Percentages(dx)
    ensures 0.0 <= WilderMean(dx, period, i) <= 100.0
  {
    if i == period - 1 {
      SumOfPercentages(dx[..period]);
      AverageBound(Sum(dx[..period]), period);
    } else {
      AdxBound(dx, period, i - 1);
      NextAdxBound(WilderMean(dx, period, i - 1), dx[i], period);
    }
  }

  lemma {:induction false} BatchBounds(r: Raw, period: posint, n: nat)
    requires SameLength(r) && period <= n <= |r.tr| && Dominated(r)
    ensures Percentages(DxBatch(r, period, n))
    ensures 0.0 <= LastDi(r, period, n).0 && 0.0 <= LastDi(r, period, n).1
    ensures LastDi(r, period, n).0 + LastDi(r, period, n).1 <= 100.0
  {
    if n > period {
      BatchBounds(r, period, n - 1);
      DiBounds(r, period, n - 1);
    }
  }

  lemma PricesDominate(p: Prices)
    requires Aligned(p) && ValidPrices(p)
    ensures Dominated(RawOf(p, |p.highs|))
  {
    var r := RawOf(p, |p.highs|);
    forall i | 0 <= i < |r.tr| ensures 0.0 <= r.plus[i] && 0.0 <= r.minus[i] && r.plus[i] + r.minus[i] <= r.tr[i] {
      MovementWithinRange(p, i);
    }
  }

  /** On valid bars every reading of the batch form is a triple of percentages, and the two DI
      add up to at most one hundred. */
  lemma ReadingBounds(p: Prices, period: posint)
    requires AdxFull(p, period).Some? && ValidPrices(p)
    ensures
      var b := AdxFull(p, period).value;
      0.0 <= b.adx <= 100.0 && 0.0 <= b.plusDi && 0.0 <= b.minusDi && b.plusDi + b.minusDi <= 100.0
  {
    var r := RawOf(p, |p.highs|);
    PricesDominate(p);
    BatchBounds(r, period, |r.tr|);
    AdxBound(DxBatch(r, period, |r.tr|), period, |DxBatch(r, period, |r.tr|)| - 1);
  }

  /** The same for every bar of the series. */
  lemma SeriesBounds(p: Prices, period: posint, k: nat)
    requires Aligned(p) && ValidPrices(p) && 2 * period + 1 <= k < |p.highs|
    ensures
      var r := RawOf(p, |p.highs|);
      && SeriesAdx(r, period, k).Some? && 0.0 <= SeriesAdx(r, period, k).value <= 100.0
      && SeriesPlusDi(r, period, k).Some? && 0.0 <= SeriesPlusDi(r, period, k).value
      && SeriesMinusDi(r, period, k).Some? && 0.0 <= SeriesMinusDi(r, period, k).value
      && SeriesPlusDi(r, period, k).value + SeriesMinusDi(r, period, k).value <= 100.0
  {
    hide RawOf, Dominated, PlusDiAt, MinusDiAt, WilderMean;
    var r := RawOf(p, |p.highs|);
    PricesDominate(p);
    DiBounds(r, period, k - 1);
    var dx := DxSeries(r, period, |r.tr|);
    forall j | 0 <= j < |dx| ensures 0.0 <= dx[j] <= 100.0 {
      DiBounds(r, period, period + j);
    }
    AdxBound(dx, period, k - 1 - period);
  }
}
