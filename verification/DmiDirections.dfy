/** Which way the directional indicators point: what the mirror does to them, when one of them is zero,
    and what a market that goes one way reads. */
module DmiDirections {
  import opened Wrappers
  import opened Reals
  import opened Seqs
  import opened Wilder
  import opened Dmi
  import opened DmiTheorems
  import opened Mirror

  // ------------------------------------------------------------ the mirror

  function FlipFrame(p: Prices): Prices
  {
    Prices(FlipPrices(p.lows), FlipPrices(p.highs), FlipPrices(p.closes))
  }

  /** The two directional lists change places. */
  function Exchanged(r: Raw): Raw
  {
    Raw(r.tr, r.minus, r.plus)
  }

  lemma PartsFlip(p: Prices, t: nat)
    requires Aligned(p) && t + 1 < |p.highs|
    ensures Aligned(FlipFrame(p)) && |FlipFrame(p).highs| == |p.highs|
    ensures TrueRange(FlipFrame(p), t) == TrueRange(p, t)
    ensures PlusDm(FlipFrame(p), t) == MinusDm(p, t) && MinusDm(FlipFrame(p), t) == PlusDm(p, t)
  {
  }

  lemma RawFlips(p: Prices, n: nat)
    requires Aligned(p) && n <= |p.highs|
    ensures Aligned(FlipFrame(p)) && |FlipFrame(p).highs| == |p.highs|
    ensures RawOf(FlipFrame(p), n) == Exchanged(RawOf(p, n))
  {
    hide RawOf, TrueRange, PlusDm, MinusDm;
    var r, q := RawOf(p, n), RawOf(FlipFrame(p), n);
    forall t | 0 <= t < |r.tr|
      ensures q.tr[t] == r.tr[t] && q.plus[t] == r.minus[t] && q.minus[t] == r.plus[t]
    {
      PartsFlip(p, t);
    }
    assert q.tr == r.tr && q.plus == r.minus && q.minus == r.plus;
  }

  lemma DxFlips(r: Raw, period: posint, i: nat)
    requires SameLength(r) && period <= i < |r.tr|
    ensures PlusDiAt(Exchanged(r), period, i) == MinusDiAt(r, period, i)
    ensures MinusDiAt(Exchanged(r), period, i) == PlusDiAt(r, period, i)
    ensures DxAt(Exchanged(r), period, i) == DxAt(r, period, i)
  {
    hide Smooth, Di;
    DxIsSymmetric(PlusDiAt(r, period, i), MinusDiAt(r, period, i));
  }

  lemma DxIsSymmetric(p: real, m: real)
    ensures Dx(p, m) == Dx(m, p)
  {
    assert Abs(p - m) == Abs(m - p);
  }

  lemma {:induction false} ListsFlip(r: Raw, period: posint, n: nat)
    requires SameLength(r) && period <= n <= |r.tr|
    ensures DxSeries(Exchanged(r), period, n) == DxSeries(r, period, n)
    ensures DxBatch(Exchanged(r), period, n) == DxBatch(r, period, n)
    ensures LastDi(Exchanged(r), period, n) == (LastDi(r, period, n).1, LastDi(r, period, n).0)
  {
    hide PlusDiAt, MinusDiAt, DxAt;
    if n > period {
      ListsFlip(r, period, n - 1);
      DxFlips(r, period, n - 1);
    }
  }

  function FlipReading(b: Option<Reading>): Option<Reading>
  {
    if b.Some? then Some(Reading(b.value.adx, b.value.minusDi, b.value.plusDi)) else None
  }

  lemma BatchFlips(r: Raw, period: posint)
    requires SameLength(r) && period <= |r.tr|
    ensures BatchReading(Exchanged(r), period) == FlipReading(BatchReading(r, period))
  {
    hide DxBatch, LastDi, WilderMean;
    ListsFlip(r, period, |r.tr|);
  }

  /** The batch form in the mirror: the DI change places and the ADX stays. */
  lemma ReadingFlips(p: Prices, period: posint)
    ensures AdxFull(FlipFrame(p), period) == FlipReading(AdxFull(p, period))
  {
    hide RawOf, BatchReading;
    if Aligned(p) && 2 * period + 1 <= |p.highs| {
      hide FlipFrame;
      RawFlips(p, |p.highs|);
      BatchFlips(RawOf(p, |p.highs|), period);
    }
  }

  lemma SeriesListsFlip(r: Raw, period: posint, k: nat)
    requires SameLength(r) && period <= |r.tr| && k <= |r.tr|
    ensures SeriesPlusDi(Exchanged(r), period, k) == SeriesMinusDi(r, period, k)
    ensures SeriesMinusDi(Exchanged(r), period, k) == SeriesPlusDi(r, period, k)
    ensures SeriesAdx(Exchanged(r), period, k) == SeriesAdx(r, period, k)
  {
    hide DxSeries, PlusDiAt, MinusDiAt, WilderMean;
    ListsFlip(r, period, |r.tr|);
    if k > period {
      DxFlips(r, period, k - 1);
    }
  }

  /** The series in the mirror, at every bar. */
  lemma SeriesFlips(p: Prices, period: posint, k: nat)
    requires Aligned(p) && period + 1 <= |p.highs| && k < |p.highs|
    ensures Aligned(FlipFrame(p)) && |FlipFrame(p).highs| == |p.highs|
    ensures
      var r, q := RawOf(p, |p.highs|), RawOf(FlipFrame(p), |p.highs|);
      && SeriesPlusDi(q, period, k) == SeriesMinusDi(r, period, k)
      && SeriesMinusDi(q, period, k) == SeriesPlusDi(r, period, k)
      && SeriesAdx(q, period, k) == SeriesAdx(r, period, k)
  {
    hide RawOf, SeriesPlusDi, SeriesMinusDi, SeriesAdx, FlipFrame;
    RawFlips(p, |p.highs|);
    SeriesListsFlip(RawOf(p, |p.highs|), period, k);
  }

  // ------------------------------------------------------------ when an indicator is zero

  /** The high of the next bar rises, and by more than its low falls. */
  predicate RisesMore(p: Prices, t: int)
    requires Aligned(p)
  {
    && 0 <= t && t + 1 < |p.highs|
    && p.highs[t] < p.highs[t + 1] && p.lows[t] - p.lows[t + 1] < p.highs[t + 1] - p.highs[t]
  }

  predicate FallsMore(p: Prices, t: int)
    requires Aligned(p)
  {
    && 0 <= t && t + 1 < |p.highs|
    && p.lows[t + 1] < p.lows[t] && p.highs[t + 1] - p.highs[t] < p.lows[t] - p.lows[t + 1]
  }

  lemma MovesSign(p: Prices, t: nat)
    requires Aligned(p) && t + 1 < |p.highs|
    ensures PlusDm(p, t) >= 0.0 && (PlusDm(p, t) > 0.0 <==> RisesMore(p, t))
    ensures MinusDm(p, t) >= 0.0 && (MinusDm(p, t) > 0.0 <==> FallsMore(p, t))
  {
  }

  /** A smoothed list of values that are not negative is zero exactly when all of them are, but for the
      entry at index `period`, which no form adds. */
  lemma {:induction false} SmoothZeroExactly(x: seq<real>, period: posint, i: nat)
    requires 2 <= period <= i < |x| && NonNegative(x)
    ensures Smooth(x, period, i) >= 0.0
    ensures Smooth(x, period, i) == 0.0 <==> forall t :: 0 <= t <= i && t != period ==> x[t] == 0.0
  {
    SmoothNonNegative(x, period, i);
    if i == period {
      SumZero(x[..period]);
      assert forall t :: 0 <= t < period ==> x[..period][t] == x[t];
      assert AllZero(x[..period]) <==> forall t :: 0 <= t < period ==> x[t] == 0.0;
    } else {
      SmoothZeroExactly(x, period, i - 1);
      DecaySign(Smooth(x, period, i - 1), period, x[i]);
    }
  }

  lemma DiSign(part: real, whole: real)
    requires part >= 0.0 && whole > 0.0
    ensures Di(part, whole) >= 0.0 && (Di(part, whole) == 0.0 <==> part == 0.0)
  {
    QuotientNonNegative(100.0 * part, whole);
  }

  /** On valid bars +DI is zero exactly while no bar rises more than it falls, and -DI exactly while
      none falls more than it rises, the pair of bars that no form adds apart. */
  lemma DiZeroExactly(p: Prices, period: posint, k: nat)
    requires Aligned(p) && ValidPrices(p) && 2 <= period < k < |p.highs|
    ensures
      var r := RawOf(p, |p.highs|);
      && (SeriesPlusDi(r, period, k) == Some(0.0) <==>
          forall t :: 0 <= t < k && t != period ==> !RisesMore(p, t))
      && (SeriesMinusDi(r, period, k) == Some(0.0) <==>
          forall t :: 0 <= t < k && t != period ==> !FallsMore(p, t))
      && SeriesPlusDi(r, period, k).value >= 0.0 && SeriesMinusDi(r, period, k).value >= 0.0
  {
    hide RawOf, Smooth, Di, PlusDm, MinusDm, RisesMore, FallsMore, ValidPrices, TrueRange;
    var r := RawOf(p, |p.highs|);
    forall t | 0 <= t < |r.tr|
      ensures 0.0 <= r.plus[t] && (r.plus[t] > 0.0 <==> RisesMore(p, t))
      ensures 0.0 <= r.minus[t] && (r.minus[t] > 0.0 <==> FallsMore(p, t))
    {
      MovesSign(p, t);
    }
    PricesDominate(p);
    PartsAreNonNegative(r);
    SmoothDominated(r, period, k - 1);
    SmoothZeroExactly(r.plus, period, k - 1);
    SmoothZeroExactly(r.minus, period, k - 1);
    if Smooth(r.tr, period, k - 1) != 0.0 {
      DiSign(Smooth(r.plus, period, k - 1), Smooth(r.tr, period, k - 1));
      DiSign(Smooth(r.minus, period, k - 1), Smooth(r.tr, period, k - 1));
    }
  }

  lemma PartsAreNonNegative(r: Raw)
    requires SameLength(r) && Dominated(r)
    ensures NonNegative(r.plus) && NonNegative(r.minus)
  {
  }

  // ------------------------------------------------------------ markets that go one way

  /** From bar to bar the high and the low both fall. */
  ghost predicate Falling(p: Prices)
    requires Aligned(p)
  {
    forall t :: 0 <= t && t + 1 < |p.highs| ==> p.highs[t + 1] < p.highs[t] && p.lows[t + 1] < p.lows[t]
  }

  ghost predicate Rising(p: Prices)
    requires Aligned(p)
  {
    forall t :: 0 <= t && t + 1 < |p.highs| ==> p.highs[t] < p.highs[t + 1] && p.lows[t] < p.lows[t + 1]
  }

  lemma DxOfOneSide(m: real)
    requires m > 0.0
    ensures Dx(0.0, m) == 100.0
  {
    DivideBack(100.0, 100.0 * m, m);
  }

  lemma FallingParts(p: Prices, period: posint, i: nat)
    requires Aligned(p) && ValidPrices(p) && Falling(p) && 2 <= period <= i && i + 1 < |p.highs|
    ensures
      var r := RawOf(p, |p.highs|);
      && Smooth(r.tr, period, i) > 0.0
      && PlusDiAt(r, period, i) == 0.0 < MinusDiAt(r, period, i) && DxAt(r, period, i) == 100.0
  {
    hide RawOf, Smooth, Di, PlusDm, MinusDm, ValidPrices, TrueRange;
    var r := RawOf(p, |p.highs|);
    assert FallsMore(p, 0);
    DiZeroExactly(p, period, i + 1);
    assert MinusDiAt(r, period, i) != 0.0;
    DxOfOneSide(MinusDiAt(r, period, i));
    PricesDominate(p);
    SmoothDominated(r, period, i);
  }

  lemma {:induction false} MeanOfHundreds(x: seq<real>, period: posint, i: nat)
    requires period - 1 <= i < |x| && forall t :: 0 <= t <= i ==> x[t] == 100.0
    ensures WilderMean(x, period, i) == 100.0
  {
    if i == period - 1 {
      SumOfHundreds(x[..period]);
      DivideBack(100.0, 100.0 * period as real, period as real);
    } else {
      MeanOfHundreds(x, period, i - 1);
      var n := period as real;
      assert 100.0 * (period - 1) as real + 100.0 == 100.0 * n;
      DivideBack(100.0, 100.0 * n, n);
    }
  }

  lemma {:induction false} SumOfHundreds(x: seq<real>)
    requires forall t :: 0 <= t < |x| ==> x[t] == 100.0
    ensures Sum(x) == 100.0 * |x| as real
  {
    if x != [] {
      SumOfHundreds(x[..|x| - 1]);
    }
  }

  lemma {:induction false} FallingLists(p: Prices, period: posint, n: nat)
    requires Aligned(p) && ValidPrices(p) && Falling(p) && 2 <= period <= n < |p.highs|
    ensures
      var r := RawOf(p, |p.highs|);
      && DxBatch(r, period, n) == DxSeries(r, period, n)
      && (forall t :: 0 <= t < n - period ==> DxSeries(r, period, n)[t] == 100.0)
      && (n > period ==> LastDi(r, period, n).0 == 0.0 < LastDi(r, period, n).1)
  {
    hide RawOf, Smooth, PlusDiAt, MinusDiAt, DxAt, ValidPrices, Falling;
    if n > period {
      FallingLists(p, period, n - 1);
      FallingParts(p, period, n - 1);
    }
  }

  /** Over a full frame of valid bars whose highs and lows all fall, both forms read +DI zero, -DI
      above it and ADX one hundred, the series from its first values on. */
  lemma FallingReads(p: Prices, period: posint, k: nat)
    requires Aligned(p) && ValidPrices(p) && Falling(p) && period >= 2
    requires period < k < |p.highs| && 2 * period + 1 <= |p.highs|
    ensures
      var r := RawOf(p, |p.highs|);
      && SeriesPlusDi(r, period, k) == Some(0.0)
      && SeriesMinusDi(r, period, k).Some? && SeriesMinusDi(r, period, k).value > 0.0
      && (2 * period + 1 <= k ==> SeriesAdx(r, period, k) == Some(100.0))
      && AdxFull(p, period).Some?
      && AdxFull(p, period).value.adx == 100.0
      && AdxFull(p, period).value.plusDi == 0.0 < AdxFull(p, period).value.minusDi
  {
    hide RawOf, Smooth, PlusDiAt, MinusDiAt, DxAt, ValidPrices, Falling, DxBatch, DxSeries, LastDi, WilderMean;
    var r := RawOf(p, |p.highs|);
    FallingParts(p, period, k - 1);
    FallingLists(p, period, |r.tr|);
    var dx := DxSeries(r, period, |r.tr|);
    MeanOfHundreds(dx, period, |dx| - 1);
    if 2 * period + 1 <= k {
      MeanOfHundreds(dx, period, k - 1 - period);
    }
  }

  lemma RisingFlips(p: Prices)
    requires Aligned(p) && ValidPrices(p) && Rising(p)
    ensures Aligned(FlipFrame(p)) && ValidPrices(FlipFrame(p)) && Falling(FlipFrame(p))
  {
  }

  /** And the other way round while they all rise. */
  lemma RisingReads(p: Prices, period: posint, k: nat)
    requires Aligned(p) && ValidPrices(p) && Rising(p) && period >= 2
    requires period < k < |p.highs| && 2 * period + 1 <= |p.highs|
    ensures
      var r := RawOf(p, |p.highs|);
      && SeriesMinusDi(r, period, k) == Some(0.0)
      && SeriesPlusDi(r, period, k).Some? && SeriesPlusDi(r, period, k).value > 0.0
      && (2 * period + 1 <= k ==> SeriesAdx(r, period, k) == Some(100.0))
      && AdxFull(p, period).Some?
      && AdxFull(p, period).value.adx == 100.0
      && AdxFull(p, period).value.minusDi == 0.0 < AdxFull(p, period).value.plusDi
  {
    hide RawOf, Rising, Falling, ValidPrices, FlipFrame, AdxFull, SeriesPlusDi, SeriesMinusDi, SeriesAdx;
    RisingFlips(p);
    SeriesFlips(p, period, k);
    ReadingFlips(p, period);
    FallingReads(FlipFrame(p), period, k);
  }
}
