/** The indicators of the Donchian backtest from its bars (scripts/run_donchian_backtest.py): lists on
    the trading bars, columns on the half-hour and hour bars, and what each trading bar reads of them. */
module DonchianFrames {
  import opened Wrappers
  import opened Wilder
  import opened Market
  import opened Htf
  import opened AsOfLookup
  import opened Dmi
  import opened DmiTheorems
  import opened DonchianSignals
  import opened DonchianLoosening
  import Rsi

  const PERIOD: posint := 14

  function PricesOf(bars: seq<Bar>): (p: Prices)
    ensures Aligned(p) && |p.highs| == |bars|
  {
    Prices(HighsOf(bars), LowsOf(bars), ClosesOf(bars))
  }

  /** RSI at the last bar, from at most 51 closes. */
  function RsiOf(bars: seq<Bar>): Option<real>
  {
    Rsi.Reading(Rsi.Recent(ClosesOf(bars)), PERIOD)
  }

  function PlusDiOf(bars: seq<Bar>): Option<real>
  {
    if bars == [] then None else SeriesPlusDi(RawOf(PricesOf(bars), |bars|), PERIOD, |bars| - 1)
  }

  function MinusDiOf(bars: seq<Bar>): Option<real>
  {
    if bars == [] then None else SeriesMinusDi(RawOf(PricesOf(bars), |bars|), PERIOD, |bars| - 1)
  }

  function AdxOf(bars: seq<Bar>): Option<real>
  {
    if |bars| < 2 * PERIOD + 1 then None else SeriesAdx(RawOf(PricesOf(bars), |bars|), PERIOD, |bars| - 1)
  }

  /** The DMI columns stay empty on a frame that is too short as a whole. */
  predicate LongEnough(htf: seq<Bar>)
  {
    |htf| >= 2 * PERIOD + 1
  }

  function Guarded(long: bool, f: Indicator): Indicator
  {
    (bars: seq<Bar>) => if long then f(bars) else None
  }

  function HoursOf(bars: seq<Bar>): seq<Bar>
  {
    Resample(bars, HOUR, |bars|)
  }

  /** What the filters read on each trading bar. */
  function Prepare(bars: seq<Bar>): (x: Indicators)
    ensures SameLengths(x) && x.bars == bars
  {
    var n, long := |bars|, LongEnough(HoursOf(bars));
    Indicators(
      bars, seq(n, i requires 0 <= i < n => ListAtr(bars, PERIOD, i)),
      ColumnOf(RsiOf, bars),
      seq(n, i requires 0 <= i < n => Lookup(RsiOf, bars, HALF_HOUR, i)),
      seq(n, i requires 0 <= i < n => Lookup(RsiOf, bars, HOUR, i)),
      seq(n, i requires 0 <= i < n => Lookup(AdxOf, bars, HOUR, i)),
      seq(n, i requires 0 <= i < n => Lookup(Guarded(long, PlusDiOf), bars, HOUR, i)),
      seq(n, i requires 0 <= i < n => Lookup(Guarded(long, MinusDiOf), bars, HOUR, i)),
      seq(n, i requires 0 <= i < n => bars[i].ts / 3600 % 24))
  }

  // ------------------------------------------------------------ the columns are those of the source

  lemma PricesUpTo(htf: seq<Bar>, h: nat)
    requires h < |htf|
    ensures UpTo(PricesOf(htf), h) == PricesOf(htf[..h + 1])
  {
    var p, q := UpTo(PricesOf(htf), h), PricesOf(htf[..h + 1]);
    assert p.highs == q.highs && p.lows == q.lows && p.closes == q.closes;
  }

  lemma AdxOfPart(r: Raw, period: posint, h: nat)
    requires SameLength(r) && 2 * period + 1 <= h <= |r.tr|
    ensures SeriesAdx(FirstPart(r, h), period, h) == SeriesAdx(r, period, h)
  {
    hide DxAt, WilderMean;
    var x, y := DxSeries(r, period, |r.tr|), DxSeries(FirstPart(r, h), period, h);
    forall j | 0 <= j <= h - 1 - period ensures x[j] == y[j] {
      PartAgrees(r, period, h, period + j);
    }
    hide DxSeries;
    MeanOfPrefix(x, y, period, h - 1 - period);
  }

  lemma NoEarlyAdx(r: Raw, h: nat)
    requires SameLength(r) && PERIOD <= |r.tr| && h <= |r.tr| && h < 2 * PERIOD + 1
    ensures SeriesAdx(r, PERIOD, h) == None
  {
  }

  lemma EarlyAdx(htf: seq<Bar>)
    requires |htf| <= 2 * PERIOD + 1
    ensures AdxOf(htf) == None
  {
    hide RawOf, PricesOf, SeriesAdx;
    if |htf| == 2 * PERIOD + 1 {
      NoEarlyAdx(RawOf(PricesOf(htf), |htf|), |htf| - 1);
    }
  }

  /** The raw lists of a prefix are the first part of those of the frame. */
  lemma RawUpTo(htf: seq<Bar>, h: nat)
    requires h < |htf|
    ensures RawOf(PricesOf(htf[..h + 1]), h + 1) == FirstPart(RawOf(PricesOf(htf), |htf|), h)
  {
    hide RawOf, PricesOf;
    PricesUpTo(htf, h);
    RawOfPrefix(PricesOf(htf), h);
  }

  lemma DiOfPrefix(htf: seq<Bar>, h: nat)
    requires h < |htf|
    ensures SeriesPlusDi(RawOf(PricesOf(htf), |htf|), PERIOD, h) == PlusDiOf(htf[..h + 1])
    ensures SeriesMinusDi(RawOf(PricesOf(htf), |htf|), PERIOD, h) == MinusDiOf(htf[..h + 1])
  {
    hide RawOf, PricesOf, PlusDiAt, MinusDiAt;
    if h > PERIOD {
      RawUpTo(htf, h);
      PartAgrees(RawOf(PricesOf(htf), |htf|), PERIOD, h, h - 1);
    }
  }

  lemma AdxOfPrefix(htf: seq<Bar>, h: nat)
    requires h < |htf| && LongEnough(htf)
    ensures SeriesAdx(RawOf(PricesOf(htf), |htf|), PERIOD, h) == AdxOf(htf[..h + 1])
  {
    hide RawOf, PricesOf, SeriesAdx, FirstPart, AdxOf, Dmi.TrueRange, PlusDm, MinusDm;
    if h < 2 * PERIOD + 1 {
      NoEarlyAdx(RawOf(PricesOf(htf), |htf|), h);
      EarlyAdx(htf[..h + 1]);
    } else {
      RawUpTo(htf, h);
      AdxOfPart(RawOf(PricesOf(htf), |htf|), PERIOD, h);
      LateAdx(htf[..h + 1], h);
    }
  }

  lemma LateAdx(bars: seq<Bar>, h: nat)
    requires |bars| == h + 1 > 2 * PERIOD
    ensures AdxOf(bars) == SeriesAdx(RawOf(PricesOf(bars), h + 1), PERIOD, h)
  {
    hide RawOf, PricesOf, SeriesAdx;
  }

  /** The columns that the lookups read are what `_precompute_dmi_series` fills. */
  lemma ColumnsAreDmiSeries(htf: seq<Bar>)
    ensures IsDmiSeries(ColumnOf(Guarded(LongEnough(htf), PlusDiOf), htf),
                        ColumnOf(Guarded(LongEnough(htf), MinusDiOf), htf),
                        ColumnOf(AdxOf, htf), PricesOf(htf), PERIOD)
  {
    hide RawOf, PricesOf, SeriesPlusDi, SeriesMinusDi, SeriesAdx, PlusDiOf, MinusDiOf;
    forall h | 0 <= h < |htf|
      ensures
        var r := RawOf(PricesOf(htf), |htf|);
        && (LongEnough(htf) ==> SeriesAdx(r, PERIOD, h) == AdxOf(htf[..h + 1]))
        && (!LongEnough(htf) ==> AdxOf(htf[..h + 1]) == None)
        && SeriesPlusDi(r, PERIOD, h) == PlusDiOf(htf[..h + 1])
        && SeriesMinusDi(r, PERIOD, h) == MinusDiOf(htf[..h + 1])
    {
      DiOfPrefix(htf, h);
      if LongEnough(htf) {
        AdxOfPrefix(htf, h);
      }
    }
  }

  // ------------------------------------------------------------ the loops that fill them

  /** `_precompute_rsi_list` and `_precompute_rsi_series`. */
  method PrecomputeRsi(bars: seq<Bar>) returns (column: seq<Option<real>>)
    ensures column == ColumnOf(RsiOf, bars)
  {
    hide Rsi.Reading;
    column := [];
    for i := 0 to |bars|
      invariant |column| == i && forall j :: 0 <= j < i ==> column[j] == RsiOf(bars[..j + 1])
    {
      var rsi := Rsi.CalculateRsi(Rsi.Recent(ClosesOf(bars[..i + 1])), PERIOD);
      column := column + [rsi];
    }
  }

  /** `_precompute_atr`: the sum over the last ranges is taken anew on each bar. */
  method PrecomputeAtr(bars: seq<Bar>) returns (list: seq<Option<real>>)
    ensures |list| == |bars| && forall i :: 0 <= i < |bars| ==> list[i] == ListAtr(bars, PERIOD, i)
  {
    hide Market.TrueRange;
    list := [];
    for i := 0 to |bars|
      invariant |list| == i && forall j :: 0 <= j < i ==> list[j] == ListAtr(bars, PERIOD, j)
    {
      if i < PERIOD {
        list := list + [None];
        continue;
      }
      var sum := 0.0;
      for j := i + 1 - PERIOD to i + 1
        invariant sum == RangesOf(bars, i + 1 - PERIOD, j)
      {
        sum := sum + Market.TrueRange(bars, j);
      }
      list := list + [Some(sum / PERIOD as real)];
    }
  }

  lemma DmiSeriesIsUnique(a: seq<Option<real>>, b: seq<Option<real>>, c: seq<Option<real>>,
                          x: seq<Option<real>>, y: seq<Option<real>>, z: seq<Option<real>>, p: Prices)
    requires Aligned(p) && IsDmiSeries(a, b, c, p, PERIOD) && IsDmiSeries(x, y, z, p, PERIOD)
    ensures a == x && b == y && c == z
  {
    hide RawOf, SeriesPlusDi, SeriesMinusDi, SeriesAdx;
    assert forall k :: 0 <= k < |p.highs| ==> a[k] == x[k] && b[k] == y[k] && c[k] == z[k];
  }

  method PrecomputeDmi(htf: seq<Bar>)
    returns (plusDi: seq<Option<real>>, minusDi: seq<Option<real>>, adx: seq<Option<real>>)
    ensures plusDi == ColumnOf(Guarded(LongEnough(htf), PlusDiOf), htf)
    ensures minusDi == ColumnOf(Guarded(LongEnough(htf), MinusDiOf), htf)
    ensures adx == ColumnOf(AdxOf, htf)
  {
    hide IsDmiSeries, PlusDiOf, MinusDiOf, AdxOf;
    plusDi, minusDi, adx := PrecomputeDmiSeries(PricesOf(htf), PERIOD);
    ColumnsAreDmiSeries(htf);
    DmiSeriesIsUnique(plusDi, minusDi, adx,
                      ColumnOf(Guarded(LongEnough(htf), PlusDiOf), htf),
                      ColumnOf(Guarded(LongEnough(htf), MinusDiOf), htf), ColumnOf(AdxOf, htf), PricesOf(htf));
  }

  /** One column read as of every trading bar. */
  method ReadAsOf(f: Indicator, column: seq<Option<real>>, bars: seq<Bar>, period: posint)
    returns (list: seq<Option<real>>)
    requires column == ColumnOf(f, Resample(bars, period, |bars|))
    ensures |list| == |bars| && forall i :: 0 <= i < |bars| ==> list[i] == Lookup(f, bars, period, i)
  {
    hide Begun, LastKnown;
    list := [];
    for i := 0 to |bars|
      invariant |list| == i && forall j :: 0 <= j < i ==> list[j] == Lookup(f, bars, period, j)
    {
      list := list + [AsOf(column, Resample(bars, period, |bars|), bars[i].ts)];
    }
  }

  /** `build_pair_cache`, with the lookups of `run_config` made on every bar. */
  method BuildPairCache(bars: seq<Bar>) returns (x: Indicators)
    ensures x == Prepare(bars)
  {
    hide Lookup, ListAtr, RsiOf, PlusDiOf, MinusDiOf, AdxOf;
    var half, hours := Resample(bars, HALF_HOUR, |bars|), Resample(bars, HOUR, |bars|);
    var long := LongEnough(hours);
    var atr := PrecomputeAtr(bars);
    var rsi15 := PrecomputeRsi(bars);
    var rsi30 := PrecomputeRsi(half);
    var rsi1h := PrecomputeRsi(hours);
    var plusDi, minusDi, adx := PrecomputeDmi(hours);
    var r30 := ReadAsOf(RsiOf, rsi30, bars, HALF_HOUR);
    var r1h := ReadAsOf(RsiOf, rsi1h, bars, HOUR);
    var a := ReadAsOf(AdxOf, adx, bars, HOUR);
    var p := ReadAsOf(Guarded(long, PlusDiOf), plusDi, bars, HOUR);
    var m := ReadAsOf(Guarded(long, MinusDiOf), minusDi, bars, HOUR);
    var hour := seq(|bars|, i requires 0 <= i < |bars| => bars[i].ts / 3600 % 24);
    x := Indicators(bars, atr, rsi15, r30, r1h, a, p, m, hour);
    assert x == Prepare(bars);
  }
}
