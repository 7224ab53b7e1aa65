/** Directional movement and ADX: the batch form (src/indicators/adx.py) and the one-pass
    series (scripts/run_donchian_backtest.py). */
module Dmi {
  import opened Wrappers
  import opened Seqs
  import opened Wilder
  import Market

  /** Price lists of one length, as the columns of a frame. */
  datatype Prices = Prices(highs: seq<real>, lows: seq<real>, closes: seq<real>)

  predicate Aligned(p: Prices)
  {
    |p.highs| == |p.lows| == |p.closes|
  }

  function PlusDm(p: Prices, i: nat): real
    requires Aligned(p) && i + 1 < |p.highs|
  {
    var up, down := p.highs[i + 1] - p.highs[i], p.lows[i] - p.lows[i + 1];
    if up > down then Max(up, 0.0) else 0.0
  }

  function MinusDm(p: Prices, i: nat): real
    requires Aligned(p) && i + 1 < |p.highs|
  {
    var up, down := p.highs[i + 1] - p.highs[i], p.lows[i] - p.lows[i + 1];
    if down > up then Max(down, 0.0) else 0.0
  }

  function TrueRange(p: Prices, i: nat): real
    requires Aligned(p) && i + 1 < |p.highs|
  {
    Market.RangeFrom(p.highs[i + 1], p.lows[i + 1], p.closes[i])
  }

  /** The three raw lists; entry `i` belongs to bar `i + 1`. */
  datatype Raw = Raw(tr: seq<real>, plus: seq<real>, minus: seq<real>)

  predicate SameLength(r: Raw)
  {
    |r.tr| == |r.plus| == |r.minus|
  }

  function RawOf(p: Prices, n: nat): (r: Raw)
    requires Aligned(p) && n <= |p.highs|
    ensures SameLength(r) && |r.tr| == if n == 0 then 0 else n - 1
    ensures forall i :: 0 <= i < |r.tr| ==>
      r.tr[i] == TrueRange(p, i) && r.plus[i] == PlusDm(p, i) && r.minus[i] == MinusDm(p, i)
  {
    if n <= 1 then Raw([], [], [])
    else
      var r := RawOf(p, n - 1);
      Raw(r.tr + [TrueRange(p, n - 2)], r.plus + [PlusDm(p, n - 2)], r.minus + [MinusDm(p, n - 2)])
  }

  /** One Wilder smoothing step. */
  function Decay(s: real, period: posint, x: real): real
  {
    s - s / period as real + x
  }

  /** Wilder smoothing at list index `i`. The entry at index `period` itself is never added. */
  function Smooth(x: seq<real>, period: posint, i: nat): real
    requires period <= i < |x|
  {
    if i == period then Sum(x[..period]) else Decay(Smooth(x, period, i - 1), period, x[i])
  }

  function Di(part: real, whole: real): real
    requires whole != 0.0
  {
    100.0 * part / whole
  }

  function Dx(pdi: real, mdi: real): real
  {
    if pdi + mdi == 0.0 then 0.0 else 100.0 * Abs(pdi - mdi) / (pdi + mdi)
  }

  function PlusDiAt(r: Raw, period: posint, i: nat): real
    requires SameLength(r) && period <= i < |r.tr|
  {
    if Smooth(r.tr, period, i) == 0.0 then 0.0 else Di(Smooth(r.plus, period, i), Smooth(r.tr, period, i))
  }

  function MinusDiAt(r: Raw, period: posint, i: nat): real
    requires SameLength(r) && period <= i < |r.tr|
  {
    if Smooth(r.tr, period, i) == 0.0 then 0.0 else Di(Smooth(r.minus, period, i), Smooth(r.tr, period, i))
  }

  function DxAt(r: Raw, period: posint, i: nat): real
    requires SameLength(r) && period <= i < |r.tr|
  {
    Dx(PlusDiAt(r, period, i), MinusDiAt(r, period, i))
  }

  /** The series' DX list: one value for every index from `period` up to `n`. */
  function DxSeries(r: Raw, period: posint, n: nat): (dx: seq<real>)
    requires SameLength(r) && period <= n <= |r.tr|
    ensures |dx| == n - period
    ensures forall j :: 0 <= j < |dx| ==> dx[j] == DxAt(r, period, period + j)
  {
    if n == period then [] else DxSeries(r, period, n - 1) + [DxAt(r, period, n - 1)]
  }

  /** The batch form's DX list: indices whose smoothed range is zero are skipped. */
  function DxBatch(r: Raw, period: posint, n: nat): seq<real>
    requires SameLength(r) && period <= n <= |r.tr|
  {
    if n == period then []
    else if Smooth(r.tr, period, n - 1) == 0.0 then DxBatch(r, period, n - 1)
    else DxBatch(r, period, n - 1) + [DxAt(r, period, n - 1)]
  }

  /** The last DI pair at a nonzero smoothed range, or zeros. */
  function LastDi(r: Raw, period: posint, n: nat): (real, real)
    requires SameLength(r) && period <= n <= |r.tr|
  {
    if n == period then (0.0, 0.0)
    else if Smooth(r.tr, period, n - 1) == 0.0 then LastDi(r, period, n - 1)
    else (PlusDiAt(r, period, n - 1), MinusDiAt(r, period, n - 1))
  }

  datatype Reading = Reading(adx: real, plusDi: real, minusDi: real)

  /** What the batch form returns for raw lists of a full frame. */
  function BatchReading(r: Raw, period: posint): Option<Reading>
    requires SameLength(r) && period <= |r.tr|
  {
    var dx := DxBatch(r, period, |r.tr|);
    if |dx| < period then None
    else
      var (p, m) := LastDi(r, period, |r.tr|);
      Some(Reading(WilderMean(dx, period, |dx| - 1), p, m))
  }

  /** `calculate_adx_full` on a list of bars. */
  function AdxFull(p: Prices, period: posint): Option<Reading>
  {
    if |p.highs| < 2 * period + 1 || !Aligned(p) then None
    else BatchReading(RawOf(p, |p.highs|), period)
  }

  /** The shared first loop: the raw lists. */
  method BuildRaw(p: Prices) returns (r: Raw)
    requires Aligned(p)
    ensures r == RawOf(p, |p.highs|)
  {
    r := Raw([], [], []);
    var i := 1;
    while i < |p.highs|
      invariant 1 <= i && (i <= |p.highs| || |p.highs| == 0)
      invariant |p.highs| > 0 ==> r == RawOf(p, i)
      invariant |p.highs| == 0 ==> r == Raw([], [], [])
    {
      r := Raw(r.tr + [TrueRange(p, i - 1)], r.plus + [PlusDm(p, i - 1)], r.minus + [MinusDm(p, i - 1)]);
      i := i + 1;
    }
  }

  /** The running ADX over a DX list. */
  method RunAdx(dx: seq<real>, period: posint) returns (adx: real)
    requires period <= |dx|
    ensures adx == WilderMean(dx, period, |dx| - 1)
  {
    adx := Sum(dx[..period]) / period as real;
    for i := period to |dx|
      invariant adx == WilderMean(dx, period, i - 1)
    {
      adx := WilderNext(adx, dx[i], period);
    }
  }

  /** The batch form's second loop: it skips indices whose smoothed range is zero. */
  method RunBatch(r: Raw, period: posint) returns (dx: seq<real>, plusDi: real, minusDi: real)
    requires SameLength(r) && period <= |r.tr|
    ensures dx == DxBatch(r, period, |r.tr|) && (plusDi, minusDi) == LastDi(r, period, |r.tr|)
  {
    dx, plusDi, minusDi := [], 0.0, 0.0;
    var tr, plus, minus := Sum(r.tr[..period]), Sum(r.plus[..period]), Sum(r.minus[..period]);
    for i := period to |r.tr|
      invariant dx == DxBatch(r, period, i) && (plusDi, minusDi) == LastDi(r, period, i)
      invariant i == period ==>
        tr == Sum(r.tr[..period]) && plus == Sum(r.plus[..period]) && minus == Sum(r.minus[..period])
      invariant i > period ==> SmoothedTo(r, period, i - 1, tr, plus, minus)
    {
      if i > period {
        tr, plus, minus := Decay(tr, period, r.tr[i]), Decay(plus, period, r.plus[i]), Decay(minus, period, r.minus[i]);
      }
      if tr == 0.0 {
        continue;
      }
      plusDi, minusDi := Di(plus, tr), Di(minus, tr);
      dx := dx + [Dx(plusDi, minusDi)];
    }
  }

  predicate SmoothedTo(r: Raw, period: posint, i: nat, tr: real, plus: real, minus: real)
    requires SameLength(r) && period <= i < |r.tr|
  {
    tr == Smooth(r.tr, period, i) && plus == Smooth(r.plus, period, i) && minus == Smooth(r.minus, period, i)
  }

  /** `calculate_adx_full`. */
  method CalculateAdxFull(p: Prices, period: posint) returns (reading: Option<Reading>)
    ensures reading == AdxFull(p, period)
  {
    if |p.highs| < 2 * period + 1 || !Aligned(p) {
      return None;
    }
    var r := BuildRaw(p);
    var dx, plusDi, minusDi := RunBatch(r, period);
    if |dx| < period {
      return None;
    }
    var adx := RunAdx(dx, period);
    return Some(Reading(adx, plusDi, minusDi));
  }

  /** What the series must hold at a bar of a frame that is long enough. */
  function SeriesPlusDi(r: Raw, period: posint, bar: nat): Option<real>
    requires SameLength(r) && bar <= |r.tr|
  {
    if bar <= period then None else Some(PlusDiAt(r, period, bar - 1))
  }

  function SeriesMinusDi(r: Raw, period: posint, bar: nat): Option<real>
    requires SameLength(r) && bar <= |r.tr|
  {
    if bar <= period then None else Some(MinusDiAt(r, period, bar - 1))
  }

  function SeriesAdx(r: Raw, period: posint, bar: nat): Option<real>
    requires SameLength(r) && period <= |r.tr| && bar <= |r.tr|
  {
    if bar < 2 * period + 1 then None
    else Some(WilderMean(DxSeries(r, period, |r.tr|), period, bar - 1 - period))
  }

  /** The series' second loop, which fills the preallocated DI lists. */
  method FillDi(r: Raw, period: posint)
    returns (plusDi: array<Option<real>>, minusDi: array<Option<real>>, dx: seq<real>)
    requires SameLength(r) && period <= |r.tr|
    ensures plusDi.Length == minusDi.Length == |r.tr| + 1
    ensures forall k :: 0 <= k <= |r.tr| ==> plusDi[k] == SeriesPlusDi(r, period, k)
    ensures forall k :: 0 <= k <= |r.tr| ==> minusDi[k] == SeriesMinusDi(r, period, k)
    ensures dx == DxSeries(r, period, |r.tr|)
  {
    plusDi := new Option<real>[|r.tr| + 1](_ => None);
    minusDi := new Option<real>[|r.tr| + 1](_ => None);
    dx := [];
    var tr, plus, minus := Sum(r.tr[..period]), Sum(r.plus[..period]), Sum(r.minus[..period]);
    for i := period to |r.tr|
      invariant forall k :: 0 <= k <= |r.tr| ==> plusDi[k] == if k <= i then SeriesPlusDi(r, period, k) else None
      invariant forall k :: 0 <= k <= |r.tr| ==> minusDi[k] == if k <= i then SeriesMinusDi(r, period, k) else None
      invariant dx == DxSeries(r, period, i)
      invariant i == period ==>
        tr == Sum(r.tr[..period]) && plus == Sum(r.plus[..period]) && minus == Sum(r.minus[..period])
      invariant i > period ==> SmoothedTo(r, period, i - 1, tr, plus, minus)
    {
      if i > period {
        tr, plus, minus := Decay(tr, period, r.tr[i]), Decay(plus, period, r.plus[i]), Decay(minus, period, r.minus[i]);
      }
      assert SmoothedTo(r, period, i, tr, plus, minus);
      var pdi, mdi := 0.0, 0.0;
      if tr != 0.0 {
        pdi, mdi := Di(plus, tr), Di(minus, tr);
      }
      dx := dx + [Dx(pdi, mdi)];
      plusDi[i + 1], minusDi[i + 1] := Some(pdi), Some(mdi);
    }
  }

  /** The series' third loop, which fills the ADX list. */
  method FillAdx(dx: seq<real>, period: posint, n: nat) returns (adxs: array<Option<real>>)
    requires |dx| + period + 1 == n
    ensures adxs.Length == n
    ensures forall k :: 0 <= k < n ==>
      adxs[k] == if k < 2 * period + 1 then None else Some(WilderMean(dx, period, k - 1 - period))
  {
    adxs := new Option<real>[n](_ => None);
    if |dx| >= period {
      var adx := Sum(dx[..period]) / period as real;
      for i := period to |dx|
        invariant adx == WilderMean(dx, period, i - 1)
        invariant forall k :: 0 <= k < n ==>
          adxs[k] == if k < 2 * period + 1 || k > i + period then None else Some(WilderMean(dx, period, k - 1 - period))
      {
        adx := WilderNext(adx, dx[i], period);
        adxs[i + 1 + period] := Some(adx);
      }
    }
  }

  /** The three columns the series form must produce. */
  ghost predicate IsDmiSeries(plusDi: seq<Option<real>>, minusDi: seq<Option<real>>, adx: seq<Option<real>>,
                              p: Prices, period: posint)
    requires Aligned(p)
  {
    var n := |p.highs|;
    && |plusDi| == |minusDi| == |adx| == n
    && forall k :: 0 <= k < n ==>
         if n < 2 * period + 1 then plusDi[k] == minusDi[k] == adx[k] == None
         else
           && plusDi[k] == SeriesPlusDi(RawOf(p, n), period, k)
           && minusDi[k] == SeriesMinusDi(RawOf(p, n), period, k)
           && adx[k] == SeriesAdx(RawOf(p, n), period, k)
  }

  /** `_precompute_dmi_series`. */
  method PrecomputeDmiSeries(p: Prices, period: posint)
    returns (plusDi: seq<Option<real>>, minusDi: seq<Option<real>>, adx: seq<Option<real>>)
    requires Aligned(p)
    ensures IsDmiSeries(plusDi, minusDi, adx, p, period)
  {
    var n := |p.highs|;
    if n < 2 * period + 1 {
      var none := seq(n, _ => None);
      return none, none, none;
    }
    var r := BuildRaw(p);
    var pd, md, dx := FillDi(r, period);
    var ad := FillAdx(dx, period, n);
    return pd[..], md[..], ad[..];
  }
}
