/** Bars and the Wilder average true range. */
module Market {
  import opened Wrappers
  import opened Seqs
  import opened Wilder

  datatype Direction = Long | Short

  datatype Bar = Bar(ts: int, open: real, high: real, low: real, close: real)

  predicate ValidBar(b: Bar)
  {
    b.low <= b.open <= b.high && b.low <= b.close <= b.high
  }

  ghost predicate ValidBars(bars: seq<Bar>)
  {
    forall i :: 0 <= i < |bars| ==> ValidBar(bars[i])
  }

  /** The bar's extreme against a direction. */
  function Tip(side: Direction, bar: Bar): real
  {
    if side == Long then bar.low else bar.high
  }

  /** Strictly increasing timestamps. */
  ghost predicate Chronological(bars: seq<Bar>)
  {
    forall i, j :: 0 <= i < j < |bars| ==> bars[i].ts < bars[j].ts
  }

  /** The two series coincide on their first `k` bars. */
  ghost predicate SameStart(a: seq<Bar>, b: seq<Bar>, k: nat)
  {
    k <= |a| && k <= |b| && a[..k] == b[..k]
  }

  lemma SameStartAt(a: seq<Bar>, b: seq<Bar>, k: nat, i: nat)
    requires SameStart(a, b, k) && i < k
    ensures a[i] == b[i]
  {
    assert a[i] == a[..k][i];
    assert b[i] == b[..k][i];
  }

  function ClosesOf(bars: seq<Bar>): (r: seq<real>)
    ensures |r| == |bars| && forall i :: 0 <= i < |r| ==> r[i] == bars[i].close
  {
    seq(|bars|, i requires 0 <= i < |bars| => bars[i].close)
  }

  /** Highest high of bars lo..hi. */
  function MaxHigh(bars: seq<Bar>, lo: nat, hi: nat): real
    requires lo < hi <= |bars|
  {
    if hi == lo + 1 then bars[lo].high else Max(MaxHigh(bars, lo, hi - 1), bars[hi - 1].high)
  }

  function MinLow(bars: seq<Bar>, lo: nat, hi: nat): real
    requires lo < hi <= |bars|
  {
    if hi == lo + 1 then bars[lo].low else Min(MinLow(bars, lo, hi - 1), bars[hi - 1].low)
  }

  lemma {:induction false} MaxHighBounds(bars: seq<Bar>, lo: nat, hi: nat, i: nat)
    requires lo <= i < hi <= |bars|
    ensures bars[i].high <= MaxHigh(bars, lo, hi)
  {
    if i < hi - 1 {
      MaxHighBounds(bars, lo, hi - 1, i);
    }
  }

  lemma {:induction false} MinLowBounds(bars: seq<Bar>, lo: nat, hi: nat, i: nat)
    requires lo <= i < hi <= |bars|
    ensures MinLow(bars, lo, hi) <= bars[i].low
  {
    if i < hi - 1 {
      MinLowBounds(bars, lo, hi - 1, i);
    }
  }

  lemma {:induction false} ExtremesSameStart(a: seq<Bar>, b: seq<Bar>, k: nat, lo: nat, hi: nat)
    requires SameStart(a, b, k) && lo < hi <= k
    ensures MaxHigh(a, lo, hi) == MaxHigh(b, lo, hi) && MinLow(a, lo, hi) == MinLow(b, lo, hi)
  {
    SameStartAt(a, b, k, hi - 1);
    if hi > lo + 1 {
      ExtremesSameStart(a, b, k, lo, hi - 1);
    }
  }

  /** The true range of a bar after a close. */
  function RangeFrom(high: real, low: real, previousClose: real): real
  {
    Max(high - low, Max(Abs(high - previousClose), Abs(low - previousClose)))
  }

  /** True range; the first bar has no previous close. */
  function TrueRange(bars: seq<Bar>, i: nat): real
    requires i < |bars|
  {
    if i == 0 then bars[i].high - bars[i].low else RangeFrom(bars[i].high, bars[i].low, bars[i - 1].close)
  }

  function RangeSum(bars: seq<Bar>, n: nat): real
    requires n <= |bars|
  {
    if n == 0 then 0.0 else RangeSum(bars, n - 1) + TrueRange(bars, n - 1)
  }

  /** Wilder ATR at bar `i`: undefined (NaN) before `period` bars are complete. */
  function WilderAtr(bars: seq<Bar>, period: posint, i: nat): Option<real>
    requires i < |bars|
  {
    if i < period - 1 then None
    else if i == period - 1 then Some(RangeSum(bars, period) / period as real)
    else
      Some(WilderNext(WilderAtr(bars, period, i - 1).value, TrueRange(bars, i), period))
  }

  lemma TrueRangeSameStart(a: seq<Bar>, b: seq<Bar>, k: nat, i: nat)
    requires SameStart(a, b, k) && i < k
    ensures TrueRange(a, i) == TrueRange(b, i)
  {
    SameStartAt(a, b, k, i);
    if i > 0 {
      SameStartAt(a, b, k, i - 1);
    }
  }

  lemma {:induction false} RangeSumSameStart(a: seq<Bar>, b: seq<Bar>, k: nat, n: nat)
    requires SameStart(a, b, k) && n <= k
    ensures RangeSum(a, n) == RangeSum(b, n)
  {
    if n > 0 {
      RangeSumSameStart(a, b, k, n - 1);
      TrueRangeSameStart(a, b, k, n - 1);
    }
  }

  /** The ATR at a bar reads no later bar. */
  lemma {:induction false} WilderAtrSameStart(a: seq<Bar>, b: seq<Bar>, k: nat, period: posint, i: nat)
    requires SameStart(a, b, k) && i < k
    ensures WilderAtr(a, period, i) == WilderAtr(b, period, i)
  {
    if i == period - 1 {
      RangeSumSameStart(a, b, k, period);
    } else if i >= period {
      WilderAtrSameStart(a, b, k, period, i - 1);
      TrueRangeSameStart(a, b, k, i);
    }
  }
}
