/** Reading a higher-timeframe column as of a trading bar (scripts/run_donchian_backtest.py). A
    resampled bar is labelled by its start, so the lookup takes the bar that is still being built. */
module AsOfLookup {
  import opened Wrappers
  import opened Market
  import opened Htf

  /** The value that a list of bars gives its last bar. */
  type Indicator = seq<Bar> -> Option<real>

  function ColumnOf(f: Indicator, htf: seq<Bar>): (column: seq<Option<real>>)
    ensures |column| == |htf| && forall h :: 0 <= h < |htf| ==> column[h] == f(htf[..h + 1])
  {
    seq(|htf|, h requires 0 <= h < |htf| => f(htf[..h + 1]))
  }

  function LastKnown(column: seq<Option<real>>): Option<real>
  {
    if column == [] then None
    else if column[|column| - 1].Some? then column[|column| - 1]
    else LastKnown(column[..|column| - 1])
  }

  /** How many bars begin at or before `t`. */
  function Begun(htf: seq<Bar>, t: int): (n: nat)
    ensures n <= |htf|
  {
    FirstAtOrAfter(htf, t + 1, |htf|)
  }

  /** `Series.asof`: the last value at or before `t` that is not missing. */
  function AsOf(column: seq<Option<real>>, htf: seq<Bar>, t: int): Option<real>
    requires |column| == |htf|
  {
    LastKnown(column[..Begun(htf, t)])
  }

  /** What trading bar `i` reads of an indicator on the bars of a longer period. */
  function Lookup(f: Indicator, bars: seq<Bar>, period: posint, i: nat): Option<real>
    requires i < |bars|
  {
    var htf := Resample(bars, period, |bars|);
    AsOf(ColumnOf(f, htf), htf, bars[i].ts)
  }

  /** The value at bar `h` of a frame. */
  function ValueAt(f: Indicator, htf: seq<Bar>, h: nat): Option<real>
    requires h < |htf|
  {
    f(htf[..h + 1])
  }

  /** The value of the latest of the first `n` bars that has one. */
  ghost predicate IsLatest(f: Indicator, htf: seq<Bar>, n: nat, value: Option<real>)
    requires n <= |htf|
  {
    if value.None? then forall h :: 0 <= h < n ==> ValueAt(f, htf, h).None?
    else exists h :: 0 <= h < n && ValueAt(f, htf, h) == value && forall g :: h < g < n ==> ValueAt(f, htf, g).None?
  }

  lemma {:induction false} LastKnownIsLatest(f: Indicator, htf: seq<Bar>, n: nat)
    requires n <= |htf|
    ensures IsLatest(f, htf, n, LastKnown(ColumnOf(f, htf)[..n]))
  {
    if n > 0 {
      hide ColumnOf;
      LastKnownIsLatest(f, htf, n - 1);
      var column := ColumnOf(f, htf);
      assert column[..n][..n - 1] == column[..n - 1] && column[..n][n - 1] == ValueAt(f, htf, n - 1);
    }
  }

  /** A lookup reads the latest value of the longer bars that have begun by the trading bar's time,
      each over the bars up to it, the one in progress included. */
  lemma LookupExactly(f: Indicator, bars: seq<Bar>, period: posint, i: nat) returns (n: nat)
    requires Chronological(bars) && i < |bars|
    ensures
      var htf := Resample(bars, period, |bars|);
      && n <= |htf| && (forall h :: 0 <= h < |htf| ==> (h < n <==> htf[h].ts <= bars[i].ts))
      && IsLatest(f, htf, n, Lookup(f, bars, period, i))
  {
    hide Resample, FirstAtOrAfter, LastKnown, IsLatest, ColumnOf;
    var htf := Resample(bars, period, |bars|);
    ResampleChronological(bars, period, |bars|);
    n := Begun(htf, bars[i].ts);
    LastKnownIsLatest(f, htf, n);
  }

  // ------------------------------------------------------------ which bars a lookup sees

  /** Bar `i` sees all resampled bars that its own bar has a part in, the newest one included. */
  lemma BegunIsBuilt(bars: seq<Bar>, period: posint, i: nat)
    requires Chronological(bars) && i < |bars|
    ensures Begun(Resample(bars, period, |bars|), bars[i].ts) == |Resample(bars, period, i + 1)|
    ensures Resample(bars, period, |bars|)[|Resample(bars, period, i + 1)| - 1].ts == Bucket(bars[i].ts, period)
  {
    hide Resample, Bucket;
    NextBucketIsLater(bars, period, i);
    ResampleChronological(bars, period, |bars|);
    BucketSpan(bars[i].ts, period);
  }

  /** The bucket of bar k - 1 has ended when bar `n` comes. */
  predicate Over(bars: seq<Bar>, period: posint, k: nat, n: nat)
  {
    k <= n <= |bars| && (0 < k && n < |bars| ==> Bucket(bars[k - 1].ts, period) != Bucket(bars[n].ts, period))
  }

  /** Then the resampled bars that the first `k` bars have a part in are those of the first `n`. */
  lemma BuiltByThen(bars: seq<Bar>, period: posint, k: nat, n: nat)
    requires Chronological(bars) && Over(bars, period, k, n)
    ensures
      var m := |Resample(bars, period, k)|;
      && m <= |Resample(bars, period, n)| && m <= |Resample(bars, period, |bars|)|
      && Resample(bars, period, |bars|)[..m] == Resample(bars, period, n)[..m]
  {
    hide Resample, Bucket;
    var m := |Resample(bars, period, k)|;
    if k == 0 {
      NothingBuilt(bars, period);
    } else {
      ResampleGrows(bars, period, k, n);
      ResampleGrows(bars, period, k, |bars|);
      if n < |bars| {
        BegunIsBuilt(bars, period, k - 1);
        LaterBucket(bars[k - 1].ts, bars[n].ts, period);
        FinalBeforeUse(bars, period, m - 1, n);
      }
    }
  }

  lemma NothingBuilt(bars: seq<Bar>, period: posint)
    ensures Resample(bars, period, 0) == []
  {
  }

  lemma LaterBucket(s: int, t: int, period: posint)
    requires s <= t && Bucket(s, period) != Bucket(t, period)
    ensures Bucket(s, period) + period <= t
  {
    BucketSpan(s, period);
    if t < Bucket(s, period) + period {
      var p, q := s / period, t / period;
      BucketMonotone(s, t, period);
      BucketSpan(t, period);
      if p + 1 <= q {
        Scale(p + 1, q, period);
      } else if q + 1 <= p {
        Scale(q + 1, p, period);
      }
    }
  }

  /** Series that agree until the bucket of bar k - 1 is over build the same bars up to it. */
  lemma BuiltAlike(a: seq<Bar>, b: seq<Bar>, period: posint, k: nat, n: nat, i: nat)
    requires Chronological(a) && Chronological(b) && SameStart(a, b, n)
    requires Over(a, period, k, n) && Over(b, period, k, n) && i < k
    ensures
      var x, y := Resample(a, period, |a|), Resample(b, period, |b|);
      && Begun(x, a[i].ts) == Begun(y, b[i].ts) == |Resample(a, period, i + 1)|
      && x[..Begun(x, a[i].ts)] == y[..Begun(x, a[i].ts)]
  {
    hide Resample, Bucket, Begun;
    SameStartAt(a, b, n, i);
    var m := |Resample(a, period, k)|;
    BegunIsBuilt(a, period, i);
    BegunIsBuilt(b, period, i);
    BuiltByThen(a, period, k, n);
    BuiltByThen(b, period, k, n);
    ResampleSameStart(a, b, period, n, i + 1);
    ResampleSameStart(a, b, period, n, k);
    ResampleSameStart(a, b, period, n, n);
    ResampleGrows(a, period, i + 1, k);
    PrefixShorter(Resample(a, period, |a|), Resample(b, period, |b|), m, |Resample(a, period, i + 1)|);
  }

  lemma ColumnsAlike(f: Indicator, x: seq<Bar>, y: seq<Bar>, m: nat)
    requires m <= |x| && m <= |y| && x[..m] == y[..m]
    ensures ColumnOf(f, x)[..m] == ColumnOf(f, y)[..m]
  {
    forall h | 0 <= h < m ensures ColumnOf(f, x)[h] == ColumnOf(f, y)[h] {
      assert x[..h + 1] == x[..m][..h + 1];
      assert y[..h + 1] == y[..m][..h + 1];
    }
  }

  /** Series that agree until the bucket of bar k - 1 is over give the first `k` bars the same
      readings, of every indicator. */
  lemma LookupsAgree(f: Indicator, a: seq<Bar>, b: seq<Bar>, period: posint, k: nat, n: nat, i: nat)
    requires Chronological(a) && Chronological(b) && SameStart(a, b, n)
    requires Over(a, period, k, n) && Over(b, period, k, n) && i < k
    ensures Lookup(f, a, period, i) == Lookup(f, b, period, i)
  {
    hide Resample, Bucket, Begun, ColumnOf;
    var x, y := Resample(a, period, |a|), Resample(b, period, |b|);
    BuiltAlike(a, b, period, k, n, i);
    ColumnsAlike(f, x, y, Begun(x, a[i].ts));
  }

  /** Bar `j` is the last of the first `k` bars in its bucket. */
  predicate EndsBucket(bars: seq<Bar>, period: posint, k: nat, j: nat)
    requires k <= |bars|
  {
    j < k && (j + 1 < k ==> Bucket(bars[j + 1].ts, period) != Bucket(bars[j].ts, period))
  }

  /** A resampled bar closes where the last bar of its bucket does. */
  lemma {:induction false} ClosesOfLastBar(bars: seq<Bar>, period: posint, k: nat, h: nat) returns (j: nat)
    requires Chronological(bars) && k <= |bars| && h < |Resample(bars, period, k)|
    ensures EndsBucket(bars, period, k, j) && Resample(bars, period, k)[h].ts == Bucket(bars[j].ts, period)
    ensures Resample(bars, period, k)[h].close == bars[j].close
  {
    hide Bucket, Resample;
    var r := Resample(bars, period, k);
    if h == |r| - 1 {
      j := k - 1;
      NewestClose(bars, period, k);
    } else {
      ResampleStep(bars, period, k - 1);
      assert r[h] == r[..|r| - 1][h];
      j := ClosesOfLastBar(bars, period, k - 1, h);
      ResampleChronological(bars, period, k);
      assert r[h].ts < r[|r| - 1].ts;
      NewestClose(bars, period, k);
    }
  }

  lemma NewestClose(bars: seq<Bar>, period: posint, k: nat)
    requires 0 < k <= |bars|
    ensures
      var r := Resample(bars, period, k);
      |r| > 0 && r[|r| - 1].close == bars[k - 1].close && r[|r| - 1].ts == Bucket(bars[k - 1].ts, period)
  {
    hide Bucket;
  }

  // ------------------------------------------------------------ when agreement on k bars is enough

  /** Another series with the same first `k` bars, whose bar `k` comes at the same time. */
  ghost predicate Rival(a: seq<Bar>, b: seq<Bar>, k: nat)
  {
    && Chronological(b) && ValidBars(b) && SameStart(a, b, k)
    && k < |a| && k < |b| && b[k].ts == a[k].ts
  }

  /** The first `k` bars settle what they read themselves. */
  ghost predicate LookupsSettled(a: seq<Bar>, period: posint, k: nat)
  {
    forall f: Indicator, b: seq<Bar>, i: nat :: Rival(a, b, k) && i < k ==>
      Lookup(f, a, period, i) == Lookup(f, b, period, i)
  }

  function LastClose(htf: seq<Bar>): Option<real>
  {
    if htf == [] then None else Some(htf[|htf| - 1].close)
  }

  /** `a` up to bar `k`, which stands still at one price. */
  function EndingAt(a: seq<Bar>, k: nat, price: real): seq<Bar>
    requires k < |a|
  {
    a[..k] + [Bar(a[k].ts, price, price, price, price)]
  }

  lemma EndingIsRival(a: seq<Bar>, k: nat, price: real)
    requires Chronological(a) && ValidBars(a) && k < |a|
    ensures Rival(a, EndingAt(a, k, price), k)
  {
  }

  /** While the bucket goes on, its resampled bar takes the close of bar `k`. */
  lemma TakesNextClose(a: seq<Bar>, period: posint, k: nat, price: real)
    requires 0 < k < |a| && Bucket(a[k - 1].ts, period) == Bucket(a[k].ts, period)
    ensures
      var full := Resample(EndingAt(a, k, price), period, k + 1);
      |full| == |Resample(EndingAt(a, k, price), period, k)| > 0 && full[|full| - 1].close == price
  {
    hide Bucket;
    var b := EndingAt(a, k, price);
    assert b[k - 1] == a[k - 1];
    assert Resample(b, period, k + 1) == TakeIn(Resample(b, period, k), b[k], Bucket(b[k].ts, period));
  }

  lemma LastOfColumn(htf: seq<Bar>)
    requires |htf| > 0
    ensures LastKnown(ColumnOf(LastClose, htf)[..|htf|]) == Some(htf[|htf| - 1].close)
  {
    var column := ColumnOf(LastClose, htf);
    assert column[..|htf|] == column && htf[..|htf|] == htf;
    assert column[|htf| - 1] == LastClose(htf);
  }

  /** So bar k - 1 reads the close of bar `k`. */
  lemma ReadsNextClose(a: seq<Bar>, period: posint, k: nat, price: real)
    requires Chronological(a) && ValidBars(a) && 0 < k < |a|
    requires Bucket(a[k - 1].ts, period) == Bucket(a[k].ts, period)
    ensures Lookup(LastClose, EndingAt(a, k, price), period, k - 1) == Some(price)
  {
    hide Bucket, Begun, Resample, ColumnOf, LastKnown;
    var b := EndingAt(a, k, price);
    EndingIsRival(a, k, price);
    TakesNextClose(a, period, k, price);
    BegunIsBuilt(b, period, k - 1);
    LastOfColumn(Resample(b, period, k + 1));
  }

  /** Agreement on `k` bars settles every reading of the first `k` bars, whatever the indicator,
      exactly when bar `k` opens a new bucket. */
  lemma LookupsSettledExactly(a: seq<Bar>, period: posint, k: nat)
    requires Chronological(a) && ValidBars(a) && 0 < k < |a|
    ensures LookupsSettled(a, period, k) <==> Bucket(a[k - 1].ts, period) != Bucket(a[k].ts, period)
  {
    hide Lookup, Bucket;
    if Bucket(a[k - 1].ts, period) != Bucket(a[k].ts, period) {
      forall f: Indicator, b: seq<Bar>, i: nat | Rival(a, b, k) && i < k
        ensures Lookup(f, a, period, i) == Lookup(f, b, period, i)
      {
        SameStartAt(a, b, k, k - 1);
        LookupsAgree(f, a, b, period, k, k, i);
      }
    } else {
      var low, high := EndingAt(a, k, 0.0), EndingAt(a, k, 1.0);
      EndingIsRival(a, k, 0.0);
      EndingIsRival(a, k, 1.0);
      ReadsNextClose(a, period, k, 0.0);
      ReadsNextClose(a, period, k, 1.0);
      assert Lookup(LastClose, low, period, k - 1) != Lookup(LastClose, high, period, k - 1);
    }
  }
}
