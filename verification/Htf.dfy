/** Structure on a higher timeframe, mapped back to the trading bars
    (scripts/run_smc_backtest.py, scripts/run_htf_fib_backtest.py). */
module Htf {
  import opened Wrappers
  import opened Seqs
  import opened Market
  import opened Structure

  const HALF_HOUR: posint := 1800

  const HOUR: posint := 3600

  const FOUR_HOURS: posint := 14400

  /** Start of the epoch-aligned bucket that holds `ts`. */
  function Bucket(ts: int, period: posint): int
  {
    ts / period * period
  }

  lemma BucketSpan(ts: int, period: posint)
    ensures Bucket(ts, period) <= ts < Bucket(ts, period) + period
  {
    assert ts == period * (ts / period) + ts % period;
  }

  lemma {:induction false} BucketMonotone(s: int, t: int, period: posint)
    requires s <= t
    ensures Bucket(s, period) <= Bucket(t, period)
  {
    var p, q := s / period, t / period;
    assert p <= q by {
      BucketSpan(s, period);
      BucketSpan(t, period);
      if q + 1 <= p {
        Scale(q + 1, p, period);
        assert false;
      }
    }
    Scale(p, q, period);
  }

  lemma Scale(a: int, b: int, n: posint)
    requires a <= b
    ensures a * n <= b * n
  {
  }

  /** The last HTF bar takes one more trading bar in. */
  function Merge(h: Bar, b: Bar): Bar
  {
    Bar(h.ts, h.open, Max(h.high, b.high), Min(h.low, b.low), b.close)
  }

  /** One trading bar, whose bucket begins at `start`, joins the HTF bars built so far. */
  function TakeIn(r: seq<Bar>, b: Bar, start: int): (s: seq<Bar>)
    ensures |r| <= |s| <= |r| + 1 && |s| > 0 && s[|s| - 1].ts == start
  {
    if |r| > 0 && r[|r| - 1].ts == start then r[..|r| - 1] + [Merge(r[|r| - 1], b)]
    else r + [Bar(start, b.open, b.high, b.low, b.close)]
  }

  /** OHLC resampling of the first `k` bars; empty buckets give no bar. */
  function Resample(bars: seq<Bar>, period: posint, k: nat): (r: seq<Bar>)
    requires k <= |bars|
    ensures |r| <= k && (k > 0 ==> |r| > 0 && r[|r| - 1].ts == Bucket(bars[k - 1].ts, period))
  {
    if k == 0 then []
    else
      TakeIn(Resample(bars, period, k - 1), bars[k - 1], Bucket(bars[k - 1].ts, period))
  }

  lemma {:induction false} ResampleChronological(bars: seq<Bar>, period: posint, k: nat)
    requires k <= |bars| && Chronological(bars)
    ensures Chronological(Resample(bars, period, k))
  {
    if k > 1 {
      ResampleChronological(bars, period, k - 1);
      BucketMonotone(bars[k - 2].ts, bars[k - 1].ts, period);
    }
  }

  /** One more trading bar: only the newest HTF bar can change, and its start cannot. */
  lemma ResampleStep(bars: seq<Bar>, period: posint, j: nat)
    requires j < |bars|
    ensures
      var next, now := Resample(bars, period, j + 1), Resample(bars, period, j);
      && 0 < |next| && |now| <= |next| <= |now| + 1
      && next[..|next| - 1] == now[..|next| - 1]
      && (j > 0 ==> next[|now| - 1].ts == now[|now| - 1].ts)
  {
    hide Bucket, TakeIn;
    OnlyNewestChanges(Resample(bars, period, j), bars[j], Bucket(bars[j].ts, period));
  }

  lemma OnlyNewestChanges(r: seq<Bar>, b: Bar, start: int)
    ensures
      var s := TakeIn(r, b, start);
      s[..|s| - 1] == r[..|s| - 1] && (|r| > 0 ==> s[|r| - 1].ts == r[|r| - 1].ts)
  {
  }

  lemma PrefixShorter<T>(s: seq<T>, t: seq<T>, m: nat, n: nat)
    requires n <= m <= |s| && m <= |t| && s[..m] == t[..m]
    ensures s[..n] == t[..n]
  {
    assert s[..n] == s[..m][..n];
    assert t[..n] == t[..m][..n];
  }

  /** Only the newest HTF bar can still change: all earlier ones are final, and its start is. */
  lemma {:induction false} ResampleGrows(bars: seq<Bar>, period: posint, j: nat, k: nat)
    requires 0 < j <= k <= |bars|
    ensures
      var m := |Resample(bars, period, j)|;
      && m <= |Resample(bars, period, k)|
      && Resample(bars, period, k)[..m - 1] == Resample(bars, period, j)[..m - 1]
      && Resample(bars, period, k)[m - 1].ts == Resample(bars, period, j)[m - 1].ts
  {
    hide Resample;
    if j < k {
      ResampleGrows(bars, period, j, k - 1);
      ResampleStep(bars, period, k - 1);
      var m, r, s := |Resample(bars, period, j)|, Resample(bars, period, k - 1), Resample(bars, period, k);
      PrefixShorter(s, r, |s| - 1, m - 1);
      if m < |s| {
        assert s[m - 1] == s[..|s| - 1][m - 1] == r[m - 1];
      }
    }
  }

  lemma {:induction false} ResampleSameStart(a: seq<Bar>, b: seq<Bar>, period: posint, k: nat, j: nat)
    requires SameStart(a, b, k) && j <= k
    ensures Resample(a, period, j) == Resample(b, period, j)
  {
    hide Bucket, TakeIn;
    if j > 0 {
      ResampleSameStart(a, b, period, k, j - 1);
      SameStartAt(a, b, k, j - 1);
    }
  }

  predicate OnGrid(ts: int, period: posint)
  {
    ts == Bucket(ts, period)
  }

  lemma BucketOnGrid(ts: int, period: posint)
    ensures OnGrid(Bucket(ts, period), period)
  {
    var q := ts / period;
    var b := q * period;
    var r := b / period;
    BucketSpan(b, period);
    if r < q {
      Scale(r + 1, q, period);
      assert false;
    } else if q < r {
      Scale(q + 1, r, period);
      assert false;
    }
  }

  lemma GridGap(s: int, t: int, period: posint)
    requires OnGrid(s, period) && OnGrid(t, period) && s < t
    ensures s + period <= t
  {
    var p, q := s / period, t / period;
    if q <= p {
      Scale(q, p, period);
      assert false;
    }
    Scale(p + 1, q, period);
  }

  /** HTF bars begin where buckets do. */
  lemma {:induction false} HtfOnGrid(bars: seq<Bar>, period: posint, k: nat, h: nat)
    requires k <= |bars| && h < |Resample(bars, period, k)|
    ensures OnGrid(Resample(bars, period, k)[h].ts, period)
  {
    hide Bucket, Resample;
    var r := Resample(bars, period, k);
    assert |r| <= k && r[|r| - 1].ts == Bucket(bars[k - 1].ts, period);
    if h == |r| - 1 {
      BucketOnGrid(bars[k - 1].ts, period);
    } else {
      ResampleStep(bars, period, k - 1);
      var now := Resample(bars, period, k - 1);
      HtfOnGrid(bars, period, k - 1, h);
      assert r[h] == r[..|r| - 1][h] == now[..|r| - 1][h] == now[h];
    }
  }

  /** The HTF bar after the one that holds trading bar `i` begins after that bar's time. */
  lemma NextBucketIsLater(bars: seq<Bar>, period: posint, i: nat)
    requires Chronological(bars) && i < |bars|
    ensures
      var full, m := Resample(bars, period, |bars|), |Resample(bars, period, i + 1)|;
      && 0 < m <= |full| && full[m - 1].ts == Bucket(bars[i].ts, period)
      && (m < |full| ==> full[m].ts > bars[i].ts)
  {
    hide Resample;
    var full, m := Resample(bars, period, |bars|), |Resample(bars, period, i + 1)|;
    ResampleGrows(bars, period, i + 1, |bars|);
    if m < |full| {
      ResampleChronological(bars, period, |bars|);
      HtfOnGrid(bars, period, |bars|, m - 1);
      HtfOnGrid(bars, period, |bars|, m);
      GridGap(full[m - 1].ts, full[m].ts, period);
      BucketSpan(bars[i].ts, period);
    }
  }

  /** `bisect_left` on the timestamps of the first `k` bars: the least index at or after `t`. */
  function FirstAtOrAfter(bars: seq<Bar>, t: int, k: nat): (i: nat)
    requires k <= |bars|
    ensures i <= k
    ensures forall j :: 0 <= j < i ==> bars[j].ts < t
    ensures i < k ==> t <= bars[i].ts
  {
    if k == 0 then 0
    else
      var i := FirstAtOrAfter(bars, t, k - 1);
      if i < k - 1 || bars[k - 1].ts >= t then i else k
  }

  /** HTF break `h` is mapped to trading bar `j`: the first one at or after its bar closes. */
  predicate Feeds(htf: seq<Bar>, schedule: map<nat, Break>, ltf: seq<Bar>, period: posint, h: nat, j: nat)
    requires h < |htf|
  {
    h in schedule && j < |ltf| && FirstAtOrAfter(ltf, htf[h].ts + period, |ltf|) == j
  }

  /** The mapped schedule after the first `n` HTF bars; a later break overwrites an earlier
      one that lands on the same trading bar. */
  function MapSchedule(htf: seq<Bar>, schedule: map<nat, Break>, ltf: seq<Bar>, period: posint, n: nat): map<nat, Break>
    requires n <= |htf|
  {
    if n == 0 then map[]
    else
      var m := MapSchedule(htf, schedule, ltf, period, n - 1);
      var j := FirstAtOrAfter(ltf, htf[n - 1].ts + period, |ltf|);
      if n - 1 in schedule && j < |ltf| then m[j := schedule[n - 1].(barIndex := j)] else m
  }

  method MapHtfScheduleToLtf(htf: seq<Bar>, schedule: map<nat, Break>, ltf: seq<Bar>, period: posint)
    returns (mapped: map<nat, Break>)
    ensures mapped == MapSchedule(htf, schedule, ltf, period, |htf|)
  {
    mapped := map[];
    for h := 0 to |htf|
      invariant mapped == MapSchedule(htf, schedule, ltf, period, h)
    {
      if h in schedule {
        var j := FirstAtOrAfter(ltf, htf[h].ts + period, |ltf|);
        if j < |ltf| {
          mapped := mapped[j := schedule[h].(barIndex := j)];
        }
      }
    }
  }

  /** The latest of the first `n` HTF breaks that is mapped to `j`. */
  function Source(htf: seq<Bar>, schedule: map<nat, Break>, ltf: seq<Bar>, period: posint, n: nat, j: nat): Option<nat>
    requires n <= |htf|
  {
    if n == 0 then None
    else if Feeds(htf, schedule, ltf, period, n - 1, j) then Some(n - 1)
    else Source(htf, schedule, ltf, period, n - 1, j)
  }

  lemma {:induction false} SourceFeeds(htf: seq<Bar>, schedule: map<nat, Break>, ltf: seq<Bar>, period: posint,
                                       n: nat, j: nat)
    requires n <= |htf|
    ensures match Source(htf, schedule, ltf, period, n, j)
            case Some(h) => h < n && Feeds(htf, schedule, ltf, period, h, j)
              && (forall g :: h < g < n ==> !Feeds(htf, schedule, ltf, period, g, j))
            case None => forall g :: 0 <= g < n ==> !Feeds(htf, schedule, ltf, period, g, j)
  {
    if n > 0 {
      SourceFeeds(htf, schedule, ltf, period, n - 1, j);
    }
  }

  /** What the mapped schedule holds at a trading bar: the latest break whose bar has its
      first trading bar at or after the close there. */
  lemma {:induction false} MappedEntry(htf: seq<Bar>, schedule: map<nat, Break>, ltf: seq<Bar>, period: posint,
                                       n: nat, j: nat)
    requires n <= |htf|
    ensures
      var m := MapSchedule(htf, schedule, ltf, period, n);
      match Source(htf, schedule, ltf, period, n, j)
      case None => j !in m
      case Some(h) => h in schedule && j in m && m[j] == schedule[h].(barIndex := j)
  {
    if n > 0 {
      MappedEntry(htf, schedule, ltf, period, n - 1, j);
    }
  }

  /** A later HTF break never lands on an earlier trading bar. */
  lemma MappingPreservesOrder(htf: seq<Bar>, schedule: map<nat, Break>, ltf: seq<Bar>, period: posint,
                              g: nat, h: nat, i: nat, j: nat)
    requires Chronological(htf) && g < h < |htf|
    requires Feeds(htf, schedule, ltf, period, g, i) && Feeds(htf, schedule, ltf, period, h, j)
    ensures i <= j
  {
    assert htf[g].ts + period <= htf[h].ts + period <= ltf[j].ts;
  }

  /** The break schedule the walk uses on a higher timeframe. */
  function HtfSchedule(bars: seq<Bar>, size: posint, period: posint): map<nat, Break>
  {
    var htf := Resample(bars, period, |bars|);
    MapSchedule(htf, Schedule(htf, size, |htf|), bars, period, |htf|)
  }

  /** A still-forming bucket never leaks: when HTF bar `h` is used at trading bar `j`, the bars
      strictly before `j` have already built it and all its predecessors in their final form. */
  lemma {:induction false} FinalBeforeUse(bars: seq<Bar>, period: posint, h: nat, j: nat)
    requires Chronological(bars) && j < |bars|
    requires h < |Resample(bars, period, |bars|)|
    requires Resample(bars, period, |bars|)[h].ts + period <= bars[j].ts
    ensures h < |Resample(bars, period, j)|
    ensures Resample(bars, period, |bars|)[..h + 1] == Resample(bars, period, j)[..h + 1]
  {
    hide Resample, Bucket;
    var full, next := Resample(bars, period, |bars|), Resample(bars, period, j + 1);
    var m := |next|;
    ResampleGrows(bars, period, j + 1, |bars|);
    ResampleStep(bars, period, j);
    assert h < m - 1 by {
      ResampleChronological(bars, period, |bars|);
      BucketSpan(bars[j].ts, period);
      assert full[m - 1].ts == Bucket(bars[j].ts, period);
    }
    PrefixShorter(full, next, m - 1, h + 1);
    PrefixShorter(next, Resample(bars, period, j), m - 1, h + 1);
  }
}
