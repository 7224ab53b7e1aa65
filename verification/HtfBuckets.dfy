/** What a resampled bar is made of. */
module HtfBuckets {
  import opened Wrappers
  import opened Market
  import opened Htf

  /** Bar `h` begins a bucket and takes its prices from exactly the bars lo..hi of that bucket: the open
      of the first, the close of the last, the highest high and the lowest low. */
  ghost predicate MadeOf(b: Bar, bars: seq<Bar>, period: posint, k: nat, lo: nat, hi: nat)
    requires k <= |bars|
  {
    && lo < hi <= k
    && (forall j :: 0 <= j < k ==> (lo <= j < hi <==> Bucket(bars[j].ts, period) == b.ts))
    && b.open == bars[lo].open && b.close == bars[hi - 1].close
    && (forall j :: lo <= j < hi ==> b.low <= bars[j].low && bars[j].high <= b.high)
    && (exists j :: lo <= j < hi && bars[j].high == b.high)
    && (exists j :: lo <= j < hi && bars[j].low == b.low)
  }

  ghost predicate Made(b: Bar, bars: seq<Bar>, period: posint, k: nat)
    requires k <= |bars|
  {
    exists lo: nat, hi: nat :: MadeOf(b, bars, period, k, lo, hi)
  }

  /** Every bar's bucket has a bar. */
  ghost predicate Covered(r: seq<Bar>, bars: seq<Bar>, period: posint, k: nat)
    requires k <= |bars|
  {
    forall j :: 0 <= j < k ==> Holds(r, Bucket(bars[j].ts, period))
  }

  predicate Holds(r: seq<Bar>, start: int)
  {
    exists h :: 0 <= h < |r| && r[h].ts == start
  }

  ghost predicate EachMade(r: seq<Bar>, bars: seq<Bar>, period: posint, k: nat)
    requires k <= |bars|
  {
    forall h :: 0 <= h < |r| ==> Made(r[h], bars, period, k)
  }

  ghost predicate AllMade(r: seq<Bar>, bars: seq<Bar>, period: posint, k: nat)
    requires k <= |bars|
  {
    EachMade(r, bars, period, k) && Covered(r, bars, period, k)
  }

  /** A bucket that is over keeps what it is made of. */
  lemma OldBarStays(b: Bar, bars: seq<Bar>, period: posint, k: nat)
    requires k < |bars| && Made(b, bars, period, k) && Bucket(bars[k].ts, period) != b.ts
    ensures Made(b, bars, period, k + 1)
  {
    hide Bucket;
    var lo: nat, hi: nat :| MadeOf(b, bars, period, k, lo, hi);
    assert MadeOf(b, bars, period, k + 1, lo, hi);
  }

  /** A bucket that is not over takes one more bar in. */
  lemma NewestBarGrows(b: Bar, bars: seq<Bar>, period: posint, k: nat)
    requires 0 < k < |bars| && Made(b, bars, period, k)
    requires Bucket(bars[k - 1].ts, period) == Bucket(bars[k].ts, period) == b.ts
    ensures Made(Merge(b, bars[k]), bars, period, k + 1)
  {
    hide Bucket;
    var lo: nat, hi: nat :| MadeOf(b, bars, period, k, lo, hi);
    assert hi == k;
    var x: nat, y: nat :| lo <= x < hi && bars[x].high == b.high && lo <= y < hi && bars[y].low == b.low;
    var m := Merge(b, bars[k]);
    assert bars[x].high == m.high || bars[k].high == m.high;
    assert bars[y].low == m.low || bars[k].low == m.low;
    assert MadeOf(m, bars, period, k + 1, lo, k + 1);
  }

  lemma FreshBar(bars: seq<Bar>, period: posint, k: nat)
    requires k < |bars| && forall j :: 0 <= j < k ==> Bucket(bars[j].ts, period) != Bucket(bars[k].ts, period)
    ensures
      var b := bars[k];
      Made(Bar(Bucket(b.ts, period), b.open, b.high, b.low, b.close), bars, period, k + 1)
  {
    hide Bucket;
    var b := bars[k];
    assert bars[k].high == b.high && bars[k].low == b.low;
    assert MadeOf(Bar(Bucket(b.ts, period), b.open, b.high, b.low, b.close), bars, period, k + 1, k, k + 1);
  }

  /** Buckets begin later as the bars do, so one that the last bar has left never comes back. */
  lemma NewBucket(bars: seq<Bar>, period: posint, k: nat, j: nat)
    requires j < k < |bars| && Chronological(bars) && Bucket(bars[k - 1].ts, period) != Bucket(bars[k].ts, period)
    ensures Bucket(bars[j].ts, period) != Bucket(bars[k].ts, period)
  {
    hide Bucket;
    BucketMonotone(bars[k - 1].ts, bars[k].ts, period);
    if j < k - 1 {
      BucketMonotone(bars[j].ts, bars[k - 1].ts, period);
    }
  }

  lemma {:induction false} ResampledIsMade(bars: seq<Bar>, period: posint, k: nat)
    requires k <= |bars| && Chronological(bars)
    ensures AllMade(Resample(bars, period, k), bars, period, k)
  {
    hide Bucket, Made, Covered;
    if k > 0 {
      ResampledIsMade(bars, period, k - 1);
      StepIsMade(bars, period, k - 1);
      StartsStay(bars, period, k - 1);
    } else {
      NothingToCover(bars, period);
    }
  }

  lemma NothingToCover(bars: seq<Bar>, period: posint)
    ensures Covered([], bars, period, 0)
  {
  }

  lemma StepIsMade(bars: seq<Bar>, period: posint, k: nat)
    requires k < |bars| && Chronological(bars)
    requires EachMade(Resample(bars, period, k), bars, period, k)
    ensures EachMade(Resample(bars, period, k + 1), bars, period, k + 1)
  {
    hide Bucket, Made;
    var r, s := Resample(bars, period, k), Resample(bars, period, k + 1);
    var b, start := bars[k], Bucket(bars[k].ts, period);
    ResampleChronological(bars, period, k + 1);
    assert s == TakeIn(r, b, start);
    forall h | 0 <= h < |s| ensures Made(s[h], bars, period, k + 1) {
      if h < |s| - 1 {
        assert s[h] == r[h] && s[h].ts < s[|s| - 1].ts;
        OldBarStays(r[h], bars, period, k);
      } else if k > 0 && Bucket(bars[k - 1].ts, period) == start {
        NewestBarGrows(r[|r| - 1], bars, period, k);
      } else {
        forall j | 0 <= j < k ensures Bucket(bars[j].ts, period) != start {
          NewBucket(bars, period, k, j);
        }
        FreshBar(bars, period, k);
      }
    }
  }

  lemma StartsStay(bars: seq<Bar>, period: posint, k: nat)
    requires k < |bars| && Covered(Resample(bars, period, k), bars, period, k)
    ensures Covered(Resample(bars, period, k + 1), bars, period, k + 1)
  {
    hide Bucket, Resample;
    var r, s := Resample(bars, period, k), Resample(bars, period, k + 1);
    ResampleStep(bars, period, k);
    forall j | 0 <= j < k ensures Holds(s, Bucket(bars[j].ts, period)) {
      assert Holds(r, Bucket(bars[j].ts, period));
      var h :| 0 <= h < |r| && r[h].ts == Bucket(bars[j].ts, period);
      if h < |s| - 1 {
        assert s[h] == s[..|s| - 1][h] == r[..|s| - 1][h];
      }
      assert s[h].ts == r[h].ts;
    }
    assert s[|s| - 1].ts == Bucket(bars[k].ts, period);
  }

  /** A bucket starts at the last multiple of the period that is not after the time. */
  lemma BucketExactly(ts: int, period: posint)
    ensures Bucket(ts, period) % period == 0 && Bucket(ts, period) <= ts < Bucket(ts, period) + period
  {
    BucketSpan(ts, period);
    BucketOnGrid(ts, period);
    var b := Bucket(ts, period);
    assert b == b / period * period;
    assert b == period * (b / period) + b % period;
  }

  /** Resampling, exactly, on series whose times increase: one bar for every bucket that holds a bar, in
      order, made of all the bars of its bucket and of no other. */
  lemma ResampleExactly(bars: seq<Bar>, period: posint, k: nat)
    requires k <= |bars| && Chronological(bars)
    ensures Chronological(Resample(bars, period, k))
    ensures AllMade(Resample(bars, period, k), bars, period, k)
  {
    ResampleChronological(bars, period, k);
    ResampledIsMade(bars, period, k);
  }
}
