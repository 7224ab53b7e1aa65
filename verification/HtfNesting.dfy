/** Resampling in two steps (src/data/dukascopy_fetcher.py): the frames of one download nest. */
module HtfNesting {
  import opened Wrappers
  import opened Market
  import opened Htf

  lemma Between(w: int, t: int, period: posint)
    requires w * period <= t < w * period + period
    ensures Bucket(t, period) == w * period
  {
    BucketSpan(t, period);
    var p := t / period;
    if p + 1 <= w {
      Scale(p + 1, w, period);
    } else if w + 1 <= p {
      Scale(w + 1, p, period);
    }
  }

  /** A short bucket begins in the long bucket of its times. */
  lemma BucketsNest(t: int, p: posint, q: posint)
    ensures Bucket(Bucket(t, p), p * q) == Bucket(t, p * q)
  {
    var w, s := t / (p * q), Bucket(t, p);
    BucketSpan(t, p * q);
    BucketSpan(t, p);
    assert w * (p * q) == (w * q) * p;
    if s < w * (p * q) {
      var v := t / p;
      if w * q <= v {
        Scale(w * q, v, p);
      } else {
        Scale(v + 1, w * q, p);
      }
      assert false;
    }
    Between(w, s, p * q);
  }

  /** Taking two bars in is taking their merger in. */
  lemma TakeInMerger(r: seq<Bar>, first: Bar, second: Bar, start: int)
    ensures TakeIn(TakeIn(r, first, start), second, start) == TakeIn(r, Merge(first, second), start)
  {
    var one := TakeIn(r, first, start);
    if |r| > 0 && r[|r| - 1].ts == start {
      assert one[..|one| - 1] == r[..|r| - 1];
    } else {
      assert one[..|one| - 1] == r;
    }
  }

  /** A bar and its own bucket's bar are taken in alike. */
  lemma TakeInRelabelled(r: seq<Bar>, b: Bar, ts: int, start: int)
    ensures TakeIn(r, Bar(ts, b.open, b.high, b.low, b.close), start) == TakeIn(r, b, start)
  {
  }

  /** Resampling the bars of `p` into bars of p * q gives what resampling the original bars does. */
  lemma {:induction false} ResamplingNests(bars: seq<Bar>, p: posint, q: posint, k: nat)
    requires k <= |bars|
    ensures Resample(Resample(bars, p, k), p * q, |Resample(bars, p, k)|) == Resample(bars, p * q, k)
  {
    hide Bucket, Merge, TakeIn;
    if k > 0 {
      ResamplingNests(bars, p, q, k - 1);
      BucketsNest(bars[k - 1].ts, p, q);
      OneMoreBar(Resample(bars, p, k - 1), bars[k - 1], Bucket(bars[k - 1].ts, p), p * q);
    }
  }

  /** One more bar `b` on the short frame is one more bar on the long frame. */
  lemma OneMoreBar(now: seq<Bar>, b: Bar, s: int, period: posint)
    ensures
      var next := TakeIn(now, b, s);
      Resample(next, period, |next|) == TakeIn(Resample(now, period, |now|), b, Bucket(s, period))
  {
    var m := |now|;
    if m > 0 && now[m - 1].ts == s {
      MergedBar(now, b, s, period);
    } else {
      NewBar(now, b, s, period);
    }
  }

  lemma MergedBar(now: seq<Bar>, b: Bar, s: int, period: posint)
    requires |now| > 0 && now[|now| - 1].ts == s
    ensures
      var next := TakeIn(now, b, s);
      Resample(next, period, |next|) == TakeIn(Resample(now, period, |now|), b, Bucket(s, period))
  {
    hide Bucket, Merge;
    var next, m := TakeIn(now, b, s), |now|;
    assert next[..m - 1] == now[..m - 1];
    ResampleSameStart(next, now, period, m - 1, m - 1);
    var before, merged := Resample(now, period, m - 1), Merge(now[m - 1], b);
    assert |next| == m && next[m - 1] == merged && merged.ts == s by {
      MergeKeepsStart(now[m - 1], b);
    }
    hide TakeIn;
    TakeInMerger(before, now[m - 1], b, Bucket(s, period));
  }

  lemma MergeKeepsStart(h: Bar, b: Bar)
    ensures Merge(h, b).ts == h.ts
  {
  }

  lemma NewBar(now: seq<Bar>, b: Bar, s: int, period: posint)
    requires |now| == 0 || now[|now| - 1].ts != s
    ensures
      var next := TakeIn(now, b, s);
      Resample(next, period, |next|) == TakeIn(Resample(now, period, |now|), b, Bucket(s, period))
  {
    hide Bucket;
    var next, m := TakeIn(now, b, s), |now|;
    assert |next| == m + 1 && next[..m] == now[..m] && next[m] == Bar(s, b.open, b.high, b.low, b.close);
    ResampleSameStart(next, now, period, m, m);
    hide TakeIn;
    TakeInRelabelled(Resample(now, period, m), b, s, Bucket(s, period));
  }
}
