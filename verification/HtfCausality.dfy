/** The mapped higher-timeframe schedule depends only on bars that are already closed. */
module HtfCausality {
  import opened Wrappers
  import opened Market
  import opened Structure
  import opened Htf

  function HtfBars(bars: seq<Bar>, period: posint): seq<Bar>
  {
    Resample(bars, period, |bars|)
  }

  function HtfBreaks(bars: seq<Bar>, size: posint, period: posint): map<nat, Break>
  {
    Schedule(HtfBars(bars, period), size, |HtfBars(bars, period)|)
  }

  /** The least index at or after `t` is settled by the bars up to it. */
  lemma FirstSameStart(a: seq<Bar>, b: seq<Bar>, k: nat, t: int, j: nat)
    requires SameStart(a, b, k) && j < k && FirstAtOrAfter(a, t, |a|) == j
    ensures FirstAtOrAfter(b, t, |b|) == j
  {
    var i := FirstAtOrAfter(b, t, |b|);
    SameStartAt(a, b, k, j);
    if i < j {
      SameStartAt(a, b, k, i);
    }
  }

  /** The HTF bars up to a source of trading bar `j` are the same in both series. */
  lemma {:induction false} SourceBarsAgree(a: seq<Bar>, b: seq<Bar>, period: posint, k: nat, h: nat, j: nat)
    requires Chronological(a) && Chronological(b) && SameStart(a, b, k) && j < k
    requires h < |HtfBars(a, period)| && HtfBars(a, period)[h].ts + period <= a[j].ts
    ensures SameStart(HtfBars(a, period), HtfBars(b, period), h + 1)
  {
    hide Resample;
    FinalBeforeUse(a, period, h, j);
    ResampleSameStart(a, b, period, k, j);
    SameStartAt(a, b, k, j);
    var now := Resample(b, period, j);
    ResampleGrows(b, period, j, |b|);
    assert HtfBars(b, period)[h].ts == now[h].ts by {
      if h < |now| - 1 {
        assert HtfBars(b, period)[h] == HtfBars(b, period)[..|now| - 1][h];
        assert now[h] == now[..|now| - 1][h];
      }
    }
    assert HtfBars(a, period)[h] == HtfBars(a, period)[..h + 1][h] == now[..h + 1][h];
    FinalBeforeUse(b, period, h, j);
  }

  lemma {:induction false} FeedsTransfers(a: seq<Bar>, b: seq<Bar>, size: posint, period: posint, k: nat, h: nat,
                                          j: nat)
    requires Chronological(a) && Chronological(b) && SameStart(a, b, k) && j < k
    requires h < |HtfBars(a, period)| && Feeds(HtfBars(a, period), HtfBreaks(a, size, period), a, period, h, j)
    ensures h < |HtfBars(b, period)| && Feeds(HtfBars(b, period), HtfBreaks(b, size, period), b, period, h, j)
    ensures HtfBreaks(a, size, period)[h] == HtfBreaks(b, size, period)[h]
  {
    var ra, rb := HtfBars(a, period), HtfBars(b, period);
    SourceBarsAgree(a, b, period, k, h, j);
    SameStartAt(ra, rb, h + 1, h);
    BreakSameStart(ra, rb, size, h + 1, h);
    FirstSameStart(a, b, k, ra[h].ts + period, j);
  }

  /** The break that a trading bar shows, as an HTF index. */
  function SourceAt(bars: seq<Bar>, size: posint, period: posint, j: nat): Option<nat>
  {
    var htf := HtfBars(bars, period);
    Source(htf, HtfBreaks(bars, size, period), bars, period, |htf|, j)
  }

  lemma SourceAtLeast(bars: seq<Bar>, size: posint, period: posint, h: nat, j: nat)
    requires h < |HtfBars(bars, period)|
    requires Feeds(HtfBars(bars, period), HtfBreaks(bars, size, period), bars, period, h, j)
    ensures SourceAt(bars, size, period, j).Some? && h <= SourceAt(bars, size, period, j).value
  {
    var htf := HtfBars(bars, period);
    SourceFeeds(htf, HtfBreaks(bars, size, period), bars, period, |htf|, j);
  }

  lemma SourceAtFeeds(bars: seq<Bar>, size: posint, period: posint, j: nat)
    requires SourceAt(bars, size, period, j).Some?
    ensures SourceAt(bars, size, period, j).value < |HtfBars(bars, period)|
    ensures Feeds(HtfBars(bars, period), HtfBreaks(bars, size, period), bars, period,
                  SourceAt(bars, size, period, j).value, j)
  {
    var htf := HtfBars(bars, period);
    SourceFeeds(htf, HtfBreaks(bars, size, period), bars, period, |htf|, j);
  }

  lemma SourceCarriesOver(a: seq<Bar>, b: seq<Bar>, size: posint, period: posint, k: nat, j: nat)
    requires Chronological(a) && Chronological(b) && SameStart(a, b, k) && j < k
    requires SourceAt(a, size, period, j).Some?
    ensures SourceAt(b, size, period, j).Some?
      && SourceAt(a, size, period, j).value <= SourceAt(b, size, period, j).value
  {
    SourceAtFeeds(a, size, period, j);
    FeedsTransfers(a, b, size, period, k, SourceAt(a, size, period, j).value, j);
    SourceAtLeast(b, size, period, SourceAt(a, size, period, j).value, j);
  }

  predicate SameEntry(s: map<nat, Break>, t: map<nat, Break>, j: nat)
  {
    (j in s <==> j in t) && (j in s && j in t ==> s[j] == t[j])
  }

  /** Two series with the same first `k` bars have the same mapped breaks before bar `k`,
      whatever their last, unfinished HTF bucket goes on to become. */
  lemma {:induction false} HtfScheduleSameStart(a: seq<Bar>, b: seq<Bar>, size: posint, period: posint, k: nat, j: nat)
    requires Chronological(a) && Chronological(b) && SameStart(a, b, k) && j < k
    ensures SameEntry(HtfSchedule(a, size, period), HtfSchedule(b, size, period), j)
  {
    var x, y := SourceAt(a, size, period, j), SourceAt(b, size, period, j);
    MappedEntry(HtfBars(a, period), HtfBreaks(a, size, period), a, period, |HtfBars(a, period)|, j);
    MappedEntry(HtfBars(b, period), HtfBreaks(b, size, period), b, period, |HtfBars(b, period)|, j);
    if x.Some? {
      SourceCarriesOver(a, b, size, period, k, j);
    }
    if y.Some? {
      SourceCarriesOver(b, a, size, period, k, j);
      SourceAtFeeds(b, size, period, j);
      FeedsTransfers(b, a, size, period, k, y.value, j);
    }
  }

  ghost predicate IsFirstAfterClose(bars: seq<Bar>, close: int, j: nat)
  {
    j < |bars| && close <= bars[j].ts && forall i :: 0 <= i < j ==> bars[i].ts < close
  }

  /** Trading bar `j` carries the break of HTF bar `h`: it is the first at or after that bar's close,
      and the bars strictly before it have built that bar and all before it in final form. */
  ghost predicate CarriesBreakOf(bars: seq<Bar>, size: posint, period: posint, j: nat, h: nat)
  {
    && h < |HtfBars(bars, period)| && j <= |bars|
    && h in HtfBreaks(bars, size, period) && j in HtfSchedule(bars, size, period)
    && HtfSchedule(bars, size, period)[j] == HtfBreaks(bars, size, period)[h].(barIndex := j)
    && IsFirstAfterClose(bars, HtfBars(bars, period)[h].ts + period, j)
    && h < |Resample(bars, period, j)|
    && HtfBars(bars, period)[..h + 1] == Resample(bars, period, j)[..h + 1]
  }

  lemma SourceIsCarried(bars: seq<Bar>, size: posint, period: posint, j: nat, h: nat)
    requires Chronological(bars) && SourceAt(bars, size, period, j) == Some(h)
    ensures CarriesBreakOf(bars, size, period, j, h)
  {
    hide Resample, Schedule, MapSchedule, Source, FirstAtOrAfter;
    var r, s := HtfBars(bars, period), HtfBreaks(bars, size, period);
    MappedEntry(r, s, bars, period, |r|, j);
    SourceFeeds(r, s, bars, period, |r|, j);
    FinalBeforeUse(bars, period, h, j);
  }

  /** A mapped break sits on the first trading bar at or after the close of its HTF bar, and
      that HTF bar was complete, in its final form, strictly before it. */
  lemma MappedAfterClose(bars: seq<Bar>, size: posint, period: posint, j: nat)
    requires Chronological(bars)
    ensures j in HtfSchedule(bars, size, period) ==> exists h: nat :: CarriesBreakOf(bars, size, period, j, h)
  {
    hide Resample, Schedule, MapSchedule, Source, CarriesBreakOf;
    if j in HtfSchedule(bars, size, period) {
      MappedEntry(HtfBars(bars, period), HtfBreaks(bars, size, period), bars, period, |HtfBars(bars, period)|, j);
      SourceIsCarried(bars, size, period, j, SourceAt(bars, size, period, j).value);
    }
  }
}
