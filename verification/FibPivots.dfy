/** Exactly which pivot a trading bar of the HTF-Fib walk shows. */
module FibPivots {
  import opened Wrappers
  import opened Seqs
  import opened Market
  import opened Htf
  import opened AsOfLookup
  import opened Swing
  import opened Pivots
  import opened FibModel
  import opened FibCausality
  import opened FibFrames

  /** Candidate `c` is at least as high as the bars on its left and higher than those on its right. */
  ghost predicate StandsOut(bars: seq<Bar>, c: nat, left: posint, right: posint)
    requires left <= c && c + right < |bars|
  {
    && (forall j :: c - left <= j < c ==> bars[j].high <= bars[c].high)
    && (forall j :: c < j <= c + right ==> bars[j].high < bars[c].high)
  }

  ghost predicate DipsBelow(bars: seq<Bar>, c: nat, left: posint, right: posint)
    requires left <= c && c + right < |bars|
  {
    && (forall j :: c - left <= j < c ==> bars[c].low <= bars[j].low)
    && (forall j :: c < j <= c + right ==> bars[c].low < bars[j].low)
  }

  lemma {:induction false} MaxHighIs(bars: seq<Bar>, lo: nat, hi: nat, x: real)
    requires lo < hi <= |bars|
    ensures MaxHigh(bars, lo, hi) <= x <==> forall j :: lo <= j < hi ==> bars[j].high <= x
    ensures MaxHigh(bars, lo, hi) < x <==> forall j :: lo <= j < hi ==> bars[j].high < x
  {
    if hi > lo + 1 {
      MaxHighIs(bars, lo, hi - 1, x);
    }
  }

  lemma {:induction false} MinLowIs(bars: seq<Bar>, lo: nat, hi: nat, x: real)
    requires lo < hi <= |bars|
    ensures x <= MinLow(bars, lo, hi) <==> forall j :: lo <= j < hi ==> x <= bars[j].low
    ensures x < MinLow(bars, lo, hi) <==> forall j :: lo <= j < hi ==> x < bars[j].low
  {
    if hi > lo + 1 {
      MinLowIs(bars, lo, hi - 1, x);
    }
  }

  lemma PivotMeans(bars: seq<Bar>, c: nat, left: posint, right: posint)
    requires left <= c && c + right < |bars|
    ensures IsPivotHigh(bars, c, left, right) <==> StandsOut(bars, c, left, right)
    ensures IsPivotLow(bars, c, left, right) <==> DipsBelow(bars, c, left, right)
  {
    MaxHighIs(bars, c - left, c, bars[c].high);
    MaxHighIs(bars, c + 1, c + right + 1, bars[c].high);
    MinLowIs(bars, c - left, c, bars[c].low);
    MinLowIs(bars, c + 1, c + right + 1, bars[c].low);
  }

  /** The event that candidate `c` gives at its confirmation: none if it is both high and low. */
  ghost function ShownBy(bars: seq<Bar>, c: nat, left: posint, right: posint): seq<PivotEvent>
    requires left <= c && c + right + 1 < |bars|
  {
    var confirmed := bars[c + right + 1].ts;
    if StandsOut(bars, c, left, right) == DipsBelow(bars, c, left, right) then []
    else if StandsOut(bars, c, left, right) then [PivotEvent(confirmed, bars[c].ts, High, bars[c].high)]
    else [PivotEvent(confirmed, bars[c].ts, Low, bars[c].low)]
  }

  /** The bar after the right-hand side of the candidate begins at `t`. */
  predicate ConfirmsAt(bars: seq<Bar>, c: int, left: posint, right: posint, t: int)
  {
    left <= c && c + right + 1 < |bars| && bars[c + right + 1].ts == t
  }

  lemma EventsOfOthers(bars: seq<Bar>, c: nat, left: posint, right: posint, t: int)
    requires left <= c && c + right + 1 < |bars|
    ensures Filter(EventsAt(bars, c, left, right), ConfirmedAt(t)) ==
      if ConfirmsAt(bars, c, left, right, t) then EventsAt(bars, c, left, right) else []
  {
    hide EventsAt;
    EventsAtTime(bars, c, left, right);
    if ConfirmsAt(bars, c, left, right, t) {
      FilterAll(EventsAt(bars, c, left, right), ConfirmedAt(t));
    } else {
      FilterNone(EventsAt(bars, c, left, right), ConfirmedAt(t));
    }
  }

  /** Of the events confirmed at `t` all are of one candidate, if any is. */
  lemma {:induction false} EventsAtTimeAre(bars: seq<Bar>, left: posint, right: posint, n: nat, t: int)
    requires Chronological(bars) && (n <= left || n + right < |bars|)
    ensures forall c: nat :: c < n && ConfirmsAt(bars, c, left, right, t) ==>
      Filter(EventsBelow(bars, left, right, n), ConfirmedAt(t)) == EventsAt(bars, c, left, right)
    ensures (forall c: nat :: c < n ==> !ConfirmsAt(bars, c, left, right, t)) ==>
      Filter(EventsBelow(bars, left, right, n), ConfirmedAt(t)) == []
  {
    hide EventsAt, Filter;
    if n <= left {
      FilterNone([], ConfirmedAt(t));
    } else {
      EventsAtTimeAre(bars, left, right, n - 1, t);
      EventsOfOthers(bars, n - 1, left, right, t);
      FilterConcat(EventsBelow(bars, left, right, n - 1), EventsAt(bars, n - 1, left, right), ConfirmedAt(t));
      if ConfirmsAt(bars, n - 1, left, right, t) {
        forall c: nat | c < n - 1 ensures !ConfirmsAt(bars, c, left, right, t) {
        }
      }
    }
  }

  /** What a bar shows, on series whose times increase: the pivot of the higher-timeframe bar whose
      right-hand side is over when this bar begins. It is known only then, has the price of its own
      bar, and is dropped when that bar is a high and a low at once. */
  lemma BarShowsPivot(bars: seq<Bar>, usd: seq<pos>, atrPeriod: posint, period: posint, left: posint, right: posint,
                      i: nat)
    requires Chronological(bars) && i < |bars|
    ensures
      var htf := Resample(bars, period, |bars|);
      var events := EventsOn(FibFrames.Prepare(bars, usd, atrPeriod, period, left, right), i);
      && (forall c: nat :: ConfirmsAt(htf, c, left, right, bars[i].ts) ==> events == ShownBy(htf, c, left, right))
      && ((forall c: nat :: !ConfirmsAt(htf, c, left, right, bars[i].ts)) ==> events == [])
  {
    hide Resample, EventsAt, EventsBelow, Filter, Group, StandsOut, DipsBelow;
    var htf, t := Resample(bars, period, |bars|), bars[i].ts;
    var n := CandidateEnd(|htf|, right);
    ResampleChronological(bars, period, |bars|);
    LookupIsFilter(AllEvents(htf, left, right), t);
    EventsAtTimeAre(htf, left, right, n, t);
    forall c: nat | ConfirmsAt(htf, c, left, right, t)
      ensures EventsOn(FibFrames.Prepare(bars, usd, atrPeriod, period, left, right), i) == ShownBy(htf, c, left, right)
    {
      assert c < n;
      PivotMeans(htf, c, left, right);
      DroppedDoubles(htf, c, left, right);
    }
  }

  lemma DroppedDoubles(bars: seq<Bar>, c: nat, left: posint, right: posint)
    requires left <= c && c + right + 1 < |bars|
    ensures
      var events := EventsAt(bars, c, left, right);
      (if |events| == 2 && events[0].pivotTime == events[1].pivotTime then [] else events) ==
      ShownBy(bars, c, left, right)
  {
    hide StandsOut, DipsBelow, IsPivotHigh, IsPivotLow;
    PivotMeans(bars, c, left, right);
  }

  // ------------------------------------------------------------ readings of a longer frame

  /** The first `n` bars of the frame are exactly those that have closed by a time. */
  ghost predicate ClosedBy(htf: seq<Bar>, period: posint, t: int, n: nat)
  {
    n <= |htf| && forall h :: 0 <= h < |htf| ==> (h < n <==> htf[h].ts + period <= t)
  }

  /** A confirmed reading is the indicator on the longer bars that have closed by the time of the
      trading bar, and is missing when there is none. */
  lemma ConfirmedReadsClosedBars(f: Indicator, bars: seq<Bar>, period: posint, i: nat) returns (n: nat)
    requires Chronological(bars) && i < |bars|
    ensures ClosedBy(Resample(bars, period, |bars|), period, bars[i].ts, n)
    ensures Confirmed(f, bars, period, i) == if n == 0 then None else f(Resample(bars, period, |bars|)[..n])
  {
    hide Resample, Bucket, Begun;
    var htf, t := Resample(bars, period, |bars|), bars[i].ts;
    BegunIsBuilt(bars, period, i);
    ResampleGrows(bars, period, i + 1, |bars|);
    ResampleChronological(bars, period, |bars|);
    BucketSpan(t, period);
    n := |Resample(bars, period, i + 1)| - 1;
    forall h | 0 <= h < |htf| ensures h < n <==> htf[h].ts + period <= t {
      if h < n {
        HtfOnGrid(bars, period, |bars|, h);
        HtfOnGrid(bars, period, |bars|, n);
        GridGap(htf[h].ts, htf[n].ts, period);
      }
    }
  }
}
