/** A series of quarter-hour bars for runs of the Donchian backtest, and what its filters read of it. */
module DonchianSeries {
  import opened Wrappers
  import opened Seqs
  import opened Market
  import opened Costs
  import opened Htf
  import opened HtfNesting
  import opened AsOfLookup
  import opened Donchian
  import opened DonchianSignals
  import opened DonchianLoosening
  import opened DonchianFrames
  import opened DonchianPipeline
  import Rsi

  // ------------------------------------------------------------ readings of steady closes

  /** Closes that stand still read as one hundred. */
  lemma SteadyReading(bars: seq<Bar>)
    requires |bars| > PERIOD && forall i :: 0 <= i < |bars| ==> bars[i].close == 10.0
    ensures RsiOf(bars) == Some(100.0)
  {
    var recent := Rsi.Recent(ClosesOf(bars));
    Rsi.ReadingBounds(recent, PERIOD);
  }

  /** A first fall after closes that stood still reads as zero. */
  lemma FallReading(bars: seq<Bar>)
    requires |bars| > PERIOD && bars[|bars| - 1].close < 10.0
    requires forall i :: 0 <= i < |bars| - 1 ==> bars[i].close == 10.0
    ensures RsiOf(bars) == Some(0.0)
  {
    var recent := Rsi.Recent(ClosesOf(bars));
    Rsi.ReadingBounds(recent, PERIOD);
    assert recent[|recent| - 2] > recent[|recent| - 1];
  }

  lemma LookupIsReading(f: Indicator, bars: seq<Bar>, period: posint, i: nat)
    requires Chronological(bars) && i < |bars|
    ensures
      var htf, m := Resample(bars, period, |bars|), |Resample(bars, period, i + 1)|;
      m <= |htf| && (f(htf[..m]).Some? ==> Lookup(f, bars, period, i) == f(htf[..m]))
  {
    hide Resample, Begun;
    BegunIsBuilt(bars, period, i);
    ResampleGrows(bars, period, i + 1, |bars|);
    var htf, m := Resample(bars, period, |bars|), |Resample(bars, period, i + 1)|;
    var column := ColumnOf(f, htf);
    assert column[..m][m - 1] == column[m - 1] == f(htf[..m]);
  }

  // ------------------------------------------------------------ the series

  /** Still bars, with a range at bar 80, a spike that closes low at bar 84, and the given high and
      low at bar 85. */
  function CaseBar(i: nat, high: real, low: real): Bar
  {
    if i == 80 then Bar(900 * i, 10.0, 11.0, 9.0, 10.0)
    else if i == 84 then Bar(900 * i, 10.0, 12.0, 9.5, 9.5)
    else if i == 85 then Bar(900 * i, 10.0, high, low, 10.0)
    else Bar(900 * i, 10.0, 10.0, 10.0, 10.0)
  }

  function CaseBars(high: real, low: real, n: nat): (bars: seq<Bar>)
    ensures |bars| == n && forall i :: 0 <= i < n ==> bars[i] == CaseBar(i, high, low)
  {
    seq(n, i requires 0 <= i < n => CaseBar(i, high, low))
  }

  /** Bars of a quarter of an hour, without gaps. */
  ghost predicate Quarters(bars: seq<Bar>)
  {
    forall i :: 0 <= i < |bars| ==> bars[i].ts == 900 * i
  }

  lemma QuartersInOrder(bars: seq<Bar>)
    requires Quarters(bars)
    ensures Chronological(bars)
  {
  }

  lemma QuarterAt(bars: seq<Bar>, i: nat)
    requires Quarters(bars) && i < |bars|
    ensures bars[i].ts == 900 * i
  {
  }

  lemma QuarterBucket(i: nat)
    ensures Bucket(900 * i, HALF_HOUR) == 1800 * (i / 2) && Bucket(900 * i, HOUR) == 3600 * (i / 4)
  {
    hide Bucket;
    Between(i / 2, 900 * i, HALF_HOUR);
    Between(i / 4, 900 * i, HOUR);
  }

  /** A bar opens a bucket when its number divides by the bars in one. */
  lemma OpensBucket(i: nat)
    requires i > 0
    ensures Bucket(900 * (i - 1), HALF_HOUR) == Bucket(900 * i, HALF_HOUR) <==> i % 2 != 0
    ensures Bucket(900 * (i - 1), HOUR) == Bucket(900 * i, HOUR) <==> i % 4 != 0
  {
    hide Bucket;
    QuarterBucket(i - 1);
    QuarterBucket(i);
  }

  /** A trading bar begins a resampled bar exactly when it opens a bucket. */
  lemma OneMoreQuarter(bars: seq<Bar>, period: posint, k: nat)
    requires 0 < k <= |bars|
    ensures |Resample(bars, period, k)| == |Resample(bars, period, k - 1)|
      + if k > 1 && Bucket(bars[k - 2].ts, period) == Bucket(bars[k - 1].ts, period) then 0 else 1
  {
    hide Bucket, Merge;
  }

  lemma {:induction false} HalfHours(bars: seq<Bar>, k: nat)
    requires Quarters(bars) && k <= |bars|
    ensures |Resample(bars, HALF_HOUR, k)| == (k + 1) / 2
  {
    hide Resample, Bucket, Quarters;
    if k > 0 {
      HalfHours(bars, k - 1);
      OneMoreQuarter(bars, HALF_HOUR, k);
      if k > 1 {
        QuarterAt(bars, k - 2);
        QuarterAt(bars, k - 1);
        OpensBucket(k - 1);
      }
    }
  }

  lemma {:induction false} Hours(bars: seq<Bar>, k: nat)
    requires Quarters(bars) && k <= |bars|
    ensures |Resample(bars, HOUR, k)| == (k + 3) / 4
  {
    hide Resample, Bucket, Quarters;
    if k > 0 {
      Hours(bars, k - 1);
      OneMoreQuarter(bars, HOUR, k);
      if k > 1 {
        QuarterAt(bars, k - 2);
        QuarterAt(bars, k - 1);
        OpensBucket(k - 1);
      }
    }
  }

  /** The fall at bar 84 is over within its half-hour, and no half-hour or hour closes there. */
  lemma FallIsHidden(bars: seq<Bar>, k: nat, j: nat)
    requires Quarters(bars) && k <= |bars| && k != 85
    ensures EndsBucket(bars, HALF_HOUR, k, j) ==> j != 84
    ensures EndsBucket(bars, HOUR, k, j) ==> j != 84
  {
    if k > 85 && j == 84 {
      assert bars[84].ts == 75600 && bars[85].ts == 76500;
    }
  }

  /** Closes other than that of bar 84 that stand still on `k` bars stand still on both frames. */
  lemma FrameCloses(bars: seq<Bar>, period: posint, k: nat, h: nat)
    requires Quarters(bars) && k <= |bars| && k != 85 && (period == HALF_HOUR || period == HOUR)
    requires h < |Resample(bars, period, k)|
    requires forall i :: 0 <= i < k && i != 84 ==> bars[i].close == 10.0
    ensures Resample(bars, period, k)[h].close == 10.0
  {
    hide Resample, EndsBucket;
    QuartersInOrder(bars);
    var j := ClosesOfLastBar(bars, period, k, h);
    FallIsHidden(bars, k, j);
    assert j < k by {
      assert EndsBucket(bars, period, k, j);
      EndsInside(bars, period, k, j);
    }
  }

  lemma EndsInside(bars: seq<Bar>, period: posint, k: nat, j: nat)
    requires k <= |bars| && EndsBucket(bars, period, k, j)
    ensures j < k
  {
  }

  /** Closes that stand still, but for bar 84, read as one hundred on both frames from bar 60 on. */
  lemma SteadyFrame(bars: seq<Bar>, period: posint, i: nat)
    requires Quarters(bars) && 60 <= i < |bars| && |bars| != 85 && (period == HALF_HOUR || period == HOUR)
    requires forall j :: 0 <= j < |bars| && j != 84 ==> bars[j].close == 10.0
    ensures Lookup(RsiOf, bars, period, i) == Some(100.0)
  {
    hide Resample, RsiOf, Lookup;
    QuartersInOrder(bars);
    LookupIsReading(RsiOf, bars, period, i);
    HalfHours(bars, i + 1);
    Hours(bars, i + 1);
    var htf, m := Resample(bars, period, |bars|), |Resample(bars, period, i + 1)|;
    forall h | 0 <= h < m ensures htf[..m][h].close == 10.0 {
      FrameCloses(bars, period, |bars|, h);
    }
    SteadyReading(htf[..m]);
  }

  /** RSI on the trading bars: one hundred before the fall, zero on it. */
  lemma QuarterReading(bars: seq<Bar>, i: nat)
    requires PERIOD <= i <= 84 && i < |bars|
    requires forall j :: 0 <= j < 84 && j < |bars| ==> bars[j].close == 10.0
    requires i == 84 ==> bars[84].close == 9.5
    ensures RsiOf(bars[..i + 1]) == Some(if i == 84 then 0.0 else 100.0)
  {
    if i == 84 {
      FallReading(bars[..i + 1]);
    } else {
      SteadyReading(bars[..i + 1]);
    }
  }

  // ------------------------------------------------------------ ranges

  lemma CaseRange(high: real, low: real, n: nat, i: nat)
    requires low <= 10.0 <= high && i < n && i != 85
    ensures TrueRange(CaseBars(high, low, n), i) == if i == 80 then 2.0 else if i == 84 then 2.5 else 0.0
  {
    var bars := CaseBars(high, low, n);
    assert bars[i] == CaseBar(i, high, low);
    if i > 0 {
      assert bars[i - 1] == CaseBar(i - 1, high, low);
    }
  }

  /** Sums of ranges before bar 85. */
  lemma {:induction false} CaseRanges(high: real, low: real, n: nat, lo: nat, hi: nat)
    requires low <= 10.0 <= high && lo <= hi <= n && (hi <= 85 || 85 < lo)
    ensures RangesOf(CaseBars(high, low, n), lo, hi)
         == (if lo <= 80 < hi then 2.0 else 0.0) + (if lo <= 84 < hi then 2.5 else 0.0)
  {
    if lo < hi {
      CaseRanges(high, low, n, lo, hi - 1);
      CaseRange(high, low, n, hi - 1);
    }
  }

  lemma SignalAtr(high: real, low: real, n: nat)
    requires low <= 10.0 <= high && 85 <= n
    ensures ListAtr(CaseBars(high, low, n), PERIOD, 83) == Some(2.0 / 14.0)
    ensures ListAtr(CaseBars(high, low, n), PERIOD, 84) == Some(4.5 / 14.0)
  {
    CaseRanges(high, low, n, 70, 84);
    CaseRanges(high, low, n, 71, 85);
  }

  // ------------------------------------------------------------ signals

  /** The default filters of `run_config`. */
  const CASE_FILTERS := Filters(65.0, 35.0, 20, 8, 0.0, true, 1.65, true, 25.0, false, 6, 17, true, 3, 80)

  const CASE_COSTS := CostBook(2.0, 2.0, 3.0, 1.0)

  /** A series whose first bars are those of the case, whatever its last close. */
  ghost predicate IsCase(bars: seq<Bar>, high: real, low: real, n: nat)
  {
    && 87 <= n <= |bars| <= 100 && low <= 10.0 <= high && Quarters(bars)
    && bars[..n] == CaseBars(high, low, n)
  }

  lemma CaseBarAt(bars: seq<Bar>, high: real, low: real, n: nat, i: nat)
    requires IsCase(bars, high, low, n) && i < n
    ensures bars[i] == CaseBar(i, high, low)
  {
    assert bars[i] == bars[..n][i];
  }

  lemma NoDmi(bars: seq<Bar>, i: nat)
    requires Quarters(bars) && |bars| <= 100 && i < |bars|
    ensures
      var x := Prepare(bars);
      x.adx[i] == None && x.plusDi[i] == None && x.minusDi[i] == None
  {
    hide Resample, Begun;
    QuartersInOrder(bars);
    Hours(bars, |bars|);
    TooShort(PlusDiOf, bars, HOUR, i);
    TooShort(MinusDiOf, bars, HOUR, i);
    var htf := HoursOf(bars);
    NothingKnown(ColumnOf(AdxOf, htf)[..Begun(htf, bars[i].ts)]);
  }

  lemma CaseAtr(bars: seq<Bar>, high: real, low: real, n: nat)
    requires IsCase(bars, high, low, n)
    ensures Prepare(bars).atr[83] == Some(2.0 / 14.0) && Prepare(bars).atr[84] == Some(4.5 / 14.0)
  {
    hide ListAtr;
    SignalAtr(high, low, n);
    assert CaseBars(high, low, n)[..n] == CaseBars(high, low, n);
    ListsAgree(bars, CaseBars(high, low, n), n, 83);
    ListsAgree(bars, CaseBars(high, low, n), n, 84);
  }

  lemma CaseRsi(bars: seq<Bar>, high: real, low: real, n: nat, i: nat)
    requires IsCase(bars, high, low, n) && PERIOD <= i <= 84
    ensures Prepare(bars).rsi15[i] == Some(if i == 84 then 0.0 else 100.0)
  {
    hide RsiOf;
    forall j | 0 <= j < 84 ensures bars[j].close == 10.0 {
      CaseBarAt(bars, high, low, n, j);
    }
    CaseBarAt(bars, high, low, n, 84);
    QuarterReading(bars, i);
  }

  /** Bar 83 is aligned, and bar 84 has all a short needs, once the frames read one hundred there. */
  lemma CaseSetup(bars: seq<Bar>, high: real, low: real, n: nat)
    requires IsCase(bars, high, low, n)
    requires
      var x := Prepare(bars);
      x.rsi30[83] == x.rsi30[84] == x.rsi1h[83] == x.rsi1h[84] == Some(100.0)
    ensures
      var f, x := CASE_FILTERS, Prepare(bars);
      && Checked(f, x, 83) && FullOb(f, x, 83) && Checked(f, x, 84) && !FullOb(f, x, 84)
      && ShortSetup(f, x, 84) && !LongSetup(f, x, 84)
  {
    hide Prepare;
    var x := Prepare(bars);
    CaseAtr(bars, high, low, n);
    CaseRsi(bars, high, low, n, 81);
    CaseRsi(bars, high, low, n, 83);
    CaseRsi(bars, high, low, n, 84);
    NoDmi(bars, 84);
    CaseBarAt(bars, high, low, n, 84);
    HighestBefore(bars, high, low, n);
  }

  lemma HighestBefore(bars: seq<Bar>, high: real, low: real, n: nat)
    requires IsCase(bars, high, low, n)
    ensures PreviousHigh(CASE_FILTERS, Prepare(bars), 84) == 11.0
  {
    hide Prepare;
    var window := HighsOf(bars)[64..84];
    forall j | 0 <= j < 20 ensures window[j] == if j == 16 then 11.0 else 10.0 {
      CaseBarAt(bars, high, low, n, 64 + j);
    }
    MaxIs(window, 16);
  }

  /** A still bar never fires: it cannot leave a range and close back inside. */
  lemma StillBarIsSilent(f: Filters, x: Indicators, i: nat)
    requires SameLengths(x) && i < |x.bars| && f.buffer >= 0.0
    requires x.bars[i].high == x.bars[i].low == x.bars[i].close
    ensures SignalAt(f, x, i).Some? ==> SignalAt(f, x, i).value == Triggers(false, false)
  {
    hide MemoryAt, WithinWindow, PreviousHigh, PreviousLow, AdxOk, DiOk, SessionOk;
  }

  /** Without an RSI pair that crosses or frames that are beyond the bounds nothing fires. */
  lemma UncrossedIsSilent(f: Filters, x: Indicators, i: nat)
    requires SameLengths(x) && 0 < i < |x.bars|
    requires x.rsi15[i] == Some(100.0) || x.rsi15[i - 1] == Some(0.0) || x.rsi1h[i] == Some(0.0)
    requires x.rsi30[i] == Some(100.0) && 0.0 <= f.lower < 100.0 && 0.0 <= f.upper < 100.0
    ensures SignalAt(f, x, i).Some? ==> SignalAt(f, x, i).value == Triggers(false, false)
  {
    hide MemoryAt, WithinWindow, PreviousHigh, PreviousLow, AdxOk, DiOk, SessionOk;
  }

  /** Both frames read one hundred on bars 80 to `last`. */
  ghost predicate FramesSteady(bars: seq<Bar>, last: nat)
    requires last < |bars|
  {
    var x := Prepare(bars);
    forall i :: 80 <= i <= last ==> x.rsi30[i] == x.rsi1h[i] == Some(100.0)
  }

  lemma SteadyCloses(bars: seq<Bar>)
    requires Quarters(bars) && 87 <= |bars| && forall j :: 0 <= j < |bars| && j != 84 ==> bars[j].close == 10.0
    ensures FramesSteady(bars, |bars| - 1)
  {
    hide Lookup, RsiOf;
    forall i | 80 <= i < |bars| ensures Prepare(bars).rsi30[i] == Prepare(bars).rsi1h[i] == Some(100.0) {
      SteadyFrame(bars, HALF_HOUR, i);
      SteadyFrame(bars, HOUR, i);
    }
  }

  lemma CaseCloses(high: real, low: real, n: nat)
    requires 87 <= n <= 100 && low <= 10.0 <= high
    ensures IsCase(CaseBars(high, low, n), high, low, n) && FramesSteady(CaseBars(high, low, n), n - 1)
  {
    var bars := CaseBars(high, low, n);
    assert bars[..n] == bars;
    SteadyCloses(bars);
  }

  /** Bar 84 fires a short. */
  lemma CaseFires(bars: seq<Bar>, high: real, low: real, n: nat)
    requires IsCase(bars, high, low, n) && FramesSteady(bars, 84)
    ensures SignalAt(CASE_FILTERS, Prepare(bars), 84) == Some(Triggers(false, true))
  {
    hide MemoryAt, WithinWindow, Prepare, Checked, FullOb, LongSetup, ShortSetup, CaseBars;
    var f, x := CASE_FILTERS, Prepare(bars);
    SteadyAt(bars, 84, 83);
    SteadyAt(bars, 84, 84);
    CaseSetup(bars, high, low, n);
    assert AlignedAt(f, x, 83, Short);
    assert RecentlyAligned(f, x, 84, Short);
    CaseRsi(bars, high, low, n, 83);
    TriggersAreSetups(f, x, 84);
  }

  lemma SteadyAt(bars: seq<Bar>, last: nat, i: nat)
    requires last < |bars| && FramesSteady(bars, last) && 80 <= i <= last
    ensures
      var x := Prepare(bars);
      x.rsi30[i] == x.rsi1h[i] == Some(100.0)
  {
    hide Prepare;
  }

  /** No bar before it fires. */
  lemma CaseIsQuiet(bars: seq<Bar>, high: real, low: real, n: nat, i: nat)
    requires IsCase(bars, high, low, n) && FramesSteady(bars, 84) && i < 84
    ensures SignalAt(CASE_FILTERS, Prepare(bars), i).Some? ==>
      SignalAt(CASE_FILTERS, Prepare(bars), i).value == Triggers(false, false)
  {
    hide Prepare, CaseBars, Decide, MemoryAt;
    if i >= 80 {
      SteadyAt(bars, 84, i);
      CaseRsi(bars, high, low, n, i);
      UncrossedIsSilent(CASE_FILTERS, Prepare(bars), i);
    }
  }

  // ------------------------------------------------------------ runs

  /** A bar that fires nothing only manages the position. */
  lemma SilentStep(prm: Params, d: Input, i: nat, s: LoopState)
    requires WellFormed(d) && i < |d.bars| && s.pending.None?
    requires d.signals[i].Some? ==> d.signals[i].value == Triggers(false, false)
    ensures StepBar(prm, d, i, s) == Manage(prm, d, i, s)
  {
    hide Manage;
  }

  /** A bar that fills is the bar of the filled walk. */
  lemma FillThenManage(prm: Params, d: Input, i: nat, s: LoopState, t: LoopState)
    requires WellFormed(d) && i < |d.bars| && t == Fill(prm, d, i, s) && t.position.Some?
    ensures StepBar(prm, d, i, s) == StepBar(prm, d, i, t)
  {
    hide Manage, Enter, Counter, Arm;
  }

  /** While nothing fires nothing happens. */
  lemma {:induction false} NothingHappens(prm: Params, d: Input, k: nat)
    requires WellFormed(d) && k <= |d.bars|
    requires forall i :: 0 <= i < k && d.signals[i].Some? ==> d.signals[i].value == Triggers(false, false)
    ensures Run(prm, d, k) == Start()
  {
    hide StepBar;
    if k > prm.warmup {
      NothingHappens(prm, d, k - 1);
      SilentStep(prm, d, k - 1, Start());
    }
  }

  /** A flat walk arms the short of a bar. */
  lemma ArmsShort(prm: Params, d: Input, i: nat)
    requires WellFormed(d) && prm.warmup <= i && i + 1 < |d.bars| && Run(prm, d, i) == Start()
    requires d.signals[i] == Some(Triggers(false, true))
    ensures Run(prm, d, i + 1) == Start().(pending := Some(Pending(Short, d.atr[i].value)))
  {
  }

  /** The short of bar 84 is pending when bar 85 is reached. */
  lemma ArmsAtBar84(prm: Params, bars: seq<Bar>, high: real, low: real, n: nat)
    requires prm.warmup == 80 && IsCase(bars, high, low, n) && FramesSteady(bars, 84)
    ensures Run(prm, InputOf(CASE_FILTERS, Prepare(bars)), 85)
         == Start().(pending := Some(Pending(Short, 4.5 / 14.0)))
  {
    hide Prepare, SignalAt, FramesSteady, Run;
    var d := InputOf(CASE_FILTERS, Prepare(bars));
    forall i | 0 <= i < 84 && d.signals[i].Some? ensures d.signals[i].value == Triggers(false, false) {
      CaseIsQuiet(bars, high, low, n, i);
    }
    NothingHappens(prm, d, 84);
    CaseFires(bars, high, low, n);
    CaseAtr(bars, high, low, n);
    ArmsShort(prm, d, 84);
  }
}
