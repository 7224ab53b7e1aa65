/** Which breaks the SMC walk trades on, from raw bars: every entry mode, tag filter, zone rule and
    structure timeframe. */
module SmcAcceptance {
  import opened Wrappers
  import opened Market
  import opened Costs
  import opened Structure
  import opened StructureBreaks
  import opened Htf
  import opened HtfCausality
  import opened SmcModel
  import opened SmcWalk
  import opened SmcSignals
  import opened SmcCompleteness
  import opened SmcRetests
  import opened SmcCausality

  /** The bars whose structure is traded. */
  predicate OnOwnBars(cfg: Config)
  {
    cfg.mode != HtfSwingMap || cfg.timeframe == M15
  }

  /** The length of a frame bar in seconds. */
  function FrameLength(cfg: Config): posint
  {
    if cfg.timeframe == M15 then 15 * 60 else if cfg.timeframe == H1 then 60 * 60 else 4 * 60 * 60
  }

  function FrameOf(bars: seq<Bar>, cfg: Config): seq<Bar>
  {
    if OnOwnBars(cfg) then bars else HtfBars(bars, FrameLength(cfg))
  }

  /** A break of frame bar `h` is known on trading bar `i`: on the trading bars themselves it is the
      same bar, on a longer frame the first one at or after the close of bar `h`. */
  ghost predicate KnownOn(bars: seq<Bar>, cfg: Config, h: nat, i: nat)
    requires h < |FrameOf(bars, cfg)|
  {
    if OnOwnBars(cfg) then h == i
    else IsFirstAfterClose(bars, FrameOf(bars, cfg)[h].ts + FrameLength(cfg), i)
  }

  ghost predicate BreaksOn(bars: seq<Bar>, cfg: Config, h: nat)
    requires h < |FrameOf(bars, cfg)|
  {
    || Breaks(FrameOf(bars, cfg), cfg.swingLength, h, Long)
    || Breaks(FrameOf(bars, cfg), cfg.swingLength, h, Short)
  }

  /** Frame bar `h` is the latest with a break that is known on trading bar `i`. */
  ghost predicate Carries(bars: seq<Bar>, cfg: Config, i: nat, h: nat)
  {
    && h < |FrameOf(bars, cfg)| && KnownOn(bars, cfg, h, i) && BreaksOn(bars, cfg, h)
    && forall g :: h < g < |FrameOf(bars, cfg)| && KnownOn(bars, cfg, g, i) ==> !BreaksOn(bars, cfg, g)
  }

  // ------------------------------------------------------------ the schedule

  /** The break is that of frame bar `h`, with all its fields, under the trading bar's index. */
  ghost predicate IsCarried(bars: seq<Bar>, cfg: Config, i: nat, h: nat, b: Break)
    requires h < |FrameOf(bars, cfg)|
  {
    && Breaks(FrameOf(bars, cfg), cfg.swingLength, h, b.side)
    && b == BreakOf(FrameOf(bars, cfg), cfg.swingLength, h, b.side).(barIndex := i)
  }

  lemma FrameBreak(bars: seq<Bar>, cfg: Config, i: nat, h: nat)
    requires h < |FrameOf(bars, cfg)|
    ensures
      var b := BreakAt(FrameOf(bars, cfg), cfg.swingLength, h);
      && (BreaksOn(bars, cfg, h) <==> b.Some?)
      && (b.Some? ==> b.value.barIndex == h && IsCarried(bars, cfg, i, h, b.value.(barIndex := i)))
  {
    hide Breaks, BreakAt, FrameOf;
    BreaksExactly(FrameOf(bars, cfg), cfg.swingLength, h, Long);
    BreaksExactly(FrameOf(bars, cfg), cfg.swingLength, h, Short);
    var b := BreakAt(FrameOf(bars, cfg), cfg.swingLength, h);
    assert b.Some? ==> b.value.side == Long || b.value.side == Short;
  }

  lemma FeedsMeans(bars: seq<Bar>, cfg: Config, h: nat, i: nat)
    requires !OnOwnBars(cfg) && h < |FrameOf(bars, cfg)| && i < |bars|
    ensures
      var period := TimeframeSeconds(cfg.timeframe);
      Feeds(HtfBars(bars, period), HtfBreaks(bars, cfg.swingLength, period), bars, period, h, i) <==>
      KnownOn(bars, cfg, h, i) && BreaksOn(bars, cfg, h)
  {
    hide BreakAt, Resample, BreaksOn;
    FrameBreak(bars, cfg, i, h);
  }

  lemma CarriedIsSource(bars: seq<Bar>, cfg: Config, h: nat, i: nat)
    requires !OnOwnBars(cfg) && i < |bars|
    ensures Carries(bars, cfg, i, h) <==>
      SourceAt(bars, cfg.swingLength, TimeframeSeconds(cfg.timeframe), i) == Some(h)
  {
    hide Feeds, HtfBars, HtfBreaks, KnownOn, BreaksOn;
    var period := TimeframeSeconds(cfg.timeframe);
    var htf := HtfBars(bars, period);
    SourceFeeds(htf, HtfBreaks(bars, cfg.swingLength, period), bars, period, |htf|, i);
    forall g | 0 <= g < |htf|
      ensures Feeds(htf, HtfBreaks(bars, cfg.swingLength, period), bars, period, g, i) <==>
        KnownOn(bars, cfg, g, i) && BreaksOn(bars, cfg, g)
    {
      FeedsMeans(bars, cfg, g, i);
    }
  }

  /** The schedule of every configuration, from raw bars: a trading bar has an entry exactly when some
      break is known there, and then it is the latest one, with all its fields. */
  lemma ScheduleExactly(bars: seq<Bar>, cfg: Config, i: nat)
    requires i < |bars|
    ensures i in BreakSchedule(bars, cfg) <==> exists h: nat :: Carries(bars, cfg, i, h)
    ensures forall h: nat :: Carries(bars, cfg, i, h) ==> IsCarried(bars, cfg, i, h, BreakSchedule(bars, cfg)[i])
  {
    hide BreakAt, Carries, Resample, IsCarried, FrameOf, BreaksOn;
    var size, frame := cfg.swingLength, FrameOf(bars, cfg);
    if OnOwnBars(cfg) {
      forall h: nat ensures Carries(bars, cfg, i, h) <==> h == i && BreakAt(bars, size, i).Some? {
        OwnCarries(bars, cfg, i, h);
      }
      assert Carries(bars, cfg, i, i) <==> BreakAt(bars, size, i).Some?;
      OwnFrame(bars, cfg);
      FrameBreak(bars, cfg, i, i);
    } else {
      LongerFrame(bars, cfg);
      var period := TimeframeSeconds(cfg.timeframe);
      var source := SourceAt(bars, size, period, i);
      MappedEntry(frame, HtfBreaks(bars, size, period), bars, period, |frame|, i);
      forall h: nat ensures Carries(bars, cfg, i, h) <==> source == Some(h) {
        CarriedIsSource(bars, cfg, h, i);
      }
      if source.Some? {
        assert Carries(bars, cfg, i, source.value);
        SourceAtFeeds(bars, size, period, i);
        FrameBreak(bars, cfg, i, source.value);
      }
    }
  }

  lemma OwnFrame(bars: seq<Bar>, cfg: Config)
    requires OnOwnBars(cfg)
    ensures FrameOf(bars, cfg) == bars
  {
  }

  lemma LongerFrame(bars: seq<Bar>, cfg: Config)
    requires !OnOwnBars(cfg)
    ensures FrameOf(bars, cfg) == HtfBars(bars, TimeframeSeconds(cfg.timeframe))
  {
  }

  lemma OwnCarries(bars: seq<Bar>, cfg: Config, i: nat, h: nat)
    requires OnOwnBars(cfg) && i < |bars|
    ensures Carries(bars, cfg, i, h) <==> h == i && BreakAt(bars, cfg.swingLength, i).Some?
  {
    hide BreaksOn, BreakAt;
    FrameBreak(bars, cfg, i, i);
  }

  // ------------------------------------------------------------ the filters

  predicate WantsTag(cfg: Config, tag: Tag)
  {
    if cfg.bosOnly then tag == BOS
    else cfg.tagFilter == AllTags || (cfg.tagFilter == OnlyBos <==> tag == BOS)
  }

  /** The close is no further from the end of the range where a trade of this side starts than from
      the other end. */
  predicate InOwnHalf(side: Direction, top: Option<real>, bottom: Option<real>, close: real)
  {
    top.Some? && bottom.Some? && bottom.value < top.value &&
    var (from, to) := if side == Long then (bottom.value, top.value) else (top.value, bottom.value);
    Move(side, from, close) <= Move(side, close, to)
  }

  predicate Wanted(cfg: Config, b: Break, close: real)
  {
    WantsTag(cfg, b.tag) && (cfg.requireZone ==> InOwnHalf(b.side, b.swingTop, b.swingBottom, close))
  }

  lemma AcceptMeans(cfg: Config, b: Break, close: real)
    ensures AcceptBreak(b, close, cfg) <==> Wanted(cfg, b, close)
  {
  }

  /** Some break of this side is known on the bar, is the latest one known there, and passes the
      filters. Its tag, top and bottom are read off the frame's pivots and breaks. */
  ghost predicate SignalsBreak(bars: seq<Bar>, cfg: Config, i: nat, side: Direction)
    requires i < |bars|
  {
    var frame := FrameOf(bars, cfg);
    exists h: nat :: Carries(bars, cfg, i, h) && Breaks(frame, cfg.swingLength, h, side)
           && Wanted(cfg, BreakOf(frame, cfg.swingLength, h, side), bars[i].close)
  }

  predicate HasRange(bars: seq<Bar>, cfg: Config, i: nat)
    requires i < |bars|
  {
    WilderAtr(bars, cfg.atrPeriod, i).Some? && WilderAtr(bars, cfg.atrPeriod, i).value > 0.0
  }

  /** What the schedule says of a bar is what the raw bars signal there. */
  lemma ScheduledSignal(bars: seq<Bar>, cfg: Config, i: nat, side: Direction)
    requires i < |bars|
    ensures
      var m := BreakSchedule(bars, cfg);
      SignalsBreak(bars, cfg, i, side) <==> i in m && m[i].side == side && Wanted(cfg, m[i], bars[i].close)
  {
    hide KnownOn, BreaksOn, BreakSchedule, Wanted, FrameOf, Broken, ClosesAcross, BreakOf, PivotOn;
    ScheduleExactly(bars, cfg, i);
    var m, frame := BreakSchedule(bars, cfg), FrameOf(bars, cfg);
    if i in m {
      var h: nat :| Carries(bars, cfg, i, h);
      assert IsCarried(bars, cfg, i, h, m[i]);
      WantedIgnoresIndex(cfg, BreakOf(frame, cfg.swingLength, h, m[i].side), i, bars[i].close);
      OnlySignal(bars, cfg, i, h, m[i].side, side);
    }
  }

  /** A prepared bar has an accepted break of a side exactly when it has a range and the raw bars
      signal a break of that side there. */
  lemma AcceptedExactly(bars: seq<Bar>, usd: seq<pos>, cfg: Config, i: nat, side: Direction)
    requires |usd| == |bars| && i < |bars|
    ensures
      var p := Prepare(bars, usd, cfg);
      && Ready(p, cfg)
      && (AcceptedAt(p, cfg, i) && p.breaks[i].side == side <==>
          HasRange(bars, cfg, i) && SignalsBreak(bars, cfg, i, side))
  {
    hide SignalsBreak, BreakSchedule, AcceptBreak, Wanted, WilderAtr, LegsInOrder;
    var p := Prepare(bars, usd, cfg);
    PrepareIsReady(bars, usd, cfg);
    ScheduledSignal(bars, cfg, i, side);
    if i in p.breaks {
      AcceptMeans(cfg, p.breaks[i], bars[i].close);
    }
  }

  lemma WantedIgnoresIndex(cfg: Config, b: Break, i: nat, close: real)
    ensures Wanted(cfg, b.(barIndex := i), close) == Wanted(cfg, b, close)
  {
  }

  /** Only one break is carried, and it has one side. */
  lemma OnlySignal(bars: seq<Bar>, cfg: Config, i: nat, h: nat, own: Direction, side: Direction)
    requires i < |bars| && Carries(bars, cfg, i, h) && Breaks(FrameOf(bars, cfg), cfg.swingLength, h, own)
    ensures SignalsBreak(bars, cfg, i, side) <==>
      side == own && Wanted(cfg, BreakOf(FrameOf(bars, cfg), cfg.swingLength, h, side), bars[i].close)
  {
    hide KnownOn, BreaksOn, Broken, ClosesAcross, FrameOf, Wanted, BreakOf, BreakAt, PivotOn;
    var frame := FrameOf(bars, cfg);
    BreaksExactly(frame, cfg.swingLength, h, own);
    BreaksExactly(frame, cfg.swingLength, h, side);
    forall g: nat | Carries(bars, cfg, i, g) ensures g == h {
      CarriesOnce(bars, cfg, i, g, h);
    }
  }

  lemma CarriesOnce(bars: seq<Bar>, cfg: Config, i: nat, g: nat, h: nat)
    requires Carries(bars, cfg, i, g) && Carries(bars, cfg, i, h)
    ensures g == h
  {
    hide KnownOn, BreaksOn, FrameOf;
  }

  /** Without order blocks, from raw bars: an entry of a side is pending after a bar exactly when the
      walk was flat and funded there, there is a bar left to fill it on, the bar has a range, and a
      wanted break of that side is known on it. */
  lemma BreakEntriesExactly(bars: seq<Bar>, usd: seq<pos>, cfg: Config, acct: Account, i: nat, side: Direction)
    requires |usd| == |bars| && i < |bars| && cfg.mode != ObRetest
    ensures
      var p := Prepare(bars, usd, cfg);
      && Ready(p, cfg)
      && var r := Run(p, cfg, acct, i + 1);
      && (r.pending.Some? && r.pending.value.side == side <==>
            && FlatOn(p, cfg, acct, i) && HasFunds(p, cfg, acct, i) && i + 1 < |bars|
            && HasRange(bars, cfg, i) && SignalsBreak(bars, cfg, i, side))
      && (r.pending.Some? ==> Some(r.pending.value.atr) == WilderAtr(bars, cfg.atrPeriod, i))
  {
    hide SignalsBreak, FlatOn, HasFunds, Run, BreakSchedule, AcceptBreak;
    AcceptedExactly(bars, usd, cfg, i, side);
    BreaksAreTakenExactly(Prepare(bars, usd, cfg), cfg, acct, i);
  }

  lemma AcceptedHasSide(bars: seq<Bar>, usd: seq<pos>, cfg: Config, i: nat)
    requires |usd| == |bars| && i < |bars| && Ready(Prepare(bars, usd, cfg), cfg)
    requires AcceptedAt(Prepare(bars, usd, cfg), cfg, i)
    ensures
      var p := Prepare(bars, usd, cfg);
      i in p.breaks && (p.breaks[i].side == Long || p.breaks[i].side == Short)
  {
  }

  /** With order blocks, from raw bars: what the walk arms is the block of a wanted break. */
  lemma ArmsExactly(bars: seq<Bar>, usd: seq<pos>, cfg: Config, acct: Account, a: nat)
    requires |usd| == |bars| && a < |bars| && cfg.mode == ObRetest
    ensures
      var p := Prepare(bars, usd, cfg);
      && Ready(p, cfg)
      && (Arms(p, cfg, acct, a) <==>
            && FlatOn(p, cfg, acct, a) && HasFunds(p, cfg, acct, a) && Run(p, cfg, acct, a + 1).pending.None?
            && HasRange(bars, cfg, a) && (SignalsBreak(bars, cfg, a, Long) || SignalsBreak(bars, cfg, a, Short)))
  {
    hide SignalsBreak, FlatOn, HasFunds, Run, HasRange, AcceptedAt, Prepare, LegsInOrder;
    AcceptedExactly(bars, usd, cfg, a, Long);
    AcceptedExactly(bars, usd, cfg, a, Short);
    if AcceptedAt(Prepare(bars, usd, cfg), cfg, a) {
      AcceptedHasSide(bars, usd, cfg, a);
    }
  }
}
