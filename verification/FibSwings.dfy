/** How every bar moves the swing of the HTF-Fib walk, from raw bars. */
module FibSwings {
  import opened Wrappers
  import opened Market
  import opened Costs
  import opened Htf
  import opened Swing
  import opened SwingRuns
  import opened SwingLegs
  import opened FibModel
  import opened FibSignals
  import opened FibConditions
  import opened FibPivots
  import FibFrames

  /** The swing after the pivot a bar shows, if it shows one. */
  function AfterPivot(h: History, shown: seq<PivotEvent>): History
  {
    if shown == [] then h else Apply(h, Pivot(shown[0]))
  }

  /** The bar goes beyond the start of the leg. */
  predicate RunsThrough(cfg: Config, h: History, bar: Bar)
  {
    && cfg.invalidateSwing && h.swing.direction != 0
    && var side := if h.swing.direction == 1 then Long else Short;
    && StartOf(h.swing, side).Some? && Move(side, StartOf(h.swing, side).value, Tip(side, bar)) < 0.0
  }

  lemma ThroughIsBroken(cfg: Config, h: History, bar: Bar)
    requires LegKnown(h.swing) && LevelsAreDrawn(h)
    ensures SwingBroken(cfg, h.swing, bar) <==> RunsThrough(cfg, h, bar)
  {
    BreaksThroughStart(cfg, h, bar);
    assert h.swing.direction != 0 ==> h.swing.direction == Sign(Long) || h.swing.direction == Sign(Short);
  }

  /** On every bar of a prepared series whose times increase: the one pivot that the bar shows is taken
      first; a bar that then goes beyond the start of the leg ends the swing; nothing else moves it. */
  lemma BarMovesSwing(bars: seq<Bar>, usd: seq<pos>, atrPeriod: posint, period: posint, left: posint, right: posint,
                      cfg: Config, i: nat)
    requires Chronological(bars) && i < |bars|
    ensures
      var d := FibFrames.Prepare(bars, usd, atrPeriod, period, left, right);
      var g := AfterPivot(HistoryAt(d, cfg, i), EventsOn(d, i));
      && |EventsOn(d, i)| <= 1
      && HistoryAt(d, cfg, i + 1) == if RunsThrough(cfg, g, bars[i]) then Apply(g, SwingRuns.Break) else g
  {
    hide FibFrames.Prepare, EventsOn, Apply, RunsThrough, SwingBroken, LevelsAreDrawn, LegKnown, Resample, ConfirmsAt;
    var d := FibFrames.Prepare(bars, usd, atrPeriod, period, left, right);
    var h := HistoryAt(d, cfg, i);
    ShowsAtMostOne(bars, usd, atrPeriod, period, left, right, i);
    LevelsOnBars(d, cfg, i);
    ConsumedLevels(h, EventsOn(d, i));
    OneConsumed(h, EventsOn(d, i));
    ThroughIsBroken(cfg, AfterPivot(h, EventsOn(d, i)), bars[i]);
    NextHistory(d, cfg, i);
  }

  lemma OneConsumed(h: History, events: seq<PivotEvent>)
    requires |events| <= 1
    ensures ConsumeAll(h, events) == AfterPivot(h, events)
  {
    hide Apply;
    if events != [] {
      assert events[1..] == [];
    }
  }

  lemma ShowsAtMostOne(bars: seq<Bar>, usd: seq<pos>, atrPeriod: posint, period: posint, left: posint, right: posint,
                       i: nat)
    requires Chronological(bars) && i < |bars|
    ensures |EventsOn(FibFrames.Prepare(bars, usd, atrPeriod, period, left, right), i)| <= 1
  {
    hide FibFrames.Prepare, EventsOn, Resample, StandsOut, DipsBelow;
    BarShowsPivot(bars, usd, atrPeriod, period, left, right, i);
    var htf := Resample(bars, period, |bars|);
    if c: nat :| ConfirmsAt(htf, c, left, right, bars[i].ts) {
      assert |ShownBy(htf, c, left, right)| <= 1;
    }
  }
}
