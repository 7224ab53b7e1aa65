/** What the bar before every HTF-Fib entry shows, read off its fields and the last drawn swing. */
module FibConditions {
  import opened Wrappers
  import opened Market
  import opened Costs
  import opened Brackets
  import opened Swing
  import opened SwingRuns
  import opened SwingLegs
  import opened FibModel
  import opened FibWalk
  import opened FibSignals
  import opened FibCompleteness
  import opened FibEntries

  /** The close has given back between 61.8 and 78.6 percent of the leg. */
  predicate PullsBack(side: Direction, leg: Drawn, close: real)
  {
    var from, to := DrawnFrom(leg, side), DrawnTo(leg, side);
    0.618 * Move(side, from, to) <= Move(side, close, to) <= 0.786 * Move(side, from, to)
  }

  /** The close lies beyond the long average, and beyond the short one beyond it if they must stack. */
  predicate WithTrend(cfg: Config, side: Direction, close: real, ema50: real, ema200: real)
  {
    if cfg.requireEmaStack then Move(side, ema50, close) > 0.0 && Move(side, ema200, ema50) > 0.0
    else Move(side, ema200, close) > 0.0
  }

  /** An RSI has gone against the side as far as its bound: low for a long, high for a short. */
  predicate Pressed(cfg: Config, side: Direction, rsi: Option<real>)
  {
    rsi.Some? && Move(side, rsi.value, if side == Long then cfg.rsiLong else cfg.rsiShort) >= 0.0
  }

  /** The bar closes in the direction of the side, beyond its open and the close before. */
  predicate TurnsBack(side: Direction, bar: Bar, previousClose: real)
  {
    Move(side, bar.open, bar.close) > 0.0 && Move(side, previousClose, bar.close) > 0.0
  }

  /** The reference meaning of an entry condition, for both sides at once. */
  predicate Shows(d: Features, cfg: Config, i: nat, side: Direction)
    requires WellFormed(d) && i < |d.bars|
  {
    var h, bar := HistoryAt(d, cfg, i + 1), d.bars[i];
    && d.atr[i].Some? && d.rsi15[i].Some? && d.rsi30[i].Some? && d.rsi1h[i].Some?
    && h.swing.direction == Sign(side) && h.drawn.Some?
    && PullsBack(side, h.drawn.value, bar.close)
    && WithTrend(cfg, side, bar.close, d.ema50[i], d.ema200[i])
    && Pressed(cfg, side, d.rsi15[i])
    && (cfg.requireMtfRsi ==> Pressed(cfg, side, d.rsi30[i]) && Pressed(cfg, side, d.rsi1h[i]))
    && (cfg.requireCandle ==> TurnsBack(side, bar, if i > 0 then d.bars[i - 1].close else bar.close))
  }

  lemma {:induction false} ConsumedLevels(h: History, events: seq<PivotEvent>)
    requires LegKnown(h.swing) && LevelsAreDrawn(h)
    ensures LegKnown(ConsumeAll(h, events).swing) && LevelsAreDrawn(ConsumeAll(h, events))
    decreases |events|
  {
    hide LevelsAreDrawn, Apply, LegKnown;
    if events != [] {
      ApplyKeepsLevels(h, Pivot(events[0]));
      ConsumedLevels(Apply(h, Pivot(events[0])), events[1..]);
    }
  }

  /** On every bar the levels are the retracements of the last drawn swing. */
  lemma {:induction false} LevelsOnBars(d: Features, cfg: Config, k: nat)
    requires k <= |d.bars|
    ensures LegKnown(HistoryAt(d, cfg, k).swing) && LevelsAreDrawn(HistoryAt(d, cfg, k))
  {
    hide LevelsAreDrawn, Apply, LegKnown;
    if k == 0 {
      BeginsUndrawn();
    } else {
      LevelsOnBars(d, cfg, k - 1);
      var h := HistoryAt(d, cfg, k - 1);
      ConsumedLevels(h, EventsOn(d, k - 1));
      ApplyKeepsLevels(ConsumeAll(h, EventsOn(d, k - 1)), SwingRuns.Break);
    }
  }

  /** Price has run through the start of the leg, which ends the swing. */
  lemma BreaksThroughStart(cfg: Config, h: History, bar: Bar)
    requires LegKnown(h.swing) && LevelsAreDrawn(h)
    ensures SwingBroken(cfg, h.swing, bar) <==>
      cfg.invalidateSwing && exists side ::
        h.swing.direction == Sign(side) && Move(side, StartOf(h.swing, side).value, Tip(side, bar)) < 0.0
  {
    assert Sign(Long) == 1 && Sign(Short) == -1;
  }

  /** A close between the two levels is a pull-back of 61.8 to 78.6 percent. */
  lemma BetweenLevels(h: History, side: Direction, close: real)
    requires h.swing.direction == Sign(side) && LevelsAreDrawn(h)
    ensures h.drawn.Some? && h.swing.fib618.Some? && h.swing.fib786.Some?
    ensures PullsBack(side, h.drawn.value, close) <==>
      if side == Long then h.swing.fib786.value <= close <= h.swing.fib618.value
      else h.swing.fib618.value <= close <= h.swing.fib786.value
  {
  }

  lemma SignalMeans(d: Features, cfg: Config, i: nat, side: Direction)
    requires WellFormed(d) && i < |d.bars|
    ensures SignalOn(d, cfg, i, side) <==> Shows(d, cfg, i, side)
  {
    hide HistoryAt, PullsBack, LevelsAreDrawn, LegKnown;
    LevelsOnBars(d, cfg, i + 1);
    var h := HistoryAt(d, cfg, i + 1);
    if h.swing.direction == Sign(side) {
      BetweenLevels(h, side, d.bars[i].close);
    }
  }

  /** The bar before every entry of every run shows the condition of its side: its close has given
      back 61.8 to 78.6 percent of the last drawn swing, beyond the averages in the direction of the
      trade, with every RSI that counts at or past its bound and the candle that is asked for. */
  lemma EntriesShowConditions(d: Features, cfg: Config, prm: Params, k: nat, b: Bracket)
    requires WellFormed(d) && k <= |d.bars| && Run(d, cfg, prm, k).Ok?
    requires
      var s := Run(d, cfg, prm, k).value;
      s.position == Some(b) || exists t :: t in s.trades && t.bracket == b
    ensures 0 < b.entryIndex < |d.bars| && Shows(d, cfg, b.entryIndex - 1, b.side)
  {
    hide SignalOn, Shows, Run, Fresh, MemoryIs, PendingIsGenuine, StopDistance, EntryBracket;
    SignalsAreGenuine(d, cfg, prm, k);
    SignalMeans(d, cfg, b.entryIndex - 1, b.side);
  }

  /** The condition of the side has just become true on bar `i`, or the bar before was not tested
      because a position was held, and no entry was signalled on this swing yet, if that counts. */
  predicate Enters(d: Features, cfg: Config, s: FibState, i: nat, side: Direction)
    requires WellFormed(d) && i < |d.bars|
  {
    && i + 1 < |d.bars| && Shows(d, cfg, i, side)
    && !(cfg.oneEntryPerSwing && HistoryAt(d, cfg, i + 1).swing.version in s.armed)
    && !(i > 0 && Shows(d, cfg, i - 1, side) && s.position.None?)
  }

  lemma OneSideShows(d: Features, cfg: Config, i: nat)
    requires WellFormed(d) && i < |d.bars|
    ensures !(Shows(d, cfg, i, Long) && Shows(d, cfg, i, Short))
  {
  }

  /** Over every run that raises no exception: a walk that is flat after bar `i` has an entry of a side
      pending exactly when the bar enters on that side, and one that holds a position has none. */
  lemma EntriesExactly(d: Features, cfg: Config, prm: Params, i: nat, side: Direction)
    requires WellFormed(d) && i < |d.bars|
    ensures Run(d, cfg, prm, i + 1).Ok? ==>
      && Run(d, cfg, prm, i).Ok?
      && var s, r := Run(d, cfg, prm, i).value, Run(d, cfg, prm, i + 1).value;
      && (r.pending.Some? && r.pending.value.side == side <==> r.position.None? && Enters(d, cfg, s, i, side))
      && (r.pending.Some? ==> Some(r.pending.value.atr) == d.atr[i])
  {
    hide SignalOn, Shows, Run, HistoryAt;
    SignalsAreTakenExactly(d, cfg, prm, i);
    OneSideShows(d, cfg, i);
    SignalMeans(d, cfg, i, Long);
    SignalMeans(d, cfg, i, Short);
    if i > 0 {
      SignalMeans(d, cfg, i - 1, Long);
      SignalMeans(d, cfg, i - 1, Short);
    }
    HasAtr(d, cfg, i);
    if cfg.oneEntryPerSwing && Run(d, cfg, prm, i + 1).Ok? {
      RunRemembers(d, cfg, prm, i);
      TradedExactly(d, cfg, prm, i);
      NextHistory(d, cfg, i);
    }
  }

  lemma NextHistory(d: Features, cfg: Config, i: nat)
    requires i < |d.bars|
    ensures HistoryAt(d, cfg, i + 1) == SwingOn(d, cfg, i, HistoryAt(d, cfg, i))
  {
  }

  lemma HasAtr(d: Features, cfg: Config, i: nat)
    requires WellFormed(d) && i < |d.bars|
    ensures Shows(d, cfg, i, Long) || Shows(d, cfg, i, Short) ==> d.atr[i].Some?
  {
  }
}
