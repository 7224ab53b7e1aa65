/** Which breaks the structure tracker emits, told from the recorded pivots, the closes and the
    breaks before, without the tracker's own fields. */
module StructureBreaks {
  import opened Wrappers
  import opened Market
  import opened Structure
  import opened StructureRuns

  /** An earlier break of this side, before bar `i`, was of the pivot on `bar`. */
  ghost predicate Broken(bars: seq<Bar>, size: posint, i: nat, side: Direction, bar: nat)
    requires i <= |bars|
  {
    exists j :: 0 <= j < i && BreakAt(bars, size, j).Some?
      && BreakAt(bars, size, j).value.side == side && BreakAt(bars, size, j).value.pivotBar == bar
  }

  /** The latest swing high (for longs) or low (for shorts) that is confirmed on bar `i`. */
  function PivotOn(bars: seq<Bar>, size: posint, i: nat, side: Direction): Option<Pivot>
    requires i < |bars|
  {
    Latest(PivotLog(bars, size, i + 1), KindBroken(side))
  }

  /** The close moves from the near side of the level to beyond it. */
  predicate ClosesAcross(bars: seq<Bar>, i: nat, side: Direction, level: real)
    requires 0 < i < |bars|
  {
    if side == Long then bars[i - 1].close <= level && level < bars[i].close
    else level <= bars[i - 1].close && bars[i].close < level
  }

  /** The reference meaning of a break: the close crosses the latest confirmed pivot of the side,
      and no break before was of that pivot. */
  ghost predicate Breaks(bars: seq<Bar>, size: posint, i: nat, side: Direction)
    requires i < |bars|
  {
    && size <= i && PivotOn(bars, size, i, side).Some?
    && var p := PivotOn(bars, size, i, side).value;
    && ClosesAcross(bars, i, side, p.level) && !Broken(bars, size, i, side, p.bar)
  }

  function LevelOf(p: Option<Pivot>): Option<real>
  {
    if p.Some? then Some(p.value.level) else None
  }

  /** The first break is a continuation; a later one is, if it goes the way of the one before. */
  function TagAfter(last: Option<Break>, side: Direction): Tag
  {
    if last.Some? && last.value.side != side then CHoCH else BOS
  }

  /** All fields of the break of this side. */
  function BreakOf(bars: seq<Bar>, size: posint, i: nat, side: Direction): Break
    requires i < |bars| && PivotOn(bars, size, i, side).Some?
  {
    var p := PivotOn(bars, size, i, side).value;
    Break(i, side, TagAfter(LastBreak(bars, size, i), side), p.level, p.bar,
          LevelOf(PivotOn(bars, size, i, Long)), LevelOf(PivotOn(bars, size, i, Short)))
  }

  // ------------------------------------------------------------ the tracker's fields

  /** The swing top and bottom are the levels of the tracker's two pivots. */
  lemma {:induction false} TopAndBottomAreLevels(bars: seq<Bar>, size: posint, k: nat)
    requires k <= |bars|
    ensures RunTracker(bars, size, k).swingTop == RunTracker(bars, size, k).swingHigh.currentLevel
    ensures RunTracker(bars, size, k).swingBottom == RunTracker(bars, size, k).swingLow.currentLevel
  {
    if k > 0 {
      TopAndBottomAreLevels(bars, size, k - 1);
    }
  }

  /** The mark on a pivot says whether an earlier break was of it. */
  predicate MarkIs(p: PivotState, broken: bool)
  {
    p.currentLevel.Some? ==> (p.crossed <==> broken)
  }

  /** Breaks before bar `i` are of pivots confirmed before it. */
  lemma BrokenIsEarlier(bars: seq<Bar>, size: posint, i: nat, side: Direction, bar: nat)
    requires i <= |bars| && Broken(bars, size, i, side, bar)
    ensures bar + size < i
  {
    var j :| 0 <= j < i && BreakAt(bars, size, j).Some?
      && BreakAt(bars, size, j).value.side == side && BreakAt(bars, size, j).value.pivotBar == bar;
    BrokenPivotStaysSpent(bars, size, j, j + 1);
  }

  lemma BrokenGrows(bars: seq<Bar>, size: posint, i: nat, side: Direction, bar: nat)
    requires i < |bars|
    ensures Broken(bars, size, i + 1, side, bar) <==>
      || Broken(bars, size, i, side, bar)
      || (BreakAt(bars, size, i).Some? && BreakAt(bars, size, i).value.side == side
          && BreakAt(bars, size, i).value.pivotBar == bar)
  {
    hide BreakAt;
  }

  /** Turning the leg keeps the marks right: a new pivot is unbroken. */
  lemma TurnKeepsMarks(bars: seq<Bar>, size: posint, i: nat, side: Direction)
    requires size <= i < |bars|
    requires
      var p := PivotOf(RunTracker(bars, size, i), side);
      MarkIs(p, Broken(bars, size, i, side, p.barIndex))
    ensures
      var p := PivotOf(Turn(RunTracker(bars, size, i), size, bars, i), side);
      MarkIs(p, Broken(bars, size, i, side, p.barIndex))
  {
    hide Broken, RunTracker, LegAfter;
    if Broken(bars, size, i, side, i - size) {
      BrokenIsEarlier(bars, size, i, side, i - size);
      assert false;
    }
  }

  lemma {:induction false} MarksAreBreaks(bars: seq<Bar>, size: posint, k: nat, side: Direction)
    requires k <= |bars|
    ensures
      var p := PivotOf(RunTracker(bars, size, k), side);
      MarkIs(p, Broken(bars, size, k, side, p.barIndex))
  {
    hide Broken, Turn;
    if k > 0 {
      MarksAreBreaks(bars, size, k - 1, side);
      var before := RunTracker(bars, size, k - 1);
      var p := PivotOf(RunTracker(bars, size, k), side);
      BrokenGrows(bars, size, k - 1, side, p.barIndex);
      if size <= k - 1 {
        TurnKeepsMarks(bars, size, k - 1, side);
      }
    }
  }

  /** The tracker when the closes of bar `i` are looked at. */
  lemma TurnedTracker(bars: seq<Bar>, size: posint, i: nat, side: Direction)
    requires size <= i < |bars|
    ensures
      var t := Turn(RunTracker(bars, size, i), size, bars, i);
      var p := PivotOn(bars, size, i, side);
      && Holds(PivotOf(t, side), p)
      && (p.Some? ==> (PivotOf(t, side).crossed <==> Broken(bars, size, i, side, p.value.bar)))
      && t.swingTop == LevelOf(PivotOn(bars, size, i, Long))
      && t.swingBottom == LevelOf(PivotOn(bars, size, i, Short))
  {
    hide Broken, Turn, PivotLog, Latest;
    MarksAreBreaks(bars, size, i, side);
    TurnKeepsMarks(bars, size, i, side);
    TrackerHoldsLatest(bars, size, i + 1);
    TopAndBottomAreLevels(bars, size, i + 1);
    assert RunTracker(bars, size, i + 1) == Cross(Turn(RunTracker(bars, size, i), size, bars, i), bars, i).0;
  }

  lemma TurnKeepsBias(t: Tracker, size: posint, bars: seq<Bar>, i: nat)
    requires size <= i < |bars|
    ensures Turn(t, size, bars, i).trendBias == t.trendBias
  {
  }

  /** On every series, and for both sides, the tracker emits a break on a bar exactly when the close
      crosses the latest pivot of the side confirmed by then and no break before was of that pivot;
      and then all its fields are those of the pivots and of the break before. */
  lemma BreaksExactly(bars: seq<Bar>, size: posint, i: nat, side: Direction)
    requires i < |bars|
    ensures BreakAt(bars, size, i).Some? && BreakAt(bars, size, i).value.side == side <==> Breaks(bars, size, i, side)
    ensures Breaks(bars, size, i, side) ==> BreakAt(bars, size, i) == Some(BreakOf(bars, size, i, side))
  {
    hide Broken, Turn, PivotLog, Latest, LastBreak, RunTracker;
    if size <= i {
      TurnedTracker(bars, size, i, Long);
      TurnedTracker(bars, size, i, Short);
      BiasIsLastBreak(bars, size, i);
      TurnKeepsBias(RunTracker(bars, size, i), size, bars, i);
    }
  }

  // ------------------------------------------------------------ on valid bars

  /** A pivot that bar `i` itself confirms lies beyond the bar's close. */
  lemma NewPivotIsNotCrossed(bars: seq<Bar>, size: posint, i: nat)
    requires size <= i < |bars| && ValidBars(bars) && PivotAt(bars, size, i).Some?
    ensures
      var p := PivotAt(bars, size, i).value;
      !ClosesAcross(bars, i, if p.kind == SwingHigh then Long else Short, p.level)
  {
    hide PivotAt;
    PivotAtIsSwing(bars, size, i);
    assert ValidBar(bars[i]);
  }

  /** Bar `i` confirms a pivot of the kind that this side breaks. */
  predicate Renewed(bars: seq<Bar>, size: posint, i: nat, side: Direction)
    requires i < |bars|
  {
    PivotAt(bars, size, i).Some? && PivotAt(bars, size, i).value.kind == KindBroken(side)
  }

  /** On valid bars a break is of a pivot confirmed on an earlier bar: it is emitted exactly when the
      close crosses the latest one of those, unbroken so far, and the bar does not confirm a newer
      one, which would take its place first. */
  lemma BreaksOfEarlierPivots(bars: seq<Bar>, size: posint, i: nat, side: Direction)
    requires i < |bars| && ValidBars(bars)
    ensures
      var p := Latest(PivotLog(bars, size, i), KindBroken(side));
      Breaks(bars, size, i, side) <==>
        && size <= i && p.Some? && ClosesAcross(bars, i, side, p.value.level)
        && !Broken(bars, size, i, side, p.value.bar) && !Renewed(bars, size, i, side)
  {
    hide Broken, PivotAt, Latest, ValidBars;
    var log := PivotLog(bars, size, i);
    match PivotAt(bars, size, i)
    case None =>
      assert PivotLog(bars, size, i + 1) == log;
    case Some(q) =>
      LatestSnoc(log, q, KindBroken(side));
      if size <= i {
        NewPivotIsNotCrossed(bars, size, i);
      }
  }

  /** Five bars, one bar on each side of a pivot, whose last one both closes above the swing high at
      11 and confirms the newer one at 13. */
  const RENEWED_HIGH := [
    Bar(0, 9.5, 10.0, 9.0, 9.5), Bar(1, 10.5, 11.0, 10.0, 10.5), Bar(2, 10.0, 10.5, 9.8, 10.0),
    Bar(3, 10.5, 13.0, 10.0, 10.5), Bar(4, 11.0, 12.0, 10.5, 11.5)]

  /** The last condition matters: no break is emitted although the close crosses the latest swing
      high of the bars before, which no break was of. */
  lemma RenewedHighIsNoBreak()
    ensures ValidBars(RENEWED_HIGH) && PivotLog(RENEWED_HIGH, 1, 4)[1] == Pivot(SwingHigh, 1, 11.0, 2)
    ensures Latest(PivotLog(RENEWED_HIGH, 1, 4), SwingHigh) == Some(PivotLog(RENEWED_HIGH, 1, 4)[1])
    ensures ClosesAcross(RENEWED_HIGH, 4, Long, 11.0) && !Broken(RENEWED_HIGH, 1, 4, Long, 1)
    ensures BreakAt(RENEWED_HIGH, 1, 4) == None
  {
    var x := RENEWED_HIGH;
    var t1 := RunTracker(x, 1, 1);
    assert t1 == NEW_TRACKER && BreakAt(x, 1, 0) == None;
    assert MaxHigh(x, 1, 2) == 11.0 && MinLow(x, 1, 2) == 10.0;
    var t2 := RunTracker(x, 1, 2);
    assert t2.leg == BullishLeg && t2.swingLow == PivotState(Some(9.0), None, false, 0) && BreakAt(x, 1, 1) == None;
    assert MaxHigh(x, 2, 3) == 10.5 && MinLow(x, 2, 3) == 9.8;
    var t3 := RunTracker(x, 1, 3);
    assert t3.leg == BearishLeg && t3.swingHigh == PivotState(Some(11.0), None, false, 1) && BreakAt(x, 1, 2) == None;
    assert MaxHigh(x, 3, 4) == 13.0 && MinLow(x, 3, 4) == 10.0;
    var t4 := RunTracker(x, 1, 4);
    assert t4.leg == BullishLeg && t4.swingHigh == t3.swingHigh && BreakAt(x, 1, 3) == None;
    assert MaxHigh(x, 4, 5) == 12.0 && MinLow(x, 4, 5) == 10.5;
    assert BreakAt(x, 1, 4) == None;
    var high, low := Pivot(SwingHigh, 1, 11.0, 2), Pivot(SwingLow, 2, 9.8, 3);
    assert PivotLog(x, 1, 2) == [Pivot(SwingLow, 0, 9.0, 1)];
    assert PivotLog(x, 1, 4) == [Pivot(SwingLow, 0, 9.0, 1), high] + [low];
    LatestSnoc([Pivot(SwingLow, 0, 9.0, 1)], high, SwingHigh);
    LatestSnoc([Pivot(SwingLow, 0, 9.0, 1)] + [high], low, SwingHigh);
  }
}
