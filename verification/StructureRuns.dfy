/** What holds of every run of the structure tracker. */
module StructureRuns {
  import opened Wrappers
  import opened Market
  import opened Structure

  datatype Kind = SwingHigh | SwingLow

  /** A recorded pivot: the bar it lies on, its level, and the bar that confirmed it. */
  datatype Pivot = Pivot(kind: Kind, bar: nat, level: real, confirmed: nat)

  /** The reference notion of a swing high: strictly above each of the next `size` bars. */
  ghost predicate IsSwingHigh(bars: seq<Bar>, b: nat, size: posint)
    requires b + size < |bars|
  {
    forall j :: b < j <= b + size ==> bars[j].high < bars[b].high
  }

  ghost predicate IsSwingLow(bars: seq<Bar>, b: nat, size: posint)
    requires b + size < |bars|
  {
    forall j :: b < j <= b + size ==> bars[b].low < bars[j].low
  }

  lemma {:induction false} AboveMax(bars: seq<Bar>, lo: nat, hi: nat, x: real)
    requires lo < hi <= |bars|
    ensures x > MaxHigh(bars, lo, hi) <==> forall j :: lo <= j < hi ==> bars[j].high < x
  {
    if hi > lo + 1 {
      AboveMax(bars, lo, hi - 1, x);
    }
  }

  lemma {:induction false} BelowMin(bars: seq<Bar>, lo: nat, hi: nat, x: real)
    requires lo < hi <= |bars|
    ensures x < MinLow(bars, lo, hi) <==> forall j :: lo <= j < hi ==> x < bars[j].low
  {
    if hi > lo + 1 {
      BelowMin(bars, lo, hi - 1, x);
    }
  }

  /** The leg turns by the swing-point test on the bar `size` bars back, the high first. */
  lemma LegTurnsOnSwingPoints(t: Tracker, bars: seq<Bar>, size: posint, i: nat)
    requires size <= i < |bars|
    ensures LegAfter(t, size, bars, i) ==
      if IsSwingHigh(bars, i - size, size) then BearishLeg
      else if IsSwingLow(bars, i - size, size) then BullishLeg
      else t.leg
  {
    AboveMax(bars, i - size + 1, i + 1, bars[i - size].high);
    BelowMin(bars, i - size + 1, i + 1, bars[i - size].low);
  }

  /** The pivot recorded while bar `i` is processed. */
  function PivotAt(bars: seq<Bar>, size: posint, i: nat): Option<Pivot>
    requires i < |bars|
  {
    var before := RunTracker(bars, size, i);
    if i < size || Turn(before, size, bars, i).leg == before.leg then None
    else if before.leg == BullishLeg then Some(Pivot(SwingHigh, i - size, bars[i - size].high, i))
    else Some(Pivot(SwingLow, i - size, bars[i - size].low, i))
  }

  /** All pivots recorded in the first `k` bars, in order. */
  function PivotLog(bars: seq<Bar>, size: posint, k: nat): seq<Pivot>
    requires k <= |bars|
  {
    if k == 0 then []
    else
      PivotLog(bars, size, k - 1) +
      match PivotAt(bars, size, k - 1) { case Some(p) => [p] case None => [] }
  }

  function KindInOrder(j: nat): Kind
  {
    if j % 2 == 0 then SwingLow else SwingHigh
  }

  /** Pivots alternate strictly, starting with a low; the leg says which comes next. */
  lemma {:induction false} PivotsAlternate(bars: seq<Bar>, size: posint, k: nat)
    requires k <= |bars|
    ensures forall j :: 0 <= j < |PivotLog(bars, size, k)| ==> PivotLog(bars, size, k)[j].kind == KindInOrder(j)
    ensures RunTracker(bars, size, k).leg == BearishLeg <==> KindInOrder(|PivotLog(bars, size, k)|) == SwingLow
  {
    if k > 0 {
      PivotsAlternate(bars, size, k - 1);
    }
  }

  /** A pivot at its true price, confirmed `size` bars after it by what followed. */
  ghost predicate IsConfirmedSwing(p: Pivot, bars: seq<Bar>, size: posint)
  {
    && p.confirmed == p.bar + size < |bars|
    && (p.kind == SwingHigh ==> p.level == bars[p.bar].high && IsSwingHigh(bars, p.bar, size))
    && (p.kind == SwingLow ==> p.level == bars[p.bar].low && IsSwingLow(bars, p.bar, size))
  }

  lemma PivotAtIsSwing(bars: seq<Bar>, size: posint, i: nat)
    requires i < |bars| && PivotAt(bars, size, i).Some?
    ensures PivotAt(bars, size, i).value.confirmed == i
    ensures IsConfirmedSwing(PivotAt(bars, size, i).value, bars, size)
  {
    LegTurnsOnSwingPoints(RunTracker(bars, size, i), bars, size, i);
  }

  /** Every recorded pivot is a true swing point, known only `size` bars later; confirmation
      bars are strictly increasing. */
  lemma {:induction false} PivotsAreSwingPoints(bars: seq<Bar>, size: posint, k: nat)
    requires k <= |bars|
    ensures forall p :: p in PivotLog(bars, size, k) ==> p.confirmed < k && IsConfirmedSwing(p, bars, size)
    ensures forall i, j :: 0 <= i < j < |PivotLog(bars, size, k)| ==>
                             PivotLog(bars, size, k)[i].confirmed < PivotLog(bars, size, k)[j].confirmed
  {
    hide IsSwingHigh, IsSwingLow, IsConfirmedSwing, RunTracker, PivotAt;
    if k > 0 {
      PivotsAreSwingPoints(bars, size, k - 1);
      var log := PivotLog(bars, size, k - 1);
      forall j | 0 <= j < |log| ensures log[j].confirmed < k - 1 {
        assert log[j] in log;
      }
      if PivotAt(bars, size, k - 1).Some? {
        PivotAtIsSwing(bars, size, k - 1);
      } else {
        assert PivotLog(bars, size, k) == log;
      }
    }
  }

  /** No swing point that the alternation allows is missed: a pivot is recorded at bar `i`
      exactly when bar `i - size` is a swing high and the last pivot was a low, or it is a
      swing low only and the last pivot, if any, was a high. */
  lemma PivotRecordedExactly(bars: seq<Bar>, size: posint, i: nat)
    requires size <= i < |bars|
    ensures
      var log := PivotLog(bars, size, i);
      var lastWasLow := |log| > 0 && log[|log| - 1].kind == SwingLow;
      PivotAt(bars, size, i).Some? <==>
        if IsSwingHigh(bars, i - size, size) then lastWasLow
        else IsSwingLow(bars, i - size, size) && !lastWasLow
  {
    hide IsSwingHigh, IsSwingLow, RunTracker, PivotLog, LegAfter;
    LegTurnsOnSwingPoints(RunTracker(bars, size, i), bars, size, i);
    PivotsAlternate(bars, size, i);
    var log := PivotLog(bars, size, i);
    if |log| > 0 {
      assert log[|log| - 1].kind == KindInOrder(|log| - 1);
    }
  }

  /** The latest pivot of one kind. */
  function Latest(log: seq<Pivot>, kind: Kind): Option<Pivot>
  {
    if log == [] then None
    else if log[|log| - 1].kind == kind then Some(log[|log| - 1])
    else Latest(log[..|log| - 1], kind)
  }

  lemma LatestSnoc(log: seq<Pivot>, p: Pivot, kind: Kind)
    ensures Latest(log + [p], kind) == if p.kind == kind then Some(p) else Latest(log, kind)
  {
    assert (log + [p])[..|log|] == log;
  }

  lemma {:induction false} LatestIsLogged(log: seq<Pivot>, kind: Kind)
    requires Latest(log, kind).Some?
    ensures Latest(log, kind).value in log && Latest(log, kind).value.kind == kind
  {
    if log[|log| - 1].kind != kind {
      LatestIsLogged(log[..|log| - 1], kind);
    }
  }

  predicate Holds(s: PivotState, p: Option<Pivot>)
  {
    match p
    case None => s.currentLevel == None
    case Some(q) => s.currentLevel == Some(q.level) && s.barIndex == q.bar
  }

  lemma NothingLogged()
    ensures Latest([], SwingHigh) == None && Latest([], SwingLow) == None
  {
  }

  /** The tracker's two levels are the latest logged high and low. */
  lemma {:induction false} TrackerHoldsLatest(bars: seq<Bar>, size: posint, k: nat)
    requires k <= |bars|
    ensures Holds(RunTracker(bars, size, k).swingHigh, Latest(PivotLog(bars, size, k), SwingHigh))
    ensures Holds(RunTracker(bars, size, k).swingLow, Latest(PivotLog(bars, size, k), SwingLow))
  {
    hide Latest;
    if k == 0 {
      NothingLogged();
    } else {
      TrackerHoldsLatest(bars, size, k - 1);
      var log := PivotLog(bars, size, k - 1);
      match PivotAt(bars, size, k - 1)
      case Some(p) =>
        LatestSnoc(log, p, SwingHigh);
        LatestSnoc(log, p, SwingLow);
      case None =>
        assert PivotLog(bars, size, k) == log;
    }
  }

  function KindBroken(side: Direction): Kind
  {
    if side == Long then SwingHigh else SwingLow
  }

  /** A break crosses, on the close, the latest confirmed pivot of its side, and comes
      strictly after the bar that confirmed it. */
  lemma BreakCrossesConfirmedPivot(bars: seq<Bar>, size: posint, i: nat)
    requires i < |bars| && ValidBars(bars) && BreakAt(bars, size, i).Some?
    ensures
      var b := BreakAt(bars, size, i).value;
      var p := Latest(PivotLog(bars, size, i), KindBroken(b.side));
      && b.barIndex == i && i > 0 && p.Some?
      && b.pivotLevel == p.value.level && b.pivotBar == p.value.bar
      && p.value.confirmed < i
      && (b.side == Long ==> bars[i - 1].close <= b.pivotLevel < bars[i].close)
      && (b.side == Short ==> bars[i - 1].close >= b.pivotLevel > bars[i].close)
  {
    hide PivotLog, RunTracker, Latest;
    TrackerHoldsLatest(bars, size, i);
    var b, log := BreakAt(bars, size, i).value, PivotLog(bars, size, i);
    var before := RunTracker(bars, size, i);
    // A level recorded on this very bar is beyond the bar's close.
    MaxHighBounds(bars, i - size + 1, i + 1, i);
    MinLowBounds(bars, i - size + 1, i + 1, i);
    assert PivotOf(Turn(before, size, bars, i), b.side) == PivotOf(before, b.side);
    LatestIsLogged(log, KindBroken(b.side));
    PivotsAreSwingPoints(bars, size, i);
  }

  function PivotOf(t: Tracker, side: Direction): PivotState
  {
    if side == Long then t.swingHigh else t.swingLow
  }

  lemma {:induction false} LevelsAreConfirmed(bars: seq<Bar>, size: posint, k: nat, side: Direction)
    requires k <= |bars|
    ensures PivotOf(RunTracker(bars, size, k), side).currentLevel.Some? ==>
      PivotOf(RunTracker(bars, size, k), side).barIndex + size < k
  {
    if k > 0 {
      LevelsAreConfirmed(bars, size, k - 1, side);
    }
  }

  /** The pivot on `bar` has been broken, or a later one has replaced it. */
  predicate Spent(p: PivotState, bar: nat)
  {
    p.currentLevel.Some? && (p.barIndex > bar || (p.barIndex == bar && p.crossed))
  }

  lemma SpentIsKept(t: Tracker, size: posint, bars: seq<Bar>, i: nat, side: Direction, bar: nat)
    requires i < |bars| && Spent(PivotOf(t, side), bar) && bar + size < i
    ensures Spent(PivotOf(TrackBar(t, size, bars, i).0, side), bar)
  {
    assert Spent(PivotOf(Turn(t, size, bars, i), side), bar);
  }

  /** After a break its pivot stays spent until a later pivot replaces it. */
  lemma {:induction false} BrokenPivotStaysSpent(bars: seq<Bar>, size: posint, i: nat, k: nat)
    requires i < k <= |bars| && BreakAt(bars, size, i).Some?
    ensures
      var b := BreakAt(bars, size, i).value;
      b.pivotBar + size < k && Spent(PivotOf(RunTracker(bars, size, k), b.side), b.pivotBar)
  {
    var side := BreakAt(bars, size, i).value.side;
    if k == i + 1 {
      LevelsAreConfirmed(bars, size, k, side);
    } else {
      BrokenPivotStaysSpent(bars, size, i, k - 1);
      SpentIsKept(RunTracker(bars, size, k - 1), size, bars, k - 1, side, BreakAt(bars, size, i).value.pivotBar);
    }
  }

  /** Each pivot emits at most one break: a later break of the same side is of a later pivot. */
  lemma BreaksOfOneSideUseLaterPivots(bars: seq<Bar>, size: posint, i: nat, j: nat)
    requires i < j < |bars|
    requires BreakAt(bars, size, i).Some? && BreakAt(bars, size, j).Some?
    requires BreakAt(bars, size, i).value.side == BreakAt(bars, size, j).value.side
    ensures BreakAt(bars, size, i).value.pivotBar < BreakAt(bars, size, j).value.pivotBar
  {
    BrokenPivotStaysSpent(bars, size, i, j);
    LevelsAreConfirmed(bars, size, j, BreakAt(bars, size, i).value.side);
  }

  /** The most recent break of the first `k` bars. */
  function LastBreak(bars: seq<Bar>, size: posint, k: nat): Option<Break>
    requires k <= |bars|
  {
    if k == 0 then None
    else if BreakAt(bars, size, k - 1).Some? then BreakAt(bars, size, k - 1)
    else LastBreak(bars, size, k - 1)
  }

  lemma {:induction false} BiasIsLastBreak(bars: seq<Bar>, size: posint, k: nat)
    requires k <= |bars|
    ensures RunTracker(bars, size, k).trendBias ==
      match LastBreak(bars, size, k)
      case None => 0
      case Some(b) => if b.side == Long then 1 else -1
  {
    if k > 0 {
      BiasIsLastBreak(bars, size, k - 1);
    }
  }

  /** A break is a change of character exactly when the break before it went the other way. */
  lemma ChangeOfCharacter(bars: seq<Bar>, size: posint, i: nat)
    requires i < |bars| && BreakAt(bars, size, i).Some?
    ensures BreakAt(bars, size, i).value.tag == CHoCH <==>
      LastBreak(bars, size, i).Some? && LastBreak(bars, size, i).value.side != BreakAt(bars, size, i).value.side
  {
    BiasIsLastBreak(bars, size, i);
  }
}
