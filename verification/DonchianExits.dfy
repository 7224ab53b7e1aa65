/** The whole life of every Donchian trade, against a reference definition that reads it off the
    bars: where it was entered, which stop was in force on each bar, and why and where it left. */
module DonchianExits {
  import opened Wrappers
  import opened Market
  import opened Donchian
  import opened DonchianStops

  /** The bar fires a signal for this side; a long signal goes first. */
  predicate Fires(d: Input, i: int, side: Direction)
  {
    && 0 <= i < |d.signals| && i < |d.atr| && d.signals[i].Some? && HasAtr(d.atr[i])
    && if side == Long then d.signals[i].value.long else d.signals[i].value.short && !d.signals[i].value.long
  }

  predicate Opposed(d: Input, i: nat, side: Direction)
    requires i < |d.signals|
  {
    d.signals[i].Some? && if side == Long then d.signals[i].value.short else d.signals[i].value.long
  }

  /** The position that a signal on the bar before `e` opens at the open of bar `e`. */
  function Born(prm: Params, d: Input, side: Direction, e: nat): Position
    requires e < |d.bars| && Fires(d, e - 1, side)
  {
    Enter(prm, d.bars[e], e, Pending(side, d.atr[e - 1].value))
  }

  /** The bar's range reaches the break-even trigger. */
  predicate TriggersBreakeven(prm: Params, b: Position, bar: Bar)
  {
    prm.useBreakeven &&
    if b.side == Long then bar.high >= b.entryPrice + BeTrigger(prm, b) else bar.low <= b.entryPrice - BeTrigger(prm, b)
  }

  /** Break-even holds before bar `k` exactly when some bar of the trade has reached the trigger. */
  ghost predicate BreakevenIs(prm: Params, d: Input, b: Position, k: nat, active: bool)
    requires k <= |d.bars|
  {
    active <==> exists i :: b.entryIndex <= i < k && TriggersBreakeven(prm, b, d.bars[i])
  }

  predicate FeedsTrail(prm: Params, d: Input, i: nat)
    requires i < |d.atr|
  {
    prm.useTrailing && HasAtr(d.atr[i])
  }

  function CandidateAt(prm: Params, d: Input, side: Direction, i: nat): real
    requires i < |d.bars| == |d.atr| && HasAtr(d.atr[i])
  {
    TrailCandidate(prm, side, d.bars[i], d.atr[i].value)
  }

  /** The trail is the tightest candidate of the trade's bars that have an ATR. */
  ghost predicate TrailIs(prm: Params, d: Input, b: Position, k: nat, trail: Option<real>)
    requires WellFormed(d) && k <= |d.bars|
  {
    match trail
    case None => forall i :: b.entryIndex <= i < k ==> !FeedsTrail(prm, d, i)
    case Some(v) =>
      && (exists i :: b.entryIndex <= i < k && FeedsTrail(prm, d, i) && v == CandidateAt(prm, d, b.side, i))
      && (forall i :: b.entryIndex <= i < k && FeedsTrail(prm, d, i) ==>
            NoLooser(b.side, CandidateAt(prm, d, b.side, i), v))
  }

  /** The stop in force on bar `j`: the entry stop, or the entry price after break-even, tightened
      by the trail if the bar has an ATR. */
  ghost predicate StopIs(prm: Params, d: Input, b: Position, j: nat, stop: real)
    requires WellFormed(d) && j < |d.bars|
  {
    exists active: bool, trail: Option<real> ::
      && BreakevenIs(prm, d, b, j + 1, active) && TrailIs(prm, d, b, j + 1, trail)
      && StopFrom(prm, d, b, j, stop, active, trail)
  }

  predicate StopFrom(prm: Params, d: Input, b: Position, j: nat, stop: real, active: bool, trail: Option<real>)
    requires j < |d.atr|
  {
    if FeedsTrail(prm, d, j) then trail.Some? && stop == Tighter(b.side, BaseStop(b, active), trail.value)
    else stop == BaseStop(b, active)
  }

  predicate HitsStop(side: Direction, bar: Bar, stop: real)
  {
    if side == Long then bar.low <= stop else bar.high >= stop
  }

  predicate HitsTarget(b: Position, bar: Bar)
  {
    if b.side == Long then bar.high >= FinalTp(b) else bar.low <= FinalTp(b)
  }

  predicate TimedOut(prm: Params, b: Position, j: nat)
  {
    prm.useTimeExit && j - b.entryIndex >= prm.maxBarsExit
  }

  /** Nothing on bar `j` gives a reason to leave. */
  predicate Quiet(prm: Params, d: Input, b: Position, stop: real, j: nat)
    requires j < |d.bars| == |d.signals|
  {
    && !HitsStop(b.side, d.bars[j], stop) && !HitsTarget(b, d.bars[j])
    && !TimedOut(prm, b, j) && !Opposed(d, j, b.side)
  }

  /** The recorded stops are those in force on the trade's bars before `k`, all of them quiet. */
  ghost predicate Lived(prm: Params, d: Input, b: Position, stops: seq<real>, k: nat)
    requires WellFormed(d) && k <= |d.bars|
  {
    && b.entryIndex + |stops| == k
    && (forall n :: 0 <= n < |stops| ==>
          StopIs(prm, d, b, b.entryIndex + n, stops[n]) && Quiet(prm, d, b, stops[n], b.entryIndex + n))
  }

  /** Why and where a trade leaves: stop before target, before time, before the opposite signal. */
  predicate Leaves(prm: Params, d: Input, b: Position, stop: real, j: nat, reason: Reason, price: real)
    requires j < |d.bars| == |d.signals|
  {
    var bar := d.bars[j];
    match reason
    case SlExit => HitsStop(b.side, bar, stop) && price == stop
    case TpExit => !HitsStop(b.side, bar, stop) && HitsTarget(b, bar) && price == FinalTp(b)
    case TimeExit =>
      !HitsStop(b.side, bar, stop) && !HitsTarget(b, bar) && TimedOut(prm, b, j) && price == bar.close
    case CounterSignal =>
      && !HitsStop(b.side, bar, stop) && !HitsTarget(b, bar) && !TimedOut(prm, b, j)
      && Opposed(d, j, b.side) && price == bar.close
  }

  /** A position as the bars up to `k` made it. */
  ghost predicate OpenRight(prm: Params, d: Input, x: Position, k: nat)
    requires WellFormed(d) && k <= |d.bars|
  {
    && x.entryIndex < |d.bars| && Fires(d, x.entryIndex - 1, x.side)
    && var b := Born(prm, d, x.side, x.entryIndex);
    && x == b.(beActive := x.beActive, trail := x.trail, stops := x.stops)
    && BreakevenIs(prm, d, b, k, x.beActive) && TrailIs(prm, d, b, k, x.trail)
    && Lived(prm, d, b, x.stops, k)
  }

  /** A closed trade as the bars made it. */
  ghost predicate ClosedRight(prm: Params, d: Input, r: Record)
    requires WellFormed(d)
  {
    && r.entryIndex <= r.exitIndex < |d.bars| && Fires(d, r.entryIndex - 1, r.side)
    && r.stops != []
    && var b, stop := Born(prm, d, r.side, r.entryIndex), r.stops[|r.stops| - 1];
    && r.entryPrice == b.entryPrice
    && BreakevenIs(prm, d, b, r.exitIndex + 1, r.beActive)
    && Lived(prm, d, b, r.stops[..|r.stops| - 1], r.exitIndex)
    && StopIs(prm, d, b, r.exitIndex, stop)
    && Leaves(prm, d, b, stop, r.exitIndex, r.reason, r.exitPrice)
  }

  ghost predicate LifeInv(prm: Params, d: Input, s: LoopState, k: nat)
    requires WellFormed(d) && k <= |d.bars|
  {
    && (forall r :: r in s.records ==> r.exitIndex < k && ClosedRight(prm, d, r))
    && (s.position.Some? ==> OpenRight(prm, d, s.position.value, k))
    && (s.pending.Some? ==>
          && s.position.None? && k < |d.bars|
          && Fires(d, k - 1, s.pending.value.side) && s.pending.value.atr == d.atr[k - 1].value)
  }

  lemma BreakevenGrows(prm: Params, d: Input, b: Position, k: nat, active: bool)
    requires k < |d.bars| && b.entryIndex <= k && BreakevenIs(prm, d, b, k, active)
    ensures BreakevenIs(prm, d, b, k + 1, active || TriggersBreakeven(prm, b, d.bars[k]))
  {
  }

  lemma TrailGrows(prm: Params, d: Input, b: Position, k: nat, trail: Option<real>)
    requires WellFormed(d) && k < |d.bars| && b.entryIndex <= k && TrailIs(prm, d, b, k, trail)
    ensures TrailIs(prm, d, b, k + 1, TrailAfter(prm, b.(trail := trail), d.bars[k], d.atr[k]))
  {
    if FeedsTrail(prm, d, k) {
      var candidate := CandidateAt(prm, d, b.side, k);
      var next := TrailAfter(prm, b.(trail := trail), d.bars[k], d.atr[k]);
      if trail.Some? && next.value != candidate {
        var i :| b.entryIndex <= i < k && FeedsTrail(prm, d, i) && trail.value == CandidateAt(prm, d, b.side, i);
        assert next.value == CandidateAt(prm, d, b.side, i);
      }
    }
  }

  /** Moving the stops on bar `k` records the stop in force there. */
  lemma AdjustIsRight(prm: Params, d: Input, x: Position, k: nat)
    requires WellFormed(d) && k < |d.bars| && OpenRight(prm, d, x, k)
    ensures
      var b, y := Born(prm, d, x.side, x.entryIndex), Adjust(prm, x, d.bars[k], d.atr[k]);
      && BreakevenIs(prm, d, b, k + 1, y.beActive) && TrailIs(prm, d, b, k + 1, y.trail)
      && StopIs(prm, d, b, k, EffectiveStop(prm, x, d.bars[k], d.atr[k]))
  {
    hide BreakevenIs, TrailIs;
    var b, y := Born(prm, d, x.side, x.entryIndex), Adjust(prm, x, d.bars[k], d.atr[k]);
    BreakevenGrows(prm, d, b, k, x.beActive);
    TrailGrows(prm, d, b, k, x.trail);
    assert TpDistance(x) == TpDistance(b) && BeTrigger(prm, x) == BeTrigger(prm, b);
    assert y.beActive == (x.beActive || TriggersBreakeven(prm, b, d.bars[k]));
    assert y.trail == TrailAfter(prm, b.(trail := x.trail), d.bars[k], d.atr[k]);
    assert StopFrom(prm, d, b, k, EffectiveStop(prm, x, d.bars[k], d.atr[k]), y.beActive, y.trail);
  }

  lemma LivedOn(prm: Params, d: Input, b: Position, stops: seq<real>, stop: real, k: nat)
    requires WellFormed(d) && k < |d.bars| && Lived(prm, d, b, stops, k)
    requires StopIs(prm, d, b, k, stop) && Quiet(prm, d, b, stop, k)
    ensures Lived(prm, d, b, stops + [stop], k + 1)
  {
    hide StopIs, Quiet;
  }

  /** A position whose stops have moved on bar `k` and whose bar gives no reason to leave, the
      signals not yet looked at. */
  ghost predicate HeldRight(prm: Params, d: Input, y: Position, k: nat)
    requires WellFormed(d) && k < |d.bars|
  {
    && y.entryIndex <= k && Fires(d, y.entryIndex - 1, y.side) && y.stops != []
    && var b, stop := Born(prm, d, y.side, y.entryIndex), y.stops[|y.stops| - 1];
    && y == b.(beActive := y.beActive, trail := y.trail, stops := y.stops)
    && BreakevenIs(prm, d, b, k + 1, y.beActive) && TrailIs(prm, d, b, k + 1, y.trail)
    && Lived(prm, d, b, y.stops[..|y.stops| - 1], k) && StopIs(prm, d, b, k, stop)
    && !HitsStop(b.side, d.bars[k], stop) && !HitsTarget(b, d.bars[k]) && !TimedOut(prm, b, k)
  }

  lemma ManageIsRight(prm: Params, d: Input, s: LoopState, k: nat)
    requires WellFormed(d) && k < |d.bars| && s.position.Some? && OpenRight(prm, d, s.position.value, k)
    ensures
      var m := Manage(prm, d, k, s);
      || (m == s.(position := m.position) && m.position.Some? && HeldRight(prm, d, m.position.value, k))
      || (m.position.None? && m.pending == s.pending && |m.records| == |s.records| + 1
          && m.records[..|s.records|] == s.records
          && m.records[|s.records|].exitIndex == k && ClosedRight(prm, d, m.records[|s.records|]))
  {
    hide BreakevenIs, TrailIs, StopIs, EffectiveStop, Fires, ExitPnl;
    var x, bar := s.position.value, d.bars[k];
    AdjustIsRight(prm, d, x, k);
    var stop := EffectiveStop(prm, x, bar, d.atr[k]);
    var y := Adjust(prm, x, bar, d.atr[k]);
    assert y.stops[..|y.stops| - 1] == x.stops;
    assert FinalTp(y) == FinalTp(Born(prm, d, x.side, x.entryIndex));
  }

  /** With no opposite signal on the bar the position has lived through it. */
  lemma HeldLivesOn(prm: Params, d: Input, y: Position, k: nat)
    requires WellFormed(d) && k < |d.bars| && HeldRight(prm, d, y, k) && !Opposed(d, k, y.side)
    ensures OpenRight(prm, d, y, k + 1)
  {
    hide BreakevenIs, TrailIs, StopIs, Fires;
    var b, n := Born(prm, d, y.side, y.entryIndex), |y.stops|;
    LivedOn(prm, d, b, y.stops[..n - 1], y.stops[n - 1], k);
    assert y.stops == y.stops[..n - 1] + [y.stops[n - 1]];
  }

  lemma CounterIsRight(prm: Params, d: Input, s: LoopState, k: nat)
    requires WellFormed(d) && k < |d.bars| && s.position.Some? && HeldRight(prm, d, s.position.value, k)
    requires d.signals[k].Some? && Opposed(d, k, s.position.value.side)
    ensures
      var m := Counter(prm, d, k, s);
      && m.position.None? && m.pending == s.pending && |m.records| == |s.records| + 1
      && m.records[..|s.records|] == s.records
      && m.records[|s.records|].exitIndex == k && ClosedRight(prm, d, m.records[|s.records|])
  {
    hide BreakevenIs, TrailIs, StopIs, Fires, CounterPnl;
  }

  /** Fill: the pending signal becomes a position that has lived no bar yet. */
  lemma FillIsRight(prm: Params, d: Input, s: LoopState, k: nat)
    requires WellFormed(d) && k < |d.bars| && LifeInv(prm, d, s, k)
    ensures LifeInv(prm, d, Fill(prm, d, k, s), k) && Fill(prm, d, k, s).pending.None?
  {
    hide ClosedRight;
    if s.pending.Some? {
      var x := Enter(prm, d.bars[k], k, s.pending.value);
      assert x == Born(prm, d, x.side, k);
    }
  }

  /** Between the managed half of a bar and the look at its signals. */
  ghost predicate MidInv(prm: Params, d: Input, s: LoopState, k: nat)
    requires WellFormed(d) && k < |d.bars|
  {
    && (forall r :: r in s.records ==> r.exitIndex <= k && ClosedRight(prm, d, r))
    && (s.position.Some? ==> HeldRight(prm, d, s.position.value, k))
    && s.pending.None?
  }

  lemma RecordsGrow(prm: Params, d: Input, before: seq<Record>, after: seq<Record>, k: nat)
    requires WellFormed(d) && |after| == |before| + 1 && after[..|before|] == before
    requires forall r :: r in before ==> r.exitIndex <= k && ClosedRight(prm, d, r)
    requires after[|before|].exitIndex <= k && ClosedRight(prm, d, after[|before|])
    ensures forall r :: r in after ==> r.exitIndex <= k && ClosedRight(prm, d, r)
  {
    hide ClosedRight;
    assert after == after[..|before|] + [after[|before|]];
  }

  lemma ManageKeepsLife(prm: Params, d: Input, s: LoopState, k: nat)
    requires WellFormed(d) && k < |d.bars| && LifeInv(prm, d, s, k) && s.pending.None?
    ensures MidInv(prm, d, Manage(prm, d, k, s), k)
  {
    hide ClosedRight, OpenRight, HeldRight;
    if s.position.Some? {
      ManageIsRight(prm, d, s, k);
      var m := Manage(prm, d, k, s);
      if m.position.None? {
        RecordsGrow(prm, d, s.records, m.records, k);
      }
    }
  }

  /** The signals of the bar: an opposite one closes, and a flat walk may arm the next bar. */
  lemma SignalsKeepLife(prm: Params, d: Input, s: LoopState, k: nat)
    requires WellFormed(d) && k < |d.bars| && MidInv(prm, d, s, k)
    ensures LifeInv(prm, d, if d.signals[k].None? then s else Arm(d, k, Counter(prm, d, k, s)), k + 1)
  {
    hide ClosedRight, OpenRight, HeldRight;
    if s.position.Some? {
      var y := s.position.value;
      if Opposed(d, k, y.side) {
        CounterIsRight(prm, d, s, k);
        RecordsGrow(prm, d, s.records, Counter(prm, d, k, s).records, k);
      } else {
        HeldLivesOn(prm, d, y, k);
      }
    }
  }

  lemma StepKeepsLife(prm: Params, d: Input, s: LoopState, k: nat)
    requires WellFormed(d) && k < |d.bars| && LifeInv(prm, d, s, k)
    ensures LifeInv(prm, d, StepBar(prm, d, k, s), k + 1)
  {
    hide LifeInv, MidInv, Fill, Manage, Counter, Arm;
    var f := Fill(prm, d, k, s);
    FillIsRight(prm, d, s, k);
    ManageKeepsLife(prm, d, f, k);
    SignalsKeepLife(prm, d, Manage(prm, d, k, f), k);
  }

  lemma StartIsRight(prm: Params, d: Input, k: nat)
    requires WellFormed(d) && k <= |d.bars|
    ensures LifeInv(prm, d, Start(), k)
  {
  }

  /** Every trade of every run has the life the bars give it, and so far has the open position. */
  lemma {:induction false} TradesLiveAsTheBarsSay(prm: Params, d: Input, k: nat)
    requires WellFormed(d) && k <= |d.bars|
    ensures LifeInv(prm, d, Run(prm, d, k), k)
  {
    hide LifeInv, StepBar;
    if k <= prm.warmup {
      StartIsRight(prm, d, k);
    } else {
      TradesLiveAsTheBarsSay(prm, d, k - 1);
      StepKeepsLife(prm, d, Run(prm, d, k - 1), k - 1);
    }
  }

  /** No signal is missed either: after every bar past the warm-up a flat walk has exactly the entry
      pending that the bar fires, if there is a bar left to fill it on, and a position excludes one. */
  lemma SignalsAreTakenExactly(prm: Params, d: Input, i: nat)
    requires WellFormed(d) && prm.warmup <= i < |d.bars|
    ensures
      var r := Run(prm, d, i + 1);
      && (r.position.Some? ==> r.pending.None?)
      && (r.position.None? ==>
            r.pending ==
            if i + 1 < |d.bars| && Fires(d, i, Long) then Some(Pending(Long, d.atr[i].value))
            else if i + 1 < |d.bars| && Fires(d, i, Short) then Some(Pending(Short, d.atr[i].value))
            else None)
  {
    hide Manage, OpenRight, ClosedRight;
    var s := Run(prm, d, i);
    TradesLiveAsTheBarsSay(prm, d, i);
    var m := Manage(prm, d, i, Fill(prm, d, i, s));
    assert m.pending.None? by {
      ManageLeavesNoPending(prm, d, i, Fill(prm, d, i, s));
    }
  }

  lemma ManageLeavesNoPending(prm: Params, d: Input, i: nat, s: LoopState)
    requires WellFormed(d) && i < |d.bars| && s.pending.None?
    ensures Manage(prm, d, i, s).pending.None?
  {
    hide Adjust, EffectiveStop, ExitOn, ExitPnl;
  }
}
