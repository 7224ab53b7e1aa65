/** The stop of a Donchian trade against the stop that was known when the bar opened: the bar's own high,
    low, close and ATR move it before its range is tested. */
module DonchianKnownStops {
  import opened Wrappers
  import opened Market
  import opened Donchian
  import opened DonchianExits
  import opened DonchianLoosening

  /** The base stop tightened by the trail, both from earlier bars. */
  function Carried(b: Position, active: bool, trail: Option<real>): real
  {
    if trail.None? then BaseStop(b, active) else Tighter(b.side, BaseStop(b, active), trail.value)
  }

  /** The stop that the bars of the trade before `j` leave. */
  ghost predicate KnownStopIs(prm: Params, d: Input, b: Position, j: nat, known: real)
    requires WellFormed(d) && j <= |d.bars|
  {
    exists active: bool, trail: Option<real> ::
      BreakevenIs(prm, d, b, j, active) && TrailIs(prm, d, b, j, trail) && known == Carried(b, active, trail)
  }

  predicate IsTighter(side: Direction, a: real, b: real)
  {
    if side == Long then a > b else a < b
  }

  /** The bar is the first to reach the break-even trigger, and the entry price tightens the stop. */
  ghost predicate MovedByBreakeven(prm: Params, d: Input, b: Position, j: nat, known: real)
    requires j < |d.bars|
  {
    && BreakevenIs(prm, d, b, j, false) && TriggersBreakeven(prm, b, d.bars[j])
    && IsTighter(b.side, b.entryPrice, known)
  }

  /** The bar's own close and ATR tighten the trail beyond the known stop. */
  predicate MovedByClose(prm: Params, d: Input, b: Position, j: nat, known: real)
    requires j < |d.bars| == |d.atr|
  {
    FeedsTrail(prm, d, j) && IsTighter(b.side, CandidateAt(prm, d, b.side, j), known)
  }

  /** The bar has no ATR, and the trail that no longer counts was tighter than what is left. */
  ghost predicate MovedByMissingAtr(prm: Params, d: Input, b: Position, j: nat)
    requires WellFormed(d) && j < |d.bars|
  {
    && prm.useTrailing && !HasAtr(d.atr[j])
    && exists active: bool, trail: real ::
         && BreakevenIs(prm, d, b, j + 1, active) && TrailIs(prm, d, b, j, Some(trail))
         && IsTighter(b.side, trail, BaseStop(b, active))
  }

  lemma NewBreakeven(prm: Params, d: Input, b: Position, j: nat, before: bool, after: bool)
    requires j < |d.bars| && b.entryIndex <= j
    requires BreakevenIs(prm, d, b, j, before) && BreakevenIs(prm, d, b, j + 1, after)
    ensures after == (before || TriggersBreakeven(prm, b, d.bars[j]))
    ensures BreakevenIs(prm, d, b, j, false) <==> !before
  {
  }

  /** The trail after a bar, from the trail before it. */
  lemma NewTrail(prm: Params, d: Input, b: Position, j: nat, before: Option<real>, after: Option<real>)
    requires WellFormed(d) && j < |d.bars| && b.entryIndex <= j
    requires TrailIs(prm, d, b, j, before) && TrailIs(prm, d, b, j + 1, after)
    ensures !FeedsTrail(prm, d, j) ==> after == before
    ensures before.Some? ==> prm.useTrailing
    ensures FeedsTrail(prm, d, j) ==>
      after == Some(if before.None? then CandidateAt(prm, d, b.side, j)
                    else Tighter(b.side, before.value, CandidateAt(prm, d, b.side, j)))
  {
    assert before.Some? ==> prm.useTrailing;
    hide TrailIs;
    TrailGrows(prm, d, b, j, before);
    TrailIsUnique(prm, d, b, j + 1, after, TrailAfter(prm, b.(trail := before), d.bars[j], d.atr[j]));
  }

  /** Exactly when the stop in force on a bar is the one that was known at its open. */
  lemma StopIsKnownExactly(prm: Params, d: Input, b: Position, j: nat, stop: real, known: real)
    requires WellFormed(d) && j < |d.bars| && b.entryIndex <= j
    requires StopIs(prm, d, b, j, stop) && KnownStopIs(prm, d, b, j, known)
    ensures stop == known <==>
      && !MovedByBreakeven(prm, d, b, j, known) && !MovedByClose(prm, d, b, j, known)
      && !MovedByMissingAtr(prm, d, b, j)
  {
    hide BreakevenIs, TrailIs;
    var active, trail :| BreakevenIs(prm, d, b, j + 1, active) && TrailIs(prm, d, b, j + 1, trail)
      && StopFrom(prm, d, b, j, stop, active, trail);
    var was, earlier :| BreakevenIs(prm, d, b, j, was) && TrailIs(prm, d, b, j, earlier)
      && known == Carried(b, was, earlier);
    NewBreakeven(prm, d, b, j, was, active);
    NewTrail(prm, d, b, j, earlier, trail);
    DroppedTrail(prm, d, b, j, active, earlier);
    hide TriggersBreakeven, CandidateAt, MovedByMissingAtr;
  }

  lemma DroppedTrail(prm: Params, d: Input, b: Position, j: nat, active: bool, trail: Option<real>)
    requires WellFormed(d) && j < |d.bars|
    requires BreakevenIs(prm, d, b, j + 1, active) && TrailIs(prm, d, b, j, trail)
    ensures MovedByMissingAtr(prm, d, b, j) <==>
      && prm.useTrailing && !HasAtr(d.atr[j])
      && trail.Some? && IsTighter(b.side, trail.value, BaseStop(b, active))
  {
    hide BreakevenIs, TrailIs;
    if MovedByMissingAtr(prm, d, b, j) {
      var x, t :| BreakevenIs(prm, d, b, j + 1, x) && TrailIs(prm, d, b, j, Some(t))
        && IsTighter(b.side, t, BaseStop(b, x));
      BreakevenIsUnique(prm, d, b, j + 1, x, active);
      TrailIsUnique(prm, d, b, j, Some(t), trail);
    }
  }

  /** On every bar of every closed trade of a run. */
  lemma StopsAreKnownExactly(prm: Params, d: Input, k: nat, r: Record, n: nat) returns (known: real)
    requires WellFormed(d) && k <= |d.bars| && r in Run(prm, d, k).records && n < |r.stops|
    ensures r.entryIndex + n < |d.bars| && Fires(d, r.entryIndex - 1, r.side)
    ensures
      var b, j := Born(prm, d, r.side, r.entryIndex), r.entryIndex + n;
      && KnownStopIs(prm, d, b, j, known)
      && (r.stops[n] == known <==>
            && !MovedByBreakeven(prm, d, b, j, known) && !MovedByClose(prm, d, b, j, known)
            && !MovedByMissingAtr(prm, d, b, j))
  {
    hide Run, StopIs, BreakevenIs, TrailIs, KnownStopIs, Quiet, Leaves, Fires, MovedByMissingAtr, MovedByBreakeven;
    TradesLiveAsTheBarsSay(prm, d, k);
    var b, j := Born(prm, d, r.side, r.entryIndex), r.entryIndex + n;
    StopOnBar(prm, d, r, n);
    if n == 0 {
      known := FirstKnown(prm, d, b);
    } else {
      StopOnBar(prm, d, r, n - 1);
      known := NextKnown(prm, d, b, j, r.stops[n - 1]);
    }
    StopIsKnownExactly(prm, d, b, j, r.stops[n], known);
  }

  /** Every stop of a closed trade is the one in force on its bar. */
  lemma StopOnBar(prm: Params, d: Input, r: Record, n: nat)
    requires WellFormed(d) && ClosedRight(prm, d, r) && n < |r.stops|
    ensures r.entryIndex + n < |d.bars|
    ensures StopIs(prm, d, Born(prm, d, r.side, r.entryIndex), r.entryIndex + n, r.stops[n])
  {
    hide StopIs, BreakevenIs, Quiet, Leaves, Fires;
    var early := r.stops[..|r.stops| - 1];
    if n < |early| {
      assert early[n] == r.stops[n];
    }
  }

  lemma FirstKnown(prm: Params, d: Input, b: Position) returns (known: real)
    requires WellFormed(d) && b.entryIndex < |d.bars|
    ensures KnownStopIs(prm, d, b, b.entryIndex, known)
  {
    known := Carried(b, false, None);
    assert BreakevenIs(prm, d, b, b.entryIndex, false) && TrailIs(prm, d, b, b.entryIndex, None);
  }

  lemma NextKnown(prm: Params, d: Input, b: Position, j: nat, stop: real) returns (known: real)
    requires WellFormed(d) && 0 < j < |d.bars| && StopIs(prm, d, b, j - 1, stop)
    ensures KnownStopIs(prm, d, b, j, known)
  {
    hide BreakevenIs, TrailIs;
    var active, trail :| BreakevenIs(prm, d, b, j, active) && TrailIs(prm, d, b, j, trail)
      && StopFrom(prm, d, b, j - 1, stop, active, trail);
    known := Carried(b, active, trail);
  }
}
