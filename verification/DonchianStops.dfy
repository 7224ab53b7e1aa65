/** The effective stop of a Donchian trade only ever tightens, and exactly when not. */
module DonchianStops {
  import opened Wrappers
  import opened Market
  import opened Donchian

  /** `b` is at least as tight as `a`. */
  predicate NoLooser(side: Direction, a: real, b: real)
  {
    if side == Long then a <= b else b <= a
  }

  ghost predicate NeverLoosens(side: Direction, stops: seq<real>)
  {
    forall i, j :: 0 <= i < j < |stops| ==> NoLooser(side, stops[i], stops[j])
  }

  /** The last effective stop is the tighter of base and trail, as on every bar with an ATR. */
  predicate LastStopCounts(prm: Params, b: Position)
  {
    b.stops != [] ==>
      b.stops[|b.stops| - 1] ==
      if prm.useTrailing && b.trail.Some? then Tighter(b.side, BaseStop(b, b.beActive), b.trail.value)
      else BaseStop(b, b.beActive)
  }

  /** Whether the next stop is no looser than the last, from a position whose last stop counted
      its trail: it is, unless trailing is on, the bar has no ATR, and the forgotten trail was
      tighter than the base stop. */
  lemma StopLoosensExactly(prm: Params, b: Position, bar: Bar, atr: Option<real>)
    requires b.stops != [] && LastStopCounts(prm, b)
    ensures
      var next := EffectiveStop(prm, b, bar, atr);
      var base := BaseStop(b, BreakevenAfter(prm, b, bar));
      NoLooser(b.side, b.stops[|b.stops| - 1], next) <==>
        !(prm.useTrailing && !HasAtr(atr) && b.trail.Some? && !NoLooser(b.side, b.trail.value, base))
  {
  }

  /** With trailing off, or an ATR on the bar, the stop tightens and keeps counting its trail. */
  lemma AdjustTightens(prm: Params, b: Position, bar: Bar, atr: Option<real>)
    requires !prm.useTrailing || HasAtr(atr)
    requires LastStopCounts(prm, b) && NeverLoosens(b.side, b.stops)
    ensures LastStopCounts(prm, Adjust(prm, b, bar, atr))
    ensures NeverLoosens(b.side, Adjust(prm, b, bar, atr).stops)
  {
    var next, n := EffectiveStop(prm, b, bar, atr), |b.stops|;
    if b.stops != [] {
      StopLoosensExactly(prm, b, bar, atr);
      forall i | 0 <= i < n ensures NoLooser(b.side, b.stops[i], next) {
        assert i < n - 1 ==> NoLooser(b.side, b.stops[i], b.stops[n - 1]);
      }
    }
  }

  /** Every bar of lo..hi has a positive ATR, or trailing is off. */
  ghost predicate TrailFed(prm: Params, d: Input, lo: nat, hi: nat)
    requires WellFormed(d) && hi <= |d.bars|
  {
    prm.useTrailing ==> forall i :: lo <= i < hi ==> HasAtr(d.atr[i])
  }

  ghost predicate StopInv(prm: Params, d: Input, s: LoopState, k: nat)
    requires WellFormed(d) && k <= |d.bars|
  {
    && (forall r :: r in s.records ==>
          && r.entryIndex <= r.exitIndex < k
          && (TrailFed(prm, d, r.entryIndex, r.exitIndex + 1) ==> NeverLoosens(r.side, r.stops)))
    && (s.position.Some? ==>
          var b := s.position.value;
          && b.entryIndex <= k
          && (TrailFed(prm, d, b.entryIndex, k) ==> NeverLoosens(b.side, b.stops) && LastStopCounts(prm, b)))
  }

  lemma ManageKeepsStops(prm: Params, d: Input, i: nat, s: LoopState)
    requires WellFormed(d) && i < |d.bars| && StopInv(prm, d, s, i)
    ensures StopInv(prm, d, Manage(prm, d, i, s), i + 1)
    ensures Manage(prm, d, i, s).position.Some? ==> Manage(prm, d, i, s).position.value.entryIndex <= i
  {
    if s.position.Some? {
      var b := s.position.value;
      if TrailFed(prm, d, b.entryIndex, i + 1) {
        assert TrailFed(prm, d, b.entryIndex, i);
        AdjustTightens(prm, b, d.bars[i], d.atr[i]);
      }
    }
  }

  lemma CounterKeepsStops(prm: Params, d: Input, i: nat, s: LoopState)
    requires WellFormed(d) && i < |d.bars| && d.signals[i].Some? && StopInv(prm, d, s, i + 1)
    requires s.position.Some? ==> s.position.value.entryIndex <= i
    ensures StopInv(prm, d, Counter(prm, d, i, s), i + 1)
  {
  }

  lemma ArmKeepsStops(prm: Params, d: Input, i: nat, s: LoopState)
    requires WellFormed(d) && i < |d.bars| && d.signals[i].Some? && StopInv(prm, d, s, i + 1)
    ensures StopInv(prm, d, Arm(d, i, s), i + 1)
  {
  }

  lemma FillKeepsStops(prm: Params, d: Input, i: nat, s: LoopState)
    requires WellFormed(d) && i < |d.bars| && StopInv(prm, d, s, i)
    ensures StopInv(prm, d, Fill(prm, d, i, s), i)
  {
  }

  lemma StepKeepsStops(prm: Params, d: Input, i: nat, s: LoopState)
    requires WellFormed(d) && i < |d.bars| && StopInv(prm, d, s, i)
    ensures StopInv(prm, d, StepBar(prm, d, i, s), i + 1)
  {
    hide StopInv, Fill, Manage, Counter, Arm;
    var f := Fill(prm, d, i, s);
    FillKeepsStops(prm, d, i, s);
    var m := Manage(prm, d, i, f);
    ManageKeepsStops(prm, d, i, f);
    if d.signals[i].Some? {
      CounterKeepsStops(prm, d, i, m);
      ArmKeepsStops(prm, d, i, Counter(prm, d, i, m));
    }
  }

  /** Within every trade of every run the effective stop never loosens, provided trailing is off
      or each of its bars has a positive ATR. */
  lemma {:induction false} StopsNeverLoosen(prm: Params, d: Input, k: nat)
    requires WellFormed(d) && k <= |d.bars|
    ensures StopInv(prm, d, Run(prm, d, k), k)
  {
    hide StepBar;
    if k > prm.warmup {
      StopsNeverLoosen(prm, d, k - 1);
      StepKeepsStops(prm, d, k - 1, Run(prm, d, k - 1));
    }
  }
}
