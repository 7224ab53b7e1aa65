/** Exactly when a Donchian stop loosens inside a trade, and when the source's ATR list has a gap. */
module DonchianLoosening {
  import opened Wrappers
  import opened Reals
  import opened Market
  import opened Donchian
  import opened DonchianStops
  import opened DonchianExits

  // ------------------------------------------------------------ the ATR list

  function RangesOf(bars: seq<Bar>, lo: nat, hi: nat): real
    requires lo <= hi <= |bars|
  {
    if hi == lo then 0.0 else RangesOf(bars, lo, hi - 1) + TrueRange(bars, hi - 1)
  }

  /** `_precompute_atr`: the mean of the last `period` true ranges, missing on the first bars. */
  function ListAtr(bars: seq<Bar>, period: posint, i: nat): Option<real>
    requires i < |bars|
  {
    if i < period then None else Some(RangesOf(bars, i + 1 - period, i + 1) / period as real)
  }

  lemma {:induction false} RangesSign(bars: seq<Bar>, lo: nat, hi: nat)
    requires ValidBars(bars) && lo <= hi <= |bars|
    ensures RangesOf(bars, lo, hi) >= 0.0
    ensures RangesOf(bars, lo, hi) > 0.0 <==> exists j :: lo <= j < hi && TrueRange(bars, j) > 0.0
  {
    if lo < hi {
      RangesSign(bars, lo, hi - 1);
      assert ValidBar(bars[hi - 1]);
      assert TrueRange(bars, hi - 1) >= 0.0;
    }
  }

  /** The list holds a usable ATR exactly from bar `period` on, except where the last `period` bars
      have had no range at all. */
  lemma AtrMissingExactly(bars: seq<Bar>, period: posint, i: nat)
    requires ValidBars(bars) && i < |bars|
    ensures HasAtr(ListAtr(bars, period, i)) <==>
            i >= period && exists j :: i + 1 - period <= j <= i && TrueRange(bars, j) > 0.0
  {
    hide TrueRange, RangesOf;
    if i >= period {
      RangesSign(bars, i + 1 - period, i + 1);
      QuotientNonNegative(RangesOf(bars, i + 1 - period, i + 1), period as real);
    }
  }

  // ------------------------------------------------------------ stops that loosen

  lemma TrailIsUnique(prm: Params, d: Input, b: Position, k: nat, s: Option<real>, t: Option<real>)
    requires WellFormed(d) && k <= |d.bars| && TrailIs(prm, d, b, k, s) && TrailIs(prm, d, b, k, t)
    ensures s == t
  {
  }

  /** The trail only ever tightens. */
  lemma TrailTightens(prm: Params, d: Input, b: Position, k: nat, s: Option<real>, t: Option<real>)
    requires WellFormed(d) && k < |d.bars| && TrailIs(prm, d, b, k, s) && TrailIs(prm, d, b, k + 1, t) && s.Some?
    ensures t.Some? && NoLooser(b.side, s.value, t.value)
  {
    var i :| b.entryIndex <= i < k && FeedsTrail(prm, d, i) && s.value == CandidateAt(prm, d, b.side, i);
  }

  /** Between bars `j` and j + 1 of a trade the stop loosens: the trail counted on the first, does
      not count on the second for want of an ATR, and was tighter than the base stop there. */
  ghost predicate LoosensAt(prm: Params, d: Input, b: Position, j: nat)
    requires WellFormed(d) && j + 1 < |d.bars|
  {
    && prm.useTrailing && HasAtr(d.atr[j]) && !HasAtr(d.atr[j + 1])
    && exists active: bool, trail: real ::
         && BreakevenIs(prm, d, b, j + 2, active) && TrailIs(prm, d, b, j + 1, Some(trail))
         && !NoLooser(b.side, trail, BaseStop(b, active))
  }

  lemma PairLoosensExactly(prm: Params, d: Input, b: Position, j: nat, stop: real, next: real)
    requires WellFormed(d) && j + 1 < |d.bars| && b.entryIndex <= j
    requires StopIs(prm, d, b, j, stop) && StopIs(prm, d, b, j + 1, next)
    ensures NoLooser(b.side, stop, next) <==> !LoosensAt(prm, d, b, j)
  {
    hide BreakevenIs, TrailIs;
    var active, trail :| BreakevenIs(prm, d, b, j + 1, active) && TrailIs(prm, d, b, j + 1, trail)
      && StopFrom(prm, d, b, j, stop, active, trail);
    var later, after :| BreakevenIs(prm, d, b, j + 2, later) && TrailIs(prm, d, b, j + 2, after)
      && StopFrom(prm, d, b, j + 1, next, later, after);
    BreakevenStays(prm, d, b, j + 1, active, later);
    if trail.Some? {
      TrailTightens(prm, d, b, j + 1, trail, after);
    }
    if LoosensAt(prm, d, b, j) {
      var x, t :| BreakevenIs(prm, d, b, j + 2, x) && TrailIs(prm, d, b, j + 1, Some(t))
        && !NoLooser(b.side, t, BaseStop(b, x));
      TrailIsUnique(prm, d, b, j + 1, trail, Some(t));
      BreakevenIsUnique(prm, d, b, j + 2, x, later);
    }
  }

  lemma BreakevenIsUnique(prm: Params, d: Input, b: Position, k: nat, s: bool, t: bool)
    requires k <= |d.bars| && BreakevenIs(prm, d, b, k, s) && BreakevenIs(prm, d, b, k, t)
    ensures s == t
  {
  }

  lemma BreakevenStays(prm: Params, d: Input, b: Position, k: nat, s: bool, t: bool)
    requires k < |d.bars| && BreakevenIs(prm, d, b, k, s) && BreakevenIs(prm, d, b, k + 1, t)
    ensures s ==> t
  {
  }

  /** For every two consecutive stops of every trade of every run, exactly. */
  lemma StopsLoosenExactly(prm: Params, d: Input, k: nat, r: Record, n: nat)
    requires WellFormed(d) && k <= |d.bars| && r in Run(prm, d, k).records && n + 1 < |r.stops|
    ensures r.entryIndex + n + 1 < |d.bars| && Fires(d, r.entryIndex - 1, r.side)
    ensures NoLooser(r.side, r.stops[n], r.stops[n + 1])
       <==> !LoosensAt(prm, d, Born(prm, d, r.side, r.entryIndex), r.entryIndex + n)
  {
    hide Run, StopIs, BreakevenIs, LoosensAt, Quiet, Leaves, Fires;
    TradesLiveAsTheBarsSay(prm, d, k);
    var b, e := Born(prm, d, r.side, r.entryIndex), r.entryIndex;
    var early := r.stops[..|r.stops| - 1];
    assert early[n] == r.stops[n] && StopIs(prm, d, b, b.entryIndex + n, early[n]);
    if n + 1 < |early| {
      assert early[n + 1] == r.stops[n + 1] && StopIs(prm, d, b, b.entryIndex + n + 1, early[n + 1]) by {
        assert StopIs(prm, d, b, b.entryIndex + (n + 1), early[n + 1]);
      }
    }
    PairLoosensExactly(prm, d, b, e + n, r.stops[n], r.stops[n + 1]);
  }
}
