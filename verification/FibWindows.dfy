/** Exactly which positions of the HTF-Fib walk outlast their holding window. */
module FibWindows {
  import opened Wrappers
  import opened Reals
  import opened Seqs
  import opened Wilder
  import opened Market
  import opened Brackets
  import opened Htf
  import opened SwingRuns
  import opened Pivots
  import opened FibModel
  import opened FibWalk
  import opened FibRuns
  import opened FibSignals
  import opened FibCausality

  /** The stop is placed by ATR, and the ATR of the bar before the entry is zero. */
  predicate ZeroAtrStop(d: Features, prm: Params, e: nat)
    requires WellFormed(d)
  {
    prm.stopFraction.None? && 0 < e <= |d.bars| && d.atr[e - 1] == Some(0.0)
  }

  lemma GenuineRisk(d: Features, cfg: Config, prm: Params, trades: seq<Trade>, b: Bracket)
    requires WellFormed(d) && EntryIsGenuine(d, cfg, prm, trades, b)
    ensures b.risk == 0.0 <==> ZeroAtrStop(d, prm, b.entryIndex)
  {
    hide HistoryAt, LongCondition, ShortCondition, Fresh;
    var atr := d.atr[b.entryIndex - 1].value;
    var distance := StopDistance(d, cfg, prm, b.entryIndex, atr).value;
    assert b.risk == Abs(distance);
    if prm.stopFraction.None? {
      ZeroProduct(atr, cfg.slAtr);
    } else {
      FractionStopIsPositive(d, cfg, prm, b.entryIndex, atr);
    }
  }

  lemma ZeroProduct(x: real, y: pos)
    ensures x * y == 0.0 <==> x == 0.0
  {
    if x > 0.0 {
      ProductPositive(x, y);
    } else if x < 0.0 {
      ProductPositive(-x, y);
    }
  }

  lemma FractionStopIsPositive(d: Features, cfg: Config, prm: Params, i: nat, atr: real)
    requires WellFormed(d) && i < |d.bars| && prm.stopFraction.Some? && StopDistance(d, cfg, prm, i, atr).Ok?
    ensures StopDistance(d, cfg, prm, i, atr).value > 0.0
  {
  }

  /** An open position has no stop distance exactly when its stop is placed by a zero ATR. */
  lemma RiskIsAtr(d: Features, cfg: Config, prm: Params, k: nat)
    requires WellFormed(d) && k <= |d.bars|
    ensures
      var r := Run(d, cfg, prm, k);
      r.Ok? && r.value.position.Some? ==>
        (r.value.position.value.risk == 0.0 <==> ZeroAtrStop(d, prm, r.value.position.value.entryIndex))
  {
    hide Run, EntryIsGenuine, ZeroAtrStop, MemoryIs, PendingIsGenuine;
    var r := Run(d, cfg, prm, k);
    if r.Ok? && r.value.position.Some? {
      SignalsAreGenuine(d, cfg, prm, k);
      GenuineRisk(d, cfg, prm, r.value.trades, r.value.position.value);
    }
  }

  /** A position that is open after `k` bars is still open after `n` bars, beyond its window,
      exactly when its stop is placed by a zero ATR. */
  lemma OverstaysExactly(d: Features, cfg: Config, prm: Params, k: nat, n: nat)
    requires WellFormed(d) && k <= n <= |d.bars|
    ensures
      var r, v := Run(d, cfg, prm, k), Run(d, cfg, prm, n);
      r.Ok? && r.value.position.Some? && n > r.value.position.value.entryIndex + cfg.maxHold + 1 ==>
        (v.Ok? && v.value.position == r.value.position <==> ZeroAtrStop(d, prm, r.value.position.value.entryIndex))
  {
    hide Run, ZeroAtrStop;
    var r, v := Run(d, cfg, prm, k), Run(d, cfg, prm, n);
    if r.Ok? && r.value.position.Some? && n > r.value.position.value.entryIndex + cfg.maxHold + 1 {
      RiskIsAtr(d, cfg, prm, k);
      ZeroRiskNeverCloses(d, cfg, prm, k, n);
      if v.Ok? && v.value.position == r.value.position {
        OverstayMeansZeroRisk(d, cfg, prm, n);
      }
    }
  }

  // ------------------------------------------------------------ ATR from the bars

  /** The first `n` bars never move. */
  ghost predicate FlatUntil(bars: seq<Bar>, n: nat)
  {
    n <= |bars| && forall i, j :: 0 <= i < n && 0 <= j < n ==> bars[i].high == bars[j].low
  }

  lemma RangeIsNonNegative(bars: seq<Bar>, i: nat)
    requires ValidBars(bars) && i < |bars|
    ensures TrueRange(bars, i) >= 0.0
  {
    assert ValidBar(bars[i]);
  }

  lemma {:induction false} RangeSumIsNonNegative(bars: seq<Bar>, n: nat)
    requires ValidBars(bars) && n <= |bars|
    ensures RangeSum(bars, n) >= 0.0
    ensures RangeSum(bars, n) == 0.0 ==> forall i :: 0 <= i < n ==> TrueRange(bars, i) == 0.0
  {
    if n > 0 {
      RangeSumIsNonNegative(bars, n - 1);
      RangeIsNonNegative(bars, n - 1);
    }
  }

  /** For periods of two or more a zero ATR means that no bar so far has had a range. */
  lemma {:induction false} ZeroAtrMeansNoRange(bars: seq<Bar>, period: posint, i: nat)
    requires ValidBars(bars) && i < |bars| && period >= 2 && WilderAtr(bars, period, i).Some?
    ensures WilderAtr(bars, period, i).value >= 0.0
    ensures WilderAtr(bars, period, i) == Some(0.0) ==> forall j :: 0 <= j <= i ==> TrueRange(bars, j) == 0.0
  {
    if i == period - 1 {
      RangeSumIsNonNegative(bars, period);
      QuotientNonNegative(RangeSum(bars, period), period as real);
    } else {
      ZeroAtrMeansNoRange(bars, period, i - 1);
      RangeIsNonNegative(bars, i);
      WilderZero(WilderAtr(bars, period, i - 1).value, TrueRange(bars, i), period);
    }
  }

  lemma {:induction false} NoRangeIsFlat(bars: seq<Bar>, n: nat)
    requires ValidBars(bars) && n <= |bars| && forall j :: 0 <= j < n ==> TrueRange(bars, j) == 0.0
    ensures FlatUntil(bars, n)
  {
    if n > 0 {
      NoRangeIsFlat(bars, n - 1);
      assert ValidBar(bars[n - 1]) && TrueRange(bars, n - 1) == 0.0;
      if n > 1 {
        assert ValidBar(bars[n - 2]) && bars[n - 2].high == bars[n - 2].low;
      }
    }
  }

  ghost predicate AllAt(htf: seq<Bar>, price: real)
  {
    forall h :: 0 <= h < |htf| ==> htf[h].high == price && htf[h].low == price
  }

  lemma FlatTakeIn(r: seq<Bar>, b: Bar, start: int, price: real)
    requires AllAt(r, price) && b.high == price && b.low == price
    ensures AllAt(TakeIn(r, b, start), price)
  {
  }

  lemma {:induction false} FlatResample(bars: seq<Bar>, period: posint, k: nat, price: real)
    requires k <= |bars| && AllAt(bars[..k], price)
    ensures AllAt(Resample(bars, period, k), price)
  {
    hide TakeIn;
    if k > 0 {
      assert bars[..k][k - 1] == bars[k - 1];
      assert bars[..k - 1] == bars[..k][..k - 1];
      FlatResample(bars, period, k - 1, price);
      FlatTakeIn(Resample(bars, period, k - 1), bars[k - 1], Bucket(bars[k - 1].ts, period), price);
    }
  }

  lemma FlatHasNoPivot(htf: seq<Bar>, m: nat, price: real, left: posint, right: posint, c: nat)
    requires 0 < m <= |htf| && AllAt(htf[..m - 1], price)
    requires left <= c && ConfirmIndex(c, right) < m
    ensures EventsAt(htf, c, left, right) == []
  {
    assert htf[..m - 1][c] == htf[c] && htf[..m - 1][c + 1] == htf[c + 1];
    MaxHighBounds(htf, c + 1, c + right + 1, c + 1);
    MinLowBounds(htf, c + 1, c + right + 1, c + 1);
    assert !IsPivotHigh(htf, c, left, right) && !IsPivotLow(htf, c, left, right);
  }

  lemma {:induction false} FlatHasNoPivots(htf: seq<Bar>, m: nat, price: real, left: posint, right: posint, n: nat)
    requires 0 < m <= |htf| && AllAt(htf[..m - 1], price)
    requires n <= left || n + right < m
    ensures EventsBelow(htf, left, right, n) == []
  {
    hide EventsAt;
    if n > left {
      FlatHasNoPivots(htf, m, price, left, right, n - 1);
      FlatHasNoPivot(htf, m, price, left, right, n - 1);
    }
  }

  lemma FlatIsAtPrice(bars: seq<Bar>, n: nat)
    requires 0 < n && FlatUntil(bars, n)
    ensures AllAt(bars[..n], bars[0].low)
  {
    forall h | 0 <= h < n ensures bars[h].high == bars[0].low && bars[h].low == bars[0].low {
      assert bars[0].high == bars[h].low;
    }
  }

  lemma PartAt(htf: seq<Bar>, m: nat, price: real)
    requires m <= |htf| && AllAt(htf, price)
    ensures AllAt(htf[..m], price)
  {
  }

  /** While the bars have not moved no pivot is seen. */
  lemma FlatSeesNothing(bars: seq<Bar>, period: posint, left: posint, right: posint, i: nat)
    requires Chronological(bars) && i < |bars| && FlatUntil(bars, i + 1)
    ensures Lookup(EventTable(bars, period, left, right), bars[i].ts) == []
  {
    hide Resample, EventsBelow, AllEvents, Group, FlatUntil;
    var full, now := Resample(bars, period, |bars|), Resample(bars, period, i + 1);
    var m := |now|;
    EventsSeen(bars, period, left, right, i);
    LookupIsFilter(AllEvents(full, left, right), bars[i].ts);
    ResampleGrows(bars, period, i + 1, |bars|);
    assert AllAt(bars[..i + 1], bars[0].low) by {
      FlatIsAtPrice(bars, i + 1);
    }
    FlatResample(bars, period, i + 1, bars[0].low);
    PartAt(now, m - 1, bars[0].low);
    FlatHasNoPivots(full, m, bars[0].low, left, right, CandidateEnd(m, right));
  }

  /** The walk's inputs with ATR and pivots computed from its own bars. */
  ghost predicate FromBars(d: Features, atrPeriod: posint, period: posint, left: posint, right: posint)
  {
    && WellFormed(d) && Chronological(d.bars) && ValidBars(d.bars)
    && (forall i :: 0 <= i < |d.bars| ==> d.atr[i] == WilderAtr(d.bars, atrPeriod, i))
    && d.events == EventTable(d.bars, period, left, right)
  }

  lemma {:induction false} FlatHistory(d: Features, cfg: Config, atrPeriod: posint, period: posint, left: posint,
                                       right: posint, k: nat)
    requires FromBars(d, atrPeriod, period, left, right) && k <= |d.bars| && FlatUntil(d.bars, k)
    ensures HistoryAt(d, cfg, k) == Begin()
  {
    hide EventTable;
    if k > 0 {
      FlatHistory(d, cfg, atrPeriod, period, left, right, k - 1);
      FlatSeesNothing(d.bars, period, left, right, k - 1);
      assert Lookup(d.events, d.bars[k - 1].ts) == [];
    }
  }

  /** With an ATR period of two or more, computed from the bars like the pivots, no open position
      is ever without a stop distance: before the bars have moved there is no swing to enter on. */
  lemma ComputedAtrGivesRisk(d: Features, cfg: Config, prm: Params, atrPeriod: posint,
                             period: posint, left: posint, right: posint, k: nat)
    requires FromBars(d, atrPeriod, period, left, right) && atrPeriod >= 2 && k <= |d.bars|
    ensures
      var r := Run(d, cfg, prm, k);
      r.Ok? && r.value.position.Some? ==> r.value.position.value.risk > 0.0
  {
    hide Run, LongCondition, ShortCondition, EventTable, StopDistance, FlatUntil;
    var r := Run(d, cfg, prm, k);
    if r.Ok? && r.value.position.Some? {
      var b := r.value.position.value;
      SignalsAreGenuine(d, cfg, prm, k);
      RiskIsAtr(d, cfg, prm, k);
      assert b.risk >= 0.0;
      if ZeroAtrStop(d, prm, b.entryIndex) {
        var i := b.entryIndex - 1;
        ZeroAtrMeansNoRange(d.bars, atrPeriod, i);
        NoRangeIsFlat(d.bars, i + 1);
        FlatHistory(d, cfg, atrPeriod, period, left, right, i + 1);
        assert false;
      }
    }
  }

  /** So every position leaves by the end of its window. */
  lemma EveryPositionLeaves(d: Features, cfg: Config, prm: Params, atrPeriod: posint,
                            period: posint, left: posint, right: posint, k: nat)
    requires FromBars(d, atrPeriod, period, left, right) && atrPeriod >= 2 && k <= |d.bars|
    ensures
      var r := Run(d, cfg, prm, k);
      r.Ok? && r.value.position.Some? ==> k <= r.value.position.value.entryIndex + cfg.maxHold + 1
  {
    hide Run;
    var r := Run(d, cfg, prm, k);
    ComputedAtrGivesRisk(d, cfg, prm, atrPeriod, period, left, right, k);
    if r.Ok? && r.value.position.Some? && k > r.value.position.value.entryIndex + cfg.maxHold + 1 {
      OverstayMeansZeroRisk(d, cfg, prm, k);
      assert false;
    }
  }
}
