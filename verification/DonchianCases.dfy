/** Runs of the Donchian backtest from raw bars: a stop that loosens, a window without any alignment,
    a stop-out sized by a single unit, and a stop that a bar's own close has moved. */
module DonchianCases {
  import opened Wrappers
  import opened Market
  import opened Donchian
  import opened DonchianSignals
  import opened DonchianStops
  import opened DonchianExits
  import opened DonchianKnownStops
  import opened DonchianLoosening
  import opened DonchianFrames
  import opened DonchianSeries

  const TRAILING_PARAMS :=
    Params(false, 10.0, 40.0, 2.8, 2.8, false, 50.0, true, 1.4, false, 32, CASE_COSTS, 0.0001, 80)

  const BREAKEVEN_PARAMS :=
    Params(false, 10.0, 40.0, 2.8, 2.8, true, 50.0, false, 1.4, false, 32, CASE_COSTS, 0.0001, 80)

  /** One hundred bars, whose bar 85 may dip to `low`. */
  function DipBars(low: real): (bars: seq<Bar>)
    ensures |bars| == 100
  {
    CaseBars(10.0, low, 100)
  }

  function CaseInput(low: real): (d: Input)
    ensures WellFormed(d) && d.bars == DipBars(low)
  {
    InputOf(CASE_FILTERS, Prepare(DipBars(low)))
  }

  /** No bar after bar 84 fires. */
  lemma QuietAfter(low: real, i: nat)
    requires low <= 10.0 && 85 <= i < 100
    ensures CaseInput(low).signals[i].Some? ==> CaseInput(low).signals[i].value == Triggers(false, false)
  {
    hide Prepare, Decide, MemoryAt;
    var bars := DipBars(low);
    CaseCloses(10.0, low, 100);
    if i == 85 {
      SteadyAt(bars, 99, 85);
      CaseRsi(bars, 10.0, low, 100, 84);
      UncrossedIsSilent(CASE_FILTERS, Prepare(bars), 85);
    } else {
      assert bars[i] == CaseBar(i, 10.0, low);
      StillBarIsSilent(CASE_FILTERS, Prepare(bars), i);
    }
  }

  lemma CaseArms(prm: Params, low: real)
    requires prm.warmup == 80 && low <= 10.0
    ensures Run(prm, CaseInput(low), 85) == Start().(pending := Some(Pending(Short, 4.5 / 14.0)))
  {
    hide Prepare, Run, InputOf;
    CaseCloses(10.0, low, 100);
    assert FramesSteady(DipBars(low), 84);
    ArmsAtBar84(prm, DipBars(low), 10.0, low, 100);
  }

  /** Sums of ranges when bar 85 does not dip: it only gaps back from the close of bar 84. */
  lemma {:induction false} DipRanges(lo: nat, hi: nat)
    requires lo <= hi <= 100
    ensures RangesOf(DipBars(10.0), lo, hi)
         == (if lo <= 80 < hi then 2.0 else 0.0) + (if lo <= 84 < hi then 2.5 else 0.0)
            + (if lo <= 85 < hi then 0.5 else 0.0)
  {
    if lo < hi {
      DipRanges(lo, hi - 1);
      if hi == 86 {
        assert DipBars(10.0)[85] == CaseBar(85, 10.0, 10.0) && DipBars(10.0)[84] == CaseBar(84, 10.0, 10.0);
      } else {
        CaseRange(10.0, 10.0, 100, hi - 1);
      }
    }
  }

  lemma DipAtr(i: nat)
    requires 85 <= i < 100
    ensures CaseInput(10.0).atr[i]
         == Some((if i < 94 then 5.0 else if i < 98 then 3.0 else if i == 98 then 0.5 else 0.0) / 14.0)
  {
    hide ListAtr, DipBars;
    DipListAtr(i);
  }

  lemma DipListAtr(i: nat)
    requires 85 <= i < 100
    ensures ListAtr(DipBars(10.0), PERIOD, i)
         == Some((if i < 94 then 5.0 else if i < 98 then 3.0 else if i == 98 then 0.5 else 0.0) / 14.0)
  {
    hide RangesOf;
    DipRanges(i - 13, i + 1);
  }

  // ------------------------------------------------------------ a stop that loosens

  /** Nothing on the bar makes the position leave. */
  lemma HoldStep(prm: Params, d: Input, i: nat, s: LoopState)
    requires WellFormed(d) && i < |d.bars| && s.pending.None? && s.position.Some?
    requires d.signals[i].Some? ==> d.signals[i].value == Triggers(false, false)
    requires ExitOn(prm, Adjust(prm, s.position.value, d.bars[i], d.atr[i]), d.bars[i], i,
                    EffectiveStop(prm, s.position.value, d.bars[i], d.atr[i])).None?
    ensures StepBar(prm, d, i, s) == s.(position := Some(Adjust(prm, s.position.value, d.bars[i], d.atr[i])))
  {
    hide Adjust, EffectiveStop, ExitOn;
    SilentStep(prm, d, i, s);
  }

  /** The stop on bar `j`: the trail of the range still in the ATR, and the entry stop without one. */
  function StopOn(j: nat): real
  {
    if j < 94 then 10.5 else if j < 98 then 10.3 else if j == 98 then 10.05 else 10.8996
  }

  /** The position opened at bar 85, as it is when bar `k` is reached. */
  function Trailed(k: nat): Position
    requires 85 <= k <= 100
  {
    Position(Short, 9.9996, 85, 9.0996, 10.8996, false,
             if k == 85 then None else Some(if k == 100 then 10.05 else StopOn(k - 1)),
             seq(k - 85, j requires 0 <= j < k - 85 => StopOn(85 + j)))
  }

  lemma TrailStep(k: nat)
    requires 85 <= k < 100
    ensures
      var bar, atr := CaseBar(k, 10.0, 10.0), CaseInput(10.0).atr[k];
      && Adjust(TRAILING_PARAMS, Trailed(k), bar, atr) == Trailed(k + 1)
      && ExitOn(TRAILING_PARAMS, Trailed(k + 1), bar, k, EffectiveStop(TRAILING_PARAMS, Trailed(k), bar, atr)).None?
  {
    hide CaseInput;
    DipAtr(k);
    var b, bar, atr := Trailed(k), CaseBar(k, 10.0, 10.0), CaseInput(10.0).atr[k];
    assert SlDistance(b) == 0.9 && TpDistance(b) == 0.9 && !BreakevenAfter(TRAILING_PARAMS, b, bar);
    if k < 94 {
      assert TrailCandidate(TRAILING_PARAMS, Short, bar, 5.0 / 14.0) == 10.5;
    } else if k < 98 {
      assert TrailCandidate(TRAILING_PARAMS, Short, bar, 3.0 / 14.0) == 10.3;
    } else if k == 98 {
      assert TrailCandidate(TRAILING_PARAMS, Short, bar, 0.5 / 14.0) == 10.05;
    }
    assert EffectiveStop(TRAILING_PARAMS, b, bar, atr) == StopOn(k);
    assert Adjust(TRAILING_PARAMS, b, bar, atr).stops == Trailed(k + 1).stops;
  }

  lemma EntersAtBar85(low: real)
    requires low <= 10.0
    ensures Enter(TRAILING_PARAMS, CaseBar(85, 10.0, low), 85, Pending(Short, 4.5 / 14.0)) == Trailed(85)
    ensures Enter(BREAKEVEN_PARAMS, CaseBar(85, 10.0, low), 85, Pending(Short, 4.5 / 14.0)) == Trailed(85)
  {
  }

  lemma {:induction false} TrailsOn(k: nat)
    requires 86 <= k <= 100
    ensures Run(TRAILING_PARAMS, CaseInput(10.0), k) == Start().(position := Some(Trailed(k)))
  {
    hide Trailed, Adjust, EffectiveStop, ExitOn, CaseInput;
    var prm, d := TRAILING_PARAMS, CaseInput(10.0);
    QuietAfter(10.0, k - 1);
    TrailStep(k - 1);
    assert d.bars[k - 1] == CaseBar(k - 1, 10.0, 10.0);
    var entered := Start().(position := Some(Trailed(85)));
    if k == 86 {
      CaseArms(prm, 10.0);
      EntersAtBar85(10.0);
      FillThenManage(prm, d, 85, Run(prm, d, 85), entered);
      HoldStep(prm, d, 85, entered);
    } else {
      TrailsOn(k - 1);
      HoldStep(prm, d, k - 1, Run(prm, d, k - 1));
    }
  }

  /** A stop that loosens inside a run: the list's ATR is 0.5/14 at bar 98 and zero at bar 99, after
      fourteen bars without a range, and the stop goes from 10.05 back to the entry stop. */
  lemma MissingAtrLoosensStop()
    ensures
      var s := Run(TRAILING_PARAMS, CaseInput(10.0), 100);
      && s.position.Some? && |s.position.value.stops| == 15
      && s.position.value.stops[13..] == [10.05, 10.8996] && !NeverLoosens(Short, s.position.value.stops)
    ensures CaseInput(10.0).atr[99] == Some(0.0)
  {
    hide Run, CaseInput;
    TrailsOn(100);
    TrailLoosens();
    DipAtr(99);
  }

  lemma TrailLoosens()
    ensures
      var stops := Trailed(100).stops;
      |stops| == 15 && stops[13..] == [10.05, 10.8996] && !NeverLoosens(Short, stops)
  {
    var stops := Trailed(100).stops;
    assert stops[13] == 10.05 && stops[14] == 10.8996;
    assert stops[13..] == [10.05, 10.8996];
  }

  /** In the same run the entry bar's own close has already moved its stop, from 10.8996 to 10.5. */
  lemma OwnCloseMovesStop()
    ensures
      var prm, d, b := TRAILING_PARAMS, CaseInput(10.0), Trailed(85);
      && Run(prm, d, 86).position == Some(Trailed(86)) && Trailed(86).stops == [10.5]
      && KnownStopIs(prm, d, b, 85, 10.8996) && MovedByClose(prm, d, b, 85, 10.8996)
  {
    hide CaseInput, Run;
    TrailsOn(86);
    DipAtr(85);
    var prm, d, b := TRAILING_PARAMS, CaseInput(10.0), Trailed(85);
    assert d.bars[85] == CaseBar(85, 10.0, 10.0) && FeedsTrail(prm, d, 85);
    assert BreakevenIs(prm, d, b, 85, false) && TrailIs(prm, d, b, 85, None);
    assert Carried(b, false, None) == 10.8996;
    assert Trailed(86).stops[0] == 10.5;
  }

  // ------------------------------------------------------------ the other cases

  /** With a window one bar longer than the warm-up the same series fires a short on its first
      scanned bar, although nothing was ever aligned. */
  lemma NeverAlignedFires()
    ensures
      var f, x := CASE_FILTERS.(warmup := 84, confirmBars := 85), Prepare(DipBars(10.0));
      SignalAt(f, x, 84) == Some(Triggers(false, true)) && NeverAligned(f, x, 84, Short)
  {
    hide Prepare, PreviousHigh, PreviousLow, MemoryAt, SignalAt;
    var f, x := CASE_FILTERS.(warmup := 84, confirmBars := 85), Prepare(DipBars(10.0));
    CaseCloses(10.0, 10.0, 100);
    SteadyAt(DipBars(10.0), 99, 83);
    SteadyAt(DipBars(10.0), 99, 84);
    CaseSetup(DipBars(10.0), 10.0, 10.0, 100);
    SameFilters(f, x);
    CaseRsi(DipBars(10.0), 10.0, 10.0, 100, 83);
    TriggersAreSetups(f, x, 84);
    assert NeverAligned(f, x, 84, Short);
    assert WindowAccepts(f, x, 84, Short);
  }

  /** The setups do not depend on the warm-up or on the window. */
  lemma SameFilters(f: Filters, x: Indicators)
    requires SameLengths(x) && 84 < |x.bars| && f == CASE_FILTERS.(warmup := 84, confirmBars := 85)
    requires Checked(CASE_FILTERS, x, 84) && x.rsi15[83].Some?
    ensures Checked(f, x, 84) && FullOb(f, x, 84) == FullOb(CASE_FILTERS, x, 84)
    ensures ShortSetup(f, x, 84) == ShortSetup(CASE_FILTERS, x, 84)
    ensures LongSetup(f, x, 84) == LongSetup(CASE_FILTERS, x, 84)
  {
  }

  /** A stop-out sized by a single unit: bar 85 dips far enough for break-even and comes back, the
      stop in force is the entry price, and the trade books slippage on one unit and commission
      instead of one percent of the balance. */
  lemma BreakevenStopIsOneUnit()
    ensures
      var s := Run(BREAKEVEN_PARAMS, CaseInput(9.4), 86);
      && |s.records| == 1 && s.records[0].reason == SlExit && s.records[0].beActive
      && s.records[0].stops == [s.records[0].entryPrice]
      && s.records[0].pnl == -6.0002 && s.balance == 99993.9998
  {
    hide CaseInput, Trailed;
    var prm, d := BREAKEVEN_PARAMS, CaseInput(9.4);
    CaseArms(prm, 9.4);
    EntersAtBar85(9.4);
    QuietAfter(9.4, 85);
    assert d.bars[85] == CaseBar(85, 10.0, 9.4);
    var s, t := Run(prm, d, 85), Start().(position := Some(Trailed(85)));
    FillThenManage(prm, d, 85, s, t);
    SilentStep(prm, d, 85, t);
    BreakevenExit(d.atr[85]);
  }

  lemma BreakevenExit(atr: Option<real>)
    ensures
      var b, bar := Trailed(85), CaseBar(85, 10.0, 9.4);
      var stop, moved := EffectiveStop(BREAKEVEN_PARAMS, b, bar, atr), Adjust(BREAKEVEN_PARAMS, b, bar, atr);
      && stop == 9.9996 && moved.beActive && moved.stops == [9.9996] && moved.entryPrice == 9.9996
      && ExitOn(BREAKEVEN_PARAMS, moved, bar, 85, stop) == Some((stop, SlExit))
      && ExitPnl(BREAKEVEN_PARAMS, moved, 100000.0, stop, stop) == -6.0002
  {
    var b := Trailed(85);
    assert TpDistance(b) == 0.9 && BeTrigger(BREAKEVEN_PARAMS, b) == 0.45;
  }
}
