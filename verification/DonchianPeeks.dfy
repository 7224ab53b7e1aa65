/** The Donchian backtest reads the hour in progress: two loads that agree up to the last quarter of an
    hour, of which one takes a trade before it and the other does not. */
module DonchianPeeks {
  import opened Wrappers
  import opened Seqs
  import opened Market
  import opened Htf
  import opened AsOfLookup
  import opened Donchian
  import opened DonchianSignals
  import opened DonchianFrames
  import opened DonchianCausality
  import opened DonchianSeries

  /** The default parameters of `run_config`. */
  const DEFAULT_PARAMS :=
    Params(false, 10.0, 40.0, 1.5, 1.5, true, 50.0, false, 2.0, true, 32, CASE_COSTS, 0.0001, 80)

  /** Bar 85 spikes to 20 and comes back, and the hour of bars 84 to 87 closes where it was. */
  function RecoveredLoad(): (bars: seq<Bar>)
    ensures |bars| == 88
  {
    CaseBars(20.0, 10.0, 88)
  }

  /** The same bars, but the hour closes low. */
  function FallenLoad(): (bars: seq<Bar>)
    ensures |bars| == 88
  {
    EndingAt(RecoveredLoad(), 87, 9.5)
  }

  lemma LoadsAreRivals()
    ensures Chronological(RecoveredLoad()) && ValidBars(RecoveredLoad())
    ensures Rival(RecoveredLoad(), FallenLoad(), 87)
  {
    EndingIsRival(RecoveredLoad(), 87, 9.5);
  }

  lemma FallenIsCase()
    ensures IsCase(FallenLoad(), 20.0, 10.0, 87)
  {
    var bars := FallenLoad();
    forall i | 0 <= i < 87 ensures bars[..87][i] == CaseBar(i, 20.0, 10.0) {
      assert bars[i] == RecoveredLoad()[i];
    }
    assert bars[..87] == CaseBars(20.0, 10.0, 87);
    assert Quarters(bars);
  }

  // ------------------------------------------------------------ readings of the fallen load

  /** A resampled bar that only starts by bar 86 has an old close, but for those of the last bar. */
  lemma FallenCloses(period: posint, h: nat)
    requires period == HALF_HOUR || period == HOUR
    requires h < |Resample(FallenLoad(), period, 88)|
    ensures
      var r := Resample(FallenLoad(), period, 88);
      r[h].close == if h == |r| - 1 then 9.5 else 10.0
  {
    hide Resample, EndsBucket, FallenLoad;
    var bars := FallenLoad();
    FallenIsCase();
    QuartersInOrder(bars);
    NewestClose(bars, period, 88);
    assert bars[87].close == 9.5 by {
      LastIsFallen();
    }
    if h < |Resample(bars, period, 88)| - 1 {
      var j := ClosesOfLastBar(bars, period, 88, h);
      EndsInside(bars, period, 88, j);
      FallIsHidden(bars, 88, j);
      ResampleChronological(bars, period, 88);
      CaseBarAt(bars, 20.0, 10.0, 87, j);
    }
  }

  lemma LastIsFallen()
    ensures FallenLoad()[87] == Bar(78300, 9.5, 9.5, 9.5, 9.5)
  {
  }

  lemma {:induction false} FallenReading(period: posint, i: nat)
    requires 60 <= i < 88 && (period == HALF_HOUR || period == HOUR)
    ensures
      var n, m := |Resample(FallenLoad(), period, 88)|, |Resample(FallenLoad(), period, i + 1)|;
      Lookup(RsiOf, FallenLoad(), period, i) == Some(if m == n then 0.0 else 100.0)
  {
    hide Resample, RsiOf, Lookup, FallenLoad;
    var bars := FallenLoad();
    FallenIsCase();
    QuartersInOrder(bars);
    LookupIsReading(RsiOf, bars, period, i);
    HalfHours(bars, i + 1);
    Hours(bars, i + 1);
    var htf, m := Resample(bars, period, 88), |Resample(bars, period, i + 1)|;
    forall h | 0 <= h < m ensures htf[..m][h].close == if h == |htf| - 1 then 9.5 else 10.0 {
      FallenCloses(period, h);
    }
    if m == |htf| {
      FallReading(htf[..m]);
    } else {
      SteadyReading(htf[..m]);
    }
  }

  /** The half-hours hide the fall until bar 86, the hour shows it from bar 84 on. */
  lemma FallenFrames(i: nat)
    requires 80 <= i < 88
    ensures
      var x := Prepare(FallenLoad());
      && x.rsi30[i] == Some(if i >= 86 then 0.0 else 100.0)
      && x.rsi1h[i] == Some(if i >= 84 then 0.0 else 100.0)
  {
    hide Resample, RsiOf, Lookup, FallenLoad;
    FallenIsCase();
    HalfHours(FallenLoad(), i + 1);
    Hours(FallenLoad(), i + 1);
    HalfHours(FallenLoad(), 88);
    Hours(FallenLoad(), 88);
    FallenReading(HALF_HOUR, i);
    FallenReading(HOUR, i);
  }

  lemma FallenIsQuiet(i: nat)
    requires i < 87
    ensures SignalAt(CASE_FILTERS, Prepare(FallenLoad()), i).Some? ==>
      SignalAt(CASE_FILTERS, Prepare(FallenLoad()), i).value == Triggers(false, false)
  {
    hide Prepare, FallenLoad, Decide, MemoryAt;
    if i >= 80 {
      FallenIsCase();
      FallenFrames(i);
      if i == 86 {
        CaseBarAt(FallenLoad(), 20.0, 10.0, 87, 86);
        StillBarIsSilent(CASE_FILTERS, Prepare(FallenLoad()), 86);
      } else {
        if i < 84 {
          CaseRsi(FallenLoad(), 20.0, 10.0, 87, i);
        }
        UncrossedIsSilent(CASE_FILTERS, Prepare(FallenLoad()), i);
      }
    }
  }

  // ------------------------------------------------------------ the two runs

  function InputFrom(bars: seq<Bar>): (d: Input)
    ensures WellFormed(d) && d.bars == bars
  {
    InputOf(CASE_FILTERS, Prepare(bars))
  }

  function TradesOf(bars: seq<Bar>): seq<Record>
  {
    Run(DEFAULT_PARAMS, InputFrom(bars), |bars|).records
  }

  function SignalOn(bars: seq<Bar>, i: nat): Option<Triggers>
    requires i < |bars|
  {
    SignalAt(CASE_FILTERS, Prepare(bars), i)
  }

  lemma FallenRun()
    ensures Run(DEFAULT_PARAMS, InputFrom(FallenLoad()), 87).records == []
  {
    hide Prepare, FallenLoad, SignalAt, Run;
    var d := InputFrom(FallenLoad());
    forall i | 0 <= i < 87 && d.signals[i].Some? ensures d.signals[i].value == Triggers(false, false) {
      FallenIsQuiet(i);
    }
    NothingHappens(DEFAULT_PARAMS, d, 87);
  }

  /** The short that is filled at bar 85 is stopped out by its spike. */
  lemma SpikeStopsOut(d: Input, s: LoopState)
    requires WellFormed(d) && 85 < |d.bars| && d.bars[85] == CaseBar(85, 20.0, 10.0)
    requires s == Start().(pending := Some(Pending(Short, 4.5 / 14.0)))
    ensures |StepBar(DEFAULT_PARAMS, d, 85, s).records| == 1
  {
    var b := Enter(DEFAULT_PARAMS, d.bars[85], 85, Pending(Short, 4.5 / 14.0));
    assert b.entryPrice == 9.9996 && b.sl == 9.9996 + 6.75 / 14.0;
    var stop := EffectiveStop(DEFAULT_PARAMS, b, d.bars[85], d.atr[85]);
    assert stop <= b.sl < 20.0;
    hide Enter, EffectiveStop, ExitPnl, CounterPnl;
    assert Fill(DEFAULT_PARAMS, d, 85, s) == s.(position := Some(b), pending := None);
  }

  lemma RecoveredSteps()
    ensures |Run(DEFAULT_PARAMS, InputFrom(RecoveredLoad()), 86).records| == 1
  {
    hide Prepare, StepBar;
    CaseCloses(20.0, 10.0, 88);
    assert FramesSteady(RecoveredLoad(), 84);
    ArmsAtBar84(DEFAULT_PARAMS, RecoveredLoad(), 20.0, 10.0, 88);
    var d := InputFrom(RecoveredLoad());
    SpikeStopsOut(d, Run(DEFAULT_PARAMS, d, 85));
    assert Run(DEFAULT_PARAMS, d, 86) == StepBar(DEFAULT_PARAMS, d, 85, Run(DEFAULT_PARAMS, d, 85));
  }

  /** Two loads with the same first 87 bars, default filters and default parameters: on one bar 84
      fires a short and the trade is closed on bar 85, on the other bar 84 fires nothing and no trade
      is closed before bar 87. They differ only in bar 87, on which the hour closes. */
  lemma HourCloseIsReadEarly()
    ensures Rival(RecoveredLoad(), FallenLoad(), 87)
    ensures SignalOn(RecoveredLoad(), 84) == Some(Triggers(false, true))
    ensures SignalOn(FallenLoad(), 84) != Some(Triggers(false, true))
    ensures Filter(TradesOf(RecoveredLoad()), ExitsBefore(87)) != []
    ensures Filter(TradesOf(FallenLoad()), ExitsBefore(87)) == []
  {
    hide Prepare, Run, SignalAt, RecoveredLoad, FallenLoad, InputFrom;
    LoadsAreRivals();
    RecoveredFires();
    FallenIsQuiet(84);
    RecoveredSteps();
    LaterExitLater(DEFAULT_PARAMS, InputFrom(RecoveredLoad()), 86, 87);
    SettledBefore(DEFAULT_PARAMS, InputFrom(RecoveredLoad()), 87);
    FallenRun();
    SettledBefore(DEFAULT_PARAMS, InputFrom(FallenLoad()), 87);
  }

  lemma RecoveredFires()
    ensures SignalAt(CASE_FILTERS, Prepare(RecoveredLoad()), 84) == Some(Triggers(false, true))
  {
    hide Prepare, SignalAt;
    CaseCloses(20.0, 10.0, 88);
    assert FramesSteady(RecoveredLoad(), 84);
    CaseFires(RecoveredLoad(), 20.0, 10.0, 88);
  }
}
