/** A run of the HTF-Fib walk, from raw bars, that holds a position without a stop distance beyond its window. */
module FibOverstay {
  import opened Wrappers
  import opened Market
  import opened Costs
  import opened Htf
  import opened HtfNesting
  import opened AsOfLookup
  import opened Swing
  import opened SwingRuns
  import opened Pivots
  import opened FibModel
  import opened FibWalk
  import opened FibRuns
  import opened FibCausality
  import opened FibFrames
  import opened FibWindows

  // ------------------------------------------------------------ the series

  function PriceAt(k: nat): real
  {
    if k <= 11 then 1.0 else if k == 12 then 15.0 else if k == 13 then 11.0 else 5.0
  }

  /** Still at 1, a jump to 15, and still at 5 inside the levels of that swing; one bar every four hours. */
  function SwingBars(): (bars: seq<Bar>)
    ensures |bars| == 18
    ensures forall k :: 0 <= k < 18 ==>
      bars[k] == Bar(14400 * k, PriceAt(k), PriceAt(k), PriceAt(k), PriceAt(k))
  {
    seq(18, k requires 0 <= k < 18 => Bar(14400 * k, PriceAt(k), PriceAt(k), PriceAt(k), PriceAt(k)))
  }

  function SwingRates(): (usd: seq<pos>)
    ensures |usd| == 18
  {
    seq(18, _ => 1.0)
  }

  function SwingFeatures(): (d: Features)
    ensures WellFormed(d) && d.bars == SwingBars()
  {
    Prepare(SwingBars(), SwingRates(), 1, FOUR_HOURS, 1, 1)
  }

  const SWING_CONFIG := Config(100.0, 60.0, true, false, false, false, true, 1.0, 1.0, 0)

  const SWING_PARAMS := Params(CostBook(2.0, 2.0, 3.0, 1.0), 0.0001, 100000.0, 0.01, None, None)

  lemma SwingInOrder()
    ensures Chronological(SwingBars()) && ValidBars(SwingBars())
  {
  }

  // ------------------------------------------------------------ frames and pivots

  lemma OwnBucket(k: nat)
    ensures Bucket(14400 * k, HALF_HOUR) == Bucket(14400 * k, HOUR) == Bucket(14400 * k, FOUR_HOURS) == 14400 * k
  {
    hide Bucket;
    Between(8 * k, 14400 * k, HALF_HOUR);
    Between(4 * k, 14400 * k, HOUR);
    Between(k, 14400 * k, FOUR_HOURS);
  }

  /** Bars that begin where their buckets do are their own higher-timeframe bars. */
  lemma {:induction false} OwnBars(bars: seq<Bar>, period: posint, k: nat)
    requires k <= |bars| && Chronological(bars)
    requires forall i :: 0 <= i < |bars| ==> Bucket(bars[i].ts, period) == bars[i].ts
    ensures Resample(bars, period, k) == bars[..k]
  {
    hide Bucket, TakeIn;
    if k > 0 {
      OwnBars(bars, period, k - 1);
      NewBar(bars, k - 1);
    }
  }

  lemma NewBar(bars: seq<Bar>, i: nat)
    requires i < |bars| && Chronological(bars)
    ensures TakeIn(bars[..i], bars[i], bars[i].ts) == bars[..i + 1]
  {
    hide Merge;
    assert bars[..i + 1] == bars[..i] + [bars[i]];
    assert i > 0 ==> bars[..i][i - 1] == bars[i - 1] && bars[i - 1].ts < bars[i].ts;
  }

  lemma SwingResample(period: posint, k: nat)
    requires k <= 18 && (period == HALF_HOUR || period == HOUR || period == FOUR_HOURS)
    ensures Resample(SwingBars(), period, k) == SwingBars()[..k]
  {
    hide Bucket;
    var bars := SwingBars();
    SwingInOrder();
    forall i | 0 <= i < |bars| ensures Bucket(bars[i].ts, period) == bars[i].ts {
      OwnBucket(i);
      assert bars[i].ts == 14400 * i;
    }
    OwnBars(bars, period, k);
  }

  const SWING_LOW := PivotEvent(187200, 158400, Low, 1.0)

  const SWING_HIGH := PivotEvent(201600, 172800, High, 15.0)

  lemma CandidateEvents(c: nat)
    requires 1 <= c <= 15
    ensures EventsAt(SwingBars(), c, 1, 1) == if c == 11 then [SWING_LOW] else if c == 12 then [SWING_HIGH] else []
  {
    var bars := SwingBars();
    assert MaxHigh(bars, c - 1, c) == PriceAt(c - 1) && MinLow(bars, c - 1, c) == PriceAt(c - 1);
    assert MaxHigh(bars, c + 1, c + 2) == PriceAt(c + 1) && MinLow(bars, c + 1, c + 2) == PriceAt(c + 1);
    assert bars[c].ts == 14400 * c && bars[c + 2].ts == 14400 * (c + 2);
  }

  lemma {:induction false} CandidatesBelow(n: nat)
    requires 1 <= n <= 16
    ensures EventsBelow(SwingBars(), 1, 1, n)
         == if n <= 11 then [] else if n == 12 then [SWING_LOW] else [SWING_LOW, SWING_HIGH]
  {
    hide EventsAt, SwingBars;
    if n > 1 {
      CandidatesBelow(n - 1);
      CandidateEvents(n - 1);
    }
  }

  lemma SwingEvents()
    ensures AllEvents(Resample(SwingBars(), FOUR_HOURS, 18), 1, 1) == [SWING_LOW, SWING_HIGH]
  {
    hide EventsBelow, Resample, SwingBars;
    SwingResample(FOUR_HOURS, 18);
    assert SwingBars()[..18] == SwingBars();
    CandidatesBelow(16);
  }

  lemma SwingSeen(i: nat)
    requires i < 18
    ensures EventsOn(SwingFeatures(), i) == if i == 13 then [SWING_LOW] else if i == 14 then [SWING_HIGH] else []
  {
    hide AllEvents, Resample, Group, SwingBars, Prepare;
    SwingEvents();
    assert SwingFeatures().events == EventTable(SwingBars(), FOUR_HOURS, 1, 1);
    assert SwingFeatures().bars[i].ts == 14400 * i;
    LookupIsFilter([SWING_LOW, SWING_HIGH], 14400 * i);
    assert FibCausality.Lookup(SwingFeatures().events, 14400 * i)
        == FibCausality.Lookup(Group([SWING_LOW, SWING_HIGH]), 14400 * i);
  }

  // ------------------------------------------------------------ indicators

  lemma SwingAtr()
    ensures SwingFeatures().atr[15] == Some(0.0)
  {
    assert TrueRange(SwingBars(), 15) == 0.0;
    assert WilderAtr(SwingBars(), 1, 14).Some?;
  }

  /** The slow average stays near the start of the series. */
  lemma {:induction false} SlowAverage(i: nat)
    requires i < 18
    ensures 1.0 <= Ema(SwingBars(), 200, i) <= if i <= 11 then 1.0 else 1.0 + 0.15 * (i - 11) as real
  {
    if i > 0 {
      SlowAverage(i - 1);
      var e, x := Ema(SwingBars(), 200, i - 1), PriceAt(i);
      assert Ema(SwingBars(), 200, i) == 2.0 / 201.0 * x + (1.0 - 2.0 / 201.0) * e;
    }
  }

  /** The confirmed readings of a bar come from the bars before it. */
  lemma ConfirmedBefore(period: posint, i: nat)
    requires i < 18 && (period == HALF_HOUR || period == HOUR)
    ensures Confirmed(RsiOf, SwingBars(), period, i) == if i == 0 then None else RsiOf(SwingBars()[..i])
  {
    hide Resample, Begun, RsiOf, SwingBars;
    SwingInOrder();
    BegunIsBuilt(SwingBars(), period, i);
    SwingResample(period, i + 1);
    SwingResample(period, 18);
    assert SwingBars()[..18][..i] == SwingBars()[..i];
  }

  lemma ShortPrefix(i: nat)
    requires i <= 14
    ensures RsiOf(SwingBars()[..i]) == None
  {
  }

  lemma LongPrefix(i: nat)
    requires 15 <= i <= 18
    ensures RsiOf(SwingBars()[..i]).Some? && 0.0 <= RsiOf(SwingBars()[..i]).value <= 100.0
  {
    RsiAfterBounds(ClosesOf(SwingBars()[..i]), RSI_PERIOD);
  }

  // ------------------------------------------------------------ the walk until the signal

  /** The swing before bar 13, after its pivot, and after that of bar 14. */
  function SwingStage(stage: nat): History
  {
    if stage == 0 then Begin()
    else if stage == 1 then Apply(Begin(), Pivot(SWING_LOW))
    else Apply(SwingStage(1), Pivot(SWING_HIGH))
  }

  function StageAt(i: nat): nat
  {
    if i < 13 then 0 else if i == 13 then 1 else 2
  }

  lemma SwingDrawn()
    ensures SwingStage(0).swing.direction == 0 && SwingStage(1).swing.direction == 0
    ensures
      var s := SwingStage(2).swing;
      s.direction == 1 && s.fib618 == Some(6.348) && s.fib786 == Some(3.996) && s.version == 1
  {
  }

  lemma SwingStep(i: nat)
    requires i < 18
    ensures SwingOn(SwingFeatures(), SWING_CONFIG, i, if i == 0 then Begin() else SwingStage(StageAt(i - 1)))
         == SwingStage(StageAt(i))
  {
    hide SwingFeatures, EventsOn, Apply;
    SwingSeen(i);
    var h := if i == 0 then Begin() else SwingStage(StageAt(i - 1));
    assert ConsumeAll(h, []) == h;
  }

  /** A flat walk only takes the pivots of a bar in when an input of the entry test is missing. */
  lemma FlatWalkWaits(d: Features, cfg: Config, prm: Params, i: nat, s: FibState)
    requires WellFormed(d) && i < |d.bars| && d.rsi30[i].None?
    requires s.position.None? && s.pending.None? && !s.previousLong && !s.previousShort
    ensures StepBar(d, cfg, prm, i, s, true) == Ok(s.(history := SwingOn(d, cfg, i, s.history)))
  {
    hide SwingOn, LongCondition, ShortCondition;
  }

  lemma NotReadable(i: nat)
    requires i <= 14
    ensures SwingFeatures().rsi30[i] == None
  {
    hide RsiOf, Confirmed, SwingBars;
    ConfirmedBefore(HALF_HOUR, i);
    ShortPrefix(i);
  }

  /** Before the first confirmed reading of the RSI at bar 15 the walk has only followed the swing. */
  lemma {:induction false} WaitsForSwing(k: nat)
    requires k <= 15
    ensures
      var start := Start(SWING_PARAMS);
      Run(SwingFeatures(), SWING_CONFIG, SWING_PARAMS, k)
        == Ok(start.(history := if k == 0 then Begin() else SwingStage(StageAt(k - 1))))
  {
    hide SwingFeatures, SwingOn, StepBar, SwingStage, Apply;
    if k > 0 {
      var d, cfg, prm := SwingFeatures(), SWING_CONFIG, SWING_PARAMS;
      WaitsForSwing(k - 1);
      SwingStep(k - 1);
      NotReadable(k - 1);
      var s := Run(d, cfg, prm, k - 1).value;
      FlatWalkWaits(d, cfg, prm, k - 1, s);
    }
  }

  lemma SignalReadings()
    ensures
      var d := SwingFeatures();
      && d.rsi15[15].Some? && d.rsi30[15].Some? && d.rsi1h[15].Some? && d.atr[15].Some?
      && d.rsi15[15].value <= 100.0 && d.rsi30[15].value <= 100.0 && d.rsi1h[15].value <= 100.0
      && d.ema200[15] < 5.0 && d.bars[15].close == 5.0
  {
    hide RsiOf, Confirmed, Ema, WilderAtr;
    LongPrefix(15);
    LongPrefix(16);
    ConfirmedBefore(HALF_HOUR, 15);
    ConfirmedBefore(HOUR, 15);
    SlowAverage(15);
    SwingAtr();
  }

  lemma StillBarCondition()
    ensures SwingOn(SwingFeatures(), SWING_CONFIG, 15, SwingStage(2)) == SwingStage(2)
    ensures Readable(SwingFeatures(), 15, SwingStage(2).swing)
    ensures LongCondition(SwingFeatures(), SWING_CONFIG, 15, SwingStage(2).swing)
    ensures SwingFeatures().atr[15] == Some(0.0)
  {
    hide SwingFeatures, SwingOn;
    SwingStep(15);
    SwingDrawn();
    SignalReadings();
    SwingAtr();
  }

  /** A flat walk arms a long when the condition has just become true. */
  lemma FlatWalkSignals(d: Features, cfg: Config, prm: Params, i: nat, s: FibState)
    requires WellFormed(d) && i + 1 < |d.bars| && s.position.None? && s.pending.None? && !s.previousLong
    requires SwingOn(d, cfg, i, s.history) == s.history
    requires Readable(d, i, s.history.swing) && LongCondition(d, cfg, i, s.history.swing)
    requires s.tradedVersion != s.history.swing.version
    ensures
      var r := StepBar(d, cfg, prm, i, s, true);
      r.Ok? && r.value.pending == Some(Pending(Long, d.atr[i].value)) && r.value.position.None?
  {
    hide SwingOn, Readable, LongCondition, ShortCondition;
  }

  /** Filling a signal with an ATR of zero opens a position without a stop distance, which no exit
      of the same bar can close. */
  lemma ZeroAtrFills(d: Features, cfg: Config, prm: Params, i: nat, s: FibState)
    requires WellFormed(d) && i < |d.bars| && prm.stopFraction.None?
    requires s.pending == Some(Pending(Long, 0.0)) && s.position.None?
    ensures
      var r := StepBar(d, cfg, prm, i, s, true);
      && r.Ok? && r.value.position.Some?
      && r.value.position.value.entryIndex == i && r.value.position.value.risk == 0.0
  {
    hide SwingOn, Readable, LongCondition, ShortCondition;
  }

  /** From a signal with an ATR of zero on bar `i` to a position that is open two bars later. */
  lemma ZeroAtrStays(d: Features, cfg: Config, prm: Params, i: nat, s: FibState)
    requires WellFormed(d) && i + 3 <= |d.bars| && prm.stopFraction.None? && Run(d, cfg, prm, i) == Ok(s)
    requires s.position.None? && s.pending.None? && !s.previousLong
    requires SwingOn(d, cfg, i, s.history) == s.history
    requires Readable(d, i, s.history.swing) && LongCondition(d, cfg, i, s.history.swing)
    requires s.tradedVersion != s.history.swing.version && d.atr[i] == Some(0.0)
    ensures
      var r := Run(d, cfg, prm, i + 3);
      r.Ok? && r.value.position.Some? && r.value.position.value.entryIndex == i + 1
  {
    hide StepBar, SwingOn, Readable, LongCondition, Run;
    FlatWalkSignals(d, cfg, prm, i, s);
    var t := StepBar(d, cfg, prm, i, s, true).value;
    RunNext(d, cfg, prm, i, s);
    ZeroAtrFills(d, cfg, prm, i + 1, t);
    RunNext(d, cfg, prm, i + 1, t);
    ZeroRiskNeverCloses(d, cfg, prm, i + 2, i + 3);
  }

  lemma SwingFromBars()
    ensures FromBars(SwingFeatures(), 1, FOUR_HOURS, 1, 1)
  {
    hide EventTable, Confirmed, RsiOf, Ema;
    SwingInOrder();
  }

  /** The walk, all of whose inputs are computed from its bars, enters at bar 16 on the signal of bar 15, whose
      one-bar ATR is zero, and after bar 17, past the end of its holding window, the position is still open. */
  lemma PositionOverstays()
    ensures FromBars(SwingFeatures(), 1, FOUR_HOURS, 1, 1)
    ensures
      var r := Run(SwingFeatures(), SWING_CONFIG, SWING_PARAMS, 18);
      && r.Ok? && r.value.position.Some?
      && 18 > r.value.position.value.entryIndex + SWING_CONFIG.maxHold + 1
  {
    hide SwingFeatures, FromBars, Run, SwingOn, Readable, LongCondition;
    SwingFromBars();
    WaitsForSwing(15);
    StillBarCondition();
    SwingDrawn();
    ZeroAtrStays(SwingFeatures(), SWING_CONFIG, SWING_PARAMS, 15,
                 Run(SwingFeatures(), SWING_CONFIG, SWING_PARAMS, 15).value);
  }
}
