/** The Donchian filters and loop do not tell long from short: in the mirror, with every RSI `r` read as
    `100 - r` and the two directional indicators exchanged, they do the same, seen in the mirror. */
module DonchianMirror {
  import opened Wrappers
  import opened Seqs
  import opened Market
  import opened Costs
  import opened Donchian
  import opened DonchianSignals
  import opened Mirror

  // ------------------------------------------------------------ the filters

  /** The RSI bounds in the mirror. */
  function FlipFilters(f: Filters): Filters
  {
    f.(upper := 100.0 - f.lower, lower := 100.0 - f.upper)
  }

  function FlipIndicators(x: Indicators): Indicators
  {
    Indicators(FlipBars(x.bars), x.atr, FlipRsis(x.rsi15), FlipRsis(x.rsi30), FlipRsis(x.rsi1h), x.adx, x.minusDi,
               x.plusDi, x.hour)
  }

  function FlipMemory(m: Memory): Memory
  {
    Memory(m.os, m.ob)
  }

  function FlipSignal(s: Option<Triggers>): Option<Triggers>
  {
    if s.Some? then Some(Triggers(s.value.short, s.value.long)) else None
  }

  lemma {:induction false} ExtremesFlip(x: seq<real>)
    requires |x| > 0
    ensures MaxOf(FlipPrices(x)) == -MinOf(x) && MinOf(FlipPrices(x)) == -MaxOf(x)
  {
    if |x| > 1 {
      assert FlipPrices(x)[1..] == FlipPrices(x[1..]);
      ExtremesFlip(x[1..]);
    }
  }

  lemma PreviousExtremesFlip(f: Filters, x: Indicators, i: nat)
    requires f.lookback <= i <= |x.bars|
    ensures PreviousHigh(FlipFilters(f), FlipIndicators(x), i) == -PreviousLow(f, x, i)
    ensures PreviousLow(FlipFilters(f), FlipIndicators(x), i) == -PreviousHigh(f, x, i)
  {
    hide MaxOf, MinOf;
    var y := FlipIndicators(x);
    ExtremesFlip(LowsOf(x.bars)[i - f.lookback..i]);
    ExtremesFlip(HighsOf(x.bars)[i - f.lookback..i]);
    assert HighsOf(y.bars)[i - f.lookback..i] == FlipPrices(LowsOf(x.bars)[i - f.lookback..i]);
    assert LowsOf(y.bars)[i - f.lookback..i] == FlipPrices(HighsOf(x.bars)[i - f.lookback..i]);
  }

  lemma ChecksFlip(f: Filters, x: Indicators, i: nat)
    requires SameLengths(x) && i < |x.bars|
    ensures SameLengths(FlipIndicators(x)) && |FlipIndicators(x).bars| == |x.bars|
    ensures Checked(FlipFilters(f), FlipIndicators(x), i) == Checked(f, x, i)
    ensures Checked(f, x, i) ==>
      && FullOb(FlipFilters(f), FlipIndicators(x), i) == FullOs(f, x, i)
      && FullOs(FlipFilters(f), FlipIndicators(x), i) == FullOb(f, x, i)
  {
  }

  /** The setup of one side is, in the mirror, the setup of the other. */
  lemma SetupsFlip(f: Filters, x: Indicators, i: nat)
    requires SameLengths(x) && 0 < i < |x.bars| && Checked(f, x, i) && x.rsi15[i - 1].Some?
    ensures
      var g, y := FlipFilters(f), FlipIndicators(x);
      && SameLengths(y) && |y.bars| == |x.bars| && Checked(g, y, i) && y.rsi15[i - 1].Some?
      && LongSetup(g, y, i) == ShortSetup(f, x, i) && ShortSetup(g, y, i) == LongSetup(f, x, i)
  {
    hide PreviousHigh, PreviousLow, DiOk, AdxOk, SessionOk, RsiBack;
    ChecksFlip(f, x, i);
    PreviousExtremesFlip(f, x, i);
    GatesFlip(f, x, i);
  }

  lemma GatesFlip(f: Filters, x: Indicators, i: nat)
    requires SameLengths(x) && i < |x.bars|
    ensures
      var g, y := FlipFilters(f), FlipIndicators(x);
      && SameLengths(y) && |y.bars| == |x.bars|
      && RsiBack(g, y, i) == FlipRsi(RsiBack(f, x, i))
      && AdxOk(g, y.adx[i]) == AdxOk(f, x.adx[i]) && SessionOk(g, y.hour[i]) == SessionOk(f, x.hour[i])
      && DiOk(g, y.plusDi[i], y.minusDi[i]) == DiOk(f, x.minusDi[i], x.plusDi[i])
      && DiOk(g, y.minusDi[i], y.plusDi[i]) == DiOk(f, x.plusDi[i], x.minusDi[i])
  {
    assert FlipFilters(f).diRatio == f.diRatio;
  }

  lemma DecisionFlips(f: Filters, x: Indicators, i: nat, m: Memory)
    requires SameLengths(x) && i < |x.bars|
    ensures SameLengths(FlipIndicators(x)) && |FlipIndicators(x).bars| == |x.bars|
    ensures Remember(FlipFilters(f), FlipIndicators(x), i, FlipMemory(m)) == FlipMemory(Remember(f, x, i, m))
    ensures Decide(FlipFilters(f), FlipIndicators(x), i, FlipMemory(m)) == FlipSignal(Decide(f, x, i, m))
  {
    hide Checked, FullOb, FullOs, LongSetup, ShortSetup;
    ChecksFlip(f, x, i);
    if i > 0 && Checked(f, x, i) && x.rsi15[i - 1].Some? {
      SetupsFlip(f, x, i);
    }
  }

  lemma {:induction false} MemoryFlips(f: Filters, x: Indicators, k: nat)
    requires SameLengths(x) && k <= |x.bars|
    ensures SameLengths(FlipIndicators(x)) && |FlipIndicators(x).bars| == |x.bars|
    ensures MemoryAt(FlipFilters(f), FlipIndicators(x), k) == FlipMemory(MemoryAt(f, x, k))
  {
    hide Remember;
    if k > f.warmup {
      MemoryFlips(f, x, k - 1);
      DecisionFlips(f, x, k - 1, MemoryAt(f, x, k - 1));
    }
  }

  /** Long triggers are, in the mirror, short triggers, and short ones long ones. */
  lemma SignalsFlip(f: Filters, x: Indicators, i: nat)
    requires SameLengths(x) && i < |x.bars|
    ensures SameLengths(FlipIndicators(x)) && |FlipIndicators(x).bars| == |x.bars|
    ensures SignalAt(FlipFilters(f), FlipIndicators(x), i) == FlipSignal(SignalAt(f, x, i))
  {
    hide Decide, MemoryAt;
    MemoryFlips(f, x, i + 1);
    DecisionFlips(f, x, i, MemoryAt(f, x, i + 1));
  }

  // ------------------------------------------------------------ the loop

  function FlipInput(d: Input): Input
  {
    Input(FlipBars(d.bars), d.atr, seq(|d.signals|, i requires 0 <= i < |d.signals| => FlipSignal(d.signals[i])))
  }

  function FlipOpen(b: Donchian.Position): Donchian.Position
  {
    Position(FlipSide(b.side), -b.entryPrice, b.entryIndex, -b.tp, -b.sl, b.beActive, FlipPrice(b.trail),
             FlipPrices(b.stops))
  }

  /** The same trade in the mirror: its result and its reason are the same. */
  function FlipRecord(r: Record): Record
  {
    Record(FlipSide(r.side), r.entryIndex, r.exitIndex, -r.entryPrice, -r.exitPrice, -r.tp, -r.sl, r.pnl, r.reason,
           r.beActive, FlipPrices(r.stops))
  }

  function FlipRecords(records: seq<Record>): (r: seq<Record>)
    ensures |r| == |records| && forall i :: 0 <= i < |r| ==> r[i] == FlipRecord(records[i])
  {
    seq(|records|, i requires 0 <= i < |records| => FlipRecord(records[i]))
  }

  function FlipHeld(b: Option<Donchian.Position>): Option<Donchian.Position>
  {
    if b.Some? then Some(FlipOpen(b.value)) else None
  }

  function FlipPending(e: Option<Pending>): Option<Pending>
  {
    if e.Some? then Some(Pending(FlipSide(e.value.side), e.value.atr)) else None
  }

  function FlipState(s: LoopState): LoopState
  {
    s.(position := FlipHeld(s.position), pending := FlipPending(s.pending), records := FlipRecords(s.records))
  }

  lemma StopsFlipSnoc(stops: seq<real>, x: real)
    ensures FlipPrices(stops + [x]) == FlipPrices(stops) + [-x]
  {
  }

  lemma EnterFlips(prm: Params, bar: Bar, i: nat, e: Pending)
    ensures Enter(prm, FlipBar(bar), i, Pending(FlipSide(e.side), e.atr)) == FlipOpen(Enter(prm, bar, i, e))
  {
    hide EntryFill;
    FillsFlip(prm.costs, bar.open, e.side, prm.pip);
    assert FlipPrices([]) == [];
  }

  lemma DistancesFlip(prm: Params, b: Donchian.Position)
    ensures TpDistance(FlipOpen(b)) == TpDistance(b) && SlDistance(FlipOpen(b)) == SlDistance(b)
    ensures BeTrigger(prm, FlipOpen(b)) == BeTrigger(prm, b) && FinalTp(FlipOpen(b)) == -FinalTp(b)
  {
    hide FlipPrices;
  }

  /** Break-even, trail and the stop in force. */
  lemma StopsFlip(prm: Params, b: Donchian.Position, bar: Bar, atr: Option<real>)
    ensures EffectiveStop(prm, FlipOpen(b), FlipBar(bar), atr) == -EffectiveStop(prm, b, bar, atr)
    ensures Adjust(prm, FlipOpen(b), FlipBar(bar), atr) == FlipOpen(Adjust(prm, b, bar, atr))
  {
    hide TpDistance, SlDistance, BeTrigger, FlipPrices;
    DistancesFlip(prm, b);
    StopsFlipSnoc(b.stops, EffectiveStop(prm, b, bar, atr));
  }

  lemma ExitOnFlips(prm: Params, b: Donchian.Position, bar: Bar, i: nat, stop: real)
    ensures ExitOn(prm, FlipOpen(b), FlipBar(bar), i, -stop) ==
      match ExitOn(prm, b, bar, i, stop)
      case None => None
      case Some((price, reason)) => Some((-price, reason))
  {
    hide FinalTp, FlipPrices;
    DistancesFlip(prm, b);
  }

  lemma ResultsFlip(prm: Params, b: Donchian.Position, balance: real, stop: real, price: real, atr: real)
    ensures ExitPnl(prm, FlipOpen(b), balance, -stop, -price) == ExitPnl(prm, b, balance, stop, price)
    ensures CounterPnl(prm, FlipOpen(b), balance, atr, -price) == CounterPnl(prm, b, balance, atr, price)
  {
    hide Size, Move, ExitFill, SlDistance, FlipPrices;
    DistancesFlip(prm, b);
    FillsFlip(prm.costs, price, b.side, prm.pip);
    MoveFlips(b.side, b.entryPrice, ExitFill(prm.costs, price, b.side, prm.pip));
    MoveFlips(b.side, b.entryPrice, price);
  }

  lemma BookFlips(s: LoopState, r: Record)
    ensures Book(FlipState(s), FlipRecord(r)) == FlipState(Book(s, r))
  {
    hide FlipPrices;
    assert FlipRecords(s.records + [r]) == FlipRecords(s.records) + [FlipRecord(r)];
  }

  lemma FillFlips(prm: Params, d: Input, i: nat, s: LoopState)
    requires i < |d.bars|
    ensures Fill(prm, FlipInput(d), i, FlipState(s)) == FlipState(Fill(prm, d, i, s))
  {
    hide Enter, FlipOpen, FlipRecords;
    if s.pending.Some? && s.position.None? {
      EnterFlips(prm, d.bars[i], i, s.pending.value);
    }
  }

  lemma ManageFlips(prm: Params, d: Input, i: nat, s: LoopState)
    requires WellFormed(d) && WellFormed(FlipInput(d)) && i < |d.bars|
    ensures Manage(prm, FlipInput(d), i, FlipState(s)) == FlipState(Manage(prm, d, i, s))
  {
    hide EffectiveStop, Adjust, ExitOn, ExitPnl, Book, FinalTp, FlipRecords;
    if s.position.Some? {
      var bar := d.bars[i];
      var stop := EffectiveStop(prm, s.position.value, bar, d.atr[i]);
      var b := Adjust(prm, s.position.value, bar, d.atr[i]);
      StopsFlip(prm, s.position.value, bar, d.atr[i]);
      ExitOnFlips(prm, b, bar, i, stop);
      DistancesFlip(prm, b);
      if ExitOn(prm, b, bar, i, stop).Some? {
        var (price, reason) := ExitOn(prm, b, bar, i, stop).value;
        ResultsFlip(prm, b, s.balance, stop, price, 0.0);
        BookFlips(s, Record(b.side, b.entryIndex, i, b.entryPrice, price, FinalTp(b), stop,
                            ExitPnl(prm, b, s.balance, stop, price), reason, b.beActive, b.stops));
      }
    }
  }

  lemma CounterFlips(prm: Params, d: Input, i: nat, s: LoopState)
    requires WellFormed(d) && WellFormed(FlipInput(d)) && i < |d.bars| && d.signals[i].Some?
    ensures Counter(prm, FlipInput(d), i, FlipState(s)) == FlipState(Counter(prm, d, i, s))
  {
    hide CounterPnl, Book, FlipRecords;
    if s.position.Some? {
      var b, close := s.position.value, d.bars[i].close;
      ResultsFlip(prm, b, s.balance, 0.0, close, d.atr[i].value);
      BookFlips(s, Record(b.side, b.entryIndex, i, b.entryPrice, close, b.tp, b.sl,
                          CounterPnl(prm, b, s.balance, d.atr[i].value, close), CounterSignal, b.beActive, b.stops));
    }
  }

  /** No bar fires both ways. */
  ghost predicate OneWay(d: Input)
  {
    forall i :: 0 <= i < |d.signals| && d.signals[i].Some? ==> !(d.signals[i].value.long && d.signals[i].value.short)
  }

  lemma ArmFlips(d: Input, i: nat, s: LoopState)
    requires WellFormed(d) && WellFormed(FlipInput(d)) && OneWay(d) && i < |d.bars| && d.signals[i].Some?
    ensures Arm(FlipInput(d), i, FlipState(s)) == FlipState(Arm(d, i, s))
  {
    hide FlipRecords, FlipOpen;
  }

  lemma StepFlips(prm: Params, d: Input, i: nat, s: LoopState)
    requires WellFormed(d) && WellFormed(FlipInput(d)) && OneWay(d) && i < |d.bars|
    ensures StepBar(prm, FlipInput(d), i, FlipState(s)) == FlipState(StepBar(prm, d, i, s))
  {
    hide Fill, Manage, Counter, Arm, FlipState;
    FillFlips(prm, d, i, s);
    var f := Fill(prm, d, i, s);
    ManageFlips(prm, d, i, f);
    var m := Manage(prm, d, i, f);
    if d.signals[i].Some? {
      CounterFlips(prm, d, i, m);
      ArmFlips(d, i, Counter(prm, d, i, m));
    }
  }

  lemma InputFlips(d: Input)
    requires WellFormed(d)
    ensures WellFormed(FlipInput(d)) && |FlipInput(d).bars| == |d.bars|
  {
  }

  lemma StartFlips()
    ensures FlipState(Start()) == Start()
  {
    assert FlipRecords([]) == [];
  }

  /** Every run in the mirror is the run seen in the mirror, if no bar fires both ways. */
  lemma {:induction false} RunFlips(prm: Params, d: Input, k: nat)
    requires WellFormed(d) && OneWay(d) && k <= |d.bars|
    ensures WellFormed(FlipInput(d)) && |FlipInput(d).bars| == |d.bars|
    ensures Run(prm, FlipInput(d), k) == FlipState(Run(prm, d, k))
  {
    hide StepBar, FlipInput, FlipState, OneWay, WellFormed, Start;
    InputFlips(d);
    if k <= prm.warmup {
      StartFlips();
    } else {
      RunFlips(prm, d, k - 1);
      StepFlips(prm, d, k - 1, Run(prm, d, k - 1));
    }
  }

  lemma FilteredInputFlips(f: Filters, x: Indicators)
    requires SameLengths(x)
    ensures SameLengths(FlipIndicators(x))
    ensures InputOf(FlipFilters(f), FlipIndicators(x)) == FlipInput(InputOf(f, x))
  {
    hide SignalAt, FlipIndicators, FlipFilters;
    FlippedLengths(x);
    forall i | 0 <= i < |x.bars|
      ensures SignalAt(FlipFilters(f), FlipIndicators(x), i) == FlipSignal(SignalAt(f, x, i))
    {
      SignalsFlip(f, x, i);
    }
  }

  lemma FlippedLengths(x: Indicators)
    requires SameLengths(x)
    ensures SameLengths(FlipIndicators(x)) && FlipIndicators(x).bars == FlipBars(x.bars)
    ensures FlipIndicators(x).atr == x.atr
  {
  }

  /** Filters and loop together, with the bounds in order: prices negated, every RSI and both bounds
      reflected around fifty and the two directional indicators exchanged, a run takes the same trades
      the other way, with the same results. */
  lemma FilteredRunFlips(prm: Params, f: Filters, x: Indicators, k: nat)
    requires SameLengths(x) && f.lower <= f.upper && k <= |x.bars|
    ensures SameLengths(FlipIndicators(x)) && |FlipIndicators(x).bars| == |x.bars|
    ensures Run(prm, InputOf(FlipFilters(f), FlipIndicators(x)), k) == FlipState(Run(prm, InputOf(f, x), k))
  {
    hide Run, SignalAt, FlipInput, FlipState, FlipFilters, FlipIndicators;
    FlippedLengths(x);
    FilteredInputFlips(f, x);
    forall i | 0 <= i < |x.bars|
      ensures SignalAt(f, x, i).Some? ==> !(SignalAt(f, x, i).value.long && SignalAt(f, x, i).value.short)
    {
      SignalsExclude(f, x, i);
    }
    RunFlips(prm, InputOf(f, x), k);
  }
}
