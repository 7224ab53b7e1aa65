/** The entry filters of the Donchian reclaim backtest (scripts/run_donchian_backtest.py): what a
    bar's indicators say, and the memory of past RSI alignments that they need. */
module DonchianSignals {
  import opened Wrappers
  import opened Seqs
  import opened Market
  import opened HighLow
  import opened Donchian

  /** The indicators as of each trading bar; a value that is missing there is `None`. */
  datatype Indicators = Indicators(
    bars: seq<Bar>, atr: seq<Option<real>>,
    rsi15: seq<Option<real>>, rsi30: seq<Option<real>>, rsi1h: seq<Option<real>>,
    adx: seq<Option<real>>, plusDi: seq<Option<real>>, minusDi: seq<Option<real>>, hour: seq<int>)

  datatype Filters = Filters(
    upper: real, lower: real, lookback: posint, confirmBars: int, buffer: real,
    useDi: bool, diRatio: real, useAdx: bool, maxAdx: real,
    useSession: bool, sessionStart: int, sessionEnd: int, useMomFade: bool, momFadeBars: nat, warmup: nat)

  predicate SameLengths(x: Indicators)
  {
    && |x.atr| == |x.rsi15| == |x.rsi30| == |x.rsi1h| == |x.bars|
    && |x.adx| == |x.plusDi| == |x.minusDi| == |x.hour| == |x.bars|
  }

  function HighsOf(bars: seq<Bar>): (r: seq<real>)
    ensures |r| == |bars|
  {
    seq(|bars|, i requires 0 <= i < |bars| => bars[i].high)
  }

  function LowsOf(bars: seq<Bar>): (r: seq<real>)
    ensures |r| == |bars|
  {
    seq(|bars|, i requires 0 <= i < |bars| => bars[i].low)
  }

  /** The bar gets past the missing-value checks, down to the alignment detection. */
  predicate Checked(f: Filters, x: Indicators, i: nat)
    requires SameLengths(x) && i < |x.bars|
  {
    x.rsi15[i].Some? && x.rsi1h[i].Some? && x.rsi30[i].Some? && HasAtr(x.atr[i]) && i >= f.lookback
  }

  predicate FullOb(f: Filters, x: Indicators, i: nat)
    requires SameLengths(x) && i < |x.bars| && Checked(f, x, i)
  {
    x.rsi15[i].value > f.upper && x.rsi30[i].value > f.upper && x.rsi1h[i].value > f.upper
  }

  predicate FullOs(f: Filters, x: Indicators, i: nat)
    requires SameLengths(x) && i < |x.bars| && Checked(f, x, i)
  {
    x.rsi15[i].value < f.lower && x.rsi30[i].value < f.lower && x.rsi1h[i].value < f.lower
  }

  /** The bars of the last alignments, overbought and oversold. */
  datatype Memory = Memory(ob: Option<nat>, os: Option<nat>)

  function Remember(f: Filters, x: Indicators, i: nat, m: Memory): Memory
    requires SameLengths(x) && i < |x.bars|
  {
    if !Checked(f, x, i) then m
    else Memory(if FullOb(f, x, i) then Some(i) else m.ob, if FullOs(f, x, i) then Some(i) else m.os)
  }

  /** `bars_since <= confirm_bars`, where never counts as one bar more than the warm-up. */
  predicate WithinWindow(f: Filters, i: nat, last: Option<nat>)
  {
    (if last.Some? then i - last.value else f.warmup + 1) <= f.confirmBars
  }

  predicate DiOk(f: Filters, mine: Option<real>, other: Option<real>)
  {
    f.useDi && mine.Some? && other.Some? ==> !(other.value > mine.value * f.diRatio)
  }

  predicate AdxOk(f: Filters, adx: Option<real>)
  {
    f.useAdx && adx.Some? ==> adx.value < f.maxAdx
  }

  predicate SessionOk(f: Filters, hour: int)
  {
    f.useSession ==> f.sessionStart <= hour < f.sessionEnd
  }

  /** The RSI a few bars back, if there are that many. */
  function RsiBack(f: Filters, x: Indicators, i: nat): Option<real>
    requires SameLengths(x) && i < |x.bars|
  {
    if i >= f.momFadeBars then x.rsi15[i - f.momFadeBars] else None
  }

  function PreviousHigh(f: Filters, x: Indicators, i: nat): real
    requires i <= |x.bars| && i >= f.lookback
  {
    MaxOf(HighsOf(x.bars)[i - f.lookback..i])
  }

  function PreviousLow(f: Filters, x: Indicators, i: nat): real
    requires i <= |x.bars| && i >= f.lookback
  {
    MinOf(LowsOf(x.bars)[i - f.lookback..i])
  }

  /** Everything a short entry needs besides a recent overbought alignment. */
  predicate ShortSetup(f: Filters, x: Indicators, i: nat)
    requires SameLengths(x) && 0 < i < |x.bars| && Checked(f, x, i) && x.rsi15[i - 1].Some?
  {
    var rsi, bar, back := x.rsi15[i].value, x.bars[i], RsiBack(f, x, i);
    && x.rsi30[i].value > f.upper && x.rsi1h[i].value > f.upper
    && x.rsi15[i - 1].value > f.upper && rsi <= f.upper
    && bar.high > PreviousHigh(f, x, i) + f.buffer && bar.close < PreviousHigh(f, x, i)
    && AdxOk(f, x.adx[i]) && DiOk(f, x.minusDi[i], x.plusDi[i]) && SessionOk(f, x.hour[i])
    && (f.useMomFade ==> back.Some? && rsi < back.value)
  }

  predicate LongSetup(f: Filters, x: Indicators, i: nat)
    requires SameLengths(x) && 0 < i < |x.bars| && Checked(f, x, i) && x.rsi15[i - 1].Some?
  {
    var rsi, bar, back := x.rsi15[i].value, x.bars[i], RsiBack(f, x, i);
    && x.rsi30[i].value < f.lower && x.rsi1h[i].value < f.lower
    && x.rsi15[i - 1].value < f.lower && rsi >= f.lower
    && bar.low < PreviousLow(f, x, i) - f.buffer && bar.close > PreviousLow(f, x, i)
    && AdxOk(f, x.adx[i]) && DiOk(f, x.plusDi[i], x.minusDi[i]) && SessionOk(f, x.hour[i])
    && (f.useMomFade ==> back.Some? && rsi > back.value)
  }

  /** What the loop decides on bar `i`, its memory being that of the bars up to it. */
  function Decide(f: Filters, x: Indicators, i: nat, m: Memory): Option<Triggers>
    requires SameLengths(x) && i < |x.bars|
  {
    if !Checked(f, x, i) || i == 0 || x.rsi15[i - 1].None? then None
    else Some(Triggers(LongSetup(f, x, i) && WithinWindow(f, i, m.os), ShortSetup(f, x, i) && WithinWindow(f, i, m.ob)))
  }

  /** The memory when bar `k` is reached. */
  function MemoryAt(f: Filters, x: Indicators, k: nat): Memory
    requires SameLengths(x) && k <= |x.bars|
  {
    if k <= f.warmup then Memory(None, None) else Remember(f, x, k - 1, MemoryAt(f, x, k - 1))
  }

  function SignalAt(f: Filters, x: Indicators, i: nat): Option<Triggers>
    requires SameLengths(x) && i < |x.bars|
  {
    if i < f.warmup then None else Decide(f, x, i, MemoryAt(f, x, i + 1))
  }

  ghost predicate AreSignals(signals: seq<Option<Triggers>>, f: Filters, x: Indicators)
    requires SameLengths(x)
  {
    |signals| == |x.bars| && forall i :: 0 <= i < |signals| ==> signals[i] == SignalAt(f, x, i)
  }

  /** The part of `run_config` between the management of a position and the counter-signal. */
  method Scan(f: Filters, x: Indicators) returns (signals: seq<Option<Triggers>>)
    requires SameLengths(x)
    ensures AreSignals(signals, f, x)
  {
    hide Decide, Remember, Checked;
    signals := [];
    var lastOb, lastOs: Option<nat> := None, None;
    for i := 0 to |x.bars|
      invariant |signals| == i && forall j :: 0 <= j < i ==> signals[j] == SignalAt(f, x, j)
      invariant Memory(lastOb, lastOs) == MemoryAt(f, x, i)
    {
      var signal := None;
      if i >= f.warmup {
        lastOb, lastOs, signal := ScanBar(f, x, i, lastOb, lastOs);
      }
      signals := signals + [signal];
    }
  }

  /** One bar: the checks in the order of the source, each of which may end the bar. */
  method ScanBar(f: Filters, x: Indicators, i: nat, ob: Option<nat>, os: Option<nat>)
    returns (lastOb: Option<nat>, lastOs: Option<nat>, signal: Option<Triggers>)
    requires SameLengths(x) && i < |x.bars|
    ensures Memory(lastOb, lastOs) == Remember(f, x, i, Memory(ob, os))
    ensures signal == Decide(f, x, i, Memory(lastOb, lastOs))
  {
    hide WithinWindow, DiOk, AdxOk, SessionOk;
    lastOb, lastOs, signal := ob, os, None;
    if x.rsi15[i].None? || x.rsi1h[i].None? || x.rsi30[i].None? || !HasAtr(x.atr[i]) {
      return;
    }
    var hhPrev := PreviousRollingHighestHigh(HighsOf(x.bars), f.lookback, i);
    var llPrev := PreviousRollingLowestLow(LowsOf(x.bars), f.lookback, i);
    if hhPrev.Err? || llPrev.Err? || hhPrev.value.None? || llPrev.value.None? {
      return;
    }
    if FullOb(f, x, i) {
      lastOb := Some(i);
    }
    if FullOs(f, x, i) {
      lastOs := Some(i);
    }
    if i == 0 || x.rsi15[i - 1].None? {
      return;
    }
    signal := Some(Triggers(LongSetup(f, x, i) && WithinWindow(f, i, lastOs),
                            ShortSetup(f, x, i) && WithinWindow(f, i, lastOb)));
  }

  // ------------------------------------------------------------ what the memory means

  /** A checked bar of the run on which all three RSI are aligned. */
  predicate AlignedAt(f: Filters, x: Indicators, j: int, side: Direction)
    requires SameLengths(x)
  {
    && f.warmup <= j < |x.bars| && Checked(f, x, j)
    && if side == Short then FullOb(f, x, j) else FullOs(f, x, j)
  }

  function Last(m: Memory, side: Direction): Option<nat>
  {
    if side == Short then m.ob else m.os
  }

  /** The memory holds the latest alignment before bar `k`, and nothing if there is none. */
  lemma {:induction false} MemoryIsLatest(f: Filters, x: Indicators, k: nat, side: Direction)
    requires SameLengths(x) && k <= |x.bars|
    ensures match Last(MemoryAt(f, x, k), side)
            case None => forall j :: 0 <= j < k ==> !AlignedAt(f, x, j, side)
            case Some(l) => l < k && AlignedAt(f, x, l, side) && forall j :: l < j < k ==> !AlignedAt(f, x, j, side)
  {
    hide FullOb, FullOs, Checked;
    if k > f.warmup {
      MemoryIsLatest(f, x, k - 1, side);
    }
  }

  /** The reference meaning of a recent alignment. */
  ghost predicate RecentlyAligned(f: Filters, x: Indicators, i: nat, side: Direction)
    requires SameLengths(x)
  {
    exists j :: 0 <= j <= i && i - j <= f.confirmBars && AlignedAt(f, x, j, side)
  }

  ghost predicate NeverAligned(f: Filters, x: Indicators, i: nat, side: Direction)
    requires SameLengths(x)
  {
    forall j :: 0 <= j <= i ==> !AlignedAt(f, x, j, side)
  }

  /** What the window accepts: a recent alignment, or none ever when it is longer than the warm-up. */
  ghost predicate WindowAccepts(f: Filters, x: Indicators, i: nat, side: Direction)
    requires SameLengths(x)
  {
    RecentlyAligned(f, x, i, side) || (NeverAligned(f, x, i, side) && f.confirmBars > f.warmup)
  }

  /** The window test says what it should, except that with more confirmation bars than warm-up
      bars "never aligned" passes for "recently aligned". */
  lemma WindowIsExact(f: Filters, x: Indicators, i: nat, side: Direction)
    requires SameLengths(x) && i < |x.bars|
    ensures WithinWindow(f, i, Last(MemoryAt(f, x, i + 1), side)) <==>
            WindowAccepts(f, x, i, side)
  {
    hide AlignedAt, MemoryAt;
    MemoryIsLatest(f, x, i + 1, side);
    var last := Last(MemoryAt(f, x, i + 1), side);
    if last.Some? {
      assert AlignedAt(f, x, last.value, side);
    }
  }

  /** With the configured order of the bounds no bar fires both ways. */
  lemma SignalsExclude(f: Filters, x: Indicators, i: nat)
    requires SameLengths(x) && i < |x.bars| && f.lower <= f.upper
    ensures SignalAt(f, x, i).Some? ==> !(SignalAt(f, x, i).value.long && SignalAt(f, x, i).value.short)
  {
  }

  /** A trigger is a setup that the window accepts, for every bar of every series; with a window no
      longer than the warm-up that means a recent alignment. */
  lemma TriggersAreSetups(f: Filters, x: Indicators, i: nat)
    requires SameLengths(x) && f.warmup <= i < |x.bars|
    ensures
      var s := SignalAt(f, x, i);
      && (s.Some? <==> i > 0 && Checked(f, x, i) && x.rsi15[i - 1].Some?)
      && (s.Some? ==>
            && (s.value.long <==> LongSetup(f, x, i) && WindowAccepts(f, x, i, Long))
            && (s.value.short <==> ShortSetup(f, x, i) && WindowAccepts(f, x, i, Short)))
    ensures f.confirmBars <= f.warmup ==>
      forall side :: WindowAccepts(f, x, i, side) <==> RecentlyAligned(f, x, i, side)
  {
    hide LongSetup, ShortSetup, MemoryAt, WithinWindow, RecentlyAligned, NeverAligned;
    WindowIsExact(f, x, i, Long);
    WindowIsExact(f, x, i, Short);
  }

  /** The loop's input, from bars and indicators. */
  function InputOf(f: Filters, x: Indicators): (d: Input)
    requires SameLengths(x)
    ensures WellFormed(d)
  {
    Input(x.bars, x.atr, seq(|x.bars|, i requires 0 <= i < |x.bars| => SignalAt(f, x, i)))
  }

  /** `run_config` from bars and indicators. The source interleaves the two loops; the filters
      never look at the position, so scanning first changes nothing. */
  method RunFiltered(prm: Params, f: Filters, x: Indicators) returns (b: Backtest)
    requires SameLengths(x) && f.warmup == prm.warmup
    ensures b.Abstract() == Run(prm, InputOf(f, x), |x.bars|)
  {
    hide Run, SignalAt;
    var signals := Scan(f, x);
    assert signals == InputOf(f, x).signals;
    b := RunConfig(prm, Input(x.bars, x.atr, signals));
  }
}
