/** The position loop of the Donchian reclaim backtest (scripts/run_donchian_backtest.py). */
module Donchian {
  import opened Wrappers
  import opened Seqs
  import opened Market
  import opened Costs

  /** What the entry filters say on a bar that has all its indicators. */
  datatype Triggers = Triggers(long: bool, short: bool)

  /** `signals[i]` is missing when a missing indicator ends the bar before the entry filters. */
  datatype Input = Input(bars: seq<Bar>, atr: seq<Option<real>>, signals: seq<Option<Triggers>>)

  datatype Params = Params(
    useFixedPip: bool, tpPips: real, slPips: real, tpAtrMult: real, slAtrMult: real,
    useBreakeven: bool, beTriggerPct: real, useTrailing: bool, trailAtrMult: real,
    useTimeExit: bool, maxBarsExit: nat, costs: CostBook, pip: pos, warmup: nat)

  /** The filters run only with a positive ATR. */
  ghost predicate WellFormed(d: Input)
  {
    && |d.atr| == |d.signals| == |d.bars|
    && forall i :: 0 <= i < |d.bars| && d.signals[i].Some? ==> HasAtr(d.atr[i])
  }

  predicate HasAtr(atr: Option<real>)
  {
    atr.Some? && atr.value > 0.0
  }

  datatype Reason = TpExit | SlExit | TimeExit | CounterSignal

  /** An open position. `stops` is bookkeeping: the effective stop of each bar so far. */
  datatype Position = Position(
    side: Direction, entryPrice: real, entryIndex: nat, tp: real, sl: real,
    beActive: bool, trail: Option<real>, stops: seq<real>)

  datatype Record = Record(
    side: Direction, entryIndex: nat, exitIndex: nat, entryPrice: real, exitPrice: real,
    tp: real, sl: real, pnl: real, reason: Reason, beActive: bool, stops: seq<real>)

  datatype Pending = Pending(side: Direction, atr: real)

  datatype LoopState = LoopState(
    balance: real, peak: real, maxDrawdownPct: real, position: Option<Position>, pending: Option<Pending>,
    records: seq<Record>, tpExits: nat, slExits: nat, beExits: nat, timeExits: nat,
    lossRun: nat, maxLossRun: nat)

  const START_BALANCE := 100000.0

  function Start(): LoopState
  {
    LoopState(START_BALANCE, START_BALANCE, 0.0, None, None, [], 0, 0, 0, 0, 0, 0)
  }

  function Enter(prm: Params, bar: Bar, i: nat, e: Pending): Position
  {
    var tpDistance := if prm.useFixedPip then prm.tpPips * prm.pip else e.atr * prm.tpAtrMult;
    var slDistance := if prm.useFixedPip then prm.slPips * prm.pip else e.atr * prm.slAtrMult;
    var entry := EntryFill(prm.costs, bar.open, e.side, prm.pip);
    if e.side == Long then Position(Long, entry, i, entry + tpDistance, entry - slDistance, false, None, [])
    else Position(Short, entry, i, entry - tpDistance, entry + slDistance, false, None, [])
  }

  function Fill(prm: Params, d: Input, i: nat, s: LoopState): LoopState
    requires i < |d.bars|
  {
    if s.pending.Some? && s.position.None?
    then s.(position := Some(Enter(prm, d.bars[i], i, s.pending.value)), pending := None)
    else s
  }

  function TpDistance(b: Position): real { Abs(b.tp - b.entryPrice) }

  function SlDistance(b: Position): real { Abs(b.sl - b.entryPrice) }

  /** How far price must run for break-even. */
  function BeTrigger(prm: Params, b: Position): real
  {
    TpDistance(b) * (prm.beTriggerPct / 100.0)
  }

  /** Break-even is armed once and stays. */
  predicate BreakevenAfter(prm: Params, b: Position, bar: Bar)
  {
    b.beActive ||
    (prm.useBreakeven &&
     if b.side == Long then bar.high >= b.entryPrice + BeTrigger(prm, b)
     else bar.low <= b.entryPrice - BeTrigger(prm, b))
  }

  function BaseStop(b: Position, beActive: bool): real
  {
    if beActive then b.entryPrice
    else if b.side == Long then b.entryPrice - SlDistance(b)
    else b.entryPrice + SlDistance(b)
  }

  /** The tighter of two stops. */
  function Tighter(side: Direction, a: real, b: real): real
  {
    if side == Long then Max(a, b) else Min(a, b)
  }

  function TrailCandidate(prm: Params, side: Direction, bar: Bar, atr: real): real
  {
    if side == Long then bar.close - atr * prm.trailAtrMult else bar.close + atr * prm.trailAtrMult
  }

  function TrailAfter(prm: Params, b: Position, bar: Bar, atr: Option<real>): Option<real>
  {
    if prm.useTrailing && HasAtr(atr) then
      var candidate := TrailCandidate(prm, b.side, bar, atr.value);
      Some(if b.trail.Some? then Tighter(b.side, b.trail.value, candidate) else candidate)
    else b.trail
  }

  /** The stop that is in force on a bar. The trail counts only on bars that have an ATR. */
  function EffectiveStop(prm: Params, b: Position, bar: Bar, atr: Option<real>): real
  {
    var base := BaseStop(b, BreakevenAfter(prm, b, bar));
    var trail := TrailAfter(prm, b, bar, atr);
    if prm.useTrailing && HasAtr(atr) then Tighter(b.side, base, trail.value) else base
  }

  /** The position after its stops have been moved on a bar. */
  function Adjust(prm: Params, b: Position, bar: Bar, atr: Option<real>): Position
  {
    b.(beActive := BreakevenAfter(prm, b, bar), trail := TrailAfter(prm, b, bar, atr),
       stops := b.stops + [EffectiveStop(prm, b, bar, atr)])
  }

  function FinalTp(b: Position): real
  {
    if b.side == Long then b.entryPrice + TpDistance(b) else b.entryPrice - TpDistance(b)
  }

  /** Price and reason of an exit on a bar, the stop first. */
  function ExitOn(prm: Params, b: Position, bar: Bar, i: nat, stop: real): Option<(real, Reason)>
  {
    if (if b.side == Long then bar.low <= stop else bar.high >= stop) then Some((stop, SlExit))
    else if (if b.side == Long then bar.high >= FinalTp(b) else bar.low <= FinalTp(b)) then Some((FinalTp(b), TpExit))
    else if prm.useTimeExit && i - b.entryIndex >= prm.maxBarsExit then Some((bar.close, TimeExit))
    else None
  }

  /** Units for one percent of the balance; one unit when there is no distance. */
  function Size(balance: real, distance: real): real
  {
    if distance > 0.0 then balance * 0.01 / distance else 1.0
  }

  /** Result of a managed exit. A stop at price zero falls back to the entry distance, and a
      balance that is not positive pays no commission. */
  function ExitPnl(prm: Params, b: Position, balance: real, stop: real, exitPrice: real): real
  {
    var distance := if stop != 0.0 then Abs(stop - b.entryPrice) else SlDistance(b);
    var gross := Size(balance, distance) * Move(b.side, b.entryPrice, ExitFill(prm.costs, exitPrice, b.side, prm.pip));
    var impact := if balance > 0.0 then RoundTripCommission(prm.costs) / balance else 0.0;
    gross - impact * balance
  }

  /** Result of a close on the opposite signal. */
  function CounterPnl(prm: Params, b: Position, balance: real, atr: real, close: real): real
  {
    var distance := if b.sl != b.entryPrice then Abs(b.sl - b.entryPrice) else atr * prm.slAtrMult;
    Size(balance, distance) * (Move(b.side, b.entryPrice, close) - prm.costs.slippagePips * prm.pip)
      - RoundTripCommission(prm.costs)
  }

  function DropPct(peak: real, balance: real): real
  {
    if peak > 0.0 then (peak - balance) / peak * 100.0 else 0.0
  }

  /** Balance, peak, drawdown and loss run after a result. */
  function Settle(s: LoopState, pnl: real): LoopState
  {
    var balance := s.balance + pnl;
    var peak := Max(s.peak, balance);
    var run := if pnl <= 0.0 then s.lossRun + 1 else 0;
    s.(balance := balance, peak := peak, maxDrawdownPct := Max(s.maxDrawdownPct, DropPct(peak, balance)),
       lossRun := run, maxLossRun := if run > s.maxLossRun then run else s.maxLossRun)
  }

  /** The ledger entry shared by both ways of closing. */
  function Book(s: LoopState, r: Record): LoopState
  {
    Settle(s, r.pnl).(
      position := None, records := s.records + [r],
      tpExits := s.tpExits + (if r.reason == TpExit then 1 else 0),
      slExits := s.slExits + (if r.reason == SlExit && !r.beActive then 1 else 0),
      beExits := s.beExits + (if r.reason == SlExit && r.beActive then 1 else 0),
      timeExits := s.timeExits + (if r.reason == TimeExit then 1 else 0))
  }

  /** The managed half of a bar: stops move, then stop, target or time may close. */
  function Manage(prm: Params, d: Input, i: nat, s: LoopState): LoopState
    requires WellFormed(d) && i < |d.bars|
  {
    if s.position.None? then s
    else
      var bar := d.bars[i];
      var stop := EffectiveStop(prm, s.position.value, bar, d.atr[i]);
      var b := Adjust(prm, s.position.value, bar, d.atr[i]);
      match ExitOn(prm, b, bar, i, stop)
      case None => s.(position := Some(b))
      case Some((price, reason)) =>
        Book(s, Record(b.side, b.entryIndex, i, b.entryPrice, price, FinalTp(b), stop,
                       ExitPnl(prm, b, s.balance, stop, price), reason, b.beActive, b.stops))
  }

  /** The opposite signal closes at the close of the bar. */
  function Counter(prm: Params, d: Input, i: nat, s: LoopState): LoopState
    requires WellFormed(d) && i < |d.bars| && d.signals[i].Some?
  {
    var sig := d.signals[i].value;
    if s.position.Some? && (if s.position.value.side == Long then sig.short else sig.long) then
      var b, close := s.position.value, d.bars[i].close;
      Book(s, Record(b.side, b.entryIndex, i, b.entryPrice, close, b.tp, b.sl,
                     CounterPnl(prm, b, s.balance, d.atr[i].value, close), CounterSignal, b.beActive, b.stops))
    else s
  }

  /** A signal is armed for the next bar, never filled on its own. */
  function Arm(d: Input, i: nat, s: LoopState): LoopState
    requires WellFormed(d) && i < |d.bars| && d.signals[i].Some?
  {
    var sig := d.signals[i].value;
    if s.position.Some? || s.pending.Some? || i + 1 >= |d.bars| then s
    else if sig.long then s.(pending := Some(Pending(Long, d.atr[i].value)))
    else if sig.short then s.(pending := Some(Pending(Short, d.atr[i].value)))
    else s
  }

  function StepBar(prm: Params, d: Input, i: nat, s: LoopState): LoopState
    requires WellFormed(d) && i < |d.bars|
  {
    var t := Manage(prm, d, i, Fill(prm, d, i, s));
    if d.signals[i].None? then t else Arm(d, i, Counter(prm, d, i, t))
  }

  /** The state when bar `k` is reached; the first `warmup` bars are skipped. */
  function Run(prm: Params, d: Input, k: nat): LoopState
    requires WellFormed(d) && k <= |d.bars|
  {
    if k <= prm.warmup then Start() else StepBar(prm, d, k - 1, Run(prm, d, k - 1))
  }

  /** The mutable loop. */
  class Backtest {
    const prm: Params
    const d: Input
    var balance: real
    var peak: real
    var maxDrawdownPct: real
    var position: Option<Position>
    var pending: Option<Pending>
    var records: seq<Record>
    var tpExits: nat
    var slExits: nat
    var beExits: nat
    var timeExits: nat
    var lossRun: nat
    var maxLossRun: nat

    ghost function Abstract(): LoopState
      reads this
    {
      LoopState(balance, peak, maxDrawdownPct, position, pending, records, tpExits, slExits, beExits, timeExits,
                lossRun, maxLossRun)
    }

    constructor (prm: Params, d: Input)
      ensures Abstract() == Start() && this.prm == prm && this.d == d
    {
      this.prm, this.d := prm, d;
      balance, peak, maxDrawdownPct := START_BALANCE, START_BALANCE, 0.0;
      position, pending, records := None, None, [];
      tpExits, slExits, beExits, timeExits, lossRun, maxLossRun := 0, 0, 0, 0, 0, 0;
    }

    method Account(pnl: real)
      modifies this`balance, this`peak, this`maxDrawdownPct, this`lossRun, this`maxLossRun
      ensures Abstract() == Settle(old(Abstract()), pnl)
    {
      balance := balance + pnl;
      if pnl <= 0.0 {
        lossRun := lossRun + 1;
        if lossRun > maxLossRun {
          maxLossRun := lossRun;
        }
      } else {
        lossRun := 0;
      }
      peak := Max(peak, balance);
      maxDrawdownPct := Max(maxDrawdownPct, DropPct(peak, balance));
    }

    method CloseWith(r: Record)
      modifies this
      ensures Abstract() == Book(old(Abstract()), r)
    {
      Account(r.pnl);
      records := records + [r];
      match r.reason {
        case TpExit => tpExits := tpExits + 1;
        case SlExit =>
          if r.beActive {
            beExits := beExits + 1;
          } else {
            slExits := slExits + 1;
          }
        case TimeExit => timeExits := timeExits + 1;
        case CounterSignal =>
      }
      position := None;
    }

    /** Break-even, trailing and the stop in force. */
    method MoveStops(b: Position, bar: Bar, atr: Option<real>) returns (moved: Position, stop: real)
      ensures moved == Adjust(prm, b, bar, atr) && stop == EffectiveStop(prm, b, bar, atr)
    {
      var beActive, trail := b.beActive, b.trail;
      var trigger := BeTrigger(prm, b);
      if prm.useBreakeven && !beActive
         && ((b.side == Long && bar.high >= b.entryPrice + trigger)
             || (b.side == Short && bar.low <= b.entryPrice - trigger)) {
        beActive := true;
      }
      if b.side == Long {
        var base := if beActive then b.entryPrice else b.entryPrice - SlDistance(b);
        if prm.useTrailing && atr.Some? && atr.value > 0.0 {
          var candidate := TrailCandidate(prm, b.side, bar, atr.value);
          trail := Some(if trail.Some? then Max(trail.value, candidate) else candidate);
          stop := Max(base, trail.value);
        } else {
          stop := base;
        }
      } else {
        var base := if beActive then b.entryPrice else b.entryPrice + SlDistance(b);
        if prm.useTrailing && atr.Some? && atr.value > 0.0 {
          var candidate := TrailCandidate(prm, b.side, bar, atr.value);
          trail := Some(if trail.Some? then Min(trail.value, candidate) else candidate);
          stop := Min(base, trail.value);
        } else {
          stop := base;
        }
      }
      moved := b.(beActive := beActive, trail := trail, stops := b.stops + [stop]);
    }

    method ManagePosition(i: nat)
      requires WellFormed(d) && i < |d.bars|
      modifies this
      ensures Abstract() == Manage(prm, d, i, old(Abstract()))
    {
      if position.None? {
        return;
      }
      var bar := d.bars[i];
      var b, stop := MoveStops(position.value, bar, d.atr[i]);
      position := Some(b);
      var exit := ExitOn(prm, b, bar, i, stop);
      if exit.Some? {
        var (price, reason) := exit.value;
        CloseWith(Record(b.side, b.entryIndex, i, b.entryPrice, price, FinalTp(b), stop,
                         ExitPnl(prm, b, balance, stop, price), reason, b.beActive, b.stops));
      }
    }

    method Step(i: nat)
      requires WellFormed(d) && i < |d.bars|
      modifies this
      ensures Abstract() == StepBar(prm, d, i, old(Abstract()))
    {
      if pending.Some? && position.None? {
        position, pending := Some(Enter(prm, d.bars[i], i, pending.value)), None;
      }
      ManagePosition(i);
      if d.signals[i].None? {
        return;
      }
      var sig, close := d.signals[i].value, d.bars[i].close;
      if position.Some? {
        var b := position.value;
        if (b.side == Long && sig.short) || (b.side == Short && sig.long) {
          CloseWith(Record(b.side, b.entryIndex, i, b.entryPrice, close, b.tp, b.sl,
                           CounterPnl(prm, b, balance, d.atr[i].value, close), CounterSignal, b.beActive, b.stops));
        }
      }
      if position.None? && pending.None? && i + 1 < |d.bars| {
        if sig.long {
          pending := Some(Pending(Long, d.atr[i].value));
        } else if sig.short {
          pending := Some(Pending(Short, d.atr[i].value));
        }
      }
    }
  }

  /** `run_config`, down to the state its statistics are taken from. */
  method RunConfig(prm: Params, d: Input) returns (b: Backtest)
    requires WellFormed(d)
    ensures b.Abstract() == Run(prm, d, |d.bars|)
  {
    hide StepBar;
    b := new Backtest(prm, d);
    var i := prm.warmup;
    while i < |d.bars|
      invariant b.prm == prm && b.d == d && fresh(b)
      invariant prm.warmup <= i && (i <= |d.bars| || i == prm.warmup)
      invariant i <= |d.bars| ==> b.Abstract() == Run(prm, d, i)
      invariant i > |d.bars| ==> b.Abstract() == Start()
    {
      b.Step(i);
      i := i + 1;
    }
  }
}
