/** The bar walk of the HTF-Fib runner (scripts/run_htf_fib_backtest.py). */
module FibWalk {
  import opened Wrappers
  import opened Market
  import opened Brackets
  import opened Swing
  import opened SwingRuns
  import opened FibModel

  datatype Pending = Pending(side: Direction, atr: real)

  /** The variables of the loop. `armed` is bookkeeping: the swing version of each signal. */
  datatype FibState = FibState(
    balance: real, position: Option<Bracket>, pending: Option<Pending>, history: History,
    previousLong: bool, previousShort: bool, tradedVersion: int, trades: seq<Trade>, armed: seq<int>)

  function Start(prm: Params): FibState
  {
    FibState(StartingCapital(prm), None, None, Begin(), false, false, -1, [], [])
  }

  /** The position opened at the open of bar `i`. */
  function EntryBracket(d: Features, cfg: Config, prm: Params, i: nat, e: Pending, distance: real): Bracket
    requires i < |d.bars|
  {
    OpenBracket(e.side, i, d.bars[i], distance, e.atr * cfg.tpAtr, prm.costs, prm.pip)
  }

  function Fill(d: Features, cfg: Config, prm: Params, i: nat, s: FibState): Result<FibState>
    requires WellFormed(d) && i < |d.bars|
  {
    if s.pending.None? || s.position.Some? then Ok(s)
    else
      var e := s.pending.value;
      match StopDistance(d, cfg, prm, i, e.atr)
      case Err(x) => Err(x)
      case Ok(distance) =>
        Ok(s.(position := Some(EntryBracket(d, cfg, prm, i, e, distance)), pending := None))
  }

  function ExitNow(d: Features, cfg: Config, i: nat, s: FibState, stopWins: bool): Option<Reason>
    requires WellFormed(d) && i < |d.bars|
  {
    if s.position.Some? && s.position.value.risk > 0.0
    then ExitReason(s.position.value, d.bars[i], i, cfg.maxHold, stopWins)
    else None
  }

  function Exit(d: Features, cfg: Config, prm: Params, i: nat, s: FibState, stopWins: bool): FibState
    requires WellFormed(d) && i < |d.bars|
  {
    match ExitNow(d, cfg, i, s, stopWins)
    case None => s
    case Some(reason) =>
      var t := CloseTrade(d, cfg, prm, s.position.value, s.balance, i, reason);
      s.(balance := s.balance + t.netPnl, trades := s.trades + [t], position := None)
  }

  /** The entry test on the close of a bar. */
  function Test(d: Features, cfg: Config, i: nat, s: FibState): FibState
    requires WellFormed(d) && i < |d.bars|
  {
    var swing := s.history.swing;
    if s.position.Some? || s.pending.Some? || !Readable(d, i, swing) then
      s.(previousLong := false, previousShort := false)
    else
      var long, short := LongCondition(d, cfg, i, swing), ShortCondition(d, cfg, i, swing);
      var available := i + 1 < |d.bars| && (!cfg.oneEntryPerSwing || s.tradedVersion != swing.version);
      var u := s.(previousLong := long, previousShort := short);
      if available && long && !s.previousLong then Signal(u, Long, d.atr[i].value)
      else if available && short && !s.previousShort then Signal(u, Short, d.atr[i].value)
      else u
  }

  /** Swing bookkeeping and the entry test; neither looks at the balance. */
  function Look(d: Features, cfg: Config, i: nat, s: FibState): FibState
    requires WellFormed(d) && i < |d.bars|
  {
    Test(d, cfg, i, s.(history := SwingOn(d, cfg, i, s.history)))
  }

  function Signal(s: FibState, side: Direction, atr: real): FibState
  {
    var version := s.history.swing.version;
    s.(pending := Some(Pending(side, atr)), tradedVersion := version, armed := s.armed + [version])
  }

  /** One bar. The source is `stopWins == true`; the other value lets the target win when both
      levels trade in the bar. */
  function StepBar(d: Features, cfg: Config, prm: Params, i: nat, s: FibState, stopWins: bool): Result<FibState>
    requires WellFormed(d) && i < |d.bars|
  {
    match Fill(d, cfg, prm, i, s)
    case Err(x) => Err(x)
    case Ok(t) => Ok(Look(d, cfg, i, Exit(d, cfg, prm, i, t, stopWins)))
  }

  /** The state after `k` bars, or the exception that ended the run. */
  function Run(d: Features, cfg: Config, prm: Params, k: nat): Result<FibState>
    requires WellFormed(d) && k <= |d.bars|
  {
    if k == 0 then Ok(Start(prm))
    else
      match Run(d, cfg, prm, k - 1)
      case Err(x) => Err(x)
      case Ok(s) => StepBar(d, cfg, prm, k - 1, s, true)
  }

  /** The mutable walk. */
  class Walk {
    const d: Features
    const cfg: Config
    const prm: Params
    const state: SwingState
    var balance: real
    var position: Option<Bracket>
    var pending: Option<Pending>
    var previousLong: bool
    var previousShort: bool
    var tradedVersion: int
    var trades: seq<Trade>
    ghost var history: History
    ghost var armed: seq<int>

    ghost predicate Valid()
      reads this, state
    {
      WellFormed(d) && history.swing == state.State()
    }

    ghost function Abstract(): FibState
      reads this
    {
      FibState(balance, position, pending, history, previousLong, previousShort, tradedVersion, trades, armed)
    }

    constructor (d: Features, cfg: Config, prm: Params)
      requires WellFormed(d)
      ensures Valid() && Abstract() == Start(prm) && fresh(state)
      ensures this.d == d && this.cfg == cfg && this.prm == prm
    {
      this.d, this.cfg, this.prm := d, cfg, prm;
      state := new SwingState();
      balance := StartingCapital(prm);
      position, pending := None, None;
      previousLong, previousShort, tradedVersion := false, false, -1;
      trades, armed, history := [], [], Begin();
    }

    method FillPending(i: nat) returns (error: Option<Error>)
      requires Valid() && i < |d.bars|
      modifies this
      ensures Valid() && history == old(history)
      ensures match Fill(d, cfg, prm, i, old(Abstract()))
              case Err(x) => error == Some(x)
              case Ok(s) => error == None && Abstract() == s
    {
      error := None;
      if pending.Some? && position.None? {
        var e := pending.value;
        match StopDistance(d, cfg, prm, i, e.atr) {
          case Err(x) => error := Some(x);
          case Ok(distance) =>
            position := Some(EntryBracket(d, cfg, prm, i, e, distance));
            pending := None;
        }
      }
    }

    method ExitPosition(i: nat)
      requires Valid() && i < |d.bars|
      modifies this
      ensures Valid() && Abstract() == Exit(d, cfg, prm, i, old(Abstract()), true)
    {
      if position.Some? {
        var b, bar := position.value, d.bars[i];
        var reason: Option<Reason> := None;
        if i - b.entryIndex > cfg.maxHold {
          reason := Some(Time);
        } else if b.side == Long {
          if bar.low <= b.stop {
            reason := Some(Stop);
          } else if bar.high >= b.target {
            reason := Some(Target);
          }
        } else {
          if bar.high >= b.stop {
            reason := Some(Stop);
          } else if bar.low <= b.target {
            reason := Some(Target);
          }
        }
        if reason.Some? && b.risk > 0.0 {
          var t := CloseTrade(d, cfg, prm, b, balance, i, reason.value);
          balance := balance + t.netPnl;
          trades := trades + [t];
          position := None;
        }
      }
    }

    method ConsumeEvents(i: nat)
      requires Valid() && i < |d.bars|
      modifies this`history, state
      ensures Valid() && history == ConsumeAll(old(history), EventsOn(d, i))
    {
      var events := EventsOn(d, i);
      for j := 0 to |events|
        invariant Valid()
        invariant ConsumeAll(history, events[j..]) == ConsumeAll(old(history), events)
      {
        var changed := state.Consume(events[j]);
        history := Apply(history, Pivot(events[j]));
        assert events[j..][1..] == events[j + 1..];
      }
    }

    method TrackSwing(i: nat)
      requires Valid() && i < |d.bars|
      modifies this`history, state
      ensures Valid() && history == SwingOn(d, cfg, i, old(history))
    {
      ConsumeEvents(i);
      var bar := d.bars[i];
      if cfg.invalidateSwing && state.direction == 1 && state.low.Some? {
        if bar.low < state.low.value {
          state.Reset();
          history := Apply(history, SwingRuns.Break);
        }
      } else if cfg.invalidateSwing && state.direction == -1 && state.high.Some? && bar.high > state.high.value {
        state.Reset();
        history := Apply(history, SwingRuns.Break);
      }
    }

    /** The two entry conditions on the close of bar `i`. */
    method EntryConditions(i: nat) returns (long: bool, short: bool)
      requires Valid() && i < |d.bars| && Readable(d, i, state.State())
      ensures long == LongCondition(d, cfg, i, state.State()) && short == ShortCondition(d, cfg, i, state.State())
    {
      var bar := d.bars[i];
      var rsi15, rsi30, rsi1h := d.rsi15[i].value, d.rsi30[i].value, d.rsi1h[i].value;
      var longRsi := rsi15 <= cfg.rsiLong && (cfg.requireMtfRsi ==> rsi30 <= cfg.rsiLong && rsi1h <= cfg.rsiLong);
      var shortRsi := rsi15 >= cfg.rsiShort && (cfg.requireMtfRsi ==> rsi30 >= cfg.rsiShort && rsi1h >= cfg.rsiShort);
      var longTrend, shortTrend := bar.close > d.ema200[i], bar.close < d.ema200[i];
      if cfg.requireEmaStack {
        longTrend := bar.close > d.ema50[i] > d.ema200[i];
        shortTrend := bar.close < d.ema50[i] < d.ema200[i];
      }
      var previousClose := PreviousClose(d, i);
      var bullish := bar.close > bar.open && bar.close > previousClose;
      var bearish := bar.close < bar.open && bar.close < previousClose;
      long := state.direction == 1 && state.fib786.value <= bar.close <= state.fib618.value
        && longTrend && longRsi && (cfg.requireCandle ==> bullish);
      short := state.direction == -1 && state.fib618.value <= bar.close <= state.fib786.value
        && shortTrend && shortRsi && (cfg.requireCandle ==> bearish);
    }

    method TestEntry(i: nat)
      requires Valid() && i < |d.bars|
      modifies this
      ensures Valid() && Abstract() == Test(d, cfg, i, old(Abstract()))
    {
      if position.Some? || pending.Some? || state.direction == 0 || state.fib618.None? || state.fib786.None?
         || d.atr[i].None? || d.rsi15[i].None? || d.rsi30[i].None? || d.rsi1h[i].None? {
        previousLong, previousShort := false, false;
        return;
      }
      var long, short := EntryConditions(i);
      var version := state.version;
      if i + 1 < |d.bars| && (!cfg.oneEntryPerSwing || tradedVersion != version) {
        if long && !previousLong {
          pending, tradedVersion, armed := Some(Pending(Long, d.atr[i].value)), version, armed + [version];
        } else if short && !previousShort {
          pending, tradedVersion, armed := Some(Pending(Short, d.atr[i].value)), version, armed + [version];
        }
      }
      previousLong, previousShort := long, short;
    }

    method Step(i: nat) returns (error: Option<Error>)
      requires Valid() && i < |d.bars|
      modifies this, state
      ensures Valid()
      ensures match StepBar(d, cfg, prm, i, old(Abstract()), true)
              case Err(x) => error == Some(x)
              case Ok(s) => error == None && Abstract() == s
    {
      error := FillPending(i);
      if error.Some? {
        return;
      }
      ExitPosition(i);
      TrackSwing(i);
      TestEntry(i);
    }

    /** The loop over all bars. */
    method ToTheEnd() returns (error: Option<Error>)
      requires Valid() && Abstract() == Start(prm)
      modifies this, state
      ensures Run(d, cfg, prm, |d.bars|) == if error.Some? then Err(error.value) else Ok(Abstract())
    {
      hide StepBar;
      for i := 0 to |d.bars|
        invariant Valid() && Run(d, cfg, prm, i) == Ok(Abstract())
      {
        error := Advance(i);
        if error.Some? {
          ErrorEndsRun(d, cfg, prm, i + 1, |d.bars|);
          return;
        }
      }
      error := None;
    }

    /** One bar of a run that has reached bar `i`. */
    method Advance(i: nat) returns (error: Option<Error>)
      requires Valid() && i < |d.bars| && Run(d, cfg, prm, i) == Ok(Abstract())
      modifies this, state
      ensures Valid()
      ensures Run(d, cfg, prm, i + 1) == if error.Some? then Err(error.value) else Ok(Abstract())
    {
      RunNext(d, cfg, prm, i, Abstract());
      error := Step(i);
    }
  }

  /** What a run hands back. */
  function Report(r: Result<FibState>): Result<(seq<Trade>, real)>
  {
    match r
    case Err(x) => Err(x)
    case Ok(s) => Ok((s.trades, s.balance))
  }

  /** `run_prepared_backtest`. Reading the first timestamp of an empty series raises. */
  method RunPreparedBacktest(d: Features, cfg: Config, prm: Params) returns (r: Result<(seq<Trade>, real)>)
    requires WellFormed(d)
    ensures r == if |d.bars| == 0 then Err(IndexError) else Report(Run(d, cfg, prm, |d.bars|))
  {
    if |d.bars| == 0 {
      return Err(IndexError);
    }
    var walk := new Walk(d, cfg, prm);
    var error := walk.ToTheEnd();
    r := if error.Some? then Err(error.value) else Ok((walk.trades, walk.balance));
  }

  lemma RunNext(d: Features, cfg: Config, prm: Params, i: nat, s: FibState)
    requires WellFormed(d) && i < |d.bars| && Run(d, cfg, prm, i) == Ok(s)
    ensures Run(d, cfg, prm, i + 1) == StepBar(d, cfg, prm, i, s, true)
  {
  }

  /** An exception is final. */
  lemma {:induction false} ErrorEndsRun(d: Features, cfg: Config, prm: Params, k: nat, n: nat)
    requires WellFormed(d) && k <= n <= |d.bars| && Run(d, cfg, prm, k).Err?
    ensures Run(d, cfg, prm, n) == Run(d, cfg, prm, k)
  {
    if k < n {
      ErrorEndsRun(d, cfg, prm, k, n - 1);
    }
  }
}
