/** The swing state and the HTF-Fib walk do not tell long from short: in the mirror, with every RSI
    `r` read as `100 - r`, they do the same, seen in the mirror, with the same results. */
module FibMirror {
  import opened Wrappers
  import opened Market
  import opened Costs
  import opened Brackets
  import opened Swing
  import opened SwingRuns
  import opened FibModel
  import opened FibWalk
  import opened Mirror

  function FlipKind(k: Kind): Kind
  {
    if k == High then Low else High
  }

  function FlipEvent(e: PivotEvent): PivotEvent
  {
    e.(kind := FlipKind(e.kind), price := -e.price)
  }

  function FlipEvents(events: seq<PivotEvent>): (r: seq<PivotEvent>)
    ensures |r| == |events| && forall i :: 0 <= i < |r| ==> r[i] == FlipEvent(events[i])
  {
    seq(|events|, i requires 0 <= i < |events| => FlipEvent(events[i]))
  }

  function FlipSwing(s: Swing): Swing
  {
    Swing(if s.lastKind.Some? then Some(FlipKind(s.lastKind.value)) else None, -s.lastPrice, s.lastTime,
          FlipPrice(s.low), s.lowTime, FlipPrice(s.high), s.highTime, -s.direction, s.version,
          FlipPrice(s.fib618), FlipPrice(s.fib786))
  }

  function FlipDrawn(d: Option<Drawn>): Option<Drawn>
  {
    if d.Some? then Some(Drawn(-d.value.high, -d.value.low, -d.value.direction)) else None
  }

  function FlipHistory(h: History): History
  {
    h.(swing := FlipSwing(h.swing), drawn := FlipDrawn(h.drawn))
  }

  function FlipOp(op: Op): Op
  {
    match op
    case Break => SwingRuns.Break
    case Pivot(e) => Pivot(FlipEvent(e))
  }

  function FlipOps(ops: seq<Op>): (r: seq<Op>)
    ensures |r| == |ops| && forall i :: 0 <= i < |r| ==> r[i] == FlipOp(ops[i])
  {
    seq(|ops|, i requires 0 <= i < |ops| => FlipOp(ops[i]))
  }

  // ------------------------------------------------------------ the swing

  lemma SetFibFlips(s: Swing)
    ensures SetFib(FlipSwing(s)) == (FlipSwing(SetFib(s).0), SetFib(s).1)
  {
  }

  lemma UpdateFlips(s: Swing, e: PivotEvent)
    ensures Update(FlipSwing(s), FlipEvent(e)) == (FlipSwing(Update(s, e).0), Update(s, e).1)
  {
    hide SetFib;
    var r := s.(lastPrice := e.price, lastTime := e.pivotTime);
    if e.kind == High {
      SetFibFlips(r.(high := Some(e.price), highTime := e.pivotTime));
      SetFibFlips(Remember(s.(low := Some(s.lastPrice), lowTime := s.lastTime, high := Some(e.price),
                              highTime := e.pivotTime, direction := 1), e));
    } else {
      SetFibFlips(r.(low := Some(e.price), lowTime := e.pivotTime));
      SetFibFlips(Remember(s.(high := Some(s.lastPrice), highTime := s.lastTime, low := Some(e.price),
                              lowTime := e.pivotTime, direction := -1), e));
    }
  }

  lemma ApplyFlips(h: History, op: Op)
    requires LegKnown(h.swing) && (h.swing.direction == 0 || h.swing.direction == 1 || h.swing.direction == -1)
    ensures Apply(FlipHistory(h), FlipOp(op)) == FlipHistory(Apply(h, op))
  {
    hide Update;
    if op.Pivot? {
      UpdateFlips(h.swing, op.event);
      UpdateEffect(h.swing, op.event);
    }
  }

  lemma FlipsToBegin()
    ensures FlipHistory(Begin()) == Begin()
  {
  }

  /** Every sequence of pivots and invalidations, in the mirror, gives the swing seen in the mirror. */
  lemma {:induction false} SwingRunsFlip(ops: seq<Op>)
    ensures RunOps(FlipOps(ops)) == FlipHistory(RunOps(ops))
  {
    hide Apply, FlipHistory, FlipOp, Begin;
    if ops == [] {
      FlipsToBegin();
    } else {
      var rest := ops[..|ops| - 1];
      assert FlipOps(ops)[..|ops| - 1] == FlipOps(rest);
      SwingRunsFlip(rest);
      SwingRunsKeepInv(rest);
      ApplyFlips(RunOps(rest), ops[|ops| - 1]);
    }
  }

  // ------------------------------------------------------------ the inputs of the walk

  function FlipFeatures(d: Features): Features
  {
    Features(FlipBars(d.bars), FlipPrices(d.ema50), FlipPrices(d.ema200), FlipRsis(d.rsi15), FlipRsis(d.rsi30),
             FlipRsis(d.rsi1h), d.usd, d.atr, map t | t in d.events :: FlipEvents(d.events[t]))
  }

  /** The inputs of two walks are each other's mirror. Of the pivots only those count that a bar shows. */
  ghost predicate InMirror(d: Features, e: Features)
  {
    && WellFormed(d) && e.bars == FlipBars(d.bars) && e.usd == d.usd && e.atr == d.atr
    && e.ema50 == FlipPrices(d.ema50) && e.ema200 == FlipPrices(d.ema200)
    && e.rsi15 == FlipRsis(d.rsi15) && e.rsi30 == FlipRsis(d.rsi30) && e.rsi1h == FlipRsis(d.rsi1h)
    && forall i :: 0 <= i < |d.bars| ==> EventsOn(e, i) == FlipEvents(EventsOn(d, i))
  }

  /** What the mirror leaves alone. */
  lemma MirrorInputs(d: Features, e: Features, i: nat)
    requires InMirror(d, e) && i <= |d.bars|
    ensures WellFormed(d) && WellFormed(e) && |e.bars| == |d.bars| && e.usd == d.usd && e.atr == d.atr
    ensures i < |d.bars| ==> e.bars[i] == FlipBar(d.bars[i]) && EventsOn(e, i) == FlipEvents(EventsOn(d, i))
  {
    hide EventsOn;
  }

  /** All inputs have a mirror. */
  lemma FlippedIsMirror(d: Features)
    requires WellFormed(d)
    ensures InMirror(d, FlipFeatures(d))
  {
    forall i | 0 <= i < |d.bars| ensures EventsOn(FlipFeatures(d), i) == FlipEvents(EventsOn(d, i)) {
      EventsFlip(d, i);
    }
  }

  lemma EventsFlip(d: Features, i: nat)
    requires i < |d.bars|
    ensures EventsOn(FlipFeatures(d), i) == FlipEvents(EventsOn(d, i))
  {
  }

  /** The RSI bounds in the mirror. */
  function FlipConfig(cfg: Config): Config
  {
    cfg.(rsiLong := 100.0 - cfg.rsiShort, rsiShort := 100.0 - cfg.rsiLong)
  }

  function FlipPending(e: Option<Pending>): Option<Pending>
  {
    if e.Some? then Some(Pending(FlipSide(e.value.side), e.value.atr)) else None
  }

  function FlipState(s: FibState): FibState
  {
    FibState(s.balance, FlipPosition(s.position), FlipPending(s.pending), FlipHistory(s.history), s.previousShort,
             s.previousLong, s.tradedVersion, FlipTrades(s.trades), s.armed)
  }

  function FlipResult(r: Result<FibState>): Result<FibState>
  {
    match r
    case Err(x) => Err(x)
    case Ok(s) => Ok(FlipState(s))
  }

  /** What the conditions of one side are in the mirror: those of the other. */
  lemma ConditionsFlip(d: Features, e: Features, cfg: Config, i: nat, s: Swing)
    requires InMirror(d, e) && i < |d.bars|
    ensures WellFormed(e) && |e.bars| == |d.bars|
    ensures Readable(e, i, FlipSwing(s)) == Readable(d, i, s)
    ensures Readable(d, i, s) ==>
      && LongCondition(e, FlipConfig(cfg), i, FlipSwing(s)) == ShortCondition(d, cfg, i, s)
      && ShortCondition(e, FlipConfig(cfg), i, FlipSwing(s)) == LongCondition(d, cfg, i, s)
  {
  }

  // ------------------------------------------------------------ one bar

  lemma {:induction false} ConsumeFlips(h: History, events: seq<PivotEvent>)
    requires SwingInv(h)
    ensures ConsumeAll(FlipHistory(h), FlipEvents(events)) == FlipHistory(ConsumeAll(h, events))
    ensures SwingInv(ConsumeAll(h, events))
    decreases |events|
  {
    hide Apply, FlipHistory, VersionsMinted;
    if events != [] {
      ApplyFlips(h, Pivot(events[0]));
      ApplyKeepsInv(h, Pivot(events[0]));
      ConsumeFlips(Apply(h, Pivot(events[0])), events[1..]);
      assert FlipEvents(events)[1..] == FlipEvents(events[1..]);
    }
  }

  lemma BrokenFlips(cfg: Config, s: Swing, bar: Bar)
    requires s.direction == 0 || s.direction == 1 || s.direction == -1
    ensures SwingBroken(FlipConfig(cfg), FlipSwing(s), FlipBar(bar)) == SwingBroken(cfg, s, bar)
  {
  }

  lemma SwingBarFlips(d: Features, e: Features, cfg: Config, i: nat, h: History)
    requires InMirror(d, e) && i < |d.bars| && SwingInv(h)
    ensures |e.bars| == |d.bars|
    ensures SwingOn(e, FlipConfig(cfg), i, FlipHistory(h)) == FlipHistory(SwingOn(d, cfg, i, h))
    ensures SwingInv(SwingOn(d, cfg, i, h))
  {
    hide EventsOn, Apply, SwingBroken, VersionsMinted, FlipConfig, FlipSwing;
    MirrorInputs(d, e, i);
    var g := ConsumeAll(h, EventsOn(d, i));
    ConsumeFlips(h, EventsOn(d, i));
    BrokenFlips(cfg, g.swing, d.bars[i]);
    ApplyFlips(g, SwingRuns.Break);
    ApplyKeepsInv(g, SwingRuns.Break);
  }

  lemma TestFlips(d: Features, e: Features, cfg: Config, i: nat, s: FibState)
    requires InMirror(d, e) && i < |d.bars|
    ensures WellFormed(e) && |e.bars| == |d.bars|
    ensures Test(e, FlipConfig(cfg), i, FlipState(s)) == FlipState(Test(d, cfg, i, s))
  {
    hide LongCondition, ShortCondition, Readable, FlipSwing, FlipTrades, InMirror, FlipDrawn, EventsOn, FlipEvents;
    var swing := s.history.swing;
    MirrorInputs(d, e, i);
    ConditionsFlip(d, e, cfg, i, swing);
    FlippedVersion(swing);
    if s.position.None? && s.pending.None? && Readable(d, i, swing) {
      OneSideHolds(d, cfg, i, swing);
    }
  }

  lemma OneSideHolds(d: Features, cfg: Config, i: nat, s: Swing)
    requires WellFormed(d) && i < |d.bars| && Readable(d, i, s)
    ensures !(LongCondition(d, cfg, i, s) && ShortCondition(d, cfg, i, s))
  {
  }

  lemma FlippedVersion(s: Swing)
    ensures FlipSwing(s).version == s.version
  {
  }

  lemma StopDistanceFlips(d: Features, e: Features, cfg: Config, prm: Params, i: nat, atr: real)
    requires InMirror(d, e) && i < |d.bars|
    ensures WellFormed(e) && |e.bars| == |d.bars|
    ensures StopDistance(e, FlipConfig(cfg), prm, i, atr) == StopDistance(d, cfg, prm, i, atr)
  {
    hide InMirror, CapitalFractionStopDistance;
    MirrorInputs(d, e, i);
    var r, q := StopDistance(e, FlipConfig(cfg), prm, i, atr), StopDistance(d, cfg, prm, i, atr);
    match prm.stopFraction
    case None =>
      assert r.Ok? && q.Ok?;
      assert r.value == atr * FlipConfig(cfg).slAtr == atr * cfg.slAtr == q.value;
      assert r == Ok(r.value) && q == Ok(q.value);
    case Some(_) =>
      assert e.usd[i] == d.usd[i];
  }

  lemma EntryFlips(d: Features, e: Features, cfg: Config, prm: Params, i: nat, x: Pending, distance: real)
    requires InMirror(d, e) && i < |d.bars|
    ensures |e.bars| == |d.bars|
    ensures EntryBracket(e, FlipConfig(cfg), prm, i, Pending(FlipSide(x.side), x.atr), distance)
         == FlipBracket(EntryBracket(d, cfg, prm, i, x, distance))
  {
    MirrorInputs(d, e, i);
    assert x.atr * FlipConfig(cfg).tpAtr == x.atr * cfg.tpAtr;
    OpenBracketFlips(x.side, i, d.bars[i], distance, x.atr * cfg.tpAtr, prm.costs, prm.pip);
  }

  lemma FillFlips(d: Features, e: Features, cfg: Config, prm: Params, i: nat, s: FibState)
    requires InMirror(d, e) && i < |d.bars|
    ensures WellFormed(e) && |e.bars| == |d.bars|
    ensures Fill(e, FlipConfig(cfg), prm, i, FlipState(s)) == FlipResult(Fill(d, cfg, prm, i, s))
  {
    hide StopDistance, EntryBracket, FlipHistory, FlipTrades, FlipConfig, FlipBracket, InMirror;
    MirrorInputs(d, e, i);
    if s.pending.Some? && s.position.None? {
      var x := s.pending.value;
      var distance := StopDistance(d, cfg, prm, i, x.atr);
      StopDistanceFlips(d, e, cfg, prm, i, x.atr);
      if distance.Ok? {
        EntryFlips(d, e, cfg, prm, i, x, distance.value);
      }
    }
  }

  lemma CloseFlips(d: Features, e: Features, cfg: Config, prm: Params, b: Bracket, balance: real, i: nat,
                   reason: Brackets.Reason)
    requires InMirror(d, e) && i < |d.bars| && b.risk > 0.0
    ensures WellFormed(e) && |e.bars| == |d.bars|
    ensures FlipBracket(b).risk > 0.0
    ensures CloseTrade(e, FlipConfig(cfg), prm, FlipBracket(b), balance, i, reason)
         == FlipTrade(CloseTrade(d, cfg, prm, b, balance, i, reason))
  {
    hide NetCash, FibModel.Quantity, ExitFill, ExitMid, GrossR, Move, FibModel.RiskCash;
    var bar := d.bars[i];
    MirrorInputs(d, e, i);
    ExitFlips(b, bar, i, cfg.maxHold, true, reason);
    GrossFlips(b, bar, reason, cfg.tpAtr, cfg.slAtr);
    var mid := ExitMid(b, bar, reason);
    FillsFlip(prm.costs, mid, b.side, prm.pip);
    MoveFlips(b.side, b.entryPrice, ExitFill(prm.costs, mid, b.side, prm.pip));
  }

  lemma ExitNowFlips(d: Features, e: Features, cfg: Config, i: nat, s: FibState, stopWins: bool)
    requires InMirror(d, e) && i < |d.bars|
    ensures WellFormed(e) && |e.bars| == |d.bars|
    ensures ExitNow(e, FlipConfig(cfg), i, FlipState(s), stopWins) == ExitNow(d, cfg, i, s, stopWins)
  {
    hide ExitReason, InMirror, FlipHistory, FlipTrades, EventsOn, FlipEvents;
    MirrorInputs(d, e, i);
    if s.position.Some? {
      ExitFlips(s.position.value, d.bars[i], i, cfg.maxHold, stopWins, Time);
    }
  }

  lemma ExitBarFlips(d: Features, e: Features, cfg: Config, prm: Params, i: nat, s: FibState, stopWins: bool)
    requires InMirror(d, e) && i < |d.bars|
    ensures WellFormed(e) && |e.bars| == |d.bars|
    ensures Exit(e, FlipConfig(cfg), prm, i, FlipState(s), stopWins)
         == FlipState(Exit(d, cfg, prm, i, s, stopWins))
  {
    hide CloseTrade, ExitReason, FlipHistory, InMirror, FlipConfig, WellFormed;
    MirrorInputs(d, e, i);
    ExitNowFlips(d, e, cfg, i, s, stopWins);
    if ExitNow(d, cfg, i, s, stopWins).Some? {
      var b, reason := s.position.value, ExitNow(d, cfg, i, s, stopWins).value;
      var t := CloseTrade(d, cfg, prm, b, s.balance, i, reason);
      CloseFlips(d, e, cfg, prm, b, s.balance, i, reason);
      TradesFlipSnoc(s.trades, t);
      ResultsStay(t);
    }
  }

  lemma LookFlips(d: Features, e: Features, cfg: Config, i: nat, s: FibState)
    requires InMirror(d, e) && i < |d.bars| && SwingInv(s.history)
    ensures WellFormed(e) && |e.bars| == |d.bars|
    ensures Look(e, FlipConfig(cfg), i, FlipState(s)) == FlipState(Look(d, cfg, i, s))
    ensures SwingInv(Look(d, cfg, i, s).history)
  {
    hide SwingOn, FlipHistory, InMirror, FlipConfig, Readable, LongCondition, ShortCondition, SwingInv;
    SwingBarFlips(d, e, cfg, i, s.history);
    TestFlips(d, e, cfg, i, s.(history := SwingOn(d, cfg, i, s.history)));
  }

  lemma ManagedHistory(d: Features, cfg: Config, prm: Params, i: nat, s: FibState)
    requires WellFormed(d) && i < |d.bars| && Fill(d, cfg, prm, i, s).Ok?
    ensures Exit(d, cfg, prm, i, Fill(d, cfg, prm, i, s).value, true).history == s.history
  {
  }

  lemma StepFlips(d: Features, e: Features, cfg: Config, prm: Params, i: nat, s: FibState)
    requires InMirror(d, e) && i < |d.bars| && SwingInv(s.history)
    ensures WellFormed(e) && |e.bars| == |d.bars|
    ensures
      var r := StepBar(d, cfg, prm, i, s, true);
      && StepBar(e, FlipConfig(cfg), prm, i, FlipState(s), true) == FlipResult(r)
      && (r.Ok? ==> SwingInv(r.value.history))
  {
    hide Fill, Exit, Look, InMirror, FlipConfig, SwingInv, FlipState;
    MirrorInputs(d, e, i);
    FillFlips(d, e, cfg, prm, i, s);
    var f := Fill(d, cfg, prm, i, s);
    if f.Ok? {
      ManagedHistory(d, cfg, prm, i, s);
      ExitBarFlips(d, e, cfg, prm, i, f.value, true);
      LookFlips(d, e, cfg, i, Exit(d, cfg, prm, i, f.value, true));
    }
  }

  lemma StartFlips(prm: Params)
    ensures FlipState(Start(prm)) == Start(prm) && SwingInv(Start(prm).history)
  {
    hide FlipHistory, SwingInv, Begin;
    FlipsToBegin();
    SwingRunsKeepInv([]);
    assert FlipTrades([]) == [];
  }

  /** Every run in the mirror is the run seen in the mirror: the same bars are entered and left, for
      the same reasons and with the same results or the same exception, with long and short exchanged. */
  lemma {:induction false} RunFlips(d: Features, e: Features, cfg: Config, prm: Params, k: nat)
    requires InMirror(d, e) && k <= |d.bars|
    ensures WellFormed(e) && |e.bars| == |d.bars|
    ensures Run(e, FlipConfig(cfg), prm, k) == FlipResult(Run(d, cfg, prm, k))
    ensures Run(d, cfg, prm, k).Ok? ==> SwingInv(Run(d, cfg, prm, k).value.history)
  {
    hide StepBar, InMirror, FlipConfig, FlipState, SwingInv, Start, WellFormed;
    MirrorInputs(d, e, k);
    if k == 0 {
      StartFlips(prm);
    } else {
      RunFlips(d, e, cfg, prm, k - 1);
      if Run(d, cfg, prm, k - 1).Ok? {
        StepFlips(d, e, cfg, prm, k - 1, Run(d, cfg, prm, k - 1).value);
      }
    }
  }
}
