/** The SMC walk does not tell long from short: on inputs seen in the mirror it does the same, seen in
    the mirror, with the same results. */
module SmcMirror {
  import opened Wrappers
  import opened Market
  import opened Costs
  import opened Brackets
  import opened Structure
  import opened SmcModel
  import opened SmcWalk
  import opened Mirror

  function FlipBreak(b: Break): Break
  {
    Break(b.barIndex, FlipSide(b.side), b.tag, -b.pivotLevel, b.pivotBar, FlipPrice(b.swingBottom),
          FlipPrice(b.swingTop))
  }

  function FlipPrepared(p: Prepared): Prepared
  {
    Prepared(FlipBars(p.bars), FlipPrices(p.parsedLows), FlipPrices(p.parsedHighs), p.usd, p.atr,
             map i | i in p.breaks :: FlipBreak(p.breaks[i]))
  }

  function FlipBlock(ob: OrderBlock): OrderBlock
  {
    ob.(side := FlipSide(ob.side), high := -ob.low, low := -ob.high)
  }

  function FlipLive(ob: Option<OrderBlock>): Option<OrderBlock>
  {
    if ob.Some? then Some(FlipBlock(ob.value)) else None
  }

  function FlipOrigin(o: Origin): Origin
  {
    o.(side := FlipSide(o.side), block := FlipLive(o.block))
  }

  function FlipOrigins(origins: seq<Origin>): (r: seq<Origin>)
    ensures |r| == |origins| && forall i :: 0 <= i < |r| ==> r[i] == FlipOrigin(origins[i])
  {
    seq(|origins|, i requires 0 <= i < |origins| => FlipOrigin(origins[i]))
  }

  function FlipPending(e: Option<Pending>): Option<Pending>
  {
    if e.Some? then Some(Pending(FlipSide(e.value.side), e.value.atr)) else None
  }

  function FlipState(s: WalkState): WalkState
  {
    WalkState(s.balance, FlipPosition(s.position), FlipPending(s.pending), FlipLive(s.block), FlipTrades(s.trades),
              FlipOrigins(s.origins))
  }

  // ------------------------------------------------------------ the entry model

  /** Long retests become short ones, and mitigations mitigations. */
  lemma RetestFlips(ob: OrderBlock, i: int, bar: Bar)
    ensures RetestTriggered(FlipBlock(ob), i, FlipBar(bar)) == RetestTriggered(ob, i, bar)
    ensures Mitigated(FlipBlock(ob), FlipBar(bar)) == Mitigated(ob, bar)
  {
  }

  lemma AcceptFlips(b: Break, close: real, cfg: Config)
    ensures AcceptBreak(FlipBreak(b), -close, cfg) == AcceptBreak(b, close, cfg)
  {
  }

  lemma {:induction false} ArgExtremesFlip(s: seq<real>, lo: nat, hi: nat)
    requires lo < hi <= |s|
    ensures ArgMin(FlipPrices(s), lo, hi) == ArgMax(s, lo, hi) && ArgMax(FlipPrices(s), lo, hi) == ArgMin(s, lo, hi)
  {
    if hi > lo + 1 {
      ArgExtremesFlip(s, lo, hi - 1);
    }
  }

  lemma ParsedFlips(bar: Bar, atr: Option<real>)
    ensures ParsedHigh(FlipBar(bar), atr) == -ParsedLow(bar, atr)
    ensures ParsedLow(FlipBar(bar), atr) == -ParsedHigh(bar, atr)
  {
  }

  lemma ReadyFlips(p: Prepared, cfg: Config)
    requires Ready(p, cfg)
    ensures Ready(FlipPrepared(p), cfg)
  {
  }

  lemma BlockFlips(p: Prepared, cfg: Config, i: nat)
    requires Ready(p, cfg) && Ready(FlipPrepared(p), cfg)
    requires cfg.mode == ObRetest && i < |p.bars| && i in p.breaks && p.atr[i].Some?
    ensures BlockAt(FlipPrepared(p), cfg, i) == FlipBlock(BlockAt(p, cfg, i))
  {
    hide ArgMin, ArgMax;
    var b := p.breaks[i];
    ArgExtremesFlip(p.parsedLows, b.pivotBar, i + 1);
    ArgExtremesFlip(p.parsedHighs, b.pivotBar, i + 1);
  }

  // ------------------------------------------------------------ one bar

  lemma CloseFlips(cfg: Config, acct: Account, b: Bracket, bar: Bar, i: nat, usd: pos, reason: Brackets.Reason)
    requires b.risk > 0.0
    ensures CloseTrade(cfg, acct, FlipBracket(b), FlipBar(bar), i, usd, reason)
         == FlipTrade(CloseTrade(cfg, acct, b, bar, i, usd, reason))
  {
    hide NetCash, Quantity, ExitFill, ExitMid, GrossR, Move, RiskCash;
    ExitFlips(b, bar, i, cfg.maxHold, true, reason);
    GrossFlips(b, bar, reason, cfg.tpAtr, cfg.slAtr);
    var mid := ExitMid(b, bar, reason);
    FillsFlip(acct.costs, mid, b.side, acct.pip);
    MoveFlips(b.side, b.entryPrice, ExitFill(acct.costs, mid, b.side, acct.pip));
  }

  lemma FillFlips(p: Prepared, cfg: Config, acct: Account, i: nat, s: WalkState)
    requires i < |p.bars|
    ensures Fill(FlipPrepared(p), cfg, acct, i, FlipState(s)) == FlipState(Fill(p, cfg, acct, i, s))
  {
    if s.pending.Some? && s.position.None? {
      var e := s.pending.value;
      OpenBracketFlips(e.side, i, p.bars[i], StopDistance(cfg, acct, e.atr), e.atr * cfg.tpAtr, acct.costs, acct.pip);
    }
  }

  lemma OriginsFlipSnoc(origins: seq<Origin>, o: Origin)
    ensures FlipOrigins(origins + [o]) == FlipOrigins(origins) + [FlipOrigin(o)]
  {
  }

  lemma ExitBarFlips(p: Prepared, cfg: Config, acct: Account, i: nat, s: WalkState)
    requires WellFormed(p) && WellFormed(FlipPrepared(p)) && i < |p.bars|
    ensures Exit(FlipPrepared(p), cfg, acct, i, FlipState(s)) == FlipState(Exit(p, cfg, acct, i, s))
  {
    hide CloseTrade, ExitReason, FlipTrade;
    if s.position.Some? {
      var b := s.position.value;
      ExitFlips(b, p.bars[i], i, cfg.maxHold, true, Time);
      if ExitNow(p, cfg, i, s).Some? {
        var reason := ExitNow(p, cfg, i, s).value;
        CloseFlips(cfg, acct, b, p.bars[i], i, p.usd[i], reason);
        var t := CloseTrade(cfg, acct, b, p.bars[i], i, p.usd[i], reason);
        ResultsStay(t);
        TradesFlipSnoc(s.trades, t);
      }
    }
  }

  lemma SignalFlips(p: Prepared, i: nat, s: WalkState, side: Direction, atr: real, block: Option<OrderBlock>)
    ensures SmcWalk.Signal(FlipPrepared(p), i, FlipState(s), FlipSide(side), atr, FlipLive(block))
         == FlipState(SmcWalk.Signal(p, i, s, side, atr, block))
  {
    OriginsFlipSnoc(s.origins, Origin(i, side, atr, block));
  }

  lemma OnBreakFlips(p: Prepared, cfg: Config, acct: Account, i: nat, s: WalkState)
    requires Ready(p, cfg) && Ready(FlipPrepared(p), cfg) && i < |p.bars|
    ensures OnBreak(FlipPrepared(p), cfg, acct, i, FlipState(s)) == FlipState(OnBreak(p, cfg, acct, i, s))
  {
    hide AcceptBreak, BlockAt, SmcWalk.Signal, FlipBars, FlipPrices;
    if i in p.breaks && p.atr[i].Some? {
      AcceptFlips(p.breaks[i], p.bars[i].close, cfg);
      if cfg.mode == ObRetest {
        BlockFlips(p, cfg, i);
      } else {
        SignalFlips(p, i, s, p.breaks[i].side, p.atr[i].value, None);
      }
    }
  }

  lemma ArmFlips(p: Prepared, cfg: Config, acct: Account, i: nat, s: WalkState)
    requires Ready(p, cfg) && Ready(FlipPrepared(p), cfg) && i < |p.bars|
    ensures Arm(FlipPrepared(p), cfg, acct, i, FlipState(s)) == FlipState(Arm(p, cfg, acct, i, s))
  {
    hide OnBreak, Mitigated, RetestTriggered, SmcWalk.Signal, FlipBars, FlipPrices, WellFormed, LegsInOrder;
    OnBreakFlips(p, cfg, acct, i, s);
    OnBreakFlips(p, cfg, acct, i, s.(block := None));
    if s.block.Some? {
      var ob := s.block.value;
      RetestFlips(ob, i, p.bars[i]);
      SignalFlips(p, i, s.(block := None), ob.side, ob.atr, Some(ob));
    }
  }

  lemma StepFlips(p: Prepared, cfg: Config, acct: Account, i: nat, s: WalkState)
    requires Ready(p, cfg) && Ready(FlipPrepared(p), cfg) && i < |p.bars|
    ensures StepBar(FlipPrepared(p), cfg, acct, i, FlipState(s)) == FlipState(StepBar(p, cfg, acct, i, s))
  {
    hide Fill, Exit, Arm, FlipPrepared;
    FillFlips(p, cfg, acct, i, s);
    ExitBarFlips(p, cfg, acct, i, Fill(p, cfg, acct, i, s));
    var t := Settle(p, cfg, acct, i, s);
    ArmFlips(p, cfg, acct, i, t);
    SameBars(p);
  }

  lemma SameBars(p: Prepared)
    ensures |FlipPrepared(p).bars| == |p.bars|
  {
  }

  /** Every run in the mirror is the run seen in the mirror: the same bars are entered and left, for
      the same reasons and with the same results, every long a short and every short a long. */
  lemma {:induction false} RunFlips(p: Prepared, cfg: Config, acct: Account, k: nat)
    requires Ready(p, cfg) && k <= |p.bars|
    ensures Ready(FlipPrepared(p), cfg) && |FlipPrepared(p).bars| == |p.bars|
    ensures Run(FlipPrepared(p), cfg, acct, k) == FlipState(Run(p, cfg, acct, k))
  {
    hide StepBar, Ready, FlipPrepared;
    ReadyFlips(p, cfg);
    SameBars(p);
    if k > 0 {
      RunFlips(p, cfg, acct, k - 1);
      StepFlips(p, cfg, acct, k - 1, Run(p, cfg, acct, k - 1));
    }
  }

  /** All that preparation computes but the breaks is seen in the mirror on bars seen in the mirror. */
  lemma PrepareFlips(bars: seq<Bar>, usd: seq<pos>, cfg: Config)
    requires |usd| == |bars|
    ensures
      var p, q := FlipPrepared(Prepare(bars, usd, cfg)), Prepare(FlipBars(bars), usd, cfg);
      p.bars == q.bars && p.parsedHighs == q.parsedHighs && p.parsedLows == q.parsedLows && p.usd == q.usd
      && p.atr == q.atr
  {
    hide BreakSchedule, WilderAtr, ParsedHigh, ParsedLow;
    var p, q := FlipPrepared(Prepare(bars, usd, cfg)), Prepare(FlipBars(bars), usd, cfg);
    forall i | 0 <= i < |bars|
      ensures p.parsedHighs[i] == q.parsedHighs[i] && p.parsedLows[i] == q.parsedLows[i] && p.atr[i] == q.atr[i]
    {
      AtrFlips(bars, 200, i);
      AtrFlips(bars, cfg.atrPeriod, i);
      ParsedFlips(bars[i], WilderAtr(bars, 200, i));
    }
  }
}
