/** The bar walk of the SMC runner (scripts/run_smc_backtest.py): pending fill, bracket exit,
    order-block retest and break handling. */
module SmcWalk {
  import opened Wrappers
  import opened Market
  import opened Brackets
  import opened SmcModel

  /** An entry signalled on the close of the last bar, to be filled at the next open. */
  datatype Pending = Pending(side: Direction, atr: real)

  /** Why an entry was signalled: the bar, and the order block when one was retested. */
  datatype Origin = Origin(bar: nat, side: Direction, atr: real, block: Option<OrderBlock>)

  /** The variables of the loop. `origins` is bookkeeping: one entry per signal so far. */
  datatype WalkState = WalkState(
    balance: real, position: Option<Bracket>, pending: Option<Pending>, block: Option<OrderBlock>,
    trades: seq<Trade>, origins: seq<Origin>)

  function Start(acct: Account): WalkState
  {
    WalkState(acct.initial, None, None, None, [], [])
  }

  /** The inputs of one run, checked once. */
  ghost predicate Ready(p: Prepared, cfg: Config)
  {
    WellFormed(p) && (cfg.mode == ObRetest ==> LegsInOrder(p))
  }

  /** The position opened at the open of bar `i`. */
  function EntryBracket(p: Prepared, cfg: Config, acct: Account, i: nat, side: Direction, atr: real): Bracket
    requires i < |p.bars|
  {
    OpenBracket(side, i, p.bars[i], StopDistance(cfg, acct, atr), atr * cfg.tpAtr, acct.costs, acct.pip)
  }

  function Fill(p: Prepared, cfg: Config, acct: Account, i: nat, s: WalkState): WalkState
    requires i < |p.bars|
  {
    if s.pending.Some? && s.position.None? then
      var e := s.pending.value;
      s.(position := Some(EntryBracket(p, cfg, acct, i, e.side, e.atr)), pending := None)
    else s
  }

  function ExitNow(p: Prepared, cfg: Config, i: nat, s: WalkState): Option<Reason>
    requires i < |p.bars|
  {
    if s.position.Some? && s.position.value.risk > 0.0
    then ExitReason(s.position.value, p.bars[i], i, cfg.maxHold, true)
    else None
  }

  function Exit(p: Prepared, cfg: Config, acct: Account, i: nat, s: WalkState): WalkState
    requires WellFormed(p) && i < |p.bars|
  {
    match ExitNow(p, cfg, i, s)
    case None => s
    case Some(reason) =>
      var t := CloseTrade(cfg, acct, s.position.value, p.bars[i], i, p.usd[i], reason);
      s.(balance := s.balance + t.netPnl, trades := s.trades + [t], position := None)
  }

  /** A signal is taken only if there is a next bar to fill it on. */
  function Signal(p: Prepared, i: nat, s: WalkState, side: Direction, atr: real, block: Option<OrderBlock>): WalkState
  {
    if i + 1 < |p.bars|
    then s.(pending := Some(Pending(side, atr)), origins := s.origins + [Origin(i, side, atr, block)])
    else s
  }

  /** Break handling: filters, then an entry or a fresh order block. */
  function OnBreak(p: Prepared, cfg: Config, acct: Account, i: nat, s: WalkState): WalkState
    requires Ready(p, cfg) && i < |p.bars|
  {
    if i !in p.breaks || p.atr[i].None? || p.atr[i].value <= 0.0
       || s.balance <= acct.initial * 0.05 || !AcceptBreak(p.breaks[i], p.bars[i].close, cfg) then s
    else if cfg.mode == ObRetest then s.(block := Some(BlockAt(p, cfg, i)))
    else Signal(p, i, s, p.breaks[i].side, p.atr[i].value, None)
  }

  /** The order block that the break of bar `i` arms. */
  function BlockAt(p: Prepared, cfg: Config, i: nat): OrderBlock
    requires Ready(p, cfg) && cfg.mode == ObRetest && i < |p.bars| && i in p.breaks && p.atr[i].Some?
  {
    var levels := ComputeOrderBlock(p.breaks[i], p.parsedHighs, p.parsedLows);
    OrderBlock(p.breaks[i].side, levels.0, levels.1, i, i + cfg.obRetestBars, p.atr[i].value)
  }

  /** What a flat bar does: an armed block is mitigated, retested or expires; unless it was
      retested, a break on this bar is then looked at. */
  function Arm(p: Prepared, cfg: Config, acct: Account, i: nat, s: WalkState): WalkState
    requires Ready(p, cfg) && i < |p.bars|
  {
    if s.block.None? then OnBreak(p, cfg, acct, i, s)
    else
      var ob := s.block.value;
      if Mitigated(ob, p.bars[i]) then OnBreak(p, cfg, acct, i, s.(block := None))
      else if RetestTriggered(ob, i, p.bars[i]) then Signal(p, i, s.(block := None), ob.side, ob.atr, Some(ob))
      else if i > ob.expiryBar then OnBreak(p, cfg, acct, i, s.(block := None))
      else OnBreak(p, cfg, acct, i, s)
  }

  /** The fill and exit half of a bar. */
  function Settle(p: Prepared, cfg: Config, acct: Account, i: nat, s: WalkState): WalkState
    requires WellFormed(p) && i < |p.bars|
  {
    Exit(p, cfg, acct, i, Fill(p, cfg, acct, i, s))
  }

  /** Nothing is armed while a position or an entry is live, nor on the bar of an exit. */
  predicate Flat(before: WalkState, settled: WalkState)
  {
    settled.position.None? && settled.pending.None? && |settled.trades| == |before.trades|
  }

  function StepBar(p: Prepared, cfg: Config, acct: Account, i: nat, s: WalkState): WalkState
    requires Ready(p, cfg) && i < |p.bars|
  {
    var t := Settle(p, cfg, acct, i, s);
    if Flat(s, t) then Arm(p, cfg, acct, i, t) else t
  }

  /** The state after the first `k` bars. */
  function Run(p: Prepared, cfg: Config, acct: Account, k: nat): WalkState
    requires Ready(p, cfg) && k <= |p.bars|
  {
    if k == 0 then Start(acct) else StepBar(p, cfg, acct, k - 1, Run(p, cfg, acct, k - 1))
  }

  /** The mutable walk. */
  class Walk {
    const p: Prepared
    const cfg: Config
    const acct: Account
    var balance: real
    var position: Option<Bracket>
    var pending: Option<Pending>
    var block: Option<OrderBlock>
    var trades: seq<Trade>
    ghost var origins: seq<Origin>

    ghost function State(): WalkState
      reads this
    {
      WalkState(balance, position, pending, block, trades, origins)
    }

    constructor (p: Prepared, cfg: Config, acct: Account)
      ensures State() == Start(acct)
      ensures this.p == p && this.cfg == cfg && this.acct == acct
    {
      this.p, this.cfg, this.acct := p, cfg, acct;
      balance := acct.initial;
      position, pending, block := None, None, None;
      trades, origins := [], [];
    }

    method FillPending(i: nat)
      requires i < |p.bars|
      modifies this
      ensures State() == Fill(p, cfg, acct, i, old(State()))
    {
      if pending.Some? && position.None? {
        var e := pending.value;
        position := Some(EntryBracket(p, cfg, acct, i, e.side, e.atr));
        pending := None;
      }
    }

    method ExitPosition(i: nat) returns (exited: bool)
      requires WellFormed(p) && i < |p.bars|
      modifies this
      ensures State() == Exit(p, cfg, acct, i, old(State()))
      ensures exited <==> |trades| != |old(trades)|
    {
      exited := false;
      if position.Some? {
        var b, bar := position.value, p.bars[i];
        var reason: Option<Reason> := None;
        if i - b.entryIndex > cfg.maxHold {
          reason := Some(Time);
        } else if b.side == Long {
          if bar.low <= b.stop {
            reason := Some(Stop);
          } else if bar.high >= b.target {
            reason := Some(Target);
          }
        } else {
          if bar.high >= b.stop {
            reason := Some(Stop);
          } else if bar.low <= b.target {
            reason := Some(Target);
          }
        }
        if reason.Some? && b.risk > 0.0 {
          var t := CloseTrade(cfg, acct, b, bar, i, p.usd[i], reason.value);
          balance := balance + t.netPnl;
          trades := trades + [t];
          position := None;
          exited := true;
        }
      }
    }

    method HandleBreak(i: nat)
      requires Ready(p, cfg) && i < |p.bars|
      modifies this
      ensures State() == OnBreak(p, cfg, acct, i, old(State()))
    {
      if i !in p.breaks {
        return;
      }
      var event := p.breaks[i];
      if p.atr[i].None? || p.atr[i].value <= 0.0 || balance <= acct.initial * 0.05
         || !AcceptBreak(event, p.bars[i].close, cfg) {
        return;
      }
      if cfg.mode == ObRetest {
        var levels := ComputeOrderBlock(event, p.parsedHighs, p.parsedLows);
        block := Some(OrderBlock(event.side, levels.0, levels.1, i, i + cfg.obRetestBars, p.atr[i].value));
        return;
      }
      if i + 1 < |p.bars| {
        pending := Some(Pending(event.side, p.atr[i].value));
        origins := origins + [Origin(i, event.side, p.atr[i].value, None)];
      }
    }

    method ArmOnFlatBar(i: nat)
      requires Ready(p, cfg) && i < |p.bars|
      modifies this
      ensures State() == Arm(p, cfg, acct, i, old(State()))
    {
      if block.Some? {
        var ob := block.value;
        if Mitigated(ob, p.bars[i]) {
          block := None;
        } else if RetestTriggered(ob, i, p.bars[i]) {
          block := None;
          if i + 1 < |p.bars| {
            pending := Some(Pending(ob.side, ob.atr));
            origins := origins + [Origin(i, ob.side, ob.atr, Some(ob))];
          }
          return;
        } else if i > ob.expiryBar {
          block := None;
        }
      }
      HandleBreak(i);
    }

    method Step(i: nat)
      requires Ready(p, cfg) && i < |p.bars|
      modifies this
      ensures State() == StepBar(p, cfg, acct, i, old(State()))
    {
      FillPending(i);
      var exited := ExitPosition(i);
      if position.Some? || pending.Some? || exited {
        return;
      }
      ArmOnFlatBar(i);
    }
  }

  /** `run_prepared_backtest`. Reading the first timestamp of an empty series raises. */
  method RunPreparedBacktest(p: Prepared, cfg: Config, acct: Account) returns (r: Result<(seq<Trade>, real)>)
    requires Ready(p, cfg)
    ensures |p.bars| == 0 ==> r == Err(IndexError)
    ensures |p.bars| > 0 ==>
      var s := Run(p, cfg, acct, |p.bars|);
      r == Ok((s.trades, s.balance))
  {
    if |p.bars| == 0 {
      return Err(IndexError);
    }
    var walk := new Walk(p, cfg, acct);
    for i := 0 to |p.bars|
      invariant walk.p == p && walk.cfg == cfg && walk.acct == acct
      invariant walk.State() == Run(p, cfg, acct, i)
    {
      walk.Step(i);
    }
    r := Ok((walk.trades, walk.balance));
  }
}
