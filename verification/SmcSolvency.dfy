/** How much a trade of the SMC walk can lose, and how low the balance can fall. */
module SmcSolvency {
  import opened Wrappers
  import opened Reals
  import opened Market
  import opened Costs
  import opened Brackets
  import opened SmcModel
  import opened SmcWalk
  import opened SmcRuns
  import opened SmcSignals

  function Slip(acct: Account): real
  {
    acct.costs.slippagePips * acct.pip
  }

  /** What a stop-out costs a position with this stop distance. */
  function StopOutLoss(acct: Account, risk: pos): real
  {
    RiskCash(acct) * (1.0 + Slip(acct) / risk) + RoundTripCommission(acct.costs)
  }

  /** The same bound without the stop distance, which is at least five pips. */
  function LossBound(acct: Account): real
  {
    RiskCash(acct) * (1.0 + acct.costs.slippagePips / 5.0) + RoundTripCommission(acct.costs)
  }

  /** The lowest balance the bound allows, starting from the trading floor. */
  function BalanceFloor(acct: Account): real
  {
    (0.05 - acct.riskFraction * (1.0 + acct.costs.slippagePips / 5.0)) * acct.initial
      - RoundTripCommission(acct.costs)
  }

  /** Sizing cancels the conversion rate: the cash result is the move in units of risk. */
  lemma NetCashInRisk(acct: Account, risk: pos, usd: pos, move: real)
    ensures NetCash(acct, risk, usd, move) == RiskCash(acct) * move / risk - RoundTripCommission(acct.costs)
  {
    ProductPositive(risk, usd);
    var q, rc := Quantity(acct, risk, usd), RiskCash(acct);
    var d := risk * usd;
    assert q * d == rc;
    assert (q * move * usd) * risk == q * d * move;
    DivideBack(q * move * usd, rc * move, risk);
  }

  /** A trade loses no more than a stop-out exactly when its net move is at least minus the
      stop distance and one slippage. */
  lemma LossAgainstMove(acct: Account, risk: pos, usd: pos, move: real)
    ensures NetCash(acct, risk, usd, move) >= -StopOutLoss(acct, risk) <==> move >= -(risk + Slip(acct))
    ensures move == -(risk + Slip(acct)) ==> NetCash(acct, risk, usd, move) == -StopOutLoss(acct, risk)
  {
    NetCashInRisk(acct, risk, usd, move);
    var rc, slip := RiskCash(acct), Slip(acct);
    ProductPositive(acct.initial, acct.riskFraction);
    assert rc * move / risk == rc * (move / risk);
    assert rc * (1.0 + slip / risk) == rc * ((risk + slip) / risk) by {
      assert (1.0 + slip / risk) * risk == risk + slip;
      DivideBack(1.0 + slip / risk, risk + slip, risk);
    }
    assert rc * -((risk + slip) / risk) == -(rc * ((risk + slip) / risk));
    ScaleByPositive(rc, move / risk, -((risk + slip) / risk));
    assert -((risk + slip) / risk) == -(risk + slip) / risk;
    ScaleByPositive(risk, move / risk, -(risk + slip) / risk);
    assert risk * (move / risk) == move;
    assert risk * (-(risk + slip) / risk) == -(risk + slip);
  }

  /** A time exit that opens on the safe side of the stop. */
  predicate OpensBeforeStop(p: Prepared, t: Trade)
    requires t.exitIndex < |p.bars|
  {
    if t.bracket.side == Long then p.bars[t.exitIndex].open >= t.bracket.stop
    else p.bars[t.exitIndex].open <= t.bracket.stop
  }

  /** The stop lies one stop distance against the trade, and the target not against it. */
  lemma StopAndTarget(p: Prepared, cfg: Config, acct: Account, i: nat, side: Direction, atr: real)
    requires i < |p.bars| && atr > 0.0
    ensures
      var b := EntryBracket(p, cfg, acct, i, side, atr);
      && b.side == side && b.risk > 0.0
      && Move(side, b.entryPrice, b.stop) == -b.risk
      && Move(side, b.entryPrice, b.target) > 0.0
  {
    StopAtLeastFivePips(p, cfg, acct, i, side, atr);
    ProductPositive(atr, cfg.tpAtr);
  }

  /** An exit fill is one slippage worse than the price it is filled from. */
  lemma ExitFillMove(acct: Account, side: Direction, entry: real, mid: real)
    ensures Move(side, entry, ExitFill(acct.costs, mid, side, acct.pip)) == Move(side, entry, mid) - Slip(acct)
  {
  }

  /** The net move of a trade, measured against its stop distance. */
  lemma MoveAgainstStop(p: Prepared, cfg: Config, acct: Account, o: Origin, t: Trade)
    requires Ready(p, cfg) && TradeFollowsSignal(p, cfg, acct, o, t) && o.atr > 0.0
    ensures
      var m := Move(t.bracket.side, t.bracket.entryPrice, t.exitPrice);
      && (t.reason == Stop ==> m == -(t.bracket.risk + Slip(acct)))
      && (t.reason == Target ==> m >= -Slip(acct))
      && (t.reason == Time ==> (m >= -(t.bracket.risk + Slip(acct)) <==> OpensBeforeStop(p, t)))
  {
    StopAndTarget(p, cfg, acct, o.bar + 1, o.side, o.atr);
    ExitFillMove(acct, o.side, t.bracket.entryPrice, ExitMid(t.bracket, p.bars[t.exitIndex], t.reason));
  }

  /** A stop-out loses exactly `StopOutLoss`, a target exit never more, and a time exit more
      exactly when the price has gapped through the stop. */
  lemma TradeLoss(p: Prepared, cfg: Config, acct: Account, o: Origin, t: Trade)
    requires Ready(p, cfg) && TradeFollowsSignal(p, cfg, acct, o, t) && SignalIsGenuine(p, cfg, o)
    ensures t.reason == Stop ==> t.netPnl == -StopOutLoss(acct, t.bracket.risk)
    ensures t.netPnl >= -StopOutLoss(acct, t.bracket.risk) <==> (t.reason == Time ==> OpensBeforeStop(p, t))
  {
    MoveAgainstStop(p, cfg, acct, o, t);
    LossAgainstMove(acct, t.bracket.risk, p.usd[t.exitIndex], Move(t.bracket.side, t.bracket.entryPrice, t.exitPrice));
  }

  function NetMove(t: Trade): real
  {
    Move(t.bracket.side, t.bracket.entryPrice, t.exitPrice)
  }

  /** What a net move is worth: risked cash per stop distance, less commission. */
  function CashOf(acct: Account, risk: pos, move: real): real
  {
    RiskCash(acct) * move / risk - RoundTripCommission(acct.costs)
  }

  lemma ResultOfMove(p: Prepared, cfg: Config, acct: Account, o: Origin, t: Trade)
    requires WellFormed(p) && TradeFollowsSignal(p, cfg, acct, o, t)
    ensures t.netPnl == CashOf(acct, t.bracket.risk, NetMove(t))
  {
    hide FirstTouchExit, EntryBracket;
    NetCashInRisk(acct, t.bracket.risk, p.usd[t.exitIndex], NetMove(t));
  }

  lemma MoveOfTrade(p: Prepared, cfg: Config, acct: Account, o: Origin, t: Trade)
    requires WellFormed(p) && TradeFollowsSignal(p, cfg, acct, o, t)
    ensures NetMove(t) == Move(t.bracket.side, t.bracket.entryMid, ExitMid(t.bracket, p.bars[t.exitIndex], t.reason))
                          - (acct.costs.spreadPips + 2.0 * acct.costs.slippagePips) * acct.pip
    ensures t.reason == Target ==> NetMove(t) == o.atr * cfg.tpAtr - Slip(acct)
  {
    hide FirstTouchExit, NetCash, StopDistance;
    var mid := ExitMid(t.bracket, p.bars[t.exitIndex], t.reason);
    RoundTripCost(acct.costs, t.bracket.side, t.bracket.entryMid, mid, acct.pip);
    ExitFillMove(acct, t.bracket.side, t.bracket.entryPrice, mid);
  }

  /** Every trade earns its move from mid to mid, less the spread and two slippages, counted in
      stop distances and worth the risked cash each, less commission: the conversion rate cancels.
      A target exit earns the target distance less one slippage in the same units. */
  lemma TradeResult(p: Prepared, cfg: Config, acct: Account, o: Origin, t: Trade)
    requires Ready(p, cfg) && TradeFollowsSignal(p, cfg, acct, o, t)
    ensures
      var mid := ExitMid(t.bracket, p.bars[t.exitIndex], t.reason);
      var costs := (acct.costs.spreadPips + 2.0 * acct.costs.slippagePips) * acct.pip;
      t.netPnl == CashOf(acct, t.bracket.risk, Move(t.bracket.side, t.bracket.entryMid, mid) - costs)
    ensures t.reason == Target ==> t.netPnl == CashOf(acct, t.bracket.risk, o.atr * cfg.tpAtr - Slip(acct))
  {
    hide TradeFollowsSignal, CashOf, Slip, NetMove, ExitMid;
    ResultOfMove(p, cfg, acct, o, t);
    MoveOfTrade(p, cfg, acct, o, t);
  }

  /** The five-pip minimum stop caps the slippage share of a loss. */
  lemma StopOutLossIsBounded(acct: Account, risk: pos)
    requires ValidBook(acct.costs) && risk >= acct.pip * 5.0
    ensures StopOutLoss(acct, risk) <= LossBound(acct)
  {
    var s := acct.costs.slippagePips;
    assert Slip(acct) / risk <= s / 5.0 by {
      assert s / 5.0 * risk >= s / 5.0 * (acct.pip * 5.0) == Slip(acct);
      DivideBelow(Slip(acct), s / 5.0, risk);
    }
    ProductPositive(acct.initial, acct.riskFraction);
    ScaleByPositive(RiskCash(acct), 1.0 + s / 5.0, 1.0 + Slip(acct) / risk);
  }

  /** No time exit of the run has gapped through its stop. */
  ghost predicate NoGaps(p: Prepared, trades: seq<Trade>)
  {
    forall t :: t in trades ==> t.exitIndex < |p.bars| && (t.reason == Time ==> OpensBeforeStop(p, t))
  }

  /** One bar adds at most one trade, and never takes one away. */
  predicate Extends(s: WalkState, r: WalkState)
  {
    && s.trades <= r.trades && |r.trades| <= |s.trades| + 1
    && r.balance == s.balance + (if |r.trades| > |s.trades| then r.trades[|s.trades|].netPnl else 0.0)
  }

  lemma StepExtends(p: Prepared, cfg: Config, acct: Account, i: nat, s: WalkState)
    requires Ready(p, cfg) && i < |p.bars|
    ensures
      var r := StepBar(p, cfg, acct, i, s);
      && Extends(s, r)
      && (|r.trades| > |s.trades| ==> s.position.Some? || s.pending.Some?)
  {
  }

  lemma RunExtends(p: Prepared, cfg: Config, acct: Account, k: nat)
    requires Ready(p, cfg) && 0 < k <= |p.bars|
    ensures
      var s, r := Run(p, cfg, acct, k - 1), Run(p, cfg, acct, k);
      Extends(s, r) && (|r.trades| > |s.trades| ==> s.balance > acct.initial * 0.05)
  {
    hide StepBar, Extends, Ready;
    var s := Run(p, cfg, acct, k - 1);
    assert Funded(acct, s) by {
      RunKeepsInv(p, cfg, acct, k - 1);
    }
    var r := StepBar(p, cfg, acct, k - 1, s);
    assert Extends(s, r) && (|r.trades| > |s.trades| ==> s.position.Some? || s.pending.Some?) by {
      StepExtends(p, cfg, acct, k - 1, s);
    }
    assert Run(p, cfg, acct, k) == r;
  }

  lemma TradeWithinBound(p: Prepared, cfg: Config, acct: Account, k: nat, j: nat)
    requires Ready(p, cfg) && k <= |p.bars| && ValidBook(acct.costs)
    requires j < |Run(p, cfg, acct, k).trades|
    requires NoGaps(p, Run(p, cfg, acct, k).trades)
    ensures Run(p, cfg, acct, k).trades[j].netPnl >= -LossBound(acct)
  {
    var s := Run(p, cfg, acct, k);
    var t := s.trades[j];
    TradesLeaveAtFirstTouch(p, cfg, acct, k, j);
    SignalsAreGenuine(p, cfg, acct, k);
    var o := s.origins[j];
    assert o in s.origins && t in s.trades;
    TradeLoss(p, cfg, acct, o, t);
    StopAtLeastFivePips(p, cfg, acct, o.bar + 1, o.side, o.atr);
    StopOutLossIsBounded(acct, t.bracket.risk);
  }

  lemma FloorArithmetic(acct: Account, balance: real, pnl: real)
    requires balance > acct.initial * 0.05 && pnl >= -LossBound(acct)
    ensures balance + pnl >= BalanceFloor(acct)
  {
    FloorIsOneLossBelow(acct);
  }

  lemma FloorIsOneLossBelow(acct: Account)
    ensures BalanceFloor(acct) == acct.initial * 0.05 - LossBound(acct)
  {
    var x := 1.0 + acct.costs.slippagePips / 5.0;
    assert (0.05 - acct.riskFraction * x) * acct.initial == acct.initial * 0.05 - RiskCash(acct) * x;
  }

  lemma FloorIsBelowStart(acct: Account)
    requires ValidBook(acct.costs)
    ensures BalanceFloor(acct) <= acct.initial
  {
    var x := 1.0 + acct.costs.slippagePips / 5.0;
    ProductPositive(acct.initial, acct.riskFraction);
    ProductPositive(RiskCash(acct), x);
    assert (0.05 - acct.riskFraction * x) * acct.initial == acct.initial * 0.05 - RiskCash(acct) * x;
  }

  lemma EarlierTradesNoGaps(p: Prepared, earlier: seq<Trade>, trades: seq<Trade>)
    requires earlier <= trades && NoGaps(p, trades)
    ensures NoGaps(p, earlier)
  {
    hide OpensBeforeStop;
    forall t | t in earlier ensures t in trades {
    }
  }

  /** Over a whole run without gaps through a stop the balance never falls below the floor. */
  lemma {:induction false} BalanceStaysAboveFloor(p: Prepared, cfg: Config, acct: Account, k: nat)
    requires Ready(p, cfg) && k <= |p.bars| && ValidBook(acct.costs)
    requires NoGaps(p, Run(p, cfg, acct, k).trades)
    ensures Run(p, cfg, acct, k).balance >= BalanceFloor(acct)
  {
    hide StepBar, NoGaps, BalanceFloor, LossBound;
    if k == 0 {
      FloorIsBelowStart(acct);
    } else {
      var s, r := Run(p, cfg, acct, k - 1), Run(p, cfg, acct, k);
      RunExtends(p, cfg, acct, k);
      EarlierTradesNoGaps(p, s.trades, r.trades);
      BalanceStaysAboveFloor(p, cfg, acct, k - 1);
      if |r.trades| > |s.trades| {
        TradeWithinBound(p, cfg, acct, k, |s.trades|);
        FloorArithmetic(acct, s.balance, r.trades[|s.trades|].netPnl);
      }
    }
  }

  /** While a position, a pending entry or an order block is live, the balance is above five
      percent of the start. */
  lemma LiveMeansFunded(p: Prepared, cfg: Config, acct: Account, k: nat)
    requires Ready(p, cfg) && k <= |p.bars|
    ensures Funded(acct, Run(p, cfg, acct, k))
  {
    RunKeepsInv(p, cfg, acct, k);
  }

  /** From the third on every bar opens inside the range of the bar before it. */
  ghost predicate OpensInPreviousRange(bars: seq<Bar>)
  {
    forall j :: 2 <= j < |bars| ==> bars[j - 1].low <= bars[j].open <= bars[j - 1].high
  }

  /** A condition on the bars alone that rules out gaps through a stop, for every configuration,
      account and number of bars: the bar before a time exit has not touched the stop. */
  lemma NoGapsInContinuousBars(p: Prepared, cfg: Config, acct: Account, k: nat)
    requires Ready(p, cfg) && k <= |p.bars| && OpensInPreviousRange(p.bars)
    ensures NoGaps(p, Run(p, cfg, acct, k).trades)
  {
    hide Run;
    var trades := Run(p, cfg, acct, k).trades;
    forall t | t in trades
      ensures t.exitIndex < |p.bars| && (t.reason == Time ==> OpensBeforeStop(p, t))
    {
      var j :| 0 <= j < |trades| && trades[j] == t;
      TradesLeaveAtFirstTouch(p, cfg, acct, k, j);
      TimeExitIsInside(p, cfg, acct, t);
    }
  }

  lemma TimeExitIsInside(p: Prepared, cfg: Config, acct: Account, t: Trade)
    requires OpensInPreviousRange(p.bars) && FirstTouchExit(t, p.bars, cfg.maxHold, acct.costs, acct.pip)
    requires t.bracket.entryIndex > 0
    ensures t.reason == Time ==> OpensBeforeStop(p, t)
  {
    if t.reason == Time {
      var before := t.exitIndex - 1;
      assert !Touches(t.bracket, p.bars[before]);
    }
  }

  /** On bars that open inside the range of the bar before, no run falls below the floor. */
  lemma ContinuousBarsKeepFloor(p: Prepared, cfg: Config, acct: Account, k: nat)
    requires Ready(p, cfg) && k <= |p.bars| && ValidBook(acct.costs) && OpensInPreviousRange(p.bars)
    ensures Run(p, cfg, acct, k).balance >= BalanceFloor(acct)
  {
    hide Run, NoGaps;
    NoGapsInContinuousBars(p, cfg, acct, k);
    BalanceStaysAboveFloor(p, cfg, acct, k);
  }
}
