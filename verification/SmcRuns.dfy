/** What holds of every run of the SMC walk. */
module SmcRuns {
  import opened Wrappers
  import opened Market
  import opened Brackets
  import opened SmcModel
  import opened SmcWalk

  /** At most one of position, pending entry and order block is live, and every signal is
      accounted for: traded, open, or waiting for the next bar. */
  predicate Accounted(cfg: Config, s: WalkState, k: nat)
  {
    && (s.block.Some? ==> cfg.mode == ObRetest)
    && !(s.position.Some? && s.pending.Some?)
    && !(s.position.Some? && s.block.Some?)
    && !(s.pending.Some? && s.block.Some?)
    && |s.origins| == |s.trades| + (if s.position.Some? then 1 else 0) + (if s.pending.Some? then 1 else 0)
    && (s.pending.Some? ==>
          var o := s.origins[|s.trades|];
          o.bar + 1 == k && o.side == s.pending.value.side && o.atr == s.pending.value.atr)
  }

  /** The trade opened on the bar after its signal and left at the first touch. */
  ghost predicate TradeFollowsSignal(p: Prepared, cfg: Config, acct: Account, o: Origin, t: Trade)
    requires WellFormed(p)
  {
    && t.exitIndex < |p.bars| && t.bracket.risk > 0.0
    && t.bracket.entryIndex == o.bar + 1 < |p.bars|
    && t.bracket == EntryBracket(p, cfg, acct, o.bar + 1, o.side, o.atr)
    && t == CloseTrade(cfg, acct, t.bracket, p.bars[t.exitIndex], t.exitIndex, p.usd[t.exitIndex], t.reason)
    && FirstTouchExit(t, p.bars, cfg.maxHold, acct.costs, acct.pip)
  }

  ghost predicate TradesFollowSignals(p: Prepared, cfg: Config, acct: Account, s: WalkState, k: nat)
    requires WellFormed(p)
  {
    && |s.trades| <= |s.origins|
    && forall j :: 0 <= j < |s.trades| ==>
         s.trades[j].exitIndex < k && TradeFollowsSignal(p, cfg, acct, s.origins[j], s.trades[j])
  }

  /** An open position was filled on the bar after its signal and has not been touched. */
  ghost predicate PositionFollowsSignal(p: Prepared, cfg: Config, acct: Account, s: WalkState, k: nat)
    requires k <= |p.bars| && |s.trades| <= |s.origins|
  {
    s.position.Some? ==>
      var b := s.position.value;
      && |s.trades| < |s.origins|
      && var o := s.origins[|s.trades|];
      && o.bar + 1 == b.entryIndex <= k && o.bar + 1 < |p.bars|
      && b == EntryBracket(p, cfg, acct, o.bar + 1, o.side, o.atr)
      && b.risk >= acct.pip * 5.0
      && k <= b.entryIndex + cfg.maxHold + 1
      && Untouched(b, p.bars, b.entryIndex, k)
  }

  /** Two bars at least lie between an exit and the next entry. */
  ghost predicate WellSpaced(s: WalkState, k: nat)
  {
    && Spaced(s.trades, 2)
    && (s.position.Some? ==> forall t :: t in s.trades ==> t.exitIndex + 2 <= s.position.value.entryIndex)
    && (s.pending.Some? ==> forall t :: t in s.trades ==> t.exitIndex + 2 <= k)
  }

  /** The balance is the starting balance plus what the trades made. */
  predicate LedgerBalances(acct: Account, s: WalkState)
  {
    s.balance == acct.initial + TotalPnl(s.trades)
  }

  /** Whatever is live was armed above the balance floor, and nothing was lost since. */
  predicate Funded(acct: Account, s: WalkState)
  {
    s.position.Some? || s.pending.Some? || s.block.Some? ==> s.balance > acct.initial * 0.05
  }

  ghost predicate Inv(p: Prepared, cfg: Config, acct: Account, s: WalkState, k: nat)
    requires WellFormed(p) && k <= |p.bars|
  {
    && Accounted(cfg, s, k)
    && TradesFollowSignals(p, cfg, acct, s, k)
    && PositionFollowsSignal(p, cfg, acct, s, k)
    && WellSpaced(s, k)
    && LedgerBalances(acct, s)
    && Funded(acct, s)
  }

  /** The runner never uses a stop closer than five pips. */
  lemma StopAtLeastFivePips(p: Prepared, cfg: Config, acct: Account, i: nat, side: Direction, atr: real)
    requires i < |p.bars|
    ensures EntryBracket(p, cfg, acct, i, side, atr).risk == StopDistance(cfg, acct, atr) >= acct.pip * 5.0 > 0.0
  {
  }

  lemma FillKeepsInv(p: Prepared, cfg: Config, acct: Account, i: nat, s: WalkState)
    requires WellFormed(p) && i < |p.bars| && Inv(p, cfg, acct, s, i)
    ensures Inv(p, cfg, acct, Fill(p, cfg, acct, i, s), i) && Fill(p, cfg, acct, i, s).pending.None?
  {
    if s.pending.Some? {
      StopAtLeastFivePips(p, cfg, acct, i, s.pending.value.side, s.pending.value.atr);
    }
  }

  /** A close decided by the exit rule is a first-touch exit. */
  lemma CloseIsFirstTouch(p: Prepared, cfg: Config, acct: Account, b: Bracket, i: nat, reason: Reason)
    requires WellFormed(p) && i < |p.bars| && b.risk > 0.0
    requires b.entryIndex <= i <= b.entryIndex + cfg.maxHold + 1
    requires Untouched(b, p.bars, b.entryIndex, i)
    requires ExitReason(b, p.bars[i], i, cfg.maxHold, true) == Some(reason)
    ensures FirstTouchExit(CloseTrade(cfg, acct, b, p.bars[i], i, p.usd[i], reason), p.bars, cfg.maxHold, acct.costs,
                           acct.pip)
  {
  }

  /** The state after closing the position with trade `t`. */
  function Closed(s: WalkState, t: Trade): WalkState
  {
    s.(balance := s.balance + t.netPnl, trades := s.trades + [t], position := None)
  }

  lemma CloseKeepsInv(p: Prepared, cfg: Config, acct: Account, i: nat, s: WalkState, t: Trade)
    requires WellFormed(p) && i < |p.bars| && Inv(p, cfg, acct, s, i)
    requires s.position.Some? && s.pending.None? && t.bracket == s.position.value && t.exitIndex == i
    requires TradeFollowsSignal(p, cfg, acct, s.origins[|s.trades|], t)
    ensures Inv(p, cfg, acct, Closed(s, t), i + 1)
  {
    TotalPnlSnoc(s.trades, t);
    assert TradesFollowSignals(p, cfg, acct, Closed(s, t), i + 1) by {
      ClosedFollowsSignals(p, cfg, acct, i, s, t);
    }
    assert WellSpaced(Closed(s, t), i + 1) by {
      ClosedIsSpaced(i, s, t);
    }
  }

  lemma ClosedFollowsSignals(p: Prepared, cfg: Config, acct: Account, i: nat, s: WalkState, t: Trade)
    requires WellFormed(p) && |s.trades| < |s.origins| && t.exitIndex == i
    requires TradesFollowSignals(p, cfg, acct, s, i)
    requires TradeFollowsSignal(p, cfg, acct, s.origins[|s.trades|], t)
    ensures TradesFollowSignals(p, cfg, acct, Closed(s, t), i + 1)
  {
  }

  lemma ClosedIsSpaced(i: nat, s: WalkState, t: Trade)
    requires WellSpaced(s, i) && s.position == Some(t.bracket) && s.pending.None?
    ensures WellSpaced(Closed(s, t), i + 1)
  {
    forall j | 0 <= j < |s.trades| ensures s.trades[j].exitIndex + 2 <= t.bracket.entryIndex {
      assert s.trades[j] in s.trades;
    }
  }

  lemma HoldKeepsInv(p: Prepared, cfg: Config, acct: Account, i: nat, s: WalkState)
    requires WellFormed(p) && i < |p.bars| && Inv(p, cfg, acct, s, i) && s.pending.None?
    requires ExitNow(p, cfg, i, s).None?
    ensures Inv(p, cfg, acct, s, i + 1)
  {
  }

  lemma ExitKeepsInv(p: Prepared, cfg: Config, acct: Account, i: nat, s: WalkState)
    requires WellFormed(p) && i < |p.bars| && Inv(p, cfg, acct, s, i) && s.pending.None?
    ensures Inv(p, cfg, acct, Exit(p, cfg, acct, i, s), i + 1)
  {
    match ExitNow(p, cfg, i, s)
    case None =>
      HoldKeepsInv(p, cfg, acct, i, s);
    case Some(reason) =>
      var b := s.position.value;
      var t := CloseTrade(cfg, acct, b, p.bars[i], i, p.usd[i], reason);
      CloseIsFirstTouch(p, cfg, acct, b, i, reason);
      assert Inv(p, cfg, acct, Closed(s, t), i + 1) by {
        CloseKeepsInv(p, cfg, acct, i, s, t);
      }
  }

  /** All that arming can do: leave no entry pending, or signal one for the next bar. */
  ghost predicate ArmedFrom(p: Prepared, cfg: Config, acct: Account, i: nat, s: WalkState, r: WalkState)
  {
    && r.trades == s.trades && r.balance == s.balance && r.position == s.position
    && (r.block.Some? ==> cfg.mode == ObRetest)
    && (r.pending.Some? || r.block.Some? ==> s.balance > acct.initial * 0.05)
    && match r.pending
       case None => r.origins == s.origins
       case Some(e) =>
         && i + 1 < |p.bars| && r.block.None? && |r.origins| == |s.origins| + 1
         && r.origins[..|s.origins|] == s.origins
         && r.origins[|s.origins|].bar == i && r.origins[|s.origins|].side == e.side
         && r.origins[|s.origins|].atr == e.atr
  }

  lemma ArmOutcome(p: Prepared, cfg: Config, acct: Account, i: nat, s: WalkState)
    requires Ready(p, cfg) && i < |p.bars| && Funded(acct, s) && (s.block.Some? ==> cfg.mode == ObRetest)
    requires s.position.None? && s.pending.None?
    ensures ArmedFrom(p, cfg, acct, i, s, Arm(p, cfg, acct, i, s))
  {
  }

  lemma ArmKeepsInv(p: Prepared, cfg: Config, acct: Account, i: nat, s: WalkState)
    requires Ready(p, cfg) && i < |p.bars| && Inv(p, cfg, acct, s, i + 1)
    requires s.position.None? && s.pending.None?
    requires forall t :: t in s.trades ==> t.exitIndex < i
    ensures Inv(p, cfg, acct, Arm(p, cfg, acct, i, s), i + 1)
  {
    ArmOutcome(p, cfg, acct, i, s);
    ArmedKeepsInv(p, cfg, acct, i, s, Arm(p, cfg, acct, i, s));
  }

  lemma ArmedKeepsInv(p: Prepared, cfg: Config, acct: Account, i: nat, s: WalkState, r: WalkState)
    requires WellFormed(p) && i < |p.bars| && Inv(p, cfg, acct, s, i + 1)
    requires s.position.None? && s.pending.None? && ArmedFrom(p, cfg, acct, i, s, r)
    requires forall t :: t in s.trades ==> t.exitIndex < i
    ensures Inv(p, cfg, acct, r, i + 1)
  {
    forall j | 0 <= j < |r.trades| ensures r.origins[j] == s.origins[j] {
      assert r.origins[..|s.origins|][j] == s.origins[j];
    }
  }

  lemma StepKeepsInv(p: Prepared, cfg: Config, acct: Account, i: nat, s: WalkState)
    requires Ready(p, cfg) && i < |p.bars| && Inv(p, cfg, acct, s, i)
    ensures Inv(p, cfg, acct, StepBar(p, cfg, acct, i, s), i + 1)
  {
    FillKeepsInv(p, cfg, acct, i, s);
    ExitKeepsInv(p, cfg, acct, i, Fill(p, cfg, acct, i, s));
    var t := Settle(p, cfg, acct, i, s);
    if Flat(s, t) {
      ArmKeepsInv(p, cfg, acct, i, t);
    }
  }

  lemma StartHasInv(p: Prepared, cfg: Config, acct: Account)
    requires WellFormed(p)
    ensures Inv(p, cfg, acct, Start(acct), 0)
  {
    assert acct.initial * 0.05 < acct.initial;
  }

  lemma {:induction false} RunKeepsInv(p: Prepared, cfg: Config, acct: Account, k: nat)
    requires Ready(p, cfg) && k <= |p.bars|
    ensures Inv(p, cfg, acct, Run(p, cfg, acct, k), k)
  {
    hide Inv, StepBar;
    if k == 0 {
      StartHasInv(p, cfg, acct);
    } else {
      var s := Run(p, cfg, acct, k - 1);
      assert Inv(p, cfg, acct, s, k - 1) by {
        RunKeepsInv(p, cfg, acct, k - 1);
      }
      var r := StepBar(p, cfg, acct, k - 1, s);
      assert Inv(p, cfg, acct, r, k) by {
        StepKeepsInv(p, cfg, acct, k - 1, s);
      }
      assert Run(p, cfg, acct, k) == r;
    }
  }

  lemma InvGivesTrade(p: Prepared, cfg: Config, acct: Account, s: WalkState, k: nat, j: nat)
    requires WellFormed(p) && k <= |p.bars| && j < |s.trades| && Inv(p, cfg, acct, s, k)
    ensures j < |s.origins| && s.trades[j].exitIndex < k
    ensures TradeFollowsSignal(p, cfg, acct, s.origins[j], s.trades[j])
    ensures OpenFill(s.trades[j].bracket, p.bars, acct.costs, acct.pip)
  {
  }

  /** Every recorded trade was filled at the open of the bar after its signal and left at the
      first bar of its holding window that touched stop or target, the stop winning, or else
      at the open of the bar after the window. */
  lemma {:induction false} TradesLeaveAtFirstTouch(p: Prepared, cfg: Config, acct: Account, k: nat, j: nat)
    requires Ready(p, cfg) && k <= |p.bars| && j < |Run(p, cfg, acct, k).trades|
    ensures
      var s := Run(p, cfg, acct, k);
      && j < |s.origins|
      && s.trades[j].exitIndex < k
      && OpenFill(s.trades[j].bracket, p.bars, acct.costs, acct.pip)
      && TradeFollowsSignal(p, cfg, acct, s.origins[j], s.trades[j])
  {
    RunKeepsInv(p, cfg, acct, k);
    InvGivesTrade(p, cfg, acct, Run(p, cfg, acct, k), k, j);
  }

  /** Positions never overlap: after an exit the next entry is at least two bars later. */
  lemma PositionsNeverOverlap(p: Prepared, cfg: Config, acct: Account, k: nat)
    requires Ready(p, cfg) && k <= |p.bars|
    ensures Spaced(Run(p, cfg, acct, k).trades, 2)
  {
    RunKeepsInv(p, cfg, acct, k);
  }

  /** The balance reported at the end is the start plus the net result of every trade. */
  lemma {:induction false} BalanceIsStartPlusPnl(p: Prepared, cfg: Config, acct: Account, k: nat)
    requires Ready(p, cfg) && k <= |p.bars|
    ensures Run(p, cfg, acct, k).balance == acct.initial + TotalPnl(Run(p, cfg, acct, k).trades)
  {
    RunKeepsInv(p, cfg, acct, k);
  }

  /** A pending entry never survives a bar: it is filled at the next open. */
  lemma PendingFillsOnNextBar(p: Prepared, cfg: Config, acct: Account, k: nat)
    requires Ready(p, cfg) && k < |p.bars| && Run(p, cfg, acct, k).pending.Some?
    ensures
      var s := Run(p, cfg, acct, k);
      var b := EntryBracket(p, cfg, acct, k, s.pending.value.side, s.pending.value.atr);
      var r := Run(p, cfg, acct, k + 1);
      r.position == Some(b) || (|r.trades| == |s.trades| + 1 && r.trades[|s.trades|].bracket == b)
  {
    RunKeepsInv(p, cfg, acct, k);
    var s := Run(p, cfg, acct, k);
    FillKeepsInv(p, cfg, acct, k, s);
    assert Run(p, cfg, acct, k + 1) == StepBar(p, cfg, acct, k, s);
  }
}
