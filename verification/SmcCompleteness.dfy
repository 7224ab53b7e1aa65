/** No entry of the SMC walk is missed. */
module SmcCompleteness {
  import opened Wrappers
  import opened Market
  import opened SmcModel
  import opened SmcWalk
  import opened SmcRuns
  import opened SmcSignals

  /** After its fill and exit the walk holds nothing on bar `i` and has closed nothing on it. */
  predicate FlatOn(p: Prepared, cfg: Config, acct: Account, i: nat)
    requires Ready(p, cfg) && i < |p.bars|
  {
    var s := Run(p, cfg, acct, i);
    Flat(s, Settle(p, cfg, acct, i, s))
  }

  predicate HasFunds(p: Prepared, cfg: Config, acct: Account, i: nat)
    requires Ready(p, cfg) && i <= |p.bars|
  {
    Run(p, cfg, acct, i).balance > acct.initial * 0.05
  }

  lemma FlatSettle(p: Prepared, cfg: Config, acct: Account, i: nat, s: WalkState)
    requires WellFormed(p) && i < |p.bars| && Flat(s, Settle(p, cfg, acct, i, s))
    ensures Settle(p, cfg, acct, i, s) == s
  {
  }

  lemma BreakOutcome(p: Prepared, cfg: Config, acct: Account, i: nat, s: WalkState)
    requires Ready(p, cfg) && i < |p.bars| && s.position.None? && s.pending.None?
    ensures
      var r, taken := OnBreak(p, cfg, acct, i, s), AcceptedAt(p, cfg, i) && s.balance > acct.initial * 0.05;
      && (cfg.mode == ObRetest ==> r == if taken then s.(block := Some(BlockAt(p, cfg, i))) else s)
      && (cfg.mode != ObRetest ==>
            r.pending == if taken && i + 1 < |p.bars| then Some(Pending(p.breaks[i].side, p.atr[i].value)) else None)
  {
  }

  /** Without order blocks an entry is pending after bar `i` exactly when the walk was flat on it,
      had funds, the bar has an accepted break, and there is a next bar; and then it is that break's. */
  lemma BreaksAreTakenExactly(p: Prepared, cfg: Config, acct: Account, i: nat)
    requires Ready(p, cfg) && i < |p.bars| && cfg.mode != ObRetest
    ensures
      var taken := FlatOn(p, cfg, acct, i) && HasFunds(p, cfg, acct, i) && AcceptedAt(p, cfg, i) && i + 1 < |p.bars|;
      Run(p, cfg, acct, i + 1).pending ==
      if taken then Some(Pending(p.breaks[i].side, p.atr[i].value)) else None
  {
    hide OnBreak, AcceptedAt, WellSpaced, TradesFollowSignals, PositionFollowsSignal, Settle;
    var s := Run(p, cfg, acct, i);
    RunKeepsInv(p, cfg, acct, i);
    assert s.block.None?;
    assert Run(p, cfg, acct, i + 1) == StepBar(p, cfg, acct, i, s);
    if FlatOn(p, cfg, acct, i) {
      FlatSettle(p, cfg, acct, i, s);
      BreakOutcome(p, cfg, acct, i, s);
    } else {
      SettledHasNoPending(p, cfg, acct, i, s);
    }
  }

  lemma SettledHasNoPending(p: Prepared, cfg: Config, acct: Account, i: nat, s: WalkState)
    requires WellFormed(p) && i < |p.bars| && Accounted(cfg, s, i)
    ensures Settle(p, cfg, acct, i, s).pending.None?
  {
  }

  /** The bar retests the block the walk has armed. */
  predicate Retests(s: WalkState, i: nat, bar: Bar)
  {
    s.block.Some? && !Mitigated(s.block.value, bar) && RetestTriggered(s.block.value, i, bar)
  }

  /** With order blocks an accepted break on a flat, funded bar arms its block, unless the bar
      retests the block armed before. */
  lemma BreakArmsBlock(p: Prepared, cfg: Config, acct: Account, i: nat)
    requires Ready(p, cfg) && i < |p.bars| && cfg.mode == ObRetest
    ensures
      FlatOn(p, cfg, acct, i) && HasFunds(p, cfg, acct, i) && AcceptedAt(p, cfg, i)
      && !Retests(Run(p, cfg, acct, i), i, p.bars[i]) ==>
        Run(p, cfg, acct, i + 1).block == Some(BlockAt(p, cfg, i))
  {
    hide OnBreak, AcceptedAt, Settle, BlockAt, Mitigated, RetestTriggered;
    var s := Run(p, cfg, acct, i);
    assert Run(p, cfg, acct, i + 1) == StepBar(p, cfg, acct, i, s);
    if FlatOn(p, cfg, acct, i) {
      FlatSettle(p, cfg, acct, i, s);
      BreakOutcome(p, cfg, acct, i, s);
      BreakOutcome(p, cfg, acct, i, s.(block := None));
    }
  }

  /** An armed block keeps the walk flat. */
  lemma ArmedIsFlat(p: Prepared, cfg: Config, acct: Account, i: nat)
    requires Ready(p, cfg) && i < |p.bars|
    ensures Run(p, cfg, acct, i).block.Some? ==> FlatOn(p, cfg, acct, i) && HasFunds(p, cfg, acct, i)
  {
    hide WellSpaced, TradesFollowSignals, PositionFollowsSignal;
    RunKeepsInv(p, cfg, acct, i);
  }

  /** A bar on which the armed block is neither mitigated, retested, expired nor replaced. */
  ghost predicate Waits(p: Prepared, cfg: Config, ob: OrderBlock, j: nat)
    requires Ready(p, cfg) && j < |p.bars|
  {
    !Mitigated(ob, p.bars[j]) && !RetestTriggered(ob, j, p.bars[j]) && j <= ob.expiryBar && !AcceptedAt(p, cfg, j)
  }

  /** The block armed at bar `a` stays armed while its bars wait. */
  lemma {:induction false} BlockWaits(p: Prepared, cfg: Config, acct: Account, a: nat, i: nat)
    requires Ready(p, cfg) && cfg.mode == ObRetest && a < i <= |p.bars| && a in p.breaks && p.atr[a].Some?
    requires forall j :: a < j < i ==> Waits(p, cfg, BlockAt(p, cfg, a), j)
    ensures Run(p, cfg, acct, a + 1).block == Some(BlockAt(p, cfg, a)) ==>
      Run(p, cfg, acct, i).block == Some(BlockAt(p, cfg, a))
  {
    hide OnBreak, AcceptedAt, Settle, BlockAt, Mitigated, RetestTriggered, Run;
    if i > a + 1 {
      BlockWaits(p, cfg, acct, a, i - 1);
      var s, ob := Run(p, cfg, acct, i - 1), BlockAt(p, cfg, a);
      if s.block == Some(ob) {
        ArmedIsFlat(p, cfg, acct, i - 1);
        FlatSettle(p, cfg, acct, i - 1, s);
        BreakOutcome(p, cfg, acct, i - 1, s);
        assert Waits(p, cfg, ob, i - 1);
        NextRun(p, cfg, acct, i - 1);
      }
    }
  }

  lemma NextRun(p: Prepared, cfg: Config, acct: Account, i: nat)
    requires Ready(p, cfg) && i < |p.bars|
    ensures Run(p, cfg, acct, i + 1) == StepBar(p, cfg, acct, i, Run(p, cfg, acct, i))
  {
  }

  /** With order blocks the first retest, within its life, of a block that an accepted break armed
      on a flat, funded bar is taken, unless a close has mitigated the block or another accepted
      break has replaced it. */
  lemma RetestsAreTaken(p: Prepared, cfg: Config, acct: Account, a: nat, i: nat)
    requires Ready(p, cfg) && cfg.mode == ObRetest && a < i && i + 1 < |p.bars| && AcceptedAt(p, cfg, a)
    requires forall j :: a < j < i ==> Waits(p, cfg, BlockAt(p, cfg, a), j)
    ensures
      var ob := BlockAt(p, cfg, a);
      FlatOn(p, cfg, acct, a) && HasFunds(p, cfg, acct, a) && !Retests(Run(p, cfg, acct, a), a, p.bars[a])
      && !Mitigated(ob, p.bars[i]) && RetestTriggered(ob, i, p.bars[i]) ==>
        Run(p, cfg, acct, i + 1).pending == Some(Pending(ob.side, ob.atr))
  {
    hide OnBreak, Settle, BlockAt, Mitigated, RetestTriggered, Run, Waits;
    var ob := BlockAt(p, cfg, a);
    BreakArmsBlock(p, cfg, acct, a);
    BlockWaits(p, cfg, acct, a, i);
    var s := Run(p, cfg, acct, i);
    if s.block == Some(ob) {
      ArmedIsFlat(p, cfg, acct, i);
      FlatSettle(p, cfg, acct, i, s);
      NextRun(p, cfg, acct, i);
    }
  }
}
