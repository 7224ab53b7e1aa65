/** Which order-block entries the SMC walk takes, read off the fields of the bars. */
module SmcRetests {
  import opened Wrappers
  import opened Market
  import opened Costs
  import opened SmcModel
  import opened SmcWalk
  import opened SmcRuns
  import opened SmcSignals
  import opened SmcCompleteness

  /** The side of the block that price comes back to, and the side that ends it. */
  function NearSide(ob: OrderBlock): real
  {
    if ob.side == Long then ob.high else ob.low
  }

  function FarSide(ob: OrderBlock): real
  {
    if ob.side == Long then ob.low else ob.high
  }

  /** The reference meaning of a retest: the bar comes back to the near side of the block and closes
      in its direction, beyond the far side. */
  predicate Rejects(ob: OrderBlock, bar: Bar)
  {
    && Move(ob.side, NearSide(ob), Tip(ob.side, bar)) <= 0.0
    && Move(ob.side, bar.open, bar.close) > 0.0
    && Move(ob.side, FarSide(ob), bar.close) > 0.0
  }

  /** The bar closes through the far side, which ends the block. */
  predicate ClosesThrough(ob: OrderBlock, bar: Bar)
  {
    Move(ob.side, FarSide(ob), bar.close) < 0.0
  }

  lemma RetestMeans(ob: OrderBlock, i: int, bar: Bar)
    ensures RetestTriggered(ob, i, bar) <==> i <= ob.expiryBar && Rejects(ob, bar)
    ensures Mitigated(ob, bar) <==> ClosesThrough(ob, bar)
  {
  }

  /** On a valid bar the range meets the block. */
  lemma RetestOverlaps(ob: OrderBlock, bar: Bar)
    requires ValidBar(bar) && Rejects(ob, bar)
    ensures bar.low <= ob.high && ob.low <= bar.high
  {
  }

  /** Bar `i` is the first after `a` to retest the block, in its life, with no close through it and no
      other accepted break on the bars between. */
  ghost predicate FirstRetest(p: Prepared, cfg: Config, ob: OrderBlock, a: nat, i: nat)
    requires Ready(p, cfg) && i < |p.bars|
  {
    && a < i <= a + cfg.obRetestBars && Rejects(ob, p.bars[i])
    && forall j :: a < j < i ==> !Rejects(ob, p.bars[j]) && !ClosesThrough(ob, p.bars[j]) && !AcceptedAt(p, cfg, j)
  }

  /** The extremes of the break's leg: the parsed high and low of its first most extreme candle. */
  ghost predicate IsLegBlock(p: Prepared, a: nat, ob: OrderBlock)
    requires WellFormed(p) && a in p.breaks
  {
    && ob.side == p.breaks[a].side && ob.armedBar == a
    && exists c :: 0 <= p.breaks[a].pivotBar <= c <= a && ob.high == p.parsedHighs[c] && ob.low == p.parsedLows[c]
         && forall j :: p.breaks[a].pivotBar <= j <= a ==> LessExtreme(p, ob.side, c, j)
  }

  /** Candle `j` is less extreme than candle `c`, or as extreme and not before it. */
  predicate LessExtreme(p: Prepared, side: Direction, c: nat, j: nat)
    requires c < |p.parsedHighs| == |p.parsedLows| && j < |p.parsedHighs|
  {
    var extreme := if side == Long then p.parsedLows else p.parsedHighs;
    Move(side, extreme[c], extreme[j]) > 0.0 || (extreme[c] == extreme[j] && c <= j)
  }

  lemma BlockIsLegBlock(p: Prepared, cfg: Config, a: nat)
    requires Ready(p, cfg) && cfg.mode == ObRetest && a in p.breaks && p.atr[a].Some?
    ensures IsLegBlock(p, a, BlockAt(p, cfg, a))
  {
    var b := p.breaks[a];
    OrderBlockIsLegExtreme(b, p.parsedHighs, p.parsedLows);
    var c := ExtremeCandle(b, p.parsedHighs, p.parsedLows);
    forall j | b.pivotBar <= j <= a ensures LessExtreme(p, b.side, c, j) {
    }
  }

  // ------------------------------------------------------------ over runs

  /** A bar on which the walk arms the block of an accepted break. */
  ghost predicate Arms(p: Prepared, cfg: Config, acct: Account, a: nat)
    requires Ready(p, cfg) && a < |p.bars|
  {
    && FlatOn(p, cfg, acct, a) && HasFunds(p, cfg, acct, a) && AcceptedAt(p, cfg, a)
    && Run(p, cfg, acct, a + 1).pending.None?
  }

  /** What a flat bar leaves behind in order-block mode. */
  lemma FlatBarOutcome(p: Prepared, cfg: Config, acct: Account, i: nat)
    requires Ready(p, cfg) && i < |p.bars| && cfg.mode == ObRetest && FlatOn(p, cfg, acct, i)
    ensures
      var s, r := Run(p, cfg, acct, i), Run(p, cfg, acct, i + 1);
      var takes := AcceptedAt(p, cfg, i) && HasFunds(p, cfg, acct, i);
      if Retests(s, i, p.bars[i]) then
        && r.block.None?
        && r.pending == if i + 1 < |p.bars| then Some(Pending(s.block.value.side, s.block.value.atr)) else None
      else
        && r.pending.None?
        && (takes ==> r.block == Some(BlockAt(p, cfg, i)))
        && (!takes && r.block.Some? ==>
              && s.block == r.block && !Mitigated(r.block.value, p.bars[i]) && i <= r.block.value.expiryBar)
  {
    hide OnBreak, AcceptedAt, Settle, BlockAt, Mitigated, RetestTriggered, Run;
    var s := Run(p, cfg, acct, i);
    FlatSettle(p, cfg, acct, i, s);
    BreakOutcome(p, cfg, acct, i, s);
    BreakOutcome(p, cfg, acct, i, s.(block := None));
    NextRun(p, cfg, acct, i);
  }

  lemma HeldBarOutcome(p: Prepared, cfg: Config, acct: Account, i: nat)
    requires Ready(p, cfg) && i < |p.bars| && !FlatOn(p, cfg, acct, i)
    ensures Run(p, cfg, acct, i + 1).block.None? && Run(p, cfg, acct, i + 1).pending.None?
  {
    hide Settle, Run, TradesFollowSignals, PositionFollowsSignal, WellSpaced;
    var s := Run(p, cfg, acct, i);
    RunKeepsInv(p, cfg, acct, i);
    SettledHasNoPending(p, cfg, acct, i, s);
    SettleKeepsBlock(p, cfg, acct, i, s);
    NextRun(p, cfg, acct, i);
    ArmedIsFlat(p, cfg, acct, i);
  }

  lemma SettleKeepsBlock(p: Prepared, cfg: Config, acct: Account, i: nat, s: WalkState)
    requires WellFormed(p) && i < |p.bars|
    ensures Settle(p, cfg, acct, i, s).block == s.block && Settle(p, cfg, acct, i, s).origins == s.origins
  {
  }

  /** The block that is live when bar `k` is reached was armed by an accepted break, and every bar
      since has waited. */
  ghost predicate LiveBlock(p: Prepared, cfg: Config, acct: Account, ob: OrderBlock, k: nat)
    requires Ready(p, cfg) && k <= |p.bars| && cfg.mode == ObRetest
  {
    var a := ob.armedBar;
    && a < k && Arms(p, cfg, acct, a) && ob == BlockAt(p, cfg, a)
    && forall j :: a < j < k ==> Waits(p, cfg, ob, j)
  }

  lemma BlockFields(p: Prepared, cfg: Config, a: nat)
    requires Ready(p, cfg) && cfg.mode == ObRetest && a in p.breaks && p.atr[a].Some?
    ensures
      var ob := BlockAt(p, cfg, a);
      && ob.armedBar == a && ob.expiryBar == a + cfg.obRetestBars
      && ob.side == p.breaks[a].side && ob.atr == p.atr[a].value
  {
  }

  lemma {:induction false} LiveBlockWasArmed(p: Prepared, cfg: Config, acct: Account, k: nat)
    requires Ready(p, cfg) && k <= |p.bars| && cfg.mode == ObRetest
    ensures Run(p, cfg, acct, k).block.Some? ==> LiveBlock(p, cfg, acct, Run(p, cfg, acct, k).block.value, k)
  {
    hide AcceptBreak, BlockAt, Mitigated, RetestTriggered, Settle, OnBreak, FlatOn, HasFunds, Arms, Waits;
    if k > 0 && Run(p, cfg, acct, k).block.Some? {
      hide Run;
      LiveBlockWasArmed(p, cfg, acct, k - 1);
      BlockOutcome(p, cfg, acct, k - 1);
      var ob := Run(p, cfg, acct, k).block.value;
      if Run(p, cfg, acct, k - 1).block != Some(ob) || !Waits(p, cfg, ob, k - 1) {
        ArmsAccepts(p, cfg, acct, k - 1);
        BlockFields(p, cfg, k - 1);
      }
    } else if k == 0 {
      assert Run(p, cfg, acct, 0) == Start(acct);
    }
  }

  /** A block that is live after a bar was armed on it, or was live before and the bar waited. */
  lemma BlockOutcome(p: Prepared, cfg: Config, acct: Account, i: nat)
    requires Ready(p, cfg) && i < |p.bars| && cfg.mode == ObRetest && Run(p, cfg, acct, i + 1).block.Some?
    ensures
      var ob := Run(p, cfg, acct, i + 1).block.value;
      || (Arms(p, cfg, acct, i) && ob == BlockAt(p, cfg, i))
      || (Run(p, cfg, acct, i).block == Some(ob) && Waits(p, cfg, ob, i))
  {
    hide Run, AcceptedAt, BlockAt, Mitigated, RetestTriggered, FlatOn, HasFunds;
    if FlatOn(p, cfg, acct, i) {
      FlatBarOutcome(p, cfg, acct, i);
      ArmedIsFlat(p, cfg, acct, i);
    } else {
      HeldBarOutcome(p, cfg, acct, i);
    }
  }

  /** In order-block mode an entry is pending after a bar exactly when there is a bar left to fill it
      on and the bar is the first retest of a block that the walk armed; and then it has the side of
      that block's break and the ATR of its bar. */
  lemma RetestEntriesExactly(p: Prepared, cfg: Config, acct: Account, i: nat)
    requires Ready(p, cfg) && i < |p.bars| && cfg.mode == ObRetest
    ensures Run(p, cfg, acct, i + 1).pending.Some? <==>
      i + 1 < |p.bars| && exists a :: 0 <= a < i && Arms(p, cfg, acct, a)
                                 && FirstRetest(p, cfg, BlockAt(p, cfg, a), a, i)
    ensures i + 1 < |p.bars| ==>
      forall a :: (0 <= a < i && Arms(p, cfg, acct, a) && FirstRetest(p, cfg, BlockAt(p, cfg, a), a, i)) ==>
        && IsLegBlock(p, a, BlockAt(p, cfg, a))
        && Run(p, cfg, acct, i + 1).pending == Some(Pending(p.breaks[a].side, p.atr[a].value))
  {
    hide Run, AcceptBreak, BlockAt, Mitigated, RetestTriggered, FlatOn, HasFunds, IsLegBlock, Rejects, ClosesThrough;
    forall a | 0 <= a < i && i + 1 < |p.bars| && Arms(p, cfg, acct, a) && FirstRetest(p, cfg, BlockAt(p, cfg, a), a, i)
      ensures IsLegBlock(p, a, BlockAt(p, cfg, a))
      ensures Run(p, cfg, acct, i + 1).pending == Some(Pending(p.breaks[a].side, p.atr[a].value))
    {
      BlockIsLegBlock(p, cfg, a);
      FirstRetestIsTaken(p, cfg, acct, a, i);
    }
    if Run(p, cfg, acct, i + 1).pending.Some? {
      PendingIsFirstRetest(p, cfg, acct, i);
    }
  }

  lemma FirstRetestIsTaken(p: Prepared, cfg: Config, acct: Account, a: nat, i: nat)
    requires Ready(p, cfg) && a < i && i + 1 < |p.bars| && cfg.mode == ObRetest
    requires Arms(p, cfg, acct, a) && FirstRetest(p, cfg, BlockAt(p, cfg, a), a, i)
    ensures Run(p, cfg, acct, i + 1).pending == Some(Pending(p.breaks[a].side, p.atr[a].value))
  {
    hide Run, AcceptBreak, BlockAt, Mitigated, RetestTriggered, FlatOn, HasFunds, Rejects, ClosesThrough;
    var ob := BlockAt(p, cfg, a);
    BlockFields(p, cfg, a);
    FlatBarOutcome(p, cfg, acct, a);
    forall j | a < j < i ensures Waits(p, cfg, ob, j) {
      RetestMeans(ob, j, p.bars[j]);
    }
    RetestMeans(ob, i, p.bars[i]);
    RejectionHolds(ob, p.bars[i]);
    RetestsAreTaken(p, cfg, acct, a, i);
  }

  lemma RejectionHolds(ob: OrderBlock, bar: Bar)
    requires Rejects(ob, bar)
    ensures !ClosesThrough(ob, bar)
  {
  }

  lemma PendingIsFirstRetest(p: Prepared, cfg: Config, acct: Account, i: nat)
    requires Ready(p, cfg) && i < |p.bars| && cfg.mode == ObRetest && Run(p, cfg, acct, i + 1).pending.Some?
    ensures i + 1 < |p.bars| && exists a :: 0 <= a < i && Arms(p, cfg, acct, a)
                                       && FirstRetest(p, cfg, BlockAt(p, cfg, a), a, i)
  {
    hide Run, AcceptBreak, BlockAt, Mitigated, RetestTriggered, FlatOn, HasFunds, Rejects, ClosesThrough, Arms;
    if !FlatOn(p, cfg, acct, i) {
      HeldBarOutcome(p, cfg, acct, i);
    } else {
      FlatBarOutcome(p, cfg, acct, i);
      LiveBlockWasArmed(p, cfg, acct, i);
      var ob := Run(p, cfg, acct, i).block.value;
      var a := ob.armedBar;
      ArmsAccepts(p, cfg, acct, a);
      BlockFields(p, cfg, a);
      RetestMeans(ob, i, p.bars[i]);
      forall j | a < j < i
        ensures !Rejects(ob, p.bars[j]) && !ClosesThrough(ob, p.bars[j]) && !AcceptedAt(p, cfg, j)
      {
        assert Waits(p, cfg, ob, j);
        RetestMeans(ob, j, p.bars[j]);
      }
      assert FirstRetest(p, cfg, BlockAt(p, cfg, a), a, i);
    }
  }

  lemma ArmsAccepts(p: Prepared, cfg: Config, acct: Account, a: nat)
    requires Ready(p, cfg) && a < |p.bars| && Arms(p, cfg, acct, a)
    ensures AcceptedAt(p, cfg, a)
  {
  }

  /** A bar records at most one signal, and then it is the entry pending after it. */
  lemma BarRecordsPending(p: Prepared, cfg: Config, acct: Account, i: nat, o: Origin)
    requires Ready(p, cfg) && i < |p.bars| && o in Run(p, cfg, acct, i + 1).origins
    ensures o in Run(p, cfg, acct, i).origins
         || (o.bar == i && Run(p, cfg, acct, i + 1).pending == Some(Pending(o.side, o.atr)))
  {
    hide Run, Settle, Arm, TradesFollowSignals, PositionFollowsSignal, WellSpaced, LedgerBalances;
    var s, r := Run(p, cfg, acct, i), Run(p, cfg, acct, i + 1);
    RunKeepsInv(p, cfg, acct, i);
    NextRun(p, cfg, acct, i);
    SettleKeepsBlock(p, cfg, acct, i, s);
    if FlatOn(p, cfg, acct, i) {
      FlatSettle(p, cfg, acct, i, s);
      ArmOutcome(p, cfg, acct, i, s);
      var n := |s.origins|;
      if r.pending.Some? {
        assert r.origins == r.origins[..n] + [r.origins[n]];
      }
    }
  }

  /** Every recorded signal was the entry pending after its bar. */
  lemma {:induction false} SignalsWerePending(p: Prepared, cfg: Config, acct: Account, k: nat, o: Origin)
    requires Ready(p, cfg) && k <= |p.bars| && o in Run(p, cfg, acct, k).origins
    ensures o.bar < k && Run(p, cfg, acct, o.bar + 1).pending == Some(Pending(o.side, o.atr))
  {
    hide StepBar, Ready;
    if k > 0 {
      BarRecordsPending(p, cfg, acct, k - 1, o);
      if o in Run(p, cfg, acct, k - 1).origins {
        SignalsWerePending(p, cfg, acct, k - 1, o);
      }
    }
  }

  /** Every trade of every run in order-block mode was entered on the bar after the first retest of a
      block that the walk armed, on the side of its break, with the stop and target of that bar's ATR. */
  lemma TradesRetestBlocks(p: Prepared, cfg: Config, acct: Account, k: nat, j: nat)
    requires Ready(p, cfg) && k <= |p.bars| && cfg.mode == ObRetest && j < |Run(p, cfg, acct, k).trades|
    ensures
      var b := Run(p, cfg, acct, k).trades[j].bracket;
      && 0 < b.entryIndex < |p.bars|
      && exists a :: 0 <= a < b.entryIndex - 1 && Arms(p, cfg, acct, a)
           && FirstRetest(p, cfg, BlockAt(p, cfg, a), a, b.entryIndex - 1) && IsLegBlock(p, a, BlockAt(p, cfg, a))
           && b == EntryBracket(p, cfg, acct, b.entryIndex, p.breaks[a].side, p.atr[a].value)
  {
    hide Run, AcceptBreak, BlockAt, FlatOn, HasFunds, IsLegBlock, FirstRetest, EntryBracket;
    TradesLeaveAtFirstTouch(p, cfg, acct, k, j);
    var s := Run(p, cfg, acct, k);
    var o := s.origins[j];
    assert o in s.origins;
    SignalsWerePending(p, cfg, acct, k, o);
    RetestEntriesExactly(p, cfg, acct, o.bar);
    var a :| 0 <= a < o.bar && Arms(p, cfg, acct, a) && FirstRetest(p, cfg, BlockAt(p, cfg, a), a, o.bar);
    assert Run(p, cfg, acct, o.bar + 1).pending == Some(Pending(p.breaks[a].side, p.atr[a].value));
  }
}
