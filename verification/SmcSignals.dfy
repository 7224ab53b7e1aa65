/** Where the entries of the SMC walk come from. */
module SmcSignals {
  import opened Wrappers
  import opened Market
  import opened SmcModel
  import opened SmcWalk
  import opened SmcRuns

  /** A break that the configuration accepts, on a bar with a usable ATR. */
  ghost predicate AcceptedAt(p: Prepared, cfg: Config, i: nat)
    requires WellFormed(p)
  {
    && i in p.breaks && p.atr[i].Some? && p.atr[i].value > 0.0
    && AcceptBreak(p.breaks[i], p.bars[i].close, cfg)
  }

  ghost predicate ArmedByBreak(p: Prepared, cfg: Config, ob: OrderBlock)
    requires Ready(p, cfg)
  {
    && cfg.mode == ObRetest && ob.armedBar < |p.bars|
    && AcceptedAt(p, cfg, ob.armedBar) && ob == BlockAt(p, cfg, ob.armedBar)
  }

  /** Neither mitigated nor retested on bars lo..hi. */
  ghost predicate Undisturbed(ob: OrderBlock, bars: seq<Bar>, lo: nat, hi: nat)
    requires hi <= |bars|
  {
    forall j :: lo <= j < hi ==> !Mitigated(ob, bars[j]) && !RetestTriggered(ob, j, bars[j])
  }

  /** The reference meaning of an entry signal. Without order blocks it is an accepted break on
      that very bar; with them it is the first retest, within the block's life, of a block that
      an accepted break armed earlier and that no close has mitigated. */
  ghost predicate SignalIsGenuine(p: Prepared, cfg: Config, o: Origin)
    requires Ready(p, cfg)
  {
    o.bar + 1 < |p.bars| &&
    match o.block
    case None =>
      && cfg.mode != ObRetest && AcceptedAt(p, cfg, o.bar)
      && o.side == p.breaks[o.bar].side && o.atr == p.atr[o.bar].value
    case Some(ob) =>
      && ArmedByBreak(p, cfg, ob) && ob.armedBar < o.bar <= ob.expiryBar == ob.armedBar + cfg.obRetestBars
      && RetestTriggered(ob, o.bar, p.bars[o.bar]) && !Mitigated(ob, p.bars[o.bar])
      && Undisturbed(ob, p.bars, ob.armedBar + 1, o.bar)
      && o.side == ob.side && o.atr == ob.atr
  }

  ghost predicate SignalInv(p: Prepared, cfg: Config, s: WalkState, k: nat)
    requires Ready(p, cfg) && k <= |p.bars|
  {
    && (forall o :: o in s.origins ==> SignalIsGenuine(p, cfg, o))
    && (s.block.Some? ==>
          var ob := s.block.value;
          && ArmedByBreak(p, cfg, ob) && ob.armedBar < k <= ob.expiryBar + 1
          && Undisturbed(ob, p.bars, ob.armedBar + 1, k))
  }

  lemma OnBreakKeepsSignals(p: Prepared, cfg: Config, acct: Account, i: nat, s: WalkState)
    requires Ready(p, cfg) && i < |p.bars| && (s.block.Some? ==> cfg.mode == ObRetest)
    requires SignalInv(p, cfg, s, i + 1)
    ensures SignalInv(p, cfg, OnBreak(p, cfg, acct, i, s), i + 1)
  {
  }

  lemma ArmKeepsSignals(p: Prepared, cfg: Config, acct: Account, i: nat, s: WalkState)
    requires Ready(p, cfg) && i < |p.bars|
    requires SignalInv(p, cfg, s, i)
    ensures SignalInv(p, cfg, Arm(p, cfg, acct, i, s), i + 1)
  {
    if s.block.None? {
      OnBreakKeepsSignals(p, cfg, acct, i, s);
    } else {
      var ob := s.block.value;
      if Mitigated(ob, p.bars[i]) || (!RetestTriggered(ob, i, p.bars[i]) && i > ob.expiryBar) {
        OnBreakKeepsSignals(p, cfg, acct, i, s.(block := None));
      } else if !RetestTriggered(ob, i, p.bars[i]) {
        OnBreakKeepsSignals(p, cfg, acct, i, s);
      }
    }
  }

  lemma StepKeepsSignals(p: Prepared, cfg: Config, acct: Account, i: nat, s: WalkState)
    requires Ready(p, cfg) && i < |p.bars| && Accounted(cfg, s, i) && SignalInv(p, cfg, s, i)
    ensures SignalInv(p, cfg, StepBar(p, cfg, acct, i, s), i + 1)
  {
    var t := Settle(p, cfg, acct, i, s);
    assert t.origins == s.origins && t.block == s.block;
    assert s.block.Some? ==> Flat(s, t);
    if Flat(s, t) {
      ArmKeepsSignals(p, cfg, acct, i, t);
    }
  }

  lemma StartHasSignals(p: Prepared, cfg: Config, acct: Account)
    requires Ready(p, cfg)
    ensures SignalInv(p, cfg, Start(acct), 0)
  {
  }

  /** Every signal of every run is genuine. */
  lemma {:induction false} SignalsAreGenuine(p: Prepared, cfg: Config, acct: Account, k: nat)
    requires Ready(p, cfg) && k <= |p.bars|
    ensures SignalInv(p, cfg, Run(p, cfg, acct, k), k)
  {
    hide SignalInv, StepBar, Start, Ready, WellSpaced, TradesFollowSignals, PositionFollowsSignal, Accounted;
    if k == 0 {
      StartHasSignals(p, cfg, acct);
    } else {
      var s := Run(p, cfg, acct, k - 1);
      assert SignalInv(p, cfg, s, k - 1) by {
        SignalsAreGenuine(p, cfg, acct, k - 1);
      }
      assert Accounted(cfg, s, k - 1) by {
        RunKeepsInv(p, cfg, acct, k - 1);
      }
      var r := StepBar(p, cfg, acct, k - 1, s);
      assert SignalInv(p, cfg, r, k) by {
        StepKeepsSignals(p, cfg, acct, k - 1, s);
      }
      assert Run(p, cfg, acct, k) == r;
    }
  }
}
