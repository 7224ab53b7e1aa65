/** From when on the trades that the SMC walk entered by a bar are settled: as soon as none of them is open. */
module SmcSettled {
  import opened Wrappers
  import opened Seqs
  import opened Market
  import opened Brackets
  import opened SmcModel
  import opened SmcWalk
  import opened SmcRuns
  import opened SmcCausality

  /** After `k` bars no position is open that was entered by bar `c`. */
  ghost predicate EntrantsGone(p: Prepared, cfg: Config, acct: Account, c: nat, k: nat)
    requires Ready(p, cfg) && k <= |p.bars|
  {
    var s := Run(p, cfg, acct, k);
    s.position.Some? ==> s.position.value.entryIndex > c
  }

  /** One bar fills at its own index, and closes only what was open or has just been filled. */
  lemma StepEntrants(p: Prepared, cfg: Config, acct: Account, c: nat, i: nat, s: WalkState)
    requires Ready(p, cfg) && c < i < |p.bars| && (s.position.Some? ==> s.position.value.entryIndex > c)
    ensures
      var r := StepBar(p, cfg, acct, i, s);
      && (r.position.Some? ==> r.position.value.entryIndex > c)
      && s.trades <= r.trades
      && forall j :: |s.trades| <= j < |r.trades| ==> r.trades[j].bracket.entryIndex > c
  {
    StepTradesAreSettled(p, cfg, acct, i, s);
    ArmKeepsPosition(p, cfg, acct, i, Settle(p, cfg, acct, i, s));
    hide Arm, ExitNow, CloseTrade, EntryBracket;
    assert EntryBracket(p, cfg, acct, i, Long, 0.0).entryIndex == i by {
      EntersNow(p, cfg, acct, i, Long, 0.0);
    }
    if s.pending.Some? {
      EntersNow(p, cfg, acct, i, s.pending.value.side, s.pending.value.atr);
    }
    KeepsBracket(p, cfg, acct, i, Fill(p, cfg, acct, i, s));
  }

  lemma EntersNow(p: Prepared, cfg: Config, acct: Account, i: nat, side: Direction, atr: real)
    requires i < |p.bars|
    ensures EntryBracket(p, cfg, acct, i, side, atr).entryIndex == i
  {
  }

  lemma KeepsBracket(p: Prepared, cfg: Config, acct: Account, i: nat, s: WalkState)
    requires WellFormed(p) && i < |p.bars|
    ensures
      var r := Exit(p, cfg, acct, i, s);
      && s.trades <= r.trades && |r.trades| <= |s.trades| + 1
      && (|r.trades| > |s.trades| ==>
            s.position.Some? && r.trades[|s.trades|].bracket == s.position.value && r.position.None?)
      && (|r.trades| == |s.trades| ==> r == s)
  {
    hide ExitReason;
  }

  lemma ArmKeepsPosition(p: Prepared, cfg: Config, acct: Account, i: nat, s: WalkState)
    requires Ready(p, cfg) && i < |p.bars|
    ensures
      var r := Arm(p, cfg, acct, i, s);
      r.position == s.position && r.trades == s.trades && r.balance == s.balance
  {
    hide AcceptBreak, RetestTriggered, Mitigated, BlockAt;
  }

  /** Then none is ever open again, and every later trade was entered later. */
  lemma {:induction false} EntrantsStayGone(p: Prepared, cfg: Config, acct: Account, c: nat, k: nat, n: nat)
    requires Ready(p, cfg) && c < k <= n <= |p.bars| && EntrantsGone(p, cfg, acct, c, k)
    ensures EntrantsGone(p, cfg, acct, c, n)
    ensures Run(p, cfg, acct, k).trades <= Run(p, cfg, acct, n).trades
    ensures forall j :: |Run(p, cfg, acct, k).trades| <= j < |Run(p, cfg, acct, n).trades| ==>
      Run(p, cfg, acct, n).trades[j].bracket.entryIndex > c
  {
    hide StepBar, Ready;
    if k < n {
      EntrantsStayGone(p, cfg, acct, c, k, n - 1);
      StepEntrants(p, cfg, acct, c, n - 1, Run(p, cfg, acct, n - 1));
      assert Run(p, cfg, acct, n) == StepBar(p, cfg, acct, n - 1, Run(p, cfg, acct, n - 1));
    }
  }

  /** The trades entered by bar `c` are all among the trades of the first `k` bars. */
  lemma GoneMeansSettled(p: Prepared, cfg: Config, acct: Account, c: nat, k: nat)
    requires Ready(p, cfg) && c < k <= |p.bars| && EntrantsGone(p, cfg, acct, c, k)
    ensures Filter(Run(p, cfg, acct, |p.bars|).trades, EntersBy(c)) == Filter(Run(p, cfg, acct, k).trades, EntersBy(c))
  {
    hide Run, EntrantsGone, Ready;
    var all, early := Run(p, cfg, acct, |p.bars|).trades, Run(p, cfg, acct, k).trades;
    EntrantsStayGone(p, cfg, acct, c, k, |p.bars|);
    assert all == early + all[|early|..];
    FilterConcat(early, all[|early|..], EntersBy(c));
    forall t | t in all[|early|..] ensures !EntersBy(c)(t) {
      var j :| |early| <= j < |all| && all[j] == t;
    }
    FilterNone(all[|early|..], EntersBy(c));
  }

  /** After `k` common bars balance, position and trades coincide; only what is armed on the last of
      them may differ. */
  lemma LedgersAgree(p: Prepared, q: Prepared, cfg: Config, acct: Account, k: nat)
    requires Ready(p, cfg) && Ready(q, cfg) && Agree(p, q, k)
    ensures
      var s, r := Run(p, cfg, acct, k), Run(q, cfg, acct, k);
      s.position == r.position && s.trades == r.trades && s.balance == r.balance
  {
    hide Settle, Arm, SameFeatures;
    if k > 0 {
      RunAgrees(p, q, cfg, acct, k, k - 1);
      var s := Run(p, cfg, acct, k - 1);
      SettleAgrees(p, q, cfg, acct, k, k - 1, s);
      ArmKeepsPosition(p, cfg, acct, k - 1, Settle(p, cfg, acct, k - 1, s));
      ArmKeepsPosition(q, cfg, acct, k - 1, Settle(q, cfg, acct, k - 1, s));
      assert Run(p, cfg, acct, k) == StepBar(p, cfg, acct, k - 1, s);
      assert Run(q, cfg, acct, k) == StepBar(q, cfg, acct, k - 1, s);
    }
  }

  /** Inputs that agree until no trade entered by bar `c` is open yield the same trades entered by it. */
  lemma SettledTradesAgree(p: Prepared, q: Prepared, cfg: Config, acct: Account, c: nat, k: nat)
    requires Ready(p, cfg) && Ready(q, cfg) && Agree(p, q, k) && c < k && EntrantsGone(p, cfg, acct, c, k)
    ensures EntrantsGone(q, cfg, acct, c, k)
    ensures Filter(Run(p, cfg, acct, |p.bars|).trades, EntersBy(c))
         == Filter(Run(q, cfg, acct, |q.bars|).trades, EntersBy(c))
  {
    LedgersAgree(p, q, cfg, acct, k);
    hide Run;
    GoneMeansSettled(p, cfg, acct, c, k);
    GoneMeansSettled(q, cfg, acct, c, k);
  }

  /** By bar c + maxHold + 1 none is. */
  lemma WindowClears(p: Prepared, cfg: Config, acct: Account, c: nat, k: nat)
    requires Ready(p, cfg) && c + cfg.maxHold + 2 <= k <= |p.bars|
    ensures EntrantsGone(p, cfg, acct, c, k)
  {
    hide Run;
    RunKeepsInv(p, cfg, acct, k);
  }
}
