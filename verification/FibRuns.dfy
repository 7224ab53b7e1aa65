/** What holds of every run of the HTF-Fib walk. */
module FibRuns {
  import opened Wrappers
  import opened Brackets
  import opened FibModel
  import opened FibWalk

  /** Every signal so far is traded, open, or waiting for the next bar. */
  predicate Accounted(s: FibState)
  {
    && !(s.position.Some? && s.pending.Some?)
    && |s.armed| == |s.trades| + (if s.position.Some? then 1 else 0) + (if s.pending.Some? then 1 else 0)
  }

  ghost predicate TradesAreFirstTouch(d: Features, cfg: Config, prm: Params, s: FibState, k: nat)
  {
    forall t :: t in s.trades ==>
      && t.exitIndex < k && t.bracket.risk > 0.0
      && OpenFill(t.bracket, d.bars, prm.costs, prm.pip)
      && FirstTouchExit(t, d.bars, cfg.maxHold, prm.costs, prm.pip)
  }

  /** An open position with a real stop distance is untouched and within its holding window. */
  ghost predicate PositionIsUntouched(d: Features, cfg: Config, prm: Params, s: FibState, k: nat)
    requires k <= |d.bars|
  {
    s.position.Some? ==>
      var b := s.position.value;
      && b.entryIndex <= k && OpenFill(b, d.bars, prm.costs, prm.pip)
      && (b.risk > 0.0 ==> k <= b.entryIndex + cfg.maxHold + 1 && Untouched(b, d.bars, b.entryIndex, k))
  }

  ghost predicate WellSpaced(s: FibState, k: nat)
  {
    && Spaced(s.trades, 1)
    && (s.position.Some? ==> forall t :: t in s.trades ==> t.exitIndex + 1 <= s.position.value.entryIndex)
    && (forall t :: t in s.trades ==> t.exitIndex + 1 <= k)
  }

  predicate LedgerBalances(prm: Params, s: FibState)
  {
    s.balance == StartingCapital(prm) + TotalPnl(s.trades)
  }

  ghost predicate Inv(d: Features, cfg: Config, prm: Params, s: FibState, k: nat)
    requires k <= |d.bars|
  {
    && Accounted(s)
    && TradesAreFirstTouch(d, cfg, prm, s, k)
    && PositionIsUntouched(d, cfg, prm, s, k)
    && WellSpaced(s, k)
    && LedgerBalances(prm, s)
  }

  lemma FillKeepsInv(d: Features, cfg: Config, prm: Params, i: nat, s: FibState)
    requires WellFormed(d) && i < |d.bars| && Inv(d, cfg, prm, s, i)
    ensures
      var r := Fill(d, cfg, prm, i, s);
      r.Ok? ==> Inv(d, cfg, prm, r.value, i) && r.value.pending.None? && r.value.history == s.history
  {
  }

  /** The state after closing the position with trade `t`. */
  function Closed(s: FibState, t: Trade): FibState
  {
    s.(balance := s.balance + t.netPnl, trades := s.trades + [t], position := None)
  }

  lemma CloseIsFirstTouch(d: Features, cfg: Config, prm: Params, b: Bracket, balance: real, i: nat, reason: Reason)
    requires WellFormed(d) && i < |d.bars| && b.risk > 0.0
    requires b.entryIndex <= i <= b.entryIndex + cfg.maxHold + 1
    requires Untouched(b, d.bars, b.entryIndex, i)
    requires ExitReason(b, d.bars[i], i, cfg.maxHold, true) == Some(reason)
    ensures FirstTouchExit(CloseTrade(d, cfg, prm, b, balance, i, reason), d.bars, cfg.maxHold, prm.costs, prm.pip)
  {
  }

  lemma ClosedIsSpaced(i: nat, s: FibState, t: Trade)
    requires WellSpaced(s, i) && s.position == Some(t.bracket) && t.exitIndex == i
    ensures WellSpaced(Closed(s, t), i + 1)
  {
    forall j | 0 <= j < |s.trades| ensures s.trades[j].exitIndex + 1 <= t.bracket.entryIndex {
      assert s.trades[j] in s.trades;
    }
  }

  lemma CloseKeepsInv(d: Features, cfg: Config, prm: Params, i: nat, s: FibState, t: Trade)
    requires i < |d.bars| && Inv(d, cfg, prm, s, i) && s.pending.None?
    requires s.position == Some(t.bracket) && t.exitIndex == i && t.bracket.risk > 0.0
    requires FirstTouchExit(t, d.bars, cfg.maxHold, prm.costs, prm.pip)
    ensures Inv(d, cfg, prm, Closed(s, t), i + 1)
  {
    TotalPnlSnoc(s.trades, t);
    ClosedIsSpaced(i, s, t);
  }

  lemma ExitKeepsInv(d: Features, cfg: Config, prm: Params, i: nat, s: FibState)
    requires WellFormed(d) && i < |d.bars| && Inv(d, cfg, prm, s, i) && s.pending.None?
    ensures Inv(d, cfg, prm, Exit(d, cfg, prm, i, s, true), i + 1)
  {
    match ExitNow(d, cfg, i, s, true)
    case None =>
    case Some(reason) =>
      var b := s.position.value;
      var t := CloseTrade(d, cfg, prm, b, s.balance, i, reason);
      CloseIsFirstTouch(d, cfg, prm, b, s.balance, i, reason);
      assert Inv(d, cfg, prm, Closed(s, t), i + 1) by {
        CloseKeepsInv(d, cfg, prm, i, s, t);
      }
  }

  /** All that the entry test can do. */
  predicate TestedFrom(cfg: Config, s: FibState, r: FibState)
  {
    && r.trades == s.trades && r.balance == s.balance && r.position == s.position && r.history == s.history
    && (r.pending != s.pending ==>
          && s.pending.None? && s.position.None? && s.history.swing.direction != 0
          && (cfg.oneEntryPerSwing ==> s.tradedVersion != s.history.swing.version)
          && r.armed == s.armed + [s.history.swing.version] && r.tradedVersion == s.history.swing.version)
    && (r.pending == s.pending ==> r.armed == s.armed && r.tradedVersion == s.tradedVersion)
  }

  lemma TestOutcome(d: Features, cfg: Config, i: nat, s: FibState)
    requires WellFormed(d) && i < |d.bars|
    ensures TestedFrom(cfg, s, Test(d, cfg, i, s))
  {
  }

  lemma TestKeepsInv(d: Features, cfg: Config, prm: Params, s: FibState, r: FibState, k: nat)
    requires k <= |d.bars| && Inv(d, cfg, prm, s, k) && TestedFrom(cfg, s, r)
    ensures Inv(d, cfg, prm, r, k)
  {
  }

  lemma LookKeepsInv(d: Features, cfg: Config, prm: Params, i: nat, s: FibState)
    requires WellFormed(d) && i < |d.bars| && Inv(d, cfg, prm, s, i + 1)
    ensures Inv(d, cfg, prm, Look(d, cfg, i, s), i + 1)
  {
    var t := s.(history := SwingOn(d, cfg, i, s.history));
    TestOutcome(d, cfg, i, t);
    TestKeepsInv(d, cfg, prm, t, Test(d, cfg, i, t), i + 1);
  }

  lemma StepKeepsInv(d: Features, cfg: Config, prm: Params, i: nat, s: FibState)
    requires WellFormed(d) && i < |d.bars| && Inv(d, cfg, prm, s, i)
    ensures
      var r := StepBar(d, cfg, prm, i, s, true);
      r.Ok? ==> Inv(d, cfg, prm, r.value, i + 1)
  {
    FillKeepsInv(d, cfg, prm, i, s);
    var f := Fill(d, cfg, prm, i, s);
    if f.Ok? {
      var e := Exit(d, cfg, prm, i, f.value, true);
      assert Inv(d, cfg, prm, e, i + 1) by {
        ExitKeepsInv(d, cfg, prm, i, f.value);
      }
      assert Inv(d, cfg, prm, Look(d, cfg, i, e), i + 1) by {
        LookKeepsInv(d, cfg, prm, i, e);
      }
    }
  }

  /** First touch, spacing and the ledger hold over every run that raises no exception. */
  lemma {:induction false} RunKeepsInv(d: Features, cfg: Config, prm: Params, k: nat)
    requires WellFormed(d) && k <= |d.bars|
    ensures Run(d, cfg, prm, k).Ok? ==> Inv(d, cfg, prm, Run(d, cfg, prm, k).value, k)
  {
    hide StepBar;
    if k > 0 && Run(d, cfg, prm, k).Ok? {
      RunKeepsInv(d, cfg, prm, k - 1);
      StepKeepsInv(d, cfg, prm, k - 1, Run(d, cfg, prm, k - 1).value);
    }
  }

  /** A recorded exit is the first touch of stop or target in the holding window, the stop
      winning, or the open of the bar after it; and its fill was the next open. */
  lemma TradesLeaveAtFirstTouch(d: Features, cfg: Config, prm: Params, k: nat, t: Trade)
    requires WellFormed(d) && k <= |d.bars| && Run(d, cfg, prm, k).Ok? && t in Run(d, cfg, prm, k).value.trades
    ensures t.exitIndex < k
    ensures OpenFill(t.bracket, d.bars, prm.costs, prm.pip)
    ensures FirstTouchExit(t, d.bars, cfg.maxHold, prm.costs, prm.pip)
  {
    RunKeepsInv(d, cfg, prm, k);
  }

  /** Positions never overlap, and the balance is the start plus the net result of all trades. */
  lemma {:induction false} PositionsAndLedger(d: Features, cfg: Config, prm: Params, k: nat)
    requires WellFormed(d) && k <= |d.bars| && Run(d, cfg, prm, k).Ok?
    ensures Spaced(Run(d, cfg, prm, k).value.trades, 1)
    ensures Run(d, cfg, prm, k).value.balance == StartingCapital(prm) + TotalPnl(Run(d, cfg, prm, k).value.trades)
  {
    RunKeepsInv(d, cfg, prm, k);
  }

  /** A position that outlasts its holding window has a stop distance of zero. */
  lemma OverstayMeansZeroRisk(d: Features, cfg: Config, prm: Params, k: nat)
    requires WellFormed(d) && k <= |d.bars| && Run(d, cfg, prm, k).Ok? && Run(d, cfg, prm, k).value.position.Some?
    requires k > Run(d, cfg, prm, k).value.position.value.entryIndex + cfg.maxHold + 1
    ensures Run(d, cfg, prm, k).value.position.value.risk == 0.0
  {
    RunKeepsInv(d, cfg, prm, k);
  }

  /** A position whose stop distance is zero is never closed again. */
  lemma {:induction false} ZeroRiskNeverCloses(d: Features, cfg: Config, prm: Params, k: nat, n: nat)
    requires WellFormed(d) && k <= n <= |d.bars|
    ensures
      var r, v := Run(d, cfg, prm, k), Run(d, cfg, prm, n);
      r.Ok? && r.value.position.Some? && r.value.position.value.risk == 0.0 ==>
        v.Ok? && v.value.position == r.value.position
  {
    hide StepBar;
    if k < n {
      ZeroRiskNeverCloses(d, cfg, prm, k, n - 1);
      var s := Run(d, cfg, prm, n - 1);
      if s.Ok? && s.value.position.Some? && s.value.position.value.risk == 0.0 {
        ZeroRiskStays(d, cfg, prm, n - 1, s.value);
      }
    }
  }

  lemma ZeroRiskStays(d: Features, cfg: Config, prm: Params, i: nat, s: FibState)
    requires WellFormed(d) && i < |d.bars| && s.position.Some? && s.position.value.risk == 0.0
    ensures
      var r := StepBar(d, cfg, prm, i, s, true);
      r.Ok? && r.value.position == s.position
  {
  }
}
