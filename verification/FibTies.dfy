/** Stop-first is the pessimal reading of a bar that touches both stop and target. */
module FibTies {
  import opened Wrappers
  import opened Reals
  import opened Costs
  import opened Brackets
  import opened FibModel
  import opened FibWalk

  /** The walk under an oracle: `tie[i]` says whether the stop wins on bar `i`. */
  function OracleRun(d: Features, cfg: Config, prm: Params, tie: seq<bool>, k: nat): Result<FibState>
    requires WellFormed(d) && k <= |d.bars| == |tie|
  {
    if k == 0 then Ok(Start(prm))
    else
      match OracleRun(d, cfg, prm, tie, k - 1)
      case Err(x) => Err(x)
      case Ok(s) => StepBar(d, cfg, prm, k - 1, s, tie[k - 1])
  }

  /** The same trade, with a net result at least as good. */
  predicate NoWorse(t: Trade, u: Trade)
  {
    t.bracket == u.bracket && t.exitIndex == u.exitIndex && t.netPnl <= u.netPnl
  }

  /** The source's run and an oracle's run side by side: all that decides entries and exits is
      equal, and the money is no worse on the oracle's side. */
  ghost predicate Beside(s: FibState, u: FibState)
  {
    && u == s.(balance := u.balance, trades := u.trades)
    && s.balance <= u.balance
    && |s.trades| == |u.trades|
    && forall j :: 0 <= j < |s.trades| ==> NoWorse(s.trades[j], u.trades[j])
  }

  /** The target lies on the good side of the stop. */
  predicate TargetBeyondStop(b: Bracket)
  {
    Move(b.side, b.stop, b.target) >= 0.0
  }

  predicate Sane(s: FibState)
  {
    && (s.position.Some? ==> TargetBeyondStop(s.position.value))
    && (s.pending.Some? ==> s.pending.value.atr >= 0.0)
  }

  /** The average true range is never negative. */
  ghost predicate AtrNonNegative(d: Features)
    requires WellFormed(d)
  {
    forall i :: 0 <= i < |d.atr| && d.atr[i].Some? ==> d.atr[i].value >= 0.0
  }

  lemma StopDistanceNonNegative(d: Features, cfg: Config, prm: Params, i: nat, atr: real)
    requires WellFormed(d) && i < |d.bars| && atr >= 0.0
    requires StopDistance(d, cfg, prm, i, atr).Ok?
    ensures StopDistance(d, cfg, prm, i, atr).value >= 0.0
  {
    ProductNonNegative(atr, cfg.slAtr);
  }

  lemma BracketIsOrdered(d: Features, cfg: Config, prm: Params, i: nat, e: Pending, distance: real)
    requires i < |d.bars| && e.atr >= 0.0 && distance >= 0.0
    ensures TargetBeyondStop(EntryBracket(d, cfg, prm, i, e, distance))
  {
    ProductNonNegative(e.atr, cfg.tpAtr);
  }

  /** With a fixed lot the net result grows with the net move. */
  lemma FixedLotMonotone(a: Scenario, usd: pos, low: real, high: real)
    requires low <= high
    ensures FixedLotNetPnl(low, usd, a) <= FixedLotNetPnl(high, usd, a)
  {
    ProductPositive(LotUnits(a), usd);
    var u := LotUnits(a) * usd;
    ProductNonNegative(u, high - low);
    assert u * (high - low) == u * high - u * low;
    assert LotUnits(a) * low * usd == u * low && LotUnits(a) * high * usd == u * high;
  }

  /** On any bar both tie-breaks leave or both stay, and stop-first never pays more. */
  lemma ExitBeside(d: Features, cfg: Config, prm: Params, i: nat, s: FibState, u: FibState, stopWins: bool)
    requires WellFormed(d) && i < |d.bars| && prm.account.Some? && Beside(s, u) && Sane(s)
    ensures Beside(Exit(d, cfg, prm, i, s, true), Exit(d, cfg, prm, i, u, stopWins))
  {
    var x, y := ExitNow(d, cfg, i, s, true), ExitNow(d, cfg, i, u, stopWins);
    if x.Some? {
      CloseBeside(d, cfg, prm, s.position.value, s.balance, u.balance, i, x.value, y.value);
    }
  }

  lemma CloseBeside(d: Features, cfg: Config, prm: Params, b: Bracket, balance: real, other: real, i: nat,
                    x: Reason, y: Reason)
    requires WellFormed(d) && i < |d.bars| && prm.account.Some? && b.risk > 0.0 && TargetBeyondStop(b)
    requires x == y || (x == Stop && y == Target)
    ensures NoWorse(CloseTrade(d, cfg, prm, b, balance, i, x), CloseTrade(d, cfg, prm, b, other, i, y))
  {
    var low := Move(b.side, b.entryPrice, ExitFill(prm.costs, ExitMid(b, d.bars[i], x), b.side, prm.pip));
    var high := Move(b.side, b.entryPrice, ExitFill(prm.costs, ExitMid(b, d.bars[i], y), b.side, prm.pip));
    assert low <= high;
    FixedLotMonotone(prm.account.value, d.usd[i], low, high);
  }

  lemma FillBeside(d: Features, cfg: Config, prm: Params, i: nat, s: FibState, u: FibState)
    requires WellFormed(d) && i < |d.bars| && Beside(s, u) && Sane(s)
    ensures
      var r, v := Fill(d, cfg, prm, i, s), Fill(d, cfg, prm, i, u);
      && (r.Ok? <==> v.Ok?) && (r.Err? ==> v == r)
      && (r.Ok? ==> Beside(r.value, v.value) && Sane(r.value))
  {
    var r := Fill(d, cfg, prm, i, s);
    if r.Ok? && s.pending.Some? && s.position.None? {
      var e := s.pending.value;
      StopDistanceNonNegative(d, cfg, prm, i, e.atr);
      BracketIsOrdered(d, cfg, prm, i, e, StopDistance(d, cfg, prm, i, e.atr).value);
    }
  }

  /** The entry test sees no balance. */
  lemma LookBeside(d: Features, cfg: Config, i: nat, s: FibState, u: FibState)
    requires WellFormed(d) && i < |d.bars| && AtrNonNegative(d) && Beside(s, u) && Sane(s)
    ensures Beside(Look(d, cfg, i, s), Look(d, cfg, i, u)) && Sane(Look(d, cfg, i, s))
  {
    var h := SwingOn(d, cfg, i, s.history);
    TestBeside(d, cfg, i, s.(history := h), u.(history := h));
  }

  lemma TestBeside(d: Features, cfg: Config, i: nat, s: FibState, u: FibState)
    requires WellFormed(d) && i < |d.bars| && AtrNonNegative(d) && Beside(s, u) && Sane(s)
    ensures Beside(Test(d, cfg, i, s), Test(d, cfg, i, u)) && Sane(Test(d, cfg, i, s))
  {
  }

  lemma ExitKeepsSane(d: Features, cfg: Config, prm: Params, i: nat, s: FibState)
    requires WellFormed(d) && i < |d.bars| && Sane(s)
    ensures Sane(Exit(d, cfg, prm, i, s, true))
  {
  }

  lemma StepBeside(d: Features, cfg: Config, prm: Params, i: nat, s: FibState, u: FibState, stopWins: bool)
    requires WellFormed(d) && i < |d.bars| && prm.account.Some? && AtrNonNegative(d) && Beside(s, u) && Sane(s)
    ensures
      var r, v := StepBar(d, cfg, prm, i, s, true), StepBar(d, cfg, prm, i, u, stopWins);
      && (r.Ok? <==> v.Ok?) && (r.Err? ==> v == r)
      && (r.Ok? ==> Beside(r.value, v.value) && Sane(r.value))
  {
    FillBeside(d, cfg, prm, i, s, u);
    var f, g := Fill(d, cfg, prm, i, s), Fill(d, cfg, prm, i, u);
    if f.Ok? {
      var e, o := Exit(d, cfg, prm, i, f.value, true), Exit(d, cfg, prm, i, g.value, stopWins);
      assert Beside(e, o) && Sane(e) by {
        ExitBeside(d, cfg, prm, i, f.value, g.value, stopWins);
        ExitKeepsSane(d, cfg, prm, i, f.value);
      }
      assert Beside(Look(d, cfg, i, e), Look(d, cfg, i, o)) && Sane(Look(d, cfg, i, e)) by {
        LookBeside(d, cfg, i, e, o);
      }
    }
  }

  /** Stop-first is pessimal: with a fixed-lot account, whatever an oracle decides on bars that
      touch both levels, its run has the same entries and exits, bar for bar, and no trade of
      it and no balance of it is worse than the source's. */
  lemma {:induction false} StopFirstIsPessimal(d: Features, cfg: Config, prm: Params, tie: seq<bool>, k: nat)
    requires WellFormed(d) && k <= |d.bars| == |tie| && prm.account.Some? && AtrNonNegative(d)
    ensures
      var r, v := Run(d, cfg, prm, k), OracleRun(d, cfg, prm, tie, k);
      && (r.Ok? <==> v.Ok?) && (r.Err? ==> v == r)
      && (r.Ok? ==> Beside(r.value, v.value) && Sane(r.value))
  {
    hide StepBar;
    if k > 0 {
      StopFirstIsPessimal(d, cfg, prm, tie, k - 1);
      var r, v := Run(d, cfg, prm, k - 1), OracleRun(d, cfg, prm, tie, k - 1);
      if r.Ok? {
        StepBeside(d, cfg, prm, k - 1, r.value, v.value, tie[k - 1]);
      }
    }
  }
}
