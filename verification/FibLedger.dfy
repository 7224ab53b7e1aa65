/** What every HTF-Fib trade adds to the balance, from its fills and the balance then held. */
module FibLedger {
  import opened Wrappers
  import opened Costs
  import opened Brackets
  import opened FibModel
  import opened FibWalk
  import opened FibRuns

  function BalanceBefore(prm: Params, trades: seq<Trade>, j: nat): real
    requires j <= |trades|
  {
    StartingCapital(prm) + TotalPnl(trades[..j])
  }

  /** The trade is its bracket closed on its exit bar, sized by this balance. */
  ghost predicate ResultIs(d: Features, cfg: Config, prm: Params, t: Trade, balance: real)
    requires WellFormed(d)
  {
    && t.exitIndex < |d.bars| && t.bracket.risk > 0.0
    && t == CloseTrade(d, cfg, prm, t.bracket, balance, t.exitIndex, t.reason)
  }

  ghost predicate ResultsInv(d: Features, cfg: Config, prm: Params, s: FibState)
    requires WellFormed(d)
  {
    forall j :: 0 <= j < |s.trades| ==> ResultIs(d, cfg, prm, s.trades[j], BalanceBefore(prm, s.trades, j))
  }

  lemma CloseKeepsResults(d: Features, cfg: Config, prm: Params, trades: seq<Trade>, t: Trade)
    requires WellFormed(d)
    requires forall j :: 0 <= j < |trades| ==> ResultIs(d, cfg, prm, trades[j], BalanceBefore(prm, trades, j))
    requires ResultIs(d, cfg, prm, t, BalanceBefore(prm, trades, |trades|))
    ensures forall j :: 0 <= j < |trades| + 1 ==>
      ResultIs(d, cfg, prm, (trades + [t])[j], BalanceBefore(prm, trades + [t], j))
  {
    hide ResultIs;
    var all := trades + [t];
    forall j | 0 <= j < |all| ensures ResultIs(d, cfg, prm, all[j], BalanceBefore(prm, all, j)) {
      assert all[..j] == trades[..j];
    }
  }

  lemma StepKeepsResults(d: Features, cfg: Config, prm: Params, i: nat, s: FibState)
    requires WellFormed(d) && i < |d.bars| && LedgerBalances(prm, s) && ResultsInv(d, cfg, prm, s)
    ensures
      var r := StepBar(d, cfg, prm, i, s, true);
      r.Ok? ==> ResultsInv(d, cfg, prm, r.value)
  {
    hide Look, ExitReason, NetCash, RiskCash, Quantity, StopDistance, TotalPnl;
    var f := Fill(d, cfg, prm, i, s);
    if f.Ok? {
      var e := Exit(d, cfg, prm, i, f.value, true);
      var reason := ExitNow(d, cfg, i, f.value, true);
      if reason.Some? {
        assert s.trades[..|s.trades|] == s.trades;
        CloseKeepsResults(d, cfg, prm, s.trades,
                          CloseTrade(d, cfg, prm, f.value.position.value, s.balance, i, reason.value));
      }
      LookKeepsTradeList(d, cfg, i, e);
    }
  }

  lemma LookKeepsTradeList(d: Features, cfg: Config, i: nat, s: FibState)
    requires WellFormed(d) && i < |d.bars|
    ensures Look(d, cfg, i, s).trades == s.trades
  {
  }

  /** Every closed trade of every run carries the result that its fills, the conversion rate of its
      exit bar and the balance then held give it. */
  lemma {:induction false} ResultsFollowFills(d: Features, cfg: Config, prm: Params, k: nat)
    requires WellFormed(d) && k <= |d.bars| && Run(d, cfg, prm, k).Ok?
    ensures ResultsInv(d, cfg, prm, Run(d, cfg, prm, k).value)
  {
    hide StepBar, ResultIs, Accounted, TradesAreFirstTouch, PositionIsUntouched, WellSpaced;
    if k > 0 {
      ResultsFollowFills(d, cfg, prm, k - 1);
      RunKeepsInv(d, cfg, prm, k - 1);
      StepKeepsResults(d, cfg, prm, k - 1, Run(d, cfg, prm, k - 1).value);
    }
  }

  /** A fixed lot earns its move from mid to mid, less the spread and two slippages, on the units of
      the lot at the rate of the exit bar, less its commission, whatever the balance. */
  lemma FixedLotResult(d: Features, cfg: Config, prm: Params, t: Trade, balance: real)
    requires WellFormed(d) && ResultIs(d, cfg, prm, t, balance) && prm.account.Some?
    requires OpenFill(t.bracket, d.bars, prm.costs, prm.pip)
    ensures
      var b, mid := t.bracket, ExitMid(t.bracket, d.bars[t.exitIndex], t.reason);
      var costs := (prm.costs.spreadPips + 2.0 * prm.costs.slippagePips) * prm.pip;
      t.netPnl == FixedLotNetPnl(Move(b.side, b.entryMid, mid) - costs, d.usd[t.exitIndex], prm.account.value)
  {
    RoundTripCost(prm.costs, t.bracket.side, t.bracket.entryMid,
                  ExitMid(t.bracket, d.bars[t.exitIndex], t.reason), prm.pip);
  }
}
